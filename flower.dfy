/** matts_tools/my_flower.py: the plain Flower, its visit rule and its list encoding. */
module Flowers {
  import opened Wrappers
  import opened Hiveminder
  import opened Json

  /** A flower on tile (x, y). `expires` is the turn at which it dies; the constructor
      leaves it undefined (None) unless the caller supplies one. */
  datatype Flower = Flower(x: int, y: int, potency: int, visits: int, expires: Option<int>)

  function FlowerTile(f: Flower): (int, int) {
    (f.x, f.y)
  }

  /** `Flower(x, y, game_params, potency=1, visits=0, expires=None)`. */
  function NewFlower(x: int, y: int, potency: int := 1, visits: int := 0, expires: Option<int> := None): Flower {
    Flower(x, y, potency, visits, expires)
  }

  /** A flower built with the defaults has potency 1, no visits and no expiry. */
  lemma NewFlowerDefaults(x: int, y: int)
    ensures NewFlower(x, y) == Flower(x, y, 1, 0, None)
    ensures NewFlower(x, y, expires := Some(7)).potency == 1
  {
  }

  /** The potency a flower with `visits` visits has after a visit. */
  function PotencyFor(visits: int, p: GameParams): int {
    Min(3, visits / p.flowerVisitPotencyRatio + 1)
  }

  /** `Flower.visit`: count the visit, extend the life, recompute potency, and say whether
      the visit spawns a seed. Python raises TypeError on an undefined expiry. */
  function Visit(f: Flower, p: GameParams): (r: (Flower, bool))
    requires f.expires.Some?
    ensures r.0.x == f.x && r.0.y == f.y
    ensures r.0.visits == f.visits + 1
    ensures r.0.expires == Some(f.expires.value + p.flowerLifespanVisitImpact)
    ensures r.0.potency == PotencyFor(r.0.visits, p)
    ensures r.1 <==> r.0.visits >= p.flowerSeedVisitInitialThreshold &&
                     r.0.visits % p.flowerSeedVisitSubsequentThreshold == 0
  {
    var visits := f.visits + 1;
    var g := f.(visits := visits,
                expires := Some(f.expires.value + p.flowerLifespanVisitImpact),
                potency := PotencyFor(visits, p));
    (g, visits >= p.flowerSeedVisitInitialThreshold && visits % p.flowerSeedVisitSubsequentThreshold == 0)
  }

  /** After a visit to a flower with a non-negative visit count, potency lies in [1, 3]. */
  lemma VisitPotencyRange(f: Flower, p: GameParams)
    requires f.expires.Some? && f.visits >= 0
    ensures 1 <= Visit(f, p).0.potency <= 3
  {
    var v := f.visits + 1;
    assert v / p.flowerVisitPotencyRatio >= 0;
  }

  /** Potency never falls from one visit to the next. */
  lemma VisitPotencyMonotone(f: Flower, p: GameParams)
    requires f.expires.Some?
    ensures Visit(Visit(f, p).0, p).0.potency >= Visit(f, p).0.potency
  {
    var r := p.flowerVisitPotencyRatio;
    DivMonotone(f.visits + 1, f.visits + 2, r);
  }

  /** Once a flower has 2 ratio - 1 visits, its next visit gives it the full potency of 3. */
  lemma VisitPotencySaturates(f: Flower, p: GameParams)
    requires f.expires.Some? && f.visits >= 2 * p.flowerVisitPotencyRatio - 1
    ensures Visit(f, p).0.potency == 3
  {
    var r := p.flowerVisitPotencyRatio;
    DivMonotone(2 * r, f.visits + 1, r);
    assert (2 * r) / r == 2;
  }

  lemma DivMonotone(a: int, b: int, d: Pos)
    requires a <= b
    ensures a / d <= b / d
  {
    var qa, qb := a / d, b / d;
    assert a == d * qa + a % d && b == d * qb + b % d;
    if qa > qb {
      MulMonotone(d, qb + 1, qa);
    }
  }

  lemma MulMonotone(d: Pos, m: int, n: int)
    requires m <= n
    ensures d * m <= d * n
    ensures d * (m + 1) == d * m + d
  {
    assert d * n - d * m == d * (n - m);
  }

  /** `Flower.to_json`: [x, y, None, potency, visits, expires, class name]. */
  function FlowerToJson(f: Flower): seq<Value> {
    [Int(f.x), Int(f.y), Null, Int(f.potency), Int(f.visits),
     if f.expires.Some? then Int(f.expires.value) else Null, Str("Flower")]
  }

  /** `Flower.from_json` for the plain Flower: `Flower(json[0], json[1], None, *json[3:-1])`.
      The last element names the class; `json[2]` is ignored; after it come up to three
      positional arguments (potency, visits, expires), the rest taking their defaults.
      A list the constructor would refuse, or a value of the wrong kind, gives None. */
  function FlowerFromJson(j: seq<Value>): (r: Option<Flower>)
    ensures r.Some? ==> 3 <= |j| <= 7 && j[|j| - 1] == Str("Flower")
    ensures r.Some? ==> j[0] == Int(r.value.x) && j[1] == Int(r.value.y)
  {
    if |j| < 3 || |j| > 7 || j[|j| - 1] != Str("Flower") || !j[0].Int? || !j[1].Int? then None
    else
      var extra := if |j| > 4 then j[3..|j| - 1] else [];
      if |extra| >= 1 && !extra[0].Int? then None
      else if |extra| >= 2 && !extra[1].Int? then None
      else if |extra| >= 3 && !(extra[2].Int? || extra[2].Null?) then None
      else
        var potency := if |extra| >= 1 then extra[0].i else 1;
        var visits := if |extra| >= 2 then extra[1].i else 0;
        var expires := if |extra| >= 3 && extra[2].Int? then Some(extra[2].i) else None;
        Some(NewFlower(j[0].i, j[1].i, potency, visits, expires))
  }

  /** Decoding an encoded flower gives it back: x, y, potency, visits and expiry survive. */
  lemma FlowerRoundTrip(f: Flower)
    ensures FlowerFromJson(FlowerToJson(f)) == Some(f)
  {
    var j := FlowerToJson(f);
    assert j[3..|j| - 1] == [Int(f.potency), Int(f.visits), j[5]];
  }

  /** A full-length list (with None in the ignored slot) that decodes is the encoding of
      what it decodes to. */
  lemma FlowerJsonCanonical(j: seq<Value>)
    requires |j| == 7 && j[2] == Null && FlowerFromJson(j).Some?
    ensures FlowerToJson(FlowerFromJson(j).value) == j
  {
    assert j[3..|j| - 1] == [j[3], j[4], j[5]];
  }
}
