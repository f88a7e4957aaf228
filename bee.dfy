/**
 * matts_tools/my_bee.py and the unit kinds of matts_tools/my_volant.py: workers, queens
 * and seeds, the energy cost of a step, drinking, founding a hive, and the list encoding.
 */
module Units {
  import opened Wrappers
  import opened Hiveminder
  import opened Json
  import opened Tiles

  /** The key of a unit in the board's `inflight` dictionary. */
  type UnitId = string

  /** A flying unit. Workers and queens carry energy, the game parameters they were built
      with, and nectar; a seed has only a tile and a heading. */
  datatype Volant =
    | Bee(x: int, y: int, heading: Heading, energy: int, params: GameParams, nectar: int)
    | QueenBee(x: int, y: int, heading: Heading, energy: int, params: GameParams, nectar: int)
    | Seed(x: int, y: int, heading: Heading)
  {
    /** `isinstance(v, Bee)`: true of workers and, through inheritance, of queens. */
    predicate IsBee() {
      !Seed?
    }

    function Tile(): Tile {
      (x, y)
    }
  }

  function HiveTile(h: Hive): Tile {
    (h.x, h.y)
  }

  /** The tile one step ahead: heading_to_delta(heading, is_even(x)) added to (x, y). */
  function Step(v: Volant, delta: Delta): Tile {
    var d := delta(v.heading, IsEven(v.x));
    (v.x + d.0, v.y + d.1)
  }

  /** `Bee.advance` on top of `Volant.advance`: every unit moves one step and keeps its heading;
      a worker or queen also burns 1 energy, or 2 once its nectar is at capacity. */
  function Advance(v: Volant, delta: Delta): (r: Volant)
    ensures r.Tile() == Step(v, delta)
    ensures r.Seed? ==> v.Seed? && r == Seed(r.x, r.y, v.heading)
    ensures r.Bee? ==> v.Bee? && r == Bee(r.x, r.y, v.heading, r.energy, v.params, v.nectar)
    ensures r.QueenBee? ==> v.QueenBee? && r == QueenBee(r.x, r.y, v.heading, r.energy, v.params, v.nectar)
    ensures v.IsBee() ==> (r.energy == v.energy - 1 <==> v.nectar < v.params.beeNectarCapacity)
    ensures v.IsBee() ==> (r.energy == v.energy - 2 <==> v.nectar >= v.params.beeNectarCapacity)
  {
    var (nx, ny) := Step(v, delta);
    match v
    case Seed(_, _, h) => Seed(nx, ny, h)
    case Bee(_, _, h, e, p, n) => Bee(nx, ny, h, e - (if n < p.beeNectarCapacity then 1 else 2), p, n)
    case QueenBee(_, _, h, e, p, n) => QueenBee(nx, ny, h, e - (if n < p.beeNectarCapacity then 1 else 2), p, n)
  }

  /** `Bee.drink(amount)`: nectar rises to at most the capacity, energy by the boost per
      unit of nectar offered. */
  function Drink(b: Volant, amount: int): (r: Volant)
    requires b.IsBee()
    ensures r.Bee? == b.Bee? && r.QueenBee? == b.QueenBee?
    ensures r.x == b.x && r.y == b.y && r.heading == b.heading && r.params == b.params
    ensures r.nectar == Min(b.params.beeNectarCapacity, b.nectar + amount)
    ensures r.nectar <= b.params.beeNectarCapacity
    ensures r.energy == b.energy + b.params.beeEnergyBoostPerNectar * amount
  {
    b.(nectar := Min(b.params.beeNectarCapacity, b.nectar + amount),
       energy := b.energy + b.params.beeEnergyBoostPerNectar * amount)
  }

  /** A bee already at capacity gains no nectar but still gains the full energy boost. */
  lemma DrinkWhenFull(b: Volant, amount: int)
    requires b.IsBee() && b.nectar >= b.params.beeNectarCapacity && amount >= 0
    ensures Drink(b, amount).nectar == b.params.beeNectarCapacity
    ensures Drink(b, amount).energy - b.energy == b.params.beeEnergyBoostPerNectar * amount
  {
  }

  /** `QueenBee.create_hive`: the hives off the queen's tile, in order, then one new hive on
      her tile holding her nectar. */
  function CreateHive(q: Volant, hives: seq<Hive>): (r: seq<Hive>)
    requires q.QueenBee?
    ensures |r| >= 1 && r[|r| - 1] == Hive(q.x, q.y, q.nectar)
    ensures r[..|r| - 1] == DelAtCoordinate(hives, HiveTile, q.Tile())
    ensures forall i :: 0 <= i < |r| - 1 ==> HiveTile(r[i]) != q.Tile() && r[i] in hives
    ensures forall i :: 0 <= i < |hives| && HiveTile(hives[i]) != q.Tile() ==> hives[i] in r
  {
    var kept := DelAtCoordinate(hives, HiveTile, q.Tile());
    var r := kept + [Hive(q.x, q.y, q.nectar)];
    assert r[..|r| - 1] == kept;
    r
  }

  function TagOf(v: Volant): string {
    match v
    case Bee(_, _, _, _, _, _) => "Bee"
    case QueenBee(_, _, _, _, _, _) => "QueenBee"
    case Seed(_, _, _) => "Seed"
  }

  /** `to_json`: [class name, x, y, heading] for a seed, followed by
      [energy, game_params, nectar] for a worker or queen. */
  function VolantToJson(v: Volant): seq<Value> {
    var head := [Str(TagOf(v)), Int(v.x), Int(v.y), Int(v.heading)];
    if v.IsBee() then head + [Int(v.energy), Params(v.params), Int(v.nectar)] else head
  }

  predicate IsHeadingValue(e: Value) {
    e.Int? && IsHeading(e.i)
  }

  /** `volant_from_json`: the class named by json[0] rebuilt from the rest. A worker or queen
      takes `*json[1:-2]` as (x, y, heading, energy), game_params = json[-2] and
      nectar = json[-1], so the list has exactly seven elements; a seed takes (x, y, heading).
      An unknown name, a wrong length or a value of the wrong kind gives None. */
  function VolantFromJson(j: seq<Value>): (r: Option<Volant>)
    ensures r.Some? ==> |j| >= 4 && j[0] == Str(TagOf(r.value))
    ensures r.Some? ==> j[1] == Int(r.value.x) && j[2] == Int(r.value.y) && j[3] == Int(r.value.heading)
  {
    if |j| == 0 || !j[0].Str? then None
    else if j[0].s == "Seed" then
      if |j| == 4 && j[1].Int? && j[2].Int? && IsHeadingValue(j[3])
      then Some(Seed(j[1].i, j[2].i, j[3].i)) else None
    else if j[0].s == "Bee" || j[0].s == "QueenBee" then
      if |j| == 7 && j[1].Int? && j[2].Int? && IsHeadingValue(j[3]) && j[4].Int? && j[5].Params? && j[6].Int?
      then
        if j[0].s == "Bee" then Some(Bee(j[1].i, j[2].i, j[3].i, j[4].i, j[5].p, j[6].i))
        else Some(QueenBee(j[1].i, j[2].i, j[3].i, j[4].i, j[5].p, j[6].i))
      else None
    else None
  }

  /** A worker's or queen's list is laid out [tag, x, y, heading, energy, params, nectar]. */
  lemma BeeJsonLayout(b: Volant)
    requires b.IsBee()
    ensures var j := VolantToJson(b);
      |j| == 7 && j[0] == Str(TagOf(b)) && j[1] == Int(b.x) && j[2] == Int(b.y) &&
      j[3] == Int(b.heading) && j[4] == Int(b.energy) && j[5] == Params(b.params) && j[6] == Int(b.nectar)
  {
  }

  /** Decoding an encoded unit gives it back. */
  lemma VolantRoundTrip(v: Volant)
    ensures VolantFromJson(VolantToJson(v)) == Some(v)
  {
  }

  /** A list that decodes is exactly the encoding of the unit it decodes to. */
  lemma VolantJsonCanonical(j: seq<Value>)
    requires VolantFromJson(j).Some?
    ensures VolantToJson(VolantFromJson(j).value) == j
  {
  }

  /** `Hive.to_json` and `Hive(*json)` (hiveminder.hive, not part of this model): [x, y, nectar]. */
  function HiveToJson(h: Hive): seq<Value> {
    [Int(h.x), Int(h.y), Int(h.nectar)]
  }

  function HiveFromJson(j: seq<Value>): (r: Option<Hive>)
    ensures r.Some? ==> HiveToJson(r.value) == j
  {
    if |j| == 3 && j[0].Int? && j[1].Int? && j[2].Int? then Some(Hive(j[0].i, j[1].i, j[2].i)) else None
  }

  lemma HiveRoundTrip(h: Hive)
    ensures HiveFromJson(HiveToJson(h)) == Some(h)
  {
  }
}
