/**
 * matts_tools/lite_board.py: the board the lookahead plays on. `LiteBoard` holds the hive
 * and flower lists, the `inflight` dictionary and the two counters, and changes them in
 * place, one step of the tick per method; each method is proved to leave the state that
 * the matching function of module Simulation describes.
 */
module Board {
  import opened Wrappers
  import opened Hiveminder
  import opened Json
  import opened Tiles
  import opened Flowers
  import opened Units
  import opened Simulation

  /** The dictionary `LiteBoard.to_json` returns. */
  datatype BoardJson = BoardJson(
    boardWidth: int,
    boardHeight: int,
    hives: seq<seq<Value>>,
    flowers: seq<seq<Value>>,
    inflight: seq<(UnitId, seq<Value>)>,
    deadBees: int,
    seedsToGen: int)

  function EncodeAll<T>(xs: seq<T>, enc: T -> seq<Value>): (r: seq<seq<Value>>)
    ensures |r| == |xs| && forall i :: 0 <= i < |xs| ==> r[i] == enc(xs[i])
  {
    seq(|xs|, i requires 0 <= i < |xs| => enc(xs[i]))
  }

  /** Decodes every list, failing as soon as one fails. */
  function DecodeAll<T>(js: seq<seq<Value>>, dec: seq<Value> -> Option<T>): (r: Option<seq<T>>)
    ensures r.Some? ==> |r.value| == |js| && forall i :: 0 <= i < |js| ==> dec(js[i]) == Some(r.value[i])
  {
    if js == [] then Some([])
    else
      match (DecodeAll(js[..|js| - 1], dec), dec(js[|js| - 1]))
      case (Some(xs), Some(x)) => Some(xs + [x])
      case _ => None
  }

  lemma {:induction false} DecodeAllEncodeAll<T>(xs: seq<T>, enc: T -> seq<Value>, dec: seq<Value> -> Option<T>)
    requires forall i :: 0 <= i < |xs| ==> dec(enc(xs[i])) == Some(xs[i])
    ensures DecodeAll(EncodeAll(xs, enc), dec) == Some(xs)
  {
    if xs != [] {
      var n := |xs| - 1;
      assert EncodeAll(xs, enc)[..n] == EncodeAll(xs[..n], enc);
      DecodeAllEncodeAll(xs[..n], enc, dec);
      assert xs[..n] + [xs[n]] == xs;
    }
  }

  function EncodeUnits(u: Inflight): (r: seq<(UnitId, seq<Value>)>)
    ensures |r| == |u| && forall i :: 0 <= i < |u| ==> r[i] == (u[i].0, VolantToJson(u[i].1))
  {
    seq(|u|, i requires 0 <= i < |u| => (u[i].0, VolantToJson(u[i].1)))
  }

  function DecodeUnits(js: seq<(UnitId, seq<Value>)>): (r: Option<Inflight>)
    ensures r.Some? ==> |r.value| == |js|
    ensures r.Some? ==> forall i :: 0 <= i < |js| ==> r.value[i].0 == js[i].0 && VolantFromJson(js[i].1) == Some(r.value[i].1)
  {
    if js == [] then Some([])
    else
      var (id, j) := js[|js| - 1];
      match (DecodeUnits(js[..|js| - 1]), VolantFromJson(j))
      case (Some(u), Some(v)) => Some(u + [(id, v)])
      case _ => None
  }

  lemma {:induction false} DecodeUnitsEncodeUnits(u: Inflight)
    ensures DecodeUnits(EncodeUnits(u)) == Some(u)
  {
    if u != [] {
      var n := |u| - 1;
      assert EncodeUnits(u)[..n] == EncodeUnits(u[..n]);
      DecodeUnitsEncodeUnits(u[..n]);
      VolantRoundTrip(u[n].1);
      assert u[..n] + [u[n]] == u;
    }
  }

  /** What a child node is built from: the lists of a board's JSON, read back with
      `Hive(*h)`, `Flower.from_json` and `volant_from_json`. */
  function DecodeBoard(j: BoardJson): Option<Snapshot> {
    match (DecodeAll(j.hives, HiveFromJson), DecodeAll(j.flowers, FlowerFromJson), DecodeUnits(j.inflight))
    case (Some(hs), Some(fs), Some(u)) => Some(Snapshot(hs, fs, u, j.deadBees, j.seedsToGen))
    case _ => None
  }

  function EncodeBoard(w: World, s: Snapshot): BoardJson {
    BoardJson(w.width, w.height, EncodeAll(s.hives, HiveToJson), EncodeAll(s.flowers, FlowerToJson),
              EncodeUnits(s.inflight), s.deadBees, s.seedsToGen)
  }

  /** The loop of `land_bees` over the units in order, on the hives and loss counter it
      updates: the new hives and count, and the keys of the units that landed. */
  method LandAll(units: Inflight, hives0: seq<Hive>, tiles: seq<Tile>, dead0: int) returns (hs: seq<Hive>, dead: int, landed: set<UnitId>)
    requires |tiles| == |hives0|
    ensures LandState(hs, dead) == LandUpTo(units, tiles, LandState(hives0, dead0), |units|)
    ensures landed == LandedIds(units, tiles)
  {
    hs, dead, landed := hives0, dead0, {};
    for i := 0 to |units|
      invariant |hs| == |tiles|
      invariant LandState(hs, dead) == LandUpTo(units, tiles, LandState(hives0, dead0), i)
      invariant landed == LandedIds(units[..i], tiles)
    {
      var (id, v) := units[i];
      LandedIdsStep(units, tiles, i);
      var j := LastIndex(tiles, v.Tile());
      if v.IsBee() && j >= 0 {
        if v.QueenBee? {
          dead := dead + 1;
        } else {
          hs := hs[j := hs[j].(nectar := hs[j].nectar + v.nectar)];
        }
        landed := landed + {id};
      }
    }
    assert units[..|units|] == units;
  }

  /** The loop of `visit_flowers` over the units, on the flower tiles taken before it. */
  method VisitAll(p: GameParams, tiles: seq<Tile>, st0: VisitState) returns (st: VisitState)
    requires |tiles| == |st0.flowers| && AllExpiriesDefined(st0.flowers)
    ensures st == VisitUpTo(p, tiles, st0, |st0.units|)
  {
    var units, flowers, seeds := st0.units, st0.flowers, st0.seeds;
    for i := 0 to |st0.units|
      invariant VisitState(units, flowers, seeds) == VisitUpTo(p, tiles, st0, i)
    {
      var (id, v) := units[i];
      var j := LastIndex(tiles, v.Tile());
      if v.IsBee() && j >= 0 {
        var f := flowers[j];
        units := units[i := (id, Drink(v, f.potency))];
        var (g, seed) := Visit(f, p);
        flowers := flowers[j := g];
        if seed {
          seeds := seeds + 1;
        }
      }
    }
    st := VisitState(units, flowers, seeds);
  }

  /** Reading a board's JSON back gives the same board. */
  lemma BoardRoundTrip(w: World, s: Snapshot)
    ensures DecodeBoard(EncodeBoard(w, s)) == Some(s)
  {
    forall i | 0 <= i < |s.hives|
      ensures HiveFromJson(HiveToJson(s.hives[i])) == Some(s.hives[i])
    {
      HiveRoundTrip(s.hives[i]);
    }
    DecodeAllEncodeAll(s.hives, HiveToJson, HiveFromJson);
    forall i | 0 <= i < |s.flowers|
      ensures FlowerFromJson(FlowerToJson(s.flowers[i])) == Some(s.flowers[i])
    {
      FlowerRoundTrip(s.flowers[i]);
    }
    DecodeAllEncodeAll(s.flowers, FlowerToJson, FlowerFromJson);
    DecodeUnitsEncodeUnits(s.inflight);
  }

  class LiteBoard {
    const world: World
    var hives: seq<Hive>
    var flowers: seq<Flower>
    var inflight: Inflight
    var deadBees: int
    var seedsToGen: int

    function State(): Snapshot
      reads this
    {
      Snapshot(hives, flowers, inflight, deadBees, seedsToGen)
    }

    constructor (world: World, hives: seq<Hive>, flowers: seq<Flower>, inflight: Inflight := [],
                 deadBees: int := 0, seedsToGen: int := 0)
      ensures this.world == world
      ensures State() == Snapshot(hives, flowers, inflight, deadBees, seedsToGen)
    {
      this.world := world;
      this.hives := hives;
      this.flowers := flowers;
      this.inflight := inflight;
      this.deadBees := deadBees;
      this.seedsToGen := seedsToGen;
    }

    /** `make_turn`: the seven steps in order; an error stops the tick where it arises. */
    method MakeTurn(cmd: Command, turn: int) returns (r: Result<(), Error>)
      modifies this
      ensures var spec := Tick(world, old(State()), cmd, turn);
        (r.Ok? <==> spec.Ok?) && (r.Ok? ==> State() == spec.value) && (r.Err? ==> r.error == spec.error)
    {
      r := ApplyCommand(cmd, turn);
      if r.Err? {
        return;
      }
      r := RemoveDeadFlowers(turn);
      if r.Err? {
        return;
      }
      MoveVolants();
      r := SendVolants();
      if r.Err? {
        return;
      }
      VisitFlowers();
      LandBees();
      DetectCrashes();
    }

    /** `apply_command`. On an error the board is left as it was. */
    method ApplyCommand(cmd: Command, turn: int) returns (r: Result<(), Error>)
      modifies this
      ensures var spec := Simulation.ApplyCommand(world, old(State()), cmd, turn);
        (r.Ok? <==> spec.Ok?) && (r.Ok? ==> State() == spec.value) &&
        (r.Err? ==> r.error == spec.error && State() == old(State()))
    {
      if cmd.NoCommand? || cmd.order.NoOrder? {
        return Ok(());
      }
      var k := IndexOfId(inflight, cmd.entity);
      if k < 0 {
        return Err(UnknownEntity);
      }
      var v := inflight[k].1;
      if v.Seed? && cmd.order.PlantFlower? {
        PlantFlower(cmd.entity, v, turn);
      } else if v.QueenBee? && cmd.order.BuildHive? {
        BuildHive(cmd.entity, v);
      } else if !cmd.order.Rotate? || cmd.order.heading !in LegalNewHeadings(v.heading) {
        return Err(IllegalHeading);
      } else {
        var h: Heading := cmd.order.heading;
        inflight := inflight[k := (cmd.entity, v.(heading := h))];
      }
      return Ok(());
    }

    /** The "flower" order for seed `v` under key `id`: whatever stands on its tile is
        cleared, a new flower grows there, and the seed leaves the air. */
    method PlantFlower(id: UnitId, v: Volant, turn: int)
      requires v.Seed?
      modifies this
      ensures State() == PlantFlowerStep(world, old(State()), id, v, turn)
    {
      var flower := NewFlower(v.x, v.y, expires := Some(turn + world.params.flowerLifespan));
      hives, flowers, inflight :=
        DelAtCoordinate(hives, HiveTile, v.Tile()), DelAtCoordinate(flowers, FlowerTile, v.Tile()) + [flower],
        RemoveIds(inflight, {id});
    }

    /** The "create_hive" order for queen `v` under key `id`: the flowers on her tile go, she
        founds a hive there, and she leaves the air. */
    method BuildHive(id: UnitId, v: Volant)
      requires v.QueenBee?
      modifies this
      ensures State() == BuildHiveStep(old(State()), id, v)
    {
      flowers, hives, inflight :=
        DelAtCoordinate(flowers, FlowerTile, v.Tile()), CreateHive(v, hives), RemoveIds(inflight, {id});
    }

    /** `remove_dead_flowers`, with the missing `choice` supplied by the world's `pick`. */
    method RemoveDeadFlowers(turn: int) returns (r: Result<(), Error>)
      modifies this
      ensures var spec := ExpireFlowers(world.pick, old(flowers), turn);
        (r.Ok? <==> spec.Ok?) && (r.Ok? ==> State() == old(State()).(flowers := spec.value)) &&
        (r.Err? ==> r.error == spec.error && State() == old(State()))
    {
      var i := 0;
      while i < |flowers|
        invariant 0 <= i <= |flowers|
        invariant forall k :: 0 <= k < i ==> flowers[k].expires.Some?
      {
        if flowers[i].expires.None? {
          return Err(ExpiryUndefined);
        }
        i := i + 1;
      }
      var live := Unexpired(flowers, turn);
      if live != [] {
        flowers := live;
      } else if flowers != [] {
        flowers := [flowers[world.pick(flowers) % |flowers|]];
      }
      return Ok(());
    }

    /** `move_volants`: each unit in turn is replaced by its advanced self. */
    method MoveVolants()
      modifies this
      ensures State() == old(State()).(inflight := AdvanceAll(world.delta, old(inflight)))
    {
      var i := 0;
      while i < |inflight|
        invariant 0 <= i <= |inflight| == |old(inflight)|
        invariant forall k :: 0 <= k < i ==> inflight[k] == (old(inflight)[k].0, Advance(old(inflight)[k].1, world.delta))
        invariant forall k :: i <= k < |inflight| ==> inflight[k] == old(inflight)[k]
        invariant State() == old(State()).(inflight := inflight)
      {
        var (id, v) := inflight[i];
        inflight := inflight[i := (id, Advance(v, world.delta))];
        i := i + 1;
      }
    }

    /** Deletes the keys in `d` from `inflight`, one at a time. */
    method DeleteAll(d: set<UnitId>)
      modifies this
      ensures inflight == RemoveIds(old(inflight), d)
      ensures hives == old(hives) && flowers == old(flowers)
      ensures deadBees == old(deadBees) && seedsToGen == old(seedsToGen)
    {
      var todo := d;
      RemoveIdsNone(inflight);
      assert d - todo == {};
      while todo != {}
        invariant todo <= d
        invariant inflight == RemoveIds(old(inflight), d - todo)
        invariant hives == old(hives) && flowers == old(flowers)
        invariant deadBees == old(deadBees) && seedsToGen == old(seedsToGen)
        decreases |todo|
      {
        var id :| id in todo;
        RemoveIdsTwice(old(inflight), d - todo, {id});
        inflight := RemoveIds(inflight, {id});
        assert (d - todo) + {id} == d - (todo - {id});
        todo := todo - {id};
      }
      assert d - todo == d;
    }

    /** `send_volants`: collect the keys of the units off the board, then delete them. The
        wrapped position of a unit off the board is taken modulo the width and the height,
        which raises ZeroDivisionError on a board of width or height 0; the board is then
        left as it was. */
    method SendVolants() returns (r: Result<(), Error>)
      modifies this
      ensures var spec := Simulation.SendVolants(world, old(State()));
        (r.Ok? <==> spec.Ok?) && (r.Ok? ==> State() == spec.value) &&
        (r.Err? ==> r.error == spec.error && State() == old(State()))
    {
      var sent: set<UnitId> := {};
      var i := 0;
      while i < |inflight|
        invariant 0 <= i <= |inflight|
        invariant sent == OutOfBoundsIds(world, inflight[..i])
        invariant world.width == 0 || world.height == 0 ==> i == 0
        invariant State() == old(State())
      {
        var (id, v) := inflight[i];
        assert forall k :: 0 <= k < i ==> inflight[..i + 1][k] == inflight[..i][k];
        assert inflight[..i + 1][i] == inflight[i];
        if !InBounds(world, v.Tile()) {
          if world.width == 0 || world.height == 0 {
            return Err(ZeroDivisionError);
          }
          sent := sent + {id};
        }
        i := i + 1;
      }
      assert inflight[..i] == inflight;
      DeleteAll(sent);
      r := Ok(());
    }

    /** `visit_flowers`: each worker or queen on a flower tile, in dictionary order, drinks
        the current potency of the last flower listed on that tile, which is then visited. */
    method VisitFlowers()
      requires AllExpiriesDefined(flowers)
      modifies this
      ensures State() == Simulation.VisitFlowers(world.params, old(State()))
    {
      var st := VisitAll(world.params, FlowerTiles(flowers), VisitState(inflight, flowers, seedsToGen));
      inflight, flowers, seedsToGen := st.units, st.flowers, st.seeds;
    }

    /** `land_bees`: a queen on a hive tile is lost, a worker there pours its nectar into that
        tile's (last listed) hive; afterwards every worker and queen on a hive tile is deleted. */
    method LandBees()
      modifies this
      ensures State() == Simulation.LandBees(old(State()))
    {
      var hs, dead, landed := LandAll(inflight, hives, HiveTiles(hives), deadBees);
      hives, deadBees := hs, dead;
      DeleteAll(landed);
    }

    /** The loop of `detect_crashes`: one pass over `inflight` builds `bee_occupied`,
        `seed_occupied` and `opposing_states`. */
    method ScanUnits() returns (beeOcc: map<Tile, set<UnitId>>, seedOcc: map<Tile, set<UnitId>>,
                                opposing: set<(int, int, int)>)
      ensures beeOcc == Occupancy(inflight, false) && seedOcc == Occupancy(inflight, true)
      ensures opposing == OpposingStates(world.delta, inflight)
    {
      beeOcc, seedOcc, opposing := map[], map[], {};
      var i := 0;
      while i < |inflight|
        invariant 0 <= i <= |inflight|
        invariant beeOcc == Occupancy(inflight[..i], false)
        invariant seedOcc == Occupancy(inflight[..i], true)
        invariant opposing == OpposingStates(world.delta, inflight[..i])
      {
        var (id, v) := inflight[i];
        OccupancyStep(inflight, false, i);
        OccupancyStep(inflight, true, i);
        OpposingStatesStep(world.delta, inflight, i);
        var t := v.Tile();
        if v.IsBee() {
          beeOcc := beeOcc[t := (if t in beeOcc then beeOcc[t] else {}) + {id}];
          opposing := opposing + {OpposingState(world.delta, v)};
        } else {
          seedOcc := seedOcc[t := (if t in seedOcc then seedOcc[t] else {}) + {id}];
        }
        i := i + 1;
      }
      assert inflight[..i] == inflight;
    }

    /** The four sets of `detect_crashes`: collided, exhausted and head-on workers or queens
        (each excluding the ones before it) and crowded seeds. */
    method CrashSets() returns (collided: set<UnitId>, exhausted: set<UnitId>, headon: set<UnitId>,
                                seedsCollided: set<UnitId>)
      ensures collided == Collided(inflight) && exhausted == Exhausted(inflight)
      ensures headon == HeadOn(world.delta, inflight) && seedsCollided == SeedsCollided(inflight)
    {
      var beeOcc, seedOcc, opposing := ScanUnits();
      var u := inflight;
      collided := Crowded(beeOcc);
      exhausted := (set k | 0 <= k < |u| && u[k].1.IsBee() && u[k].1.energy < 0 :: u[k].0) - collided;
      headon := (set k | 0 <= k < |u| && u[k].1.IsBee() && Xyh(u[k].1) in opposing :: u[k].0) - exhausted - collided;
      seedsCollided := Crowded(seedOcc);
    }

    /** `detect_crashes`: the three kinds of lost worker or queen are counted, then the
        collided, exhausted, head-on and crowded-seed units are popped. */
    method DetectCrashes()
      modifies this
      ensures State() == Simulation.DetectCrashes(world.delta, old(State()))
    {
      var collided, exhausted, headon, seedsCollided := CrashSets();
      RecordCrashes(collided, exhausted, headon, seedsCollided);
    }

    /** The end of `detect_crashes`: the lost workers and queens are added to `dead_bees`,
        then every crashed unit is popped from `inflight`. */
    method RecordCrashes(collided: set<UnitId>, exhausted: set<UnitId>, headon: set<UnitId>,
                         seedsCollided: set<UnitId>)
      modifies this
      ensures State() == ApplyCrashes(old(State()), collided, exhausted, headon, seedsCollided)
    {
      var lost := |collided| + |exhausted| + |headon|;
      DeleteAll(collided + exhausted + headon + seedsCollided);
      deadBees := deadBees + lost;
    }

    /** `to_json`: the board as the lists a child node is built from. */
    function ToJson(): (r: BoardJson)
      reads this
      ensures r.boardWidth == world.width && r.boardHeight == world.height
      ensures DecodeBoard(r) == Some(State())
    {
      BoardRoundTrip(world, State());
      EncodeBoard(world, State())
    }
  }
}
