/**
 * The one-tick simulation of matts_tools/lite_board.py, as functions on board snapshots.
 * Each step of `LiteBoard.make_turn` is one function here; the class in module Board runs
 * the same steps in place and is proved to agree with these functions.
 */
module Simulation {
  import opened Wrappers
  import opened Hiveminder
  import opened Tiles
  import opened Flowers
  import opened Units

  /** One entry of the `inflight` dictionary. */
  type Entry = (UnitId, Volant)

  /** The `inflight` dictionary in its iteration (insertion) order. */
  type Inflight = seq<Entry>

  /** Dictionary keys are unique. */
  predicate UniqueIds(s: Inflight) {
    forall i, j :: 0 <= i < j < |s| ==> s[i].0 != s[j].0
  }

  function Ids(s: Inflight): set<UnitId> {
    set i | 0 <= i < |s| :: s[i].0
  }

  /** The position of `id` in the dictionary, or -1 when `id` is not a key. */
  function IndexOfId(s: Inflight, id: UnitId): (k: int)
    ensures -1 <= k < |s|
    ensures k >= 0 ==> s[k].0 == id
    ensures k == -1 <==> id !in Ids(s)
  {
    if s == [] then -1
    else if s[0].0 == id then 0
    else
      var k := IndexOfId(s[1..], id);
      assert forall i :: 0 <= i < |s| - 1 ==> s[1..][i] == s[i + 1];
      assert id in Ids(s) ==> id in Ids(s[1..]) by {
        if id in Ids(s) {
          var i :| 0 <= i < |s| && s[i].0 == id;
          assert s[1..][i - 1].0 == id;
        }
      }
      if k < 0 then -1 else k + 1
  }

  /** The dictionary with every key in `d` deleted, the others kept in order. */
  function RemoveIds(s: Inflight, d: set<UnitId>): (r: Inflight)
    ensures |r| <= |s|
  {
    if s == [] then []
    else
      var last := s[|s| - 1];
      RemoveIds(s[..|s| - 1], d) + (if last.0 in d then [] else [last])
  }

  /** What deleting keys keeps: entries of the dictionary whose keys are not deleted, and
      every such entry. */
  lemma {:induction false} RemoveIdsMembership(s: Inflight, d: set<UnitId>)
    ensures var r := RemoveIds(s, d);
      (forall i :: 0 <= i < |r| ==> r[i] in s && r[i].0 !in d) &&
      (forall i :: 0 <= i < |s| && s[i].0 !in d ==> s[i] in r)
  {
    if s != [] {
      var s', last := s[..|s| - 1], s[|s| - 1];
      var r', tail := RemoveIds(s', d), if last.0 in d then [] else [last];
      RemoveIdsMembership(s', d);
      assert RemoveIds(s, d) == r' + tail;
      forall i | 0 <= i < |s| && s[i].0 !in d
        ensures s[i] in r' + tail
      {
        if i < |s| - 1 {
          assert s[i] == s'[i];
        }
      }
      forall x | x in r' + tail
        ensures x in s && x.0 !in d
      {
        if x in r' {
          var k :| 0 <= k < |r'| && r'[k] == x;
        }
      }
    }
  }

  lemma {:induction false} RemoveIdsUnique(s: Inflight, d: set<UnitId>)
    requires UniqueIds(s)
    ensures UniqueIds(RemoveIds(s, d))
  {
    if s != [] {
      var s' := s[..|s| - 1];
      RemoveIdsUnique(s', d);
      RemoveIdsMembership(s', d);
      var r' := RemoveIds(s', d);
      var last := s[|s| - 1];
      forall i | 0 <= i < |r'|
        ensures r'[i].0 != last.0
      {
        var k :| 0 <= k < |s'| && s'[k] == r'[i];
        assert s[k] == s'[k];
      }
    }
  }

  /** Deleting no key leaves the dictionary as it is. */
  lemma {:induction false} RemoveIdsNone(s: Inflight)
    ensures RemoveIds(s, {}) == s
  {
    if s != [] {
      RemoveIdsNone(s[..|s| - 1]);
      assert s[..|s| - 1] + [s[|s| - 1]] == s;
    }
  }

  /** Deleting one set of keys and then another is deleting their union. */
  lemma {:induction false} RemoveIdsTwice(s: Inflight, a: set<UnitId>, b: set<UnitId>)
    ensures RemoveIds(RemoveIds(s, a), b) == RemoveIds(s, a + b)
  {
    if s != [] {
      var s' := s[..|s| - 1];
      var last := s[|s| - 1];
      RemoveIdsTwice(s', a, b);
      var r1 := RemoveIds(s', a) + (if last.0 in a then [] else [last]);
      assert RemoveIds(s, a) == r1;
      if last.0 !in a {
        assert r1[..|r1| - 1] == RemoveIds(s', a);
      } else {
        assert r1 == RemoveIds(s', a);
      }
    }
  }

  /** The board state a tick changes: hives, flowers, the units in flight, the number of units
      lost and the number of seeds owed to the host. */
  datatype Snapshot = Snapshot(
    hives: seq<Hive>,
    flowers: seq<Flower>,
    inflight: Inflight,
    deadBees: int,
    seedsToGen: int)

  /** What stays fixed for a whole search: the board size, the game parameters, the hex step
      rule heading_to_delta, and the choice `random.choice` would make among flowers. */
  datatype World = World(
    width: int,
    height: int,
    params: GameParams,
    delta: Delta,
    pick: seq<Flower> -> nat)

  /** The `command` field of a command dictionary: None, a new heading, "flower" or "create_hive". */
  datatype Order = NoOrder | Rotate(heading: int) | PlantFlower | BuildHive

  /** A command: Python None, or {"entity": id, "command": order}. */
  datatype Command = NoCommand | Issue(entity: UnitId, order: Order)

  /** The RuntimeErrors a tick raises (and the NameError of the unimported `choice`). */
  datatype Error = UnknownEntity | IllegalHeading | ExpiryUndefined | NameError | ZeroDivisionError

  predicate InBounds(w: World, t: Tile) {
    0 <= t.0 < w.width && 0 <= t.1 < w.height
  }

  // ---------------------------------------------------------------------------
  // apply_command

  /** The "flower" branch of `apply_command` for seed `v` under key `id`. */
  function PlantFlowerStep(w: World, s: Snapshot, id: UnitId, v: Volant, turn: int): Snapshot
    requires v.Seed?
  {
    var flower := NewFlower(v.x, v.y, expires := Some(turn + w.params.flowerLifespan));
    s.(hives := DelAtCoordinate(s.hives, HiveTile, v.Tile()),
       flowers := DelAtCoordinate(s.flowers, FlowerTile, v.Tile()) + [flower],
       inflight := RemoveIds(s.inflight, {id}))
  }

  /** The "create_hive" branch of `apply_command` for queen `v` under key `id`. */
  function BuildHiveStep(s: Snapshot, id: UnitId, v: Volant): Snapshot
    requires v.QueenBee?
  {
    s.(flowers := DelAtCoordinate(s.flowers, FlowerTile, v.Tile()),
       hives := CreateHive(v, s.hives),
       inflight := RemoveIds(s.inflight, {id}))
  }

  /** The orders `apply_command` carries out for a unit: planting for a seed, founding a
      hive for a queen, and for anyone a turn to a heading next to the current one. */
  predicate Accepts(v: Volant, o: Order) {
    (v.Seed? && o.PlantFlower?) || (v.QueenBee? && o.BuildHive?) ||
    (o.Rotate? && o.heading in LegalNewHeadings(v.heading))
  }

  /** `LiteBoard.apply_command`. */
  function ApplyCommand(w: World, s: Snapshot, cmd: Command, turn: int): (r: Result<Snapshot, Error>)
    ensures cmd.NoCommand? || cmd.order.NoOrder? ==> r == Ok(s)
    ensures cmd.Issue? && !cmd.order.NoOrder? && cmd.entity !in Ids(s.inflight) ==> r == Err(UnknownEntity)
    ensures r.Ok? ==> r.value.deadBees == s.deadBees && r.value.seedsToGen == s.seedsToGen
  {
    if cmd.NoCommand? || cmd.order.NoOrder? then Ok(s)
    else
      var k := IndexOfId(s.inflight, cmd.entity);
      if k < 0 then Err(UnknownEntity)
      else
        var v := s.inflight[k].1;
        if v.Seed? && cmd.order.PlantFlower? then Ok(PlantFlowerStep(w, s, cmd.entity, v, turn))
        else if v.QueenBee? && cmd.order.BuildHive? then Ok(BuildHiveStep(s, cmd.entity, v))
        else if !cmd.order.Rotate? || cmd.order.heading !in LegalNewHeadings(v.heading) then
          Err(IllegalHeading)
        else
          var h: Heading := cmd.order.heading;
          Ok(s.(inflight := s.inflight[k := (cmd.entity, v.(heading := h))]))
  }

  /** A command is accepted exactly when it orders nothing, or names a unit in flight and
      gives it an order that unit can carry out; otherwise it fails. */
  lemma ApplyCommandAccepts(w: World, s: Snapshot, cmd: Command, turn: int)
    ensures ApplyCommand(w, s, cmd, turn).Ok? <==>
      (cmd.NoCommand? || cmd.order.NoOrder? ||
       (cmd.entity in Ids(s.inflight) && Accepts(s.inflight[IndexOfId(s.inflight, cmd.entity)].1, cmd.order)))
  {
  }

  /** `b` is `a` with the unit `id` turned to heading `h` and nothing else changed. */
  predicate OnlyHeadingChanged(a: Inflight, b: Inflight, id: UnitId, h: Heading) {
    |a| == |b| &&
    forall i :: 0 <= i < |a| ==>
      b[i].0 == a[i].0 && b[i].1 == (if a[i].0 == id then a[i].1.(heading := h) else a[i].1)
  }

  /** A rotation succeeds exactly when the new heading is one of the two legal neighbours of
      the unit's heading, and then it changes that unit's heading and nothing else. */
  lemma ApplyRotation(w: World, s: Snapshot, id: UnitId, h: int, turn: int)
    requires UniqueIds(s.inflight) && id in Ids(s.inflight)
    ensures var r := ApplyCommand(w, s, Issue(id, Rotate(h)), turn);
      var v := s.inflight[IndexOfId(s.inflight, id)].1;
      (r.Ok? <==> h in LegalNewHeadings(v.heading)) &&
      (r.Err? ==> r.error == IllegalHeading) &&
      (r.Ok? ==> IsHeading(h) && r.value.hives == s.hives && r.value.flowers == s.flowers &&
                 r.value.deadBees == s.deadBees && r.value.seedsToGen == s.seedsToGen &&
                 OnlyHeadingChanged(s.inflight, r.value.inflight, id, h))
  {
  }

  /** "flower" to anything but a seed, and "create_hive" to anything but a queen, are
      refused as illegal headings. */
  lemma ApplyMisdirected(w: World, s: Snapshot, id: UnitId, turn: int)
    requires id in Ids(s.inflight)
    ensures var v := s.inflight[IndexOfId(s.inflight, id)].1;
      (!v.Seed? ==> ApplyCommand(w, s, Issue(id, PlantFlower), turn) == Err(IllegalHeading)) &&
      (!v.QueenBee? ==> ApplyCommand(w, s, Issue(id, BuildHive), turn) == Err(IllegalHeading))
  {
  }

  /** A seed told to flower clears its tile of hives and flowers, leaves one new flower there
      that expires `flower_lifespan` turns from now, and leaves the board. */
  lemma ApplyPlantFlower(w: World, s: Snapshot, id: UnitId, turn: int)
    requires UniqueIds(s.inflight) && id in Ids(s.inflight)
    requires s.inflight[IndexOfId(s.inflight, id)].1.Seed?
    ensures var r := ApplyCommand(w, s, Issue(id, PlantFlower), turn);
      var v := s.inflight[IndexOfId(s.inflight, id)].1;
      var fl := r.value.flowers;
      r.Ok? &&
      (forall i :: 0 <= i < |r.value.hives| ==> HiveTile(r.value.hives[i]) != v.Tile()) &&
      |fl| >= 1 && fl[|fl| - 1] == Flower(v.x, v.y, 1, 0, Some(turn + w.params.flowerLifespan)) &&
      (forall i :: 0 <= i < |fl| - 1 ==> FlowerTile(fl[i]) != v.Tile() && fl[i] in s.flowers) &&
      (forall i :: 0 <= i < |s.flowers| && FlowerTile(s.flowers[i]) != v.Tile() ==> s.flowers[i] in fl) &&
      id !in Ids(r.value.inflight) &&
      (forall i :: 0 <= i < |s.inflight| && s.inflight[i].0 != id ==> s.inflight[i] in r.value.inflight)
  {
    var r := ApplyCommand(w, s, Issue(id, PlantFlower), turn);
    var v := s.inflight[IndexOfId(s.inflight, id)].1;
    RemoveIdsMembership(s.inflight, {id});
    var kept := DelAtCoordinate(s.flowers, FlowerTile, v.Tile());
    assert r.value.flowers == kept + [NewFlower(v.x, v.y, expires := Some(turn + w.params.flowerLifespan))];
    assert forall i :: 0 <= i < |kept| ==> r.value.flowers[i] == kept[i];
  }

  /** A queen told to build clears flowers off her tile, replaces any hive there by one holding
      her nectar, and leaves the board. */
  lemma ApplyBuildHive(w: World, s: Snapshot, id: UnitId, turn: int)
    requires UniqueIds(s.inflight) && id in Ids(s.inflight)
    requires s.inflight[IndexOfId(s.inflight, id)].1.QueenBee?
    ensures var r := ApplyCommand(w, s, Issue(id, BuildHive), turn);
      var v := s.inflight[IndexOfId(s.inflight, id)].1;
      r.Ok? &&
      (forall i :: 0 <= i < |r.value.flowers| ==> FlowerTile(r.value.flowers[i]) != v.Tile()) &&
      r.value.hives == CreateHive(v, s.hives) &&
      id !in Ids(r.value.inflight) &&
      (forall i :: 0 <= i < |s.inflight| && s.inflight[i].0 != id ==> s.inflight[i] in r.value.inflight)
  {
    RemoveIdsMembership(s.inflight, {id});
  }

  // ---------------------------------------------------------------------------
  // remove_dead_flowers

  predicate AllExpiriesDefined(fs: seq<Flower>) {
    forall i :: 0 <= i < |fs| ==> fs[i].expires.Some?
  }

  /** The flowers still alive after `turn`, in order. */
  function Unexpired(fs: seq<Flower>, turn: int): (r: seq<Flower>)
    requires AllExpiriesDefined(fs)
    ensures |r| <= |fs| && AllExpiriesDefined(r)
    ensures forall i :: 0 <= i < |r| ==> r[i].expires.value > turn && r[i] in fs
    ensures forall i :: 0 <= i < |fs| && fs[i].expires.value > turn ==> fs[i] in r
  {
    if fs == [] then []
    else
      var last := fs[|fs| - 1];
      assert forall i :: 0 <= i < |fs| - 1 ==> fs[..|fs| - 1][i] == fs[i];
      Unexpired(fs[..|fs| - 1], turn) + (if last.expires.value > turn then [last] else [])
  }

  /** `remove_dead_flowers` as it is meant to work: refuse an undefined expiry, keep the live
      flowers, and when none is alive keep one of the old ones (the one `pick` names). */
  function ExpireFlowers(pick: seq<Flower> -> nat, fs: seq<Flower>, turn: int): (r: Result<seq<Flower>, Error>)
    ensures r.Ok? <==> AllExpiriesDefined(fs)
    ensures r.Err? ==> r.error == ExpiryUndefined
    ensures r.Ok? ==> AllExpiriesDefined(r.value) && |r.value| <= |fs|
    ensures r.Ok? ==> forall i :: 0 <= i < |r.value| ==> r.value[i] in fs
  {
    if !AllExpiriesDefined(fs) then Err(ExpiryUndefined)
    else
      var live := Unexpired(fs, turn);
      if live != [] then Ok(live)
      else if fs != [] then Ok([fs[pick(fs) % |fs|]])
      else Ok([])
  }

  /** `remove_dead_flowers` exactly as written: the fallback calls `choice`, which
      lite_board.py never imports, so it raises NameError. */
  function ExpireFlowersAsWritten(fs: seq<Flower>, turn: int): (r: Result<seq<Flower>, Error>)
    ensures r.Ok? ==> AllExpiriesDefined(fs)
  {
    if !AllExpiriesDefined(fs) then Err(ExpiryUndefined)
    else
      var live := Unexpired(fs, turn);
      if live != [] then Ok(live)
      else if fs != [] then Err(NameError)
      else Ok([])
  }

  /** As written, a turn on which every flower dies fails: one flower expiring at turn 5,
      visited at turn 5, raises NameError instead of keeping that flower. */
  lemma ExpireFlowersAsWrittenFails(pick: seq<Flower> -> nat)
    ensures ExpireFlowersAsWritten([Flower(0, 0, 1, 0, Some(5))], 5) == Err(NameError)
    ensures ExpireFlowers(pick, [Flower(0, 0, 1, 0, Some(5))], 5) == Ok([Flower(0, 0, 1, 0, Some(5))])
  {
    var fs := [Flower(0, 0, 1, 0, Some(5))];
    assert Unexpired(fs[..0], 5) == [];
  }

  /** The two agree on every turn on which some flower survives (and on an empty list). */
  lemma ExpireFlowersAgree(pick: seq<Flower> -> nat, fs: seq<Flower>, turn: int)
    requires ExpireFlowersAsWritten(fs, turn) != Err(NameError)
    ensures ExpireFlowersAsWritten(fs, turn) == ExpireFlowers(pick, fs, turn)
  {
  }

  /** The outcomes of expiry: an undefined expiry fails; if some flower outlives `turn`,
      exactly the live flowers remain; if none does, exactly one old flower remains; an
      empty list stays empty. */
  lemma ExpireFlowersCases(pick: seq<Flower> -> nat, fs: seq<Flower>, turn: int)
    ensures (exists i :: 0 <= i < |fs| && fs[i].expires.None?) ==> ExpireFlowers(pick, fs, turn) == Err(ExpiryUndefined)
    ensures AllExpiriesDefined(fs) && (exists i :: 0 <= i < |fs| && fs[i].expires.value > turn) ==>
      var r := ExpireFlowers(pick, fs, turn).value;
      r == Unexpired(fs, turn) && r != [] &&
      (forall f :: f in r <==> f in fs && f.expires.value > turn)
    ensures AllExpiriesDefined(fs) && fs != [] && (forall i :: 0 <= i < |fs| ==> fs[i].expires.value <= turn) ==>
      var r := ExpireFlowers(pick, fs, turn).value;
      |r| == 1 && r[0] in fs
    ensures fs == [] ==> ExpireFlowers(pick, fs, turn) == Ok([])
  {
    if AllExpiriesDefined(fs) {
      var live := Unexpired(fs, turn);
      if exists i :: 0 <= i < |fs| && fs[i].expires.value > turn {
        var i :| 0 <= i < |fs| && fs[i].expires.value > turn;
        assert fs[i] in live;
      }
    }
  }

  // ---------------------------------------------------------------------------
  // move_volants and send_volants

  /** `move_volants`: every unit advances, keeping its key and position in the dictionary. */
  function AdvanceAll(delta: Delta, s: Inflight): Inflight {
    seq(|s|, i requires 0 <= i < |s| => (s[i].0, Advance(s[i].1, delta)))
  }

  lemma AdvanceAllIds(delta: Delta, s: Inflight)
    ensures Ids(AdvanceAll(delta, s)) == Ids(s)
    ensures UniqueIds(s) ==> UniqueIds(AdvanceAll(delta, s))
  {
    var r := AdvanceAll(delta, s);
    assert forall i :: 0 <= i < |s| ==> r[i].0 == s[i].0;
  }

  function OutOfBoundsIds(w: World, s: Inflight): set<UnitId> {
    set i | 0 <= i < |s| && !InBounds(w, s[i].1.Tile()) :: s[i].0
  }

  /** `send_volants`: delete every unit whose tile is off the board. The wrapped position
      the source computes for such a unit is taken modulo the board's width and height, so
      on a board of width or height 0 the first unit off the board raises ZeroDivisionError,
      before anything is deleted. No tile is on such a board, so that is the first unit. */
  function SendVolants(w: World, s: Snapshot): Result<Snapshot, Error> {
    if (w.width == 0 || w.height == 0) && s.inflight != [] then Err(ZeroDivisionError)
    else Ok(s.(inflight := RemoveIds(s.inflight, OutOfBoundsIds(w, s.inflight))))
  }

  /** Sending fails exactly when some unit is off the board and the board has width or
      height 0; in particular it never fails on a board of positive size, and on a board
      every unit of which is on it, it changes nothing. */
  lemma SendVolantsFails(w: World, s: Snapshot)
    ensures SendVolants(w, s).Err? <==>
      (w.width == 0 || w.height == 0) && exists i :: 0 <= i < |s.inflight| && !InBounds(w, s.inflight[i].1.Tile())
    ensures SendVolants(w, s).Err? ==> SendVolants(w, s).error == ZeroDivisionError
    ensures w.width != 0 && w.height != 0 ==> SendVolants(w, s).Ok?
    ensures UnitsOnBoard(w, s.inflight) ==> SendVolants(w, s) == Ok(s)
  {
    if s.inflight != [] && (w.width == 0 || w.height == 0) {
      assert !InBounds(w, s.inflight[0].1.Tile());
    }
    if UnitsOnBoard(w, s.inflight) {
      assert OutOfBoundsIds(w, s.inflight) == {};
      RemoveIdsNone(s.inflight);
    }
  }

  /** After sending, every unit is on the board, and every unit that was on the board is
      still there, unchanged; nothing else changes. */
  lemma SendVolantsBounds(w: World, s: Snapshot)
    requires UniqueIds(s.inflight)
    ensures SendVolants(w, s).Ok? ==> var r := SendVolants(w, s).value.inflight;
      UniqueIds(r) &&
      (forall i :: 0 <= i < |r| ==> InBounds(w, r[i].1.Tile()) && r[i] in s.inflight) &&
      (forall i :: 0 <= i < |s.inflight| && InBounds(w, s.inflight[i].1.Tile()) ==> s.inflight[i] in r)
    ensures SendVolants(w, s).Ok? ==> SendVolants(w, s).value == s.(inflight := SendVolants(w, s).value.inflight)
  {
    var d := OutOfBoundsIds(w, s.inflight);
    var r := RemoveIds(s.inflight, d);
    RemoveIdsUnique(s.inflight, d);
    RemoveIdsMembership(s.inflight, d);
    forall i | 0 <= i < |r|
      ensures InBounds(w, r[i].1.Tile())
    {
      var k :| 0 <= k < |s.inflight| && s.inflight[k] == r[i];
      assert s.inflight[k].0 !in d;
    }
  }

  // ---------------------------------------------------------------------------
  // visit_flowers

  /** The tile of each flower, in list order. */
  function FlowerTiles(fs: seq<Flower>): seq<Tile> {
    seq(|fs|, i requires 0 <= i < |fs| => FlowerTile(fs[i]))
  }

  /** What `visit_flowers` changes: the units, the flowers and the seed counter. */
  datatype VisitState = VisitState(units: Inflight, flowers: seq<Flower>, seeds: int)

  /** `a` and `b` hold the same keys, in the same order, for units of the same kind on the same tiles. */
  predicate SameShape(a: Inflight, b: Inflight) {
    |a| == |b| &&
    forall i :: 0 <= i < |a| ==>
      b[i].0 == a[i].0 && b[i].1.Tile() == a[i].1.Tile() && b[i].1.heading == a[i].1.heading &&
      b[i].1.Seed? == a[i].1.Seed? && b[i].1.QueenBee? == a[i].1.QueenBee?
  }

  /** The body of the `visit_flowers` loop for the unit at position i: a worker or queen on a
      flower's tile drinks that flower's current potency, then the flower is visited. `tiles`
      lists the flowers' tiles, taken once before the loop as the `flowers` dictionary is;
      when several flowers share a tile, the last one listed is the one visited. */
  function VisitOne(p: GameParams, tiles: seq<Tile>, st: VisitState, i: nat): (r: VisitState)
    requires i < |st.units| && |tiles| == |st.flowers| && AllExpiriesDefined(st.flowers)
    ensures |r.units| == |st.units| && |r.flowers| == |st.flowers| && AllExpiriesDefined(r.flowers)
    ensures forall k :: 0 <= k < |st.units| && k != i ==> r.units[k] == st.units[k]
  {
    var (id, v) := st.units[i];
    var j := LastIndex(tiles, v.Tile());
    if v.IsBee() && j >= 0 then
      var f := st.flowers[j];
      var (g, seed) := Visit(f, p);
      VisitState(st.units[i := (id, Drink(v, f.potency))], st.flowers[j := g], st.seeds + if seed then 1 else 0)
    else st
  }

  /** The state after the loop body has run for the units at positions 0 .. n-1. */
  function VisitUpTo(p: GameParams, tiles: seq<Tile>, st: VisitState, n: nat): (r: VisitState)
    requires n <= |st.units| && |tiles| == |st.flowers| && AllExpiriesDefined(st.flowers)
    ensures |r.units| == |st.units| && |r.flowers| == |st.flowers| && AllExpiriesDefined(r.flowers)
    ensures forall k :: n <= k < |st.units| ==> r.units[k] == st.units[k]
  {
    if n == 0 then st else VisitOne(p, tiles, VisitUpTo(p, tiles, st, n - 1), n - 1)
  }

  /** `visit_flowers`. */
  function VisitFlowers(p: GameParams, s: Snapshot): (r: Snapshot)
    requires AllExpiriesDefined(s.flowers)
  {
    var st := VisitUpTo(p, FlowerTiles(s.flowers), VisitState(s.inflight, s.flowers, s.seedsToGen), |s.inflight|);
    s.(inflight := st.units, flowers := st.flowers, seedsToGen := st.seeds)
  }

  /** Whether the unit at position i visits a flower: a worker or queen on a flower tile. */
  predicate Visits(s: Inflight, tiles: seq<Tile>, i: nat)
    requires i < |s|
  {
    s[i].1.IsBee() && s[i].1.Tile() in tiles
  }

  /** The number of units among the first n that visit a flower. */
  function VisitorCount(s: Inflight, tiles: seq<Tile>, n: nat): nat
    requires n <= |s|
  {
    if n == 0 then 0 else VisitorCount(s, tiles, n - 1) + if Visits(s, tiles, n - 1) then 1 else 0
  }

  /** Whether pass i of the loop owes a seed: the unit is a worker or queen on a flower's tile
      and `visit` of that flower returns true. */
  predicate Spawns(p: GameParams, tiles: seq<Tile>, q: VisitState, i: nat)
    requires i < |q.units| && |tiles| == |q.flowers| && AllExpiriesDefined(q.flowers)
  {
    var v := q.units[i].1;
    var j := LastIndex(tiles, v.Tile());
    v.IsBee() && j >= 0 && Visit(q.flowers[j], p).1
  }

  /** The number of the first n passes of the loop that owe a seed, each pass judged on the
      state the passes before it left. */
  function SpawnCount(p: GameParams, tiles: seq<Tile>, st: VisitState, n: nat): nat
    requires n <= |st.units| && |tiles| == |st.flowers| && AllExpiriesDefined(st.flowers)
  {
    if n == 0 then 0
    else SpawnCount(p, tiles, st, n - 1) + if Spawns(p, tiles, VisitUpTo(p, tiles, st, n - 1), n - 1) then 1 else 0
  }

  function TotalVisits(fs: seq<Flower>): int {
    if fs == [] then 0 else TotalVisits(fs[..|fs| - 1]) + fs[|fs| - 1].visits
  }

  lemma {:induction false} TotalVisitsUpdate(fs: seq<Flower>, j: nat, g: Flower)
    requires j < |fs|
    ensures TotalVisits(fs[j := g]) == TotalVisits(fs) - fs[j].visits + g.visits
    decreases |fs|
  {
    var n := |fs| - 1;
    if j < n {
      assert fs[j := g][..n] == fs[..n][j := g];
      TotalVisitsUpdate(fs[..n], j, g);
    } else {
      assert fs[j := g][..n] == fs[..n];
    }
  }

  /** One pass of the loop body: a visit adds one to the flowers' total visit count and owes
      exactly one seed when `visit` returns true, none otherwise; only a visit can owe a
      seed, and a unit that does not visit changes nothing. */
  lemma VisitOneCounts(p: GameParams, tiles: seq<Tile>, q: VisitState, i: nat)
    requires i < |q.units| && |tiles| == |q.flowers| && AllExpiriesDefined(q.flowers)
    ensures var r := VisitOne(p, tiles, q, i);
      var c := if Visits(q.units, tiles, i) then 1 else 0;
      TotalVisits(r.flowers) == TotalVisits(q.flowers) + c &&
      r.seeds == q.seeds + (if Spawns(p, tiles, q, i) then 1 else 0) &&
      (Spawns(p, tiles, q, i) ==> Visits(q.units, tiles, i)) &&
      (c == 0 ==> r == q)
  {
    var v := q.units[i].1;
    var j := LastIndex(tiles, v.Tile());
    if v.IsBee() && j >= 0 {
      TotalVisitsUpdate(q.flowers, j, Visit(q.flowers[j], p).0);
    }
  }

  /** Over the first n units: every visit adds one to some flower's visit count, the seed
      counter grows by exactly the number of passes whose visit returned true, at most one
      per visit, and a unit that does not visit is left as it was. */
  lemma VisitUpToCounts(p: GameParams, tiles: seq<Tile>, st: VisitState, n: nat)
    requires n <= |st.units| && |tiles| == |st.flowers| && AllExpiriesDefined(st.flowers)
    ensures var r := VisitUpTo(p, tiles, st, n);
      var c := VisitorCount(st.units, tiles, n);
      TotalVisits(r.flowers) == TotalVisits(st.flowers) + c &&
      r.seeds == st.seeds + SpawnCount(p, tiles, st, n) && SpawnCount(p, tiles, st, n) <= c &&
      (forall k :: 0 <= k < n && !Visits(st.units, tiles, k) ==> r.units[k] == st.units[k])
  {
    VisitUpToVisits(p, tiles, st, n);
    VisitUpToSeeds(p, tiles, st, n);
    VisitUpToKeeps(p, tiles, st, n);
  }

  /** Over the first n units the flowers' total visit count rises by exactly the number of
      visitors. */
  lemma {:induction false} VisitUpToVisits(p: GameParams, tiles: seq<Tile>, st: VisitState, n: nat)
    requires n <= |st.units| && |tiles| == |st.flowers| && AllExpiriesDefined(st.flowers)
    ensures TotalVisits(VisitUpTo(p, tiles, st, n).flowers) == TotalVisits(st.flowers) + VisitorCount(st.units, tiles, n)
  {
    if n > 0 {
      VisitUpToVisits(p, tiles, st, n - 1);
      var q := VisitUpTo(p, tiles, st, n - 1);
      assert q.units[n - 1] == st.units[n - 1];
      VisitOneCounts(p, tiles, q, n - 1);
    }
  }

  /** Over the first n units the seed counter rises by exactly the number of passes whose
      visit returned true, which is at most the number of visitors. */
  lemma {:induction false} VisitUpToSeeds(p: GameParams, tiles: seq<Tile>, st: VisitState, n: nat)
    requires n <= |st.units| && |tiles| == |st.flowers| && AllExpiriesDefined(st.flowers)
    ensures VisitUpTo(p, tiles, st, n).seeds == st.seeds + SpawnCount(p, tiles, st, n)
    ensures SpawnCount(p, tiles, st, n) <= VisitorCount(st.units, tiles, n)
  {
    if n > 0 {
      VisitUpToSeeds(p, tiles, st, n - 1);
      var q := VisitUpTo(p, tiles, st, n - 1);
      assert q.units[n - 1] == st.units[n - 1];
      VisitOneCounts(p, tiles, q, n - 1);
    }
  }

  lemma {:induction false} VisitUpToKeeps(p: GameParams, tiles: seq<Tile>, st: VisitState, n: nat)
    requires n <= |st.units| && |tiles| == |st.flowers| && AllExpiriesDefined(st.flowers)
    ensures var r := VisitUpTo(p, tiles, st, n);
      forall k :: 0 <= k < n && !Visits(st.units, tiles, k) ==> r.units[k] == st.units[k]
  {
    if n > 0 {
      VisitUpToKeeps(p, tiles, st, n - 1);
      var q := VisitUpTo(p, tiles, st, n - 1);
      assert q.units[n - 1] == st.units[n - 1];
      VisitOneCounts(p, tiles, q, n - 1);
    }
  }

  /** A visit changes a unit's energy and nectar only, and a flower's counters only: keys,
      kinds, tiles and headings of the units and the tiles of the flowers stay. */
  lemma VisitOneShape(p: GameParams, tiles: seq<Tile>, st: VisitState, i: nat)
    requires i < |st.units| && |tiles| == |st.flowers| && AllExpiriesDefined(st.flowers)
    ensures var r := VisitOne(p, tiles, st, i);
      SameShape(st.units, r.units) && FlowerTiles(r.flowers) == FlowerTiles(st.flowers)
  {
    var r := VisitOne(p, tiles, st, i);
    assert forall k :: 0 <= k < |r.flowers| ==> FlowerTiles(r.flowers)[k] == FlowerTiles(st.flowers)[k];
  }

  lemma {:induction false} VisitUpToShape(p: GameParams, tiles: seq<Tile>, st: VisitState, n: nat)
    requires n <= |st.units| && |tiles| == |st.flowers| && AllExpiriesDefined(st.flowers)
    ensures var r := VisitUpTo(p, tiles, st, n);
      SameShape(st.units, r.units) && FlowerTiles(r.flowers) == FlowerTiles(st.flowers)
  {
    if n > 0 {
      VisitUpToShape(p, tiles, st, n - 1);
      VisitOneShape(p, tiles, VisitUpTo(p, tiles, st, n - 1), n - 1);
    }
  }

  /** `visit_flowers` changes neither hives nor the loss counter; each visit by a worker or
      queen adds exactly one to the flowers' total visit count; the counter of owed seeds
      grows by exactly the number of visits that returned true, so by at most the number of
      visits; seeds, and units not on a flower tile, are left as they were; keys, order,
      tiles and headings of all units stay. */
  lemma VisitFlowersEffect(p: GameParams, s: Snapshot)
    requires AllExpiriesDefined(s.flowers)
    ensures var r := VisitFlowers(p, s);
      var c := VisitorCount(s.inflight, FlowerTiles(s.flowers), |s.inflight|);
      r.hives == s.hives && r.deadBees == s.deadBees &&
      SameShape(s.inflight, r.inflight) && FlowerTiles(r.flowers) == FlowerTiles(s.flowers) &&
      AllExpiriesDefined(r.flowers) &&
      TotalVisits(r.flowers) == TotalVisits(s.flowers) + c &&
      r.seedsToGen == s.seedsToGen + SpawnCount(p, FlowerTiles(s.flowers), VisitState(s.inflight, s.flowers, s.seedsToGen), |s.inflight|) &&
      SpawnCount(p, FlowerTiles(s.flowers), VisitState(s.inflight, s.flowers, s.seedsToGen), |s.inflight|) <= c &&
      (forall k :: 0 <= k < |s.inflight| && (s.inflight[k].1.Seed? || s.inflight[k].1.Tile() !in FlowerTiles(s.flowers)) ==>
         r.inflight[k] == s.inflight[k])
  {
    var tiles, st := FlowerTiles(s.flowers), VisitState(s.inflight, s.flowers, s.seedsToGen);
    VisitUpToCounts(p, tiles, st, |s.inflight|);
    VisitUpToShape(p, tiles, st, |s.inflight|);
  }

  // ---------------------------------------------------------------------------
  // land_bees

  /** The tile of each hive, in list order. */
  function HiveTiles(hs: seq<Hive>): seq<Tile> {
    seq(|hs|, i requires 0 <= i < |hs| => HiveTile(hs[i]))
  }

  /** What the `land_bees` loop changes: the hives and the loss counter. */
  datatype LandState = LandState(hives: seq<Hive>, dead: int)

  /** The loop body for the unit at position i, given the hive tiles collected before the
      loop: a queen on a hive tile is lost; a worker there pours its nectar into the hive
      on that tile (the last listed, when several share it). */
  function LandOne(s: Inflight, tiles: seq<Tile>, st: LandState, i: nat): (r: LandState)
    requires i < |s| && |st.hives| == |tiles|
    ensures |r.hives| == |st.hives|
  {
    var v := s[i].1;
    var j := LastIndex(tiles, v.Tile());
    if v.IsBee() && j >= 0 then
      if v.QueenBee? then st.(dead := st.dead + 1)
      else st.(hives := st.hives[j := st.hives[j].(nectar := st.hives[j].nectar + v.nectar)])
    else st
  }

  function LandUpTo(s: Inflight, tiles: seq<Tile>, st: LandState, n: nat): (r: LandState)
    requires n <= |s| && |st.hives| == |tiles|
    ensures |r.hives| == |st.hives|
  {
    if n == 0 then st else LandOne(s, tiles, LandUpTo(s, tiles, st, n - 1), n - 1)
  }

  /** Landing changes the hives' nectar only: every hive keeps its tile. */
  lemma {:induction false} LandUpToTiles(s: Inflight, tiles: seq<Tile>, st: LandState, n: nat)
    requires n <= |s| && |st.hives| == |tiles|
    ensures forall k :: 0 <= k < |st.hives| ==> HiveTile(LandUpTo(s, tiles, st, n).hives[k]) == HiveTile(st.hives[k])
  {
    if n > 0 {
      LandUpToTiles(s, tiles, st, n - 1);
    }
  }

  /** The keys of the workers and queens standing on a hive tile. */
  function LandedIds(s: Inflight, tiles: seq<Tile>): set<UnitId> {
    set i | 0 <= i < |s| && s[i].1.IsBee() && s[i].1.Tile() in tiles :: s[i].0
  }

  /** Scanning one more unit adds its key exactly when it is a worker or queen on a hive tile. */
  lemma LandedIdsStep(s: Inflight, tiles: seq<Tile>, i: nat)
    requires i < |s|
    ensures LandedIds(s[..i + 1], tiles) ==
      LandedIds(s[..i], tiles) + (if s[i].1.IsBee() && s[i].1.Tile() in tiles then {s[i].0} else {})
  {
    var a, b := s[..i], s[..i + 1];
    assert forall k :: 0 <= k < i ==> b[k] == a[k];
    assert b[i] == s[i];
  }

  /** `land_bees`. */
  function LandBees(s: Snapshot): Snapshot {
    var st := LandUpTo(s.inflight, HiveTiles(s.hives), LandState(s.hives, s.deadBees), |s.inflight|);
    s.(hives := st.hives, deadBees := st.dead,
       inflight := RemoveIds(s.inflight, LandedIds(s.inflight, HiveTiles(s.hives))))
  }

  /** The nectar in the first k hives. */
  function NectarUpTo(hs: seq<Hive>, k: nat): int
    requires k <= |hs|
  {
    if k == 0 then 0 else NectarUpTo(hs, k - 1) + hs[k - 1].nectar
  }

  /** The nectar in all the hives. */
  function TotalNectar(hs: seq<Hive>): int {
    NectarUpTo(hs, |hs|)
  }

  lemma {:induction false} NectarUpToUpdate(hs: seq<Hive>, j: nat, h: Hive, k: nat)
    requires j < |hs| && k <= |hs|
    ensures NectarUpTo(hs[j := h], k) == NectarUpTo(hs, k) + (if j < k then h.nectar - hs[j].nectar else 0)
  {
    if k > 0 {
      NectarUpToUpdate(hs, j, h, k - 1);
    }
  }

  lemma TotalNectarUpdate(hs: seq<Hive>, j: nat, h: Hive)
    requires j < |hs|
    ensures TotalNectar(hs[j := h]) == TotalNectar(hs) - hs[j].nectar + h.nectar
  {
    NectarUpToUpdate(hs, j, h, |hs|);
  }

  /** The nectar carried by the workers (not queens) among the first n units that stand on a hive tile. */
  function LandedWorkerNectar(s: Inflight, tiles: seq<Tile>, n: nat): int
    requires n <= |s|
  {
    if n == 0 then 0
    else LandedWorkerNectar(s, tiles, n - 1) + if s[n - 1].1.Bee? && s[n - 1].1.Tile() in tiles then s[n - 1].1.nectar else 0
  }

  /** The number of queens among the first n units that stand on a hive tile. */
  function LandedQueens(s: Inflight, tiles: seq<Tile>, n: nat): nat
    requires n <= |s|
  {
    if n == 0 then 0
    else LandedQueens(s, tiles, n - 1) + if s[n - 1].1.QueenBee? && s[n - 1].1.Tile() in tiles then 1 else 0
  }

  lemma LandOneTotals(s: Inflight, tiles: seq<Tile>, st: LandState, i: nat)
    requires i < |s| && |st.hives| == |tiles|
    ensures TotalNectar(LandOne(s, tiles, st, i).hives) ==
      TotalNectar(st.hives) + (if s[i].1.Bee? && s[i].1.Tile() in tiles then s[i].1.nectar else 0)
    ensures LandOne(s, tiles, st, i).dead == st.dead + (if s[i].1.QueenBee? && s[i].1.Tile() in tiles then 1 else 0)
  {
    var v := s[i].1;
    var j := LastIndex(tiles, v.Tile());
    if v.Bee? && j >= 0 {
      TotalNectarUpdate(st.hives, j, st.hives[j].(nectar := st.hives[j].nectar + v.nectar));
    }
  }

  /** Landing the first n units adds exactly the nectar of the workers among them that stand
      on a hive tile to the hives' total. */
  lemma {:induction false} LandUpToNectar(s: Inflight, tiles: seq<Tile>, st: LandState, n: nat)
    requires n <= |s| && |st.hives| == |tiles|
    ensures TotalNectar(LandUpTo(s, tiles, st, n).hives) == TotalNectar(st.hives) + LandedWorkerNectar(s, tiles, n)
  {
    if n > 0 {
      LandUpToNectar(s, tiles, st, n - 1);
      LandUpToNectarStep(s, tiles, st, n - 1);
    }
  }

  lemma LandUpToNectarStep(s: Inflight, tiles: seq<Tile>, st: LandState, i: nat)
    requires i < |s| && |st.hives| == |tiles|
    ensures TotalNectar(LandUpTo(s, tiles, st, i + 1).hives) ==
      TotalNectar(LandUpTo(s, tiles, st, i).hives) + (if s[i].1.Bee? && s[i].1.Tile() in tiles then s[i].1.nectar else 0)
  {
    LandOneTotals(s, tiles, LandUpTo(s, tiles, st, i), i);
  }

  /** Landing the first n units adds exactly the number of queens among them that stand on
      a hive tile to the loss counter. */
  lemma {:induction false} LandUpToQueens(s: Inflight, tiles: seq<Tile>, st: LandState, n: nat)
    requires n <= |s| && |st.hives| == |tiles|
    ensures LandUpTo(s, tiles, st, n).dead == st.dead + LandedQueens(s, tiles, n)
  {
    if n > 0 {
      LandUpToQueens(s, tiles, st, n - 1);
      LandOneTotals(s, tiles, LandUpTo(s, tiles, st, n - 1), n - 1);
    }
  }

  /** After landing no worker or queen stands on a hive tile; the hives' total nectar rises
      by exactly the nectar of the workers that landed; the loss counter rises by the number
      of queens that landed; the hive tiles, the flowers and every other unit stay. */
  lemma LandBeesEffect(s: Snapshot)
    requires UniqueIds(s.inflight)
    ensures var r := LandBees(s);
      var tiles := HiveTiles(s.hives);
      |r.hives| == |s.hives| && (forall k :: 0 <= k < |r.hives| ==> HiveTile(r.hives[k]) == HiveTile(s.hives[k])) &&
      r.flowers == s.flowers && r.seedsToGen == s.seedsToGen &&
      UniqueIds(r.inflight) &&
      (forall i :: 0 <= i < |r.inflight| ==> !(r.inflight[i].1.IsBee() && r.inflight[i].1.Tile() in tiles)) &&
      (forall i :: 0 <= i < |r.inflight| ==> r.inflight[i] in s.inflight) &&
      (forall i :: 0 <= i < |s.inflight| && !(s.inflight[i].1.IsBee() && s.inflight[i].1.Tile() in tiles) ==>
         s.inflight[i] in r.inflight) &&
      TotalNectar(r.hives) == TotalNectar(s.hives) + LandedWorkerNectar(s.inflight, tiles, |s.inflight|) &&
      r.deadBees == s.deadBees + LandedQueens(s.inflight, tiles, |s.inflight|)
  {
    var tiles := HiveTiles(s.hives);
    LandUpToTiles(s.inflight, tiles, LandState(s.hives, s.deadBees), |s.inflight|);
    LandUpToNectar(s.inflight, tiles, LandState(s.hives, s.deadBees), |s.inflight|);
    LandUpToQueens(s.inflight, tiles, LandState(s.hives, s.deadBees), |s.inflight|);
    LandedRemoval(s.inflight, tiles);
  }

  /** Deleting the landed keys keeps exactly the units that are not a worker or queen on a hive tile. */
  lemma LandedRemoval(u: Inflight, tiles: seq<Tile>)
    requires UniqueIds(u)
    ensures var r := RemoveIds(u, LandedIds(u, tiles));
      UniqueIds(r) &&
      (forall i :: 0 <= i < |r| ==> !(r[i].1.IsBee() && r[i].1.Tile() in tiles)) &&
      (forall i :: 0 <= i < |r| ==> r[i] in u) &&
      (forall i :: 0 <= i < |u| && !(u[i].1.IsBee() && u[i].1.Tile() in tiles) ==> u[i] in r)
  {
    var d := LandedIds(u, tiles);
    RemoveIdsUnique(u, d);
    var r := RemoveIds(u, d);
    RemoveIdsMembership(u, d);
    forall i | 0 <= i < |r|
      ensures !(r[i].1.IsBee() && r[i].1.Tile() in tiles)
    {
      var k :| 0 <= k < |u| && u[k] == r[i];
      assert u[k].0 !in d;
    }
  }

  // ---------------------------------------------------------------------------
  // detect_crashes

  /** The tiles held by units of one kind: seeds when `seeds`, workers and queens otherwise. */
  function TilesOf(s: Inflight, seeds: bool): set<Tile> {
    set i | 0 <= i < |s| && s[i].1.Seed? == seeds :: s[i].1.Tile()
  }

  /** `bee_occupied` (seeds false) and `seed_occupied` (seeds true): each tile held by units of
      that kind, mapped to their keys. */
  function Occupancy(s: Inflight, seeds: bool): map<Tile, set<UnitId>> {
    map t | t in TilesOf(s, seeds) :: UnitsAt(s, seeds, t)
  }

  /** The keys of the units of one kind on tile `t`. */
  function UnitsAt(s: Inflight, seeds: bool, t: Tile): set<UnitId> {
    set i | 0 <= i < |s| && s[i].1.Seed? == seeds && s[i].1.Tile() == t :: s[i].0
  }

  lemma TilesOfStep(s: Inflight, seeds: bool, i: nat)
    requires i < |s|
    ensures TilesOf(s[..i + 1], seeds) == TilesOf(s[..i], seeds) + if s[i].1.Seed? == seeds then {s[i].1.Tile()} else {}
  {
    var a, b := s[..i], s[..i + 1];
    assert forall k :: 0 <= k < i ==> b[k] == a[k];
    assert b[i] == s[i];
  }

  lemma UnitsAtStep(s: Inflight, seeds: bool, i: nat, u: Tile)
    requires i < |s|
    ensures UnitsAt(s[..i + 1], seeds, u) ==
      UnitsAt(s[..i], seeds, u) + if s[i].1.Seed? == seeds && s[i].1.Tile() == u then {s[i].0} else {}
  {
    var a, b := s[..i], s[..i + 1];
    assert forall k :: 0 <= k < i ==> b[k] == a[k];
    assert b[i] == s[i];
  }

  lemma UnitsAtElsewhere(s: Inflight, seeds: bool, u: Tile)
    requires u !in TilesOf(s, seeds)
    ensures UnitsAt(s, seeds, u) == {}
  {
  }

  /** Adding the next unit to the occupancy of a prefix: a unit of the kind joins the set of
      its tile (`setdefault(tile, set()).add(id)`); any other unit leaves the map as it was. */
  lemma OccupancyStep(s: Inflight, seeds: bool, i: nat)
    requires i < |s|
    ensures var occ := Occupancy(s[..i], seeds);
      var t := s[i].1.Tile();
      Occupancy(s[..i + 1], seeds) ==
        if s[i].1.Seed? == seeds then occ[t := (if t in occ then occ[t] else {}) + {s[i].0}] else occ
  {
    var a, b := s[..i], s[..i + 1];
    var occ := Occupancy(a, seeds);
    var t := s[i].1.Tile();
    TilesOfStep(s, seeds, i);
    var m := if s[i].1.Seed? == seeds then occ[t := (if t in occ then occ[t] else {}) + {s[i].0}] else occ;
    forall u | u in TilesOf(b, seeds)
      ensures Occupancy(b, seeds)[u] == m[u]
    {
      UnitsAtStep(s, seeds, i, u);
      if u !in TilesOf(a, seeds) {
        UnitsAtElsewhere(a, seeds, u);
      }
    }
  }

  /** The keys of units that share their tile (in `occ`) with another unit. */
  function Crowded(occ: map<Tile, set<UnitId>>): set<UnitId> {
    set t, id | t in occ && id in occ[t] && |occ[t]| > 1 :: id
  }

  lemma TwoInSet<T>(a: T, b: T, x: set<T>)
    requires a in x && b in x && a != b
    ensures |x| > 1
  {
    var y := x - {a};
    assert b in y;
    assert x == y + {a};
    assert |y| > 0;
  }

  lemma PickOther<T>(a: T, x: set<T>) returns (b: T)
    requires a in x && |x| > 1
    ensures b in x && b != a
  {
    assert |x - {a}| == |x| - 1;
    b :| b in x - {a};
  }

  /** A crowded unit has a partner: another unit of its kind, with another key, on its tile. */
  lemma CrowdedPartner(s: Inflight, seeds: bool, id: UnitId) returns (i: nat, j: nat)
    requires id in Crowded(Occupancy(s, seeds))
    ensures i < |s| && j < |s| && s[i].0 == id && s[j].0 != id
    ensures s[i].1.Seed? == seeds && s[j].1.Seed? == seeds && s[i].1.Tile() == s[j].1.Tile()
  {
    var occ := Occupancy(s, seeds);
    var t :| t in occ && id in occ[t] && |occ[t]| > 1;
    var other := PickOther(id, occ[t]);
    assert occ[t] == UnitsAt(s, seeds, t);
    i :| 0 <= i < |s| && s[i].1.Seed? == seeds && s[i].1.Tile() == t && s[i].0 == id;
    j :| 0 <= j < |s| && s[j].1.Seed? == seeds && s[j].1.Tile() == t && s[j].0 == other;
  }

  /** Two units of a kind with different keys on one tile are both crowded. */
  lemma PartnerCrowded(s: Inflight, seeds: bool, i: nat, j: nat)
    requires i < |s| && j < |s| && s[i].0 != s[j].0
    requires s[i].1.Seed? == seeds && s[j].1.Seed? == seeds && s[i].1.Tile() == s[j].1.Tile()
    ensures s[i].0 in Crowded(Occupancy(s, seeds))
  {
    var occ, t := Occupancy(s, seeds), s[i].1.Tile();
    OccupancyHolds(s, seeds, i);
    OccupancyHolds(s, seeds, j);
    TwoInSet(s[i].0, s[j].0, occ[t]);
  }

  /** A unit is crowded exactly when another unit of its kind, with another key, stands on its tile. */
  lemma CrowdedMeaning(s: Inflight, seeds: bool, id: UnitId)
    ensures id in Crowded(Occupancy(s, seeds)) <==>
      exists i, j :: 0 <= i < |s| && 0 <= j < |s| && s[i].0 == id && s[j].0 != id &&
        s[i].1.Seed? == seeds && s[j].1.Seed? == seeds && s[i].1.Tile() == s[j].1.Tile()
  {
    if id in Crowded(Occupancy(s, seeds)) {
      var i, j := CrowdedPartner(s, seeds, id);
    }
    if exists i, j :: 0 <= i < |s| && 0 <= j < |s| && s[i].0 == id && s[j].0 != id &&
        s[i].1.Seed? == seeds && s[j].1.Seed? == seeds && s[i].1.Tile() == s[j].1.Tile() {
      var i, j :| 0 <= i < |s| && 0 <= j < |s| && s[i].0 == id && s[j].0 != id &&
        s[i].1.Seed? == seeds && s[j].1.Seed? == seeds && s[i].1.Tile() == s[j].1.Tile();
      PartnerCrowded(s, seeds, i, j);
    }
  }

  /** Every unit of the kind is listed on its own tile. */
  lemma OccupancyHolds(s: Inflight, seeds: bool, i: nat)
    requires i < |s| && s[i].1.Seed? == seeds
    ensures s[i].1.Tile() in Occupancy(s, seeds) && s[i].0 in Occupancy(s, seeds)[s[i].1.Tile()]
  {
    var t := s[i].1.Tile();
    assert t in TilesOf(s, seeds);
    assert s[i].0 in UnitsAt(s, seeds, t);
  }

  function Xyh(v: Volant): (int, int, int) {
    (v.x, v.y, v.heading as int)
  }

  /** The place and heading of a worker or queen one step back along its reversed heading:
      another unit found there, facing the other way, is meeting it head on. */
  function OpposingState(delta: Delta, v: Volant): (int, int, int) {
    var rh := OppositeHeading(v.heading);
    var d := delta(rh, IsEven(v.x));
    (v.x + d.0, v.y + d.1, rh as int)
  }

  function OpposingStates(delta: Delta, s: Inflight): set<(int, int, int)> {
    set i | 0 <= i < |s| && s[i].1.IsBee() :: OpposingState(delta, s[i].1)
  }

  lemma OpposingStatesStep(delta: Delta, s: Inflight, i: nat)
    requires i < |s|
    ensures OpposingStates(delta, s[..i + 1]) ==
      OpposingStates(delta, s[..i]) + if s[i].1.IsBee() then {OpposingState(delta, s[i].1)} else {}
  {
    var a, b := s[..i], s[..i + 1];
    assert forall k :: 0 <= k < i ==> b[k] == a[k];
    assert b[i] == s[i];
  }

  function Collided(s: Inflight): set<UnitId> {
    Crowded(Occupancy(s, false))
  }

  function Exhausted(s: Inflight): set<UnitId> {
    (set i | 0 <= i < |s| && s[i].1.IsBee() && s[i].1.energy < 0 :: s[i].0) - Collided(s)
  }

  function HeadOn(delta: Delta, s: Inflight): set<UnitId> {
    (set i | 0 <= i < |s| && s[i].1.IsBee() && Xyh(s[i].1) in OpposingStates(delta, s) :: s[i].0)
      - Exhausted(s) - Collided(s)
  }

  function SeedsCollided(s: Inflight): set<UnitId> {
    Crowded(Occupancy(s, true))
  }

  function CrashedIds(delta: Delta, s: Inflight): set<UnitId> {
    Collided(s) + Exhausted(s) + HeadOn(delta, s) + SeedsCollided(s)
  }

  /** The end of `detect_crashes` once its four sets are known: the collided, exhausted and
      head-on workers or queens are counted dead, then all four sets are popped. */
  function ApplyCrashes(s: Snapshot, c: set<UnitId>, e: set<UnitId>, h: set<UnitId>, sc: set<UnitId>): Snapshot {
    s.(deadBees := s.deadBees + |c| + |e| + |h|, inflight := RemoveIds(s.inflight, c + e + h + sc))
  }

  /** `detect_crashes`. */
  function DetectCrashes(delta: Delta, s: Snapshot): Snapshot {
    var u := s.inflight;
    ApplyCrashes(s, Collided(u), Exhausted(u), HeadOn(delta, u), SeedsCollided(u))
  }

  /** After the crash step no two workers or queens share a tile, no two seeds share a tile,
      no worker or queen has negative energy, and none stands where another one meets it
      head on; exactly the crashed units are gone. */
  lemma DetectCrashesSurvivors(delta: Delta, s: Snapshot)
    requires UniqueIds(s.inflight)
    ensures var r := DetectCrashes(delta, s).inflight;
      var d := CrashedIds(delta, s.inflight);
      UniqueIds(r) &&
      (forall i, j :: 0 <= i < j < |r| && r[i].1.Seed? == r[j].1.Seed? ==> r[i].1.Tile() != r[j].1.Tile()) &&
      (forall i :: 0 <= i < |r| && r[i].1.IsBee() ==> r[i].1.energy >= 0) &&
      (forall i :: 0 <= i < |r| && r[i].1.IsBee() ==> Xyh(r[i].1) !in OpposingStates(delta, s.inflight)) &&
      (forall i :: 0 <= i < |r| ==> r[i] in s.inflight) &&
      (forall i :: 0 <= i < |s.inflight| ==> (s.inflight[i] in r <==> s.inflight[i].0 !in d))
  {
    var u := s.inflight;
    var d := CrashedIds(delta, u);
    var r := RemoveIds(u, d);
    RemoveIdsUnique(u, d);
    RemoveIdsMembership(u, d);
    forall i, j | 0 <= i < j < |r| && r[i].1.Seed? == r[j].1.Seed?
      ensures r[i].1.Tile() != r[j].1.Tile()
    {
      if r[i].1.Tile() == r[j].1.Tile() {
        var a :| 0 <= a < |u| && u[a] == r[i];
        var b :| 0 <= b < |u| && u[b] == r[j];
        CrowdedMeaning(u, r[i].1.Seed?, r[i].0);
      }
    }
    forall i | 0 <= i < |r| && r[i].1.IsBee()
      ensures r[i].1.energy >= 0 && Xyh(r[i].1) !in OpposingStates(delta, u)
    {
      var a :| 0 <= a < |u| && u[a] == r[i];
    }
    forall i | 0 <= i < |u| && u[i] in r
      ensures u[i].0 !in d
    {
      var k :| 0 <= k < |r| && r[k] == u[i];
    }
  }

  /** A worker or queen that meets another one head on (it stands where the other one's
      reversed step leads, facing the other way) is removed by the crash step. */
  lemma HeadOnRemoved(delta: Delta, s: Snapshot, a: nat, b: nat)
    requires UniqueIds(s.inflight)
    requires a < |s.inflight| && b < |s.inflight|
    requires s.inflight[a].1.IsBee() && s.inflight[b].1.IsBee()
    requires Xyh(s.inflight[b].1) == OpposingState(delta, s.inflight[a].1)
    ensures s.inflight[b] !in DetectCrashes(delta, s).inflight
  {
    var u := s.inflight;
    assert Xyh(u[b].1) in OpposingStates(delta, u);
    assert u[b].0 in CrashedIds(delta, u);
    RemoveIdsMembership(u, CrashedIds(delta, u));
  }

  function BeeIds(s: Inflight): set<UnitId> {
    set i | 0 <= i < |s| && s[i].1.IsBee() :: s[i].0
  }

  lemma CardRemoved<T>(a: set<T>, c: set<T>, e: set<T>, h: set<T>, other: set<T>)
    requires c + e + h <= a && other !! a
    requires c !! e && c !! h && e !! h
    ensures |a - (c + e + h + other)| == |a| - (|c| + |e| + |h|)
  {
    var lost := c + e + h;
    assert |c + e| == |c| + |e|;
    assert |lost| == |c| + |e| + |h|;
    assert a - (lost + other) == a - lost;
    assert a == (a - lost) + lost;
  }

  lemma CollidedAreBees(u: Inflight)
    ensures Collided(u) <= BeeIds(u)
  {
    forall id | id in Collided(u)
      ensures id in BeeIds(u)
    {
      CrowdedMeaning(u, false, id);
    }
  }

  lemma SeedsCollidedAreSeeds(u: Inflight)
    requires UniqueIds(u)
    ensures SeedsCollided(u) !! BeeIds(u)
  {
    forall id | id in SeedsCollided(u)
      ensures id !in BeeIds(u)
    {
      CrowdedMeaning(u, true, id);
    }
  }

  /** Deleting keys from the dictionary deletes exactly those workers and queens. */
  lemma BeeIdsAfterRemoval(u: Inflight, d: set<UnitId>)
    requires UniqueIds(u)
    ensures BeeIds(RemoveIds(u, d)) == BeeIds(u) - d
  {
    var r := RemoveIds(u, d);
    RemoveIdsMembership(u, d);
    forall id | id in BeeIds(r)
      ensures id in BeeIds(u) - d
    {
      var i :| 0 <= i < |r| && r[i].1.IsBee() && r[i].0 == id;
      var k :| 0 <= k < |u| && u[k] == r[i];
    }
    forall id | id in BeeIds(u) - d
      ensures id in BeeIds(r)
    {
      var k :| 0 <= k < |u| && u[k].1.IsBee() && u[k].0 == id;
      var i :| 0 <= i < |r| && r[i] == u[k];
    }
  }

  /** The loss counter rises by exactly the number of workers and queens the crash step
      removes; crowded seeds leave the board without being counted. */
  lemma CrashLossesCounted(delta: Delta, s: Snapshot)
    requires UniqueIds(s.inflight)
    ensures var r := DetectCrashes(delta, s);
      |BeeIds(r.inflight)| == |BeeIds(s.inflight)| - (r.deadBees - s.deadBees) &&
      SeedsCollided(s.inflight) !! BeeIds(s.inflight)
  {
    var u := s.inflight;
    CollidedAreBees(u);
    SeedsCollidedAreSeeds(u);
    BeeIdsAfterRemoval(u, CrashedIds(delta, u));
    CardRemoved(BeeIds(u), Collided(u), Exhausted(u), HeadOn(delta, u), SeedsCollided(u));
  }

  // ---------------------------------------------------------------------------
  // make_turn

  /** `make_turn`: the seven steps in order, stopping at the first error. */
  function Tick(w: World, s: Snapshot, cmd: Command, turn: int): Result<Snapshot, Error> {
    var s1 :- ApplyCommand(w, s, cmd, turn);
    var fl :- ExpireFlowers(w.pick, s1.flowers, turn);
    var s2 := s1.(flowers := fl);
    var s3 := s2.(inflight := AdvanceAll(w.delta, s2.inflight));
    var s4 :- SendVolants(w, s3);
    var s5 := VisitFlowers(w.params, s4);
    var s6 := LandBees(s5);
    Ok(DetectCrashes(w.delta, s6))
  }

  predicate HivesOnBoard(w: World, hs: seq<Hive>) {
    forall i :: 0 <= i < |hs| ==> InBounds(w, HiveTile(hs[i]))
  }

  predicate FlowersOnBoard(w: World, fs: seq<Flower>) {
    forall i :: 0 <= i < |fs| ==> InBounds(w, FlowerTile(fs[i]))
  }

  predicate UnitsOnBoard(w: World, u: Inflight) {
    forall i :: 0 <= i < |u| ==> InBounds(w, u[i].1.Tile())
  }

  /** A board the lookahead can play on: unique keys, every flower's expiry known, and
      everything on the board. */
  predicate WellFormed(w: World, s: Snapshot) {
    UniqueIds(s.inflight) && AllExpiriesDefined(s.flowers) &&
    HivesOnBoard(w, s.hives) && FlowersOnBoard(w, s.flowers) && UnitsOnBoard(w, s.inflight)
  }

  /** What holds at the end of every tick: no two units of a kind share a tile, no worker or
      queen has negative energy, and none stands on a hive tile. */
  predicate Settled(s: Snapshot) {
    var u := s.inflight;
    (forall i, j :: 0 <= i < j < |u| && u[i].1.Seed? == u[j].1.Seed? ==> u[i].1.Tile() != u[j].1.Tile()) &&
    (forall i :: 0 <= i < |u| && u[i].1.IsBee() ==> u[i].1.energy >= 0 && u[i].1.Tile() !in HiveTiles(s.hives))
  }

  lemma ApplyCommandWellFormed(w: World, s: Snapshot, cmd: Command, turn: int)
    requires WellFormed(w, s) && ApplyCommand(w, s, cmd, turn).Ok?
    ensures WellFormed(w, ApplyCommand(w, s, cmd, turn).value)
  {
    if cmd.Issue? && !cmd.order.NoOrder? {
      var k := IndexOfId(s.inflight, cmd.entity);
      var v := s.inflight[k].1;
      if v.Seed? && cmd.order.PlantFlower? {
        PlantFlowerStepWellFormed(w, s, k, turn);
      } else if v.QueenBee? && cmd.order.BuildHive? {
        BuildHiveStepWellFormed(w, s, k);
      } else {
        RotateWellFormed(w, s, k, cmd.order.heading);
      }
    }
  }

  lemma PlantFlowerStepWellFormed(w: World, s: Snapshot, k: nat, turn: int)
    requires WellFormed(w, s) && k < |s.inflight| && s.inflight[k].1.Seed?
    ensures WellFormed(w, PlantFlowerStep(w, s, s.inflight[k].0, s.inflight[k].1, turn))
  {
    var (id, v) := s.inflight[k];
    var r := PlantFlowerStep(w, s, id, v, turn);
    RemoveIdsUnique(s.inflight, {id});
    RemoveIdsMembership(s.inflight, {id});
    assert InBounds(w, v.Tile());
    forall i | 0 <= i < |r.inflight|
      ensures InBounds(w, r.inflight[i].1.Tile())
    {
      var a :| 0 <= a < |s.inflight| && s.inflight[a] == r.inflight[i];
    }
    forall i | 0 <= i < |r.hives|
      ensures InBounds(w, HiveTile(r.hives[i]))
    {
      var a :| 0 <= a < |s.hives| && s.hives[a] == r.hives[i];
    }
    forall i | 0 <= i < |r.flowers|
      ensures InBounds(w, FlowerTile(r.flowers[i])) && r.flowers[i].expires.Some?
    {
      if i < |r.flowers| - 1 {
        assert r.flowers[i] in s.flowers;
        var a :| 0 <= a < |s.flowers| && s.flowers[a] == r.flowers[i];
      }
    }
  }

  lemma BuildHiveStepWellFormed(w: World, s: Snapshot, k: nat)
    requires WellFormed(w, s) && k < |s.inflight| && s.inflight[k].1.QueenBee?
    ensures WellFormed(w, BuildHiveStep(s, s.inflight[k].0, s.inflight[k].1))
  {
    var (id, v) := s.inflight[k];
    var r := BuildHiveStep(s, id, v);
    RemoveIdsUnique(s.inflight, {id});
    RemoveIdsMembership(s.inflight, {id});
    assert InBounds(w, v.Tile());
    forall i | 0 <= i < |r.inflight|
      ensures InBounds(w, r.inflight[i].1.Tile())
    {
      var a :| 0 <= a < |s.inflight| && s.inflight[a] == r.inflight[i];
    }
    forall i | 0 <= i < |r.hives|
      ensures InBounds(w, HiveTile(r.hives[i]))
    {
      if i < |r.hives| - 1 {
        var a :| 0 <= a < |s.hives| && s.hives[a] == r.hives[i];
      }
    }
    forall i | 0 <= i < |r.flowers|
      ensures InBounds(w, FlowerTile(r.flowers[i])) && r.flowers[i].expires.Some?
    {
      var a :| 0 <= a < |s.flowers| && s.flowers[a] == r.flowers[i];
    }
  }

  lemma RotateWellFormed(w: World, s: Snapshot, k: nat, h: Heading)
    requires WellFormed(w, s) && k < |s.inflight|
    ensures WellFormed(w, s.(inflight := s.inflight[k := (s.inflight[k].0, s.inflight[k].1.(heading := h))]))
  {
    var r := s.inflight[k := (s.inflight[k].0, s.inflight[k].1.(heading := h))];
    assert forall i :: 0 <= i < |r| ==> r[i].0 == s.inflight[i].0 && r[i].1.Tile() == s.inflight[i].1.Tile();
  }

  lemma ExpireFlowersWellFormed(w: World, s: Snapshot, turn: int)
    requires WellFormed(w, s)
    ensures ExpireFlowers(w.pick, s.flowers, turn).Ok?
    ensures WellFormed(w, s.(flowers := ExpireFlowers(w.pick, s.flowers, turn).value))
  {
    var fl := ExpireFlowers(w.pick, s.flowers, turn).value;
    forall i | 0 <= i < |fl|
      ensures InBounds(w, FlowerTile(fl[i]))
    {
      var a :| 0 <= a < |s.flowers| && s.flowers[a] == fl[i];
    }
  }

  /** After moving and sending, everything is on the board again; sending cannot fail when
      every unit started on the board. */
  lemma MoveAndSendWellFormed(w: World, s: Snapshot)
    requires UniqueIds(s.inflight) && AllExpiriesDefined(s.flowers)
    requires HivesOnBoard(w, s.hives) && FlowersOnBoard(w, s.flowers)
    ensures UnitsOnBoard(w, s.inflight) ==> SendVolants(w, s.(inflight := AdvanceAll(w.delta, s.inflight))).Ok?
    ensures SendVolants(w, s.(inflight := AdvanceAll(w.delta, s.inflight))).Ok? ==>
      WellFormed(w, SendVolants(w, s.(inflight := AdvanceAll(w.delta, s.inflight))).value)
  {
    var s3 := s.(inflight := AdvanceAll(w.delta, s.inflight));
    AdvanceAllIds(w.delta, s.inflight);
    SendVolantsBounds(w, s3);
    SendVolantsFails(w, s3);
    if w.width == 0 || w.height == 0 {
      NothingOnEmptyBoard(w, s.inflight);
    }
  }

  /** A board of width or height 0 has no tile, so only an empty dictionary is on it. */
  lemma NothingOnEmptyBoard(w: World, u: Inflight)
    requires w.width == 0 || w.height == 0
    ensures UnitsOnBoard(w, u) <==> u == []
  {
    if u != [] {
      assert !InBounds(w, u[0].1.Tile());
    }
  }

  lemma VisitFlowersWellFormed(w: World, s: Snapshot)
    requires WellFormed(w, s)
    ensures WellFormed(w, VisitFlowers(w.params, s))
    ensures VisitFlowers(w.params, s).hives == s.hives
  {
    var r := VisitFlowers(w.params, s);
    VisitFlowersEffect(w.params, s);
    forall i | 0 <= i < |r.flowers|
      ensures InBounds(w, FlowerTile(r.flowers[i]))
    {
      assert FlowerTiles(r.flowers)[i] == FlowerTiles(s.flowers)[i];
    }
  }

  lemma LandBeesWellFormed(w: World, s: Snapshot)
    requires WellFormed(w, s)
    ensures WellFormed(w, LandBees(s))
    ensures HiveTiles(LandBees(s).hives) == HiveTiles(s.hives)
    ensures forall i :: 0 <= i < |LandBees(s).inflight| && LandBees(s).inflight[i].1.IsBee() ==>
      LandBees(s).inflight[i].1.Tile() !in HiveTiles(s.hives)
  {
    var r := LandBees(s);
    LandBeesEffect(s);
    assert forall k :: 0 <= k < |r.hives| ==> HiveTiles(r.hives)[k] == HiveTiles(s.hives)[k];
    forall i | 0 <= i < |r.inflight|
      ensures InBounds(w, r.inflight[i].1.Tile())
    {
      var a :| 0 <= a < |s.inflight| && s.inflight[a] == r.inflight[i];
    }
  }

  /** Removing units, and nothing else, keeps a board well formed and keeps workers and
      queens off hive tiles. */
  lemma SubBoard(w: World, s: Snapshot, r: Snapshot)
    requires WellFormed(w, s) && r.hives == s.hives && r.flowers == s.flowers && UniqueIds(r.inflight)
    requires forall i :: 0 <= i < |r.inflight| ==> r.inflight[i] in s.inflight
    ensures WellFormed(w, r)
    ensures (forall i :: 0 <= i < |s.inflight| && s.inflight[i].1.IsBee() ==> s.inflight[i].1.Tile() !in HiveTiles(s.hives)) ==>
      forall i :: 0 <= i < |r.inflight| && r.inflight[i].1.IsBee() ==> r.inflight[i].1.Tile() !in HiveTiles(r.hives)
  {
    forall i | 0 <= i < |r.inflight|
      ensures InBounds(w, r.inflight[i].1.Tile())
      ensures r.inflight[i].1.IsBee() && r.inflight[i].1.Tile() in HiveTiles(r.hives) ==>
        exists a :: 0 <= a < |s.inflight| && s.inflight[a].1.IsBee() && s.inflight[a].1.Tile() in HiveTiles(s.hives)
    {
      var a :| 0 <= a < |s.inflight| && s.inflight[a] == r.inflight[i];
    }
  }

  lemma DetectCrashesSettles(w: World, s: Snapshot)
    requires WellFormed(w, s)
    requires forall i :: 0 <= i < |s.inflight| && s.inflight[i].1.IsBee() ==> s.inflight[i].1.Tile() !in HiveTiles(s.hives)
    ensures WellFormed(w, DetectCrashes(w.delta, s)) && Settled(DetectCrashes(w.delta, s))
  {
    DetectCrashesSurvivors(w.delta, s);
    SubBoard(w, s, DetectCrashes(w.delta, s));
  }

  /** A tick on a well-formed board never fails except by the command it is given, and it
      leaves a well-formed, settled board. */
  lemma TickWellFormed(w: World, s: Snapshot, cmd: Command, turn: int)
    requires WellFormed(w, s)
    ensures ApplyCommand(w, s, cmd, turn).Ok? ==> Tick(w, s, cmd, turn).Ok?
    ensures Tick(w, s, cmd, turn).Ok? ==>
      WellFormed(w, Tick(w, s, cmd, turn).value) && Settled(Tick(w, s, cmd, turn).value)
  {
    if ApplyCommand(w, s, cmd, turn).Ok? {
      var s1 := ApplyCommand(w, s, cmd, turn).value;
      ApplyCommandWellFormed(w, s, cmd, turn);
      ExpireFlowersWellFormed(w, s1, turn);
      var s2 := s1.(flowers := ExpireFlowers(w.pick, s1.flowers, turn).value);
      var s3 := s2.(inflight := AdvanceAll(w.delta, s2.inflight));
      MoveAndSendWellFormed(w, s2);
      var s4 := SendVolants(w, s3).value;
      VisitFlowersWellFormed(w, s4);
      var s5 := VisitFlowers(w.params, s4);
      LandBeesWellFormed(w, s5);
      var s6 := LandBees(s5);
      DetectCrashesSettles(w, s6);
      assert Tick(w, s, cmd, turn) == Ok(DetectCrashes(w.delta, s6));
    }
  }

  /** Expiry never takes the last flower, but founding a hive does: a queen that builds on
      the tile of the board's only flower leaves the board without flowers. */
  lemma HiveFoundingClearsLastFlower(w: World, p: GameParams)
    ensures var q := QueenBee(0, 0, 0, 5, p, 0);
      var s := Snapshot([], [Flower(0, 0, 1, 0, Some(10))], [("q", q)], 0, 0);
      Tick(w, s, Issue("q", BuildHive), 0).Ok? && Tick(w, s, Issue("q", BuildHive), 0).value.flowers == []
  {
    var q := QueenBee(0, 0, 0, 5, p, 0);
    var s := Snapshot([], [Flower(0, 0, 1, 0, Some(10))], [("q", q)], 0, 0);
    assert IndexOfId(s.inflight, "q") == 0;
    var s1 := ApplyCommand(w, s, Issue("q", BuildHive), 0).value;
    assert DelAtCoordinate(s.flowers, FlowerTile, (0, 0)) == [];
    assert s1.flowers == [];
    assert ExpireFlowers(w.pick, s1.flowers, 0) == Ok([]);
    var s2 := s1.(flowers := []);
    var s3 := s2.(inflight := AdvanceAll(w.delta, s2.inflight));
    SendVolantsFails(w, s3);
    var s4 := SendVolants(w, s3).value;
    VisitFlowersEffect(w.params, s4);
    var s5 := VisitFlowers(w.params, s4);
    assert |s5.flowers| == |FlowerTiles(s5.flowers)| == 0;
    var s6 := LandBees(s5);
    assert Tick(w, s, Issue("q", BuildHive), 0) == Ok(DetectCrashes(w.delta, s6));
  }
}
