/**
 * The search node of matts_tools/my_node_json.py: the pruned move generator, the two stage
 * scores, the transposition key and the child built by one tick of a fresh LiteBoard.
 *
 * The source's node holds the board as the JSON lists of `LiteBoard.to_json`; this node
 * holds the decoded board, which the round trip of module Board makes the same thing.
 */
module Nodes {
  import opened Wrappers
  import opened Hiveminder
  import opened Tiles
  import opened Flowers
  import opened Units
  import opened Simulation
  import opened Board

  /** `game_stage`: "early" or "mid". */
  datatype Stage = Early | Mid

  /** A `*_stage_graded_nectar` entry: [limits, points]. */
  datatype Tiers = Tiers(limits: seq<int>, points: seq<int>)

  /** The ScoreParameters fields the scores read. */
  datatype ScoreParams = ScoreParams(
    flowerAdjacentToHive: int,
    flowerAdjacentToFlower: int,
    flowerScoreFactor: int,
    hiveScoreFactor: int,
    deadBeeScoreFactor: int,
    nectarScoreFactor: int,
    midStageGradedNectar: Tiers,
    earlyStageGradedNectar: Tiers)

  /** A MyNodeJson: the board, the turn number, the command that led here, the score
      parameters, the stage and the two adjacency sets computed once at the root. The world
      holds board_width, board_height and game_params. */
  datatype Node = Node(
    world: World,
    board: Snapshot,
    turn: int,
    cmd: Command,
    scoreParams: ScoreParams,
    stage: Stage,
    adjacentToFlowers: set<Tile>,
    adjacentToHives: set<Tile>)

  // ---------------------------------------------------------------------------
  // potential_moves

  /** `poss_headings`: the two headings a unit may turn to, as the table lists them. */
  function PossHeadings(h: Heading): seq<Heading> {
    if h == 0 then [60, -60]
    else if h == 60 then [120, 0]
    else if h == 120 then [180, 60]
    else if h == 180 then [-120, 120]
    else if h == -120 then [-60, 180]
    else [0, -120]
  }

  /** The table agrees with LEGAL_NEW_HEADINGS: one turn to the left and one to the right, two
      different headings, exactly the legal ones. */
  lemma PossHeadingsLegal(h: Heading)
    ensures PossHeadings(h) == [Turned(h, 1), Turned(h, -1)]
    ensures |PossHeadings(h)| == 2 && PossHeadings(h)[0] != PossHeadings(h)[1]
    ensures forall k :: k in LegalNewHeadings(h) <==> k in PossHeadings(h)
  {
    if h == 0 {
      assert CompassIndex(h) == 0 && Turned(h, 1) == 60 && Turned(h, -1) == -60;
    } else if h == 60 {
      assert CompassIndex(h) == 1 && Turned(h, 1) == 120 && Turned(h, -1) == 0;
    } else if h == 120 {
      assert CompassIndex(h) == 2 && Turned(h, 1) == 180 && Turned(h, -1) == 60;
    } else if h == 180 {
      assert CompassIndex(h) == 3 && Turned(h, 1) == -120 && Turned(h, -1) == 120;
    } else if h == -120 {
      assert CompassIndex(h) == 4 && Turned(h, 1) == -60 && Turned(h, -1) == 180;
    } else {
      assert CompassIndex(h) == 5 && Turned(h, 1) == 0 && Turned(h, -1) == -120;
    }
  }

  /** `hive_locations`. */
  function HiveLocations(hs: seq<Hive>): set<Tile> {
    set i | 0 <= i < |hs| :: HiveTile(hs[i])
  }

  function FlowerLocations(fs: seq<Flower>): set<Tile> {
    set i | 0 <= i < |fs| :: FlowerTile(fs[i])
  }

  /** `flower_footprint` of `potential_moves`: the flower tiles together with the hive tiles. */
  function FlowerFootprint(hs: seq<Hive>, fs: seq<Flower>): set<Tile> {
    FlowerLocations(fs) + HiveLocations(hs)
  }

  /** `hive_footprint` of `potential_moves`: the size-2 footprints (as written) of the hives
      while there are at most two of them, the hive tiles once there are more. */
  function HiveFootprint(hs: seq<Hive>): set<Tile> {
    if |hs| <= 2 then set i, t | 0 <= i < |hs| && t in FootprintAsWritten(HiveTile(hs[i]), 2) :: t
    else HiveLocations(hs)
  }

  /** Python's truth value of a two-element tuple: a non-empty tuple is always true. */
  predicate PairTruthy(a: int, b: bool) {
    true
  }

  /** Python's `y in tiles` for an integer y and a set of (x, y) tuples: an integer equals no
      tuple, so it is never a member. */
  predicate IntInTiles(y: int, tiles: set<Tile>) {
    false
  }

  /** The ids of the queens in flight, in dictionary order. */
  function Queens(u: Inflight): (r: Inflight)
    ensures forall i :: 0 <= i < |r| ==> r[i] in u && r[i].1.QueenBee?
    ensures forall i :: 0 <= i < |u| && u[i].1.QueenBee? ==> u[i] in r
    ensures |r| <= |u|
  {
    if u == [] then []
    else
      var last := u[|u| - 1];
      var r := Queens(u[..|u| - 1]) + (if last.1.QueenBee? then [last] else []);
      assert forall i :: 0 <= i < |u| - 1 ==> u[i] == u[..|u| - 1][i];
      r
  }

  /** Where the queens sit in the dictionary: the i-th queen is the unit at position
      pos[i], and the positions increase. */
  lemma {:induction false} QueenPositions(u: Inflight) returns (pos: seq<nat>)
    ensures |pos| == |Queens(u)|
    ensures forall i :: 0 <= i < |pos| ==> pos[i] < |u| && u[pos[i]] == Queens(u)[i]
    ensures forall i, j :: 0 <= i < j < |pos| ==> pos[i] < pos[j]
  {
    if u == [] {
      pos := [];
    } else {
      var u' := u[..|u| - 1];
      var last := u[|u| - 1];
      var pos' := QueenPositions(u');
      assert Queens(u) == Queens(u') + (if last.1.QueenBee? then [last] else []);
      pos := pos' + (if last.1.QueenBee? then [|u| - 1] else []);
      forall i | 0 <= i < |pos'| ensures u[pos[i]] == Queens(u)[i] {
        assert u[pos'[i]] == u'[pos'[i]];
      }
    }
  }

  /** The queens keep the dictionary's order: of any two, the earlier comes first in the
      dictionary too. */
  lemma QueensInOrder(u: Inflight)
    ensures forall i, j :: 0 <= i < j < |Queens(u)| ==>
      exists a, b :: 0 <= a < b < |u| && u[a] == Queens(u)[i] && u[b] == Queens(u)[j]
  {
    var pos := QueenPositions(u);
    forall i, j | 0 <= i < j < |Queens(u)|
      ensures exists a, b :: 0 <= a < b < |u| && u[a] == Queens(u)[i] && u[b] == Queens(u)[j]
    {
      assert u[pos[i]] == Queens(u)[i] && u[pos[j]] == Queens(u)[j] && pos[i] < pos[j];
    }
  }

  /** `tracked_volant_ids`: only the queens when any queen is in flight, otherwise every unit. */
  function Tracked(u: Inflight): Inflight {
    var q := Queens(u);
    if q != [] then q else u
  }

  /** The tile sets `potential_moves` prunes with. */
  datatype Pruning = Pruning(hiveLocations: set<Tile>, flowerFootprint: set<Tile>, hiveFootprint: set<Tile>)

  function PruningOf(s: Snapshot): Pruning {
    Pruning(HiveLocations(s.hives), FlowerFootprint(s.hives, s.flowers), HiveFootprint(s.hives))
  }

  /** A rotation order to each heading of `hs`, in order. */
  function Rotations(id: UnitId, hs: seq<Heading>): (r: seq<Command>)
    ensures |r| == |hs| && forall k :: 0 <= k < |hs| ==> r[k] == Issue(id, Rotate(hs[k]))
  {
    seq(|hs|, k requires 0 <= k < |hs| => Issue(id, Rotate(hs[k])))
  }

  /** The order, if any, that follows the rotations of one tracked unit, as written:
      "create_hive" for a queen outside the hive footprint, "flower" for a seed outside the
      flower footprint. The second queen branch tests the negation of a non-empty tuple, so it
      never adds a move. */
  function ExtraMoveAsWritten(pr: Pruning, e: Entry): seq<Command> {
    var (id, v) := e;
    if v.QueenBee? then
      if v.Tile() !in pr.hiveFootprint then [Issue(id, BuildHive)]
      else if v.energy <= 1 && !PairTruthy(v.x, IntInTiles(v.y, pr.hiveLocations)) then [Issue(id, BuildHive)]
      else []
    else if v.Seed? && v.Tile() !in pr.flowerFootprint then [Issue(id, PlantFlower)]
    else []
  }

  /** As written, a queen inside the hive footprint is never told to build, whatever her
      energy. */
  lemma ExtraMoveAsWrittenDeadBranch(pr: Pruning, e: Entry)
    requires e.1.QueenBee? && e.1.Tile() in pr.hiveFootprint
    ensures ExtraMoveAsWritten(pr, e) == []
  {
  }

  /** A queen with 1 energy on the tile below the only hive: as written she gets no
      "create_hive", as intended she does (for instance a hive at (3, 3), the queen at (3, 4)). */
  lemma ExtraMoveExample(params: GameParams, x: int, y: int)
    requires 0 <= x < FootprintLimit && 0 <= y < FootprintLimit - 1
    ensures var q := ("q", QueenBee(x, y + 1, 0, 1, params, 0));
      var pr := PruningOf(Snapshot([Hive(x, y, 0)], [], [q], 0, 0));
      ExtraMoveAsWritten(pr, q) == [] && ExtraMove(pr, q) == [Issue("q", BuildHive)]
  {
    var hs := [Hive(x, y, 0)];
    FootprintAsWrittenMembership(HiveTile(hs[0]), 2, (x, y + 1));
    assert (x, y + 1) in FootprintAsWritten(HiveTile(hs[0]), 2);
    assert (x, y + 1) in HiveFootprint(hs);
    assert (x, y + 1) !in HiveLocations(hs);
  }

  /** The order that follows the rotations of one tracked unit as the second queen branch
      evidently intends: "create_hive" also for a queen with at most 1 energy off every hive
      tile. The move generator keeps the behaviour as written; this is the corrected half of
      that finding. */
  function ExtraMove(pr: Pruning, e: Entry): seq<Command> {
    var (id, v) := e;
    if v.QueenBee? then
      if v.Tile() !in pr.hiveFootprint then [Issue(id, BuildHive)]
      else if v.energy <= 1 && v.Tile() !in pr.hiveLocations then [Issue(id, BuildHive)]
      else []
    else if v.Seed? && v.Tile() !in pr.flowerFootprint then [Issue(id, PlantFlower)]
    else []
  }

  /** As intended, a queen is told to build exactly when she is outside the hive footprint or
      has at most 1 energy and stands on no hive; the two versions differ only for a queen
      inside the footprint with at most 1 energy off every hive tile. */
  lemma ExtraMoveIntended(pr: Pruning, e: Entry)
    ensures Issue(e.0, BuildHive) in ExtraMove(pr, e) <==>
      e.1.QueenBee? && (e.1.Tile() !in pr.hiveFootprint || (e.1.energy <= 1 && e.1.Tile() !in pr.hiveLocations))
    ensures ExtraMove(pr, e) != ExtraMoveAsWritten(pr, e) <==>
      e.1.QueenBee? && e.1.Tile() in pr.hiveFootprint && e.1.energy <= 1 && e.1.Tile() !in pr.hiveLocations
  {
  }

  /** The moves of one tracked unit: its two rotations, then its extra move as written. */
  function UnitMoves(pr: Pruning, e: Entry): seq<Command> {
    Rotations(e.0, PossHeadings(e.1.heading)) + ExtraMoveAsWritten(pr, e)
  }

  /** Whether a queen may be told to build: off the hive footprint, whatever her energy. */
  predicate MayBuild(pr: Pruning, v: Volant) {
    v.QueenBee? && v.Tile() !in pr.hiveFootprint
  }

  /** Whether `m` is one of the moves of tracked unit `e`: one of its legal rotations,
      "create_hive" for a queen that may build, or "flower" for a seed off the flower
      footprint. */
  predicate Offers(pr: Pruning, e: Entry, m: Command) {
    m.Issue? && m.entity == e.0 &&
    ((m.order.Rotate? && m.order.heading in LegalNewHeadings(e.1.heading)) ||
     (m.order.BuildHive? && MayBuild(pr, e.1)) ||
     (m.order.PlantFlower? && e.1.Seed? && e.1.Tile() !in pr.flowerFootprint))
  }

  /** The moves of one unit are the ones it is offered and nothing else. */
  lemma UnitMovesMembership(pr: Pruning, e: Entry, m: Command)
    ensures m in UnitMoves(pr, e) <==> Offers(pr, e, m)
  {
    PossHeadingsLegal(e.1.heading);
    var hs := PossHeadings(e.1.heading);
    assert Rotations(e.0, hs) == [Issue(e.0, Rotate(hs[0])), Issue(e.0, Rotate(hs[1]))];
  }

  /** The moves of the tracked units, in order. */
  function TrackedMoves(pr: Pruning, t: Inflight): seq<Command> {
    if t == [] then [] else TrackedMoves(pr, t[..|t| - 1]) + UnitMoves(pr, t[|t| - 1])
  }

  /** `potential_moves`: None first, then the moves of every tracked unit. */
  function Moves(n: Node): seq<Command> {
    [NoCommand] + TrackedMoves(PruningOf(n.board), Tracked(n.board.inflight))
  }

  /** `potential_moves`, with the accumulating loop of the source. */
  method PotentialMoves(n: Node) returns (res: seq<Command>)
    ensures res == Moves(n)
  {
    res := CollectMoves(PruningOf(n.board), Tracked(n.board.inflight));
  }

  /** The loop of `potential_moves` over the tracked units, starting from [None]. */
  method CollectMoves(pr: Pruning, tracked: Inflight) returns (res: seq<Command>)
    ensures res == [NoCommand] + TrackedMoves(pr, tracked)
  {
    res := [NoCommand];
    for i := 0 to |tracked|
      invariant res == [NoCommand] + TrackedMoves(pr, tracked[..i])
    {
      ghost var before := res;
      res := AppendUnitMoves(pr, tracked[i], res);
      assert tracked[..i + 1][..i] == tracked[..i] && tracked[..i + 1][i] == tracked[i];
      AfterNone(TrackedMoves(pr, tracked[..i]), UnitMoves(pr, tracked[i]));
    }
    assert tracked[..|tracked|] == tracked;
  }

  /** One pass of the `potential_moves` loop: the moves of one tracked unit appended to `res`. */
  method AppendUnitMoves(pr: Pruning, e: Entry, res0: seq<Command>) returns (res: seq<Command>)
    ensures res == res0 + UnitMoves(pr, e)
  {
    res := res0;
    var (id, v) := e;
    var headings := PossHeadings(v.heading);
    for j := 0 to |headings|
      invariant res == res0 + Rotations(id, headings[..j])
    {
      res := res + [Issue(id, Rotate(headings[j]))];
    }
    assert headings[..|headings|] == headings;
    if v.QueenBee? {
      if v.Tile() !in pr.hiveFootprint {
        res := res + [Issue(id, BuildHive)];
      } else if v.energy <= 1 && !PairTruthy(v.x, IntInTiles(v.y, pr.hiveLocations)) {
        res := res + [Issue(id, BuildHive)];
      }
    } else if v.Seed? && v.Tile() !in pr.flowerFootprint {
      res := res + [Issue(id, PlantFlower)];
    }
  }

  lemma AfterNone(a: seq<Command>, b: seq<Command>)
    ensures [NoCommand] + (a + b) == ([NoCommand] + a) + b
  {
  }

  /** A move belongs to the tracked moves exactly when one tracked unit is offered it. */
  lemma {:induction false} TrackedMovesMembership(pr: Pruning, t: Inflight, m: Command)
    ensures m in TrackedMoves(pr, t) <==> exists i :: 0 <= i < |t| && Offers(pr, t[i], m)
  {
    if t != [] {
      var t' := t[..|t| - 1];
      TrackedMovesMembership(pr, t', m);
      UnitMovesMembership(pr, t[|t| - 1], m);
      if m in TrackedMoves(pr, t) && !Offers(pr, t[|t| - 1], m) {
        var i :| 0 <= i < |t'| && Offers(pr, t'[i], m);
        assert t[i] == t'[i];
      }
      if exists i :: 0 <= i < |t| && Offers(pr, t[i], m) {
        var i :| 0 <= i < |t| && Offers(pr, t[i], m);
        if i < |t| - 1 {
          assert t[i] == t'[i];
        }
      }
    }
  }

  /** The candidates are None and the moves some tracked unit is offered. */
  lemma MovesMembership(n: Node, m: Command)
    ensures m in Moves(n) <==>
      m == NoCommand || exists i :: 0 <= i < |Tracked(n.board.inflight)| && Offers(PruningOf(n.board), Tracked(n.board.inflight)[i], m)
  {
    TrackedMovesMembership(PruningOf(n.board), Tracked(n.board.inflight), m);
    if m != NoCommand {
      assert m in Moves(n) <==> m in TrackedMoves(PruningOf(n.board), Tracked(n.board.inflight));
    }
  }

  lemma {:induction false} TrackedMovesLength(pr: Pruning, t: Inflight)
    ensures 2 * |t| <= |TrackedMoves(pr, t)| <= 3 * |t|
  {
    if t != [] {
      TrackedMovesLength(pr, t[..|t| - 1]);
    }
  }

  /** The candidate list starts with None and holds at most three moves per tracked unit
      (at least two). */
  lemma MovesShape(n: Node)
    ensures |Moves(n)| >= 1 && Moves(n)[0] == NoCommand
    ensures 1 + 2 * |Tracked(n.board.inflight)| <= |Moves(n)| <= 1 + 3 * |Tracked(n.board.inflight)|
    ensures forall k :: 1 <= k < |Moves(n)| ==> Moves(n)[k].Issue?
  {
    TrackedMovesLength(PruningOf(n.board), Tracked(n.board.inflight));
    forall k | 1 <= k < |Moves(n)|
      ensures Moves(n)[k].Issue?
    {
      var m := Moves(n)[k];
      assert m in TrackedMoves(PruningOf(n.board), Tracked(n.board.inflight));
      TrackedMovesMembership(PruningOf(n.board), Tracked(n.board.inflight), m);
    }
  }

  /** While any queen is in flight, every move after None commands a queen. */
  lemma MovesOnlyQueens(n: Node, m: Command)
    requires exists i :: 0 <= i < |n.board.inflight| && n.board.inflight[i].1.QueenBee?
    requires m in Moves(n) && m != NoCommand
    ensures exists i :: 0 <= i < |n.board.inflight| && n.board.inflight[i].1.QueenBee? && n.board.inflight[i].0 == m.entity
  {
    var u := n.board.inflight;
    var i0 :| 0 <= i0 < |u| && u[i0].1.QueenBee?;
    assert u[i0] in Queens(u);
    var t := Tracked(u);
    assert t == Queens(u);
    MovesMembership(n, m);
    var i :| 0 <= i < |t| && Offers(PruningOf(n.board), t[i], m);
    var a :| 0 <= a < |u| && u[a] == t[i];
  }

  /** The rotations offered are exactly the legal new headings of each tracked unit. */
  lemma MovesRotations(n: Node, id: UnitId, h: int)
    ensures Issue(id, Rotate(h)) in Moves(n) <==>
      exists i :: 0 <= i < |Tracked(n.board.inflight)| && Tracked(n.board.inflight)[i].0 == id &&
        h in LegalNewHeadings(Tracked(n.board.inflight)[i].1.heading)
  {
    MovesMembership(n, Issue(id, Rotate(h)));
  }

  /** A queen is told to build exactly when it is tracked and stands outside the hive
      footprint, whatever its energy. */
  lemma MovesBuildHive(n: Node, id: UnitId)
    ensures Issue(id, BuildHive) in Moves(n) <==>
      exists i :: 0 <= i < |Tracked(n.board.inflight)| && Tracked(n.board.inflight)[i].0 == id &&
        Tracked(n.board.inflight)[i].1.QueenBee? &&
        Tracked(n.board.inflight)[i].1.Tile() !in HiveFootprint(n.board.hives)
  {
    MovesMembership(n, Issue(id, BuildHive));
  }

  /** A seed is told to flower exactly when it is tracked and its tile holds neither a hive
      nor a flower. */
  lemma MovesPlantFlower(n: Node, id: UnitId)
    ensures Issue(id, PlantFlower) in Moves(n) <==>
      exists i :: 0 <= i < |Tracked(n.board.inflight)| && Tracked(n.board.inflight)[i].0 == id &&
        Tracked(n.board.inflight)[i].1.Seed? &&
        Tracked(n.board.inflight)[i].1.Tile() !in HiveLocations(n.board.hives) &&
        Tracked(n.board.inflight)[i].1.Tile() !in FlowerLocations(n.board.flowers)
  {
    MovesMembership(n, Issue(id, PlantFlower));
  }

  /** While there are at most two hives, a tile is in the hive footprint exactly when, for
      one of them, each coordinate lies in [max(h - 2, 0), min(h + 2, 8)) for the hive's
      coordinate h; with more hives it is exactly a hive tile. */
  lemma HiveFootprintMembership(hs: seq<Hive>, t: Tile)
    ensures |hs| <= 2 ==> (t in HiveFootprint(hs) <==>
      exists i :: 0 <= i < |hs| &&
        Max(hs[i].x - 2, 0) <= t.0 < Min(hs[i].x + 2, FootprintLimit) &&
        Max(hs[i].y - 2, 0) <= t.1 < Min(hs[i].y + 2, FootprintLimit))
    ensures |hs| > 2 ==> (t in HiveFootprint(hs) <==> exists i :: 0 <= i < |hs| && t == HiveTile(hs[i]))
  {
    forall i | 0 <= i < |hs| {
      FootprintAsWrittenMembership(HiveTile(hs[i]), 2, t);
    }
  }

  /** No queen is told to build on a hive's tile, for hives on the 8 x 8 board the
      footprint assumes. */
  lemma NoBuildOnHive(n: Node, id: UnitId)
    requires forall i :: 0 <= i < |n.board.hives| ==>
      0 <= n.board.hives[i].x < FootprintLimit && 0 <= n.board.hives[i].y < FootprintLimit
    requires Issue(id, BuildHive) in Moves(n)
    ensures exists i :: (0 <= i < |Tracked(n.board.inflight)| && Tracked(n.board.inflight)[i].0 == id &&
      Tracked(n.board.inflight)[i].1.QueenBee? &&
      Tracked(n.board.inflight)[i].1.Tile() !in HiveLocations(n.board.hives))
  {
    var hs := n.board.hives;
    var t := Tracked(n.board.inflight);
    MovesMembership(n, Issue(id, BuildHive));
    var i :| 0 <= i < |t| && Offers(PruningOf(n.board), t[i], Issue(id, BuildHive));
    if |hs| <= 2 && t[i].1.Tile() in HiveLocations(hs) {
      var k :| 0 <= k < |hs| && HiveTile(hs[k]) == t[i].1.Tile();
      FootprintAsWrittenCenter(HiveTile(hs[k]), 2);
      assert false;
    }
  }

  /** A candidate move other than None names a unit in flight and gives it an order that
      unit can carry out. */
  lemma MovesNameUnits(n: Node, m: Command)
    requires UniqueIds(n.board.inflight) && m in Moves(n) && m != NoCommand
    ensures m.Issue? && m.entity in Ids(n.board.inflight)
    ensures m.Issue? && m.entity in Ids(n.board.inflight) ==>
      Accepts(n.board.inflight[IndexOfId(n.board.inflight, m.entity)].1, m.order)
  {
    var u := n.board.inflight;
    var t := Tracked(u);
    MovesMembership(n, m);
    var i :| 0 <= i < |t| && Offers(PruningOf(n.board), t[i], m);
    var a :| 0 <= a < |u| && u[a] == t[i];
    assert m.entity in Ids(u);
    assert IndexOfId(u, m.entity) == a;
  }

  /** Every candidate move is one `apply_command` accepts. */
  lemma MovesAccepted(n: Node, m: Command)
    requires UniqueIds(n.board.inflight) && m in Moves(n)
    ensures ApplyCommand(n.world, n.board, m, n.turn).Ok?
  {
    ApplyCommandAccepts(n.world, n.board, m, n.turn);
    if m != NoCommand {
      MovesNameUnits(n, m);
    }
  }

  // ---------------------------------------------------------------------------
  // _graded_nectar_score

  /** The limits and points of a tier list are read pairwise; a points list shorter than the
      limits would raise IndexError. */
  predicate TiersFit(t: Tiers) {
    |t.limits| <= |t.points|
  }

  /** Graded nectar from the tiers at positions x onwards: each tier takes up to its limit
      of what is left, scored at its points. */
  function GradedFrom(limits: seq<int>, points: seq<int>, nectar: int): int
    requires |limits| <= |points|
  {
    if limits == [] then 0
    else points[0] * Min(nectar, limits[0]) + GradedFrom(limits[1..], points[1..], Max(0, nectar - limits[0]))
  }

  function Graded(t: Tiers, nectar: int): int
    requires TiersFit(t)
  {
    GradedFrom(t.limits, t.points, nectar)
  }

  /** `_graded_nectar_score`, with the loop of the source. */
  method GradedNectarScore(t: Tiers, nectar0: int) returns (res: int)
    requires TiersFit(t)
    ensures res == Graded(t, nectar0)
  {
    var limits, points := t.limits, t.points;
    res := 0;
    var nectar := nectar0;
    for x := 0 to |limits|
      invariant res + GradedFrom(limits[x..], points[x..], nectar) == Graded(t, nectar0)
    {
      assert limits[x..][1..] == limits[x + 1..] && points[x..][1..] == points[x + 1..];
      res := res + points[x] * Min(nectar, limits[x]);
      nectar := Max(0, nectar - limits[x]);
    }
  }

  predicate AllNonNegative(xs: seq<int>) {
    forall i :: 0 <= i < |xs| ==> xs[i] >= 0
  }

  /** The most nectar the tiers can score: each tier full. */
  function Capacity(limits: seq<int>, points: seq<int>): int
    requires |limits| <= |points|
  {
    if limits == [] then 0 else points[0] * limits[0] + Capacity(limits[1..], points[1..])
  }

  lemma MulLe(p: int, a: int, b: int)
    requires p >= 0 && a <= b
    ensures p * a <= p * b
  {
  }

  /** Nothing left scores nothing. */
  lemma {:induction false} GradedFromNothing(limits: seq<int>, points: seq<int>)
    requires |limits| <= |points| && AllNonNegative(limits)
    ensures GradedFrom(limits, points, 0) == 0
  {
    if limits != [] {
      assert AllNonNegative(limits[1..]);
      GradedFromNothing(limits[1..], points[1..]);
    }
  }

  /** Within the first tier the score is linear: graded(n) = points[0] * n. */
  lemma GradedFirstTier(t: Tiers, n: int)
    requires TiersFit(t) && |t.limits| >= 1 && AllNonNegative(t.limits)
    requires 0 <= n <= t.limits[0]
    ensures Graded(t, n) == t.points[0] * n
  {
    assert AllNonNegative(t.limits[1..]);
    GradedFromNothing(t.limits[1..], t.points[1..]);
  }

  /** More nectar never scores less, when no tier has negative points or limit. */
  lemma {:induction false} GradedFromMonotone(limits: seq<int>, points: seq<int>, a: int, b: int)
    requires |limits| <= |points| && AllNonNegative(limits) && AllNonNegative(points[..|limits|])
    requires a <= b
    ensures GradedFrom(limits, points, a) <= GradedFrom(limits, points, b)
  {
    if limits != [] {
      assert AllNonNegative(limits[1..]) && points[1..][..|limits[1..]|] == points[..|limits|][1..];
      assert points[0] == points[..|limits|][0];
      MulLe(points[0], Min(a, limits[0]), Min(b, limits[0]));
      GradedFromMonotone(limits[1..], points[1..], Max(0, a - limits[0]), Max(0, b - limits[0]));
    }
  }

  lemma GradedMonotone(t: Tiers, a: int, b: int)
    requires TiersFit(t) && AllNonNegative(t.limits) && AllNonNegative(t.points[..|t.limits|])
    requires a <= b
    ensures Graded(t, a) <= Graded(t, b)
  {
    GradedFromMonotone(t.limits, t.points, a, b);
  }

  /** No amount of nectar scores more than the full tiers. */
  lemma {:induction false} GradedFromBound(limits: seq<int>, points: seq<int>, n: int)
    requires |limits| <= |points| && AllNonNegative(points[..|limits|])
    ensures GradedFrom(limits, points, n) <= Capacity(limits, points)
  {
    if limits != [] {
      assert points[1..][..|limits[1..]|] == points[..|limits|][1..];
      assert points[0] == points[..|limits|][0];
      MulLe(points[0], Min(n, limits[0]), limits[0]);
      GradedFromBound(limits[1..], points[1..], Max(0, n - limits[0]));
    }
  }

  lemma GradedBound(t: Tiers, n: int)
    requires TiersFit(t) && AllNonNegative(t.points[..|t.limits|])
    ensures Graded(t, n) <= Capacity(t.limits, t.points)
  {
    GradedFromBound(t.limits, t.points, n);
  }

  /** The mid-stage tiers of the player's score parameters, [[60, 90, 10], [4, 3, 2]], score
      at most 4 * 60 + 3 * 90 + 2 * 10 = 530 for any hive. */
  lemma MidTiersCapped(n: int)
    ensures Graded(Tiers([60, 90, 10], [4, 3, 2]), n) <= 530
  {
    var t := Tiers([60, 90, 10], [4, 3, 2]);
    assert t.points[..|t.limits|] == [4, 3, 2];
    GradedBound(t, n);
    assert Capacity(t.limits, t.points) == 530 by {
      assert t.limits[1..] == [90, 10] && t.points[1..] == [3, 2];
      assert t.limits[1..][1..] == [10] && t.points[1..][1..] == [2];
    }
  }

  /** The mid-stage tiers in closed form: 4 points for each of the first 60 nectar, 3 for
      each of the next 90 and 2 for each of the next 10. */
  lemma MidTiersClosedForm(n: int)
    ensures Graded(Tiers([60, 90, 10], [4, 3, 2]), n) ==
      4 * Min(n, 60) + 3 * Min(Max(0, n - 60), 90) + 2 * Min(Max(0, n - 150), 10)
  {
    var t := Tiers([60, 90, 10], [4, 3, 2]);
    assert t.limits[1..] == [90, 10] && t.points[1..] == [3, 2];
    assert t.limits[1..][1..] == [10] && t.points[1..][1..] == [2];
    assert t.limits[1..][1..][1..] == [];
    var r1 := Max(0, n - 60);
    var r2 := Max(0, r1 - 90);
    assert r2 == Max(0, n - 150);
    assert GradedFrom([10], [2], r2) == 2 * Min(r2, 10) + GradedFrom([], [], Max(0, r2 - 10));
    assert GradedFrom([90, 10], [3, 2], r1) == 3 * Min(r1, 90) + GradedFrom([10], [2], r2);
  }

  /** Past the first tier, each further unit of nectar in a hive adds less than the 4 points
      of the first 60: 3 up to 150, 2 up to 160 and nothing beyond. */
  lemma MidTiersDiminish(n: int)
    requires n >= 60
    ensures 0 <= Graded(Tiers([60, 90, 10], [4, 3, 2]), n + 1) - Graded(Tiers([60, 90, 10], [4, 3, 2]), n) < 4
    ensures Graded(Tiers([60, 90, 10], [4, 3, 2]), n + 1) - Graded(Tiers([60, 90, 10], [4, 3, 2]), n) ==
      if n < 150 then 3 else if n < 160 then 2 else 0
  {
    MidTiersClosedForm(n);
    MidTiersClosedForm(n + 1);
  }

  // ---------------------------------------------------------------------------
  // early_stage_score, mid_stage_score, score

  /** 25 per seed while there are at most 40 flowers, 2 after. */
  function SeedBonus(flowerCount: int): int {
    if flowerCount <= 40 then 25 else 2
  }

  /** What one unit in flight adds to the early score: 50 for a queen, the seed bonus for a
      seed, its nectar for a worker. */
  function UnitBonus(v: Volant, sb: int): int {
    if v.QueenBee? then 50 else if v.Seed? then sb else v.nectar
  }

  function UnitBonuses(u: Inflight, sb: int): int {
    if u == [] then 0 else UnitBonuses(u[..|u| - 1], sb) + UnitBonus(u[|u| - 1].1, sb)
  }

  /** The part of both stage scores that comes from the lost units, the hives and their nectar. */
  function BoardTerms(sp: ScoreParams, b: Snapshot): int {
    b.deadBees * sp.deadBeeScoreFactor + |b.hives| * sp.hiveScoreFactor + TotalNectar(b.hives) * sp.nectarScoreFactor
  }

  /** `early_stage_score`. */
  function EarlyScore(n: Node): int {
    var sp, b := n.scoreParams, n.board;
    var sb := SeedBonus(|b.flowers|);
    BoardTerms(sp, b) + |b.flowers| * sp.flowerScoreFactor + b.seedsToGen * sb + UnitBonuses(b.inflight, sb)
  }

  /** `early_stage_score`, with the accumulating loop of the source. */
  method EarlyStageScore(n: Node) returns (score: int)
    ensures score == EarlyScore(n)
  {
    var sp, b := n.scoreParams, n.board;
    var turnScore := b.deadBees * sp.deadBeeScoreFactor + |b.hives| * sp.hiveScoreFactor +
      |b.flowers| * sp.flowerScoreFactor + TotalNectar(b.hives) * sp.nectarScoreFactor;
    var seedBonus := if |b.flowers| <= 40 then 25 else 2;
    var additions := b.seedsToGen * seedBonus;
    for i := 0 to |b.inflight|
      invariant additions == b.seedsToGen * seedBonus + UnitBonuses(b.inflight[..i], seedBonus)
    {
      var v := b.inflight[i].1;
      if v.QueenBee? {
        additions := additions + 50;
      } else if v.Seed? {
        additions := additions + seedBonus;
      } else {
        additions := additions + v.nectar;
      }
      assert b.inflight[..i + 1][..i] == b.inflight[..i];
    }
    assert b.inflight[..|b.inflight|] == b.inflight;
    score := turnScore + additions;
  }

  function QueenCount(u: Inflight): nat {
    if u == [] then 0 else QueenCount(u[..|u| - 1]) + if u[|u| - 1].1.QueenBee? then 1 else 0
  }

  function SeedCount(u: Inflight): nat {
    if u == [] then 0 else SeedCount(u[..|u| - 1]) + if u[|u| - 1].1.Seed? then 1 else 0
  }

  /** The nectar carried by workers (queens' nectar is not counted). */
  function CarriedNectar(u: Inflight): int {
    if u == [] then 0 else CarriedNectar(u[..|u| - 1]) + if u[|u| - 1].1.Bee? then u[|u| - 1].1.nectar else 0
  }

  lemma {:induction false} UnitBonusesBreakdown(u: Inflight, sb: int)
    ensures UnitBonuses(u, sb) == 50 * QueenCount(u) + sb * SeedCount(u) + CarriedNectar(u)
  {
    if u != [] {
      UnitBonusesBreakdown(u[..|u| - 1], sb);
    }
  }

  /** The early score is the board terms and the flower factor per flower, plus the seed bonus
      for every seed owed and every seed in flight, 50 per queen, and the workers' nectar. */
  lemma EarlyScoreBreakdown(n: Node)
    ensures var b := n.board;
      var sb := SeedBonus(|b.flowers|);
      EarlyScore(n) == BoardTerms(n.scoreParams, b) + |b.flowers| * n.scoreParams.flowerScoreFactor +
        sb * (b.seedsToGen + SeedCount(b.inflight)) + 50 * QueenCount(b.inflight) + CarriedNectar(b.inflight)
  {
    UnitBonusesBreakdown(n.board.inflight, SeedBonus(|n.board.flowers|));
    var b := n.board;
    var sb := SeedBonus(|b.flowers|);
    assert sb * (b.seedsToGen + SeedCount(b.inflight)) == b.seedsToGen * sb + sb * SeedCount(b.inflight);
  }

  /** `hs'` holds the same hives as `hs` with at least as much nectar in each. */
  predicate MoreNectar(hs: seq<Hive>, hs': seq<Hive>) {
    |hs'| == |hs| && forall i :: 0 <= i < |hs| ==> hs'[i].nectar >= hs[i].nectar
  }

  lemma {:induction false} NectarUpToMonotone(hs: seq<Hive>, hs': seq<Hive>, k: nat)
    requires MoreNectar(hs, hs') && k <= |hs|
    ensures NectarUpTo(hs', k) >= NectarUpTo(hs, k)
  {
    if k > 0 {
      NectarUpToMonotone(hs, hs', k - 1);
    }
  }

  lemma TotalNectarMonotone(hs: seq<Hive>, hs': seq<Hive>)
    requires MoreNectar(hs, hs')
    ensures TotalNectar(hs') >= TotalNectar(hs)
  {
    NectarUpToMonotone(hs, hs', |hs|);
  }

  /** With a non-negative nectar factor, more nectar in the hives never lowers the early score. */
  lemma EarlyScoreNectarMonotone(n: Node, hs': seq<Hive>)
    requires MoreNectar(n.board.hives, hs') && n.scoreParams.nectarScoreFactor >= 0
    ensures EarlyScore(n.(board := n.board.(hives := hs'))) >= EarlyScore(n)
  {
    TotalNectarMonotone(n.board.hives, hs');
    MulLe(n.scoreParams.nectarScoreFactor, TotalNectar(n.board.hives), TotalNectar(hs'));
    assert TotalNectar(n.board.hives) * n.scoreParams.nectarScoreFactor <= TotalNectar(hs') * n.scoreParams.nectarScoreFactor;
  }

  /** The tiers `_graded_nectar_score` reads: those named after the node's stage. */
  function StageTiers(n: Node): Tiers {
    match n.stage
    case Early => n.scoreParams.earlyStageGradedNectar
    case Mid => n.scoreParams.midStageGradedNectar
  }

  function GradedSum(hs: seq<Hive>, t: Tiers): int
    requires TiersFit(t)
  {
    if hs == [] then 0 else GradedSum(hs[..|hs| - 1], t) + Graded(t, hs[|hs| - 1].nectar)
  }

  /** The bonus of one flower in the mid stage: next to a hive, else next to a flower, else
      the plain flower factor. */
  function FlowerBonus(n: Node, f: Flower): int {
    var t := FlowerTile(f);
    if t in n.adjacentToHives then n.scoreParams.flowerAdjacentToHive
    else if t in n.adjacentToFlowers then n.scoreParams.flowerAdjacentToFlower
    else n.scoreParams.flowerScoreFactor
  }

  function FlowerBonuses(n: Node, fs: seq<Flower>): int {
    if fs == [] then 0 else FlowerBonuses(n, fs[..|fs| - 1]) + FlowerBonus(n, fs[|fs| - 1])
  }

  /** `mid_stage_score`. */
  function MidScore(n: Node): int
    requires TiersFit(StageTiers(n))
  {
    BoardTerms(n.scoreParams, n.board) + GradedSum(n.board.hives, StageTiers(n)) + FlowerBonuses(n, n.board.flowers)
  }

  /** `mid_stage_score`, with the source's loop over the flowers; the sum of graded nectar
      runs `_graded_nectar_score` once per hive. */
  method MidStageScore(n: Node) returns (score: int)
    requires TiersFit(StageTiers(n))
    ensures score == MidScore(n)
  {
    var sp, b := n.scoreParams, n.board;
    var graded := 0;
    for i := 0 to |b.hives|
      invariant graded == GradedSum(b.hives[..i], StageTiers(n))
    {
      var g := GradedNectarScore(StageTiers(n), b.hives[i].nectar);
      graded := graded + g;
      assert b.hives[..i + 1][..i] == b.hives[..i];
    }
    assert b.hives[..|b.hives|] == b.hives;
    score := b.deadBees * sp.deadBeeScoreFactor + |b.hives| * sp.hiveScoreFactor +
      TotalNectar(b.hives) * sp.nectarScoreFactor + graded;
    ghost var base := score;
    for i := 0 to |b.flowers|
      invariant score == base + FlowerBonuses(n, b.flowers[..i])
    {
      var t := FlowerTile(b.flowers[i]);
      if t in n.adjacentToHives {
        score := score + sp.flowerAdjacentToHive;
      } else if t in n.adjacentToFlowers {
        score := score + sp.flowerAdjacentToFlower;
      } else {
        score := score + sp.flowerScoreFactor;
      }
      assert b.flowers[..i + 1][..i] == b.flowers[..i];
    }
    assert b.flowers[..|b.flowers|] == b.flowers;
  }

  /** How many flowers earn each bonus: next to a hive, next to a flower only, neither. */
  function CountNearHive(n: Node, fs: seq<Flower>): nat {
    if fs == [] then 0 else CountNearHive(n, fs[..|fs| - 1]) + if FlowerTile(fs[|fs| - 1]) in n.adjacentToHives then 1 else 0
  }

  function CountNearFlowerOnly(n: Node, fs: seq<Flower>): nat {
    if fs == [] then 0
    else
      var t := FlowerTile(fs[|fs| - 1]);
      CountNearFlowerOnly(n, fs[..|fs| - 1]) + if t !in n.adjacentToHives && t in n.adjacentToFlowers then 1 else 0
  }

  function CountPlain(n: Node, fs: seq<Flower>): nat {
    if fs == [] then 0
    else
      var t := FlowerTile(fs[|fs| - 1]);
      CountPlain(n, fs[..|fs| - 1]) + if t !in n.adjacentToHives && t !in n.adjacentToFlowers then 1 else 0
  }

  /** Every flower earns exactly one of the three bonuses, the hive bonus taking priority over
      the flower bonus. */
  lemma {:induction false} FlowerBonusesPartition(n: Node, fs: seq<Flower>)
    ensures CountNearHive(n, fs) + CountNearFlowerOnly(n, fs) + CountPlain(n, fs) == |fs|
    ensures FlowerBonuses(n, fs) ==
      n.scoreParams.flowerAdjacentToHive * CountNearHive(n, fs) +
      n.scoreParams.flowerAdjacentToFlower * CountNearFlowerOnly(n, fs) +
      n.scoreParams.flowerScoreFactor * CountPlain(n, fs)
  {
    if fs != [] {
      var fs', t := fs[..|fs| - 1], FlowerTile(fs[|fs| - 1]);
      var sp := n.scoreParams;
      FlowerBonusesPartition(n, fs');
      var a, b, c := CountNearHive(n, fs'), CountNearFlowerOnly(n, fs'), CountPlain(n, fs');
      if t in n.adjacentToHives {
        ScaleSucc(sp.flowerAdjacentToHive, a);
      } else if t in n.adjacentToFlowers {
        ScaleSucc(sp.flowerAdjacentToFlower, b);
      } else {
        ScaleSucc(sp.flowerScoreFactor, c);
      }
    }
  }

  lemma ScaleSucc(p: int, k: int)
    ensures p * (k + 1) == p * k + p
  {
  }

  /** Every score parameter the node's stage reads is defined. */
  predicate ScoreDefined(n: Node) {
    n.stage.Mid? ==> TiersFit(StageTiers(n))
  }

  /** `score`: the stage's own scoring method. */
  function ScoreOf(n: Node): int
    requires ScoreDefined(n)
  {
    match n.stage
    case Early => EarlyScore(n)
    case Mid => MidScore(n)
  }

  method Score(n: Node) returns (v: int)
    requires ScoreDefined(n)
    ensures v == ScoreOf(n)
  {
    match n.stage
    case Early => v := EarlyStageScore(n);
    case Mid => v := MidStageScore(n);
  }

  // ---------------------------------------------------------------------------
  // coord_to_index, _key

  /** `coord_to_index`: the tiles of the board numbered row by row. */
  function CoordToIndex(width: int, x: int, y: int): int {
    y * width + x
  }

  /** On the board the numbering is a bijection onto 0 .. width * height - 1: the index
      lies in range, and the tile is recovered as (index % width, index / width). */
  lemma CoordToIndexInverse(width: int, height: int, x: int, y: int)
    requires 0 <= x < width && 0 <= y < height
    ensures 0 <= CoordToIndex(width, x, y) < width * height
    ensures CoordToIndex(width, x, y) % width == x && CoordToIndex(width, x, y) / width == y
  {
    var i := CoordToIndex(width, x, y);
    MulLe(width, y, height - 1);
    assert width * (height - 1) == width * height - width;
    DivModUnique(width, i, y, x);
  }

  /** The quotient and remainder of i by w are the only q, r with i = q * w + r, 0 <= r < w. */
  lemma DivModUnique(w: int, i: int, q: int, r: int)
    requires 0 <= r < w && i == q * w + r
    ensures i % w == r && i / w == q
  {
    var q', r' := i / w, i % w;
    assert i == q' * w + r';
    if q' > q {
      MulLe(w, q + 1, q');
    } else if q' < q {
      MulLe(w, q' + 1, q);
    }
  }

  /** Two tiles of the board with the same index are the same tile. */
  lemma CoordToIndexInjective(width: int, height: int, a: Tile, b: Tile)
    requires 0 <= a.0 < width && 0 <= a.1 < height && 0 <= b.0 < width && 0 <= b.1 < height
    requires CoordToIndex(width, a.0, a.1) == CoordToIndex(width, b.0, b.1)
    ensures a == b
  {
    CoordToIndexInverse(width, height, a.0, a.1);
    CoordToIndexInverse(width, height, b.0, b.1);
  }

  /** The strings of the key, as values: "h x y nectar", "f x y visits", "b x y heading
      energy nectar", "s x y heading", and the three counters. */
  datatype Token =
    | HiveToken(x: int, y: int, nectar: int)
    | FlowerToken(x: int, y: int, visits: int)
    | BeeToken(x: int, y: int, heading: int, energy: int, nectar: int)
    | SeedToken(x: int, y: int, heading: int)
    | DeadToken(n: int)
    | TurnToken(n: int)
    | SeedsToken(n: int)

  /** Every hive, flower and unit lies on the node's board, so every index the key computes
      is one of its buckets. */
  predicate OnGrid(n: Node) {
    var w, h, b := n.world.width, n.world.height, n.board;
    (forall i :: 0 <= i < |b.hives| ==> 0 <= b.hives[i].x < w && 0 <= b.hives[i].y < h) &&
    (forall i :: 0 <= i < |b.flowers| ==> 0 <= b.flowers[i].x < w && 0 <= b.flowers[i].y < h) &&
    (forall i :: 0 <= i < |b.inflight| ==> 0 <= b.inflight[i].1.x < w && 0 <= b.inflight[i].1.y < h)
  }

  /** The string `_key` appends for a hive: "h x y nectar". */
  function HiveTok(h: Hive): Option<Token> {
    Some(HiveToken(h.x, h.y, h.nectar))
  }

  /** The string for a flower: "f x y visits" (json[4] is the visit count). */
  function FlowerTok(f: Flower): Option<Token> {
    Some(FlowerToken(f.x, f.y, f.visits))
  }

  /** The string for a unit: "b x y heading energy nectar" for a worker or queen, "s x y
      heading" for a seed. */
  function UnitTok(v: Volant): Token {
    if v.IsBee() then BeeToken(v.x, v.y, v.heading, v.energy, v.nectar) else SeedToken(v.x, v.y, v.heading)
  }

  /** The first loop over `inflight` appends workers and queens only ... */
  function BeeTok(e: Entry): Option<Token> {
    if e.1.IsBee() then Some(UnitTok(e.1)) else None
  }

  /** ... and the second loop seeds only. */
  function SeedTok(e: Entry): Option<Token> {
    if e.1.Seed? then Some(UnitTok(e.1)) else None
  }

  function HiveIndex(w: int): Hive -> int {
    (h: Hive) => CoordToIndex(w, h.x, h.y)
  }

  function FlowerIndex(w: int): Flower -> int {
    (f: Flower) => CoordToIndex(w, f.x, f.y)
  }

  function UnitIndex(w: int): Entry -> int {
    (e: Entry) => CoordToIndex(w, e.1.x, e.1.y)
  }

  /** The strings one of the loops of `_key` appends to bucket p, in list order. */
  function Tokens<T>(items: seq<T>, index: T -> int, token: T -> Option<Token>, p: int): seq<Token> {
    if items == [] then []
    else
      var x := items[|items| - 1];
      Tokens(items[..|items| - 1], index, token, p) + if index(x) == p && token(x).Some? then [token(x).value] else []
  }

  /** Bucket p holds exactly the strings of the items with index p. */
  lemma {:induction false} TokensMembership<T>(items: seq<T>, index: T -> int, token: T -> Option<Token>, p: int, t: Token)
    ensures t in Tokens(items, index, token, p) <==>
      exists i :: 0 <= i < |items| && index(items[i]) == p && token(items[i]) == Some(t)
  {
    if items != [] {
      var pre, last := items[..|items| - 1], |items| - 1;
      TokensMembership(pre, index, token, p, t);
      if t in Tokens(items, index, token, p) && t in Tokens(pre, index, token, p) {
        var i :| 0 <= i < |pre| && index(pre[i]) == p && token(pre[i]) == Some(t);
        assert items[i] == pre[i];
      }
      if exists i :: 0 <= i < |items| && index(items[i]) == p && token(items[i]) == Some(t) {
        var i :| 0 <= i < |items| && index(items[i]) == p && token(items[i]) == Some(t);
        if i < last {
          assert pre[i] == items[i];
        }
      }
    }
  }

  /** Lists whose items agree on index and string give the same bucket. */
  lemma {:induction false} TokensCongruent<T, U>(a: seq<T>, ia: T -> int, ta: T -> Option<Token>,
                                                 b: seq<U>, ib: U -> int, tb: U -> Option<Token>, p: int)
    requires |a| == |b| && forall i :: 0 <= i < |a| ==> ia(a[i]) == ib(b[i]) && ta(a[i]) == tb(b[i])
    ensures Tokens(a, ia, ta, p) == Tokens(b, ib, tb, p)
  {
    if a != [] {
      TokensCongruent(a[..|a| - 1], ia, ta, b[..|b| - 1], ib, tb, p);
    }
  }

  /** When every index is below k, an item's string is in some bucket below k exactly when
      the item has a string. */
  lemma TokensAnyBucket<T>(items: seq<T>, index: T -> int, token: T -> Option<Token>, k: int, t: Token)
    requires forall i :: 0 <= i < |items| ==> 0 <= index(items[i]) < k
    ensures (exists p :: 0 <= p < k && t in Tokens(items, index, token, p)) <==>
      exists i :: 0 <= i < |items| && token(items[i]) == Some(t)
  {
    if exists p :: 0 <= p < k && t in Tokens(items, index, token, p) {
      var p :| 0 <= p < k && t in Tokens(items, index, token, p);
      TokensMembership(items, index, token, p, t);
    }
    if exists i :: 0 <= i < |items| && token(items[i]) == Some(t) {
      var i :| 0 <= i < |items| && token(items[i]) == Some(t);
      TokensMembership(items, index, token, index(items[i]), t);
    }
  }

  /** The bucket of tile index p: its hives, then its flowers, then its workers and queens,
      then its seeds. */
  function Bucket(n: Node, p: int): seq<Token> {
    var w, b := n.world.width, n.board;
    Tokens(b.hives, HiveIndex(w), HiveTok, p) + Tokens(b.flowers, FlowerIndex(w), FlowerTok, p) +
    Tokens(b.inflight, UnitIndex(w), BeeTok, p) + Tokens(b.inflight, UnitIndex(w), SeedTok, p)
  }

  /** The buckets of indices 0 .. k-1, flattened in index order. */
  function Buckets(n: Node, k: nat): seq<Token> {
    if k == 0 then [] else Buckets(n, k - 1) + Bucket(n, k - 1)
  }

  /** `_key`: the buckets of every tile in index order, then the dead, turn and seed counters. */
  function KeyOf(n: Node): seq<Token>
    requires n.world.width >= 0 && n.world.height >= 0
  {
    Buckets(n, n.world.width * n.world.height) + [DeadToken(n.board.deadBees), TurnToken(n.turn), SeedsToken(n.board.seedsToGen)]
  }

  function Flatten(ks: seq<seq<Token>>): seq<Token> {
    if ks == [] then [] else Flatten(ks[..|ks| - 1]) + ks[|ks| - 1]
  }

  lemma {:induction false} BucketsMembership(n: Node, k: nat, t: Token)
    ensures t in Buckets(n, k) <==> exists p :: 0 <= p < k && t in Bucket(n, p)
  {
    if k > 0 {
      BucketsMembership(n, k - 1, t);
    }
  }

  /** A string is in some bucket below k exactly when it is in one of the four loops' part
      of some bucket below k. */
  lemma BucketsKinds(n: Node, k: nat, t: Token)
    ensures var w, b := n.world.width, n.board;
      t in Buckets(n, k) <==>
        (exists p :: 0 <= p < k && t in Tokens(b.hives, HiveIndex(w), HiveTok, p)) ||
        (exists p :: 0 <= p < k && t in Tokens(b.flowers, FlowerIndex(w), FlowerTok, p)) ||
        (exists p :: 0 <= p < k && t in Tokens(b.inflight, UnitIndex(w), BeeTok, p)) ||
        (exists p :: 0 <= p < k && t in Tokens(b.inflight, UnitIndex(w), SeedTok, p))
  {
    var w, b := n.world.width, n.board;
    BucketsMembership(n, k, t);
    if t in Buckets(n, k) {
      var p :| 0 <= p < k && t in Bucket(n, p);
      assert t in Tokens(b.hives, HiveIndex(w), HiveTok, p) || t in Tokens(b.flowers, FlowerIndex(w), FlowerTok, p) ||
        t in Tokens(b.inflight, UnitIndex(w), BeeTok, p) || t in Tokens(b.inflight, UnitIndex(w), SeedTok, p);
    }
  }

  /** A string of a worker's or a seed's loop is the string of some unit, and conversely. */
  lemma UnitsInBuckets(n: Node, k: nat, t: Token)
    requires forall i :: 0 <= i < |n.board.inflight| ==> 0 <= UnitIndex(n.world.width)(n.board.inflight[i]) < k
    ensures var w, u := n.world.width, n.board.inflight;
      ((exists p :: 0 <= p < k && t in Tokens(u, UnitIndex(w), BeeTok, p)) ||
       (exists p :: 0 <= p < k && t in Tokens(u, UnitIndex(w), SeedTok, p))) <==>
      exists i :: 0 <= i < |u| && UnitTok(u[i].1) == t
  {
    var w, u := n.world.width, n.board.inflight;
    TokensAnyBucket(u, UnitIndex(w), BeeTok, k, t);
    TokensAnyBucket(u, UnitIndex(w), SeedTok, k, t);
    if exists i :: 0 <= i < |u| && UnitTok(u[i].1) == t {
      var i :| 0 <= i < |u| && UnitTok(u[i].1) == t;
      assert BeeTok(u[i]) == Some(t) || SeedTok(u[i]) == Some(t);
    }
  }

  /** The key holds exactly the three counters and the string of every hive, flower and
      unit on the board: nothing is lost and nothing is added. */
  lemma KeyMembership(n: Node, t: Token)
    requires OnGrid(n) && n.world.width >= 0 && n.world.height >= 0
    ensures t in KeyOf(n) <==>
      t == DeadToken(n.board.deadBees) || t == TurnToken(n.turn) || t == SeedsToken(n.board.seedsToGen) ||
      (exists i :: 0 <= i < |n.board.hives| && HiveTok(n.board.hives[i]) == Some(t)) ||
      (exists i :: 0 <= i < |n.board.flowers| && FlowerTok(n.board.flowers[i]) == Some(t)) ||
      (exists i :: 0 <= i < |n.board.inflight| && UnitTok(n.board.inflight[i].1) == t)
  {
    var w, b, k := n.world.width, n.board, n.world.width * n.world.height;
    HivesIndexed(n);
    FlowersIndexed(n);
    UnitsIndexed(n);
    BucketsKinds(n, k, t);
    TokensAnyBucket(b.hives, HiveIndex(w), HiveTok, k, t);
    TokensAnyBucket(b.flowers, FlowerIndex(w), FlowerTok, k, t);
    UnitsInBuckets(n, k, t);
  }

  /** The key reads neither unit ids, nor a flower's potency and expiry, nor the game
      parameters a worker carries: nodes that agree on everything else share a key. */
  lemma KeyIgnoresHiddenFields(n1: Node, n2: Node)
    requires n1.world.width == n2.world.width >= 0 && n1.world.height == n2.world.height >= 0
    requires n1.turn == n2.turn && n1.board.hives == n2.board.hives
    requires n1.board.deadBees == n2.board.deadBees && n1.board.seedsToGen == n2.board.seedsToGen
    requires |n1.board.flowers| == |n2.board.flowers|
    requires forall i :: 0 <= i < |n1.board.flowers| ==> FlowerTok(n1.board.flowers[i]) == FlowerTok(n2.board.flowers[i])
    requires |n1.board.inflight| == |n2.board.inflight|
    requires forall i :: 0 <= i < |n1.board.inflight| ==> UnitTok(n1.board.inflight[i].1) == UnitTok(n2.board.inflight[i].1)
    ensures KeyOf(n1) == KeyOf(n2)
  {
    var w, b1, b2 := n1.world.width, n1.board, n2.board;
    forall p | 0 <= p < w * n1.world.height ensures Bucket(n1, p) == Bucket(n2, p) {
      TokensCongruent(b1.flowers, FlowerIndex(w), FlowerTok, b2.flowers, FlowerIndex(w), FlowerTok, p);
      TokensCongruent(b1.inflight, UnitIndex(w), BeeTok, b2.inflight, UnitIndex(w), BeeTok, p);
      TokensCongruent(b1.inflight, UnitIndex(w), SeedTok, b2.inflight, UnitIndex(w), SeedTok, p);
    }
    BucketsCongruent(n1, n2, w * n1.world.height);
  }

  lemma {:induction false} BucketsCongruent(n1: Node, n2: Node, k: nat)
    requires forall p :: 0 <= p < k ==> Bucket(n1, p) == Bucket(n2, p)
    ensures Buckets(n1, k) == Buckets(n2, k)
  {
    if k > 0 {
      BucketsCongruent(n1, n2, k - 1);
    }
  }

  /** Two distinct units that differ only in their ids give the same key: the transposition
      table treats them as one state. */
  lemma KeyIgnoresIds(n: Node, id: UnitId)
    requires n.world.width >= 0 && n.world.height >= 0 && |n.board.inflight| > 0
    ensures var u := n.board.inflight;
      KeyOf(n.(board := n.board.(inflight := u[0 := (id, u[0].1)]))) == KeyOf(n)
  {
    var u := n.board.inflight;
    KeyIgnoresHiddenFields(n.(board := n.board.(inflight := u[0 := (id, u[0].1)])), n);
  }

  /** A loop's bucket over two lists one after the other is the bucket over the first, then
      the bucket over the second. */
  lemma {:induction false} TokensAppend<T>(a: seq<T>, b: seq<T>, index: T -> int, token: T -> Option<Token>, p: int)
    ensures Tokens(a + b, index, token, p) == Tokens(a, index, token, p) + Tokens(b, index, token, p)
  {
    if b != [] {
      var b', x := b[..|b| - 1], b[|b| - 1];
      assert (a + b)[..|a + b| - 1] == a + b' && (a + b)[|a + b| - 1] == x;
      var tx := if index(x) == p && token(x).Some? then [token(x).value] else [];
      assert Tokens(a + b, index, token, p) == Tokens(a + b', index, token, p) + tx;
      assert Tokens(b, index, token, p) == Tokens(b', index, token, p) + tx;
      TokensAppend(a, b', index, token, p);
    } else {
      assert a + b == a;
    }
  }

  /** Items none of which has index p add nothing to bucket p. */
  lemma {:induction false} TokensElsewhere<T>(items: seq<T>, index: T -> int, token: T -> Option<Token>, p: int)
    requires forall k :: 0 <= k < |items| ==> index(items[k]) != p
    ensures Tokens(items, index, token, p) == []
  {
    if items != [] {
      TokensElsewhere(items[..|items| - 1], index, token, p);
    }
  }

  /** Swapping the items at positions i < j leaves every bucket as it was when the two have
      different indices and no item between them shares the index of either: within each
      bucket the order of the strings is kept. */
  lemma TokensSwap<T>(items: seq<T>, index: T -> int, token: T -> Option<Token>, p: int, i: nat, j: nat)
    requires i < j < |items| && index(items[i]) != index(items[j])
    requires forall k :: i < k < j ==> index(items[k]) != index(items[i]) && index(items[k]) != index(items[j])
    ensures Tokens(items[i := items[j]][j := items[i]], index, token, p) == Tokens(items, index, token, p)
  {
    var x, y := items[i], items[j];
    var a, m, b := items[..i], items[i + 1..j], items[j + 1..];
    assert items == a + [x] + m + [y] + b;
    assert items[i := y][j := x] == a + [y] + m + [x] + b;
    TokensSplit(a, x, m, y, b, index, token, p);
    TokensSplit(a, y, m, x, b, index, token, p);
    if index(x) == p || index(y) == p {
      TokensElsewhere(m, index, token, p);
    }
  }

  /** The bucket over a + [x] + m + [y] + b, part by part. */
  lemma TokensSplit<T>(a: seq<T>, x: T, m: seq<T>, y: T, b: seq<T>, index: T -> int, token: T -> Option<Token>, p: int)
    ensures Tokens(a + [x] + m + [y] + b, index, token, p) ==
      Tokens(a, index, token, p) + Tokens([x], index, token, p) + Tokens(m, index, token, p) +
      Tokens([y], index, token, p) + Tokens(b, index, token, p)
  {
    TokensAppend(a + [x] + m + [y], b, index, token, p);
    TokensAppend(a + [x] + m, [y], index, token, p);
    TokensAppend(a + [x], m, index, token, p);
    TokensAppend(a, [x], index, token, p);
  }

  /** The condition of TokensSwap is needed: with a third item on the tile of one of the two,
      swapping reorders that bucket (items 1, 2 and 11 with index x / 10). */
  lemma TokensSwapReorders()
    ensures var items, index, token := [1, 2, 11], (x: int) => x / 10, (x: int) => Some(DeadToken(x));
      Tokens(items, index, token, 0) == [DeadToken(1), DeadToken(2)] &&
      Tokens(items[0 := items[2]][2 := items[0]], index, token, 0) == [DeadToken(2), DeadToken(1)]
  {
    var items, index, token := [1, 2, 11], (x: int) => x / 10, (x: int) => Some(DeadToken(x));
    assert items[..2] == [1, 2] && items[..2][..1] == [1] && [1][..0] == [];
    var swapped := items[0 := items[2]][2 := items[0]];
    assert swapped == [11, 2, 1];
    assert swapped[..2] == [11, 2] && swapped[..2][..1] == [11] && [11][..0] == [];
    assert index(11) == 1 && index(2) == 0 && index(1) == 0;
    assert Tokens([11], index, token, 0) == [];
    assert Tokens([11, 2], index, token, 0) == [DeadToken(2)];
    assert Tokens(swapped, index, token, 0) == [DeadToken(2), DeadToken(1)];
  }

  /** Reordering two units in flight that stand on different tiles, with no unit between them
      on either tile, leaves the key unchanged: the transposition table treats the two
      orders as one state. */
  lemma KeyIgnoresUnitOrder(n: Node, i: nat, j: nat)
    requires OnGrid(n) && n.world.width >= 0 && n.world.height >= 0
    requires i < j < |n.board.inflight|
    requires n.board.inflight[i].1.Tile() != n.board.inflight[j].1.Tile()
    requires forall k :: i < k < j ==>
      n.board.inflight[k].1.Tile() != n.board.inflight[i].1.Tile() &&
      n.board.inflight[k].1.Tile() != n.board.inflight[j].1.Tile()
    ensures var u := n.board.inflight;
      KeyOf(n.(board := n.board.(inflight := u[i := u[j]][j := u[i]]))) == KeyOf(n)
  {
    var w, hh, u := n.world.width, n.world.height, n.board.inflight;
    var n' := n.(board := n.board.(inflight := u[i := u[j]][j := u[i]]));
    var ix := UnitIndex(w);
    forall a, b | 0 <= a < |u| && 0 <= b < |u| && u[a].1.Tile() != u[b].1.Tile()
      ensures ix(u[a]) != ix(u[b])
    {
      if ix(u[a]) == ix(u[b]) {
        CoordToIndexInjective(w, hh, u[a].1.Tile(), u[b].1.Tile());
      }
    }
    forall p | 0 <= p < w * hh ensures Bucket(n', p) == Bucket(n, p) {
      TokensSwap(u, ix, BeeTok, p, i, j);
      TokensSwap(u, ix, SeedTok, p, i, j);
    }
    BucketsCongruent(n', n, w * hh);
  }

  /** When every unit in flight stands on a tile of its own, exchanging any two of them leaves
      the key unchanged. */
  lemma KeyIgnoresOrderOnDistinctTiles(n: Node, i: nat, j: nat)
    requires OnGrid(n) && n.world.width >= 0 && n.world.height >= 0
    requires i < j < |n.board.inflight|
    requires forall a, b :: 0 <= a < b < |n.board.inflight| ==> n.board.inflight[a].1.Tile() != n.board.inflight[b].1.Tile()
    ensures var u := n.board.inflight;
      KeyOf(n.(board := n.board.(inflight := u[i := u[j]][j := u[i]]))) == KeyOf(n)
  {
    KeyIgnoresUnitOrder(n, i, j);
  }

  /** One loop of `_key`: each item's string appended to the bucket of its index. */
  method AddTokens<T>(buckets0: seq<seq<Token>>, items: seq<T>, index: T -> int, token: T -> Option<Token>)
    returns (buckets: seq<seq<Token>>)
    requires forall i :: 0 <= i < |items| ==> 0 <= index(items[i]) < |buckets0|
    ensures |buckets| == |buckets0|
    ensures forall p :: 0 <= p < |buckets0| ==> buckets[p] == buckets0[p] + Tokens(items, index, token, p)
  {
    buckets := buckets0;
    for i := 0 to |items|
      invariant |buckets| == |buckets0|
      invariant forall p :: 0 <= p < |buckets0| ==> buckets[p] == buckets0[p] + Tokens(items[..i], index, token, p)
    {
      var x := items[i];
      assert items[..i + 1][..i] == items[..i] && items[..i + 1][i] == x;
      match token(x) {
        case Some(t) =>
          var q := index(x);
          buckets := buckets[q := buckets[q] + [t]];
        case None =>
      }
    }
    assert items[..|items|] == items;
  }

  lemma {:induction false} FlattenBuckets(n: Node, bs: seq<seq<Token>>, k: nat)
    requires k <= |bs| && forall p :: 0 <= p < k ==> bs[p] == Bucket(n, p)
    ensures Flatten(bs[..k]) == Buckets(n, k)
  {
    if k > 0 {
      assert bs[..k][..k - 1] == bs[..k - 1];
      FlattenBuckets(n, bs, k - 1);
    }
  }

  lemma FlattenTail(a: seq<seq<Token>>, x: seq<Token>, y: seq<Token>, z: seq<Token>)
    ensures Flatten(a + [x, y, z]) == Flatten(a) + x + y + z
  {
    var a1, a2, a3 := a + [x], a + [x, y], a + [x, y, z];
    assert a3[..|a3| - 1] == a2 && a3[|a3| - 1] == z;
    assert a2[..|a2| - 1] == a1 && a2[|a2| - 1] == y;
    assert a1[..|a1| - 1] == a && a1[|a1| - 1] == x;
    assert Flatten(a3) == Flatten(a2) + z;
    assert Flatten(a2) == Flatten(a1) + y;
    assert Flatten(a1) == Flatten(a) + x;
  }

  /** On the grid, every item's index is one of the w * h tile buckets. */
  lemma HivesIndexed(n: Node)
    requires OnGrid(n)
    ensures forall i :: 0 <= i < |n.board.hives| ==>
      0 <= HiveIndex(n.world.width)(n.board.hives[i]) < n.world.width * n.world.height
  {
    var w, h, hs := n.world.width, n.world.height, n.board.hives;
    forall i | 0 <= i < |hs| ensures 0 <= HiveIndex(w)(hs[i]) < w * h {
      CoordToIndexInverse(w, h, hs[i].x, hs[i].y);
    }
  }

  lemma FlowersIndexed(n: Node)
    requires OnGrid(n)
    ensures forall i :: 0 <= i < |n.board.flowers| ==>
      0 <= FlowerIndex(n.world.width)(n.board.flowers[i]) < n.world.width * n.world.height
  {
    var w, h, fs := n.world.width, n.world.height, n.board.flowers;
    forall i | 0 <= i < |fs| ensures 0 <= FlowerIndex(w)(fs[i]) < w * h {
      CoordToIndexInverse(w, h, fs[i].x, fs[i].y);
    }
  }

  lemma UnitsIndexed(n: Node)
    requires OnGrid(n)
    ensures forall i :: 0 <= i < |n.board.inflight| ==>
      0 <= UnitIndex(n.world.width)(n.board.inflight[i]) < n.world.width * n.world.height
  {
    var w, h, u := n.world.width, n.world.height, n.board.inflight;
    forall i | 0 <= i < |u| ensures 0 <= UnitIndex(w)(u[i]) < w * h {
      CoordToIndexInverse(w, h, u[i].1.x, u[i].1.y);
    }
  }

  /** The hive and flower loops of `_key`, from `w * h` empty buckets. */
  method PlacedBuckets(n: Node) returns (buckets: seq<seq<Token>>)
    requires OnGrid(n) && n.world.width >= 0 && n.world.height >= 0
    ensures |buckets| == n.world.width * n.world.height
    ensures forall p :: 0 <= p < |buckets| ==>
      buckets[p] == Tokens(n.board.hives, HiveIndex(n.world.width), HiveTok, p) + Tokens(n.board.flowers, FlowerIndex(n.world.width), FlowerTok, p)
  {
    var w, b := n.world.width, n.board;
    var cells: nat := w * n.world.height;
    HivesIndexed(n);
    FlowersIndexed(n);
    var empty: seq<seq<Token>> := seq(cells, _ => []);
    var b1 := AddTokens(empty, b.hives, HiveIndex(w), HiveTok);
    buckets := AddTokens(b1, b.flowers, FlowerIndex(w), FlowerTok);
    forall p | 0 <= p < cells
      ensures buckets[p] == Tokens(b.hives, HiveIndex(w), HiveTok, p) + Tokens(b.flowers, FlowerIndex(w), FlowerTok, p)
    {
      assert empty[p] == [];
    }
  }

  /** The per-tile loops of `_key`: `w * h` empty buckets filled by the hive, flower,
      worker-and-queen and seed loops in turn. */
  method TileBuckets(n: Node) returns (buckets: seq<seq<Token>>)
    requires OnGrid(n) && n.world.width >= 0 && n.world.height >= 0
    ensures |buckets| == n.world.width * n.world.height
    ensures forall p :: 0 <= p < |buckets| ==> buckets[p] == Bucket(n, p)
  {
    var w, b := n.world.width, n.board;
    UnitsIndexed(n);
    var b2 := PlacedBuckets(n);
    var b3 := AddTokens(b2, b.inflight, UnitIndex(w), BeeTok);
    buckets := AddTokens(b3, b.inflight, UnitIndex(w), SeedTok);
  }

  /** `_key`, with the source's loops: the tile buckets, the three counters, and the
      flattening. */
  method Key(n: Node) returns (key: seq<Token>)
    requires OnGrid(n) && n.world.width >= 0 && n.world.height >= 0
    ensures key == KeyOf(n)
  {
    var buckets := TileBuckets(n);
    var counters := [[DeadToken(n.board.deadBees)], [TurnToken(n.turn)], [SeedsToken(n.board.seedsToGen)]];
    var all := buckets + counters;
    key := [];
    for j := 0 to |all|
      invariant key == Flatten(all[..j])
    {
      assert all[..j + 1][..j] == all[..j] && all[..j + 1][j] == all[j];
      key := key + all[j];
    }
    assert all[..|all|] == all;
    FlattenBuckets(n, buckets, |buckets|);
    assert buckets[..|buckets|] == buckets;
    FlattenTail(buckets, counters[0], counters[1], counters[2]);
  }

  /** A well-formed board is on the grid, so its key is defined. */
  lemma WellFormedOnGrid(n: Node)
    requires WellFormed(n.world, n.board)
    ensures OnGrid(n)
  {
  }

  // ---------------------------------------------------------------------------
  // get_child and gen_child

  /** `gen_child(board_json, game_params, game_stage, ...)`: a node built from a board's JSON,
      with the board size read from the JSON and the rest passed in. None when the lists do
      not decode (the source would fail later, in the child's own `get_child`). */
  function GenChild(j: BoardJson, w: World, turn: int, cmd: Command, sp: ScoreParams, stage: Stage,
                    adjF: set<Tile>, adjH: set<Tile>): (r: Option<Node>)
    ensures r.Some? <==> DecodeBoard(j).Some?
    ensures r.Some? ==> r.value.world.width == j.boardWidth && r.value.world.height == j.boardHeight
  {
    match DecodeBoard(j)
    case None => None
    case Some(s) => Some(Node(w.(width := j.boardWidth, height := j.boardHeight), s, turn, cmd, sp, stage, adjF, adjH))
  }

  /** A node built from the JSON of a board of its own world holds that board. */
  lemma GenChildOfEncoding(w: World, s: Snapshot, turn: int, cmd: Command, sp: ScoreParams, stage: Stage,
                           adjF: set<Tile>, adjH: set<Tile>)
    ensures GenChild(EncodeBoard(w, s), w, turn, cmd, sp, stage, adjF, adjH) == Some(Node(w, s, turn, cmd, sp, stage, adjF, adjH))
  {
    BoardRoundTrip(w, s);
  }

  /** The child `get_child(cmd)` returns, on values: the board after one tick under cmd, the
      next turn number and cmd; everything else is the parent's. An error of the tick is the
      exception the source would raise. */
  function Child(n: Node, cmd: Command): Result<Node, Error> {
    var played := Tick(n.world, n.board, cmd, n.turn);
    if played.Err? then Err(played.error) else Ok(n.(board := played.value, turn := n.turn + 1, cmd := cmd))
  }

  /** The board part of `get_child`: a fresh LiteBoard rebuilt from the node's lists, one
      `make_turn`, and its `to_json` read back. */
  method PlayTurn(n: Node, cmd: Command) returns (r: Result<Snapshot, Error>)
    ensures r == Tick(n.world, n.board, cmd, n.turn)
  {
    var j := EncodeBoard(n.world, n.board);
    BoardRoundTrip(n.world, n.board);
    var s := DecodeBoard(j).value;
    var board := new LiteBoard(n.world, s.hives, s.flowers, s.inflight, s.deadBees, s.seedsToGen);
    var made := board.MakeTurn(cmd, n.turn);
    if made.Err? {
      return Err(made.error);
    }
    var out := board.ToJson();
    r := Ok(DecodeBoard(out).value);
  }

  /** `get_child`: the played board's JSON with turnNum, scoreParams and cmd set, read back by
      `gen_child` with the parent's game parameters, stage and adjacency sets. */
  method GetChild(n: Node, cmd: Command) returns (r: Result<Node, Error>)
    ensures r == Child(n, cmd)
  {
    var played := PlayTurn(n, cmd);
    if played.Err? {
      ChildOfFailedTick(n, cmd, played);
      r := Err(played.error);
    } else {
      ChildOfPlayedTick(n, cmd, played);
      var child := ReadChild(n, cmd, played.value);
      r := Ok(child);
    }
  }

  /** A tick that fails makes the child fail with its error. */
  lemma ChildOfFailedTick(n: Node, cmd: Command, played: Result<Snapshot, Error>)
    requires played == Tick(n.world, n.board, cmd, n.turn) && played.Err?
    ensures Child(n, cmd) == Err(played.error)
  {
  }

  /** A tick that succeeds makes the child the node one turn on, holding the ticked board
      and the move. */
  lemma ChildOfPlayedTick(n: Node, cmd: Command, played: Result<Snapshot, Error>)
    requires played == Tick(n.world, n.board, cmd, n.turn) && played.Ok?
    ensures Child(n, cmd).Ok? && Child(n, cmd).value == n.(board := played.value, turn := n.turn + 1, cmd := cmd)
  {
  }

  /** The end of `get_child`: the played board's JSON, with turnNum, scoreParams and cmd,
      read back by `gen_child`. */
  method ReadChild(n: Node, cmd: Command, s: Snapshot) returns (child: Node)
    ensures child == n.(board := s, turn := n.turn + 1, cmd := cmd)
  {
    var out := EncodeBoard(n.world, s);
    GenChildOfEncoding(n.world, s, n.turn + 1, cmd, n.scoreParams, n.stage, n.adjacentToFlowers, n.adjacentToHives);
    var read := GenChild(out, n.world, n.turn + 1, cmd, n.scoreParams, n.stage, n.adjacentToFlowers, n.adjacentToHives);
    child := read.value;
  }

  /** Every move `potential_moves` offers on a well-formed board can be played: the child
      exists, is well formed and settled, is one turn on, records the move, and keeps the
      world, the score parameters, the stage and the adjacency sets. */
  lemma ChildOfMove(n: Node, m: Command)
    requires WellFormed(n.world, n.board) && m in Moves(n)
    ensures Child(n, m).Ok?
    ensures var c := Child(n, m).value;
      WellFormed(c.world, c.board) && Settled(c.board) && c.turn == n.turn + 1 && c.cmd == m &&
      c.world == n.world && c.scoreParams == n.scoreParams && c.stage == n.stage &&
      c.adjacentToFlowers == n.adjacentToFlowers && c.adjacentToHives == n.adjacentToHives
  {
    MovesAccepted(n, m);
    TickWellFormed(n.world, n.board, m, n.turn);
  }
}
