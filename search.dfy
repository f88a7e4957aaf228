/**
 * algos/matts_algo.py: the score parameters, the root node built from the game's view of
 * the board, the fixed-depth search with its transposition table, and the iterative
 * deepening loop that picks the command to play.
 */
module Search {
  import opened Wrappers
  import opened Hiveminder
  import opened Tiles
  import opened Flowers
  import opened Units
  import opened Simulation
  import opened Board
  import opened Nodes

  /** `MY_SCORE_PARAMS`: the fields the scores read. */
  const MyScoreParams := ScoreParams(60, 55, 50, 200, -3, 2, Tiers([60, 90, 10], [4, 3, 2]), Tiers([100], [2]))

  /** The score no explored branch can fall below: `best_value` and `best_combo` start here. */
  const Floor := -10000

  /** Both stages' tiers of `MY_SCORE_PARAMS` have a point value for every limit, so every
      node built with them has a score; in mid game a hive's graded nectar is worth at most
      530. */
  lemma MyScoreParamsDefined(n: Node)
    requires n.scoreParams == MyScoreParams
    ensures ScoreDefined(n)
    ensures n.stage.Mid? ==> forall nectar :: Graded(StageTiers(n), nectar) <= 530
  {
    forall nectar | n.stage.Mid? ensures Graded(StageTiers(n), nectar) <= 530 {
      MidTiersCapped(nectar);
    }
  }

  // ---------------------------------------------------------------------------
  // The root node

  /** `game_stage`: early while there are at most five hives. */
  function StageOf(hs: seq<Hive>): Stage {
    if |hs| <= 5 then Early else Mid
  }

  /** `hive_footprint` of `matts_algo`: the size-1 footprints (as written) of the hives. */
  function HiveNeighbourhood(hs: seq<Hive>): set<Tile> {
    set i, t | 0 <= i < |hs| && t in FootprintAsWritten(HiveTile(hs[i]), 1) :: t
  }

  /** `flower_footprint` of `matts_algo`: the size-1 footprints (as written) of the flowers. */
  function FlowerNeighbourhood(fs: seq<Flower>): set<Tile> {
    set i, t | 0 <= i < |fs| && t in FootprintAsWritten(FlowerTile(fs[i]), 1) :: t
  }

  /** `adjacent_to_hives`: the tiles around a hive that hold no hive. */
  function AdjacentToHives(hs: seq<Hive>): set<Tile> {
    HiveNeighbourhood(hs) - HiveLocations(hs)
  }

  /** `adjacent_to_flowers`: the tiles around a flower that hold no hive. */
  function AdjacentToFlowers(hs: seq<Hive>, fs: seq<Flower>): set<Tile> {
    FlowerNeighbourhood(fs) - HiveLocations(hs)
  }

  /** A tile is adjacent to the hives exactly when it holds no hive and, for some hive, each
      coordinate lies in [max(h - 1, 0), min(h + 1, 8)) for the hive's coordinate h: the hive's
      own tile and the tiles one step left or up of it; the same for flowers. */
  lemma AdjacencyMembership(hs: seq<Hive>, fs: seq<Flower>, t: Tile)
    ensures t in AdjacentToHives(hs) <==>
      t !in HiveLocations(hs) &&
      exists i :: 0 <= i < |hs| &&
        Max(hs[i].x - 1, 0) <= t.0 < Min(hs[i].x + 1, FootprintLimit) &&
        Max(hs[i].y - 1, 0) <= t.1 < Min(hs[i].y + 1, FootprintLimit)
    ensures t in AdjacentToFlowers(hs, fs) <==>
      t !in HiveLocations(hs) &&
      exists i :: 0 <= i < |fs| &&
        Max(fs[i].x - 1, 0) <= t.0 < Min(fs[i].x + 1, FootprintLimit) &&
        Max(fs[i].y - 1, 0) <= t.1 < Min(fs[i].y + 1, FootprintLimit)
  {
    forall i | 0 <= i < |hs| {
      FootprintAsWrittenMembership(HiveTile(hs[i]), 1, t);
    }
    forall i | 0 <= i < |fs| {
      FootprintAsWrittenMembership(FlowerTile(fs[i]), 1, t);
    }
  }

  /** As written, a tile one step right of a lone hive is not adjacent to it, while the tile
      one step left is (for instance a hive at (3, 3): (2, 3) is adjacent, (4, 3) is not). */
  lemma AdjacencyLopsided(x: int, y: int)
    requires 1 <= x < FootprintLimit - 1 && 0 <= y < FootprintLimit
    ensures (x - 1, y) in AdjacentToHives([Hive(x, y, 0)])
    ensures (x + 1, y) !in AdjacentToHives([Hive(x, y, 0)])
  {
    var hs := [Hive(x, y, 0)];
    AdjacencyMembership(hs, [], (x - 1, y));
    AdjacencyMembership(hs, [], (x + 1, y));
    assert HiveTile(hs[0]) == (x, y);
    assert (x - 1, y) !in HiveLocations(hs);
    assert Max(hs[0].x - 1, 0) <= x - 1 < Min(hs[0].x + 1, FootprintLimit);
    assert Max(hs[0].y - 1, 0) <= y < Min(hs[0].y + 1, FootprintLimit);
  }

  /** The preprocessing step: every worker and queen is given the single default
      GameParameters object the node uses. */
  function Preprocess(u: Inflight, params: GameParams): (r: Inflight)
    ensures |r| == |u|
    ensures forall i :: 0 <= i < |u| ==> r[i].0 == u[i].0 && r[i].1.Tile() == u[i].1.Tile()
    ensures forall i :: 0 <= i < |u| ==> (r[i].1.IsBee() ==> r[i].1.params == params) && UnitTok(r[i].1) == UnitTok(u[i].1)
  {
    seq(|u|, i requires 0 <= i < |u| => if u[i].1.IsBee() then (u[i].0, u[i].1.(params := params)) else u[i])
  }

  /** The node `matts_algo` searches from: no dead bees, no seeds to generate, no command. */
  function RootNode(w: World, hives: seq<Hive>, flowers: seq<Flower>, inflight: Inflight, turn: int): Node {
    Node(w, Snapshot(hives, flowers, Preprocess(inflight, w.params), 0, 0), turn, NoCommand, MyScoreParams,
         StageOf(hives), AdjacentToFlowers(hives, flowers), AdjacentToHives(hives))
  }

  // ---------------------------------------------------------------------------
  // dfs_max_score

  /** A node the search can expand: a well-formed board of a world with a size, and score
      tiers that fit. */
  predicate Searchable(n: Node) {
    WellFormed(n.world, n.board) && ScoreDefined(n) && n.world.width >= 0 && n.world.height >= 0
  }

  /** The root is searchable whenever the board the game passes in is well formed. */
  lemma RootSearchable(w: World, hives: seq<Hive>, flowers: seq<Flower>, inflight: Inflight, turn: int)
    requires WellFormed(w, Snapshot(hives, flowers, inflight, 0, 0)) && w.width >= 0 && w.height >= 0
    ensures Searchable(RootNode(w, hives, flowers, inflight, turn))
  {
    var n := RootNode(w, hives, flowers, inflight, turn);
    var u, r := inflight, n.board.inflight;
    assert forall i, j :: 0 <= i < j < |r| ==> r[i].0 == u[i].0 && r[j].0 == u[j].0;
    MyScoreParamsDefined(n);
  }

  /** Every move offered at a searchable node has a searchable child. */
  lemma ChildSearchable(n: Node, m: Command)
    requires Searchable(n) && m in Moves(n)
    ensures Child(n, m).Ok? && Searchable(Child(n, m).value)
  {
    ChildOfMove(n, m);
  }

  /** What the search needs of a game: which nodes it may expand, the moves offered at a
      node, the child a move leads to, the score of a leaf and the key a node is recorded
      under. The search below is stated for any game; `Lookahead` is the hive game. */
  datatype Game = Game(ok: Node -> bool, moves: Node -> seq<Command>, next: (Node, Command) -> Result<Node, Error>,
                       score: Node --> int, key: Node --> seq<Token>)

  /** Expanding a node the search may expand gives, for every offered move, a child it may
      expand again, and every such node has a score and a key. */
  ghost predicate Sound(g: Game) {
    (forall n :: g.ok(n) ==> g.score.requires(n) && g.key.requires(n)) &&
    (forall n, m {:trigger g.next(n, m)} :: g.ok(n) && m in g.moves(n) ==> g.next(n, m).Ok? && g.ok(g.next(n, m).value))
  }

  /** The hive game: searchable nodes, `potential_moves`, `get_child`, `score` and `_key`. */
  const Lookahead := Game(Searchable, Moves, Child, ScoreOf, KeyOf)

  lemma LookaheadSound()
    ensures Sound(Lookahead)
  {
    forall n | Searchable(n) ensures ScoreDefined(n) && n.world.width >= 0 && n.world.height >= 0 {
    }
    forall n, m | Searchable(n) && m in Moves(n) ensures Child(n, m).Ok? && Searchable(Child(n, m).value) {
      ChildSearchable(n, m);
    }
  }

  /** The i-th entry of `node.children`: the child of the i-th potential move. */
  function ChildAt(g: Game, n: Node, i: nat): (c: Node)
    requires Sound(g) && g.ok(n) && i < |g.moves(n)|
    ensures g.ok(c)
  {
    g.next(n, g.moves(n)[i]).value
  }

  /** The reference the search approximates: the best score reachable in `depth` turns, with
      no table (`Floor` when no branch does better). */
  function MaxScore(g: Game, n: Node, depth: nat): int
    requires Sound(g) && g.ok(n)
    decreases depth, 1
  {
    if depth == 0 then g.score(n) else MaxChildren(g, n, 0, depth - 1, Floor)
  }

  /** The best of `best` and the `d`-turn scores of children i onwards. */
  function MaxChildren(g: Game, n: Node, i: nat, d: nat, best: int): int
    requires Sound(g) && g.ok(n) && i <= |g.moves(n)|
    decreases d + 1, 0, |g.moves(n)| - i
  {
    if i == |g.moves(n)| then best else MaxChildren(g, n, i + 1, d, Max(best, MaxScore(g, ChildAt(g, n, i), d)))
  }

  /** The reference is the maximum of its children: no child does better, and unless every
      child is at or below `best` one child attains it. */
  lemma {:induction false} MaxChildrenIsMax(g: Game, n: Node, i: nat, d: nat, best: int)
    requires Sound(g) && g.ok(n) && i <= |g.moves(n)|
    ensures MaxChildren(g, n, i, d, best) >= best
    ensures forall j :: i <= j < |g.moves(n)| ==> MaxChildren(g, n, i, d, best) >= MaxScore(g, ChildAt(g, n, j), d)
    ensures MaxChildren(g, n, i, d, best) == best ||
      exists j :: i <= j < |g.moves(n)| && MaxChildren(g, n, i, d, best) == MaxScore(g, ChildAt(g, n, j), d)
    decreases |g.moves(n)| - i
  {
    if i < |g.moves(n)| {
      MaxChildrenIsMax(g, n, i + 1, d, Max(best, MaxScore(g, ChildAt(g, n, i), d)));
    }
  }

  /** `hash_table[key]`: the command, the depth searched and the best score found. */
  datatype Record = Record(cmd: Command, depth: int, score: int)

  /** The table, keyed by the node's key (the source keys it by the key's hash). */
  type Table = map<seq<Token>, Record>

  /** `dfs_max_score(node, depth, hash_table)` on values: the score and the table after the
      call. At depth 0 the node's own score; a record of the node's key at this depth or
      deeper answers at once; otherwise the children are searched in order, each with the
      table the previous one left, and the best is recorded at this depth. */
  function Dfs(g: Game, n: Node, depth: nat, t: Table): (int, Table)
    requires Sound(g) && g.ok(n)
    decreases depth, 1
  {
    if depth == 0 then (g.score(n), t)
    else
      var key := g.key(n);
      if key in t && t[key].depth >= depth then (t[key].score, t)
      else
        var (best, t') := DfsChildren(g, n, 0, depth - 1, Floor, t);
        (best, t'[key := Record(n.cmd, depth, best)])
  }

  /** The loop over `node.children` from child i on, with the best so far and the table. */
  function DfsChildren(g: Game, n: Node, i: nat, d: nat, best: int, t: Table): (int, Table)
    requires Sound(g) && g.ok(n) && i <= |g.moves(n)|
    decreases d + 1, 0, |g.moves(n)| - i
  {
    if i == |g.moves(n)| then (best, t)
    else
      var (v, t') := Dfs(g, ChildAt(g, n, i), d, t);
      DfsChildren(g, n, i + 1, d, Max(best, v), t')
  }

  /** No record is lost and no recorded depth goes down. */
  predicate Grows(t: Table, t': Table) {
    forall k :: k in t ==> k in t' && t'[k].depth >= t[k].depth
  }

  predicate AboveFloor(t: Table) {
    forall k :: k in t ==> t[k].score >= Floor
  }

  /** What a search does to the table: it only adds records or deepens them, keeps every
      score at or above `Floor`, and leaves the node's key recorded at the depth searched or
      deeper with the score it returns. */
  lemma {:induction false} DfsTable(g: Game, n: Node, depth: nat, t: Table)
    requires Sound(g) && g.ok(n)
    ensures Grows(t, Dfs(g, n, depth, t).1)
    ensures AboveFloor(t) ==> AboveFloor(Dfs(g, n, depth, t).1)
    ensures depth > 0 ==>
      g.key(n) in Dfs(g, n, depth, t).1 && Dfs(g, n, depth, t).1[g.key(n)].depth >= depth &&
      Dfs(g, n, depth, t).1[g.key(n)].score == Dfs(g, n, depth, t).0
    ensures depth > 0 && AboveFloor(t) ==> Dfs(g, n, depth, t).0 >= Floor
    decreases depth, 1
  {
    if depth > 0 {
      var key := g.key(n);
      if !(key in t && t[key].depth >= depth) {
        DfsChildrenTable(g, n, 0, depth - 1, Floor, t);
      }
    }
  }

  lemma {:induction false} DfsChildrenTable(g: Game, n: Node, i: nat, d: nat, best: int, t: Table)
    requires Sound(g) && g.ok(n) && i <= |g.moves(n)|
    ensures Grows(t, DfsChildren(g, n, i, d, best, t).1)
    ensures AboveFloor(t) ==> AboveFloor(DfsChildren(g, n, i, d, best, t).1)
    ensures DfsChildren(g, n, i, d, best, t).0 >= best
    decreases d + 1, 0, |g.moves(n)| - i
  {
    if i < |g.moves(n)| {
      var c := ChildAt(g, n, i);
      var (v, t') := Dfs(g, c, d, t);
      DfsTable(g, c, d, t);
      DfsChildrenTable(g, n, i + 1, d, Max(best, v), t');
    }
  }

  /** Searching a state again, or any state with the same key, no deeper than before answers
      from the table: the same score, and the table untouched. */
  lemma DfsRepeat(g: Game, n: Node, m: Node, depth: nat, depth': nat, t: Table)
    requires Sound(g) && g.ok(n) && g.ok(m) && g.key(m) == g.key(n) && 0 < depth' <= depth
    ensures Dfs(g, m, depth', Dfs(g, n, depth, t).1) == Dfs(g, n, depth, t)
  {
    DfsTable(g, n, depth, t);
  }

  /** With the children searched at depth 0 the table plays no part: each child gives its
      own score. */
  lemma {:induction false} DfsChildrenShallow(g: Game, n: Node, i: nat, best: int, t: Table)
    requires Sound(g) && g.ok(n) && i <= |g.moves(n)|
    ensures DfsChildren(g, n, i, 0, best, t) == (MaxChildren(g, n, i, 0, best), t)
    decreases |g.moves(n)| - i
  {
    if i < |g.moves(n)| {
      DfsChildrenShallow(g, n, i + 1, Max(best, g.score(ChildAt(g, n, i))), t);
    }
  }

  /** A one-turn search whose key is not yet recorded at depth 1 or deeper returns the best
      child score, as the reference does. */
  lemma DfsOneTurn(g: Game, n: Node, t: Table)
    requires Sound(g) && g.ok(n) && !(g.key(n) in t && t[g.key(n)].depth >= 1)
    ensures Dfs(g, n, 1, t).0 == MaxScore(g, n, 1)
  {
    DfsChildrenShallow(g, n, 0, Floor, t);
  }

  /** `hash_table`: one dictionary shared by every call of one move choice. */
  class TranspositionTable {
    var entries: Table

    constructor ()
      ensures entries == map[]
    {
      entries := map[];
    }
  }

  /** The game the methods below play is the hive game: its functions are the ones the
      node methods compute. (Each part is stated from the hive game's side, so that it is
      used only where that side is mentioned.) */
  ghost predicate Agrees(g: Game) {
    (forall n: Node {:trigger Searchable(n)} :: g.ok(n) == Searchable(n)) &&
    (forall n: Node {:trigger Moves(n)} :: g.moves(n) == Moves(n)) &&
    (forall n: Node {:trigger ScoreOf(n)} :: ScoreDefined(n) ==> g.score.requires(n) && g.score(n) == ScoreOf(n)) &&
    (forall n: Node {:trigger KeyOf(n)} :: n.world.width >= 0 && n.world.height >= 0 ==> g.key.requires(n) && g.key(n) == KeyOf(n)) &&
    (forall n: Node, m: Command {:trigger Child(n, m)} :: g.next(n, m) == Child(n, m))
  }

  lemma LookaheadAgrees()
    ensures Sound(Lookahead) && Agrees(Lookahead)
  {
    LookaheadSound();
  }

  /** `node.potential_moves`, in the game's terms. */
  method GameMoves(g: Game, n: Node) returns (moves: seq<Command>)
    requires Agrees(g)
    ensures moves == g.moves(n) && |moves| >= 1 && moves[0] == NoCommand
  {
    moves := PotentialMoves(n);
  }

  /** `node.get_child(moves[i])`, in the game's terms. */
  method NextChild(g: Game, n: Node, moves: seq<Command>, i: nat) returns (c: Node)
    requires Sound(g) && Agrees(g) && g.ok(n) && moves == g.moves(n) && i < |moves|
    ensures c == ChildAt(g, n, i)
  {
    assert moves == Moves(n);
    var r := GetChild(n, moves[i]);
    c := r.value;
  }

  /** `node.children`: the child of every potential move, in order. */
  method Children(g: Game, n: Node) returns (cs: seq<Node>)
    requires Sound(g) && Agrees(g) && g.ok(n)
    ensures |cs| == |g.moves(n)| && forall i :: 0 <= i < |cs| ==> cs[i] == ChildAt(g, n, i)
  {
    var moves := GameMoves(g, n);
    cs := [];
    for i := 0 to |moves|
      invariant |cs| == i && forall j :: 0 <= j < i ==> cs[j] == ChildAt(g, n, j)
    {
      var c := NextChild(g, n, moves, i);
      cs := cs + [c];
    }
  }

  /** `node.score`, in the game's terms. */
  method LeafScore(g: Game, n: Node) returns (v: int)
    requires Sound(g) && Agrees(g) && g.ok(n)
    ensures v == g.score(n)
  {
    assert Searchable(n);
    v := Score(n);
  }

  /** `node._key`, in the game's terms. */
  method NodeKey(g: Game, n: Node) returns (key: seq<Token>)
    requires Sound(g) && Agrees(g) && g.ok(n)
    ensures key == g.key(n)
  {
    assert Searchable(n);
    WellFormedOnGrid(n);
    key := Key(n);
  }

  /** `dfs_max_score`, recursive as in the source, updating the shared table in place. */
  method DfsMaxScore(g: Game, n: Node, depth: nat, table: TranspositionTable) returns (v: int)
    requires Sound(g) && Agrees(g) && g.ok(n)
    modifies table
    ensures (v, table.entries) == Dfs(g, n, depth, old(table.entries))
    decreases depth, 1
  {
    if depth == 0 {
      v := LeafScore(g, n);
      return;
    }
    var key := NodeKey(g, n);
    if key in table.entries && table.entries[key].depth >= depth {
      v := table.entries[key].score;
    } else {
      v := SearchChildren(g, n, depth - 1, table);
      table.entries := table.entries[key := Record(n.cmd, depth, v)];
    }
  }

  /** The loop of `dfs_max_score` over `node.children`: the best of their scores one level
      shallower, each searched with the table the previous one left. */
  method SearchChildren(g: Game, n: Node, d: nat, table: TranspositionTable) returns (best: int)
    requires Sound(g) && Agrees(g) && g.ok(n)
    modifies table
    ensures (best, table.entries) == DfsChildren(g, n, 0, d, Floor, old(table.entries))
    decreases d + 1, 0
  {
    var children := Children(g, n);
    best := Floor;
    for i := 0 to |children|
      invariant DfsChildren(g, n, i, d, best, table.entries) == DfsChildren(g, n, 0, d, Floor, old(table.entries))
    {
      var w := DfsMaxScore(g, children[i], d, table);
      best := Max(best, w);
    }
  }

  // ---------------------------------------------------------------------------
  // matts_algo

  /** What `matts_algo` returns: a command (None included), or the placeholder string
      `best_combo` starts with when no branch scored above `Floor`. */
  datatype Answer = Play(cmd: Command) | Placeholder

  /** `best_combo` after a run of evaluations: a later value replaces the best only when it
      is strictly greater (`max` keeps the first of equal keys). */
  function BestOf(evals: seq<(int, Command)>): (int, Answer) {
    if evals == [] then (Floor, Placeholder)
    else
      var (s, a) := BestOf(evals[..|evals| - 1]);
      var (v, m) := evals[|evals| - 1];
      if v > s then (v, Play(m)) else (s, a)
  }

  /** `best_combo` is the first evaluation of greatest value above `Floor`, or the
      placeholder when none is above `Floor`. */
  lemma {:induction false} BestOfIsFirstMax(evals: seq<(int, Command)>)
    ensures BestOf(evals).1.Placeholder? <==> forall k :: 0 <= k < |evals| ==> evals[k].0 <= Floor
    ensures BestOf(evals).1.Placeholder? ==> BestOf(evals).0 == Floor
    ensures BestOf(evals).1.Play? ==>
      exists k :: (0 <= k < |evals| &&
        evals[k] == (BestOf(evals).0, BestOf(evals).1.cmd) && Floor < evals[k].0 &&
        forall j :: 0 <= j < k ==> evals[j].0 < evals[k].0)
    ensures forall k :: 0 <= k < |evals| ==> evals[k].0 <= BestOf(evals).0
  {
    if evals != [] {
      var pre := evals[..|evals| - 1];
      BestOfIsFirstMax(pre);
      assert forall k :: 0 <= k < |pre| ==> pre[k] == evals[k];
      var (s, a) := BestOf(pre);
      var (v, m) := evals[|evals| - 1];
      if v > s {
        forall j | 0 <= j < |evals| - 1 ensures evals[j].0 < v {
          assert evals[j] == pre[j];
        }
      } else if a.Play? {
        var k :| 0 <= k < |pre| && pre[k] == (s, a.cmd) && Floor < pre[k].0 &&
          forall j :: 0 <= j < k ==> pre[j].0 < pre[k].0;
        assert evals[k] == pre[k];
      }
    }
  }

  /** The first `n` evaluations of the round at `depth`, from table `t`: the i-th is the
      score of the search of the i-th child at depth - 1, with the i-th move, each search
      made with the table the previous one left; and the table after them. */
  function RoundUpTo(g: Game, root: Node, n: nat, depth: nat, t: Table): (seq<(int, Command)>, Table)
    requires Sound(g) && g.ok(root) && n <= |g.moves(root)| && depth >= 1
  {
    if n == 0 then ([], t)
    else
      var (es, t1) := RoundUpTo(g, root, n - 1, depth, t);
      var (v, t2) := Dfs(g, ChildAt(g, root, n - 1), depth - 1, t1);
      (es + [(v, g.moves(root)[n - 1])], t2)
  }

  /** Every evaluation of the rounds at depths 1 to `depth`, each made in full, depth by depth
      and move by move, all sharing one table that starts empty; and that table afterwards.
      This is the order in which `matts_algo` evaluates when no time test fires. */
  function Rounds(g: Game, root: Node, depth: nat): (seq<(int, Command)>, Table)
    requires Sound(g) && g.ok(root)
  {
    if depth == 0 then ([], map[])
    else
      var (es, t) := Rounds(g, root, depth - 1);
      var (r, t') := RoundUpTo(g, root, |g.moves(root)|, depth, t);
      (es + r, t')
  }

  /** The first j with i <= j < n for which `stopAfterEval(depth, j)` holds, or n. */
  function FirstStop(stopAfterEval: (int, int) -> bool, depth: int, i: nat, n: nat): (k: nat)
    requires i <= n
    ensures i <= k <= n && (k < n ==> stopAfterEval(depth, k))
    ensures forall j :: i <= j < k ==> !stopAfterEval(depth, j)
    decreases n - i
  {
    if i == n then n else if stopAfterEval(depth, i) then i else FirstStop(stopAfterEval, depth, i + 1, n)
  }

  /** The evaluations `matts_algo` makes when it reaches the round at `depth` with every
      earlier round made in full: that round stops right after the first evaluation for
      which `stopAfterEval` holds; a round made in full ends the search when
      `stopAfterDepth` holds or it was the round at depth 19, and otherwise the next round
      follows. */
  function Schedule(g: Game, root: Node, stopAfterEval: (int, int) -> bool, stopAfterDepth: int -> bool, depth: nat)
    : seq<(int, Command)>
    requires Sound(g) && g.ok(root) && 1 <= depth <= 20
    decreases 20 - depth
  {
    if depth == 20 then Rounds(g, root, 19).0
    else
      var n := |g.moves(root)|;
      var k := FirstStop(stopAfterEval, depth, 0, n);
      if k < n then Rounds(g, root, depth - 1).0 + RoundUpTo(g, root, k + 1, depth, Rounds(g, root, depth - 1).1).0
      else if stopAfterDepth(depth) then Rounds(g, root, depth).0
      else Schedule(g, root, stopAfterEval, stopAfterDepth, depth + 1)
  }

  /** A round makes one evaluation per child, and a round cut short is a prefix of the same
      round made in full. */
  lemma {:induction false} RoundUpToPrefix(g: Game, root: Node, k: nat, n: nat, depth: nat, t: Table)
    requires Sound(g) && g.ok(root) && k <= n <= |g.moves(root)| && depth >= 1
    ensures |RoundUpTo(g, root, n, depth, t).0| == n
    ensures RoundUpTo(g, root, k, depth, t).0 <= RoundUpTo(g, root, n, depth, t).0
    decreases n
  {
    if n > 0 {
      RoundUpToPrefix(g, root, if k < n then k else n - 1, n - 1, depth, t);
    }
  }

  /** The full rounds up to one depth are a prefix of the full rounds up to a greater one. */
  lemma {:induction false} RoundsPrefix(g: Game, root: Node, d: nat, e: nat)
    requires Sound(g) && g.ok(root) && d <= e
    ensures Rounds(g, root, d).0 <= Rounds(g, root, e).0
    decreases e
  {
    if d < e {
      RoundsPrefix(g, root, d, e - 1);
      var (es, t) := Rounds(g, root, e - 1);
      var r := RoundUpTo(g, root, |g.moves(root)|, e, t).0;
      assert Rounds(g, root, e).0 == es + r;
      assert es <= es + r;
    }
  }

  /** What the search evaluates from the round at `depth` on is a prefix of the full rounds
      up to depth 19 that extends the rounds before `depth`, by at least one evaluation when
      there is a move. */
  lemma {:induction false} SchedulePrefix(g: Game, root: Node, stopAfterEval: (int, int) -> bool,
                                          stopAfterDepth: int -> bool, depth: nat)
    requires Sound(g) && g.ok(root) && 1 <= depth <= 19
    ensures Rounds(g, root, depth - 1).0 <= Schedule(g, root, stopAfterEval, stopAfterDepth, depth)
    ensures Schedule(g, root, stopAfterEval, stopAfterDepth, depth) <= Rounds(g, root, 19).0
    ensures |g.moves(root)| >= 1 ==>
      |Schedule(g, root, stopAfterEval, stopAfterDepth, depth)| > |Rounds(g, root, depth - 1).0|
    decreases 20 - depth
  {
    var n := |g.moves(root)|;
    var k := FirstStop(stopAfterEval, depth, 0, n);
    var (es, t) := Rounds(g, root, depth - 1);
    var sched := Schedule(g, root, stopAfterEval, stopAfterDepth, depth);
    var full := RoundUpTo(g, root, n, depth, t).0;
    assert Rounds(g, root, depth).0 == es + full;
    RoundUpToPrefix(g, root, n, n, depth, t);
    RoundsPrefix(g, root, depth, 19);
    if k < n {
      var part := RoundUpTo(g, root, k + 1, depth, t).0;
      RoundUpToPrefix(g, root, k + 1, n, depth, t);
      assert sched == es + part;
      assert es + part <= es + full;
    } else if stopAfterDepth(depth) || depth == 19 {
      assert sched == es + full;
    } else {
      SchedulePrefix(g, root, stopAfterEval, stopAfterDepth, depth + 1);
      assert es <= es + full;
    }
  }

  /** When no test after an evaluation fires from the round at `depth` on, the search makes
      whole rounds; when no test after a round fires either, it makes every round up to
      depth 19. */
  lemma {:induction false} ScheduleWhole(g: Game, root: Node, stopAfterEval: (int, int) -> bool,
                                         stopAfterDepth: int -> bool, depth: nat)
    requires Sound(g) && g.ok(root) && 1 <= depth <= 19
    requires forall d, j :: depth <= d < 20 && 0 <= j < |g.moves(root)| ==> !stopAfterEval(d, j)
    ensures exists e :: depth <= e <= 19 && Schedule(g, root, stopAfterEval, stopAfterDepth, depth) == Rounds(g, root, e).0
    ensures (forall d :: depth <= d < 19 ==> !stopAfterDepth(d)) ==>
      Schedule(g, root, stopAfterEval, stopAfterDepth, depth) == Rounds(g, root, 19).0
    decreases 20 - depth
  {
    var n := |g.moves(root)|;
    FirstStopAt(stopAfterEval, depth, n, n);
    if stopAfterDepth(depth) || depth == 19 {
      assert Schedule(g, root, stopAfterEval, stopAfterDepth, depth) == Rounds(g, root, depth).0;
    } else {
      ScheduleWhole(g, root, stopAfterEval, stopAfterDepth, depth + 1);
    }
  }

  /** What the evaluations made so far satisfy: each is of a move offered at the root, and
      those of the first round score each child in turn. */
  ghost predicate Evaluated(g: Game, root: Node, evals: seq<(int, Command)>)
    requires Sound(g) && g.ok(root)
  {
    (forall k :: 0 <= k < |evals| ==> evals[k].1 in g.moves(root)) &&
    forall k :: 0 <= k < |evals| && k < |g.moves(root)| ==> evals[k] == (g.score(ChildAt(g, root, k)), g.moves(root)[k])
  }

  /** Recording the search of the i-th child keeps `Evaluated`: in the first round, where
      the search is at depth 0, the value is that child's score. */
  lemma EvaluatedSnoc(g: Game, root: Node, evals: seq<(int, Command)>, i: nat, d: nat, t: Table, v: int, t': Table)
    requires Sound(g) && g.ok(root) && Evaluated(g, root, evals) && i < |g.moves(root)|
    requires (v, t') == Dfs(g, ChildAt(g, root, i), d, t)
    requires d == 0 ==> |evals| == i
    requires d > 0 ==> |evals| >= |g.moves(root)|
    ensures Evaluated(g, root, evals + [(v, g.moves(root)[i])])
  {
    var e := evals + [(v, g.moves(root)[i])];
    forall k | 0 <= k < |e| ensures e[k].1 in g.moves(root) {
      if k < |evals| {
        assert e[k] == evals[k];
      }
    }
    forall k | 0 <= k < |e| && k < |g.moves(root)| ensures e[k] == (g.score(ChildAt(g, root, k)), g.moves(root)[k]) {
      if k < |evals| {
        assert e[k] == evals[k];
      }
    }
  }

  /** One pass of the round's loop: the i-th child searched at depth - 1, its value recorded,
      and the best replaced when the value is strictly greater. */
  method EvaluateMove(g: Game, root: Node, moves: seq<Command>, i: nat, depth: nat, table: TranspositionTable,
                      bestScore0: int, best0: Answer, ghost evals0: seq<(int, Command)>)
    returns (bestScore: int, best: Answer, ghost evals: seq<(int, Command)>)
    requires Sound(g) && Agrees(g) && g.ok(root) && moves == g.moves(root) && i < |moves| && depth >= 1
    requires (bestScore0, best0) == BestOf(evals0) && Evaluated(g, root, evals0)
    requires depth == 1 ==> |evals0| == i
    requires depth > 1 ==> |evals0| >= |moves|
    modifies table
    ensures (bestScore, best) == BestOf(evals) && Evaluated(g, root, evals)
    ensures |evals| == |evals0| + 1 && evals[..|evals0|] == evals0
    ensures evals == evals0 + [(Dfs(g, ChildAt(g, root, i), depth - 1, old(table.entries)).0, moves[i])]
    ensures table.entries == Dfs(g, ChildAt(g, root, i), depth - 1, old(table.entries)).1
  {
    var child := NextChild(g, root, moves, i);
    ghost var t := table.entries;
    var v := DfsMaxScore(g, child, depth - 1, table);
    EvaluatedSnoc(g, root, evals0, i, depth - 1, t, v, table.entries);
    evals := evals0 + [(v, moves[i])];
    bestScore, best := bestScore0, best0;
    if v > bestScore {
      bestScore, best := v, Play(moves[i]);
    }
  }

  /** One round of the deepening at `depth`: each potential move in turn is scored by a
      search of its child at depth - 1 and compared with the best so far; `stop` is set,
      and the round cut short, as soon as `stopAfterEval(depth, i)` holds. */
  method Round(g: Game, root: Node, moves: seq<Command>, depth: nat, table: TranspositionTable,
               stopAfterEval: (int, int) -> bool, bestScore0: int, best0: Answer, ghost evals0: seq<(int, Command)>)
    returns (bestScore: int, best: Answer, ghost evals: seq<(int, Command)>, stop: bool)
    requires Sound(g) && Agrees(g) && g.ok(root) && moves == g.moves(root) && |moves| >= 1 && depth >= 1
    requires (bestScore0, best0) == BestOf(evals0) && Evaluated(g, root, evals0)
    requires depth == 1 ==> evals0 == []
    requires depth > 1 ==> |evals0| >= |moves|
    modifies table
    ensures (bestScore, best) == BestOf(evals) && Evaluated(g, root, evals)
    ensures |evals| > |evals0| && evals[..|evals0|] == evals0
    ensures !stop ==> |evals| >= |moves|
    ensures RoundMade(g, root, stopAfterEval, depth, old(table.entries), evals0, stop, evals, table.entries)
  {
    bestScore, best, evals, stop := bestScore0, best0, evals0, false;
    ghost var t0 := table.entries;
    RoundAtStart(g, root, stopAfterEval, depth, t0, evals0, bestScore, best);
    var i := 0;
    while i < |moves| && !stop
      invariant i <= |moves|
      invariant RoundAt(g, root, stopAfterEval, depth, t0, evals0, i, stop, evals, table.entries, bestScore, best)
    {
      ghost var before, t1, bestScore1, best1 := evals, table.entries, bestScore, best;
      RoundAtNext(g, root, stopAfterEval, depth, t0, evals0, i, evals, t1, bestScore, best);
      bestScore, best, evals := EvaluateMove(g, root, moves, i, depth, table, bestScore, best, evals);
      stop := stopAfterEval(depth, i);
      RoundAtStep(g, root, stopAfterEval, depth, t0, evals0, i, before, t1, bestScore1, best1,
                  evals, table.entries, bestScore, best, stop);
      i := i + 1;
    }
    RoundAtEnd(g, root, stopAfterEval, depth, t0, evals0, i, stop, evals, table.entries, bestScore, best);
  }

  /** Where a round stands after its first i evaluations: the best so far is that of all
      evaluations, the evaluations and the table are those of the round up to i, and `stop`
      tells whether the test after the last of them fired (none before it did). */
  ghost predicate RoundAt(g: Game, root: Node, stopAfterEval: (int, int) -> bool, depth: nat, t0: Table,
                          evals0: seq<(int, Command)>, i: nat, stop: bool, evals: seq<(int, Command)>, t: Table,
                          bestScore: int, best: Answer)
    requires Sound(g) && g.ok(root) && depth >= 1
  {
    i <= |g.moves(root)| &&
    (bestScore, best) == BestOf(evals) &&
    (var r := RoundUpTo(g, root, i, depth, t0); (evals, t) == (evals0 + r.0, r.1)) &&
    (stop ==> i >= 1 && stopAfterEval(depth, i - 1)) &&
    forall j :: 0 <= j < (if stop then i - 1 else i) ==> !stopAfterEval(depth, j)
  }

  /** A round starts with nothing evaluated. */
  lemma RoundAtStart(g: Game, root: Node, stopAfterEval: (int, int) -> bool, depth: nat, t0: Table,
                     evals0: seq<(int, Command)>, bestScore: int, best: Answer)
    requires Sound(g) && g.ok(root) && depth >= 1 && (bestScore, best) == BestOf(evals0)
    ensures RoundAt(g, root, stopAfterEval, depth, t0, evals0, 0, false, evals0, t0, bestScore, best)
  {
    assert evals0 + [] == evals0;
  }

  /** Before the next evaluation of a round, the evaluations so far satisfy what searching
      the next child needs. */
  lemma RoundAtNext(g: Game, root: Node, stopAfterEval: (int, int) -> bool, depth: nat, t0: Table,
                    evals0: seq<(int, Command)>, i: nat, evals: seq<(int, Command)>, t: Table,
                    bestScore: int, best: Answer)
    requires Sound(g) && g.ok(root) && depth >= 1 && i < |g.moves(root)|
    requires Evaluated(g, root, evals0) && (depth == 1 ==> evals0 == []) && (depth > 1 ==> |evals0| >= |g.moves(root)|)
    requires RoundAt(g, root, stopAfterEval, depth, t0, evals0, i, false, evals, t, bestScore, best)
    ensures (bestScore, best) == BestOf(evals) && Evaluated(g, root, evals)
    ensures (depth == 1 ==> |evals| == i) && (depth > 1 ==> |evals| >= |g.moves(root)|)
  {
    RoundEvaluated(g, root, depth, t0, i, evals0);
    RoundUpToEntries(g, root, i, depth, t0);
  }

  /** The search of child i, recorded after the first i evaluations, makes the round's first
      i + 1 evaluations; `stop` is then the test after evaluation i. */
  lemma RoundAtStep(g: Game, root: Node, stopAfterEval: (int, int) -> bool, depth: nat, t0: Table,
                    evals0: seq<(int, Command)>, i: nat, before: seq<(int, Command)>, t1: Table, bestScore1: int,
                    best1: Answer, evals: seq<(int, Command)>, t: Table, bestScore: int, best: Answer, stop: bool)
    requires Sound(g) && g.ok(root) && depth >= 1 && i < |g.moves(root)|
    requires RoundAt(g, root, stopAfterEval, depth, t0, evals0, i, false, before, t1, bestScore1, best1)
    requires evals == before + [(Dfs(g, ChildAt(g, root, i), depth - 1, t1).0, g.moves(root)[i])]
    requires t == Dfs(g, ChildAt(g, root, i), depth - 1, t1).1
    requires (bestScore, best) == BestOf(evals) && stop == stopAfterEval(depth, i)
    ensures RoundAt(g, root, stopAfterEval, depth, t0, evals0, i + 1, stop, evals, t, bestScore, best)
  {
    RoundAdvance(g, root, depth, t0, i, evals0, before, t1);
  }

  /** The evaluations of a round made after those of the earlier rounds keep `Evaluated`. */
  lemma RoundEvaluated(g: Game, root: Node, depth: nat, t: Table, i: nat, evals0: seq<(int, Command)>)
    requires Sound(g) && g.ok(root) && i <= |g.moves(root)| && depth >= 1 && Evaluated(g, root, evals0)
    requires depth == 1 ==> evals0 == []
    requires depth > 1 ==> |evals0| >= |g.moves(root)|
    ensures Evaluated(g, root, evals0 + RoundUpTo(g, root, i, depth, t).0)
  {
    var r := RoundUpTo(g, root, i, depth, t).0;
    var all := evals0 + r;
    RoundUpToEntries(g, root, i, depth, t);
    forall k | 0 <= k < |all|
      ensures all[k].1 in g.moves(root)
      ensures k < |g.moves(root)| ==> all[k] == (g.score(ChildAt(g, root, k)), g.moves(root)[k])
    {
      if k < |evals0| {
        assert all[k] == evals0[k];
      } else {
        assert all[k] == r[k - |evals0|];
      }
    }
  }

  /** What a round at `depth` from table `t` leaves when it follows the evaluations `evals0`:
      `stop` tells whether a test after an evaluation fired, and the evaluations and the
      table are those of the round up to the first evaluation after which one fired, or of
      the whole round when none did. */
  ghost predicate RoundMade(g: Game, root: Node, stopAfterEval: (int, int) -> bool, depth: nat, t: Table,
                            evals0: seq<(int, Command)>, stop: bool, evals: seq<(int, Command)>, t': Table)
    requires Sound(g) && g.ok(root) && depth >= 1
  {
    var n := |g.moves(root)|;
    var k := FirstStop(stopAfterEval, depth, 0, n);
    var r := RoundUpTo(g, root, if k < n then k + 1 else n, depth, t);
    stop == (k < n) && (evals, t') == (evals0 + r.0, r.1)
  }

  /** One more evaluation extends the round by the search of the next child. */
  lemma RoundAdvance(g: Game, root: Node, depth: nat, t0: Table, i: nat, evals0: seq<(int, Command)>,
                     before: seq<(int, Command)>, t1: Table)
    requires Sound(g) && g.ok(root) && i < |g.moves(root)| && depth >= 1
    requires (before, t1) == (evals0 + RoundUpTo(g, root, i, depth, t0).0, RoundUpTo(g, root, i, depth, t0).1)
    ensures (before + [(Dfs(g, ChildAt(g, root, i), depth - 1, t1).0, g.moves(root)[i])], Dfs(g, ChildAt(g, root, i), depth - 1, t1).1)
      == (evals0 + RoundUpTo(g, root, i + 1, depth, t0).0, RoundUpTo(g, root, i + 1, depth, t0).1)
  {
    var done := RoundUpTo(g, root, i, depth, t0).0;
    var x := (Dfs(g, ChildAt(g, root, i), depth - 1, t1).0, g.moves(root)[i]);
    assert RoundUpTo(g, root, i + 1, depth, t0).0 == done + [x];
    assert evals0 + done + [x] == evals0 + (done + [x]);
  }

  /** A round ends when the test after an evaluation fires or when every move is evaluated:
      then it has made what `RoundMade` says, after the evaluations before it. */
  lemma RoundAtEnd(g: Game, root: Node, stopAfterEval: (int, int) -> bool, depth: nat, t0: Table,
                   evals0: seq<(int, Command)>, i: nat, stop: bool, evals: seq<(int, Command)>, t: Table,
                   bestScore: int, best: Answer)
    requires Sound(g) && g.ok(root) && depth >= 1 && |g.moves(root)| >= 1
    requires Evaluated(g, root, evals0) && (depth == 1 ==> evals0 == []) && (depth > 1 ==> |evals0| >= |g.moves(root)|)
    requires RoundAt(g, root, stopAfterEval, depth, t0, evals0, i, stop, evals, t, bestScore, best)
    requires stop || i == |g.moves(root)|
    ensures (bestScore, best) == BestOf(evals) && Evaluated(g, root, evals)
    ensures |evals| > |evals0| && evals[..|evals0|] == evals0
    ensures !stop ==> |evals| >= |g.moves(root)|
    ensures RoundMade(g, root, stopAfterEval, depth, t0, evals0, stop, evals, t)
  {
    RoundMadeAt(g, root, stopAfterEval, depth, t0, if stop then i - 1 else i, evals0, evals, t);
    RoundUpToEntries(g, root, i, depth, t0);
    RoundEvaluated(g, root, depth, t0, i, evals0);
  }

  /** A round ends after evaluation i when the test after it is the first to fire, or after
      the last evaluation when none fires; what it made then extends `evals0`. */
  lemma RoundMadeAt(g: Game, root: Node, stopAfterEval: (int, int) -> bool, depth: nat, t: Table, i: nat,
                    evals0: seq<(int, Command)>, evals: seq<(int, Command)>, t': Table)
    requires Sound(g) && g.ok(root) && depth >= 1 && i <= |g.moves(root)|
    requires (i < |g.moves(root)| ==> stopAfterEval(depth, i)) && forall j :: 0 <= j < i ==> !stopAfterEval(depth, j)
    requires var r := RoundUpTo(g, root, if i < |g.moves(root)| then i + 1 else i, depth, t);
      (evals, t') == (evals0 + r.0, r.1)
    ensures RoundMade(g, root, stopAfterEval, depth, t, evals0, i < |g.moves(root)|, evals, t')
    ensures evals[..|evals0|] == evals0
  {
    FirstStopAt(stopAfterEval, depth, i, |g.moves(root)|);
  }

  /** The first test to fire in a round is the one after evaluation i when none fired before
      it; when none fires in the round, there is none. */
  lemma FirstStopAt(stopAfterEval: (int, int) -> bool, depth: int, i: nat, n: nat)
    requires i <= n && (i < n ==> stopAfterEval(depth, i)) && forall j :: 0 <= j < i ==> !stopAfterEval(depth, j)
    ensures FirstStop(stopAfterEval, depth, 0, n) == i
  {
  }

  /** The iterative deepening of `matts_algo` from `root`: for depths 1 to 19, a round over
      the potential moves, all rounds sharing one table. `stopAfterEval(depth, i)` and
      `stopAfterDepth(depth)` stand for the clock tests against the time limit. The ghost
      `evals` lists every evaluation in order: at least one is made, each is of a move
      offered at the root, and the first round scores each child. */
  method Deepen(g: Game, root: Node, stopAfterEval: (int, int) -> bool, stopAfterDepth: int -> bool)
    returns (a: Answer, ghost evals: seq<(int, Command)>)
    requires Sound(g) && Agrees(g) && g.ok(root)
    ensures a == BestOf(evals).1 && |evals| >= 1
    ensures forall k :: 0 <= k < |evals| ==> evals[k].1 in g.moves(root)
    ensures a.Play? ==> a.cmd in g.moves(root)
    ensures forall k :: 0 <= k < |evals| && k < |g.moves(root)| ==> evals[k] == (g.score(ChildAt(g, root, k)), g.moves(root)[k])
    ensures evals == Schedule(g, root, stopAfterEval, stopAfterDepth, 1) && evals <= Rounds(g, root, 19).0
    ensures (forall d, j :: 1 <= d < 20 && 0 <= j < |g.moves(root)| ==> !stopAfterEval(d, j)) ==>
      exists e :: 1 <= e <= 19 && evals == Rounds(g, root, e).0
  {
    evals := [];
    var table := new TranspositionTable();
    var bestScore, best := Floor, Placeholder;
    var moves := GameMoves(g, root);
    for depth := 1 to 20
      invariant (bestScore, best) == BestOf(evals)
      invariant (evals, table.entries) == Rounds(g, root, depth - 1)
      invariant Schedule(g, root, stopAfterEval, stopAfterDepth, depth) == Schedule(g, root, stopAfterEval, stopAfterDepth, 1)
    {
      var stop;
      ghost var done, t := evals, table.entries;
      RoundsEvaluated(g, root, depth - 1);
      bestScore, best, evals, stop := Round(g, root, moves, depth, table, stopAfterEval, bestScore, best, evals);
      DeepenStep(g, root, stopAfterEval, stopAfterDepth, depth, done, t, stop, evals, table.entries);
      if stop || stopAfterDepth(depth) {
        BestOfIsFirstMax(evals);
        ScheduleDone(g, root, stopAfterEval, stopAfterDepth, evals);
        return best, evals;
      }
    }
    RoundsEvaluated(g, root, 19);
    BestOfIsFirstMax(evals);
    ScheduleDone(g, root, stopAfterEval, stopAfterDepth, evals);
    a := best;
  }

  /** The i-th evaluation of a round is of the i-th move, and in the round at depth 1 it is
      the score of the i-th child. */
  lemma {:induction false} RoundUpToEntries(g: Game, root: Node, n: nat, depth: nat, t: Table)
    requires Sound(g) && g.ok(root) && n <= |g.moves(root)| && depth >= 1
    ensures var es := RoundUpTo(g, root, n, depth, t).0;
      |es| == n && forall k :: 0 <= k < n ==> es[k].1 == g.moves(root)[k]
    ensures depth == 1 ==> var es := RoundUpTo(g, root, n, depth, t).0;
      forall k :: 0 <= k < n ==> es[k].0 == g.score(ChildAt(g, root, k))
    decreases n
  {
    if n > 0 {
      RoundUpToEntries(g, root, n - 1, depth, t);
      var (es, t1) := RoundUpTo(g, root, n - 1, depth, t);
      var x := (Dfs(g, ChildAt(g, root, n - 1), depth - 1, t1).0, g.moves(root)[n - 1]);
      assert RoundUpTo(g, root, n, depth, t).0 == es + [x];
    }
  }

  /** The full rounds satisfy `Evaluated`: there are none at depth 0, and at least one round
      of evaluations afterwards. */
  lemma {:induction false} RoundsEvaluated(g: Game, root: Node, d: nat)
    requires Sound(g) && g.ok(root)
    ensures Evaluated(g, root, Rounds(g, root, d).0)
    ensures d == 0 ==> Rounds(g, root, d).0 == []
    ensures d > 0 ==> |Rounds(g, root, d).0| >= |g.moves(root)|
  {
    if d > 0 {
      RoundsEvaluated(g, root, d - 1);
      var (es, t) := Rounds(g, root, d - 1);
      var n := |g.moves(root)|;
      var r := RoundUpTo(g, root, n, d, t).0;
      RoundUpToEntries(g, root, n, d, t);
      var all := es + r;
      assert Rounds(g, root, d).0 == all;
      forall k | 0 <= k < |all|
        ensures all[k].1 in g.moves(root)
        ensures k < n ==> all[k] == (g.score(ChildAt(g, root, k)), g.moves(root)[k])
      {
        if k < |es| {
          assert all[k] == es[k];
        } else {
          assert all[k] == r[k - |es|];
        }
      }
    }
  }

  /** The whole schedule is a prefix of the 19 full rounds, and whole rounds when no test
      after an evaluation fires. */
  lemma ScheduleDone(g: Game, root: Node, stopAfterEval: (int, int) -> bool, stopAfterDepth: int -> bool,
                     evals: seq<(int, Command)>)
    requires Sound(g) && g.ok(root) && evals == Schedule(g, root, stopAfterEval, stopAfterDepth, 1)
    ensures evals <= Rounds(g, root, 19).0
    ensures (forall d, j :: 1 <= d < 20 && 0 <= j < |g.moves(root)| ==> !stopAfterEval(d, j)) ==>
      exists e :: 1 <= e <= 19 && evals == Rounds(g, root, e).0
  {
    SchedulePrefix(g, root, stopAfterEval, stopAfterDepth, 1);
    if forall d, j :: 1 <= d < 20 && 0 <= j < |g.moves(root)| ==> !stopAfterEval(d, j) {
      ScheduleWhole(g, root, stopAfterEval, stopAfterDepth, 1);
    }
  }

  /** After the round at `depth`, made from the full rounds before it: a cut-short round ends
      the schedule there, and a full round is one more of the full rounds, after which the
      schedule stops or goes on to the next depth. */
  lemma DeepenStep(g: Game, root: Node, stopAfterEval: (int, int) -> bool, stopAfterDepth: int -> bool, depth: nat,
                   evals0: seq<(int, Command)>, t: Table, stop: bool, evals: seq<(int, Command)>, t': Table)
    requires Sound(g) && g.ok(root) && 1 <= depth < 20 && (evals0, t) == Rounds(g, root, depth - 1)
    requires RoundMade(g, root, stopAfterEval, depth, t, evals0, stop, evals, t')
    ensures stop || stopAfterDepth(depth) ==> evals == Schedule(g, root, stopAfterEval, stopAfterDepth, depth)
    ensures !stop ==> (evals, t') == Rounds(g, root, depth)
    ensures !stop && !stopAfterDepth(depth) ==>
      Schedule(g, root, stopAfterEval, stopAfterDepth, depth) == Schedule(g, root, stopAfterEval, stopAfterDepth, depth + 1)
  {
  }

  /** `matts_algo`: with no unit in flight, None; otherwise the deepening search from the
      root node built from the board the game passes in. */
  method MattsAlgo(w: World, hives: seq<Hive>, flowers: seq<Flower>, inflight: Inflight, turn: int,
                   stopAfterEval: (int, int) -> bool, stopAfterDepth: int -> bool)
    returns (a: Answer, ghost evals: seq<(int, Command)>)
    requires WellFormed(w, Snapshot(hives, flowers, inflight, 0, 0)) && w.width >= 0 && w.height >= 0
    ensures inflight == [] ==> a == Play(NoCommand) && evals == []
    ensures inflight != [] ==> a == BestOf(evals).1 && |evals| >= 1
    ensures forall k :: 0 <= k < |evals| ==> evals[k].1 in Moves(RootNode(w, hives, flowers, inflight, turn))
    ensures a.Play? && inflight != [] ==> a.cmd in Moves(RootNode(w, hives, flowers, inflight, turn))
    ensures var root := RootNode(w, hives, flowers, inflight, turn);
      forall k :: 0 <= k < |evals| && k < |Moves(root)| ==>
        Sound(Lookahead) && Searchable(root) && evals[k] == (ScoreOf(ChildAt(Lookahead, root, k)), Moves(root)[k])
    ensures var root := RootNode(w, hives, flowers, inflight, turn);
      inflight != [] ==>
        Sound(Lookahead) && Searchable(root) &&
        evals == Schedule(Lookahead, root, stopAfterEval, stopAfterDepth, 1) && evals <= Rounds(Lookahead, root, 19).0
  {
    evals := [];
    if inflight == [] {
      return Play(NoCommand), evals;
    }
    var root := RootNode(w, hives, flowers, inflight, turn);
    RootSearchable(w, hives, flowers, inflight, turn);
    LookaheadAgrees();
    a, evals := Deepen(Lookahead, root, stopAfterEval, stopAfterDepth);
  }
}
