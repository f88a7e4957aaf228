# A verified model of the hiveminder lookahead player

This project models, in Dafny, the lookahead player of the hiveminder bee game on a hex
grid of offset tiles. Each turn the player searches the moves of its units for the one that
leads to the best-scoring board a few turns ahead. The model has three layers:

- **One tick** (matts_tools/lite_board.py). The simulation's `make_turn` runs seven steps in
  order:
  - apply the command;
  - remove dead flowers;
  - move the units;
  - send units off the board away;
  - visit flowers;
  - land bees in hives;
  - detect crashes.

  Module `Simulation` defines each step as a function on a board snapshot. Class
  `Board.LiteBoard` holds the board's fields (hives, flowers, the `inflight` dictionary, the
  dead-bee and seed counters) and runs the same steps in place, with the source's loops.
  Each of its methods is proved to leave exactly the state that the matching function
  describes. The lemmas about those functions state what each step promises and which
  invariants a tick keeps.
- **Search nodes** (matts_tools/my_node_json.py). Module `Nodes` covers:
  - the candidate moves (`potential_moves`) and the pruning used to choose them;
  - the two stage scores and the graded nectar score;
  - tile numbering and the transposition key (`_key`);
  - building a child from a board's JSON.
- **The search** (algos/matts_algo.py). Module `Search` has the depth-first search with a
  transposition table (`dfs_max_score`) and the iterative deepening (`matts_algo`). Both are
  written as methods over a generic game record. Lemmas tie that record to the hive game.
  The search with a table is characterised by what it does to the table (DfsTable), by its
  answers from recorded keys (DfsRepeat) and by DfsMaxScore. It is tied to the table-free
  reference maximum only for a one-turn search from a key not yet recorded (DfsOneTurn).
  The deepening is proved to make exactly the evaluations of a fixed schedule: rounds by
  increasing depth, moves in order, one table threaded through them from empty
  (Search.Schedule).

Supporting modules:

- `Flowers` (matts_tools/my_flower.py): the flower, its visit rule and its JSON list.
- `Units` (matts_tools/my_bee.py and the unit kinds): workers, queens, seeds, advancing,
  drinking, founding a hive and the JSON list.
- `Tiles`: removing the items on a tile, and the square footprints.
- `Hiveminder`: the headings and game parameters of the game library the core imports.
- `Json` and `Wrappers`: values and the Option and Result types.

Parts of the game library that are not part of this model become parameters of type
`Simulation.World`:

- `heading_to_delta` (the hex step), as `delta`;
- `random.choice`, as `pick`.

The clock tests of `matts_algo` become two oracle parameters: `stopAfterEval` and
`stopAfterDepth`. An exception the source would raise appears as an `Err` result.

## Model

| member | source | states |
|---|---|---|
| Hiveminder.CompassIndex | matts_tools/my_node_json.py:8-13 | every heading has a position among the six headings in turning order |
| Hiveminder.OppositeHeading | matts_tools/lite_board.py:81-83 | the reversed heading differs from the heading |
| Hiveminder.OppositeInvolution | matts_tools/lite_board.py:81-83 | reversing a heading twice gives it back |
| Tiles.DelAtCoordinate | matts_tools/lite_board.py:11-12 | the result keeps exactly the items not on the tile, and only items of the input |
| Tiles.DelAtCoordinateAppend | matts_tools/lite_board.py:11-12 | removing the items on a tile distributes over concatenation |
| Tiles.LastIndex | matts_tools/lite_board.py:104-107 | the index is that of the last item on the tile (the one a tile-keyed dict comprehension keeps), or -1 when there is none |
| Tiles.Row | matts_tools/my_node_json.py:85-88 | the pairs of one x with every y in order: the right length and exactly the pairs with that x |
| Tiles.Product | matts_tools/my_node_json.py:85-88 | the length is the product of the lengths, and a pair is in it exactly when both coordinates are |
| Tiles.RangeMembership | matts_tools/my_node_json.py:80-83 | `range(lo, hi)` has max(0, hi - lo) values, exactly those with lo <= v < hi |
| Tiles.FootprintAsWrittenLopsided | matts_tools/my_node_json.py:80-88 | the footprint as written holds the tiles left of and above its center but not those right of or below it, so it is not symmetric |
| Tiles.RetRangeCoordsAsWritten | algos/matts_algo.py:55-57 | `_ret_range_coords` as written; specified by RetRangeCoordsAsWrittenMembership and RetRangeCoordsAsWrittenLength |
| Tiles.FootprintAsWritten | algos/matts_algo.py:60-63 | `footprint` as written, the one the search uses; specified by FootprintAsWrittenMembership, FootprintAsWrittenOnBoard and FootprintAsWrittenSize |
| Tiles.RetRangeCoordsAsWrittenMembership | algos/matts_algo.py:55-57 | a coordinate is in the range exactly when it lies in [max(center - size, 0), min(center + size, limit)) |
| Tiles.RetRangeCoordsAsWrittenLength | algos/matts_algo.py:55-57 | the range has at most 2 size values |
| Tiles.FootprintAsWrittenMembership | algos/matts_algo.py:55-63 | a tile is in the footprint exactly when each coordinate lies in [max(c - size, 0), min(c + size, 8)) for the center's coordinate c |
| Tiles.FootprintAsWrittenOnBoard | algos/matts_algo.py:60-63 | every footprint tile is on the 8 x 8 board, at most `size` below the center and less than `size` above it in each coordinate |
| Tiles.FootprintAsWrittenCenter | algos/matts_algo.py:60-63 | a board tile is in its own footprint of any positive size |
| Tiles.FootprintAsWrittenSize | algos/matts_algo.py:60-63 | the footprint has at most (2 size)^2 tiles, at most 4 (a 2 x 2 block) for size 1 |
| Tiles.FootprintAsWrittenWithin | algos/matts_algo.py:55-63 | the footprint as written is the intended one less the tiles at distance exactly `size` above the center |
| Tiles.RetRangeCoords | algos/matts_algo.py:55-57 | the corrected range, center + size included (the corrected half of the footprint finding); specified by RetRangeCoordsMembership |
| Tiles.Footprint | algos/matts_algo.py:60-63 | the corrected footprint, the tiles within `size` in each coordinate (the corrected half of the footprint finding); specified by FootprintMembership |
| Tiles.RetRangeCoordsMembership | algos/matts_algo.py:55-57 | the corrected range holds exactly the coordinates within `size` of the center that lie in [0, limit) |
| Tiles.FootprintMembership | algos/matts_algo.py:60-63 | a tile is in the corrected footprint exactly when it is on the 8 x 8 board and within `size` of the center in both coordinates |
| Tiles.FootprintOnBoard | algos/matts_algo.py:60-63 | every tile of the corrected footprint lies on the 8 x 8 board (corrected half of the footprint finding) |
| Tiles.FootprintSymmetric | algos/matts_algo.py:60-63 | for the corrected footprint, between board tiles, membership in each other's footprint is symmetric and a center is in its own footprint; the footprint as written is not symmetric (FootprintAsWrittenLopsided) (corrected half of the footprint finding) |
| Tiles.RetRangeCoordsLength | algos/matts_algo.py:55-57 | a corrected range has at most 2 size + 1 values (corrected half of the footprint finding) |
| Tiles.FootprintSize | algos/matts_algo.py:60-63 | a corrected footprint has at most (2 size + 1)^2 tiles, at most 9 for size 1 (corrected half of the footprint finding) |
| Flowers.NewFlowerDefaults | matts_tools/my_flower.py:12-17 | the defaults give potency 1, no visits and no expiry |
| Flowers.Visit | matts_tools/my_flower.py:35-42 | a visit adds one visit, extends the life by the visit impact, sets potency to min(3, visits / ratio + 1), and spawns a seed exactly when the visits reach the first threshold and are a multiple of the second |
| Flowers.VisitPotencyRange | matts_tools/my_flower.py:38 | after a visit, potency lies in [1, 3] |
| Flowers.VisitPotencyMonotone | matts_tools/my_flower.py:38 | potency never falls from one visit to the next |
| Flowers.VisitPotencySaturates | matts_tools/my_flower.py:38 | after 2 ratio - 1 visits, the next visit gives full potency 3 |
| Flowers.FlowerFromJson | matts_tools/my_flower.py:23-31 | a decoded list has 3 to 7 elements, ends in the class name and starts with the flower's tile |
| Flowers.FlowerRoundTrip | matts_tools/my_flower.py:19-31 | decoding an encoded flower gives back the same flower |
| Flowers.FlowerJsonCanonical | matts_tools/my_flower.py:19-31 | a full-length list that decodes is the encoding of what it decodes to |
| Flowers.FlowerToJson | matts_tools/my_flower.py:19-22 | `to_json` of a flower; specified by FlowerRoundTrip and FlowerJsonCanonical |
| Units.Advance | matts_tools/my_bee.py:12-15 | a unit moves one step and keeps its kind, heading, parameters and nectar; a worker or queen loses 1 energy below capacity and 2 at capacity |
| Units.Drink | matts_tools/my_bee.py:20-22 | nectar becomes min(capacity, nectar + amount) and energy rises by the boost times the amount; nothing else changes |
| Units.DrinkWhenFull | matts_tools/my_bee.py:20-22 | a full bee gains no nectar but the whole energy boost |
| Units.CreateHive | matts_tools/my_bee.py:33-36 | the hives off the queen's tile in order, then one new hive on her tile holding her nectar |
| Units.VolantFromJson | matts_tools/lite_board.py:15-17 | a decoded unit agrees with the list on class name, tile and heading |
| Units.BeeJsonLayout | matts_tools/my_bee.py:24-25 | a worker's or queen's list is [class, x, y, heading, energy, params, nectar] |
| Units.VolantRoundTrip | matts_tools/my_bee.py:24-29 | decoding an encoded unit gives back the same unit |
| Units.VolantJsonCanonical | matts_tools/my_bee.py:24-29 | a list that decodes is exactly the encoding of its unit |
| Units.VolantToJson | matts_tools/my_bee.py:24-26 | `to_json` of a unit; specified by VolantRoundTrip, VolantJsonCanonical and BeeJsonLayout |
| Units.HiveFromJson | matts_tools/my_node_json.py:63 | a decoded hive re-encodes to the list it came from |
| Units.HiveRoundTrip | matts_tools/my_node_json.py:63 | decoding an encoded hive gives it back |
| Units.HiveToJson | matts_tools/lite_board.py:198 | a hive as the board JSON lists it; specified by HiveRoundTrip and HiveFromJson |
| Simulation.IndexOfId | matts_tools/lite_board.py:154-157 | the position of a key in the dictionary, or -1 exactly when the key is absent |
| Simulation.RemoveIds | matts_tools/lite_board.py:98-101 | deleting keys never makes the dictionary longer |
| Simulation.RemoveIdsMembership | matts_tools/lite_board.py:98-101 | deleting keys keeps exactly the entries whose keys are not deleted |
| Simulation.RemoveIdsUnique | matts_tools/lite_board.py:98-101 | deleting keys keeps keys unique |
| Simulation.RemoveIdsTwice | matts_tools/lite_board.py:98-101 | deleting one set of keys, then another, is deleting their union |
| Simulation.ApplyCommand | matts_tools/lite_board.py:150-180 | None or an empty order changes nothing; an order for an unknown key fails with UnknownEntity; a successful command leaves both counters alone |
| Simulation.ApplyCommandAccepts | matts_tools/lite_board.py:150-180 | a command is accepted exactly when it orders nothing, or names a unit in flight and gives it an order that unit can carry out |
| Simulation.ApplyRotation | matts_tools/lite_board.py:176-180 | a rotation succeeds exactly for a legal neighbouring heading, and then changes only that unit's heading |
| Simulation.ApplyMisdirected | matts_tools/lite_board.py:159-178 | "flower" to a non-seed and "create_hive" to a non-queen fail as illegal headings |
| Simulation.ApplyPlantFlower | matts_tools/lite_board.py:159-167 | a seed told to flower clears its tile, leaves one new flower there expiring `flower_lifespan` turns later, and leaves the board |
| Simulation.ApplyBuildHive | matts_tools/lite_board.py:168-175 | a queen told to build clears the flowers off her tile, replaces any hive there with one holding her nectar, and leaves the board |
| Simulation.PlantFlowerStep | matts_tools/lite_board.py:159-167 | the "flower" branch of `apply_command`; specified by ApplyPlantFlower and PlantFlowerStepWellFormed |
| Simulation.BuildHiveStep | matts_tools/lite_board.py:168-175 | the "create_hive" branch of `apply_command`; specified by ApplyBuildHive and BuildHiveStepWellFormed |
| Simulation.Unexpired | matts_tools/lite_board.py:187 | exactly the flowers that outlive the turn, in order |
| Simulation.ExpireFlowers | matts_tools/lite_board.py:182-193 | fails exactly when some expiry is undefined; otherwise it keeps a sub-list of the flowers with defined expiries |
| Simulation.ExpireFlowersAsWritten | matts_tools/lite_board.py:182-193 | as written: success implies every expiry was defined |
| Simulation.ExpireFlowersAsWrittenFails | matts_tools/lite_board.py:192-193 | as written, a turn on which the only flower dies raises NameError; the corrected step keeps that flower |
| Simulation.ExpireFlowersAgree | matts_tools/lite_board.py:182-193 | as written and corrected agree whenever some flower survives or there are none |
| Simulation.ExpireFlowersCases | matts_tools/lite_board.py:182-193 | an undefined expiry fails; if a flower survives, exactly the live ones remain; if none survives, exactly one old flower remains; an empty list stays empty |
| Simulation.AdvanceAllIds | matts_tools/lite_board.py:130-132 | moving keeps the set of keys and their uniqueness |
| Simulation.AdvanceAll | matts_tools/lite_board.py:130-132 | `move_volants`; specified by AdvanceAllIds, MoveAndSendWellFormed and Units.Advance |
| Simulation.SendVolantsBounds | matts_tools/lite_board.py:134-148 | when the step succeeds, every unit is on the board afterwards, every unit that was on the board is still there unchanged, and nothing else changes |
| Simulation.SendVolantsFails | matts_tools/lite_board.py:137-140 | the step fails, with ZeroDivisionError, exactly when the board has width or height 0 and some unit is off it; on a board of positive size it succeeds; with every unit on the board it changes nothing |
| Simulation.RemoveIdsNone | matts_tools/lite_board.py:98-101 | deleting no ids keeps the dictionary (used for the empty deletions of `detect_crashes` and `send_volants`) |
| Simulation.NothingOnEmptyBoard | matts_tools/lite_board.py:138 | on a board of width or height 0, every unit is on the board only when there is none |
| Simulation.SendVolants | matts_tools/lite_board.py:134-148 | `send_volants`, with the ZeroDivisionError of the `%` on a 0-sized board; specified by SendVolantsFails, SendVolantsBounds and MoveAndSendWellFormed |
| Simulation.VisitOne | matts_tools/lite_board.py:124-128 | one loop pass changes at most the unit at i, and keeps the list lengths and every expiry defined |
| Simulation.VisitUpTo | matts_tools/lite_board.py:118-128 | the first n passes leave the later units alone and keep the lengths and expiries |
| Simulation.TotalVisitsUpdate | matts_tools/lite_board.py:127 | replacing one flower changes the total visit count by the difference in its visits |
| Simulation.VisitOneCounts | matts_tools/lite_board.py:121-128 | a visit adds one to the total visit count; the pass owes exactly one seed when `visit` returns true and none otherwise, and only a visit can owe one; a pass without a visit changes nothing |
| Simulation.VisitUpToCounts | matts_tools/lite_board.py:118-128 | over the first n units, the total visit count rises by exactly the number of visitors, the seed counter by exactly the number of visits that returned true (at most the visitors), and non-visitors are untouched |
| Simulation.VisitUpToVisits | matts_tools/lite_board.py:118-128 | the total visit count rises by exactly the number of visitors |
| Simulation.VisitUpToSeeds | matts_tools/lite_board.py:118-128 | the seed counter rises by exactly the number of visits that returned true, at most the number of visitors |
| Simulation.SpawnCount | matts_tools/lite_board.py:124-128 | the number of loop passes whose `visit` returned true, each judged on the state the earlier passes left; VisitUpToCounts ties it to the seed counter |
| Simulation.VisitUpToKeeps | matts_tools/lite_board.py:118-128 | seeds and units off the flower tiles keep their state |
| Simulation.VisitOneShape | matts_tools/lite_board.py:121-128 | a visit changes only a unit's energy and nectar and a flower's counters |
| Simulation.VisitUpToShape | matts_tools/lite_board.py:118-128 | keys, order, kinds, tiles and headings of units, and the flower tiles, stay |
| Simulation.VisitFlowersEffect | matts_tools/lite_board.py:118-128 | `visit_flowers` leaves hives and losses; each visit adds one visit; owed seeds rise by exactly the number of `visit` calls that returned true, so by at most the number of visits; seeds and non-visitors stay |
| Simulation.VisitFlowers | matts_tools/lite_board.py:118-128 | `visit_flowers`; specified by VisitFlowersEffect and VisitFlowersWellFormed |
| Simulation.LandOne | matts_tools/lite_board.py:109-114 | one pass keeps the number of hives |
| Simulation.LandUpTo | matts_tools/lite_board.py:103-116 | the passes keep the number of hives |
| Simulation.LandUpToTiles | matts_tools/lite_board.py:103-116 | landing changes hive nectar only: every hive keeps its tile |
| Simulation.LandedIdsStep | matts_tools/lite_board.py:106-107 | scanning one more unit adds its key exactly when it is a worker or queen on a hive tile |
| Simulation.NectarUpToUpdate | matts_tools/lite_board.py:114 | replacing one hive changes the nectar prefix sums by its difference |
| Simulation.TotalNectarUpdate | matts_tools/lite_board.py:114 | replacing one hive changes the total nectar by its difference |
| Simulation.LandOneTotals | matts_tools/lite_board.py:109-114 | one pass adds a worker's nectar to the hives' total, or one loss for a queen |
| Simulation.LandUpToNectar | matts_tools/lite_board.py:103-116 | landing adds exactly the nectar of the landed workers to the total |
| Simulation.LandUpToNectarStep | matts_tools/lite_board.py:109-114 | the nectar total after i + 1 passes, in terms of i passes |
| Simulation.LandUpToQueens | matts_tools/lite_board.py:103-116 | landing adds exactly the number of landed queens to the losses |
| Simulation.LandBeesEffect | matts_tools/lite_board.py:103-116 | afterwards no worker or queen is on a hive tile; total nectar and losses rise by exactly the landed workers' nectar and queens; everything else stays |
| Simulation.LandBees | matts_tools/lite_board.py:103-116 | `land_bees`; specified by LandBeesEffect and LandBeesWellFormed |
| Simulation.LandedRemoval | matts_tools/lite_board.py:106-116 | deleting the landed keys keeps exactly the units not on a hive tile as worker or queen |
| Simulation.TilesOfStep | matts_tools/lite_board.py:77-87 | one more unit of a kind adds its tile to that kind's tiles |
| Simulation.UnitsAtStep | matts_tools/lite_board.py:77-87 | one more unit of a kind joins the key set of its tile |
| Simulation.UnitsAtElsewhere | matts_tools/lite_board.py:77-87 | a tile held by no unit of the kind has no keys |
| Simulation.OccupancyStep | matts_tools/lite_board.py:77-87 | the occupancy map grows as `setdefault(tile, set()).add(id)` does |
| Simulation.TwoInSet | matts_tools/lite_board.py:89 | proof helper: two distinct members make a set larger than one |
| Simulation.PickOther | matts_tools/lite_board.py:89 | proof helper: a set larger than one has a member other than a given one |
| Simulation.CrowdedPartner | matts_tools/lite_board.py:89 | a crowded unit has a partner of its kind with another key on its tile |
| Simulation.PartnerCrowded | matts_tools/lite_board.py:89 | two units of one kind with different keys on one tile are both crowded |
| Simulation.CrowdedMeaning | matts_tools/lite_board.py:89-96 | a unit is crowded exactly when another unit of its kind, with another key, shares its tile |
| Simulation.OccupancyHolds | matts_tools/lite_board.py:77-87 | every unit of the kind is listed on its own tile |
| Simulation.OpposingStatesStep | matts_tools/lite_board.py:77-83 | one more worker or queen adds its reversed-step state |
| Simulation.DetectCrashesSurvivors | matts_tools/lite_board.py:73-101 | afterwards no two workers or queens share a tile, no two seeds do, no energy is negative, no head-on meeting is left, and exactly the crashed units are gone |
| Simulation.DetectCrashes | matts_tools/lite_board.py:73-101 | `detect_crashes`; specified by DetectCrashesSurvivors, CrashLossesCounted and DetectCrashesSettles |
| Simulation.HeadOnRemoved | matts_tools/lite_board.py:92-93 | a worker or queen met head on is removed |
| Simulation.CardRemoved | matts_tools/lite_board.py:94 | removing three disjoint sets of workers and some non-workers lowers the count by their sizes |
| Simulation.CollidedAreBees | matts_tools/lite_board.py:89 | the collided units are workers or queens |
| Simulation.SeedsCollidedAreSeeds | matts_tools/lite_board.py:96 | crowded seeds are not workers or queens |
| Simulation.Collided | matts_tools/lite_board.py:89 | workers and queens sharing a tile; specified by CrowdedMeaning, CollidedAreBees and DetectCrashesSurvivors |
| Simulation.Exhausted | matts_tools/lite_board.py:90-91 | units with negative energy; specified by DetectCrashesSurvivors |
| Simulation.HeadOn | matts_tools/lite_board.py:92-95 | workers and queens that met head on; specified by HeadOnRemoved and DetectCrashesSurvivors |
| Simulation.SeedsCollided | matts_tools/lite_board.py:96 | seeds sharing a tile; specified by CrowdedMeaning, SeedsCollidedAreSeeds and DetectCrashesSurvivors |
| Simulation.ApplyCrashes | matts_tools/lite_board.py:94-101 | counting the lost bees and popping the crashed units; specified by CrashLossesCounted and DetectCrashesSurvivors |
| Simulation.BeeIdsAfterRemoval | matts_tools/lite_board.py:98-101 | deleting keys deletes exactly those workers and queens |
| Simulation.CrashLossesCounted | matts_tools/lite_board.py:94-101 | the loss counter rises by exactly the number of workers and queens removed; crowded seeds are not counted |
| Simulation.ApplyCommandWellFormed | matts_tools/lite_board.py:150-180 | an accepted command keeps a board well formed |
| Simulation.PlantFlowerStepWellFormed | matts_tools/lite_board.py:159-167 | planting keeps a board well formed |
| Simulation.BuildHiveStepWellFormed | matts_tools/lite_board.py:168-175 | founding a hive keeps a board well formed |
| Simulation.RotateWellFormed | matts_tools/lite_board.py:180 | a rotation keeps a board well formed |
| Simulation.ExpireFlowersWellFormed | matts_tools/lite_board.py:182-193 | on a well-formed board expiry succeeds and keeps it well formed |
| Simulation.MoveAndSendWellFormed | matts_tools/lite_board.py:130-148 | moving units that were on the board never makes sending fail, and after moving and sending everything is on the board again |
| Simulation.VisitFlowersWellFormed | matts_tools/lite_board.py:118-128 | visiting keeps a board well formed and leaves the hives |
| Simulation.LandBeesWellFormed | matts_tools/lite_board.py:103-116 | landing keeps a board well formed, keeps the hive tiles, and removes workers and queens from hive tiles |
| Simulation.SubBoard | matts_tools/lite_board.py:98-101 | removing units only keeps a board well formed and keeps workers and queens off hive tiles |
| Simulation.DetectCrashesSettles | matts_tools/lite_board.py:73-101 | the crash step leaves a well-formed, settled board |
| Simulation.TickWellFormed | matts_tools/lite_board.py:64-71 | on a well-formed board a tick fails only through its command, and leaves a well-formed, settled board |
| Simulation.Tick | matts_tools/lite_board.py:64-71 | `make_turn`: the seven steps in order; specified by TickWellFormed and by each step's lemmas |
| Simulation.HiveFoundingClearsLastFlower | matts_tools/lite_board.py:168-175 | a queen building on the only flower's tile leaves the board without flowers |
| Board.EncodeAll | matts_tools/lite_board.py:195-202 | each element is encoded in place |
| Board.DecodeAll | matts_tools/my_node_json.py:63-64 | a successful decode decodes each list to the matching element |
| Board.DecodeAllEncodeAll | matts_tools/my_node_json.py:63-64 | decoding the encoded list gives it back |
| Board.EncodeUnits | matts_tools/lite_board.py:200 | each unit is encoded in place under its key |
| Board.DecodeUnits | matts_tools/my_node_json.py:65-66 | a successful decode keeps the keys and decodes each unit |
| Board.DecodeUnitsEncodeUnits | matts_tools/my_node_json.py:65-66 | decoding the encoded dictionary gives it back |
| Board.LandAll | matts_tools/lite_board.py:106-114 | the loop leaves the hives and losses of the reference landing, and collects exactly the landed keys |
| Board.VisitAll | matts_tools/lite_board.py:124-128 | the loop leaves the state of the reference visit |
| Board.BoardRoundTrip | matts_tools/lite_board.py:195-202 | reading a board's JSON back gives the same board |
| Board.EncodeBoard | matts_tools/lite_board.py:195-202 | `to_json` of the board; specified by BoardRoundTrip and Board.LiteBoard.ToJson |
| Board.DecodeBoard | matts_tools/my_node_json.py:59-68 | reading a board back from its JSON; specified by BoardRoundTrip and DecodeUnitsEncodeUnits |
| Board.LiteBoard.constructor | matts_tools/lite_board.py:45-62 | the new board holds exactly the lists and counters it is given |
| Board.LiteBoard.MakeTurn | matts_tools/lite_board.py:64-71 | the board ends exactly as the reference tick says, or the call fails with the reference error |
| Board.LiteBoard.ApplyCommand | matts_tools/lite_board.py:150-180 | the new state, or the error with the board unchanged, is the reference command's |
| Board.LiteBoard.PlantFlower | matts_tools/lite_board.py:159-167 | the new state is the reference planting step |
| Board.LiteBoard.BuildHive | matts_tools/lite_board.py:168-175 | the new state is the reference hive-founding step |
| Board.LiteBoard.RemoveDeadFlowers | matts_tools/lite_board.py:182-193 | the flowers become the corrected expiry's result, or the error leaves them |
| Board.LiteBoard.MoveVolants | matts_tools/lite_board.py:130-132 | every unit is advanced in place and nothing else changes |
| Board.LiteBoard.DeleteAll | matts_tools/lite_board.py:98-101 | exactly the given keys are deleted and nothing else changes |
| Board.LiteBoard.SendVolants | matts_tools/lite_board.py:134-148 | fails exactly when the reference sending step fails, with its error and the state unchanged; otherwise the new state is the reference step's |
| Board.LiteBoard.VisitFlowers | matts_tools/lite_board.py:118-128 | the new state is the reference visit step |
| Board.LiteBoard.LandBees | matts_tools/lite_board.py:103-116 | the new state is the reference landing step |
| Board.LiteBoard.ScanUnits | matts_tools/lite_board.py:77-87 | the loop builds exactly the two occupancy maps and the opposing states |
| Board.LiteBoard.CrashSets | matts_tools/lite_board.py:89-96 | the four sets are the reference collided, exhausted, head-on and crowded-seed sets |
| Board.LiteBoard.DetectCrashes | matts_tools/lite_board.py:73-101 | the new state is the reference crash step |
| Board.LiteBoard.RecordCrashes | matts_tools/lite_board.py:94-101 | losses counted and crashed units popped, as the reference says |
| Board.LiteBoard.ToJson | matts_tools/lite_board.py:195-202 | the JSON carries the board size and decodes back to the board's state |
| Nodes.PossHeadingsLegal | matts_tools/my_node_json.py:8-13 | the table gives the two neighbouring headings, different from each other, exactly the legal new headings |
| Nodes.PossHeadings | matts_tools/my_node_json.py:8-13 | the table of new headings; specified by PossHeadingsLegal |
| Nodes.Queens | matts_tools/my_node_json.py:114-118 | exactly the queens in flight, no more of them than units; their order is stated by QueensInOrder |
| Nodes.QueensInOrder | matts_tools/my_node_json.py:114-118 | the queens keep the dictionary's order: of any two, the earlier one comes earlier in the dictionary |
| Nodes.QueenPositions | matts_tools/my_node_json.py:114-118 | the positions the queens come from in the dictionary, in increasing order |
| Nodes.Tracked | matts_tools/my_node_json.py:114-118 | the tracked units: the queens while there are any, else every unit; specified by MovesOnlyQueens and MovesShape |
| Nodes.Rotations | matts_tools/my_node_json.py:124-125 | one rotation order per listed heading, in order |
| Nodes.HiveFootprint | matts_tools/my_node_json.py:108-111 | `hive_footprint` of `potential_moves`, built on the footprint as written; specified by HiveFootprintMembership |
| Nodes.ExtraMoveAsWritten | matts_tools/my_node_json.py:127-134 | the order after the rotations as written, the one the move generator uses; specified by ExtraMoveAsWrittenDeadBranch and UnitMovesMembership |
| Nodes.ExtraMove | matts_tools/my_node_json.py:127-134 | the order after the rotations as the dead branch intends (corrected half of that finding); specified by ExtraMoveIntended |
| Nodes.ExtraMoveIntended | matts_tools/my_node_json.py:127-131 | as intended, a queen is told to build exactly when outside the hive footprint, or with at most 1 energy on no hive; it differs from the code as written exactly for a queen inside the footprint with at most 1 energy off every hive |
| Nodes.UnitMoves | matts_tools/my_node_json.py:124-134 | the moves of one tracked unit; specified by UnitMovesMembership |
| Nodes.Moves | matts_tools/my_node_json.py:90-136 | `potential_moves`; specified by MovesMembership, MovesShape and the Moves lemmas below |
| Nodes.ExtraMoveAsWrittenDeadBranch | matts_tools/my_node_json.py:130 | as written, a queen inside the hive footprint is never told to build |
| Nodes.ExtraMoveExample | matts_tools/my_node_json.py:127-131 | a queen with 1 energy next to the only hive gets no build order as written, but does as intended |
| Nodes.UnitMovesMembership | matts_tools/my_node_json.py:124-134 | the moves of one unit are exactly those it is offered: its two legal rotations, "create_hive" for a queen outside the hive footprint, "flower" for a seed outside the flower footprint |
| Nodes.PotentialMoves | matts_tools/my_node_json.py:90-136 | the loop builds the reference candidate list |
| Nodes.CollectMoves | matts_tools/my_node_json.py:120-136 | the loop over the tracked units gives None followed by their moves in order |
| Nodes.AppendUnitMoves | matts_tools/my_node_json.py:124-134 | one pass appends exactly the unit's moves |
| Nodes.TrackedMovesMembership | matts_tools/my_node_json.py:120-134 | a move is among the tracked moves exactly when some tracked unit is offered it |
| Nodes.MovesMembership | matts_tools/my_node_json.py:90-136 | the candidates are exactly None and the moves some tracked unit is offered |
| Nodes.TrackedMovesLength | matts_tools/my_node_json.py:120-134 | two or three moves per tracked unit |
| Nodes.TrackedMoves | matts_tools/my_node_json.py:120-134 | the moves of the tracked units in order; specified by TrackedMovesMembership, TrackedMovesLength and CollectMoves |
| Nodes.MovesShape | matts_tools/my_node_json.py:90-136 | None comes first, then 2 to 3 orders per tracked unit |
| Nodes.MovesOnlyQueens | matts_tools/my_node_json.py:114-118 | while a queen is in flight, every move after None commands a queen |
| Nodes.MovesRotations | matts_tools/my_node_json.py:124-125 | the rotations offered are exactly the legal new headings of each tracked unit |
| Nodes.MovesBuildHive | matts_tools/my_node_json.py:127-131 | a queen is told to build exactly when tracked and outside the hive footprint, whatever its energy |
| Nodes.MovesPlantFlower | matts_tools/my_node_json.py:104-134 | a seed is told to flower exactly when tracked and on a tile with neither a hive nor a flower |
| Nodes.HiveFootprintMembership | matts_tools/my_node_json.py:80-111 | with at most two hives, a tile is in the hive footprint exactly when, for one hive, each coordinate lies in [max(h - 2, 0), min(h + 2, 8)); with more hives, exactly when it is a hive tile |
| Nodes.NoBuildOnHive | matts_tools/my_node_json.py:108-131 | no queen is told to build on a hive's tile |
| Nodes.MovesNameUnits | matts_tools/my_node_json.py:90-136 | every move after None names a unit in flight with an order that unit can carry out |
| Nodes.MovesAccepted | matts_tools/my_node_json.py:90-136 | every candidate move is one `apply_command` accepts |
| Nodes.GradedNectarScore | matts_tools/my_node_json.py:225-231 | the loop computes the reference tiered score |
| Nodes.Graded | matts_tools/my_node_json.py:225-231 | `_graded_nectar_score`; specified by GradedNectarScore and the Graded lemmas below |
| Nodes.MulLe | matts_tools/my_node_json.py:229 | proof helper: non-negative points scale an order |
| Nodes.GradedFromNothing | matts_tools/my_node_json.py:225-231 | no nectar scores nothing |
| Nodes.GradedFirstTier | matts_tools/my_node_json.py:225-231 | within the first tier the score is points[0] times the nectar |
| Nodes.GradedFromMonotone | matts_tools/my_node_json.py:225-231 | more nectar never scores less |
| Nodes.GradedMonotone | matts_tools/my_node_json.py:225-231 | more nectar never scores less, for a whole tier list |
| Nodes.GradedFromBound | matts_tools/my_node_json.py:225-231 | no amount of nectar scores more than the full tiers |
| Nodes.GradedBound | matts_tools/my_node_json.py:225-231 | a hive scores at most the full tiers |
| Nodes.MidTiersCapped | algos/matts_algo.py:38-52 | the player's mid-stage tiers score at most 530 per hive |
| Nodes.MidTiersClosedForm | matts_tools/my_node_json.py:225-231 | the player's mid-stage tiers score 4 per unit up to 60, 3 per unit up to 150 and 2 per unit up to 160 |
| Nodes.MidTiersDiminish | matts_tools/my_node_json.py:225-231 | past 60 nectar, one more unit adds 3 up to 150, 2 up to 160 and 0 beyond: less than the first tier's 4 and never negative |
| Nodes.EarlyStageScore | matts_tools/my_node_json.py:160-195 | the loop computes the reference early score |
| Nodes.UnitBonusesBreakdown | matts_tools/my_node_json.py:184-193 | the units add 50 per queen, the seed bonus per seed and the workers' nectar |
| Nodes.EarlyScoreBreakdown | matts_tools/my_node_json.py:160-195 | the early score, term by term |
| Nodes.EarlyScore | matts_tools/my_node_json.py:160-195 | `early_stage_score`; specified by EarlyScoreBreakdown and EarlyScoreNectarMonotone |
| Nodes.SeedBonus | matts_tools/my_node_json.py:184 | 25 per seed up to 40 flowers, 2 beyond; used by EarlyScoreBreakdown |
| Nodes.UnitBonus | matts_tools/my_node_json.py:187-193 | what one unit adds to the early score; specified by UnitBonusesBreakdown |
| Nodes.NectarUpToMonotone | matts_tools/my_node_json.py:160-195 | more nectar in each hive never lowers a nectar prefix sum |
| Nodes.TotalNectarMonotone | matts_tools/my_node_json.py:160-195 | more nectar in each hive never lowers the total |
| Nodes.EarlyScoreNectarMonotone | matts_tools/my_node_json.py:160-195 | with a non-negative nectar factor, more hive nectar never lowers the early score |
| Nodes.MidStageScore | matts_tools/my_node_json.py:197-223 | the loop computes the reference mid score |
| Nodes.MidScore | matts_tools/my_node_json.py:197-223 | `mid_stage_score`; specified by MidStageScore and FlowerBonusesPartition |
| Nodes.FlowerBonusesPartition | matts_tools/my_node_json.py:215-221 | every flower earns exactly one of the three bonuses, the hive bonus first |
| Nodes.FlowerBonus | matts_tools/my_node_json.py:215-221 | the mid-stage bonus of one flower; specified by FlowerBonusesPartition |
| Nodes.ScaleSucc | matts_tools/my_node_json.py:215-221 | proof helper: one more flower adds its factor |
| Nodes.Score | matts_tools/my_node_json.py:148-158 | the stage's own score |
| Nodes.ScoreOf | matts_tools/my_node_json.py:148-158 | `score`, the stage's own scoring; specified by Score, EarlyScoreBreakdown and MidStageScore |
| Nodes.CoordToIndexInverse | matts_tools/my_node_json.py:233-234 | on the board the index is in range and gives the tile back |
| Nodes.CoordToIndex | matts_tools/my_node_json.py:233-234 | `coord_to_index`; specified by CoordToIndexInverse and CoordToIndexInjective |
| Nodes.DivModUnique | matts_tools/my_node_json.py:233-234 | proof helper: quotient and remainder are unique |
| Nodes.CoordToIndexInjective | matts_tools/my_node_json.py:233-234 | distinct board tiles have distinct indices |
| Nodes.TokensMembership | matts_tools/my_node_json.py:239-251 | a bucket holds exactly the strings of the items of that index |
| Nodes.Tokens | matts_tools/my_node_json.py:239-251 | one of the key's loops, as a bucket; specified by TokensMembership, TokensAppend and TokensSwap |
| Nodes.TokensCongruent | matts_tools/my_node_json.py:239-251 | item lists that agree on index and string give the same bucket |
| Nodes.TokensAnyBucket | matts_tools/my_node_json.py:239-251 | with every index below k, an item's string is in some bucket below k exactly when the item has one |
| Nodes.BucketsMembership | matts_tools/my_node_json.py:258 | the flattened buckets hold exactly the strings of each bucket |
| Nodes.Bucket | matts_tools/my_node_json.py:236-251 | the strings of the key under one tile index; specified by BucketsKinds, TileBuckets and KeyMembership |
| Nodes.BucketsKinds | matts_tools/my_node_json.py:237-251 | the buckets hold exactly the strings of the four loops |
| Nodes.UnitsInBuckets | matts_tools/my_node_json.py:245-251 | the two unit loops together give exactly the strings of every unit |
| Nodes.KeyMembership | matts_tools/my_node_json.py:236-259 | the key holds exactly the three counters and the string of every hive, flower and unit |
| Nodes.KeyIgnoresHiddenFields | matts_tools/my_node_json.py:236-259 | nodes differing only in ids, flower potency and expiry, or unit parameters share a key |
| Nodes.BucketsCongruent | matts_tools/my_node_json.py:236-259 | such nodes have the same buckets |
| Nodes.KeyIgnoresIds | matts_tools/my_node_json.py:236-259 | renaming a unit does not change the key |
| Nodes.TokensAppend | matts_tools/my_node_json.py:239-251 | a bucket over two lists in a row is the bucket of the first, then that of the second |
| Nodes.TokensElsewhere | matts_tools/my_node_json.py:239-251 | items none of which has index p add nothing to bucket p |
| Nodes.TokensSwap | matts_tools/my_node_json.py:239-251 | swapping two items of different indices, with no item between them sharing either index, keeps every bucket |
| Nodes.TokensSwapReorders | matts_tools/my_node_json.py:239-251 | with a third item on the index of one of the two, a swap reorders that bucket |
| Nodes.KeyIgnoresUnitOrder | matts_tools/my_node_json.py:236-259 | exchanging two units in flight on different tiles, with no unit between them on either tile, leaves the key unchanged |
| Nodes.KeyIgnoresOrderOnDistinctTiles | matts_tools/my_node_json.py:236-259 | when all units in flight stand on tiles of their own, exchanging any two leaves the key unchanged |
| Nodes.KeyOf | matts_tools/my_node_json.py:236-259 | `_key`; specified by KeyMembership, KeyIgnoresHiddenFields and KeyIgnoresUnitOrder |
| Nodes.AddTokens | matts_tools/my_node_json.py:239-251 | one loop appends to each bucket exactly the strings of its items |
| Nodes.FlattenBuckets | matts_tools/my_node_json.py:258 | flattening full buckets gives the reference buckets |
| Nodes.FlattenTail | matts_tools/my_node_json.py:253-258 | flattening distributes over a three-element tail |
| Nodes.HivesIndexed | matts_tools/my_node_json.py:239-240 | every hive on the grid has an index among the buckets |
| Nodes.FlowersIndexed | matts_tools/my_node_json.py:242-243 | every flower on the grid has an index among the buckets |
| Nodes.UnitsIndexed | matts_tools/my_node_json.py:245-251 | every unit on the grid has an index among the buckets |
| Nodes.PlacedBuckets | matts_tools/my_node_json.py:237-243 | the hive and flower loops fill each bucket with its hive and flower strings |
| Nodes.TileBuckets | matts_tools/my_node_json.py:237-251 | the four loops fill each bucket with its reference contents |
| Nodes.Key | matts_tools/my_node_json.py:236-259 | the loops compute the reference key |
| Nodes.WellFormedOnGrid | matts_tools/my_node_json.py:236-259 | a well-formed board is on the grid, so its key is defined |
| Nodes.GenChild | matts_tools/my_node_json.py:264-279 | a child exists exactly when the JSON decodes, with the size the JSON gives |
| Nodes.GenChildOfEncoding | matts_tools/my_node_json.py:264-279 | a node built from a board's own JSON holds that board |
| Nodes.PlayTurn | matts_tools/my_node_json.py:60-71 | rebuilding the board, playing, and reading back gives the reference tick |
| Nodes.GetChild | matts_tools/my_node_json.py:54-78 | the child is the reference child |
| Nodes.ChildOfFailedTick | matts_tools/my_node_json.py:54-78 | a tick that fails makes the child fail with the tick's error |
| Nodes.ChildOfPlayedTick | matts_tools/my_node_json.py:54-78 | a tick that succeeds makes the child the node one turn on, holding the ticked board and the move |
| Nodes.ReadChild | matts_tools/my_node_json.py:71-78 | the child holds the played board, the next turn and the command |
| Nodes.Child | matts_tools/my_node_json.py:54-78 | `get_child`; specified by GetChild, ReadChild and ChildOfMove |
| Nodes.ChildOfMove | matts_tools/my_node_json.py:54-78 | every offered move on a well-formed board has a well-formed, settled child one turn on that records the move |
| Search.MyScoreParamsDefined | algos/matts_algo.py:38-52 | both stages' tiers fit, and mid-game graded nectar is at most 530 |
| Search.StageOf | algos/matts_algo.py:135-138 | `game_stage`: early while there are at most five hives |
| Search.HiveNeighbourhood | algos/matts_algo.py:144 | `hive_footprint` of `matts_algo`, the size-1 footprints as written; specified through AdjacencyMembership |
| Search.FlowerNeighbourhood | algos/matts_algo.py:145 | `flower_footprint` of `matts_algo`, the size-1 footprints as written; specified through AdjacencyMembership |
| Search.AdjacentToHives | algos/matts_algo.py:141-147 | `adjacent_to_hives`; specified by AdjacencyMembership |
| Search.AdjacentToFlowers | algos/matts_algo.py:141-148 | `adjacent_to_flowers`; specified by AdjacencyMembership |
| Search.AdjacencyMembership | algos/matts_algo.py:141-148 | a tile is adjacent to the hives (or flowers) exactly when it holds no hive and, for one of them, each coordinate lies in [max(h - 1, 0), min(h + 1, 8)) |
| Search.AdjacencyLopsided | algos/matts_algo.py:144-147 | as written, the tile one step left of a lone hive is adjacent to it and the tile one step right is not |
| Search.RootNode | algos/matts_algo.py:126-164 | the node the search starts from; specified by RootSearchable |
| Search.Preprocess | algos/matts_algo.py:126-129 | keys, tiles and unit strings kept; every worker and queen carries the default parameters |
| Search.RootSearchable | algos/matts_algo.py:152-164 | the root of a well-formed board is searchable |
| Search.ChildSearchable | matts_tools/my_node_json.py:54-78 | every offered move has a searchable child |
| Search.LookaheadSound | algos/matts_algo.py:66-81 | the hive game expands searchable nodes into searchable children |
| Search.ChildAt | matts_tools/my_node_json.py:141-146 | the i-th child is searchable |
| Search.MaxChildrenIsMax | algos/matts_algo.py:66-81 | the reference is at least every child's score and attains one unless none beats `best` |
| Search.DfsTable | algos/matts_algo.py:66-81 | a search only adds or deepens records, keeps scores above the floor, and records the node at its depth with the score it returns |
| Search.DfsChildrenTable | algos/matts_algo.py:76-80 | the child loop only adds or deepens records, and never returns less than `best` |
| Search.DfsRepeat | algos/matts_algo.py:72-74 | searching a state with a recorded key no deeper answers from the table, the table unchanged |
| Search.DfsChildrenShallow | algos/matts_algo.py:76-78 | at depth 0 the table plays no part |
| Search.DfsChildren | algos/matts_algo.py:76-80 | the child loop of `dfs_max_score`; specified by DfsChildrenTable, DfsChildrenShallow and SearchChildren |
| Search.DfsOneTurn | algos/matts_algo.py:66-81 | a fresh one-turn search returns the reference maximum |
| Search.Dfs | algos/matts_algo.py:66-81 | `dfs_max_score` over the generic game; specified by DfsTable, DfsRepeat, DfsOneTurn and DfsMaxScore |
| Search.TranspositionTable.constructor | algos/matts_algo.py:124 | the table starts empty |
| Search.LookaheadAgrees | algos/matts_algo.py:66-81 | the hive game is sound and its functions are the node methods |
| Search.GameMoves | matts_tools/my_node_json.py:90-136 | the candidates, None first |
| Search.NextChild | matts_tools/my_node_json.py:141-146 | the i-th child |
| Search.Children | matts_tools/my_node_json.py:141-146 | one child per candidate, in order |
| Search.LeafScore | matts_tools/my_node_json.py:148-158 | the node's score |
| Search.NodeKey | matts_tools/my_node_json.py:236-262 | the node's key |
| Search.DfsMaxScore | algos/matts_algo.py:66-81 | the score and the new table are the reference search's |
| Search.SearchChildren | algos/matts_algo.py:76-78 | the best child score and the new table are the reference loop's |
| Search.BestOfIsFirstMax | algos/matts_algo.py:166-182 | the best is the first evaluation of greatest value above the floor, or the placeholder when none is |
| Search.BestOf | algos/matts_algo.py:166-182 | the best evaluation, as the `max` over `best_combo` keeps it; specified by BestOfIsFirstMax |
| Search.EvaluatedSnoc | algos/matts_algo.py:180-181 | recording a child's search keeps the evaluations consistent |
| Search.EvaluateMove | algos/matts_algo.py:180-182 | the evaluation recorded is exactly the reference search of the i-th child at depth - 1 from the old table, the table is the one that search leaves, and the best is updated as `max` does |
| Search.Round | algos/matts_algo.py:172-193 | the round makes exactly the evaluations of RoundMade: those of the round up to the first test that fires, or the whole round, after the old ones; the best is theirs; a round not cut short covers every move |
| Search.RoundUpTo | algos/matts_algo.py:172-182 | the first n evaluations of a round; specified by RoundUpToEntries and RoundUpToPrefix |
| Search.RoundUpToEntries | algos/matts_algo.py:172-182 | the first n evaluations of a round are n, of the moves in order, and in the first round each is that child's score |
| Search.RoundUpToPrefix | algos/matts_algo.py:172-182 | a shorter part of a round is a prefix of a longer one |
| Search.Rounds | algos/matts_algo.py:170-182 | the whole rounds up to a depth, one table threaded from empty; specified by RoundsPrefix and RoundsEvaluated |
| Search.RoundsPrefix | algos/matts_algo.py:170-182 | the rounds up to a depth are a prefix of the rounds up to any greater depth |
| Search.RoundsEvaluated | algos/matts_algo.py:170-182 | the whole rounds are consistent evaluations; there are none at depth 0 and at least one round's worth after |
| Search.RoundEvaluated | algos/matts_algo.py:172-182 | a part of a round made after the earlier rounds keeps the evaluations consistent |
| Search.RoundAdvance | algos/matts_algo.py:180-182 | one more evaluation extends the round by the search of the next child |
| Search.FirstStop | algos/matts_algo.py:184-188 | the first evaluation of a round after which the test fires, or the round's length when none does |
| Search.FirstStopAt | algos/matts_algo.py:184-188 | the evaluation after which the test fires first, none firing before it |
| Search.RoundMadeAt | algos/matts_algo.py:184-188 | a round ending at the first test that fires, or after every move, is what RoundMade describes |
| Search.RoundAtStart | algos/matts_algo.py:172-176 | a round starts with nothing of it evaluated and the best of the earlier evaluations |
| Search.RoundAtNext | algos/matts_algo.py:180-181 | before each evaluation the evaluations so far are consistent and have the lengths a child search needs |
| Search.RoundAtStep | algos/matts_algo.py:180-188 | recording the next child's search advances the round by one evaluation, `stop` being the test after it |
| Search.RoundAtEnd | algos/matts_algo.py:184-193 | a round that stops or runs out of moves has made what RoundMade describes, extending the old evaluations consistently |
| Search.Schedule | algos/matts_algo.py:170-203 | the evaluations of the whole deepening given the two stop tests; specified by SchedulePrefix, ScheduleWhole and DeepenStep |
| Search.SchedulePrefix | algos/matts_algo.py:170-203 | the schedule from a depth on extends the rounds before it (strictly, when there is a move) and is a prefix of the rounds up to depth 19 |
| Search.ScheduleWhole | algos/matts_algo.py:170-203 | with no test after an evaluation firing, the schedule is whole rounds; with no test after a round firing either, it is every round up to depth 19 |
| Search.DeepenStep | algos/matts_algo.py:170-199 | a round that stops, or after which the depth test fires, ends the schedule; otherwise the schedule continues at the next depth from the whole rounds so far |
| Search.ScheduleDone | algos/matts_algo.py:170-203 | the schedule is a prefix of the rounds up to depth 19, and whole rounds when no test after an evaluation fires |
| Search.Deepen | algos/matts_algo.py:166-201 | the evaluations are exactly the schedule from depth 1, a prefix of all rounds to depth 19, whole rounds when no test after an evaluation fires; at least one; all of offered moves; the first round scores each child; the answer is the best of them |
| Search.MattsAlgo | algos/matts_algo.py:86-203 | no unit in flight gives None; otherwise the answer is an offered move, the best of the evaluations, and those are exactly the schedule of the hive game from its root |

## Left out

- The clock: the tests against the time limit (algos/matts_algo.py:184-199) are the oracles
  `stopAfterEval` and `stopAfterDepth`.
- The branching-factor cost projection `bf_price` (algos/matts_algo.py:167-168): it only
  feeds the clock tests.
- The player registration hooks and game-over callbacks: they are glue to the game host.
- The Venus flytrap and other flower kinds: only the plain Flower is decoded.
- `getattr` dispatch by class name is written out as a match on the class name.
- Printing is left out.
- Nodes.Key: the key is a sequence of structured tokens, not the "%i" strings. The strings
  can coincide for different values: hives (1, 12) and (11, 2), both holding 3, give
  "h1123". So the source's table may merge states that the model keeps apart.
- Python's `hash` of the key is not part of this model. The transposition table is keyed by
  the key itself.
- Nodes.Key: it requires every item to be on the grid. Otherwise Python would index a
  bucket with a negative or too-large number.
- LiteBoard.from_json (matts_tools/lite_board.py:204-212) is left out. It omits the game
  parameters and would raise, and nothing in the core calls it.
- `__eq__` and `__ne__` are left out, because nothing in the core calls them.
- send_volants: the source computes a wrapped position for each unit off the board
  (matts_tools/lite_board.py:139-143) and then discards it. The model does not compute the
  position. It keeps the one effect of that computation: the `%` by a width or height of 0
  raises ZeroDivisionError, which the model returns as `Err(ZeroDivisionError)`.
- Simulation.Tick, Simulation.TickWellFormed, Board.LiteBoard.MakeTurn: they remove dead
  flowers with the corrected Simulation.ExpireFlowers, not the as-written step. When every old
  flower expires, the source raises NameError at matts_tools/lite_board.py:193; the model keeps
  one old flower instead (see Findings). Nodes.PlayTurn, Nodes.Child, Nodes.GetChild and the
  whole search build on Tick, so they inherit this divergence.
- Flowers, hives and units are values. The source mutates Flower and Bee objects in place
  inside its lists, so aliasing between lists is not modelled. The class writes the updated
  value back to its list.
- Exceptions are `Err` results: RuntimeError, TypeError, NameError.
- Fields of ScoreParameters that no score reads are dropped.
- A node keeps its decoded board and not the raw JSON. GetChild still encodes and decodes
  the board, as `get_child` does.
- Search.MattsAlgo: it requires a well-formed board (unique keys, known expiries, everything
  on the board). The source assumes the game host passes one in.
- heading_to_delta is not part of this model. It is the `delta` parameter of the world.
- `random.choice` is the `pick` parameter of the world.
- A queen that founds a hive on the tile of the only flower removes that flower, so the
  board can be left with no flower at all (Simulation.HiveFoundingClearsLastFlower). The
  model keeps this behaviour of the code.

## Findings

| source | as written | input that shows it | evidently intended | confidence | as-written member | corrected member |
|---|---|---|---|---|---|---|
| matts_tools/lite_board.py:193 | `choice(self.flowers)` is called, but lite_board.py never imports `choice` | one flower expiring at turn 5, at turn 5: NameError | keep one of the old flowers, chosen at random | not executed | Simulation.ExpireFlowersAsWritten, Simulation.ExpireFlowersAsWrittenFails | Simulation.ExpireFlowers, Simulation.ExpireFlowersCases |
| algos/matts_algo.py:55-63 | `range(max(c - size, 0), min(c + size, 8))` stops one short of c + size (the same code at matts_tools/my_node_json.py:80-88) | size 1 around (3, 3) holds (2, 3) but not (4, 3) | every tile within `size` in each coordinate | not executed | Tiles.FootprintAsWritten, Tiles.FootprintAsWrittenLopsided | Tiles.Footprint, Tiles.FootprintMembership |
| matts_tools/my_node_json.py:130 | `elif tracked_volant[4] <= 1 and not (tracked_volant[1], tracked_volant[2] in hive_locations)` negates a non-empty tuple, which is always true, so the branch is dead | a queen with 1 energy at (3, 4), the only hive at (3, 3): no "create_hive" | build when nearly out of energy and off every hive | not executed | Nodes.ExtraMoveAsWritten, Nodes.ExtraMoveExample | Nodes.ExtraMove, Nodes.ExtraMoveIntended |

The move generator, the hive footprint and the two adjacency sets use the code as written
(Tiles.FootprintAsWritten, Nodes.ExtraMoveAsWritten), so the search explores the moves the
source explores. The corrected definitions, with their properties proved, stand beside them.
Flower expiry is the exception: the tick, and so every child the search builds, uses the
corrected Simulation.ExpireFlowers.
