# Shut the Box: a verified model of the solver core

This project models the solver in `game.py` of the `shut_the_box` repository,
and proves properties of that model, in Dafny. The solver plays a two-player
variant of Shut the Box with tiles 1..9:

- Player1 rolls and closes tiles until no split of the open tiles matches
  the roll. Its score is the sum of the tiles left open.
- Player2 then plays on a full box and must finish strictly below that score.
- A value is the winning probability of the player whose turn it is.
  Player1's values are Player1's chance of winning. Player2's values are
  Player2's chance of finishing below Player1's score: 1.0 once its sum is
  below that score, 0.5 on a tie, 0.0 when it is stuck above. When Player1
  can close no tile, it hands over to Player2 and takes the complement
  `1.0 - p2_v`.

The model has two parts, as the program does.

- **Subset index** (`Game._subset_memo`).
  - The search `dfs` walks the positions of a tile tuple. At each position it
    either takes the tile (`visited`) or leaves it (`excluded`).
  - Each leaf's pair is recorded under `(S, sum(visited))`.
  - `_generate_all_subsets` runs the search on (1..9) and then on every chosen
    side it found.
  - The model is the class `SubsetIndex.Game`, which updates a
    `map<Key, set<Split>>` in place. Each of its methods is proved against a
    pure specification of the search (`Leaves`) and of the splits of a
    sequence (`Partitions.Splits`).
  - The proofs show:
    - every split partitions its tuple;
    - there are 2^|S| splits, all distinct;
    - the `sumVisited > 45` cut never fires on a tile set;
    - after indexing the universe, every tile set and target maps to exactly
      its splits summing to that target, and every other key reads as empty.
- **Value recurrence** (`Player1._expected_value`, `Player2._expected_value`,
  `Player._optimal_move`).
  - The exact expectimax is written as pure functions over `real`
    (`Values.Stochastic1`, `Values.Decision1`, `Values.Stochastic2`,
    `Values.Decision2`). The proofs show every value lies in [0, 1] and every
    decision takes the best legal move.
  - The memoising methods of `Players.Player` fill the shared
    `Players.ValueTable`. They are proved to return exactly these values.
  - The table invariant `Valid` holds throughout: every stored entry equals
    the exact value of its key. So a cache hit and a recomputation agree.
  - Keys cannot collide across the two roles, by the predicate `Ready`:
    - Player1 uses threshold 0;
    - an opponent created by Player1 uses the sum of a non-empty tile set,
      which is at least 1.
  - `_optimal_move` returns one of three outcomes: no move (`[]`), an optimal
    legal move of positive value, or `NoPositiveMove` for the case where every
    move is worth 0.0. In that last case the program raises (`list(None)`).

Tile tuples are strictly increasing `seq<int>` over 1..9, as produced by the
search and used as dictionary keys. Rolls are `Option<int>`: `None` and `0`
are both "about to roll", because the program tests `not r`.

## Model

| member | source | states |
|---|---|---|
| `Tiles.UniverseFacts` | game.py:20 | the start tuple is (1, ..., 9): a tile set of nine tiles summing to 45 |
| `Tiles.TileSetSum` | game.py:53 | every tile set sums to between 0 and 45, and a non-empty one to at least 1; so the 45 cut never fires, and a threshold handed to Player2 is positive |
| `Tiles.TileSetInUniverse` | game.py:79-81 | every tile set is a subsequence of (1, ..., 9), so the second pass reaches it as a chosen side |
| `Partitions.SplitsCount` | game.py:51-70 | a tuple of n tiles has 2^n splits |
| `Partitions.SplitsSound` | game.py:62-66 | every split interleaves its two sides into the tuple |
| `Partitions.SplitsComplete` | game.py:62-66 | every interleaving of two sides into the tuple occurs among its splits |
| `Partitions.SplitPartitions` | game.py:56-57 | the two sides of a split keep the tuple's order, hold exactly its tiles with multiplicity, and are disjoint for an increasing tuple; their lengths and sums add up to the tuple's; both sides of a tile set are tile sets |
| `Partitions.SplitsDistinct` | game.py:56-59 | on an increasing tuple no two splits have the same chosen side, so none is lost in the set |
| `Partitions.Complement` | game.py:64-65 | the tiles left out of a subsequence form the other side of a split |
| `SubsetIndex.Lookup` | game.py:131 | a read of the `defaultdict(set)` index: the stored set under the key, or the empty set for a key never written |
| `SubsetIndex.Leaves` | game.py:51-68 | the leaves of `dfs` from position i, in search order, with a branch cut once its running sum exceeds 45; there are at most 2^(n − i) of them |
| `SubsetIndex.LeavesExtend` | game.py:54-66 | every leaf of the search, cut or not, extends the decisions already taken: its chosen side begins with `visited` and its other side with `excluded` |
| `SubsetIndex.LeavesUnpruned` | game.py:53-67 | when the running sum cannot exceed 45, the cut search yields exactly the splits of the rest of the tuple, extended by the decisions already taken |
| `SubsetIndex.SearchFindsAllSplits` | game.py:51-70 | on a tile set the search from position 0 produces exactly the 2^n splits of the tuple |
| `SubsetIndex.IndexCompleteFrom` | game.py:73-81 | indexing a tile set that contains every tile set records under every tile set and target exactly the splits summing to the target, and nothing under other keys |
| `SubsetIndex.UniverseIndexComplete` | game.py:73-81 | indexing (1, ..., 9) yields the complete index |
| `SubsetIndex.IndexedSplitPartitions` | game.py:56-59 | every split stored under (S, r) in the complete index partitions S, keeps its order, and has a chosen side summing to r |
| `SubsetIndex.AllOrNothing` | game.py:59 | the only split of a tile set summing to its total takes every tile; the only one summing to 0 takes none |
| `SubsetIndex.UniverseExtremes` | game.py:59 | in the universe, target 45 has only the split that takes all nine tiles, and target 0 only the split that takes none |
| `SubsetIndex.Game.constructor` | game.py:10 | the index starts empty |
| `SubsetIndex.Game.Dfs` | game.py:51-68 | returns the leaves of the search from position i in search order, and adds each leaf to the index under (S, sum of its chosen side), leaving other keys alone |
| `SubsetIndex.Game.GenerateSubsets` | game.py:42-71 | returns every split of S that the search reaches, and records each one under its chosen side's sum |
| `SubsetIndex.Game.GenerateAllSubsets` | game.py:73-82 | adds the splits of S and of every chosen side found in it, and nothing else |
| `SubsetIndex.Game.IndexUniverse` | game.py:20 | starting from the empty index, indexing (1, ..., 9) gives the complete index |
| `Dice.DiceTables` | game.py:91-101 | the two-dice weights are the triangular law (6 − abs(r − 7))/36 for r in 2..12; both tables are non-negative and sum to 1 |
| `Dice.PartialPrefix` | game.py:243 | summing the first n terms of a list is unaffected by what is appended after them |
| `Dice.TotalAppend` | game.py:243 | `sum(v_arr)` grows by exactly the appended term |
| `Values.Pending` | game.py:160 | Python's `not r` on the roll: no roll and roll 0 both mean the player is about to roll |
| `Values.Moves` | game.py:186 | the legal moves for roll r are exactly the splits whose chosen side sums to r; there is none exactly when no split sums to r; for r ≠ 0 each leaves fewer tiles |
| `Values.MaxFloor` | game.py:200-204 | `max_v` starting at 0.0 is non-negative, at least every value, and either 0.0 or one of the values |
| `Values.MaxFloorUnique` | game.py:200-204 | any number with those three properties equals that maximum |
| `Values.Scale` | game.py:173 | a probability weighted by a table weight lies between 0 and the weight |
| `Values.Stochastic1` | game.py:160-183 | Player1's value before a roll is a probability, in [0, 1] |
| `Values.RollSum1` | game.py:167-180 | the dice-weighted sum over the first n rolls lies between 0 and the sum of their weights |
| `Values.Decision1` | game.py:185-207 | Player1's value after a roll is a probability, in [0, 1] |
| `Values.Value1` | game.py:153-207 | every Player1 state has a value in [0, 1] |
| `Values.Stochastic2` | game.py:221-244 | Player2's value before a roll, its own chance of finishing below Player1's score, is a probability in [0, 1] |
| `Values.RollSum2` | game.py:228-243 | the dice-weighted sum over the first n rolls lies between 0 and the sum of their weights |
| `Values.Decision2` | game.py:246-268 | Player2's value after a roll is a probability, in [0, 1] |
| `Values.Value2` | game.py:213-268 | every Player2 state has a value in [0, 1] |
| `Values.Decision1IsBest` | game.py:200-205 | Player1's decision value is at least every legal move's value, and with a legal move it is 0.0 or attained by a move |
| `Values.Decision2IsBest` | game.py:259-267 | the same for Player2's decision value |
| `Players.KeyValue` | game.py:157-158 | what a `_v_table` entry under (S, r, t) stands for: in a run started by Player1, threshold 0 marks Player1's own states and any other threshold a Player2 state; in a run started by Player2 every key is a Player2 state; every entry is a probability in [0, 1] |
| `Players.Decision1FromSet` | game.py:200-205 | over the set of recorded moves, a value that is non-negative, bounds every move and is 0.0 or attained is Player1's decision value |
| `Players.Decision2FromSet` | game.py:251-267 | the same for Player2, including the fall-through to 0.0 when no move exists and the tile sum is below t |
| `Players.NoMoves` | game.py:188 | with no split summing to the roll there is no legal move |
| `Players.ActionsShrink` | game.py:201-203 | every legal move for a non-zero roll leaves a tile set with fewer tiles |
| `Players.ValueTable.constructor` | game.py:11 | the value table starts empty and valid |
| `Players.Player.constructor` | game.py:85-105 | the player holds its role, action, tiles, threshold, roll and the shared index and table |
| `Players.Player.ExpectedValue1` | game.py:153-207 | returns Player1's exact value of (S, r), whether from the table or computed; keeps the table valid; keeps every key; leaves the state stored |
| `Players.Player.RollTurn1` | game.py:160-183 | the accumulated `v_sum` is the exact stochastic value: 1.0 on an empty box, else two dice over rolls 2..12 above a sum of 6, one die over rolls 1..6 otherwise |
| `Players.Player.WeighRolls1` | game.py:169-180 | the `v_sum += p * v` loop over rolls lo, lo + 1, ... returns the dice-weighted sum of Player1's decision values, and keeps the table valid |
| `Players.Player.Concede1` | game.py:187-197 | with no split summing to the roll, returns 1 − the value of a Player2 on a full box that must finish below Player1's tile sum, which is Player1's exact decision value |
| `Players.Player.ChooseMove1` | game.py:185-207 | returns the exact decision value: the concession value when no move exists, else the best remainder value (0.0 at least) over the recorded moves |
| `Players.Player.ExpectedValue2` | game.py:213-268 | returns Player2's exact value of (S, r) against threshold t; keeps the table valid; keeps every key; leaves the state stored |
| `Players.Player.RollTurn2` | game.py:221-244 | `sum(v_arr)` is the exact stochastic value: 1.0 below t, else two dice at or above max(7, t), one die from min(0, t) to 6 |
| `Players.Player.WeighRolls2` | game.py:230-241 | the `v_arr.append(p * v)` loop returns one term per roll, and `sum(v_arr)` is the dice-weighted sum of Player2's decision values; keeps the table valid |
| `Players.Player.ChooseMove2` | game.py:246-268 | returns the exact decision value: 0.5 on a tie and 0.0 above t when no move exists, else the best remainder |
| `Players.Player.ExpectedValue` | game.py:142 | dispatches on the role and returns the exact value of that player's state, in [0, 1] |
| `Players.Player.OptimalMove` | game.py:126-147 | returns no move exactly when no split sums to r; otherwise the chosen side of a legal move whose remainder value is positive and at least every other move's; or NoPositiveMove when every move is worth 0.0 |
| `Players.Player.Play` | game.py:107-117 | in expect mode returns the value of the start state; in move mode returns the move outcome for the roll: no move exactly when no split sums to it, else the chosen side of a legal move whose remainder value is positive and at least every other move's, or NoPositiveMove only when every move is worth 0.0 |
| `Players.RunGame` | game.py:13-36 | after indexing the universe on a fresh table, the chosen player's answer is the exact value of its start state, or for its roll (the fourth value for Player1, the fifth for Player2) no move exactly when no split sums to it, else an optimal legal move of positive value, or NoPositiveMove when every move is worth 0.0 |
| `Players.ShutLastTile` | game.py:126-147 | Player1 on the single tile 9 with roll 9 plays exactly [9] |
| `Players.NoMoveBelowRoll` | game.py:131-135 | Player1 on the single tile 1 with roll 5 has no move (`[]`) |

## Left out

- `main.py` is not part of this model. It is command-line parsing. The printing and `f"{res:.6f}"` formatting of `Game.run` are left out too. `RunGame` returns the result instead.
- Floating point. Probabilities are exact rationals (`real`). The program's floats only approximate k/36 and 1/6, so its printed values can differ in the last digits.
- `Players.Player.OptimalMove`: it does not say which of several equally good moves is returned. The moves sit in a Python `set`, and its iteration order depends on hashing. The loops pick an arbitrary unvisited action instead.
- `defaultdict` side effects. A missing key reads as the empty set (`Lookup`). The insertion of that empty set by the read is not modelled; it changes no result.
- `visited`/`excluded` are passed by value. The program shares two lists and pushes and pops them; each call sees the same contents either way. This sharing is not modelled.
- `Player.__init__` converts the tile string to integers. The model takes the tiles as integers and requires them to form a tile set.
- `Players.Player.ChooseMove1` requires a non-empty box. With no tiles and a non-zero roll, the program would create a Player2 with threshold 0, whose table keys collide with Player1's own. `play` and `_optimal_move` never reach that state: an empty box is always met before a roll, and its value is 1.0.
- `Players.Player.Concede1` requires a non-empty box for the same reason.
- The Player2 decision with no move and tile sum below t falls through to 0.0 in the model, as it does in the program. A stochastic state never leads to it, since below t it returns 1.0 first.
- Performance. Memoisation changes speed only. The model states its correctness (the table invariant) but not its cost.
