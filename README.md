# ai48 in Dafny: the 2048 engine and its Monte-Carlo AI

This project models the core of ai48, a TypeScript 2048 player. It covers:

- the game engine `Game2048` (src/2048/game.ts): a 4x4 grid of blocks, swipes in four directions, merges, score, largest tile, random spawns, game-over detection and cloning;
- the earlier engine without a score (src/2048/main.ts);
- the first draft of the engine (src/2048/game2048.ts);
- the flat occupancy grid (src/2048/grid.ts);
- the `Block` and `Position` value holders (src/2048/block.ts, src/2048/position.ts). `Cells.Block` models block.ts on its own terms; its getter agrees with the engine's `Value` of a cell with the same `open` flag and value;
- the AI `Game2048AI` (src/ai/ai.ts), which plays random continuations on clones and keeps the direction with the highest total;
- the statistics of the test harness `TestManager` (src/testmgr.ts).

Layout:

- The engine's grid is a flat `array<Cell>` of 16 slots. Slot `Index(i, j) = 4*i + j` holds grid[i][j].
- The classes keep the source's fields and update them in place.
- Each method is proved against a function on values in `EngineSpec`:
  - `Attempt` for one block's `attemptMove` loop;
  - `SweepPrefix` and `Sweep` for the four `swipe*` double loops, in the source's exact visiting order `OrderAt`;
  - `ResetFlags` for `resetCombineFlags`;
  - `SpawnedAt` for `addNewBlock`.
- The lemmas in `EngineSpec` state what a swipe means:
  - a sweep moves something exactly when some block can move in that direction;
  - an unmoving sweep leaves the state unchanged;
  - a sweep preserves the sum of the tiles;
  - score and largest never decrease;
  - there is always room for the spawn;
  - the game is over exactly when the board is full and no direction moves.

The block-level rule (`canMove`, `getNeighbor`, `moveTo`, `resetCombineFlag` and the `canCombine` flag) is not in src/2048/block.ts, so it is stated explicitly as an assumption in module `CellRules`. A block slides into an open neighbour. It merges into an equal neighbour when both may still combine; the merged cell holds twice the value, cannot combine again in that sweep, and the merge adds its value to the score.

src/2048/direction.ts is not part of this model. Direction codes 0, 1, 2, 3 are taken to be Up, Down, Left, Right, and any other code matches no case of the `swipe` switch.

Randomness:

- The position draws of `new Position()` are real parameters in [0, 1).
- The choice of the spawn cell and its value is a nondeterministic `:|` over the open cells and the allowed values.
- The AI's random continuation is a supplied sequence of direction codes.

## Model

| member | source | states |
|---|---|---|
| Directions.DirectionOf | src/2048/game.ts:140-153 | a direction code selects a swipe exactly when it is one of the four enum values 0..3 |
| Positions.NewPosition | src/2048/position.ts:16-18 | a supplied coordinate is kept; a missing one is drawn as floor(r*4), so it lies in 0..3 |
| Positions.RandomCoordinate | src/2048/position.ts:17 | floor(r*4) of a draw in [0,1) lies in 0..3 |
| Positions.SuppliedXIgnoresDraws | src/2048/position.ts:17-18 | a supplied x does not depend on the draws, and y is drawn independently of x |
| Positions.RandomPositionOnBoard | src/2048/position.ts:16-18 | a fully random position is always a cell of the 4x4 board |
| Cells.Value | src/2048/block.ts:8-10 | the value getter returns nothing for an open block and the stored value otherwise |
| Cells.Block.GetValue | src/2048/block.ts:8-10 | the getter returns no value exactly when the block is open or holds none, and the stored value when it is occupied |
| Cells.Block.SetValue | src/2048/block.ts:12-14 | the setter stores the value without touching `open`, and an occupied block then reads back that value |
| Cells.Block.constructor | src/2048/block.ts:16-19 | a new block is open and holds no value |
| Cells.TileValueDoubles | src/2048/game.ts:217-226 | doubling a tile value in a merge gives a larger tile value (a power of two, at least 4) |
| Cells.Num | src/2048/block.ts:8-10 | the numeric content of a well-formed cell is never negative, and at least 2 when occupied |
| CellRules.Neighbor | src/2048/game.ts:217-226 | the neighbour in a direction exists exactly when the block is not at that edge, and it is one step closer to the edge |
| CellRules.CanMove | src/2048/game.ts:219 | a block that can move is occupied and not at the edge in that direction; an occupied block whose neighbour is open can always move |
| CellRules.MoveBoard | src/2048/game.ts:219-223 | a move empties the source cell, fills the neighbour with the slid or merged value and changes no other cell |
| EngineSpec.Max | src/2048/game.ts:61-65 | the `largest` setter's result is the larger of the old and the offered value |
| EngineSpec.SumUpdate | src/2048/game.ts:217-226 | changing one cell changes a board sum by exactly that cell's difference |
| EngineSpec.Step | src/2048/game.ts:219-223 | one iteration of the `attemptMove` loop keeps the board well formed |
| EngineSpec.StepFacts | src/2048/game.ts:219-223 | one iteration sets `needNew`, empties the source cell, keeps the tile sum and never lowers score or largest |
| EngineSpec.Attempt | src/2048/game.ts:217-226 | following a block until it cannot move keeps the board well formed |
| EngineSpec.AttemptFacts | src/2048/game.ts:217-226 | `needNew` becomes set exactly when the block could move; a block that cannot move changes nothing; the tile sum is kept; score and largest never decrease |
| EngineSpec.StepMergesOnce | src/2048/game.ts:219-223 | a move never lets a cell combine that could not before; a merge needs both blocks still free to combine, leaves the merged cell unable to combine, doubles its value and adds that to the score |
| EngineSpec.AttemptOnlyClearsFlags | src/2048/game.ts:217-226 | following one block until it stops never lets a cell combine that could not before |
| EngineSpec.OrderAt | src/2048/game.ts:167-210 | the t-th block visited by a sweep is a cell of the board |
| EngineSpec.VisitOf | src/2048/game.ts:167-210 | every cell is visited by every sweep, at the step this function names |
| EngineSpec.SweepPrefix | src/2048/game.ts:167-210 | any prefix of a sweep keeps the board well formed |
| EngineSpec.SweepPrefixFacts | src/2048/game.ts:167-210 | any prefix of a sweep keeps the tile sum, never lowers score or largest and never clears `needNew` |
| EngineSpec.SweepOnlyClearsFlags | src/2048/game.ts:167-210 | between any two steps of a sweep flags are only cleared, so a cell merged into cannot be merged into again in the same swipe |
| EngineSpec.SweepPrefixNext | src/2048/game.ts:167-210 | a sweep prefix of t+1 steps is the prefix of t steps followed by the attempt on the (t+1)-th block |
| EngineSpec.SweepTraceOf | src/2048/game.ts:167-210 | every sweep has a trace: the 17 states before and after each of its 16 steps, starting at the given state and ending at the swept state |
| EngineSpec.TraceStep | src/2048/game.ts:167-210 | in a trace, the state after step `inner` of round `outer` is the `attemptMove` of the block the two loop counters name, from a well-formed state |
| EngineSpec.SweepPrefixMoves | src/2048/game.ts:167-226 | after t steps `needNew` is set exactly when one of the first t visited blocks could move on the original board; otherwise the state is unchanged |
| EngineSpec.SweepMovesIffMovable | src/2048/game.ts:139-162 | a swipe moves something exactly when some block can move in that direction; otherwise nothing changes; after a move an open cell exists for the spawn; the tile sum is kept; score and largest never decrease |
| EngineSpec.ResetFlags | src/2048/game.ts:231-237 | after the reset every cell may combine again and keeps its open flag and value |
| EngineSpec.ResetFlagsKeepsTiles | src/2048/game.ts:231-237 | the reset keeps the board well formed, is the identity on a reset board, and keeps open cells and the tile sum |
| EngineSpec.SumPointwise | src/2048/game.ts:231-237 | boards that agree cell by cell under a measure have the same sum |
| EngineSpec.SpawnEffect | src/2048/game.ts:278-286 | a spawn on an open cell keeps the board well formed, adds its value to the tile sum and one to the number of occupied cells |
| EngineSpec.EmptyBoardFacts | src/2048/game.ts:264-270 | a freshly filled grid is well formed, all open, with tile sum 0 |
| EngineSpec.EmptySums | src/2048/game.ts:264-270 | every prefix of the empty board has tile sum and occupied count 0 |
| EngineSpec.StuckInAllFour | src/2048/game.ts:119-127 | the four tests `isGameOver` makes on a block (occupied, and no move Left, Right, Down or Up) hold exactly when the block can move in no direction at all |
| EngineSpec.GameOverIffNoSwipeMoves | src/2048/game.ts:116-132 | the game is over exactly when no cell is open and no swipe direction moves anything |
| Game.NewGrid | src/2048/game.ts:252-270 | a new grid has 16 open, combinable, empty blocks |
| Game.Game2048.constructor | src/2048/game.ts:18-24 | a new game has score 0, largest 2 and exactly two occupied cells, each holding a combinable 2 |
| Game.Game2048.AddToScore | src/2048/game.ts:51-54 | the score grows by the given value, and the new score is returned |
| Game.Game2048.SetLargest | src/2048/game.ts:61-65 | `largest` becomes the maximum of its old value and the offered value |
| Game.Game2048.AddNewBlock | src/2048/game.ts:278-286 | exactly one open cell becomes a tile of value 2 (or 4 unless the two-flag is set) that keeps that cell's combine flag, and `needNew` is cleared |
| Game.Game2048.MoveTo | src/2048/game.ts:221 | a move updates the grid by the cell rule, adds the merge gain to the score and returns the neighbour's new value |
| Game.Game2048.AttemptMove | src/2048/game.ts:217-226 | the loop leaves the game in the state `Attempt` describes |
| Game.Game2048.AttemptVisit | src/2048/game.ts:170-171 | the sweep loops' body moves the game from one state of the sweep's trace to the next |
| Game.Game2048.SwipeLeft | src/2048/game.ts:167-174 | the double loop leaves the game in the state of a left sweep in the source's visiting order |
| Game.Game2048.SwipeRight | src/2048/game.ts:179-186 | the double loop leaves the game in the state of a right sweep in the source's visiting order |
| Game.Game2048.SwipeUp | src/2048/game.ts:191-198 | the double loop leaves the game in the state of an up sweep in the source's visiting order |
| Game.Game2048.SwipeDown | src/2048/game.ts:203-210 | the double loop leaves the game in the state of a down sweep in the source's visiting order |
| Game.Game2048.SweepFor | src/2048/game.ts:140-153 | the `switch` of `swipe` runs the sweep of the selected direction, and none for an unknown code |
| Game.Game2048.ResetCombineFlags | src/2048/game.ts:231-237 | every cell may combine again and nothing else changes |
| Game.Game2048.IsGameOver | src/2048/game.ts:116-132 | the answer is true exactly when every block is occupied and cannot move in any direction |
| Game.Game2048.Swipe | src/2048/game.ts:139-162 | the result is true exactly when the code is a direction in which some block can move; otherwise nothing changes; on a move, score and largest are those of the sweep and one tile of value 2 or 4 is spawned on the reset board, raising the tile sum by its value |
| Game.Game2048.GetClone | src/2048/game.ts:94-110 | the clone is a new game with its own new grid and the same grid contents, score, largest and `needNew` |
| AI.BestIsUnique | src/ai/ai.ts:27-39 | the best-move characterisation picks a single direction |
| AI.Game2048AI.constructor | src/ai/ai.ts:19-22 | the AI keeps the game and the number of runs |
| AI.Game2048AI.RunClone | src/ai/ai.ts:62-71 | a run fails exactly when the first swipe does not move the current game; otherwise its score is at least the current score |
| AI.Game2048AI.RunSimulation | src/ai/ai.ts:46-55 | the total fails exactly when there is at least one run and the direction does not move; otherwise it is the sum of one final score per run, each at least the current score, and 0 when `numRuns` is not positive |
| AI.TotalAppend | src/ai/ai.ts:52 | adding one more rollout score to the running total adds exactly that score |
| AI.TotalAtLeast | src/ai/ai.ts:46-55 | a total of scores that are each at least m is at least their number times m |
| AI.Game2048AI.GetBestMove | src/ai/ai.ts:27-39 | the chosen direction is the first one with the strictly highest positive total, or direction 0 when no total is positive (so always 0 when `numRuns` is not positive); each total fails exactly when that direction cannot move, and otherwise is at least the number of runs times the current score |
| LegacyGame.Game2048.constructor | src/2048/main.ts:23-28 | a new game has largest 2 and exactly two occupied cells, each holding a combinable 2 |
| LegacyGame.Game2048.SetLargest | src/2048/main.ts:14-18 | `largest` becomes the maximum of its old value and the offered value |
| LegacyGame.Game2048.AddNewBlock | src/2048/main.ts:209-217 | exactly one open cell becomes a tile of value 2 (or 4 unless the two-flag is set), and `needNew` is cleared |
| LegacyGame.Game2048.MoveTo | src/2048/main.ts:154 | a move updates the grid by the cell rule and returns the neighbour's new value |
| LegacyGame.Game2048.AttemptMove | src/2048/main.ts:150-159 | the loop leaves grid, largest and `needNew` as `Attempt` describes |
| LegacyGame.Game2048.AttemptVisit | src/2048/main.ts:103-104 | the sweep loops' body moves grid, largest and `needNew` from one state of the sweep's trace to the next |
| LegacyGame.Game2048.SwipeLeft | src/2048/main.ts:100-107 | the double loop leaves grid, largest and `needNew` as a left sweep does |
| LegacyGame.Game2048.SwipeRight | src/2048/main.ts:112-119 | the double loop leaves grid, largest and `needNew` as a right sweep does |
| LegacyGame.Game2048.SwipeUp | src/2048/main.ts:124-131 | the double loop leaves grid, largest and `needNew` as an up sweep does |
| LegacyGame.Game2048.SwipeDown | src/2048/main.ts:136-143 | the double loop leaves grid, largest and `needNew` as a down sweep does |
| LegacyGame.Game2048.ResetCombineFlags | src/2048/main.ts:164-170 | every cell may combine again and nothing else changes |
| LegacyGame.Game2048.IsGameOver | src/2048/main.ts:30-46 | the answer is true exactly when every block is occupied and cannot move in any direction |
| LegacyGame.Game2048.Swipe | src/2048/main.ts:74-95 | a swipe that moves nothing leaves grid and largest unchanged; one that moves takes largest from the sweep and spawns one tile on the reset board, adding one occupied cell |
| EarlyGame.Seed | src/2048/game2048.ts:40-43 | seeding a position keeps the board at 16 cells |
| EarlyGame.IndexInjective | src/2048/game2048.ts:40-43 | distinct board positions name distinct slots |
| EarlyGame.SeededCount | src/2048/game2048.ts:33-44 | seeding two positions gives two tiles summing to 4 when they differ, and one tile of 2 when they coincide |
| EarlyGame.SameDrawSeedsOneCell | src/2048/game2048.ts:33-44 | drawing the same cell twice leaves only one occupied cell |
| EarlyGame.Game2048.constructor | src/2048/game2048.ts:7-10 | the grid is the empty board seeded at the two drawn positions |
| EarlyGame.Game2048.FillGrid | src/2048/game2048.ts:25-31 | every slot holds a new open block |
| EarlyGame.Game2048.SetInitBlocks | src/2048/game2048.ts:33-44 | as written: both drawn positions are seeded with 2, whether or not they coincide |
| EarlyGame.Game2048.SetInitBlocksDistinct | src/2048/game2048.ts:33-44 | corrected: the second position is redrawn until it differs, so the new grid holds exactly two tiles summing to 4 |
| EarlyGame.Game2048.SeedCell | src/2048/game2048.ts:40-43 | one cell becomes occupied with value 2 |
| FlatGrid.JsRem4 | src/2048/grid.ts:35-38 | JavaScript's `%` by 4 leaves a remainder strictly between -4 and 4 that differs from the dividend by a multiple of 4 and is never negative for a non-negative dividend nor positive for a non-positive one |
| FlatGrid.Grid.constructor | src/2048/grid.ts:8-11 | a new grid has all 16 occupancy entries 0 and no values |
| FlatGrid.Grid.At | src/2048/grid.ts:13 | reading the typed array gives a value exactly for an index in range |
| FlatGrid.Grid.AddTile | src/2048/grid.ts:12-19 | the tile is added exactly when the slot was empty, which sets occupancy 1 and stores the value; otherwise nothing changes |
| FlatGrid.Grid.RemoveTile | src/2048/grid.ts:21-23 | the slot's occupancy becomes 0 and the stored value stays; an out-of-range index changes nothing |
| FlatGrid.Grid.IsNeighborOpen | src/2048/grid.ts:25-42 | the query fails exactly for a code that is not a direction |
| FlatGrid.FlatNeighbor | src/2048/grid.ts:25-42 | a neighbour the flat grid inspects is one of the 16 slots |
| FlatGrid.NeighborOpenOnBoard | src/2048/grid.ts:25-42 | for a valid code the answer is true exactly when the neighbour exists and its occupancy is 0 |
| FlatGrid.NeighborClosedAtEdges | src/2048/grid.ts:28-38 | at each edge the neighbour in that direction is reported closed |
| Stats.Reached | src/testmgr.ts:61-64 | a threshold counter is incremented exactly when the largest tile reaches the threshold |
| Stats.TestManager.constructor | src/testmgr.ts:29-41 | every total and counter starts at zero, and the settings are kept |
| Stats.TestManager.UpdateStats | src/testmgr.ts:56-65 | totals grow by the game's score and moves; the high score and largest are running maxima; each counter grows exactly when its threshold is reached, so the counters stay nested |

## Left out

- Display and rendering (`display`, `render`, `outputTrialResults`, `outputResults`) are console output only.
- The averages computed by `Math.round` in `outputResults` are left out; they are floating-point output only.
- The spawn probabilities are not modelled. The 10% chance of a 4 in src/2048/game.ts and the 25% chance in src/2048/main.ts are a nondeterministic choice between 2 and 4.
- The rejection loop of `addNewBlock` that redraws positions until it finds an open cell is modelled as a choice among the open cells. Its termination in probability is not modelled.
- Game.Game2048.AddNewBlock: requires an open cell. The source loops forever on a full board, which is never reached, because `swipe` only spawns after a block moved and a move always leaves an open cell (`SweepMovesIffMovable`).
- AI.Game2048AI.RunClone: the random continuation `Math.floor(Math.random() * 4)` is a supplied sequence of direction codes. The model stops when the game is over or the sequence is exhausted, so it does not claim the source's loop terminates.
- AI.Game2048AI.RunClone: states a lower bound on the returned score, not its exact value, which depends on the random spawns.
- `runTrials` in src/testmgr.ts and the wiring in src/main.ts drive whole games through random choices and console output. They are not modelled; `UpdateStats` is.
- `getGrid`, `getScore` and `getLargest` are plain field reads; the model reads the fields directly.
- `Block.position` is never read by the engine, so it is not modelled.
- Block objects live as values in a flat array. Aliasing between Block objects is not modelled; the source never shares a block between two slots.
- The block rule (`canMove`, `getNeighbor`, `moveTo`, `resetCombineFlag`, `canCombine`) is not in src/2048/block.ts. It is the assumed standard rule stated in module `CellRules`.
- src/2048/direction.ts is not part of this model. The codes 0..3 are assumed to be Up, Down, Left, Right.
- A conservation law of the form "tile sum after a swipe = tile sum before + score gained" does not hold: a merge of two v tiles keeps the sum and adds 2v to the score. The model proves that a sweep keeps the tile sum and that a swipe adds exactly the spawned value.
- That a slot is merged into at most once per swipe is proved per slot (`StepMergesOnce`, `SweepOnlyClearsFlags`). That a tile which merged and then slid cannot merge again is not stated, because the sliding tile takes the flag of the slot it enters.
- Numbers are unbounded integers. JavaScript doubles are exact for every reachable tile value and score.

## Findings

| source | as written | input that shows it | evidently intended | confidence | as-written member | corrected member |
|---|---|---|---|---|---|---|
| src/2048/game2048.ts:36-39 | `p1 != p2` compares two Position objects by identity, so it is always true and the loop exits on its first pass | both draws give Position(1, 2): one cell is seeded twice and the new game has a single tile | redraw the second position until it differs from the first, so the game starts with two tiles | not executed | EarlyGame.SameDrawSeedsOneCell | EarlyGame.Game2048.SetInitBlocksDistinct |
