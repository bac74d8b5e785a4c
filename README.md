# Rugby agents: the per-turn move-selection engine

This project models the engine that both agents of the rugby game run once
per turn. The attacker runs `execute_attacker_strategy` in `src/attacker.c`
and the defender runs `execute_defender_strategy` in `src/defender.c`.

Each turn the engine does four things:

- It keeps a persistent 100×100 grid of known barriers. Row 0 and column 0
  start blocked. A cell becomes blocked when the agent did not reach the cell
  it meant to move to on the previous turn.
- It keeps a guess of the opponent's position. A single spy read replaces it.
- It keeps a vertical-priority flag. The flag may change after a drawn number
  of turns, and it is forced when the spy is read.
- It scores the nine moves with a 3×3 integer matrix, built in four
  multiplicative stages: barrier, enemy proximity, goal column and vertical
  priority. It then draws a move with probability proportional to its weight,
  by walking the matrix in row-major order with cumulative sums.

The modules follow the program's structure:

- `Grid` (grid.dfy): positions and moves, the Chebyshev distance, and the
  barrier grid with its initialisation and lookup.
- `Spying` (spying.dfy): the opponent's spy, seen as a use count and a
  position. Reading the position counts as a use.
- `MoveWeights` (move_weights.dfy): the stages both sides share, on an
  `array2<int>` changed in place; the sampler; and the pure functions that
  specify them. `StagedWeights` gives the nine weights after all stages and
  `Select` gives the entry the walk picks.
- `Defender` (defender.dfy) and `Attacker` (attacker.dfy): each side's
  tables, its first guess of the opponent, its proximity stage and the
  ranges of its draws.
- `Strategy` (strategy.dfy): a `Controller` class whose fields are the
  `static` locals of `execute_*_strategy`, and `Controller.Execute`, one turn.
  A `Side` value selects the attacker's or the defender's constants and rules.

Every `rand()` call site becomes an explicit natural number in a `Draws`
value. The code's modulo shape is kept, e.g. `5 + r % 15`. The sampler's
draw is `choice % Total(weights)`.

Facts about the code that its comments or a quick reading may suggest otherwise:

- The comments at `src/defender.c:84-85` and `src/attacker.c:79-80` speak of
  the left and the right of the grid. The code keeps the agent's column `j`
  and overwrites the row `i`: with 98 for the attacker, with 1 for the defender.
- The spy is read when its use count is not exactly 1 and the move count has
  reached the countdown (`src/defender.c:238-262`).
- The agent's own cell is one of the nine candidates. When every neighbour
  except the one to the right is blocked, the turn stays or moves right
  (`Strategy.OnlyRightNeighbourOpen`).
- The sum of the weights that `rand() % sum` divides by is positive exactly
  when some target is open (`Strategy.TotalPositiveIffSomeOpen`). Each turn
  requires that some target is open after this turn's barrier registration
  (`Controller.HasOpenMove`).

## Model

| member | source | states |
|---|---|---|
| Grid.DistanceIsChebyshev | src/defender.c:60-72 | `get_distance` is the larger of the two coordinate gaps, never negative, and zero exactly between a cell and itself |
| Grid.DistanceTriangle | src/defender.c:70-72 | the distance satisfies the triangle inequality |
| Grid.MoveWeightToDirection | src/defender.c:74-76 | every entry (i, j) of the 3×3 matrix maps to a unit move, and (1, 1) is the only entry that maps to "stay" |
| Grid.MoveWeightToDirectionInjective | src/defender.c:74-76 | distinct matrix entries map to distinct moves |
| Grid.EveryMoveHasAnEntry | src/defender.c:74-76 | each of the nine unit moves is the move of a matrix entry |
| Grid.BorderIsBarrier | src/defender.c:78-80 | the lookup of an in-grid cell in row 0 or column 0 reports a barrier while the border stays blocked; out-of-range lookups are excluded by `InGrid` |
| Grid.InitBarriers | src/defender.c:51-58 | afterwards a cell is blocked exactly when its row or column is 0 |
| Spying.Spy.GetPosition | src/defender.c:263 | reading the spy returns the opponent's true position and counts one more use |
| MoveWeights.BlockedAroundAt | src/defender.c:116-118 | flag (i, j) of the nine-flag vector is the barrier flag of the target of entry (i, j) |
| MoveWeights.SomeOpenTarget | src/defender.c:111-123 | some flag of the vector is clear exactly when some target around the agent is not a barrier |
| MoveWeights.CalculateEnemyProximity | src/defender.c:94-96 | the proximity is one more than the distance, so it is at least 1 |
| MoveWeights.ProximityOneOnlyAtEnemy | src/attacker.c:89-91 | the proximity is 1 exactly on the opponent's cell |
| MoveWeights.DistanceValuesAt | src/defender.c:132-138 | entry (i, j) of the distance vector is the proximity of the target of entry (i, j) |
| MoveWeights.CellsOfDistances | src/defender.c:132-138 | a matrix holding each target's proximity holds the distance vector in row-major order |
| MoveWeights.ScaleLiveKeepsSign | src/defender.c:150-183 | a later stage keeps a zero entry at zero, and with a positive factor keeps a positive entry positive |
| MoveWeights.VerticalIndex | src/defender.c:179-181 | the vertical table is read at row i, or at 2 - i when the priority is up, and always within the table |
| MoveWeights.StagedWeightPositiveIffOpen | src/defender.c:103-184 | with positive factors one entry ends positive exactly when its target is open, and then equals the product of its three factors |
| MoveWeights.StagedWeightsAt | src/defender.c:282-286 | entry (i, j) of the staged matrix is the four stages applied to that entry's flag, proximity, goal factor j and vertical factor |
| MoveWeights.StagedWeightsPositiveIffOpen | src/defender.c:150-184 | with positive tables every final weight is non-negative, and it is positive exactly when its target is open |
| MoveWeights.InitMoveWeights | src/defender.c:103-109 | afterwards every entry is 1 |
| MoveWeights.UpdateWeightsByBarrierExistence | src/defender.c:111-123 | a live entry whose target is a barrier becomes 0; every other entry is unchanged |
| MoveWeights.UpdateWeightsByGoalDistance | src/defender.c:163-171 | every live entry in column j is multiplied by the goal factor j; zero entries stay zero |
| MoveWeights.UpdateWeightsByVerticalPriority | src/defender.c:173-184 | every live entry in row i is multiplied by the vertical factor of i, or of 2 - i when the priority is up; zero entries stay zero |
| MoveWeights.SelectFrom | src/defender.c:195-204 | the walk from entry k stops at an entry no earlier than k, or after the last entry |
| MoveWeights.SelectWithinInterval | src/defender.c:193-207 | for a reduced draw in [0, total), the walk stops at an entry whose cumulative interval holds the draw; that entry is positive and the DIR_RIGHT fallback is not reached |
| MoveWeights.PrefixMonotone | src/defender.c:194-199 | with non-negative weights the running sum never decreases |
| MoveWeights.IntervalBeforeLater | src/defender.c:196-200 | with non-negative weights a draw inside an entry's interval lies before the interval of every later entry |
| MoveWeights.SelectUnique | src/defender.c:195-204 | with non-negative weights the intervals are disjoint, so the walk returns the unique entry whose interval holds the draw |
| MoveWeights.PickCountUpTo | src/defender.c:193-204 | of the draws below n, the number that pick entry k is the overlap of [0, n) with entry k's interval |
| MoveWeights.SelectCount | src/defender.c:193-204 | of the total reduced draws in [0, total), exactly the weight of entry k pick entry k |
| MoveWeights.SingleLiveEntry | src/attacker.c:155-177 | when only one entry is non-zero, every draw picks that entry |
| MoveWeights.TotalAtLeastEntry | src/defender.c:187-192 | with non-negative weights the sum is at least any single weight |
| MoveWeights.GetMoveDirectionFromWeights | src/defender.c:186-208 | given a positive sum, the method returns the move of the entry the cumulative-sum walk selects for `draw % sum` |
| MoveWeights.ZeroTotal | src/defender.c:187-192 | an all-zero matrix sums to 0 |
| MoveWeights.TotalPositiveIffSomeLive | src/defender.c:187-193 | a non-negative matrix has a positive sum exactly when some entry is live |
| MoveWeights.StagedTotalPositiveIffSomeOpen | src/defender.c:187-193 | with positive tables the staged matrix can be sampled exactly when some target is open |
| MoveWeights.StagedSelectIsOpen | src/defender.c:193-201 | with positive tables the sampler only picks an entry whose target is open |
| MoveWeights.StagedWeightPreference | src/defender.c:163-184 | an open entry whose proximity-times-goal product is larger ends heavier under the same vertical factor |
| MoveWeights.StagedRowPreference | src/defender.c:163-184 | within a row, the open entry with the larger proximity-times-goal product ends with the larger weight |
| Defender.GuessedEnemyPosition | src/defender.c:86-90 | the defender's first guess keeps its own column and sets row 1, inside the grid when the defender is |
| Defender.TurnsToChangePriority | src/defender.c:99-101 | the defender's threshold `5 + r % 15` lies in [5, 19] |
| Defender.TurnsToChangePriorityCovers | src/defender.c:99-101 | every value of [5, 19] is drawn by some r |
| Defender.SpyCountdown | src/defender.c:245 | the defender's spy countdown `4 + r % 5` lies in [4, 8] |
| Defender.SpyCountdownCovers | src/defender.c:245 | every value of [4, 8] is drawn by some r |
| Defender.MinPrefixIsMinimum | src/defender.c:140-148 | the running min of the distances is at most each of them and equal to one of them |
| Defender.MaxPrefixIsMaximum | src/defender.c:140-148 | the running max of the distances is at least each of them and equal to one of them |
| Defender.ProximityFactor | src/defender.c:150-160 | a bucket factor is one of the three table factors 9, 6 and 5, so it lies in [5, 9] |
| Defender.Buckets | src/defender.c:150-160 | each of the nine bucket factors lies in [5, 9] |
| Defender.BucketsEntry | src/defender.c:150-160 | factor k is the bucket of distance k against the min and max over all nine distances, zeroed entries included |
| Defender.ProximityFactors | src/defender.c:125-161 | the defender's nine proximity factors each lie in [5, 9] |
| Defender.CloserTargetsWeighMore | src/defender.c:153-158 | a target no farther from the attacker never gets a smaller factor; a target at the minimum distance gets 9 even when it is also at the maximum, so the min test takes precedence; and it beats every farther target |
| Defender.GoalFactorOutweighs | src/defender.c:163-171 | in every row, the right target's factor times 16 exceeds the left target's factor times 1 |
| Defender.BoundedFactorsOutweighed | src/defender.c:164 | any two factors in [5, 9] are separated by the goal factors 16 and 1 |
| Defender.ComputeDistanceValues | src/defender.c:132-138 | the first pass fills a fresh matrix with the proximity of each target to the attacker |
| Defender.MinMaxDistance | src/defender.c:140-148 | the second pass yields the min and the max of all nine distances |
| Defender.ApplyProximityBuckets | src/defender.c:150-160 | the third pass multiplies each live entry by 9 at the min distance, else by 5 at the max, else by 6; zero entries stay zero |
| Defender.BucketsAt | src/defender.c:150-160 | the factor the third pass applies at (i, j) is entry (i, j) of the bucket vector |
| Defender.UpdateWeightsByEnemyProximity | src/defender.c:125-161 | the whole stage multiplies each live entry by its bucket factor and leaves zero entries at zero |
| Attacker.GuessedEnemyPosition | src/attacker.c:81-85 | the attacker's first guess keeps its own column and sets row 98, inside the grid when the attacker is |
| Attacker.TurnsToChangePriority | src/attacker.c:94-96 | the attacker's threshold `5 + r % 10` lies in [5, 14] |
| Attacker.TurnsToChangePriorityCovers | src/attacker.c:94-96 | every value of [5, 14] is drawn by some r |
| Attacker.SpyCountdown | src/attacker.c:209 | the attacker's spy countdown `3 + r % 5` lies in [3, 7] |
| Attacker.SpyCountdownCovers | src/attacker.c:209 | every value of [3, 7] is drawn by some r |
| Attacker.ProximityFactors | src/attacker.c:89-91 | the attacker's nine proximity factors are all positive |
| Attacker.GoalFactorOutweighs | src/attacker.c:132-140 | in every row, the right target's proximity times 17 exceeds the left target's proximity times 1 |
| Attacker.RowTargetsOutweighed | src/attacker.c:89-91 | two targets two columns apart differ in proximity by at most 2, which the goal factors 17 and 1 outweigh |
| Attacker.UpdateWeightsByEnemyProximity | src/attacker.c:120-130 | every live entry is multiplied by the proximity of its target to the defender; zero entries stay zero |
| Strategy.SpyCountdown | src/attacker.c:209 | each side's spy countdown lies in that side's range |
| Strategy.TurnsToChangePriority | src/defender.c:99-101 | each side's threshold lies in that side's range |
| Strategy.GuessedEnemyPosition | src/attacker.c:81-85 | either side's first guess keeps the agent's column and stays inside the grid |
| Strategy.PriorityConventionsOpposite | src/attacker.c:228-232 | for the same revealed position the attacker chooses up exactly when the opponent is below, the defender exactly when it is not, so they always disagree |
| Strategy.ProximityFactors | src/defender.c:284 | either side's nine proximity factors are positive |
| Strategy.GoalWeights | src/attacker.c:133 | each side's goal table has three positive, strictly increasing factors |
| Strategy.VerticalWeights | src/attacker.c:144 | each side's vertical table has three positive, strictly increasing factors |
| Strategy.ScheduledPriorityTwoOfThree | src/defender.c:272-278 | a scheduled change depends only on the draw modulo 3: of the draws 3q, 3q + 1 and 3q + 2 the first keeps the priority and the other two flip it |
| Strategy.TurnWeightsAt | src/defender.c:282-286 | entry (i, j) of a turn's weights is the four stages applied with that side's tables |
| Strategy.TurnWeightsPositiveIffOpen | src/defender.c:282-286 | a turn's weights are non-negative, and a weight is positive exactly when its target is not a known barrier |
| Strategy.TotalPositiveIffSomeOpen | src/defender.c:187-193 | a turn's weights have a positive sum exactly when some target is open |
| Strategy.SelectedEntryIsOpen | src/defender.c:193-201 | the entry sampled for a reduced draw is one of the nine and its target is open |
| Strategy.SampledMoveIsOpen | src/defender.c:289-290 | the sampled move is a unit move whose target is not a barrier |
| Strategy.ChosenMoveIsOpen | src/defender.c:281-290 | when some target is open, the turn's sum is positive and the drawn move is a unit move to an open in-grid cell |
| Strategy.ChoiceFrequency | src/defender.c:193-204 | of the reduced draws in [0, total), exactly the weight of entry k make the turn pick entry k |
| Strategy.SingleOpenTarget | src/attacker.c:155-177 | when only one target is open, the turn moves there for every draw |
| Strategy.OnlyRightNeighbourOpen | src/defender.c:186-208 | when the only open cells are the agent's own and the one to its right, the turn stays or moves right |
| Strategy.GoalSideOutweighs | src/attacker.c:245-250 | in any row with an open right target, the right entry outweighs the left entry, for either side and either priority |
| Strategy.GoalFactorOutweighs | src/attacker.c:132-140 | for either side, the right target's proximity factor times the right goal factor exceeds the left target's times the left goal factor |
| Strategy.Controller.constructor | src/defender.c:223-233 | before the first turn nothing is initialised, no move was made and the intended position is the sentinel |
| Strategy.Controller.InitializeStructures | src/defender.c:241-253 | the first call draws the spy countdown, the priority and its threshold, resets the barrier grid to its border, and records the initial position and the guessed opponent; the move count and intended position are unchanged |
| Strategy.Controller.RegisterBarrier | src/defender.c:254-258 | the intended cell becomes a barrier exactly when the agent is not on it; cells are only ever blocked, and blocking a blocked cell changes nothing |
| Strategy.Controller.UpdateVerticalPriority | src/defender.c:261-279 | when spying, the opponent's position comes from one spy read, the priority follows the side's rule and the counter and threshold are reset; otherwise, once the counter reaches the threshold, the priority flips on the draw and the counter and threshold are reset; otherwise nothing changes |
| Strategy.Controller.BeginTurn | src/defender.c:238-279 | the first-call block or the barrier registration, then the spying decision; the border stays blocked, the spy cannot fire on the first call, and some target stays open |
| Strategy.Controller.Execute | src/defender.c:214-295 | one turn: the new state and the returned move, which is drawn from that turn's weights at `choice % sum`, is a unit move to an open cell and becomes the intended position; both counters grow by exactly 1, the counter ends at 1 after a reset, the initial position is kept and the barrier grid changes only by the registered cell |
| Strategy.Controller.FinishTurn | src/defender.c:281-292 | weights, sampling, the intended position and the two counters of a turn; everything else is unchanged |
| Strategy.ChooseMove | src/defender.c:281-289 | the move drawn from the four-stage weights at `choice % sum` is a unit move to an open cell |
| Strategy.ComputeMoveWeights | src/defender.c:281-286 | a fresh matrix holds the turn's weights after all four stages |
| Strategy.StartWeights | src/defender.c:282-283 | after the first two stages each entry is 1 when its target is open, else 0 |
| Strategy.UpdateWeightsByEnemyProximity | src/defender.c:284 | the side's proximity stage multiplies each live entry by that side's factor |
| Strategy.FinishWeights | src/defender.c:285-286 | the goal and vertical stages complete the staged matrix |
| Strategy.StagesGiveTurnWeights | src/defender.c:282-286 | a matrix whose every entry went through the four stages equals the staged weight vector |

## Left out

- The seeded generator: `time(NULL)`, `srand` and `rand()` are replaced by the natural numbers of a `Draws` value, one per call site. No distribution is modelled.
- The spy's implementation (`spy.h`) is not part of this model. The spy is a use count and a position, and each read adds one use.
- `position.h` and `direction.h` are not part of this model. `move_position` is taken as componentwise addition and `equal_positions` as equality. `INVALID_POSITION` is taken as (-1, -1), outside the grid, and `DIR_RIGHT` as (0, 1).
- Out-of-range barrier indexing is C undefined behaviour. Each turn requires the agent to be at least one cell inside the 100×100 grid (`InInterior`), so all nine targets and the intended cell are in range.
- The sampler's `rand() % sum` divides by zero when no target is open. The sampler requires a positive sum, and each turn requires some open target (`Controller.HasOpenMove`).
- Strategy.Controller.Execute: the turn is split into `BeginTurn` and `FinishTurn`, and the weights into `StartWeights` and `FinishWeights`. The order of the source's steps is kept.
- C `int` overflow: the weights stay far below 2^31 for cells of the grid, so integers are unbounded.
- `stdio`, the `UNUSED` macro, the game loop, rendering and the code of the rest of the game are not part of this model.
