# Planet Invaders: a verified model of the per-frame game update

This project models the game-state core of a small Space-Invaders clone
written in C on top of raylib (`main.c`). The player ship moves in a 600×600
field and fires shots from a 50-slot pool. Enemies come from a 900-slot pool
and march side to side as a formation. Each time the formation finishes a
traversal it descends, speeds up and, every other time, brings in a new row.
A shot that overlaps an enemy destroys it for 100 points. An enemy that
touches the player, or reaches the top band of the field, costs a hit point.
A lost hit point that leaves some in reserve stops play until Enter starts
the round again from the first wave, with score and kills kept. Losing the
last one ends the game and offers the score to a ten-entry high-score table.

Modules, one per concern of `main.c`:

- `Raylib` (raylib.dfy): the value types `Vector2` and `Rectangle`, and the
  box-overlap test `CheckCollisionRecs`, taken as strict overlap on both axes.
- `Entities` (entities.dfy): the constants, the player, enemy and shot
  records, and the per-entity laws the loops apply. These cover the clamp to
  the field, the slot InitEnemies writes, one formation step, a revival, a
  kill, a ready shot, a fired shot and a shot's move. The module also holds
  the whole-pool views the loops are specified by: `Formation`, `Advanced`,
  `Revived` and `ReadyPool`.
- `Health` (health.dfy): the LoseHp gate (`LoseHpEffect`) and the capped heal.
- `Ledger` (ledger.dfy): admission to the score table (`Admits`) and the
  ranked insert (`Rank`, `Inserted`).
- `Combat` (combat.dfy): ShotBehaviour's nested loops as a pure fold
  (`HitCheck`, `InnerPass`, `ShotStep`, `OuterPass`). It also defines
  `Evolves`, the relation every shot pass keeps between the state before and
  after it.
- `Invaders` (game.dfy): the class `Game`, which holds the C globals. Its
  fields `enemy`, `shoot` and `datas` are arrays updated in place by `while`
  loops, one method per C function. The scalar globals are grouped under
  their C names into two records: `Status` (gameOver, waitingForRestart,
  pause, score, victory, wave, shootRate, activeEnemies, enemiesKill) and
  `Marching` (the formation controller's timer, side counter, direction,
  descend flag and progression period). Each subsystem method states its
  effect through a specification function over the same values (`Steered`,
  `Marched`, `MarchedPool`, `Armed`, `OuterPass`, ...). It also states its
  effect on the whole state, seen as the value `Frame` returned by the ghost
  function `Snapshot`. That effect is a step function (`Steer`, `Collide`,
  `March`, `Arm`, `Volley`). `PlayedFrame` composes the five steps, so an
  unpaused frame's entire new state is `PlayedFrame` of the old one.
  `FrameLaws` proves what every such frame conserves (`Conserves`). The
  class invariant `Valid` is kept by every frame. It says:
  - the side counter is in [0, 30);
  - the progression period is positive;
  - hit points are within [0, 3], and at least 1 while the game is not over;
  - gameOver and waitingForRestart are never both set;
  - the enemy pool is full-size, and every dead enemy is inactive.

Inputs the C code reads from raylib are parameters:
- the held keys and the P/Enter presses, grouped in `Input`;
- the frame time, as `dt`;
- the outcome of each random heal draw of InitEnemies, as the sequence
  `heals`, in draw order.

Behaviours of the code that look unintended are modelled as written. Each
is exhibited by the lemma named after it:
- The heal test after a kill reads `enemy[i]`, with the SHOT's index
  (main.c:534). The evidently intended test reads the destroyed enemy's
  flag, `enemy[j]`; the model follows the code (`Combat.HealReadsShotIndex`).
- One shot destroys every active enemy it overlaps in the same pass
  (`Combat.OneShotKillsEveryOverlap`).
- The field-exit test runs only when some enemy in range is active
  (`Combat.ExitIgnoredWithoutTargets`).
- The player collision test ignores the active and dead flags, so a
  destroyed enemy can still cost a hit point (`Entities.ThreatIgnoresFlags`).
- InitPlayer computes y from the height the player had before the call, 0 on
  the very first call. The first player therefore starts at y = 550 and every
  later one at y = 530 (`Entities.InitialPlayerSettles`).
- InitEnemies reads the width of slot i while it writes slot 899 - i, so the
  very first formation differs from every later one
  (`Entities.FirstFormationShifted`).
- InitEnemies' grid lands in slots 839..899, while the loops only visit slots
  below activeEnemies. The 60 enemies of the first wave therefore start on
  one line, four to a rectangle (`Entities.FirstWaveStacked`).
- The grid test `i <= FIRST_WAVE` makes a 61st grid cell
  (`Entities.GridHasLoneFifthRow`).

## Model

| member | source | states |
|---|---|---|
| Raylib.CollisionLaws | main.c:367 | the overlap test the player and shot collisions use is symmetric, and boxes that only share an edge do not collide |
| Entities.ClampToField | main.c:353-360 | a box no larger than the field ends within [0, limit]; a position strictly inside is kept; one at or below 0 goes to 0 when the box fits; one whose box reaches the far edge goes to limit - size |
| Entities.Steered | main.c:342-361 | the moved rectangle keeps its size; a player no larger than the field ends inside it on both axes; with no key held on an axis, a position strictly inside the field is kept on that axis |
| Entities.InitialPlayer | main.c:372-383 | InitPlayer leaves a 20×20 player at y = 600 - 50 - (the height before the call); hp is 3 on a start and kept otherwise |
| Entities.InitialPlayerSettles | main.c:374-377 | the first InitPlayer, over the zeroed player, places it at y = 550, and every later one at y = 530 |
| Entities.ThreatIgnoresFlags | main.c:365-369 | the collision test of PlayerCollisionWithEnemies gives the same answer whatever the enemy's active and dead flags, so a destroyed enemy still threatens |
| Entities.FormationSlot | main.c:456-470 | every slot InitEnemies writes is live, active and 10×10, moves at (3, 32) and carries its heal draw |
| Entities.FormationFresh | main.c:454-472 | after InitEnemies the whole pool is full-size, active and not dead, and slot k carries heal draw 899 - k |
| Entities.FormationOfSized | main.c:454-472 | over a pool that is already full-size, InitEnemies always produces the same formation, whatever the pool held |
| Entities.FirstFormationShifted | main.c:458 | on the zero-initialised pool, slots 450..899 start 5 units left of their place in every later formation, and slots 0..449 do not |
| Entities.FirstWaveStacked | main.c:456-463 | in every formation the first-wave slots 0..59 all start at y = 120, and slot k shares its rectangle with slot k + 15 |
| Entities.GridHasLoneFifthRow | main.c:459-462 | slot 839 starts alone at y = 150, below the grid rows (y <= 135) of slots 840..899; every slot below 839 starts at y = 120 |
| Entities.StepEnemy | main.c:429-438 | an inactive enemy does not move; an active one moves only in y (by speed.y) on a descend tick and only in x otherwise, in the current direction; flags, size and speed are kept |
| Entities.Revive | main.c:478-481 | a dead enemy keeps its active flag, every other enemy ends active; nothing else changes |
| Entities.TickKeepsPool | main.c:427-440 | a formation tick changes no dead flag and no size, and dead enemies stay inactive |
| Entities.RowKeepsPool | main.c:474-482 | a new row changes no dead flag and no size, keeps dead enemies inactive, and activates exactly the enemies that are not dead (the others keep their flag) |
| Entities.CountDeadKill | main.c:529-532 | destroying an enemy that was not dead adds exactly one dead enemy to the pool |
| Entities.Killed | main.c:529-530 | a destroyed enemy is inactive and dead, keeping its position, speed and heal flag |
| Entities.Fired | main.c:496-500 | a claimed shot becomes active at (player x, player y + height / 4), with its size and speed kept |
| Entities.ReadyShot | main.c:553-560 | a parked slot is inactive, 5×10 at (player x, player y + height / 2), moving at (0, -7) |
| Entities.FirstFree | main.c:494-505 | the slot ShotInit claims is the lowest inactive one: every slot before it is active |
| Entities.CountActiveClaim | main.c:496-500 | claiming an inactive slot adds exactly one live shot |
| Entities.CountActiveShrinks | main.c:511-546 | a pool in which no slot became active has no more live shots than before, the fact that ShotBehaviour never adds a shot |
| Entities.MoveShot | main.c:516-517 | a shot moves by its own speed on both axes, keeping its flag and speed |
| Health.LoseHpEffect | main.c:385-402 | with either flag set nothing changes; otherwise hp drops by exactly one, gameOver is set iff hp reaches 0, waitingForRestart otherwise, never both; afterwards play is always stopped |
| Health.LoseHpAtMostOnce | main.c:363-402 | any number of LoseHp calls in a row has the effect of the first alone: hp drops by at most one and the two flags never end up both set |
| Health.HealedHp | main.c:404-409 | GainHP adds one hit point below the cap of 3 and otherwise leaves 3 |
| Ledger.Rank | main.c:601-605 | every entry in front of the slot scores strictly higher than the new score, and the entry at the slot, if any, scores at or below it; the slot is at most the table size |
| Ledger.Inserted | main.c:599-617 | the intended insert keeps the table at its size |
| Ledger.InsertedLayout | main.c:599-617 | the new entry sits at its rank, entries before it are kept, entries after it are the old ones shifted down one slot, and a score ranked past the end leaves the table as it was |
| Ledger.SpliceLayout | main.c:607-616 | putting an entry in at slot p and dropping the last one keeps the entries before p and moves every later one down one slot |
| Ledger.InsertedDropsOnlyLast | main.c:607-616 | an insert keeps every old entry except the last one and adds the new one (as multisets) |
| Ledger.SpliceMultiset | main.c:607-616 | the splice swaps the evicted last entry for the new one, as multisets |
| Ledger.InsertedSorted | main.c:599-617 | inserting into a table sorted best-first keeps it sorted |
| Ledger.AdmittedIsPlaced | main.c:388-396 | a score CheckScore admits always finds a slot in the table, sorted or not |
| Ledger.AdmitsIffBeatsLast | main.c:619-627 | in a sorted table a score is admitted exactly when it beats the last entry, the one the insert evicts |
| Ledger.ScanAsWrittenOverruns | main.c:603-616 | with the guard as written, the scan's condition holds at every index of the table whatever the scores, so the scan runs past the last entry and reads datas[10]; it stops at index 10 or later, depending on memory past the table, and from any such index the shift loop does not run; whenever the table has a place for the score, the in-table scan reaches the end instead of the intended rank |
| Ledger.ScanAsWritten | main.c:603-605 | the stop of the written scan, searched inside the table, is an index where the written guard fails, or the table size when it never does |
| Combat.Hit | main.c:524-536 | a kill: the enemy ends inactive and dead, the shot inactive, all other shots and enemies unchanged; kills grow by one and score by 100; the fire rate is 0; hp is healed exactly when enemy i (the shot's index) carries the heal flag |
| Combat.HitCheck | main.c:522-543 | an inactive enemy leaves the state unchanged; only enemy j and shot i can change |
| Combat.InnerPass | main.c:520-544 | the enemy loop of shot i changes no other shot and no enemy at or past the loop's bound |
| Combat.ShotStep | main.c:513-545 | an inactive shot is skipped without any change; an active one changes no other shot and no enemy at or past activeEnemies |
| Combat.OuterPass | main.c:511-546 | the first n outer iterations change no shot at or past n and no enemy at or past activeEnemies |
| Combat.HitEvolves | main.c:524-536 | a kill stays within the shot-pass relation: the enemy ends dead, score grows by 100 per kill, the fire-rate counter is 0, hit points do not drop |
| Combat.HitCheckEvolves | main.c:522-543 | one inner-loop iteration stays within the shot-pass relation |
| Combat.InnerPassEvolves | main.c:520-544 | the enemy loop of one shot stays within the shot-pass relation |
| Combat.ShotStepEvolves | main.c:513-545 | one outer-loop iteration, the move included, stays within the shot-pass relation |
| Combat.OuterPassEvolves | main.c:511-546 | the whole pass stays within it: each enemy is unchanged or was active below the high-water count and is destroyed; no shot is activated; score grows by exactly 100 per kill; a kill resets the fire rate; hit points never drop or pass 3; the kill count grows by exactly the number of newly dead enemies |
| Combat.HealReadsShotIndex | main.c:534 | shot 0 destroying the healing enemy 1 leaves hit points at 2, because enemy 0 is tested |
| Combat.OneShotKillsEveryOverlap | main.c:520-536 | one shot overlapping two active enemies destroys both, for 200 points |
| Combat.ExitIgnoredWithoutTargets | main.c:538-542 | with no active enemy in range, a shot past the top edge stays active and the fire rate is kept |
| Invaders.Game.constructor | main.c:141-148 | the globals as main leaves them after StartGame: the invariant holds, a new round, the table as loaded, the first (shifted) formation over the zero pool, every shot parked |
| Invaders.Game.StartGame | main.c:182-207 | hard reset: score, kills, wave, victory, pause, shootRate and both flags reset, activeEnemies 60, progression 1, direction rightwards, hp 3, new formation, shots parked; the side counter and the timer are kept; the invariant holds |
| Invaders.Game.RezetGame | main.c:209-232 | soft reset: score, kills, wave, victory, progression, timer and side counter are kept; shootRate 0, both flags and pause cleared, activeEnemies 60, direction rightwards, the player as InitPlayer(false) leaves it (hp kept), the steady formation, shots parked |
| Invaders.Game.UpdateGame | main.c:235-272 | while either flag is set and Enter is not pressed, nothing changes; Enter after game over is a hard reset (status NEW_GAME, progression 1, direction rightwards, the player as InitPlayer(true) leaves it, the table kept), Enter while waiting a soft reset (score, kills, progression and hp kept); while playing, P toggles the pause and a paused frame changes nothing else; an unpaused frame's whole new state is PlayedFrame of the old state with the pause cleared, and Conserves holds between the two; the bookkeeping facts (dead stay dead, 100 points per kill, at most one hit point lost, the formation never slows, activeEnemies grows by 0 or 15) also hold across a frame that P unpauses; the invariant holds |
| Invaders.Game.PlayFrame | main.c:243-254 | the five subsystems in order: the new state is exactly the composed step PlayedFrame of the old one, Conserves holds between the two, and the invariant holds |
| Invaders.Resumed | main.c:239-242 | the state UpdateGame hands to the subsystems is not paused, and equals the frame it started from exactly when that was not paused |
| Invaders.FrameChain | main.c:243-254 | the states after the five subsystem calls, each one step function of the previous, end at PlayedFrame of the first |
| Invaders.FrameLaws | main.c:243-254 | every unpaused frame satisfies Conserves, whatever the input and however many hits and kills it holds, and leaves the player where Steered puts it |
| Invaders.CollideConserves | main.c:363-370 | PlayerCollisionWithEnemies changes only hp, the two flags and the table; it costs at most one hit point and keeps an ordered table ordered |
| Invaders.MarchConserves | main.c:414-452 | EnemyBehaviour changes only the formation, the pool and activeEnemies; no dead flag changes, the period never grows, activeEnemies grows by 0 or 15 |
| Invaders.ArmConserves | main.c:490-507 | ShotInit changes only the shot pool and shootRate, and adds at most one live shot |
| Invaders.VolleyConserves | main.c:509-547 | ShotBehaviour changes only the pools, shootRate, kills, score and hp; dead stay dead, score grows by 100 per kill, hp never drops or passes 3, no shot becomes live, so the number of live shots does not grow |
| Invaders.SteerFrame | main.c:342-361 | a state whose only change is the player rectangle moved as Steered says is the Steer step |
| Invaders.CollideFrame | main.c:363-370 | a state whose vitals and table are those after the collision loop, everything else kept, is the Collide step |
| Invaders.MarchFrame | main.c:414-452 | a state whose formation, pool and activeEnemies are Marched, MarchedPool and the row count, everything else kept, is the March step |
| Invaders.ArmFrame | main.c:490-507 | a state whose shootRate and pool are those after ShotInit, everything else kept, is the Arm step |
| Invaders.VolleyFrame | main.c:509-547 | a state whose shots, enemies and counters are OuterPass of the old ones, everything else kept, is the Volley step |
| Invaders.Game.PlayerMovement | main.c:342-361 | the player rectangle becomes Steered of the old player, and the whole state is the Steer step of the old one; speed and hp are kept |
| Invaders.Game.SteerRec | main.c:344-360 | the four key tests then the clamps compute exactly Steered |
| Invaders.Game.Clamp | main.c:353-356 | the two clamp tests of one axis, near edge first, compute exactly ClampToField |
| Invaders.Game.PlayerCollisionWithEnemies | main.c:363-370 | when some enemy below activeEnemies reaches the top band or overlaps the player, the vitals and the table are those after one LoseHp call; otherwise nothing changes; hp drops by at most one; the whole state is the Collide step of the old one |
| Invaders.Game.InitPlayer | main.c:372-383 | the player becomes InitialPlayer of the player before the call |
| Invaders.Game.LoseHp | main.c:385-402 | the vitals follow LoseHpEffect; the call that ends the game inserts ("IRRA", score) into the table exactly when the table admits the score; nothing else changes |
| Invaders.Game.GainHP | main.c:404-409 | hp becomes HealedHp of the old hp, everything else kept |
| Invaders.Game.EnemyBehaviour | main.c:414-452 | the formation becomes Marched of the old one: the timer accumulates dt and a tick runs once it reaches the period; the side counter wraps at 30, which flips the direction and makes the tick a descend; the period shrinks by 15 % exactly when the direction flips; goingDown is false afterwards. The pool becomes MarchedPool: stepped by the tick, then revived on a descend that turns rightwards, which is exactly when activeEnemies grows by 15; no dead flag changes; the whole state is the March step |
| Invaders.Marched | main.c:416-451 | goingDown ends false; the direction flips exactly on the thirtieth tick; the side counter stays in [0, 30); a positive period stays positive, never grows, and shrinks exactly on the thirtieth tick |
| Invaders.MarchedPool | main.c:427-448 | a frame of EnemyBehaviour keeps the pool size, every dead flag and every width, and a pool whose dead enemies are inactive stays so |
| Invaders.Game.Descend | main.c:442-448 | the descent shortens the period by 15 % and clears goingDown; when the new direction is rightwards every enemy that is not dead is revived and activeEnemies grows by 15, otherwise the pool is kept |
| Invaders.Game.MarchActive | main.c:427-440 | every enemy below activeEnemies takes one formation step, the rest of the pool is kept |
| Invaders.Game.InitEnemies | main.c:454-472 | the pool becomes Formation of the old pool and the heal draws, each slot written from its iteration and the width it reads |
| Invaders.Game.InitRowOfEnemies | main.c:474-484 | every enemy that is not dead becomes active, nothing else in the pool changes, and activeEnemies grows by exactly 15 |
| Invaders.Game.ShotInit | main.c:490-507 | with fire held shootRate grows by exactly 5 and the pool becomes Armed of the old one: when the new rate is a multiple of 20 the lowest inactive slot is fired from the player, all others unchanged; the live-shot count grows by exactly that one; without fire nothing changes; the whole state is the Arm step |
| Invaders.Armed | main.c:494-505 | ShotInit's pool keeps its size, changes no slot but the lowest free one, and gains exactly one live shot when the rate is a multiple of 20 and a slot is free, none otherwise |
| Invaders.Game.ClaimSlot | main.c:494-505 | the loop over the pool leaves it as Armed says |
| Invaders.Game.ShotBehaviour | main.c:509-547 | the shots, enemies, fire rate, kills, score and hp become the fold OuterPass of the old ones, so they stay within the shot-pass relation; the invariant holds; nothing else changes; the whole state is the Volley step |
| Invaders.Game.ResolveShot | main.c:513-545 | one outer iteration: an active shot moves, then meets every enemy below activeEnemies, as ShotStep says |
| Invaders.Game.ShotMeetsEnemy | main.c:522-543 | one inner iteration, as HitCheck says |
| Invaders.Game.InitShots | main.c:549-562 | the shot pool becomes 50 copies of ReadyShot of the current player |
| Invaders.Game.Save | main.c:599-617 | the table becomes the ranked insert of the new entry, using the intended loop bounds |
| Invaders.Game.CheckScore | main.c:619-627 | returns true exactly when some entry's score is strictly below the candidate |

## Left out

- DrawGame, UpdateDrawFrame, UnloadGame, the window and the main loop: rendering and lifecycle code.
- LoadGame and SaveGame: file I/O. The constructor takes the table as loaded. SaveGame writes nothing to the file (it prints to standard output), and LoadGame calls fclose on a null handle when the file is missing.
- GetRandomValue in InitEnemies: the heal draws are the parameter `heals`. Only their outcome (`GetRandomValue(0, 100) <= 3`) is modelled, not the distribution.
- GetFrameTime: the frame time is the parameter `dt`.
- IsKeyDown and IsKeyPressed: the key states are the fields of `Input`.
- Colours, `alpha` and `smooth`: presentation only.
- Wave advancement and `victory`: no code changes them except the resets, so the model has no wave progression.
- C `float` arithmetic is modelled as exact reals, without rounding. C `int` is modelled as an unbounded integer, without 32-bit overflow of score, kills, shootRate or activeEnemies.
- Invaders.Game.UpdateGame, PlayFrame, PlayerCollisionWithEnemies, EnemyBehaviour and ShotBehaviour: these require activeEnemies <= 900. The frame that brings in a row also requires activeEnemies + 15 <= 900. InitRowOfEnemies raises the count without a cap (main.c:483), and past 900 the C loops read outside the enemy array. That is undefined behaviour, which the model does not describe.
- Invaders.Game.PlayerMovement: its contract gives the new position through Steered. That function's own contract states the bound (0 <= x and x + width <= 600, likewise for y, for a player no larger than the field). The bound is not repeated in the method.
- Invaders.Game.RezetGame: requires the game not to be over. UpdateGame calls it only after a non-fatal hit, where hp is at least 1.
- Invaders.Game.Save: models the intended insert, not the loops as written (see Findings).

## Findings

| source | as written | input that shows it | evidently intended | confidence | as-written member | corrected member |
|---|---|---|---|---|---|---|
| main.c:603-616 | the scan runs while `newData.score < datas[i].score \|\| i < 10`, and the shift loop steps `j++` from 9 while `j > i` | any table and score, e.g. ten zero entries and score 500: the guard holds at i = 0..9, so the scan reads datas[10], and it writes the entry at an index of 10 or more | scan while `i < 10 && newData.score < datas[i].score`, shift with `j--`, and place the entry only when its rank is below 10 | not executed | Ledger.ScanAsWrittenOverruns, Ledger.ScanAsWritten | Invaders.Game.Save, Ledger.InsertedSorted |
