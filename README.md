# Infra Defender: a verified model of the game rules

Infra Defender is a browser tower-defense game. Waves of infrastructure
incidents (traffic spikes, DDoS attacks, memory leaks, slow queries, Friday
deploys) walk along paths on a grid. The player places infrastructure
towers (nginx, load balancer, Redis, Kafka, database, monitoring) to shoot
them down. Each incident that gets through costs part of the player's
error budget.

This project models the rule-carrying core of the game in Dafny and proves
properties of that model. Rendering, input wiring and persistence are left
out. One module corresponds to each source file of the core:

- `GameTypes` (`game_types.dfy`): the grid constants, positions, the enemy
  and tower type names, wave and level records, `Option`, and decimal
  rendering of integers.
- `Grid` (`grid.dfy`): the placement grid, modelled as a class with
  occupied, path and buildable cell sets. It covers the buildable-area
  sweep, path marking, the placement check, and the cell/pixel
  conversions.
- `Waves` (`waves.dfy`): the wave scheduler, modelled as a class. The
  spawn order is specified as a function of the wave's groups, and the
  scheduler's state is tied to it by a class invariant.
- `Abilities` (`abilities.dfy`): the three player abilities and their
  cooldowns.
- `Session` (`session.dfy`): the game session, holding money, error budget,
  score, wave counters, pause/game-over/victory flags and the emitted
  events as an appended event log.
- `Enemies` (`enemies.dfy`): the enemy stats table, damage, and movement
  along a path one segment at a time. The movement is specified by the
  step function `Step`, iterated over frames by `Run`.
- `Towers` (`towers.dfy`): the tower stats table, the attack cooldown, and
  upgrades.
- `Projectiles` (`projectiles.dfy`): one projectile's flight, hit and
  discard decision.
- `Levels` (`levels.dfy`): building a playable level from a layout, with
  the fixed six-wave schedule.
- `LevelEditor` (`level_editor.dfy`): the list rules of the level editor.
  These cover spawn/target points, stroke drawing with king-move
  adjacency, committing strokes, erasing, clearing, loading, and the check
  made before a play-test.
- `Users` (`users.dfy`): the player profile and nickname validation.
  Trimming uses the host language's white-space set, and lengths are
  counted in UTF-16 code units.

Numbers follow the code's use: money, budget, score, wave counters and
costs are integers. Times, speeds, health, damage and movement progress
are reals. Floating-point rounding is not modelled.

Rules of the code that are easy to miss, which the model follows as
written:

- The buildable area only ever grows. `SetPath` re-runs the sweep without
  clearing it, so cells of an earlier path stay buildable. The placement
  check excludes path cells separately
  (`src/systems/GridSystem.ts:21-51`).
- A tower upgrade raises damage ×1.5, range ×1.1 and attack speed ×1.2.
  It leaves `cost` and `upgradeCost` unchanged, and it charges nothing by
  itself (`src/entities/Tower.ts:164-173`).
- The session never guards its terminal states. Game over and victory can
  both be set, and money and score keep changing after either
  (`src/game/GameManager.ts:74-109`, `src/game/GameManager.ts:124-162`).
- A spawn group whose count is below 1 still spawns one enemy, because the
  count is tested only after a spawn (`src/systems/WaveManager.ts:73-81`).
- The scheduler spawns at most one enemy per frame. It has no cap on the
  frame time, and the spawn timer restarts at 0 without carrying the
  excess (`src/systems/WaveManager.ts:65-70`).
- When an enemy finishes a segment, the leftover distance is dropped. The
  enemy is drawn at the start of the segment it just finished for that
  frame (`src/entities/Enemy.ts:128-138`).
- Using an ability neither checks nor deducts its cost
  (`src/systems/AbilitySystem.ts:74-85`).
- Loading a saved level in the editor replaces the spawn points, target
  points and paths, but not the decorations
  (`src/scenes/LevelEditorScene.ts:953-959`).

## Model

| member | source | states |
|---|---|---|
| Grid.GridSystem.constructor | src/systems/GridSystem.ts:13-16 | a new grid has no occupied or path cells, and its buildable area is every cell below the UI row |
| Grid.GridSystem.InitializeBuildableArea | src/systems/GridSystem.ts:21-32 | the sweep adds exactly the cells of rows 1..10 and columns 0..19 that are not path cells, keeps everything already buildable, and keeps all buildable cells inside the grid below row 0 |
| Grid.PathsOf | src/systems/GridSystem.ts:37-41 | a single path is one path; a non-empty array of paths is those paths |
| Grid.GridSystem.SetPath | src/systems/GridSystem.ts:37-51 | afterwards the path cells are exactly the cells occurring in the given path(s), and the buildable area grows by the sweep over the new path cells |
| Grid.GridSystem.IsValidPlacement | src/systems/GridSystem.ts:56-81 | a tower may go on a cell iff it is inside the 20×11 grid, buildable, not occupied and not a path cell |
| Grid.GridSystem.OccupyCell | src/systems/GridSystem.ts:86-88 | the cell is added to the occupied set, and afterwards it is not a valid placement |
| Grid.GridSystem.FreeCell | src/systems/GridSystem.ts:93-95 | exactly that cell leaves the occupied set |
| Grid.GridSystem.IsOccupied | src/systems/GridSystem.ts:100-102 | an occupied cell is never a valid placement |
| Grid.GridSystem.IsPathCell | src/systems/GridSystem.ts:107-109 | a path cell is never a valid placement |
| Grid.GridSystem.GridToWorld | src/systems/GridSystem.ts:114-119 | the pixel point lies strictly inside the cell |
| Grid.GridSystem.WorldToGrid | src/systems/GridSystem.ts:124-129 | the returned cell is the one whose pixel square contains the point (flooring division) |
| Grid.GridSystem.GridRoundTrip | src/systems/GridSystem.ts:114-129 | converting a cell to its pixel centre and back gives the same cell |
| Grid.GridSystem.Clear | src/systems/GridSystem.ts:141-143 | no cell is occupied afterwards |
| Waves.Repeat | src/systems/WaveManager.ts:71-81 | n copies of one enemy type |
| Waves.SpawnsOf | src/systems/WaveManager.ts:77-81 | a group spawns its count of enemies, and at least one even when the count is below 1 |
| Waves.FlattenAppend | src/systems/WaveManager.ts:56-84 | the spawn list of consecutive group lists is the concatenation of their spawn lists |
| Waves.SpawnOrderIsFlatten | src/systems/WaveManager.ts:56-84 | when every count is at least 1, the order the scheduler spawns in is each group's type repeated count times, in group order |
| Waves.FlattenLength | src/systems/WaveManager.ts:56-84 | the number of enemies a wave spawns is the sum of its group counts |
| Waves.CursorStep | src/systems/WaveManager.ts:73-81 | one spawn moves the group/count cursor one place along the spawn order |
| Waves.WaveManager.constructor | src/systems/WaveManager.ts:18-20 | the scheduler starts before the first wave, with no wave active and nothing spawned or alive |
| Waves.WaveManager.StartNextWave | src/systems/WaveManager.ts:25-43 | a wave starts iff none is active and a later wave exists; it then resets every counter and the timer, and otherwise nothing changes |
| Waves.WaveManager.Update | src/systems/WaveManager.ts:48-84 | nothing happens between waves; during a wave, at most one enemy spawns per frame, of the next type in the spawn order, and once every group is spawned and none are alive the wave completes |
| Waves.WaveManager.AdvanceGroup | src/systems/WaveManager.ts:65-83 | the timer grows by delta; on reaching the group's interval one enemy of the group's type spawns, the counters advance, and the timer restarts at 0 |
| Waves.WaveManager.OnEnemyKilled | src/systems/WaveManager.ts:89-91 | the alive count drops by one, never below 0 |
| Waves.WaveManager.OnEnemyReachedEnd | src/systems/WaveManager.ts:96-98 | the alive count drops by one, never below 0 |
| Waves.WaveManager.CompleteWave | src/systems/WaveManager.ts:103-107 | the wave becomes inactive once its whole spawn order is spawned and nothing is alive |
| Waves.WaveManager.IsActive | src/systems/WaveManager.ts:112-114 | between waves no enemy is counted alive |
| Waves.WaveManager.GetCurrentWave | src/systems/WaveManager.ts:119-121 | the 1-based wave number is between 0 and the number of waves, and is 0 exactly before the first wave |
| Waves.WaveManager.IsAllWavesComplete | src/systems/WaveManager.ts:133-137 | when it holds, no wave is running, nothing is alive and no further wave can start; with at least one wave, the current wave is the last and it has spawned its whole schedule; conversely the last wave having finished is enough (with no waves it holds from the start) |
| Waves.WaveManager.GetWaveReward | src/systems/WaveManager.ts:142-145 | the current wave's reward, or 0 before the first wave |
| Abilities.InitialAbilities | src/systems/AbilitySystem.ts:26-58 | exactly the three abilities, each never used and with a cooldown of at most 30 s |
| Abilities.Remaining | src/systems/AbilitySystem.ts:104-110 | the remaining cooldown is never negative, and is 0 exactly when the ability is ready |
| Abilities.AbilitySystem.constructor | src/systems/AbilitySystem.ts:21-24 | the system starts with the initial abilities, all three present and each filed under its own type |
| Abilities.AbilitySystem.CanUse | src/systems/AbilitySystem.ts:63-69 | usable iff the ability exists and its cooldown has elapsed since it was last used |
| Abilities.AbilitySystem.Use | src/systems/AbilitySystem.ts:74-85 | succeeds iff the ability can be used; success stamps only that ability's last-use time, and failure changes nothing; all three abilities stay present under their own types |
| Abilities.AbilitySystem.GetAllAbilities | src/systems/AbilitySystem.ts:97-99 | every ability exactly once, in the order the system created them (a `Map` keeps insertion order, and updating a record keeps its place), each entry being the current record |
| Abilities.AbilitySystem.GetAbility | src/systems/AbilitySystem.ts:90-92 | the stored ability, or none for an unknown type |
| Abilities.AbilitySystem.GetCooldownRemaining | src/systems/AbilitySystem.ts:104-110 | never negative, and 0 exactly when the ability can be used |
| Abilities.AllUsableAtStart | src/systems/AbilitySystem.ts:26-58 | at any non-negative time, every ability is ready before its first use |
| Abilities.CooldownAfterUse | src/systems/AbilitySystem.ts:63-85 | after a use at time t, the ability is ready again exactly from t plus its cooldown |
| Session.InitialState | src/game/GameManager.ts:26-37 | 500 money, 100 error budget, no waves, no score, and no pause, game-over or victory flag |
| Session.LevelStartState | src/game/GameManager.ts:42-55 | the level's starting money and budget, its wave count, and cleared counters and flags |
| Session.DamagedBudget | src/game/GameManager.ts:94-101 | the budget drops by the damage, floored at 0, and is 0 exactly when the damage reaches it |
| Session.HitsAccumulate | src/game/GameManager.ts:94-101 | non-negative hits taken one by one leave the same budget as their total taken at once |
| Session.GameManager.constructor | src/game/GameManager.ts:14-17 | a fresh session has the initial state, no level and no events |
| Session.GameManager.InitializeGame | src/game/GameManager.ts:42-55 | the level is stored, the state becomes the level's start state, and an initialised event is logged |
| Session.GameManager.GetState | src/game/GameManager.ts:60-62 | the current state |
| Session.GameManager.AddMoney | src/game/GameManager.ts:74-77 | only the money changes, by the amount, and the new total is logged |
| Session.GameManager.SpendMoney | src/game/GameManager.ts:82-89 | succeeds iff the money covers the amount; success deducts it and logs the total, and failure changes nothing |
| Session.GameManager.DamageErrorBudget | src/game/GameManager.ts:94-101 | the budget becomes the damaged budget; game over is set when it hits 0, and both events are logged |
| Session.GameManager.AddScore | src/game/GameManager.ts:106-109 | only the score changes, by the points, and the new score is logged |
| Session.GameManager.StartNextWave | src/game/GameManager.ts:114-119 | the wave counter advances and is logged only while waves remain; otherwise nothing changes |
| Session.GameManager.CompleteWave | src/game/GameManager.ts:124-130 | logs the completed wave, and triggers victory once the last wave is done |
| Session.GameManager.Pause | src/game/GameManager.ts:135-138 | only the pause flag is set, and it is logged |
| Session.GameManager.Resume | src/game/GameManager.ts:143-146 | only the pause flag is cleared, and it is logged |
| Session.GameManager.TriggerGameOver | src/game/GameManager.ts:151-154 | only the game-over flag is set; the final score is logged |
| Session.GameManager.TriggerVictory | src/game/GameManager.ts:159-162 | only the victory flag is set; the final score is logged |
| Session.GameManager.Reset | src/game/GameManager.ts:167-171 | back to the initial state with no level, and the reset is logged |
| Enemies.GetEnemyData | src/entities/Enemy.ts:45-94 | each type starts at full, positive health and has a positive speed, budget damage and reward |
| Enemies.DamagedHealth | src/entities/Enemy.ts:144-151 | health drops by the damage, floored at 0, and is 0 exactly when the damage reaches it |
| Enemies.Step | src/entities/Enemy.ts:112-139 | at or past the last waypoint nothing moves; otherwise the enemy moves to the next segment, with progress 0, exactly when progress plus the fraction reaches 1, and else progress grows by the fraction; progress below 1 stays below 1 |
| Enemies.RunNeverCompletes | src/entities/Enemy.ts:99-139 | over any number of frames, the index never passes the last waypoint and progress stays below 1, so the end test as written never holds |
| Enemies.RunAdvancesOnePerFrame | src/entities/Enemy.ts:112-139 | when each frame covers at least a full segment, the enemy advances exactly one waypoint per frame until the last |
| Enemies.Enemy.constructor | src/entities/Enemy.ts:17-40 | a new enemy has its type's stats, stands at the first waypoint with no progress, and has no events |
| Enemies.Enemy.Update | src/entities/Enemy.ts:99-107 | one frame moves the enemy by `Step` and draws it at the interpolated point of the segment it started on (unmoved at the last waypoint); the end is never reported, and nothing else changes |
| Enemies.Enemy.MoveAlongPath | src/entities/Enemy.ts:112-139 | index and progress follow `Step`; the position is interpolated on the segment that was current at the start of the frame |
| Enemies.Enemy.TakeDamage | src/entities/Enemy.ts:144-151 | health becomes the damaged health; the enemy dies iff it reaches 0, and then it logs its death and is destroyed |
| Enemies.Enemy.HasReachedEnd | src/entities/Enemy.ts:176-178 | under the enemy's invariant, the end test as written is always false |
| Enemies.Enemy.OnReachEnd | src/entities/Enemy.ts:183-187 | logs reaching the end and destroys the enemy |
| Enemies.Enemy.OnDeath | src/entities/Enemy.ts:192-196 | logs the death and destroys the enemy |
| Enemies.Enemy.GetData | src/entities/Enemy.ts:201-203 | the current stats |
| Enemies.Enemy.HasArrived | src/entities/Enemy.ts:176-178 | the corrected end test: true iff the enemy stands on the last waypoint |
| Enemies.Enemy.UpdateIntended | src/entities/Enemy.ts:99-107 | with the corrected end test, the enemy moves and is drawn as in `Update`, and reports the end and is destroyed exactly when it stands on the last waypoint |
| Enemies.StuckOnLastWaypoint | src/entities/Enemy.ts:99-139 | a traffic spike on a two-point path reaches the last waypoint and, two frames later, still has not reported the end |
| Enemies.ArrivesOnLastWaypoint | src/entities/Enemy.ts:99-139 | with the corrected end test, the same enemy reports the end on the frame it arrives |
| Towers.GetTowerData | src/entities/Tower.ts:51-117 | each tower type starts at level 1 with positive damage, range and attack speed, and an upgrade cost above its cost |
| Towers.AttackCooldown | src/entities/Tower.ts:122-128 | the cooldown is 1000 ms divided by the attack speed |
| Towers.Upgraded | src/entities/Tower.ts:164-173 | one level up, with damage ×1.5, range ×1.1 and attack speed ×1.2 (each strictly higher); type, cost and upgrade cost are kept |
| Towers.NoAttackWithinCooldown | src/entities/Tower.ts:122-128 | a tower may attack iff a full cooldown has passed since its last attack |
| Towers.FasterMeansShorterCooldown | src/entities/Tower.ts:122-128 | a higher attack speed gives a strictly shorter cooldown |
| Towers.Tower.constructor | src/entities/Tower.ts:15-46 | a new tower has its type's stats and has never attacked |
| Towers.Tower.Update | src/entities/Tower.ts:122-128 | attacks iff the cooldown has passed, and then records the attack time |
| Towers.Tower.TryAttack | src/entities/Tower.ts:133-138 | records the attack time |
| Towers.Tower.Upgrade | src/entities/Tower.ts:164-173 | the stats become the upgraded stats |
| Towers.Tower.GetData | src/entities/Tower.ts:178-180 | the current stats |
| Projectiles.Decide | src/entities/Projectile.ts:40-66 | a projectile is discarded iff its target is gone or dead, hits iff the live target is within this frame's travel, and flies on otherwise |
| Projectiles.Projectile.constructor | src/entities/Projectile.ts:14-35 | a new projectile flies at 400 px/s from its start point towards its target |
| Projectiles.Projectile.Update | src/entities/Projectile.ts:40-66 | follows `Decide`: it keeps flying iff the decision is to fly; every other outcome destroys it; only a hit damages the target, which then records its death and is destroyed exactly when its health reaches 0; the target's position is never touched; only flight moves the projectile by the travel along the direction |
| Projectiles.Projectile.HitTarget | src/entities/Projectile.ts:71-76 | a live target takes the damage and records its death and is destroyed exactly when its health reaches 0; a dead or missing one is untouched; the projectile is destroyed |
| Projectiles.Projectile.Destroy | src/entities/Projectile.ts:40-76 | marks the projectile destroyed |
| Levels.StandardWavesWellFormed | src/config/levels.config.ts:66-116 | the fixed schedule has six waves numbered 1 to 6, with strictly increasing rewards and every group non-empty with a positive interval |
| Levels.RewardsIncrease | src/config/levels.config.ts:66-116 | rewards that increase from each wave to the next increase across any two waves |
| Levels.StandardWavesSpawnFully | src/config/levels.config.ts:66-116 | each standard wave spawns its groups in order: 6, 7, 9, 6, 10 and 14 enemies |
| Levels.CreateLevelFromConfig | src/config/levels.config.ts:51-120 | the level keeps the layout's points and paths, defaults missing decorations to none, is 20×11 with 500 money and 100 budget, is named "Level n", and carries a well-formed six-wave schedule |
| LevelEditor.Chebyshev | src/scenes/LevelEditorScene.ts:641-648 | the chessboard distance is never negative, and is 0 exactly for equal cells |
| LevelEditor.Filter | src/scenes/LevelEditorScene.ts:654-680 | the kept elements are exactly the elements that pass the test |
| LevelEditor.FilterAppend | src/scenes/LevelEditorScene.ts:654-680 | filtering keeps the survivors in their original order |
| LevelEditor.FilterMultiset | src/scenes/LevelEditorScene.ts:654-680 | each element is kept as often as it occurs, or dropped entirely |
| LevelEditor.FilterKeepsAll | src/scenes/LevelEditorScene.ts:654-680 | when nothing fails the test, filtering changes nothing |
| LevelEditor.FilterNoDuplicates | src/scenes/LevelEditorScene.ts:654-680 | a list without repeats stays without repeats when filtered |
| LevelEditor.AddUnique | src/scenes/LevelEditorScene.ts:477-495 | the point is present afterwards, no other point is added, the old list is a prefix, and a list without repeats stays without repeats |
| LevelEditor.Extend | src/scenes/LevelEditorScene.ts:636-652 | the point is appended iff it is not yet in the stroke and is within one cell of the last point (or the stroke is empty); otherwise the stroke is unchanged |
| LevelEditor.ExtendKeepsStroke | src/scenes/LevelEditorScene.ts:636-652 | a stroke stays free of repeats, with consecutive points exactly one cell apart |
| LevelEditor.Commit | src/scenes/LevelEditorScene.ts:263-277 | a non-empty stroke is appended to the paths, which are otherwise kept; the stroke is left empty |
| LevelEditor.CommitIdempotent | src/scenes/LevelEditorScene.ts:459-469 | committing twice is committing once |
| LevelEditor.CommitKeepsPathsNonEmpty | src/scenes/LevelEditorScene.ts:459-469 | committing never adds an empty path |
| LevelEditor.RemovePoint | src/scenes/LevelEditorScene.ts:658-662 | the erased point is gone, and every other point is kept |
| LevelEditor.RemovePointCounts | src/scenes/LevelEditorScene.ts:658-662 | every copy of the erased point is removed, and every other point is kept as often as it was present |
| LevelEditor.RemovePointNoDuplicates | src/scenes/LevelEditorScene.ts:658-662 | erasing keeps a list without repeats free of repeats |
| LevelEditor.RemoveAbsentPoint | src/scenes/LevelEditorScene.ts:658-662 | erasing a point that is not there changes nothing |
| LevelEditor.RemovePathsThrough | src/scenes/LevelEditorScene.ts:664-667 | no surviving path passes through the point, every path avoiding it survives, and no path is invented |
| LevelEditor.RemoveDecorationsNear | src/scenes/LevelEditorScene.ts:669-680 | a decoration survives iff it is more than 8 cells away from the click in x or in y |
| LevelEditor.EraseDecorationsKeepsOrder | src/scenes/LevelEditorScene.ts:669-680 | the surviving decorations keep their order |
| LevelEditor.ErasePathsKeepsOrder | src/scenes/LevelEditorScene.ts:664-667 | the surviving paths keep their order |
| LevelEditor.FirstShortPath | src/scenes/LevelEditorScene.ts:753-759 | finds the first path with fewer than two points, or none iff every path has at least two |
| LevelEditor.OrEmpty | src/scenes/LevelEditorScene.ts:953-956 | an absent list reads as empty |
| LevelEditor.FloorDivBounds | src/scenes/LevelEditorScene.ts:536-542 | flooring division by a positive cell size gives the cell whose square contains the point |
| LevelEditor.Editor.constructor | src/scenes/LevelEditorScene.ts:15-23 | the editor starts with no mode selected, Tux selected, not drawing, and all lists empty |
| LevelEditor.Editor.WorldToPathGrid | src/scenes/LevelEditorScene.ts:536-542 | the returned cell is the one whose square on the fine grid contains the point |
| LevelEditor.Editor.AddSpawnPoint | src/scenes/LevelEditorScene.ts:477-485 | the spawn points gain the point unless it is already one |
| LevelEditor.Editor.AddTargetPoint | src/scenes/LevelEditorScene.ts:487-495 | the target points gain the point unless it is already one |
| LevelEditor.Editor.AddDecoration | src/scenes/LevelEditorScene.ts:497-505 | a decoration of the selected kind is appended at the point |
| LevelEditor.Editor.AddToCurrentPath | src/scenes/LevelEditorScene.ts:636-652 | the stroke becomes `Extend` of itself, and stays a stroke |
| LevelEditor.Editor.CommitCurrentPath | src/scenes/LevelEditorScene.ts:459-469 | the paths and the stroke become their `Commit` |
| LevelEditor.Editor.EraseAt | src/scenes/LevelEditorScene.ts:654-689 | spawn and target points equal to the cell, paths through it, and decorations within reach are removed |
| LevelEditor.Editor.SelectMode | src/scenes/LevelEditorScene.ts:263-277 | the mode is set and drawing stops; leaving for a mode other than path drawing commits the stroke |
| LevelEditor.Editor.PointerDown | src/scenes/LevelEditorScene.ts:407-437 | presses on the toolbar, without a mode, or off the grid change nothing; otherwise the selected mode's list rule is applied to the pressed cell and nothing else changes |
| LevelEditor.Editor.PointerMove | src/scenes/LevelEditorScene.ts:439-457 | while drawing in path mode, an on-grid cell extends the stroke; otherwise the stroke is kept |
| LevelEditor.Editor.PointerUp | src/scenes/LevelEditorScene.ts:459-469 | ending a path stroke stops drawing and commits it; otherwise nothing changes |
| LevelEditor.Editor.TestLevel | src/scenes/LevelEditorScene.ts:746-783 | rejects iff there are no paths, or names the first path (counting from 1) with fewer than two points; otherwise returns the level as drawn, with the fine grid's size |
| LevelEditor.Editor.ClearLevel | src/scenes/LevelEditorScene.ts:789-799 | all five lists are empty |
| LevelEditor.Editor.LoadLevel | src/scenes/LevelEditorScene.ts:953-959 | spawn points, target points and paths come from the saved level, absent ones as empty |
| Users.CodeUnits | src/utils/UserManager.ts:69-74 | a character counts as one or two UTF-16 code units |
| Users.Utf16Length | src/utils/UserManager.ts:69-74 | the length is between one and two units per character, and is 0 exactly for the empty string |
| Users.LeadingSpaces | src/utils/UserManager.ts:68 | counts exactly the white space before the first other character |
| Users.TrailingSpaces | src/utils/UserManager.ts:68 | counts exactly the white space after the last other character |
| Users.Trim | src/utils/UserManager.ts:68 | the result is a slice of the input with no white space at either end, and everything cut off is white space |
| Users.TrimEmptyIffAllSpace | src/utils/UserManager.ts:68-71 | a string trims to nothing iff it is all white space |
| Users.TrimIdempotent | src/utils/UserManager.ts:68 | trimming twice is trimming once |
| Users.TrimPadded | src/utils/UserManager.ts:68 | surrounding white space does not change the trimmed string |
| Users.LeadingSpacesPrefix | src/utils/UserManager.ts:68 | a white-space prefix adds its length to the leading count |
| Users.CheckNickname | src/utils/UserManager.ts:67-79 | too short iff the trimmed length is below 2, too long iff above 20, and otherwise accepted as the trimmed, non-empty nickname |
| Users.AcceptedIsStable | src/utils/UserManager.ts:67-79 | an accepted nickname is accepted again, unchanged |
| Users.PaddingIgnored | src/utils/UserManager.ts:67-79 | padding a nickname with white space never changes the verdict |
| Users.UserManager.constructor | src/utils/UserManager.ts:16-41 | the manager starts from the stored profile, if any |
| Users.UserManager.HasProfile | src/utils/UserManager.ts:46-48 | true iff a profile is stored |
| Users.UserManager.GetNickname | src/utils/UserManager.ts:60-62 | the stored nickname, or "Guest" when there is no profile or the nickname is empty; never empty |
| Users.UserManager.SetNickname | src/utils/UserManager.ts:67-83 | returns the validation verdict; on acceptance it stores the trimmed nickname stamped with the given time, after which the profile exists and shows that name; on rejection the profile is unchanged |
| Users.UserManager.ClearProfile | src/utils/UserManager.ts:88-92 | no profile remains, and the displayed name is "Guest" |

## Left out

- Rendering, tweens, sprites, health bars, range circles, notifications and scene transitions are not modelled; they hold no game rules.
- Persistence is not modelled. This covers `localStorage` and JSON in the user profile and the level editor (`autoSave`, `loadSavedLevel`, `exportLevel`, `downloadLevelFile`, `showLoadMenu`, `getSavedLevels`). A profile loaded from storage is a constructor argument; a parse failure is that argument being absent.
- Events: the session's emitter and the enemies' scene events are modelled as appended event logs; listener callbacks are not modelled.
- `Date.now()` is a parameter of `Users.UserManager.SetNickname`, and frame times and deltas are parameters of the update methods.
- Geometry: the length of the current path segment and the projectile's distance and direction to its target are inputs. The source computes them with Phaser's distance, angle, `cos` and `sin`. A zero-length segment, where the source divides by zero, is excluded by the `segmentLength > 0` precondition.
- Floating point: reals are exact, so rounding in the ×1.5/×1.1/×1.2 upgrade factors and in cooldown arithmetic is not modelled.
- Target selection and the actual attack in `Tower.tryAttack` are left out, because the source leaves them unimplemented. `Towers.Tower.TryAttack` records only the attack time, as the source does.
- Level editor: the fine path grid's cell size, columns and rows are constructor parameters, because the game configuration the editor reads them from does not define them. The preview drawing on pointer move and the decoration-kind buttons are not modelled.
- Singletons (`GameManager.getInstance`, `UserManager.getInstance`) are modelled as ordinary constructors.
- `WaveManager.getTotalWaves`, `GameManager.getLevel` and `Projectile.getTarget` are plain field reads. They are modelled as functions with no contract of their own, and have no row above.
- Strings: a JavaScript string may hold a lone UTF-16 surrogate, but the model's strings are sequences of Unicode scalar values, so nicknames containing one are not representable and `Users.Utf16Length`, `Users.Trim` and `Users.CheckNickname` never see one.
- The special behaviours named in the enemy table ("grows over time", "slows towers", "spawns bugs") are labels that no code acts on.

## Findings

| source | as written | input that shows it | evidently intended | confidence | as-written member | corrected member |
|---|---|---|---|---|---|---|
| src/entities/Enemy.ts:130-133, 176-178 | `moveAlongPath` resets the progress to 0 every time it reaches 1, so the end test (last waypoint and progress at least 1) can never hold. Enemies that reach the last waypoint stay there and never report the end. Once the end event is wired to the session and the wave scheduler, which the code does not yet do, they would never cost error budget, and the wave's alive count would never drop for them | a traffic spike on the two-point path (0,0)→(1,0), with 64 px segments and 1000 ms frames: after the first frame it stands on the last waypoint, and neither that frame nor the next reports the end | an enemy standing on the last waypoint reaches the end: it reports it and is destroyed | not executed | Enemies.StuckOnLastWaypoint | Enemies.ArrivesOnLastWaypoint |
