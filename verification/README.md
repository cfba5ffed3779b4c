# Smart pathfinding for the masked enemy, modelled in Dafny

This project models the decision layer that SmartEnemyPathfinding patches into
the masked enemy (`MaskedPlayerEnemy`) of Lethal Company. The patch does not
walk the enemy straight to a goal. It asks the pathfinding library for a path
that may pass through special links (internal teleports, elevators, the main
entrance, fire exits), and it polls the finished result on later AI intervals.
When the enemy stands at a special link, the patch fires the link's action
(a warp, an elevator call or an entrance teleport) and then keeps the enemy
moving.

The model has four parts:

- `game.dfy` (module `Game`) holds the host entities: the enemy, its player
  search routine, players, destinations and the per-enemy task slot. It also
  holds `Action`, the alphabet of external calls the patch makes. Every such
  call is appended to a trace instead of being performed.
- `effects.dfy` (module `Effects`) defines, as pure functions, what each entry
  point decides and which calls it makes. Their contracts state the
  behaviour the patch promises. The lemmas there count the path requests
  each call makes.
- `patch.dfy` (module `PatchMaskedPlayerEnemy`) holds the class `Registry`.
  It has the patch's two static tables, `tasks` and `originalSearchWidths`,
  and the trace. Its methods follow the source statement by statement. Each
  one is proved to leave exactly the tables and the trace that the matching
  `Effects` function describes.
- `protocol.dfy` (module `Protocol`) and `scenarios.dfy` (module `Scenarios`)
  state properties of runs of several calls:
  - the search-width snapshot is taken once and restored exactly;
  - at most one path computation is outstanding per enemy;
  - destruction is idempotent;
  - two concrete runs are checked on fresh objects.

Modelling choices:

- **Positions and geometry.** A `Position` is opaque. The test
  `Vector3.Distance(...) <= 1f` is the boolean `Probe.withinRadius`.
  `CanActivateDestination` is `Probe.canActivate`. What `FindExitPoint`
  would find is `Probe.exitFound`.
- **Global roaming.** The configuration value `GlobalRoaming` is a plain
  boolean parameter of every entry point that reads it.
- **Task slots.** A path task is a slot: `NotReady` (a computation is
  running) or `Ready(result)`. The result is absent when no path was found.
  `StartPathTask` records an action and leaves the slot `NotReady`. The
  library finishing a computation is an outside event: `Protocol.Event.Complete`
  in the run model, and a direct update of `tasks` in
  `Scenarios.ExitThroughMainEntrance`.
- **Search width.** A width is `Finite(units)` or `Infinite`, so
  `float.PositiveInfinity` needs no floating point.
- **The search flag during a teleport.** The recorded
  `TeleportMaskedEnemyAndSync` action carries the value that
  `searchForPlayers.inProgress` has at the moment of the teleport. This is
  how the model states that the search sees `false` during a roaming
  teleport.

Three facts about the code shape the model:

- **No request while a task runs.** `GoToDestination` and `PathToPlayer`
  return before `StartPathTask` while the enemy's task is not ready
  (SmartEnemyPathfinding/Patches/PatchMaskedPlayerEnemy.cs:111-112 and
  174-175). `GoToDestinationEffects` and `PathToPlayerEffects` therefore emit
  nothing in that case. `Protocol.AtMostOneOutstanding` relies on this.
- **Destruction keeps the saved width.** `OnDestroyPostfix` removes only the
  `tasks` entry (line 281). `Registry.OnDestroyPostfix` does the same, so an
  entry in `originalSearchWidths` outlives its enemy.
- **Arrival is checked before the move command.** Inside the radius the
  kind's action fires first, and then the move command is issued (lines
  76-96). An unrecognised kind inside the radius returns before the move
  command. `ArrivalEffects` states this order.

## Model

| member | source | states |
|---|---|---|
| `Effects.AllowedPathLinks` | SmartEnemyPathfinding/Patches/PatchMaskedPlayerEnemy.cs:46-52 | internal teleports, elevators and the main entrance are always allowed; fire exits are allowed exactly when global roaming is on |
| `Effects.TeleportEffects` | SmartEnemyPathfinding/Patches/PatchMaskedPlayerEnemy.cs:54-72 | no teleport when the exit point is neither cached nor found; otherwise exactly one teleport, to the cached exit point or the found one, with `setOutside` the negation of `isEntranceToBuilding`, during which the search flag reads false under roaming and keeps its value otherwise |
| `Effects.ArrivalEffects` | SmartEnemyPathfinding/Patches/PatchMaskedPlayerEnemy.cs:74-98 | the result is false exactly for an unrecognised kind inside the radius with activation allowed, and then nothing is emitted; outside the radius or without activation only the move command is issued, even for an unrecognised kind; a direct destination inside the radius also issues only the move command; when true, the move to the destination's position is the last call and every earlier call is a link action (warp to the linked target, elevator call, or the entrance teleport) |
| `Effects.GoToDestinationEffects` | SmartEnemyPathfinding/Patches/PatchMaskedPlayerEnemy.cs:105-127 | `InProgress` exactly when there is no task or it is still running; `Success` exactly when the finished result is a destination that the arrival handling accepts; `Failure` for an absent result; only movement commands and path requests are issued; a running task emits nothing, and every other case ends by restarting the task toward the same target with the current link flags |
| `Effects.PathToPlayerEffects` | SmartEnemyPathfinding/Patches/PatchMaskedPlayerEnemy.cs:170-193 | nothing while the task runs; a direct destination hands over to `SetMovingTowardsTargetPlayer`; any other destination goes through the arrival handling; every case except a running task ends by restarting the task toward the player's position |
| `Effects.TargetableEffects` | SmartEnemyPathfinding/Patches/PatchMaskedPlayerEnemy.cs:129-148 | the interval proceeds exactly when roaming is on, a closest player exists, or the main-entrance request fails; roaming or a closest player makes no call; `StopSearch` on the player search is emitted, last, exactly when the request succeeds |
| `Effects.SearchWidthAfter` | SmartEnemyPathfinding/Patches/PatchMaskedPlayerEnemy.cs:150-165 | another routine is untouched; under roaming the player search width becomes infinite and the original is saved only when nothing is saved yet; without roaming a saved width is restored exactly and forgotten |
| `Effects.GoToDestinationStartsOne` | SmartEnemyPathfinding/Patches/PatchMaskedPlayerEnemy.cs:109-125 | a `GoToDestination` call requests exactly one path when no computation is running for the enemy, and none when one is |
| `Effects.PathToPlayerStartsOne` | SmartEnemyPathfinding/Patches/PatchMaskedPlayerEnemy.cs:172-191 | the same for `PathToPlayer` |
| `PatchMaskedPlayerEnemy.Registry.constructor` | SmartEnemyPathfinding/Patches/PatchMaskedPlayerEnemy.cs:18 | both tables start empty and no call has been made |
| `PatchMaskedPlayerEnemy.Registry.StartPathTask` | SmartEnemyPathfinding/Patches/PatchMaskedPlayerEnemy.cs:125 | records a request from the enemy's position to the target with the current link flags, and marks the enemy's task running |
| `PatchMaskedPlayerEnemy.Registry.TeleportMaskedEnemyAndSync` | SmartEnemyPathfinding/Patches/PatchMaskedPlayerEnemy.cs:64-70 | records the teleport together with the search flag as it is at that moment |
| `PatchMaskedPlayerEnemy.Registry.UseTeleport` | SmartEnemyPathfinding/Patches/PatchMaskedPlayerEnemy.cs:54-72 | emits exactly `TeleportEffects`, so the search flag is false during a roaming teleport, and the flag afterwards equals its value before |
| `PatchMaskedPlayerEnemy.Registry.GoToSmartPathDestination` | SmartEnemyPathfinding/Patches/PatchMaskedPlayerEnemy.cs:74-98 | returns and emits exactly what `ArrivalEffects` gives; the search flag is unchanged |
| `PatchMaskedPlayerEnemy.Registry.RoamToSmartPathDestination` | SmartEnemyPathfinding/Patches/PatchMaskedPlayerEnemy.cs:100-103 | emits the arrival handling's calls and discards its outcome |
| `PatchMaskedPlayerEnemy.Registry.GoToDestination` | SmartEnemyPathfinding/Patches/PatchMaskedPlayerEnemy.cs:105-127 | the enemy's task is running afterwards, with a fresh one inserted if there was none; `tasks` is unchanged when the task was already running; the outcome and calls are those of `GoToDestinationEffects` |
| `PatchMaskedPlayerEnemy.Registry.CheckIfPlayersAreTargetable` | SmartEnemyPathfinding/Patches/PatchMaskedPlayerEnemy.cs:129-148 | `tasks` is touched only when the main-entrance request is made; the verdict and calls are those of `TargetableEffects` |
| `PatchMaskedPlayerEnemy.Registry.StartSearch` | SmartEnemyPathfinding/Patches/PatchMaskedPlayerEnemy.cs:150-168 | the routine's width and the enemy's saved-width entry become those of `SearchWidthAfter`; other enemies' entries are kept; `StartSmartSearch` with the current link flags is always the one call made |
| `PatchMaskedPlayerEnemy.Registry.PathToPlayer` | SmartEnemyPathfinding/Patches/PatchMaskedPlayerEnemy.cs:170-193 | the enemy's task is running afterwards, and unchanged if it already was; the calls are those of `PathToPlayerEffects` toward the player's position |
| `PatchMaskedPlayerEnemy.Registry.OnDestroyPostfix` | SmartEnemyPathfinding/Patches/PatchMaskedPlayerEnemy.cs:279-282 | removes only that enemy's task, with no effect for an enemy without one; other tasks and the saved widths are kept |
| `Protocol.SnapshotTakenOnce` | SmartEnemyPathfinding/Patches/PatchMaskedPlayerEnemy.cs:150-168 | over any run of searches, the width is infinite with the original saved after a roaming call, and exactly the original with nothing saved after a non-roaming one; repeated roaming calls never overwrite the snapshot |
| `Protocol.AtMostOneOutstanding` | SmartEnemyPathfinding/Patches/PatchMaskedPlayerEnemy.cs:105-193 | over any interleaving of `GoToDestination`, `PathToPlayer`, library completions and destruction, the path requests made exceed those completed or abandoned by at most one |
| `Protocol.DestroyIdempotent` | SmartEnemyPathfinding/Patches/PatchMaskedPlayerEnemy.cs:279-282 | a destroyed enemy has no task, and destroying it twice equals destroying it once |
| `Scenarios.RoamingWidthRoundTrip` | SmartEnemyPathfinding/Patches/PatchMaskedPlayerEnemy.cs:150-168 | on the class: roaming, roaming again, then not roaming gives an infinite width during roaming, exactly the original width afterwards, and no saved entry |
| `Scenarios.ExitThroughMainEntrance` | SmartEnemyPathfinding/Patches/PatchMaskedPlayerEnemy.cs:129-148 | on the class: an enemy inside with no player first requests a path to the outside entrance and is held back; at the entrance door it is then teleported out, keeps moving, re-requests the path, has its player search stopped, and is still held back |

## Left out

- `DoAIIntervalTranspiler` (lines 195-275) rewrites the game's bytecode so that the three entry points are called. The model assumes they are called at those sites and does not model the rewriting.
- `AwakePrefix` (lines 29-35) registers the navigation agent with the pathfinding library. It is a foreign call with no decision of its own.
- `ReplaceAINodesPostfix` (lines 40-44) replaces the AI node list by a lookup of game objects by tag. This is also a foreign call with no decision of its own.
- SmartEnemyPathfinding/Plugin.cs is not part of this model. It loads the configuration and applies the patches; its `GlobalRoaming` value is a parameter here.
- SmartEnemyPathfinding/Patches/Reflection.cs is not part of this model. It is a reflection helper.
- The declaration of `originalSearchWidths` is not part of this model. The table is used at lines 156-163 but declared in a file that is not shown. It is modelled as a map keyed by enemy, beside `tasks`.
- The internals of the following are not modelled; their answers are inputs: `SmartPathTask`, `SmartPathDestination`, `CanActivateDestination`, `FindExitPoint`, `GetClosestPlayer`, `FindMainEntrancePosition`.
- `FindExitPoint` caches the exit point on the teleport object. The model passes the teleport by value, so that cache is not modelled.
- The pathfinding library computes paths concurrently. The model has only the polled slot. A completed computation appears only as `Protocol.Event.Complete` and, in one scenario, as a direct update of `tasks`.
- Positions never change in the model. `Warp`, the teleport and the move command are recorded as actions, and their effect on the world is not modelled. Consequences:
  - A path request made after a warp or teleport in the same call records the enemy's position from before the move. The source reads the position after the move (line 125), so that request really starts at the exit point.
  - `isOutside` keeps its value after an entrance teleport, although the game flips it.
  - `searchForPlayers.inProgress` keeps its value after `StopSearch` and `StartSmartSearch`. Those calls belong to the game's search routine, which sets the flag; `Registry.CheckIfPlayersAreTargetable`'s promise that the flag is unchanged covers only the patch's own writes.
- Floating-point distances and widths are not modelled. The one distance test is an input, and a width is either finite or infinite.
- `Protocol.AtMostOneOutstanding` fixes global roaming and the search flag for the whole run. Neither affects how many requests a call makes.

