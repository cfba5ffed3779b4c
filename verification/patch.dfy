/** The masked-enemy patch itself: the static per-enemy tables and the entry
    points the game's AI interval is rerouted to. Each method follows the
    patch's code step by step and is proved to emit exactly the actions, and
    leave exactly the tables, that the functions of `Effects` describe. */
module PatchMaskedPlayerEnemy {
  import opened Game
  import opened Effects

  /** The patch's static state. `tasks` maps each enemy to its path task;
      `originalSearchWidths` maps an enemy to the width its player search had
      before roaming widened it. `trace` is every external call made so far. */
  class Registry {
    var tasks: map<Masked, TaskSlot>
    var originalSearchWidths: map<Masked, Width>
    var trace: seq<Action>

    constructor ()
      ensures tasks == map[] && originalSearchWidths == map[] && trace == []
    {
      tasks := map[];
      originalSearchWidths := map[];
      trace := [];
    }

    /** Makes one external call. */
    method Emit(a: Action)
      modifies this`trace
      ensures trace == old(trace) + [a]
    {
      trace := trace + [a];
    }

    /** `SmartPathTask.StartPathTask`: starts a fresh computation from the
        enemy's position, so the enemy's task is running again. */
    method StartPathTask(masked: Masked, target: Position, roaming: bool)
      modifies this`trace, this`tasks
      ensures tasks == old(tasks)[masked := NotReady]
      ensures trace == old(trace) + [Action.StartPathTask(masked, masked.position, target, AllowedPathLinks(roaming))]
    {
      Emit(Action.StartPathTask(masked, masked.position, target, AllowedPathLinks(roaming)));
      tasks := tasks[masked := NotReady];
    }

    /** `TeleportMaskedEnemyAndSync`, recording the search flag it observes. */
    method TeleportMaskedEnemyAndSync(masked: Masked, position: Position, setOutside: bool)
      modifies this`trace
      ensures trace == old(trace) +
        [Action.TeleportMaskedEnemyAndSync(masked, position, setOutside, masked.searchForPlayers.inProgress)]
    {
      Emit(Action.TeleportMaskedEnemyAndSync(masked, position, setOutside, masked.searchForPlayers.inProgress));
    }

    method UseTeleport(masked: Masked, teleport: Teleport, exitFound: Option<Position>, roaming: bool)
      modifies this`trace, masked.searchForPlayers`inProgress
      ensures trace == old(trace) +
        TeleportEffects(masked, teleport, exitFound, roaming, old(masked.searchForPlayers.inProgress))
      ensures masked.searchForPlayers.inProgress == old(masked.searchForPlayers.inProgress)
    {
      var exitPoint := teleport.exitPoint;
      if exitPoint.None? {
        if exitFound.None? {
          return;
        }
        exitPoint := exitFound;
      }

      if roaming {
        var searchWasInProgress := masked.searchForPlayers.inProgress;
        masked.searchForPlayers.inProgress := false;

        TeleportMaskedEnemyAndSync(masked, exitPoint.value, !teleport.isEntranceToBuilding);

        masked.searchForPlayers.inProgress := searchWasInProgress;
      } else {
        TeleportMaskedEnemyAndSync(masked, exitPoint.value, !teleport.isEntranceToBuilding);
      }
    }

    method GoToSmartPathDestination(masked: Masked, destination: Destination, probe: Probe, roaming: bool)
      returns (handled: bool)
      modifies this`trace, masked.searchForPlayers`inProgress
      ensures var e := ArrivalEffects(masked, destination, probe, roaming, old(masked.searchForPlayers.inProgress));
        handled == e.value && trace == old(trace) + e.actions
      ensures masked.searchForPlayers.inProgress == old(masked.searchForPlayers.inProgress)
    {
      if probe.withinRadius && probe.canActivate {
        match destination
        case DirectToDestination(_) =>
        case InternalTeleport(_, target) =>
          Emit(Warp(masked, target));
        case Elevator(_, floor) =>
          Emit(CallElevator(floor));
        case EntranceTeleport(_, teleport) =>
          UseTeleport(masked, teleport, probe.exitFound, roaming);
        case Unrecognised(_) =>
          return false;
      }

      Emit(SetDestinationToPosition(masked, destination.position));
      return true;
    }

    /** The waypoint callback handed to the smart search: the same arrival
        handling, with its outcome ignored. */
    method RoamToSmartPathDestination(masked: Masked, destination: Destination, probe: Probe, roaming: bool)
      modifies this`trace, masked.searchForPlayers`inProgress
      ensures trace == old(trace) +
        ArrivalEffects(masked, destination, probe, roaming, old(masked.searchForPlayers.inProgress)).actions
      ensures masked.searchForPlayers.inProgress == old(masked.searchForPlayers.inProgress)
    {
      var _ := GoToSmartPathDestination(masked, destination, probe, roaming);
    }

    method GoToDestination(masked: Masked, target: Position, probe: Probe, roaming: bool)
      returns (result: GoResult)
      modifies this`trace, this`tasks, masked.searchForPlayers`inProgress
      ensures tasks == old(tasks)[masked := NotReady]
      ensures old(SlotOf(tasks, masked)) == Some(NotReady) ==> tasks == old(tasks)
      ensures var e := GoToDestinationEffects(masked, old(SlotOf(tasks, masked)), masked.position, target,
                                              probe, roaming, old(masked.searchForPlayers.inProgress));
        result == e.value && trace == old(trace) + e.actions
      ensures masked.searchForPlayers.inProgress == old(masked.searchForPlayers.inProgress)
    {
      result := InProgress;

      if masked in tasks {
        var task := tasks[masked];
        if task.NotReady? {
          return;
        }

        match task.result
        case Some(destination) =>
          var handled := GoToSmartPathDestination(masked, destination, probe, roaming);
          result := if handled then Success else Failure;
        case None =>
          result := Failure;
      } else {
        tasks := tasks[masked := NotReady];
      }

      StartPathTask(masked, target, roaming);
    }

    method CheckIfPlayersAreTargetable(masked: Masked, roaming: bool, hasClosestPlayer: bool,
                                       entrances: MainEntrancePositions, probe: Probe)
      returns (proceed: bool)
      modifies this`trace, this`tasks, masked.searchForPlayers`inProgress
      ensures tasks == if roaming || hasClosestPlayer then old(tasks) else old(tasks)[masked := NotReady]
      ensures var e := TargetableEffects(masked, roaming, hasClosestPlayer, old(SlotOf(tasks, masked)),
                                         masked.position, EntranceTarget(entrances, masked.isOutside),
                                         probe, old(masked.searchForPlayers.inProgress));
        proceed == e.value && trace == old(trace) + e.actions
      ensures masked.searchForPlayers.inProgress == old(masked.searchForPlayers.inProgress)
    {
      if roaming {
        return true;
      }

      if !hasClosestPlayer {
        var result := GoToDestination(masked, EntranceTarget(entrances, masked.isOutside), probe, roaming);

        if result == InProgress {
          return false;
        }
        if result == Success {
          Emit(StopSearch(masked, masked.searchForPlayers));
          return false;
        }
      }

      return true;
    }

    method StartSearch(masked: Masked, searchStart: Position, searchRoutine: SearchRoutine, roaming: bool)
      modifies this`trace, this`originalSearchWidths, searchRoutine`searchWidth
      ensures var r := SearchWidthAfter(searchRoutine == masked.searchForPlayers, roaming,
                                        SearchWidths(old(SlotOf(originalSearchWidths, masked)), old(searchRoutine.searchWidth)));
        && searchRoutine.searchWidth == r.width
        && originalSearchWidths == WithEntry(old(originalSearchWidths), masked, r.saved)
      ensures trace == old(trace) + [StartSmartSearch(masked, searchStart, AllowedPathLinks(roaming), searchRoutine)]
    {
      if searchRoutine == masked.searchForPlayers {
        if roaming {
          if masked !in originalSearchWidths {
            originalSearchWidths := originalSearchWidths[masked := searchRoutine.searchWidth];
          }
          searchRoutine.searchWidth := Infinite;
        } else if masked in originalSearchWidths {
          searchRoutine.searchWidth := originalSearchWidths[masked];
          originalSearchWidths := originalSearchWidths - {masked};
        }
      }

      Emit(StartSmartSearch(masked, searchStart, AllowedPathLinks(roaming), searchRoutine));
    }

    method PathToPlayer(masked: Masked, player: Player, probe: Probe, roaming: bool)
      modifies this`trace, this`tasks, masked.searchForPlayers`inProgress
      ensures tasks == old(tasks)[masked := NotReady]
      ensures old(SlotOf(tasks, masked)) == Some(NotReady) ==> tasks == old(tasks)
      ensures trace == old(trace) +
        PathToPlayerEffects(masked, old(SlotOf(tasks, masked)), masked.position, player, player.position,
                            probe, roaming, old(masked.searchForPlayers.inProgress))
      ensures masked.searchForPlayers.inProgress == old(masked.searchForPlayers.inProgress)
    {
      if masked in tasks {
        var task := tasks[masked];
        if task.NotReady? {
          return;
        }

        if task.result.Some? {
          var destination := task.result.value;
          if destination.DirectToDestination? {
            Emit(SetMovingTowardsTargetPlayer(masked, player));
          } else {
            var _ := GoToSmartPathDestination(masked, destination, probe, roaming);
          }
        }
      } else {
        tasks := tasks[masked := NotReady];
      }

      StartPathTask(masked, player.position, roaming);
    }

    method OnDestroyPostfix(masked: Masked)
      modifies this`tasks
      ensures tasks == old(tasks) - {masked}
      ensures masked !in tasks
      ensures forall other :: other in old(tasks) && other != masked ==> other in tasks && tasks[other] == old(tasks)[other]
    {
      tasks := tasks - {masked};
    }
  }
}
