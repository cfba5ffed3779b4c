/** Reference definitions of what each entry point of the masked-enemy patch
    decides and which external calls it makes, as pure functions of the
    state it reads. The imperative `Registry` methods are proved to emit
    exactly these actions; the lemmas here and in `Protocol` are stated
    about these functions. */
module Effects {
  import opened Game

  /** A decision together with the external calls made while reaching it. */
  datatype Effects<T> = Effects(value: T, actions: seq<Action>)

  /** The saved original search width and the live width of a routine. */
  datatype SearchWidths = SearchWidths(saved: Option<Width>, width: Width)

  function Last<T>(s: seq<T>): T
    requires s != []
  {
    s[|s| - 1]
  }

  /** The registry entry for an enemy, if any. */
  function SlotOf<K, V>(m: map<K, V>, k: K): Option<V>
  {
    if k in m then Some(m[k]) else None
  }

  /** A map with the entry for `k` set to `v`, or removed when `v` is absent. */
  function WithEntry<K, V>(m: map<K, V>, k: K, v: Option<V>): (r: map<K, V>)
    ensures SlotOf(r, k) == v
    ensures r.Keys - {k} == m.Keys - {k}
    ensures forall j :: j in r && j != k ==> j in m && r[j] == m[j]
  {
    if v.Some? then m[k := v.value] else m - {k}
  }

  /** `GetAllowedPathLinks`: the link categories a path request may use. */
  function AllowedPathLinks(globalRoaming: bool): (links: set<LinkFlag>)
    ensures InternalTeleports in links && Elevators in links && MainEntrance in links
    ensures FireExits in links <==> globalRoaming
  {
    var confined := {InternalTeleports, Elevators, MainEntrance};
    if globalRoaming then confined + {FireExits} else confined
  }

  /** The main-entrance position `CheckIfPlayersAreTargetable` heads for: the
      outside side's teleport position for an enemy inside, and vice versa. */
  function EntranceTarget(entrances: MainEntrancePositions, isOutside: bool): Position
  {
    if !isOutside then entrances.outside else entrances.inside
  }

  /** `UseTeleport`: nothing when the exit point is neither cached nor
      found; otherwise one teleport to the exit point, during which the
      search flag reads false if roaming is on and keeps its value if not. */
  function TeleportEffects(enemy: Masked, t: Teleport, exitFound: Option<Position>,
                           roaming: bool, inProgress: bool): (r: seq<Action>)
    ensures |r| <= 1
    ensures r == [] <==> t.exitPoint.None? && exitFound.None?
    ensures r != [] ==> r[0].TeleportMaskedEnemyAndSync? && r[0].enemy == enemy
    ensures r != [] ==> r[0].setOutside == !t.isEntranceToBuilding
    ensures r != [] ==> r[0].searchInProgress == (inProgress && !roaming)
    ensures r != [] && t.exitPoint.Some? ==> r[0].position == t.exitPoint.value
    ensures r != [] && t.exitPoint.None? ==> r[0].position == exitFound.value
  {
    var exit := if t.exitPoint.Some? then t.exitPoint else exitFound;
    if exit.None? then []
    else
      var during := if roaming then false else inProgress;
      [TeleportMaskedEnemyAndSync(enemy, exit.value, !t.isEntranceToBuilding, during)]
  }

  /** `GoToSmartPathDestination`: within the arrival radius of an
      activatable destination the kind's action fires first; an unrecognised
      kind there is refused with nothing emitted; in every other case the
      move command to the destination's position is issued last. */
  function ArrivalEffects(enemy: Masked, d: Destination, probe: Probe,
                          roaming: bool, inProgress: bool): (r: Effects<bool>)
    ensures !r.value <==> probe.withinRadius && probe.canActivate && d.Unrecognised?
    ensures !r.value ==> r.actions == []
    ensures r.value ==> r.actions != [] && Last(r.actions) == SetDestinationToPosition(enemy, d.position)
    ensures !(probe.withinRadius && probe.canActivate) ==> r.actions == [SetDestinationToPosition(enemy, d.position)]
    ensures forall i :: 0 <= i < |r.actions| - 1 ==> r.actions[i].IsLinkAction()
    ensures forall a :: a in r.actions ==> a.IsMovement()
    ensures probe.withinRadius && probe.canActivate && d.DirectToDestination? ==>
              r.actions == [SetDestinationToPosition(enemy, d.position)]
    ensures probe.withinRadius && probe.canActivate && d.InternalTeleport? ==>
              r.actions == [Warp(enemy, d.warpTarget), SetDestinationToPosition(enemy, d.position)]
    ensures probe.withinRadius && probe.canActivate && d.Elevator? ==>
              r.actions == [CallElevator(d.floor), SetDestinationToPosition(enemy, d.position)]
    ensures probe.withinRadius && probe.canActivate && d.EntranceTeleport? ==>
              r.actions == TeleportEffects(enemy, d.teleport, probe.exitFound, roaming, inProgress)
                           + [SetDestinationToPosition(enemy, d.position)]
  {
    var move := SetDestinationToPosition(enemy, d.position);
    if probe.withinRadius && probe.canActivate then
      match d
      case DirectToDestination(_) => Effects(true, [move])
      case InternalTeleport(_, target) => Effects(true, [Warp(enemy, target), move])
      case Elevator(_, floor) => Effects(true, [CallElevator(floor), move])
      case EntranceTeleport(_, t) =>
        Effects(true, TeleportEffects(enemy, t, probe.exitFound, roaming, inProgress) + [move])
      case Unrecognised(_) => Effects(false, [])
    else
      Effects(true, [move])
  }

  /** `GoToDestination`: with no task, or a finished one, it (re)starts the
      computation toward `target` with the current link flags as its last
      call; with a running task it does nothing and reports `InProgress`. */
  function GoToDestinationEffects(enemy: Masked, slot: Option<TaskSlot>, from: Position, target: Position,
                                  probe: Probe, roaming: bool, inProgress: bool): (r: Effects<GoResult>)
    ensures r.value == InProgress <==> slot.None? || slot == Some(NotReady)
    ensures r.value == Success <==>
              slot.Some? && slot.value.Ready? && slot.value.result.Some? &&
              ArrivalEffects(enemy, slot.value.result.value, probe, roaming, inProgress).value
    ensures slot == Some(Ready(None)) ==> r.value == Failure
    ensures r.actions == [] <==> slot == Some(NotReady)
    ensures forall a :: a in r.actions ==> a.IsMovement() || a.StartPathTask?
    ensures r.actions != [] ==> Last(r.actions) == StartPathTask(enemy, from, target, AllowedPathLinks(roaming))
    ensures slot.None? || slot == Some(Ready(None)) ==>
              r.actions == [StartPathTask(enemy, from, target, AllowedPathLinks(roaming))]
    ensures slot.Some? && slot.value.Ready? && slot.value.result.Some? ==>
              r.actions == ArrivalEffects(enemy, slot.value.result.value, probe, roaming, inProgress).actions
                           + [StartPathTask(enemy, from, target, AllowedPathLinks(roaming))]
  {
    var start := StartPathTask(enemy, from, target, AllowedPathLinks(roaming));
    match slot
    case None => Effects(InProgress, [start])
    case Some(NotReady) => Effects(InProgress, [])
    case Some(Ready(None)) => Effects(Failure, [start])
    case Some(Ready(Some(d))) =>
      var arrival := ArrivalEffects(enemy, d, probe, roaming, inProgress);
      Effects(if arrival.value then Success else Failure, arrival.actions + [start])
  }

  /** `PathToPlayer`: like `GoToDestination` toward the player's position,
      except that a direct destination hands over to the game's own pursuit
      and no outcome is reported. */
  function PathToPlayerEffects(enemy: Masked, slot: Option<TaskSlot>, from: Position, player: Player,
                               target: Position, probe: Probe, roaming: bool, inProgress: bool): (r: seq<Action>)
    ensures r == [] <==> slot == Some(NotReady)
    ensures r != [] ==> Last(r) == StartPathTask(enemy, from, target, AllowedPathLinks(roaming))
    ensures slot.None? || slot == Some(Ready(None)) ==>
              r == [StartPathTask(enemy, from, target, AllowedPathLinks(roaming))]
    ensures slot.Some? && slot.value.Ready? && slot.value.result.Some? && slot.value.result.value.DirectToDestination? ==>
              r == [SetMovingTowardsTargetPlayer(enemy, player), StartPathTask(enemy, from, target, AllowedPathLinks(roaming))]
    ensures slot.Some? && slot.value.Ready? && slot.value.result.Some? && !slot.value.result.value.DirectToDestination? ==>
              r == ArrivalEffects(enemy, slot.value.result.value, probe, roaming, inProgress).actions
                   + [StartPathTask(enemy, from, target, AllowedPathLinks(roaming))]
  {
    var start := StartPathTask(enemy, from, target, AllowedPathLinks(roaming));
    match slot
    case None => [start]
    case Some(NotReady) => []
    case Some(Ready(None)) => [start]
    case Some(Ready(Some(d))) =>
      if d.DirectToDestination? then [SetMovingTowardsTargetPlayer(enemy, player), start]
      else ArrivalEffects(enemy, d, probe, roaming, inProgress).actions + [start]
  }

  /** `CheckIfPlayersAreTargetable`: whether the periodic targeting logic
      proceeds, with the calls made on the way. Roaming or a reachable
      player lets it proceed untouched; otherwise the enemy heads for the
      main entrance and proceeds only when that request fails, stopping its
      player search exactly when the request succeeds. */
  function TargetableEffects(enemy: Masked, roaming: bool, hasClosestPlayer: bool, slot: Option<TaskSlot>,
                             from: Position, entrance: Position, probe: Probe, inProgress: bool): (r: Effects<bool>)
    ensures var go := GoToDestinationEffects(enemy, slot, from, entrance, probe, roaming, inProgress);
      && (r.value <==> roaming || hasClosestPlayer || go.value == Failure)
      && (roaming || hasClosestPlayer ==> r.actions == [])
      && (!roaming && !hasClosestPlayer && go.value != Success ==> r.actions == go.actions)
      && (!roaming && !hasClosestPlayer && go.value == Success ==>
            r.actions == go.actions + [StopSearch(enemy, enemy.searchForPlayers)])
    ensures StopSearch(enemy, enemy.searchForPlayers) in r.actions <==>
              !roaming && !hasClosestPlayer &&
              GoToDestinationEffects(enemy, slot, from, entrance, probe, roaming, inProgress).value == Success
  {
    if roaming || hasClosestPlayer then Effects(true, [])
    else
      var go := GoToDestinationEffects(enemy, slot, from, entrance, probe, roaming, inProgress);
      match go.value
      case InProgress => Effects(false, go.actions)
      case Success => Effects(false, go.actions + [StopSearch(enemy, enemy.searchForPlayers)])
      case Failure => Effects(true, go.actions)
  }

  /** `StartSearch`'s treatment of the search width. Only the enemy's own
      player search is touched. Under roaming the width becomes infinite and
      the original is saved unless a saved one already exists; without
      roaming a saved width is restored exactly and forgotten. */
  function SearchWidthAfter(isPlayerSearch: bool, roaming: bool, w: SearchWidths): (r: SearchWidths)
    ensures !isPlayerSearch ==> r == w
    ensures isPlayerSearch && roaming ==> r.width == Infinite && r.saved.Some?
    ensures isPlayerSearch && roaming && w.saved.Some? ==> r.saved == w.saved
    ensures isPlayerSearch && roaming && w.saved.None? ==> r.saved == Some(w.width)
    ensures isPlayerSearch && !roaming ==> r.saved.None?
    ensures isPlayerSearch && !roaming && w.saved.Some? ==> r.width == w.saved.value
    ensures isPlayerSearch && !roaming && w.saved.None? ==> r.width == w.width
  {
    if !isPlayerSearch then w
    else if roaming then
      SearchWidths(if w.saved.None? then Some(w.width) else w.saved, Infinite)
    else if w.saved.Some? then
      SearchWidths(None, w.saved.value)
    else w
  }

  /** The number of path requests among a sequence of calls. */
  function CountStarts(s: seq<Action>): nat
  {
    if s == [] then 0 else (if s[0].StartPathTask? then 1 else 0) + CountStarts(s[1..])
  }

  lemma {:induction false} CountStartsAppend(a: seq<Action>, b: seq<Action>)
    ensures CountStarts(a + b) == CountStarts(a) + CountStarts(b)
  {
    if a != [] {
      assert (a + b)[0] == a[0] && (a + b)[1..] == a[1..] + b;
      CountStartsAppend(a[1..], b);
    } else {
      assert a + b == b;
    }
  }

  lemma {:induction false} NoStartsAmongMovements(s: seq<Action>)
    requires forall a :: a in s ==> a.IsMovement()
    ensures CountStarts(s) == 0
  {
    if s != [] {
      assert s[0] in s;
      NoStartsAmongMovements(s[1..]);
    }
  }

  /** Each `GoToDestination` call requests at most one path, and requests
      one exactly when no computation is running for the enemy. */
  lemma GoToDestinationStartsOne(enemy: Masked, slot: Option<TaskSlot>, from: Position, target: Position,
                                 probe: Probe, roaming: bool, inProgress: bool)
    ensures CountStarts(GoToDestinationEffects(enemy, slot, from, target, probe, roaming, inProgress).actions)
            == if slot == Some(NotReady) then 0 else 1
  {
    var start := StartPathTask(enemy, from, target, AllowedPathLinks(roaming));
    if slot.Some? && slot.value.Ready? && slot.value.result.Some? {
      var arrival := ArrivalEffects(enemy, slot.value.result.value, probe, roaming, inProgress);
      NoStartsAmongMovements(arrival.actions);
      CountStartsAppend(arrival.actions, [start]);
    }
  }

  /** The same for `PathToPlayer`. */
  lemma PathToPlayerStartsOne(enemy: Masked, slot: Option<TaskSlot>, from: Position, player: Player,
                              target: Position, probe: Probe, roaming: bool, inProgress: bool)
    ensures CountStarts(PathToPlayerEffects(enemy, slot, from, player, target, probe, roaming, inProgress))
            == if slot == Some(NotReady) then 0 else 1
  {
    var start := StartPathTask(enemy, from, target, AllowedPathLinks(roaming));
    var r := PathToPlayerEffects(enemy, slot, from, player, target, probe, roaming, inProgress);
    if slot.Some? && slot.value.Ready? && slot.value.result.Some? {
      if slot.value.result.value.DirectToDestination? {
        assert r == [SetMovingTowardsTargetPlayer(enemy, player), start];
        assert r[1..] == [start] && [start][1..] == [];
        assert CountStarts([start]) == 1;
      } else {
        var arrival := ArrivalEffects(enemy, slot.value.result.value, probe, roaming, inProgress);
        NoStartsAmongMovements(arrival.actions);
        CountStartsAppend(arrival.actions, [start]);
      }
    }
  }
}
