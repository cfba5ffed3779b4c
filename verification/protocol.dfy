/** Properties of the patch over many calls: the roaming toggle of the
    player search width, and the request/consume protocol of the path-task
    registry over any interleaving of calls, library completions and enemy
    destruction. */
module Protocol {
  import opened Game
  import opened Effects

  /** Repeated `StartSearch` calls on an enemy's player search, the i-th one
      made with global roaming set to `toggles[i]`. */
  function SearchesWith(toggles: seq<bool>, w: SearchWidths): SearchWidths
  {
    if toggles == [] then w else SearchesWith(toggles[1..], SearchWidthAfter(true, toggles[0], w))
  }

  /** From the original width, or from the widened state that saved it, any
      run of calls ends widened with the original still saved if the last
      call roamed, and back at exactly the original width with nothing saved
      if it did not: a second roaming call never overwrites the snapshot. */
  lemma {:induction false} SnapshotTakenOnce(toggles: seq<bool>, w: SearchWidths, original: Width)
    requires w == SearchWidths(None, original) || w == SearchWidths(Some(original), Infinite)
    ensures toggles == [] ==> SearchesWith(toggles, w) == w
    ensures toggles != [] && !Last(toggles) ==> SearchesWith(toggles, w) == SearchWidths(None, original)
    ensures toggles != [] && Last(toggles) ==> SearchesWith(toggles, w) == SearchWidths(Some(original), Infinite)
  {
    if toggles != [] {
      var next := SearchWidthAfter(true, toggles[0], w);
      SnapshotTakenOnce(toggles[1..], next, original);
      if toggles[1..] != [] {
        assert Last(toggles[1..]) == Last(toggles);
      }
    }
  }

  /** One step in the life of an enemy's path task. */
  datatype Event =
    | GoTo(from: Position, target: Position, probe: Probe)                   // a `GoToDestination` call
    | Pursue(from: Position, player: Player, target: Position, probe: Probe)  // a `PathToPlayer` call
    | Complete(result: Option<Destination>)                                  // the library finishes the running computation
    | Destroy                                                                // `OnDestroyPostfix`

  /** The enemy's task slot, the calls made so far, and how many requested
      computations have completed or been abandoned by destruction. */
  datatype Run = Run(slot: Option<TaskSlot>, actions: seq<Action>, completed: nat, abandoned: nat)

  function Step(enemy: Masked, roaming: bool, inProgress: bool, r: Run, e: Event): Run
  {
    match e
    case GoTo(from, target, probe) =>
      var go := GoToDestinationEffects(enemy, r.slot, from, target, probe, roaming, inProgress);
      r.(slot := Some(NotReady), actions := r.actions + go.actions)
    case Pursue(from, player, target, probe) =>
      var calls := PathToPlayerEffects(enemy, r.slot, from, player, target, probe, roaming, inProgress);
      r.(slot := Some(NotReady), actions := r.actions + calls)
    case Complete(result) =>
      if r.slot == Some(NotReady) then r.(slot := Some(Ready(result)), completed := r.completed + 1) else r
    case Destroy =>
      r.(slot := None, abandoned := r.abandoned + if r.slot == Some(NotReady) then 1 else 0)
  }

  function Execute(enemy: Masked, roaming: bool, inProgress: bool, r: Run, events: seq<Event>): Run
    decreases events
  {
    if events == [] then r else Execute(enemy, roaming, inProgress, Step(enemy, roaming, inProgress, r, events[0]), events[1..])
  }

  /** Every requested computation has completed, been abandoned, or is the
      one the enemy's running task stands for. */
  predicate Accounted(r: Run)
  {
    CountStarts(r.actions) == r.completed + r.abandoned + if r.slot == Some(NotReady) then 1 else 0
  }

  lemma StepKeepsAccounted(enemy: Masked, roaming: bool, inProgress: bool, r: Run, e: Event)
    requires Accounted(r)
    ensures Accounted(Step(enemy, roaming, inProgress, r, e))
  {
    match e
    case GoTo(from, target, probe) =>
      var go := GoToDestinationEffects(enemy, r.slot, from, target, probe, roaming, inProgress);
      CountStartsAppend(r.actions, go.actions);
      GoToDestinationStartsOne(enemy, r.slot, from, target, probe, roaming, inProgress);
    case Pursue(from, player, target, probe) =>
      var calls := PathToPlayerEffects(enemy, r.slot, from, player, target, probe, roaming, inProgress);
      CountStartsAppend(r.actions, calls);
      PathToPlayerStartsOne(enemy, r.slot, from, player, target, probe, roaming, inProgress);
    case Complete(_) =>
    case Destroy =>
  }

  /** At most one computation is ever outstanding for an enemy: over any
      sequence of calls, completions and destructions starting from an
      accounted state (such as no task and no calls), the requests made
      exceed those completed or abandoned by at most one, and by one exactly
      when the enemy's task is running. */
  lemma {:induction false} AtMostOneOutstanding(enemy: Masked, roaming: bool, inProgress: bool, r: Run, events: seq<Event>)
    requires Accounted(r)
    decreases events
    ensures Accounted(Execute(enemy, roaming, inProgress, r, events))
    ensures var x := Execute(enemy, roaming, inProgress, r, events);
      CountStarts(x.actions) <= x.completed + x.abandoned + 1
  {
    if events != [] {
      StepKeepsAccounted(enemy, roaming, inProgress, r, events[0]);
      AtMostOneOutstanding(enemy, roaming, inProgress, Step(enemy, roaming, inProgress, r, events[0]), events[1..]);
    }
  }

  /** A destroyed enemy has no task, and destroying it again changes nothing. */
  lemma DestroyIdempotent(enemy: Masked, roaming: bool, inProgress: bool, r: Run)
    ensures Execute(enemy, roaming, inProgress, r, [Destroy]).slot.None?
    ensures Execute(enemy, roaming, inProgress, r, [Destroy, Destroy]) == Execute(enemy, roaming, inProgress, r, [Destroy])
  {
  }
}
