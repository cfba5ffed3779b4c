/** Runs of the patch's entry points on freshly made game objects, proved
    from the `Registry` method contracts alone: the roaming width round trip
    and an enemy with no one to target leaving through the main entrance. */
module Scenarios {
  import opened Game
  import opened PatchMaskedPlayerEnemy

  /** Roaming on, roaming on again, roaming off: the player search is
      unbounded while roaming and gets exactly its original width back, with
      the snapshot forgotten, once roaming ends. */
  method RoamingWidthRoundTrip(original: Width, position: Position, searchStart: Position)
    returns (during: Width, after: Width, stillSaved: bool)
    ensures during == Infinite
    ensures after == original
    ensures !stillSaved
  {
    var routine := new SearchRoutine(true, original);
    var masked := new Masked(position, false, routine);
    var registry := new Registry();

    registry.StartSearch(masked, searchStart, routine, true);
    registry.StartSearch(masked, searchStart, routine, true);
    during := routine.searchWidth;

    registry.StartSearch(masked, searchStart, routine, false);
    after := routine.searchWidth;
    stillSaved := masked in registry.originalSearchWidths;
  }

  /** An enemy inside the building, not roaming, with no player to target.
      The first check requests a path to the outside main entrance and holds
      the enemy back. Once the library has found the entrance teleport and
      the enemy stands at it, the second check teleports it out, keeps
      moving, requests a fresh path, stops the player search, and still holds
      the targeting logic back. */
  method ExitThroughMainEntrance(position: Position, entrances: MainEntrancePositions, exit: Position)
    returns (first: bool, second: bool, calls: seq<Action>)
    ensures !first && !second
    ensures |calls| == 5
    ensures calls[0].StartPathTask? && calls[0].to == entrances.outside && FireExits !in calls[0].links
    ensures calls[1].TeleportMaskedEnemyAndSync? && calls[1].position == exit && calls[1].setOutside
    ensures calls[2] == SetDestinationToPosition(calls[0].enemy, entrances.outside)
    ensures calls[3].StartPathTask? && calls[3].to == entrances.outside && calls[3].links == calls[0].links
    ensures calls[4].StopSearch? && calls[4].routine == calls[4].enemy.searchForPlayers
  {
    var routine := new SearchRoutine(true, Finite(10.0));
    var masked := new Masked(position, false, routine);
    var registry := new Registry();
    var probe := Probe(true, true, None);

    first := registry.CheckIfPlayersAreTargetable(masked, false, false, entrances, probe);

    // The library finishes the computation: walk to the main entrance door
    // whose exit point is already known.
    var door := EntranceTeleport(entrances.outside, Teleport(Some(exit), false));
    registry.tasks := registry.tasks[masked := Ready(Some(door))];

    second := registry.CheckIfPlayersAreTargetable(masked, false, false, entrances, probe);
    calls := registry.trace;
  }
}
