/** The host game's entities as the masked-enemy patch sees them, and the
    alphabet of external effects the patch can cause.

    Geometry is abstract: a `Position` is an opaque point, and the one
    distance test the patch makes (arrival within one unit of a destination)
    is an observation handed in through `Probe`. Every call the patch makes
    into the game or into the pathfinding library is recorded as an `Action`
    appended to a trace instead of being performed. */
module Game {

  datatype Option<+T> = None | Some(value: T)

  /** A point in the game world (a `Vector3`); never inspected. */
  type Position(==)

  /** An elevator floor object whose `CallElevator` the patch may invoke. */
  type ElevatorFloor(==)

  /** The special-link categories a path computation may traverse. */
  datatype LinkFlag = InternalTeleports | Elevators | MainEntrance | FireExits

  /** The width of an area search: a float that the patch only ever copies
      or sets to positive infinity. */
  datatype Width = Finite(units: real) | Infinite

  /** An entrance teleport (a door between the interior and the exterior).
      `exitPoint` is the cached exit transform, absent until it is found. */
  datatype Teleport = Teleport(exitPoint: Option<Position>, isEntranceToBuilding: bool)

  /** A destination computed by the pathfinding library. `position` is where
      the enemy must walk; the other fields are the kind-specific payload.
      `Unrecognised` stands for any destination type value outside the four
      the patch knows. */
  datatype Destination =
    | DirectToDestination(position: Position)
    | InternalTeleport(position: Position, warpTarget: Position)
    | Elevator(position: Position, floor: ElevatorFloor)
    | EntranceTeleport(position: Position, teleport: Teleport)
    | Unrecognised(position: Position)

  /** What the world answers when the patch looks at a destination:
      whether the enemy is within one world unit of its position, whether the
      destination says it can be activated from there, and what the
      teleport's `FindExitPoint` would find if the exit point is not cached. */
  datatype Probe = Probe(withinRadius: bool, canActivate: bool, exitFound: Option<Position>)

  /** The per-enemy path task slot: a computation still running, or a
      finished one with its result (absent when no path was found). */
  datatype TaskSlot = NotReady | Ready(result: Option<Destination>)

  /** An `AISearchRoutine`: the patch reads and writes these two fields. */
  class SearchRoutine {
    var inProgress: bool
    var searchWidth: Width

    constructor (inProgress: bool, searchWidth: Width)
      ensures this.inProgress == inProgress && this.searchWidth == searchWidth
    {
      this.inProgress := inProgress;
      this.searchWidth := searchWidth;
    }
  }

  /** A `MaskedPlayerEnemy`: its position, which side of the building it is
      on, and its own player-search routine. */
  class Masked {
    var position: Position
    var isOutside: bool
    const searchForPlayers: SearchRoutine

    constructor (position: Position, isOutside: bool, searchForPlayers: SearchRoutine)
      ensures this.position == position && this.isOutside == isOutside
      ensures this.searchForPlayers == searchForPlayers
    {
      this.position := position;
      this.isOutside := isOutside;
      this.searchForPlayers := searchForPlayers;
    }
  }

  /** A player the enemy may pursue. */
  class Player {
    var position: Position

    constructor (position: Position)
      ensures this.position == position
    {
      this.position := position;
    }
  }

  /** The external calls the patch makes, in the order it makes them.
      `TeleportMaskedEnemyAndSync` also records the value of the enemy's
      `searchForPlayers.inProgress` flag at the moment of the teleport. */
  datatype Action =
    | SetDestinationToPosition(enemy: Masked, position: Position)
    | Warp(enemy: Masked, position: Position)
    | CallElevator(floor: ElevatorFloor)
    | TeleportMaskedEnemyAndSync(enemy: Masked, position: Position, setOutside: bool, searchInProgress: bool)
    | StartPathTask(enemy: Masked, from: Position, to: Position, links: set<LinkFlag>)
    | StopSearch(enemy: Masked, routine: SearchRoutine)
    | StartSmartSearch(enemy: Masked, start: Position, links: set<LinkFlag>, routine: SearchRoutine)
    | SetMovingTowardsTargetPlayer(enemy: Masked, player: Player)
  {
    /** The movement primitives `GoToSmartPathDestination` may issue. */
    predicate IsMovement() {
      SetDestinationToPosition? || Warp? || CallElevator? || TeleportMaskedEnemyAndSync?
    }

    /** The kind-specific link actions, as opposed to the plain move command. */
    predicate IsLinkAction() {
      Warp? || CallElevator? || TeleportMaskedEnemyAndSync?
    }
  }

  /** The outcome `GoToDestination` reports. */
  datatype GoResult = Success | InProgress | Failure

  /** The two main-entrance teleport positions `FindMainEntrancePosition`
      can return: the one on the outside of the building and the one inside. */
  datatype MainEntrancePositions = MainEntrancePositions(outside: Position, inside: Position)
}
