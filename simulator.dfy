/**
 * The toy-robot component: a robot on a 5 x 5 grid that is placed, rotated,
 * moved one cell at a time and asked for a report. Each operation updates the
 * component's fields in place; where the component raises an alert, the
 * method here returns which one instead.
 */
module Simulator {

  import opened Wrappers
  import opened Directions
  import opened LogFormat

  /** Cells are numbered 0 to GridSize - 1 along each axis. */
  const GridSize: int := 5

  predicate InGrid(n: int)
  {
    0 <= n < GridSize
  }

  /** The alert the component raises, or NoAlert when it raises none. */
  datatype Alert = NoAlert | InvalidCoordinates | MissingCoordinates | RobotFallOff

  datatype Axis = X | Y

  /** The coordinate read as a number; an unset coordinate reads as 0. */
  function NumberOf(c: Option<int>): int
  {
    match c
    case None => 0
    case Some(n) => n
  }

  /** Offset of one step forward along the x axis. */
  function DeltaX(d: Direction): int
  {
    match d
    case East => 1
    case West => -1
    case _ => 0
  }

  /** Offset of one step forward along the y axis. */
  function DeltaY(d: Direction): int
  {
    match d
    case North => 1
    case South => -1
    case _ => 0
  }

  /**
   * The check a move makes: only the bound the robot is heading for is tested
   * (the upper bound facing EAST or NORTH, the lower one facing WEST or SOUTH).
   * On the grid, it accepts a move exactly when the target cell is on the grid:
   * a single step can only leave through the bound it heads for.
   */
  predicate MoveAllowed(d: Direction, x: int, y: int): (ok: bool)
    ensures InGrid(x) && InGrid(y) ==> (ok <==> InGrid(x + DeltaX(d)) && InGrid(y + DeltaY(d)))
  {
    match d
    case East => x + 1 < GridSize
    case West => x - 1 >= 0
    case North => y + 1 < GridSize
    case South => y - 1 >= 0
  }

  class RobotSimulator {
    var currentDirection: Option<Direction>
    var positionX: Option<int>
    var positionY: Option<int>
    var outputResult: string
    var inputCommands: seq<string>
    var isPlaced: bool
    /** The accepted commands that inputCommands records, one entry each. */
    ghost var logged: seq<Command>

    /** A placed robot has both coordinates, and the log renders the accepted commands. */
    ghost predicate Valid()
      reads this
    {
      && (isPlaced ==> positionX.Some? && positionY.Some?)
      && inputCommands == Rendered(logged)
    }

    /** The grid invariant: a placed robot stands on a cell and faces a direction. */
    ghost predicate OnGrid()
      reads this
    {
      isPlaced ==>
        && positionX.Some? && InGrid(positionX.value)
        && positionY.Some? && InGrid(positionY.value)
        && currentDirection.Some?
    }

    /** The state of a fresh component: nothing entered, nothing placed, nothing logged. */
    ghost predicate IsInitial()
      reads this
    {
      && currentDirection == None
      && positionX == None
      && positionY == None
      && outputResult == ""
      && inputCommands == []
      && logged == []
      && !isPlaced
    }

    constructor ()
      ensures Valid() && OnGrid() && IsInitial()
    {
      currentDirection := None;
      positionX, positionY := None, None;
      outputResult := "";
      inputCommands := [];
      logged := [];
      isPlaced := false;
    }

    /** Whether the entered coordinates and direction make a valid placement. */
    predicate IsValidCoordinate(): (ok: bool)
      reads this
      ensures ok <==>
        && positionX.Some? && 0 <= positionX.value <= 4
        && positionY.Some? && 0 <= positionY.value <= 4
        && currentDirection.Some?
      ensures isPlaced ==> (ok <==> OnGrid())
    {
      && positionX.Some? && InGrid(positionX.value)
      && positionY.Some? && InGrid(positionY.value)
      && currentDirection != None
    }

    /**
     * Enters the coordinates and direction (as the input form does, into the
     * component's own fields) and places the robot there if they are valid.
     */
    method PlaceAtOrigin(x: int, y: int, facing: Option<Direction>) returns (alert: Alert)
      requires Valid()
      modifies this
      ensures Valid()
      ensures positionX == Some(x) && positionY == Some(y) && currentDirection == facing
      ensures outputResult == old(outputResult)
      ensures alert == NoAlert <==> InGrid(x) && InGrid(y) && facing.Some?
      ensures alert == NoAlert ==>
        && isPlaced && OnGrid()
        && logged == old(logged) + [Place(x, y, facing.value)]
        && inputCommands == old(inputCommands) + ["PLACE " + Position(x, y, facing)]
      ensures alert != NoAlert ==>
        && alert == InvalidCoordinates
        && isPlaced == old(isPlaced)
        && inputCommands == old(inputCommands) && logged == old(logged)
      ensures !old(isPlaced) ==> OnGrid()
    {
      positionX, positionY, currentDirection := Some(x), Some(y), facing;
      if IsValidCoordinate() {
        isPlaced := true;
        var command := Place(x, y, facing.value);
        assert EntryText(command) == "PLACE " + Position(x, y, facing);
        RenderedAppend(logged, command);
        inputCommands := inputCommands + [EntryText(command)];
        logged := logged + [command];
        alert := NoAlert;
      } else {
        alert := InvalidCoordinates;
      }
    }

    /** Rotates a placed robot by a quarter turn. */
    method ChangeDirection(turn: Turn) returns (alert: Alert)
      requires Valid()
      modifies this
      ensures Valid()
      ensures !old(isPlaced) ==> alert == MissingCoordinates && unchanged(this)
      ensures old(isPlaced) ==>
        && alert == NoAlert
        && currentDirection == Some(Turned(old(currentDirection), turn))
        && inputCommands == old(inputCommands) + [TurnName(turn)]
        && logged == old(logged) + [Rotate(turn)]
        && positionX == old(positionX) && positionY == old(positionY)
        && isPlaced && outputResult == old(outputResult)
      ensures old(OnGrid()) ==> OnGrid()
    {
      if isPlaced {
        var facing := GetNewDirection(turn);
        currentDirection := Some(facing);
        alert := NoAlert;
      } else {
        alert := MissingCoordinates;
      }
    }

    /**
     * Logs the rotation command and returns the direction it leads to, found
     * by its index in the cycle with the ends clamped.
     */
    method GetNewDirection(turn: Turn) returns (facing: Direction)
      requires Valid()
      modifies this
      ensures Valid()
      ensures facing == Turned(old(currentDirection), turn)
      ensures inputCommands == old(inputCommands) + [TurnName(turn)]
      ensures logged == old(logged) + [Rotate(turn)]
      ensures currentDirection == old(currentDirection)
      ensures positionX == old(positionX) && positionY == old(positionY)
      ensures isPlaced == old(isPlaced) && outputResult == old(outputResult)
    {
      RenderedAppend(logged, Rotate(turn));
      inputCommands := inputCommands + [TurnName(turn)];
      logged := logged + [Rotate(turn)];
      var index := IndexOf(currentDirection);
      match turn {
        case Left => index := index - 1;
        case Right => index := index + 1;
      }
      if index < 0 {
        return West;
      }
      if index > 3 {
        return North;
      }
      return AllDirections[index];
    }

    /** Writes the report line of a placed robot. */
    method OutputReport() returns (alert: Alert)
      requires Valid()
      modifies this
      ensures Valid()
      ensures !old(isPlaced) ==> alert == MissingCoordinates && unchanged(this)
      ensures old(isPlaced) ==>
        && alert == NoAlert
        && outputResult == Position(old(positionX).value, old(positionY).value, old(currentDirection))
        && ParsePosition(outputResult) == Some((old(positionX).value, old(positionY).value, old(currentDirection)))
        && positionX == old(positionX) && positionY == old(positionY)
        && currentDirection == old(currentDirection) && isPlaced
        && inputCommands == old(inputCommands) && logged == old(logged)
      ensures old(OnGrid()) ==> OnGrid()
    {
      if isPlaced {
        outputResult := Position(positionX.value, positionY.value, currentDirection);
        PositionRoundTrip(positionX.value, positionY.value, currentDirection);
        alert := NoAlert;
      } else {
        alert := MissingCoordinates;
      }
    }

    function Coordinate(axis: Axis): Option<int>
      reads this
    {
      match axis
      case X => positionX
      case Y => positionY
    }

    /** Advances one coordinate by one cell if the given next position is below the upper bound. */
    method ValidateMaxPosition(nextPosition: int, axis: Axis) returns (alert: Alert)
      requires Valid()
      modifies this
      ensures Valid()
      ensures alert == NoAlert <==> nextPosition < GridSize
      ensures alert == NoAlert ==>
        && Coordinate(axis) == Some(NumberOf(old(Coordinate(axis))) + 1)
        && (axis == X ==> positionY == old(positionY))
        && (axis == Y ==> positionX == old(positionX))
        && inputCommands == old(inputCommands) + [MoveToken]
        && logged == old(logged) + [Move]
        && currentDirection == old(currentDirection)
        && isPlaced == old(isPlaced) && outputResult == old(outputResult)
      ensures alert != NoAlert ==> alert == RobotFallOff && unchanged(this)
    {
      if nextPosition < GridSize {
        match axis {
          case X => positionX := Some(NumberOf(positionX) + 1);
          case Y => positionY := Some(NumberOf(positionY) + 1);
        }
        RenderedAppend(logged, Move);
        inputCommands := inputCommands + [MoveToken];
        logged := logged + [Move];
        alert := NoAlert;
      } else {
        alert := RobotFallOff;
      }
    }

    /** Moves one coordinate back by one cell if the given previous position is not below 0. */
    method ValidateMinPosition(prevPosition: int, axis: Axis) returns (alert: Alert)
      requires Valid()
      modifies this
      ensures Valid()
      ensures alert == NoAlert <==> prevPosition >= 0
      ensures alert == NoAlert ==>
        && Coordinate(axis) == Some(NumberOf(old(Coordinate(axis))) - 1)
        && (axis == X ==> positionY == old(positionY))
        && (axis == Y ==> positionX == old(positionX))
        && inputCommands == old(inputCommands) + [MoveToken]
        && logged == old(logged) + [Move]
        && currentDirection == old(currentDirection)
        && isPlaced == old(isPlaced) && outputResult == old(outputResult)
      ensures alert != NoAlert ==> alert == RobotFallOff && unchanged(this)
    {
      if prevPosition >= 0 {
        match axis {
          case X => positionX := Some(NumberOf(positionX) - 1);
          case Y => positionY := Some(NumberOf(positionY) - 1);
        }
        RenderedAppend(logged, Move);
        inputCommands := inputCommands + [MoveToken];
        logged := logged + [Move];
        alert := NoAlert;
      } else {
        alert := RobotFallOff;
      }
    }

    /** Moves a placed robot one cell in the direction it faces, unless that drops it off the grid. */
    method MoveTowardsFacing() returns (alert: Alert)
      requires Valid()
      modifies this
      ensures Valid()
      ensures !old(isPlaced) ==> alert == MissingCoordinates && unchanged(this)
      ensures old(isPlaced) && old(currentDirection).None? ==> alert == NoAlert && unchanged(this)
      ensures old(isPlaced) && old(currentDirection).Some? ==>
        var d, x, y := old(currentDirection).value, old(positionX).value, old(positionY).value;
        && (alert == NoAlert <==> MoveAllowed(d, x, y))
        && (alert == NoAlert ==>
              && positionX == Some(x + DeltaX(d)) && positionY == Some(y + DeltaY(d))
              && inputCommands == old(inputCommands) + [MoveToken]
              && logged == old(logged) + [Move]
              && currentDirection == old(currentDirection)
              && isPlaced && outputResult == old(outputResult))
        && (alert != NoAlert ==> alert == RobotFallOff && unchanged(this))
      ensures old(OnGrid()) && old(isPlaced) ==>
        (alert == NoAlert <==>
           && InGrid(old(positionX).value + DeltaX(old(currentDirection).value))
           && InGrid(old(positionY).value + DeltaY(old(currentDirection).value)))
      ensures old(OnGrid()) ==> OnGrid()
    {
      alert := NoAlert;
      if isPlaced {
        match currentDirection {
          case Some(East) => alert := ValidateMaxPosition(positionX.value + 1, X);
          case Some(West) => alert := ValidateMinPosition(positionX.value - 1, X);
          case Some(North) => alert := ValidateMaxPosition(positionY.value + 1, Y);
          case Some(South) => alert := ValidateMinPosition(positionY.value - 1, Y);
          case None =>
        }
      } else {
        alert := MissingCoordinates;
      }
    }

    /** Returns the component to its initial state. */
    method ClearData()
      requires Valid()
      modifies this
      ensures Valid() && OnGrid() && IsInitial()
    {
      inputCommands := [];
      logged := [];
      positionX, positionY := None, None;
      currentDirection := None;
      outputResult := "";
      isPlaced := false;
    }
  }
}
