/**
 * Client runs of the component, each on a fresh instance, proved from the
 * operations' contracts alone.
 */
module Scenarios {

  import opened Wrappers
  import opened Directions
  import opened Decimal
  import opened LogFormat
  import opened Simulator

  /**
   * Placing and then reporting echoes the placement; only on-grid placements
   * with a chosen direction are accepted.
   */
  method PlaceThenReport(x: int, y: int, facing: Option<Direction>)
    returns (placeAlert: Alert, reportAlert: Alert, report: string)
    ensures placeAlert == NoAlert <==> InGrid(x) && InGrid(y) && facing.Some?
    ensures placeAlert == NoAlert ==> reportAlert == NoAlert && report == Position(x, y, facing)
    ensures placeAlert != NoAlert ==> placeAlert == InvalidCoordinates && reportAlert == MissingCoordinates && report == ""
  {
    var robot := new RobotSimulator();
    placeAlert := robot.PlaceAtOrigin(x, y, facing);
    reportAlert := robot.OutputReport();
    report := robot.outputResult;
  }

  /** Before any placement, rotating, moving and reporting raise the missing-coordinates alert and change nothing. */
  method CommandsBeforePlacement(turn: Turn)
    returns (turnAlert: Alert, moveAlert: Alert, reportAlert: Alert, log: seq<string>, report: string)
    ensures turnAlert == MissingCoordinates && moveAlert == MissingCoordinates && reportAlert == MissingCoordinates
    ensures log == [] && report == ""
  {
    var robot := new RobotSimulator();
    turnAlert := robot.ChangeDirection(turn);
    moveAlert := robot.MoveTowardsFacing();
    reportAlert := robot.OutputReport();
    log, report := robot.inputCommands, robot.outputResult;
  }

  /** Four identical rotations of a placed robot restore its direction and log four tokens. */
  method RotateFourTimes(x: int, y: int, facing: Direction, turn: Turn)
    returns (final: Option<Direction>, log: seq<string>)
    requires InGrid(x) && InGrid(y)
    ensures final == Some(facing)
    ensures log == ["PLACE " + Position(x, y, Some(facing))] + seq(4, _ => TurnName(turn))
  {
    var robot := new RobotSimulator();
    var alert := robot.PlaceAtOrigin(x, y, Some(facing));
    var entry := "PLACE " + Position(x, y, Some(facing));
    var i := 0;
    while i < 4
      invariant 0 <= i <= 4
      invariant robot.Valid() && robot.isPlaced
      invariant robot.currentDirection == Turns(Some(facing), turn, i)
      invariant robot.inputCommands == [entry] + seq(i, _ => TurnName(turn))
    {
      alert := robot.ChangeDirection(turn);
      assert seq(i + 1, _ => TurnName(turn)) == seq(i, _ => TurnName(turn)) + [TurnName(turn)];
      i := i + 1;
    }
    FourTurnsIdentity(facing, turn);
    final, log := robot.currentDirection, robot.inputCommands;
  }

  /** At the corner (4, 4) facing NORTH, a move is refused and the robot stays put. */
  method MoveAtEdge() returns (alert: Alert, x: Option<int>, y: Option<int>, log: seq<string>)
    ensures alert == RobotFallOff && x == Some(4) && y == Some(4)
    ensures log == ["PLACE 4, 4, NORTH"]
  {
    var robot := new RobotSimulator();
    alert := robot.PlaceAtOrigin(4, 4, Some(North));
    SingleDigitPosition(4, 4, Some(North));
    assert DigitChar(4) == '4';
    assert "PLACE " + Position(4, 4, Some(North)) == "PLACE 4, 4, NORTH";
    alert := robot.MoveTowardsFacing();
    x, y, log := robot.positionX, robot.positionY, robot.inputCommands;
  }

  /** From (2, 2) facing EAST, a move reaches (3, 2) and logs MOVE. */
  method MoveInside() returns (alert: Alert, x: Option<int>, y: Option<int>, log: seq<string>)
    ensures alert == NoAlert && x == Some(3) && y == Some(2)
    ensures log == ["PLACE 2, 2, EAST", "MOVE"]
  {
    var robot := new RobotSimulator();
    alert := robot.PlaceAtOrigin(2, 2, Some(East));
    SingleDigitPosition(2, 2, Some(East));
    assert DigitChar(2) == '2';
    assert "PLACE " + Position(2, 2, Some(East)) == "PLACE 2, 2, EAST";
    alert := robot.MoveTowardsFacing();
    x, y, log := robot.positionX, robot.positionY, robot.inputCommands;
  }

  /** The texts the full scenario writes. */
  lemma ScenarioTexts()
    ensures "PLACE " + Position(0, 0, Some(North)) == "PLACE 0, 0, NORTH"
    ensures Position(1, 0, Some(East)) == "1, 0, EAST"
  {
    SingleDigitPosition(0, 0, Some(North));
    SingleDigitPosition(1, 0, Some(East));
    assert DigitChar(0) == '0' && DigitChar(1) == '1';
  }

  /** PLACE 0, 0, NORTH; RIGHT; MOVE; REPORT gives "1, 0, EAST". */
  method FullScenario() returns (report: string, log: seq<string>)
    ensures report == "1, 0, EAST"
    ensures log == ["PLACE 0, 0, NORTH", "RIGHT", "MOVE"]
  {
    ScenarioTexts();
    var robot := new RobotSimulator();
    var alert := robot.PlaceAtOrigin(0, 0, Some(North));
    alert := robot.ChangeDirection(Right);
    assert robot.currentDirection == Some(East);
    alert := robot.MoveTowardsFacing();
    assert robot.positionX == Some(1) && robot.positionY == Some(0);
    alert := robot.OutputReport();
    report, log := robot.outputResult, robot.inputCommands;
  }

  /** Clearing after the same commands empties the log and the report, unsets the position and the direction, and unplaces the robot. */
  method ClearAfterScenario()
    returns (log: seq<string>, report: string, placed: bool, x: Option<int>, y: Option<int>, facing: Option<Direction>)
    ensures log == [] && report == "" && !placed
    ensures x == None && y == None && facing == None
  {
    var robot := new RobotSimulator();
    var alert := robot.PlaceAtOrigin(0, 0, Some(North));
    alert := robot.ChangeDirection(Right);
    alert := robot.MoveTowardsFacing();
    alert := robot.OutputReport();
    robot.ClearData();
    log, report, placed := robot.inputCommands, robot.outputResult, robot.isPlaced;
    x, y, facing := robot.positionX, robot.positionY, robot.currentDirection;
  }
}
