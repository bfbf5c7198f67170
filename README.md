# Toy robot simulator, modelled in Dafny

The system is a toy robot on a 5 x 5 grid (cells 0 to 4 on each axis). The user
enters coordinates and a facing direction and places the robot. After that the
robot can be rotated LEFT or RIGHT, moved one cell forward, and asked for a
report. Every accepted command is appended to a command log as text. A reset
returns everything to the initial state. The whole logic is one Angular
component, `AppComponent` in `src/app/app.component.ts`. It keeps the state in
its own fields and changes them in place.

## Layout

- `wrappers.dfy`, module `Wrappers`: `Option`, used for an unset field and a failed parse.
- `directions.dfy`, module `Directions`: the four directions and their cycle
  NORTH, EAST, SOUTH, WEST. It holds the two turn commands and `Turned`, a
  reference definition of a rotation by modulo-4 arithmetic, with lemmas about
  the cycle.
- `decimal.dfy`, module `Decimal`: the decimal text a template literal gives
  for a whole number of magnitude below 10^21, and its inverse `ParseInt`.
- `log_format.dfy`, module `LogFormat`: the report line `"x, y, DIRECTION"` and
  the log entries `"PLACE x, y, DIRECTION"`, `"LEFT"`, `"RIGHT"` and `"MOVE"`,
  with parsers and round-trip lemmas. So a report line determines the position
  it was made from, and a command log determines the commands it records.
- `simulator.dfy`, module `Simulator`: class `RobotSimulator`, with the
  component's fields and one method per operation (`modifies this`). Each
  `alert(...)` of the component becomes a returned `Alert` value:
  `InvalidCoordinates`, `MissingCoordinates` or `RobotFallOff`. `NoAlert` is
  returned where the component raises none.
- `scenarios.dfy`, module `Scenarios`: client runs on fresh instances, proved
  from the method contracts alone.

The class keeps a ghost history `logged` of the accepted commands.
`Valid()` ties the string log to it (`inputCommands == Rendered(logged)`).
`Valid()` also requires a placed robot to have both coordinates.
`OnGrid()` is the grid invariant: a placed robot stands on a cell and faces a
direction.

In these places the component behaves in ways a reader may not expect; the model follows its code:

- Placing reads the values the input form has already written into the
  component's own fields. `PlaceAtOrigin(x, y, facing)` therefore first writes
  its arguments into the fields and then validates them. A rejected placement
  leaves the placed flag and the log as they were. It does not restore the
  coordinates or the direction.
- If the robot was already placed, a rejected placement leaves it placed at the
  rejected coordinates, or with no direction. So `OnGrid()` is established by
  every accepted placement and by every placement of an unplaced robot. It is
  preserved by rotating, moving and reporting. A rejected re-placement does not
  preserve it.
- A move checks only the bound the robot heads for (`MoveAllowed`). The contract
  of `MoveAllowed` states that on the grid this is the same as checking that the
  target cell is on the grid.
- A move of a placed robot with no direction does nothing and raises no alert.
  Rotating with no direction gives WEST for LEFT and NORTH for RIGHT.

## Model

| member | source | states |
|---|---|---|
| `Simulator.RobotSimulator.constructor` | src/app/app.component.ts:12-25 | A new component has no direction and no coordinates, an empty log and an empty report, and is not placed. |
| `Simulator.RobotSimulator.IsValidCoordinate` | src/app/app.component.ts:144-147 | True exactly when both coordinates are entered and lie in 0..4 and a facing direction is chosen. For a placed robot this is exactly the grid invariant `OnGrid()`. |
| `Simulator.RobotSimulator.PlaceAtOrigin` | src/app/app.component.ts:30-38 | The entered values are written to the fields. The placement is accepted exactly when both coordinates are in 0..4 and a direction is set. If accepted, the robot is placed and on the grid, and exactly `"PLACE x, y, DIR"` is appended to the log. If rejected, the alert is InvalidCoordinates and the placed flag and the log are unchanged. |
| `Simulator.RobotSimulator.ChangeDirection` | src/app/app.component.ts:44-50 | If not placed: MissingCoordinates and no field changes. If placed: the direction becomes the rotated one and the turn token is appended to the log. Position and report are kept, and the grid invariant is preserved. |
| `Simulator.RobotSimulator.GetNewDirection` | src/app/app.component.ts:123-139 | Appends the turn token to the log. Returns the same direction as the modulo-4 reference rotation `Turned`; the index clamps give the same result. The stored direction is unchanged. |
| `Simulator.RobotSimulator.OutputReport` | src/app/app.component.ts:55-61 | If placed, the report becomes `"x, y, DIR"`, and parsing it gives back that position and direction. Nothing else changes. If not placed: MissingCoordinates and no change. |
| `Simulator.RobotSimulator.ValidateMaxPosition` | src/app/app.component.ts:68-75 | Accepted exactly when the given next position is below 5. If accepted, that axis goes up by one, the other axis and the direction stay, and `"MOVE"` is appended. If not, RobotFallOff and no field changes. |
| `Simulator.RobotSimulator.ValidateMinPosition` | src/app/app.component.ts:82-89 | Accepted exactly when the given previous position is at least 0. If accepted, that axis goes down by one and `"MOVE"` is appended. If not, RobotFallOff and no field changes. |
| `Simulator.RobotSimulator.MoveTowardsFacing` | src/app/app.component.ts:94-117 | If not placed: MissingCoordinates, no change. Facing EAST, WEST, NORTH or SOUTH, the robot moves by x+1, x-1, y+1 or y-1 and logs `"MOVE"`, exactly when the one-sided bound check passes. Otherwise RobotFallOff and no change. On the grid, a move is accepted exactly when the target cell is on the grid, and the grid invariant is preserved. |
| `Simulator.RobotSimulator.ClearData` | src/app/app.component.ts:152-159 | From any state, restores the initial state the constructor gives. |
| `Simulator.MoveAllowed` | src/app/app.component.ts:96-112 | The bound check a move makes: below 5 for a step up (line 69), at least 0 for a step down (line 83). For a robot on the grid, it accepts exactly the moves whose target cell is on the grid. |
| `Directions.IndexOf` | src/app/app.component.ts:125 | Gives -1 exactly for an unset direction. Otherwise it gives the position of the direction in `[NORTH, EAST, SOUTH, WEST]`. |
| `Directions.Turned` | src/app/app.component.ts:123-139 | A rotation of a set direction never leaves it unchanged. |
| `Directions.TurnedIndex` | src/app/app.component.ts:125-138 | A rotation moves the index one step along the cycle, modulo 4: forward for RIGHT, back for LEFT. |
| `Directions.ClockwiseCycle` | src/app/app.component.spec.ts:60-72 | RIGHT steps NORTH to EAST to SOUTH to WEST to NORTH, and LEFT steps back, with both ends wrapping. |
| `Directions.OppositeUndoes` | src/app/app.component.ts:127-134 | LEFT after RIGHT, or RIGHT after LEFT, restores the direction. |
| `Directions.TurnIsBijective` | src/app/app.component.ts:136-138 | Two directions that rotate to the same direction are equal; a rotation is a permutation of the four directions. |
| `Directions.FourTurnsIdentity` | src/app/app.component.ts:123-139 | Four identical rotations bring any direction back to itself. |
| `Directions.TurnsPeriodic` | src/app/app.component.ts:123-139 | Repeated rotations of one kind have period four. |
| `Decimal.NatText` | src/app/app.component.ts:57 | The decimal text of a number is non-empty and all digits. It is one digit exactly for 0..9 and starts with '0' only for 0. |
| `Decimal.ParseNatText` | src/app/app.component.ts:57 | Parsing the decimal text of a natural number gives the number back. |
| `Decimal.IntText` | src/app/app.component.ts:57 | The text of an integer is non-empty and contains no ',' and no space, so it cannot run into the separators around it. |
| `Decimal.IntTextRoundTrip` | src/app/app.component.ts:57 | Parsing the text of any integer, negative ones included, gives it back. |
| `Decimal.IntTextInjective` | src/app/app.component.ts:33 | Two integers have the same text exactly when they are equal. |
| `LogFormat.SingleDigitPosition` | src/app/app.component.ts:33 | Coordinates 0..9, so every on-grid position, are written as one digit each. |
| `LogFormat.Position` | src/app/app.component.ts:57 | The text `"x, y, DIR"` of a position, used for the report and, after `"PLACE "`, for the placement entry (line 33). It is specified by `PositionRoundTrip`: the text determines the position. |
| `LogFormat.EntryText` | src/app/app.component.ts:33-34 | The log entry of an accepted command: `"PLACE x, y, DIR"` (lines 33-34), the turn token (line 124) or `"MOVE"` (lines 71 and 85). An entry starts with `"PLACE "` exactly for a placement. It is specified by `EntryRoundTrip`: the entry determines the command. |
| `LogFormat.PositionRoundTrip` | src/app/app.component.ts:57 | The report line `"x, y, DIR"` parses back to exactly the position and direction, an unset direction included. |
| `LogFormat.EntryRoundTrip` | src/app/app.component.ts:33-34 | Every log entry (PLACE, LEFT, RIGHT or MOVE) parses back to the command that wrote it. |
| `LogFormat.DecodeRendered` | src/app/app.component.ts:21 | A command log parses back to the exact sequence of accepted commands it records. |
| `Scenarios.PlaceThenReport` | src/app/app.component.spec.ts:33-56 | On a fresh component, a placement with a direction that may be unset succeeds exactly when both coordinates are in 0..4 and a direction is set, and the report after it is `"x, y, DIR"`. A rejected placement gives InvalidCoordinates, and the report after it gives MissingCoordinates and stays empty. |
| `Scenarios.CommandsBeforePlacement` | src/app/app.component.ts:44-117 | Before placement, rotating, moving and reporting each give MissingCoordinates. The log and the report stay empty. |
| `Scenarios.RotateFourTimes` | src/app/app.component.ts:44-50 | Four identical turns of a placed robot restore its direction. The log then holds the placement followed by four turn tokens. |
| `Scenarios.MoveAtEdge` | src/app/app.component.ts:68-75 | Placed at (4, 4) facing NORTH, a move gives RobotFallOff. The robot stays at (4, 4), and the log holds only the placement. |
| `Scenarios.MoveInside` | src/app/app.component.ts:94-100 | Placed at (2, 2) facing EAST, a move reaches (3, 2) and appends `"MOVE"`. |
| `Scenarios.FullScenario` | src/app/app.component.ts:30-61 | PLACE 0, 0, NORTH, then RIGHT, then MOVE, then a report gives `"1, 0, EAST"` and the log `["PLACE 0, 0, NORTH", "RIGHT", "MOVE"]`. |
| `Scenarios.ClearAfterScenario` | src/app/app.component.ts:152-159 | Clearing after those commands leaves an empty log, an empty report, neither coordinate set, no direction, and an unplaced robot. |

Apart from `ClearData`, every operation either keeps the log or appends exactly
one entry, so the log only grows. The method contracts state this
(`inputCommands == old(inputCommands) + [...]`, or unchanged).

## Left out

- The `alert(...)` calls are a user-interface side effect. Each one becomes the returned `Alert` value.
- The Angular decorator, template and styles are left out. So is the form binding that can edit the coordinates and the direction at any time; it appears only as the first step of `PlaceAtOrigin`.
- JavaScript `null` coercion is left out. `PlaceAtOrigin` takes whole numbers, so placing with an empty coordinate field cannot be expressed. The component accepts it: `null >= 0` and `null < 5` are both true, so with X = 1 and Y left empty it logs `"PLACE 1, null, NORTH"`. Only a fresh or cleared component has an unset coordinate (`None`), and `IsValidCoordinate` rejects it. Incrementing or decrementing an unset coordinate reads it as 0, as `null++` does.
- Rotation commands other than LEFT and RIGHT are left out. The command is a two-value type.
- The component accesses the coordinate by a string key. Here the axis is the two-value type `Axis`.
- `./constants` is not part of this model. Every token constant is taken to equal its name (`"PLACE"`, `"MOVE"`, `"LEFT"`, `"NORTH"`, ...).
- Coordinates are JavaScript numbers, that is doubles; here they are integers. So fractional entries are not captured: `2.5` passes the range check and would be logged as `"PLACE 2.5, 0, NORTH"`. Neither are the loss of precision above 2^53, nor the exponent notation a template literal uses from 10^21 on (`"1e+21"`). `Decimal.IntText` is the rendering of whole numbers below 10^21 in magnitude.
- `outputResult` is undefined in the component until the first report or reset. Here it starts as the empty string.
- `Directions.Turned`: its own contract only says that a rotation changes the direction. The cycle itself is stated by `TurnedIndex`, `ClockwiseCycle` and the lemmas after them.
- `Simulator.RobotSimulator.PlaceAtOrigin`: the grid invariant is stated for accepted placements and for placements of an unplaced robot, not for a rejected re-placement, because the component then keeps the robot placed at the rejected values.
