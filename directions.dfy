/**
 * The four facing directions of the robot, in the fixed clockwise order
 * NORTH, EAST, SOUTH, WEST, and the two rotation commands.
 */
module Directions {

  import opened Wrappers

  datatype Direction = North | East | South | West

  datatype Turn = Left | Right

  /** The cycle the component walks through when it rotates. */
  const AllDirections: seq<Direction> := [North, East, South, West]

  /** The token the component stores and prints for a direction. */
  function Name(d: Direction): string
  {
    match d
    case North => "NORTH"
    case East => "EAST"
    case South => "SOUTH"
    case West => "WEST"
  }

  /** The direction field as text: the empty string while no direction is chosen. */
  function FacingName(facing: Option<Direction>): string
  {
    match facing
    case None => ""
    case Some(d) => Name(d)
  }

  /** The token a rotation command is logged as. */
  function TurnName(t: Turn): string
  {
    match t
    case Left => "LEFT"
    case Right => "RIGHT"
  }

  /** Position of the facing direction in the cycle; -1 when unset, like a failed indexOf. */
  function IndexOf(facing: Option<Direction>): (i: int)
    ensures -1 <= i < |AllDirections|
    ensures facing.None? <==> i == -1
    ensures facing.Some? ==> AllDirections[i] == facing.value
  {
    match facing
    case None => -1
    case Some(North) => 0
    case Some(East) => 1
    case Some(South) => 2
    case Some(West) => 3
  }

  /** One step along the cycle: forward for RIGHT, backward for LEFT. */
  function Step(t: Turn): int
  {
    match t
    case Left => -1
    case Right => 1
  }

  /**
   * Reference definition of a rotation: step the cycle once, wrapping modulo 4.
   * With no direction chosen, LEFT yields WEST and RIGHT yields NORTH.
   */
  function Turned(facing: Option<Direction>, t: Turn): (r: Direction)
    ensures facing.Some? ==> r != facing.value
  {
    match facing
    case None => if t == Left then West else North
    case Some(_) => AllDirections[(IndexOf(facing) + Step(t)) % 4]
  }

  function Opposite(t: Turn): Turn
  {
    match t
    case Left => Right
    case Right => Left
  }

  /** The direction reached from `facing` by `n` rotations of the same kind. */
  function Turns(facing: Option<Direction>, t: Turn, n: nat): Option<Direction>
  {
    if n == 0 then facing else Some(Turned(Turns(facing, t, n - 1), t))
  }

  /** RIGHT steps clockwise and LEFT anticlockwise through NORTH, EAST, SOUTH, WEST. */
  lemma {:induction false} ClockwiseCycle(i: nat)
    requires i < 4
    ensures Turned(Some(AllDirections[i]), Right) == AllDirections[(i + 1) % 4]
    ensures Turned(Some(AllDirections[(i + 1) % 4]), Left) == AllDirections[i]
  {
  }

  /** A rotation is undone by the opposite rotation. */
  lemma OppositeUndoes(d: Direction, t: Turn)
    ensures Turned(Some(Turned(Some(d), t)), Opposite(t)) == d
  {
  }

  /** Rotations of one kind are a cyclic permutation of the four directions. */
  lemma TurnIsBijective(t: Turn, d1: Direction, d2: Direction)
    ensures Turned(Some(d1), t) == Turned(Some(d2), t) <==> d1 == d2
  {
  }

  /** Four identical rotations bring any direction back to itself. */
  lemma {:induction false} FourTurnsIdentity(d: Direction, t: Turn)
    ensures Turns(Some(d), t, 4) == Some(d)
  {
    var a := Turned(Some(d), t);
    var b := Turned(Some(a), t);
    var c := Turned(Some(b), t);
    assert Turns(Some(d), t, 1) == Some(a);
    assert Turns(Some(d), t, 2) == Some(b);
    assert Turns(Some(d), t, 3) == Some(c);
    QuarterTurnsCycle(d, t);
  }

  /** A rotation moves the index one step along the cycle, modulo 4. */
  lemma TurnedIndex(d: Direction, t: Turn)
    ensures IndexOf(Some(Turned(Some(d), t))) == (IndexOf(Some(d)) + Step(t)) % 4
  {
  }

  lemma QuarterTurnsCycle(d: Direction, t: Turn)
    ensures Turned(Some(Turned(Some(Turned(Some(Turned(Some(d), t)), t)), t)), t) == d
  {
    var a := Turned(Some(d), t);
    var b := Turned(Some(a), t);
    var c := Turned(Some(b), t);
    var e := Turned(Some(c), t);
    TurnedIndex(d, t);
    TurnedIndex(a, t);
    TurnedIndex(b, t);
    TurnedIndex(c, t);
    FourStepsModFour(IndexOf(Some(d)), Step(t));
  }

  lemma FourStepsModFour(i: int, step: int)
    requires 0 <= i < 4 && (step == 1 || step == -1)
    ensures ((((i + step) % 4 + step) % 4 + step) % 4 + step) % 4 == i
  {
  }

  /** Rotations of one kind repeat with period four. */
  lemma {:induction false} TurnsPeriodic(d: Direction, t: Turn, n: nat)
    ensures Turns(Some(d), t, n + 4) == Turns(Some(d), t, n)
  {
    if n == 0 {
      FourTurnsIdentity(d, t);
    } else {
      TurnsPeriodic(d, t, n - 1);
    }
  }
}
