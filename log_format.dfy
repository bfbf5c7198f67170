/**
 * The text the component writes: the report line "x, y, DIRECTION" and the
 * command-log entries "PLACE x, y, DIRECTION", "LEFT", "RIGHT" and "MOVE",
 * with parsers that recover what was written.
 */
module LogFormat {

  import opened Wrappers
  import opened Directions
  import opened Decimal

  const PlaceToken: string := "PLACE"
  const MoveToken: string := "MOVE"

  /** An accepted command, as the log records it. */
  datatype Command = Place(x: int, y: int, facing: Direction) | Rotate(turn: Turn) | Move

  /**
   * "x, y, DIRECTION": the report format, also the tail of a placement entry.
   * PositionRoundTrip shows that it determines what it was made from.
   */
  function Position(x: int, y: int, facing: Option<Direction>): string
  {
    IntText(x) + ", " + IntText(y) + ", " + FacingName(facing)
  }

  /** Coordinates from 0 to 9 are written as one digit each. */
  lemma SingleDigitPosition(x: int, y: int, facing: Option<Direction>)
    requires 0 <= x < 10 && 0 <= y < 10
    ensures Position(x, y, facing) == [DigitChar(x)] + ", " + [DigitChar(y)] + ", " + FacingName(facing)
  {
  }

  /**
   * The log entry of an accepted command; exactly the placement entries start
   * with "PLACE ". EntryRoundTrip shows that it parses back to the command.
   */
  function EntryText(c: Command): (entry: string)
    ensures c.Place? <==> 6 <= |entry| && entry[..6] == "PLACE "
  {
    match c
    case Place(x, y, d) =>
      var p := Position(x, y, Some(d));
      assert (PlaceToken + " " + p)[..6] == "PLACE ";
      PlaceToken + " " + p
    case Rotate(t) => TurnName(t)
    case Move => MoveToken
  }

  /** Index of the first ',' in `s`, or |s| when there is none. */
  function CommaIndex(s: string): (i: nat)
    ensures i <= |s|
    ensures ',' !in s[..i]
    ensures i < |s| ==> s[i] == ','
  {
    if s == [] || s[0] == ',' then 0 else 1 + CommaIndex(s[1..])
  }

  lemma {:induction false} CommaIndexOf(t: string, rest: string)
    requires ',' !in t && rest != [] && rest[0] == ','
    ensures CommaIndex(t + rest) == |t|
  {
    if t != [] {
      assert (t + rest)[1..] == t[1..] + rest;
      CommaIndexOf(t[1..], rest);
    }
  }

  function ParseFacing(s: string): Option<Option<Direction>>
  {
    if s == "" then Some(None)
    else if s == "NORTH" then Some(Some(North))
    else if s == "EAST" then Some(Some(East))
    else if s == "SOUTH" then Some(Some(South))
    else if s == "WEST" then Some(Some(West))
    else None
  }

  /** Splits "<int>, <rest>" into the integer and the rest. */
  function ParseField(s: string): Option<(int, string)>
  {
    var i := CommaIndex(s);
    if i + 2 <= |s| && s[i..i + 2] == ", " then
      match ParseInt(s[..i])
      case None => None
      case Some(v) => Some((v, s[i + 2..]))
    else None
  }

  function ParsePosition(s: string): Option<(int, int, Option<Direction>)>
  {
    match ParseField(s)
    case None => None
    case Some((x, rest)) =>
      match ParseField(rest)
      case None => None
      case Some((y, tail)) =>
        match ParseFacing(tail)
        case None => None
        case Some(facing) => Some((x, y, facing))
  }

  lemma ParseFieldOf(v: int, rest: string)
    ensures ParseField(IntText(v) + ", " + rest) == Some((v, rest))
  {
    var t := IntText(v);
    var s := t + ", " + rest;
    assert s == t + (", " + rest);
    CommaIndexOf(t, ", " + rest);
    assert s[..|t|] == t;
    assert s[|t|..|t| + 2] == ", ";
    assert s[|t| + 2..] == rest;
    IntTextRoundTrip(v);
  }

  lemma ParseFacingName(facing: Option<Direction>)
    ensures ParseFacing(FacingName(facing)) == Some(facing)
  {
  }

  /** The report line determines the position and direction it was made from. */
  lemma PositionRoundTrip(x: int, y: int, facing: Option<Direction>)
    ensures ParsePosition(Position(x, y, facing)) == Some((x, y, facing))
  {
    var name := FacingName(facing);
    var tail := IntText(y) + ", " + name;
    var line := Position(x, y, facing);
    assert line == IntText(x) + ", " + tail;
    assert ParseField(line) == Some((x, tail)) by { ParseFieldOf(x, tail); }
    assert ParseField(tail) == Some((y, name)) by { ParseFieldOf(y, name); }
    assert ParseFacing(name) == Some(facing) by { ParseFacingName(facing); }
  }

  function ParseEntry(s: string): Option<Command>
  {
    if 6 <= |s| && s[..6] == "PLACE " then
      match ParsePosition(s[6..])
      case Some((x, y, Some(d))) => Some(Place(x, y, d))
      case _ => None
    else if s == "LEFT" then Some(Rotate(Left))
    else if s == "RIGHT" then Some(Rotate(Right))
    else if s == "MOVE" then Some(Move)
    else None
  }

  /** Every log entry parses back to the command that wrote it. */
  lemma EntryRoundTrip(c: Command)
    ensures ParseEntry(EntryText(c)) == Some(c)
  {
    if c.Place? {
      var p := Position(c.x, c.y, Some(c.facing));
      assert EntryText(c) == "PLACE " + p;
      assert ("PLACE " + p)[6..] == p;
      PositionRoundTrip(c.x, c.y, Some(c.facing));
    }
  }

  /** The command log written for a sequence of accepted commands. */
  function Rendered(cs: seq<Command>): (log: seq<string>)
    ensures |log| == |cs|
  {
    seq(|cs|, i requires 0 <= i < |cs| => EntryText(cs[i]))
  }

  lemma RenderedAppend(cs: seq<Command>, c: Command)
    ensures Rendered(cs + [c]) == Rendered(cs) + [EntryText(c)]
  {
  }

  function DecodeLog(log: seq<string>): Option<seq<Command>>
  {
    if log == [] then Some([])
    else
      match DecodeLog(log[..|log| - 1])
      case None => None
      case Some(cs) =>
        match ParseEntry(log[|log| - 1])
        case None => None
        case Some(c) => Some(cs + [c])
  }

  /** A command log determines the commands that were accepted, in order. */
  lemma {:induction false} DecodeRendered(cs: seq<Command>)
    ensures DecodeLog(Rendered(cs)) == Some(cs)
  {
    if cs != [] {
      var init, last := cs[..|cs| - 1], cs[|cs| - 1];
      assert cs == init + [last];
      var log := Rendered(cs);
      assert log == Rendered(init) + [EntryText(last)];
      assert log[..|log| - 1] == Rendered(init);
      assert log[|log| - 1] == EntryText(last);
      DecodeRendered(init);
      EntryRoundTrip(last);
    }
  }
}
