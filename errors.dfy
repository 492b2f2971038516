// The exceptions the engine throws, with the message texts it throws them
// with, and the Option/Result wrappers that carry them through the model.
module Errors {

  datatype Option<+T> = None | Some(value: T) {
    function GetOr(default: T): T
    {
      if Some? then value else default
    }
  }

  datatype Error =
    | WallTooShort
    | FloorWidthTooSmall
    | FloorDepthTooSmall
    | WindowWidthTooSmall
    | WindowHeightTooSmall
    | StairsTooFewSteps
    | StairsWidthTooSmall
    | RoofWidthTooSmall
    | RoofDepthTooSmall
    | RoomWidthTooSmall
    | RoomDepthTooSmall
    | RoomHeightTooSmall
    | NegativeOffset
    | InvalidRotation(rotation: int)
    | UnknownRoofStyle(style: string)
    | SpaceOccupied
    | UnknownBlockType(name: string)
    | UnknownDoorType(name: string)
  {
    /** The text of the thrown `Error`. */
    function Message(): string
    {
      match this
      case WallTooShort => "Wall length must be at least 1 block"
      case FloorWidthTooSmall => "Floor width must be at least 1 block"
      case FloorDepthTooSmall => "Floor depth must be at least 1 block"
      case WindowWidthTooSmall => "Window width must be at least 1"
      case WindowHeightTooSmall => "Window height must be at least 1"
      case StairsTooFewSteps => "Stairs must have at least 1 step"
      case StairsWidthTooSmall => "Stairs width must be at least 1 block"
      case RoofWidthTooSmall => "Roof width must be at least 1 block"
      case RoofDepthTooSmall => "Roof depth must be at least 1 block"
      case RoomWidthTooSmall => "Room width must be at least 1 block"
      case RoomDepthTooSmall => "Room depth must be at least 1 block"
      case RoomHeightTooSmall => "Room height must be at least 1 block"
      case NegativeOffset => "Offset must be non-negative"
      case InvalidRotation(r) => "Invalid rotation: " + IntToString(r)
      case UnknownRoofStyle(s) => "Unknown roof style: " + s
      case SpaceOccupied => "Cannot place window: space is occupied"
      case UnknownBlockType(n) => "Unknown block type: " + n
      case UnknownDoorType(n) => "Unknown door type: " + n
    }
  }

  datatype Result<+T> = Success(value: T) | Failure(error: Error)

  function Digit(d: int): (c: char)
    requires 0 <= d < 10
    ensures '0' <= c <= '9'
  {
    "0123456789"[d]
  }

  /** Decimal text of a whole number, as a template literal prints it. */
  function NatToString(n: nat): (s: string)
    ensures |s| >= 1 && IsDecimal(s)
    ensures s[0] == '0' ==> n == 0 && s == "0"
    decreases n
  {
    if n < 10 then [Digit(n)] else NatToString(n / 10) + [Digit(n % 10)]
  }

  function IntToString(i: int): (s: string)
    ensures |s| >= 1 && IsIntText(s)
    ensures (i < 0) == (s[0] == '-')
  {
    if i < 0 then "-" + NatToString(-i) else NatToString(i)
  }

  // ---- reading the text back --------------------------------------------

  predicate IsDecimal(s: string)
  {
    forall i :: 0 <= i < |s| ==> '0' <= s[i] <= '9'
  }

  /** An optional minus sign followed by decimal digits. */
  predicate IsIntText(s: string)
  {
    |s| >= 1 && if s[0] == '-' then IsDecimal(s[1..]) else IsDecimal(s)
  }

  function DigitValue(c: char): int
    requires '0' <= c <= '9'
  {
    c as int - '0' as int
  }

  /** The value of a string of decimal digits, read from the last digit. */
  function ParseDecimal(s: string): nat
    requires IsDecimal(s)
    decreases |s|
  {
    if s == [] then 0 else 10 * ParseDecimal(s[..|s| - 1]) + DigitValue(s[|s| - 1])
  }

  /** The value of the text IntToString prints: an optional minus sign and
      decimal digits. */
  function ParseInt(s: string): int
    requires IsIntText(s)
  {
    if s[0] == '-' then -(ParseDecimal(s[1..]) as int) else ParseDecimal(s)
  }

  lemma DigitRoundTrip(d: int)
    requires 0 <= d < 10
    ensures DigitValue(Digit(d)) == d
  {
  }

  /** Reading NatToString's text gives the number back. */
  lemma {:induction false} NatToStringRoundTrip(n: nat)
    ensures ParseDecimal(NatToString(n)) == n
    decreases n
  {
    var s := NatToString(n);
    if n < 10 {
      assert s[..|s| - 1] == [];
      DigitRoundTrip(n);
    } else {
      assert s[..|s| - 1] == NatToString(n / 10);
      NatToStringRoundTrip(n / 10);
      DigitRoundTrip(n % 10);
    }
  }

  /** Reading IntToString's text gives the number back, so two numbers
      print the same text only when they are equal. */
  lemma IntToStringRoundTrip(i: int)
    ensures ParseInt(IntToString(i)) == i
  {
    if i < 0 {
      NegativeRoundTrip(i);
    } else {
      var s := NatToString(i);
      assert s[0] != '-';
      NatToStringRoundTrip(i);
    }
  }

  lemma NegativeRoundTrip(i: int)
    requires i < 0
    ensures ParseInt(IntToString(i)) == i
  {
    var n: nat := -i;
    NegativeText(i);
    PrintedNegative(i, n, NatToString(n));
  }

  lemma NegativeText(i: int)
    requires i < 0
    ensures IntToString(i) == "-" + NatToString(-i)
  {
  }

  lemma PrintedNegative(i: int, n: nat, t: string)
    requires i < 0 && n == -i && t == NatToString(n)
    requires IntToString(i) == "-" + t
    ensures ParseInt(IntToString(i)) == i
  {
    ParseNegative(t);
    NatToStringRoundTrip(n);
  }

  /** A minus sign before decimal digits negates their value. */
  lemma ParseNegative(t: string)
    requires IsDecimal(t)
    ensures IsIntText("-" + t) && ParseInt("-" + t) == -(ParseDecimal(t) as int)
  {
    assert ("-" + t)[1..] == t;
  }

  lemma IntToStringInjective(i: int, j: int)
    requires IntToString(i) == IntToString(j)
    ensures i == j
  {
    IntToStringRoundTrip(i);
    IntToStringRoundTrip(j);
  }
}
