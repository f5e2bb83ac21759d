/** The calculator's static keypad: the digit keys with their grid cells, and
    the four operators with their key symbols and button glyphs. */
module Keypad {

  type DigitValue = d: int | 0 <= d <= 9

  /** A key of the digit pad: one of the integers 0 to 9, or the decimal point. */
  datatype Key = Digit(d: DigitValue) | Point

  /** The characters a digit-pad key can produce. */
  const KeypadChars: string := "0123456789."

  /** Python's str() of a digit-pad key: one character (see KeyTextShape). */
  function KeyText(key: Key): (r: string)
    ensures |r| == 1
  {
    match key
    case Digit(d) => [('0' as int + d) as char]
    case Point => "."
  }

  /** The character a key types is its decimal digit, or "." for the point. */
  lemma KeyTextShape(key: Key)
    ensures KeyText(key)[0] in KeypadChars
    ensures key.Digit? ==> KeyText(key)[0] == "0123456789"[key.d]
    ensures key.Point? <==> KeyText(key)[0] == '.'
  {
  }

  /** Different keys type different characters. */
  lemma KeyTextInjective(a: Key, b: Key)
    requires KeyText(a) == KeyText(b)
    ensures a == b
  {
    KeyTextShape(a);
    KeyTextShape(b);
  }

  /** The digit table: each key and the (row, column) of its button. */
  const Digits: map<Key, (nat, nat)> := map[
    Digit(7) := (1, 1), Digit(8) := (1, 2), Digit(9) := (1, 3),
    Digit(4) := (2, 1), Digit(5) := (2, 2), Digit(6) := (2, 3),
    Digit(1) := (3, 1), Digit(2) := (3, 2), Digit(3) := (3, 3),
    Digit(0) := (4, 2), Point := (4, 1)
  ]

  /** Every key of the digit pad has a button, in rows 1 to 4 and columns 1 to 3. */
  lemma DigitsCoverKeypad()
    ensures forall key: Key :: key in Digits
    ensures forall key | key in Digits :: 1 <= Digits[key].0 <= 4 && 1 <= Digits[key].1 <= 3
  {
    forall key: Key ensures key in Digits {
      match key
      case Point =>
      case Digit(d) =>
        assert d == 0 || d == 1 || d == 2 || d == 3 || d == 4 || d == 5 || d == 6 || d == 7 || d == 8 || d == 9;
    }
  }

  /** No two digit-pad buttons share a grid cell. */
  lemma DigitCellsDistinct()
    ensures forall a, b | a in Digits && b in Digits && a != b :: Digits[a] != Digits[b]
  {
  }

  /** The four operators, in the order of the operations table. */
  datatype Op = Divide | Multiply | Subtract | Add

  const Operations: seq<Op> := [Divide, Multiply, Subtract, Add]

  /** The symbol an operator contributes to the expression (also its keyboard
      key): one character (see OpTextShape). */
  function OpText(op: Op): (r: string)
    ensures |r| == 1
  {
    match op
    case Divide => "/"
    case Multiply => "*"
    case Subtract => "-"
    case Add => "+"
  }

  /** The glyph on an operator's button: the key itself for "-" and "+",
      the division and multiplication signs for "/" and "*". */
  function Glyph(op: Op): (g: string)
    ensures |g| == 1
    ensures g == OpText(op) <==> op == Subtract || op == Add
    ensures op == Divide ==> g[0] == 0xF7 as char
    ensures op == Multiply ==> g[0] == 0xD7 as char
  {
    match op
    case Divide => "\U{00F7}"
    case Multiply => "\U{00D7}"
    case Subtract => "-"
    case Add => "+"
  }

  /** The row of an operator's button: its position in the operations table. */
  function OperatorRow(op: Op): (row: nat)
    ensures row < |Operations| && Operations[row] == op
  {
    match op
    case Divide => 0
    case Multiply => 1
    case Subtract => 2
    case Add => 3
  }

  /** An operator's symbol is a division, multiplication, minus or plus sign,
      never a digit-pad character. */
  lemma OpTextShape(op: Op)
    ensures OpText(op)[0] in "/*-+"
    ensures OpText(op)[0] !in KeypadChars
  {
  }

  /** Different operators type different symbols. */
  lemma OpTextInjective(a: Op, b: Op)
    requires OpText(a) == OpText(b)
    ensures a == b
  {
  }
}
