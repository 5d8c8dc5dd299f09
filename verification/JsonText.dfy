/**
 Strings of UTF-16 code units, and JSON.stringify of a string with the parser that undoes it.
 */
module JsonText {
  newtype CodeUnit = x: int | 0 <= x < 0x1_0000

  type Text = seq<CodeUnit>

  datatype Parsed<+T> = Failed | Got(value: T, rest: Text)

  const QUOTE: CodeUnit := 0x22
  const BACKSLASH: CodeUnit := 0x5C
  const LETTER_U: CodeUnit := 0x75

  predicate IsLead(c: CodeUnit) { 0xD800 <= c < 0xDC00 }

  predicate IsTrail(c: CodeUnit) { 0xDC00 <= c < 0xE000 }

  // --- Printing --------------------------------------------------------------------------

  /** Hexadecimal digits are printed in lower case. */
  function HexDigit(d: int): (c: CodeUnit)
    requires 0 <= d < 16
  {
    if d < 10 then (0x30 + d) as CodeUnit else (0x57 + d) as CodeUnit
  }

  function UnicodeEscape(c: CodeUnit): Text {
    var n := c as int;
    [BACKSLASH, LETTER_U, HexDigit(n / 4096), HexDigit(n / 256 % 16), HexDigit(n / 16 % 16), HexDigit(n % 16)]
  }

  /** The letter of a two-character escape, or 0 if the unit has none. */
  function EscapeLetter(c: CodeUnit): CodeUnit {
    match c
    case 0x08 => 0x62
    case 0x09 => 0x74
    case 0x0A => 0x6E
    case 0x0C => 0x66
    case 0x0D => 0x72
    case 0x22 => 0x22
    case 0x5C => 0x5C
    case _ => 0
  }

  /** How a unit that is not half of a pair is printed. */
  function PrintUnit(c: CodeUnit): (t: Text)
    ensures t != []
  {
    if EscapeLetter(c) != 0 then [BACKSLASH, EscapeLetter(c)]
    else if c < 0x20 || IsLead(c) || IsTrail(c) then UnicodeEscape(c)
    else [c]
  }

  /** A surrogate pair is printed as it is, a lone surrogate is escaped. */
  function PrintUnits(s: Text): Text {
    if s == [] then []
    else if |s| >= 2 && IsLead(s[0]) && IsTrail(s[1]) then s[..2] + PrintUnits(s[2..])
    else PrintUnit(s[0]) + PrintUnits(s[1..])
  }

  /** JSON.stringify of a string. */
  function PrintString(s: Text): Text {
    [QUOTE] + PrintUnits(s) + [QUOTE]
  }

  // --- Parsing ---------------------------------------------------------------------------

  function HexValue(c: CodeUnit): (d: int)
    ensures -1 <= d < 16
  {
    if 0x30 <= c < 0x3A then c as int - 0x30
    else if 0x61 <= c < 0x67 then c as int - 0x57
    else if 0x41 <= c < 0x47 then c as int - 0x37
    else -1
  }

  function Unescaped(letter: CodeUnit): CodeUnit {
    match letter
    case 0x62 => 0x08
    case 0x74 => 0x09
    case 0x6E => 0x0A
    case 0x66 => 0x0C
    case 0x72 => 0x0D
    case 0x22 => 0x22
    case 0x5C => 0x5C
    case 0x2F => 0x2F
    case _ => 0
  }

  function Prepend(c: CodeUnit, parsed: Parsed<Text>): Parsed<Text> {
    match parsed
    case Failed => Failed
    case Got(s, rest) => Got([c] + s, rest)
  }

  /** The units up to the closing quote. */
  function ParseUnits(t: Text): (parsed: Parsed<Text>)
    ensures parsed.Got? ==> |parsed.rest| < |t|
  {
    if t == [] then Failed
    else if t[0] == QUOTE then Got([], t[1..])
    else if t[0] < 0x20 then Failed
    else if t[0] != BACKSLASH then Prepend(t[0], ParseUnits(t[1..]))
    else if |t| < 2 then Failed
    else if t[1] != LETTER_U then
      if Unescaped(t[1]) == 0 then Failed else Prepend(Unescaped(t[1]), ParseUnits(t[2..]))
    else if |t| < 6 || HexValue(t[2]) < 0 || HexValue(t[3]) < 0 || HexValue(t[4]) < 0 || HexValue(t[5]) < 0 then Failed
    else
      Prepend((HexValue(t[2]) * 4096 + HexValue(t[3]) * 256 + HexValue(t[4]) * 16 + HexValue(t[5])) as CodeUnit,
              ParseUnits(t[6..]))
  }

  function ParseString(t: Text): (parsed: Parsed<Text>)
    ensures parsed.Got? ==> |parsed.rest| < |t|
  {
    if t == [] || t[0] != QUOTE then Failed else ParseUnits(t[1..])
  }

  // --- Parsing undoes printing -----------------------------------------------------------

  lemma DigitsAddUp(n: int)
    requires 0 <= n < 0x1_0000
    ensures n / 4096 * 4096 + n / 256 % 16 * 256 + n / 16 % 16 * 16 + n % 16 == n
  {
    var upper, top := n / 16, n / 256;
    assert n == upper * 16 + n % 16;
    assert top == upper / 16;
    assert upper == top * 16 + upper % 16;
    assert n / 4096 == top / 16;
    assert top == n / 4096 * 16 + top % 16;
  }

  lemma EscapedUnitIsUndone(c: CodeUnit, more: Text)
    ensures ParseUnits(UnicodeEscape(c) + more) == Prepend(c, ParseUnits(more))
  {
    var n := c as int;
    var t := UnicodeEscape(c) + more;
    DigitsAddUp(n);
    assert t[2] == HexDigit(n / 4096) && t[3] == HexDigit(n / 256 % 16) && t[4] == HexDigit(n / 16 % 16)
           && t[5] == HexDigit(n % 16);
    assert t[6..] == more;
  }

  lemma LiteralUnitIsUndone(c: CodeUnit, more: Text)
    requires c >= 0x20 && c != QUOTE && c != BACKSLASH
    ensures ParseUnits([c] + more) == Prepend(c, ParseUnits(more))
  {
  }

  lemma UnitIsUndone(c: CodeUnit, more: Text)
    ensures ParseUnits(PrintUnit(c) + more) == Prepend(c, ParseUnits(more))
  {
    if EscapeLetter(c) != 0 {
      assert ([BACKSLASH, EscapeLetter(c)] + more)[2..] == more;
    } else if c < 0x20 || IsLead(c) || IsTrail(c) {
      EscapedUnitIsUndone(c, more);
    } else {
      LiteralUnitIsUndone(c, more);
    }
  }

  lemma PairIsUndone(s: Text, more: Text)
    requires |s| == 2 && IsLead(s[0]) && IsTrail(s[1])
    ensures ParseUnits(s + more) == Prepend(s[0], Prepend(s[1], ParseUnits(more)))
  {
  }

  lemma Regrouped(a: Text, b: Text, c: Text)
    ensures a + b + c == a + (b + c)
  {
  }

  lemma PairUnfolds(s: Text, end: Text)
    requires |s| >= 2 && IsLead(s[0]) && IsTrail(s[1])
    ensures PrintUnits(s) + end == s[..2] + (PrintUnits(s[2..]) + end)
  {
    Regrouped(s[..2], PrintUnits(s[2..]), end);
  }

  lemma PairGoesOn(s: Text, more: Text)
    requires |s| >= 2 && IsLead(s[0]) && IsTrail(s[1])
    requires ParseUnits(PrintUnits(s[2..]) + ([QUOTE] + more)) == Got(s[2..], more)
    ensures ParseUnits(PrintUnits(s) + ([QUOTE] + more)) == Got(s, more)
  {
    var rest := PrintUnits(s[2..]) + ([QUOTE] + more);
    PairUnfolds(s, [QUOTE] + more);
    assert ParseUnits(s[..2] + rest) == Prepend(s[0], Prepend(s[1], Got(s[2..], more))) by {
      PairIsUndone(s[..2], rest);
    }
    assert [s[0]] + ([s[1]] + s[2..]) == s;
  }

  lemma UnitUnfolds(s: Text, end: Text)
    requires s != [] && !(|s| >= 2 && IsLead(s[0]) && IsTrail(s[1]))
    ensures PrintUnits(s) + end == PrintUnit(s[0]) + (PrintUnits(s[1..]) + end)
  {
    Regrouped(PrintUnit(s[0]), PrintUnits(s[1..]), end);
  }

  lemma UnitGoesOn(s: Text, more: Text)
    requires s != [] && !(|s| >= 2 && IsLead(s[0]) && IsTrail(s[1]))
    requires ParseUnits(PrintUnits(s[1..]) + ([QUOTE] + more)) == Got(s[1..], more)
    ensures ParseUnits(PrintUnits(s) + ([QUOTE] + more)) == Got(s, more)
  {
    var rest := PrintUnits(s[1..]) + ([QUOTE] + more);
    UnitUnfolds(s, [QUOTE] + more);
    assert ParseUnits(PrintUnit(s[0]) + rest) == Prepend(s[0], Got(s[1..], more)) by {
      UnitIsUndone(s[0], rest);
    }
    assert [s[0]] + s[1..] == s;
  }

  lemma {:induction false} UnitsAreUndone(s: Text, more: Text)
    ensures ParseUnits(PrintUnits(s) + ([QUOTE] + more)) == Got(s, more)
    decreases |s|
  {
    if s == [] {
      assert [] + ([QUOTE] + more) == [QUOTE] + more && ([QUOTE] + more)[1..] == more;
    } else if |s| >= 2 && IsLead(s[0]) && IsTrail(s[1]) {
      UnitsAreUndone(s[2..], more);
      PairGoesOn(s, more);
    } else {
      UnitsAreUndone(s[1..], more);
      UnitGoesOn(s, more);
    }
  }

  /** Whatever the units, lone surrogates included, a printed string is read back as it was. */
  lemma StringIsUndone(s: Text, more: Text)
    ensures ParseString(PrintString(s) + more) == Got(s, more)
  {
    var t, units := PrintString(s) + more, PrintUnits(s);
    calc {
      t;
      { Regrouped([QUOTE] + units, [QUOTE], more); }
      ([QUOTE] + units) + ([QUOTE] + more);
      { Regrouped([QUOTE], units, [QUOTE] + more); }
      [QUOTE] + (units + ([QUOTE] + more));
    }
    assert t[1..] == units + ([QUOTE] + more);
    UnitsAreUndone(s, more);
  }
}
