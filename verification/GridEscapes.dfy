/**
 The escape code of the text grid (`_escape_code`, `_GRID_ESCAPES`): how a label or a value is
 written where one of its characters would break the grid's line.
 */
module GridEscapes {

  /** The characters the grid does not write as they are. */
  predicate InTable(code: nat) {
    || code < 0x20 || 0x7F <= code < 0xA0 || code == 0x5C
    || code == 0x2028 || code == 0x2029 || 0x202A <= code < 0x202F || 0x2066 <= code < 0x206A
  }

  function HexDigit(d: nat): char
    requires d < 16
  {
    "0123456789abcdef"[d]
  }

  /** A code in so many hexadecimal digits. */
  function Hex(code: nat, digits: nat): string {
    if digits == 0 then [] else Hex(code / 16, digits - 1) + [HexDigit(code % 16)]
  }

  function EscapeCode(code: nat): string
    requires InTable(code)
  {
    if code == 0 then "\\0"
    else if code == 9 then "\\t"
    else if code == 10 then "\\n"
    else if code == 13 then "\\r"
    else if code == 92 then "\\\\"
    else if code < 0x100 then "\\x" + Hex(code, 2)
    else "\\u" + Hex(code, 4)
  }

  function EscapeChar(c: char): string {
    if InTable(c as nat) then EscapeCode(c as nat) else [c]
  }

  /** text.translate(_GRID_ESCAPES). */
  function Escape(text: string): string {
    if text == [] then [] else EscapeChar(text[0]) + Escape(text[1..])
  }

  // --- Reading it back -------------------------------------------------------------------------------

  function HexValue(c: char): nat {
    if '0' <= c <= '9' then c as nat - '0' as nat
    else if 'a' <= c <= 'f' then c as nat - 'a' as nat + 10
    else 0
  }

  function HexNumber(s: string): nat {
    if s == [] then 0 else HexNumber(s[..|s| - 1]) * 16 + HexValue(s[|s| - 1])
  }

  function CharOf(code: nat): char {
    if code < 0xD800 then code as char else '?'
  }

  /** How many characters the first character of escaped text takes up. */
  function UnitLength(s: string): nat
    requires s != []
  {
    if s[0] != '\\' || |s| == 1 then 1
    else if s[1] == 'x' && |s| >= 4 then 4
    else if s[1] == 'u' && |s| >= 6 then 6
    else 2
  }

  function Unit(s: string): char
    requires s != []
  {
    if s[0] != '\\' || |s| == 1 then s[0]
    else if s[1] == 'x' && |s| >= 4 then CharOf(HexNumber(s[2..4]))
    else if s[1] == 'u' && |s| >= 6 then CharOf(HexNumber(s[2..6]))
    else if s[1] == '0' then 0 as char
    else if s[1] == 't' then '\t'
    else if s[1] == 'n' then '\n'
    else if s[1] == 'r' then '\r'
    else s[1]
  }

  function Unescape(s: string): string {
    if s == [] then [] else [Unit(s)] + Unescape(s[UnitLength(s)..])
  }

  lemma {:induction false} HexRoundTrip(code: nat, digits: nat)
    ensures |Hex(code, digits)| == digits
    ensures digits == 2 && code < 0x100 ==> HexNumber(Hex(code, digits)) == code
    ensures digits == 4 && code < 0x10000 ==> HexNumber(Hex(code, digits)) == code
  {
    HexKeepsNumber(code, digits);
  }

  function Pow16(k: nat): nat {
    if k == 0 then 1 else 16 * Pow16(k - 1)
  }

  lemma {:induction false} HexKeepsNumber(code: nat, digits: nat)
    ensures |Hex(code, digits)| == digits
    ensures code < Pow16(digits) ==> HexNumber(Hex(code, digits)) == code
  {
    if digits > 0 {
      HexKeepsNumber(code / 16, digits - 1);
      assert Hex(code, digits)[..digits - 1] == Hex(code / 16, digits - 1);
      DigitReads(code % 16);
      hide HexDigit, HexValue;
    }
  }

  lemma DigitReads(d: nat)
    requires d < 16
    ensures HexValue(HexDigit(d)) == d && !InTable(HexDigit(d) as nat)
  {
  }

  lemma {:induction false} HexIsTame(code: nat, digits: nat)
    ensures |Hex(code, digits)| == digits
    ensures forall i :: 0 <= i < digits ==> !InTable(Hex(code, digits)[i] as nat)
  {
    hide HexDigit, InTable;
    if digits > 0 {
      HexIsTame(code / 16, digits - 1);
      DigitReads(code % 16);
    }
  }

  /** Escaped, a character is a unit that reads back as it. */
  lemma UnitOfEscaped(c: char, rest: string)
    ensures var s := EscapeChar(c) + rest;
            s != [] && UnitLength(s) == |EscapeChar(c)| && Unit(s) == c && s[UnitLength(s)..] == rest
  {
    hide Hex, HexNumber;
    var code, s := c as nat, EscapeChar(c) + rest;
    if InTable(code) && code !in {0, 9, 10, 13, 92} {
      var digits := if code < 0x100 then 2 else 4;
      HexRoundTrip(code, digits);
      assert s[2..2 + digits] == Hex(code, digits);
    }
  }

  /** Unescaping undoes the escapes, for every text. */
  lemma {:induction false} UnescapeUndoesEscape(text: string)
    ensures Unescape(Escape(text)) == text
  {
    hide EscapeChar, Unit, UnitLength;
    if text != [] {
      UnitOfEscaped(text[0], Escape(text[1..]));
      UnescapeUndoesEscape(text[1..]);
    }
  }

  /** No two texts are written alike. */
  lemma EscapeIsInjective(a: string, b: string)
    requires Escape(a) == Escape(b)
    ensures a == b
  {
    UnescapeUndoesEscape(a);
    UnescapeUndoesEscape(b);
  }

  /** No character of the text is in the table, but for the backslash. */
  predicate Tame(text: string) {
    forall c :: c in text ==> c == '\\' || !InTable(c as nat)
  }

  /** Nothing of the table is left in escaped text, but for the backslash. */
  lemma {:induction false} EscapedIsTame(text: string)
    ensures Tame(Escape(text))
  {
    hide Hex;
    if text != [] {
      var code := text[0] as nat;
      HexIsTame(code, 2);
      HexIsTame(code, 4);
      EscapedIsTame(text[1..]);
    }
  }

  lemma EscapesAreLonger(c: char)
    ensures if InTable(c as nat) then |EscapeChar(c)| >= 2 else EscapeChar(c) == [c]
  {
    hide Hex;
    HexKeepsNumber(c as nat, 2);
    HexKeepsNumber(c as nat, 4);
  }

  lemma {:induction false} EscapeGrows(text: string)
    ensures |Escape(text)| >= |text|
  {
    hide EscapeChar;
    if text != [] {
      EscapesAreLonger(text[0]);
      EscapeGrows(text[1..]);
    }
  }

  /** Which characters are escaped, and how: controls, the backslash, the separators of lines and paragraphs,
      and the marks that embed, override and isolate directions; five of them with a letter of their own, the
      others in two or four hexadecimal digits. */
  lemma EscapesExactly(c: char)
    ensures EscapeChar(c) != [c] <==>
            c < ' ' || '\U{7F}' <= c <= '\U{9F}' || c == '\\'
            || '\U{2028}' <= c <= '\U{202E}' || '\U{2066}' <= c <= '\U{2069}'
    ensures EscapeChar('\U{0}') == "\\0" && EscapeChar('\U{9}') == "\\t" && EscapeChar('\U{A}') == "\\n"
            && EscapeChar('\U{D}') == "\\r" && EscapeChar('\\') == "\\\\"
    ensures EscapeChar(c) != [c] && c !in "\U{0}\U{9}\U{A}\U{D}\\" ==>
              if c <= '\U{9F}' then |EscapeChar(c)| == 4 && "\\x" <= EscapeChar(c)
              else |EscapeChar(c)| == 6 && "\\u" <= EscapeChar(c)
  {
    hide Hex;
    EscapesAreLonger(c);
    HexKeepsNumber(c as nat, 2);
    HexKeepsNumber(c as nat, 4);
  }

  /** A text is written as it is exactly when none of its characters is in the table. */
  lemma {:induction false} UnescapedExactlyWhenTame(text: string)
    ensures Escape(text) == text <==> forall c :: c in text ==> !InTable(c as nat)
  {
    hide EscapeChar, InTable;
    if text != [] {
      var c, rest := text[0], text[1..];
      assert text == [c] + rest;
      EscapesAreLonger(c);
      EscapeGrows(rest);
      UnescapedExactlyWhenTame(rest);
      if !InTable(c as nat) {
        assert Escape(text) == [c] + Escape(rest);
        assert Escape(text)[1..] == Escape(rest);
        assert forall x :: x in text <==> x == c || x in rest;
      } else {
        assert |Escape(text)| == |EscapeChar(c)| + |Escape(rest)|;
        assert c in text;
      }
    }
  }
}
