/**
 What the text of a value shows of it (`_grid_cell`, `_time_text`): each kind of value is read back from its
 cell, or the cell is given as it stands.
 */
module GridReadBack {
  import opened Decimals
  import opened DoubleText
  import opened GridCell
  import opened GridEscapes
  import opened Wrappers

  // --- Times ----------------------------------------------------------------------------------------------

  lemma FractionShows(microsecond: nat, digits: nat)
    requires microsecond < 1_000_000
    ensures var f := FractionText(microsecond, digits);
            && (f == [] || (f[0] == '.' && |f| > 1 && AllDigits(f[1..])))
            && (|f| == if digits == 0 || (digits > 6 && microsecond == 0) then 0
                       else if digits <= 6 then 1 + digits else 7)
  {
    hide ZeroPadded;
    var text := ZeroPadded(microsecond, 6);
    MicrosecondDigits(microsecond);
    ZeroPaddedIsDigits(microsecond, 6);
    if 0 < digits <= 6 {
      assert ("." + text[..digits])[1..] == text[..digits];
    } else if digits > 6 && microsecond != 0 {
      assert ("." + text)[1..] == text;
    }
  }

  lemma TwoDigits(n: nat)
    ensures n < 100 ==> |ZeroPadded(n, 2)| == 2
    ensures |ZeroPadded(n, 2)| > 2 ==> ZeroPadded(n, 2)[0] != '0'
  {
    DecimalRoundTrip(n);
    if n < 100 {
      assert Pow(2) == 100;
      DecimalLength(n, 2);
    }
  }

  /** A text of a time of day or of a span, its sign left out: hours, minutes and seconds in two digits each,
      the hours in more where they need more, and then as many digits as the column has; six, or none for a
      value without a fraction, where the column has more than six. */
  ghost predicate Timelike(text: string, microsecond: nat, digits: nat) {
    var rest := Past(text, ':');
    var seconds := Past(rest, ':');
    && |Before(text, ':')| >= 2 && AllDigits(Before(text, ':'))
    && (|Before(text, ':')| > 2 ==> Before(text, ':')[0] != '0')
    && |Before(rest, ':')| == 2 && AllDigits(Before(rest, ':')) && NatOf(Before(rest, ':')) < 60
    && |Before(seconds, '.')| == 2 && AllDigits(Before(seconds, '.')) && NatOf(Before(seconds, '.')) < 60
    && AllDigits(Past(seconds, '.'))
    && |Past(seconds, '.')| == (if digits <= 6 then digits else if microsecond == 0 then 0 else 6)
    && ('.' in text <==> Past(seconds, '.') != [])
  }

  lemma ClockIsTimelike(total: nat, microsecond: nat, digits: nat)
    requires microsecond < 1_000_000
    ensures Timelike(ClockText(total) + FractionText(microsecond, digits), microsecond, digits)
    ensures total < 360_000 ==> |Before(ClockText(total) + FractionText(microsecond, digits), ':')| == 2
  {
    hide ZeroPadded, NatOf, Before, Past, FractionText;
    var f := FractionText(microsecond, digits);
    var h, m, s := ZeroPadded(total / 3600, 2), ZeroPadded(total / 60 % 60, 2), ZeroPadded(total % 60, 2);
    FractionShows(microsecond, digits);
    ZeroPaddedIsDigits(total / 3600, 2);
    ZeroPaddedIsDigits(total / 60 % 60, 2);
    ZeroPaddedIsDigits(total % 60, 2);
    TwoDigits(total / 3600);
    TwoDigits(total / 60 % 60);
    TwoDigits(total % 60);
    assert ClockText(total) + f == h + ":" + m + ":" + (s + f);
    ClockParts(h, m, s + f);
    SecondsParts(s, f);
    assert '.' in ClockText(total) + f <==> f != [];
  }

  /** A time's cell, whatever the column: it reads back as the time to the digits the column has, and shows
      just those; a negative span has a sign in front. */
  lemma TimeCellReadsBack(span: int, time: nat, column: Column)
    requires !column.bit && time < DAY
    ensures var cell := Cell(Span(span), column);
            && cell.Some?
            && ReadSpan(cell.value)
               == (if span < 0 then -1 else 1) * Truncated(Magnitude(span), column.fractionalDigits)
            && Timelike(if span < 0 then cell.value[1..] else cell.value, Magnitude(span) % 1_000_000,
                        column.fractionalDigits)
    ensures var cell := Cell(Clock(time), column);
            && cell.Some? && ReadSpan(cell.value) == Truncated(time, column.fractionalDigits)
            && Timelike(cell.value, time % 1_000_000, column.fractionalDigits)
            && |Before(cell.value, ':')| == 2
  {
    hide ClockText, FractionText, ReadTime, Truncated, Timelike, Before;
    SpanReadsBack(span, column.fractionalDigits);
    SpanReadsBack(time, column.fractionalDigits);
    ClockIsTimelike(Magnitude(span) / 1_000_000, Magnitude(span) % 1_000_000, column.fractionalDigits);
    ClockIsTimelike(time / 1_000_000, time % 1_000_000, column.fractionalDigits);
    SpanParts(span, column.fractionalDigits);
    SpanParts(time, column.fractionalDigits);
  }

  lemma SpanParts(span: int, digits: nat)
    ensures var text := ClockText(Magnitude(span) / 1_000_000) + FractionText(Magnitude(span) % 1_000_000, digits);
            && SpanText(span, digits) == (if span < 0 then "-" else "") + text
            && (if span < 0 then SpanText(span, digits)[1..] else SpanText(span, digits)) == text
  {
    hide ClockText, FractionText;
  }

  lemma DateParts(y: string, m: string, d: string, rest: string)
    requires AllDigits(y) && AllDigits(m) && AllDigits(d)
    ensures var text := y + "-" + m + "-" + d + " " + rest;
            var date := Before(text, ' ');
            && Past(text, ' ') == rest && Before(date, '-') == y
            && Before(Past(date, '-'), '-') == m && Past(Past(date, '-'), '-') == d
  {
    hide Before, Past;
    var date := y + ['-'] + (m + ['-'] + d);
    assert ' ' !in date;
    assert y + "-" + m + "-" + d + " " + rest == date + [' '] + rest;
    Parted(date, ' ', rest);
    Parted(y, '-', m + ['-'] + d);
    Parted(m, '-', d);
  }

  /** A date with a time: four, two and two digits and, after a space, the time. */
  lemma MomentCellReadsBack(year: nat, month: nat, day: nat, time: nat, column: Column)
    requires !column.bit && IsValue(Moment(year, month, day, time), column)
    ensures Cell(Moment(year, month, day, time), column).Some?
    ensures var cell := Cell(Moment(year, month, day, time), column).value;
            var date := Before(cell, ' ');
            && IsNumeral(Before(date, '-'), 4, year)
            && IsNumeral(Before(Past(date, '-'), '-'), 2, month)
            && IsNumeral(Past(Past(date, '-'), '-'), 2, day)
            && ReadSpan(Past(cell, ' ')) == Truncated(time, column.fractionalDigits)
            && Timelike(Past(cell, ' '), time % 1_000_000, column.fractionalDigits)
  {
    hide ZeroPadded, NatOf, Before, Past, SpanText, ReadSpan, Truncated, Timelike;
    ZeroPaddedIsDigits(year, 4);
    ZeroPaddedIsDigits(month, 2);
    ZeroPaddedIsDigits(day, 2);
    DateLengths(year, month, day);
    DateParts(ZeroPadded(year, 4), ZeroPadded(month, 2), ZeroPadded(day, 2), SpanText(time, column.fractionalDigits));
    TimeCellReadsBack(0, time, column);
  }

  /** So many digits, which are a number. */
  predicate IsNumeral(text: string, digits: nat, n: nat) {
    |text| == digits && AllDigits(text) && NatOf(text) == n
  }

  lemma DateLengths(year: nat, month: nat, day: nat)
    requires year < 10000 && month < 100 && day < 100
    ensures |ZeroPadded(year, 4)| == 4 && |ZeroPadded(month, 2)| == 2 && |ZeroPadded(day, 2)| == 2
  {
    TwoDigits(month);
    TwoDigits(day);
    assert Pow(2) == 100 && Pow(4) == 100 * Pow(2);
    DecimalLength(year, 4);
  }

  // --- What has no digits of its own ------------------------------------------------------------------------

  /** A NULL and a boolean; in a BIT column a boolean is the number it is. */
  lemma NullsAndFlagsShow(on: bool, column: Column)
    ensures Cell(Null, column) == Some("NULL")
    ensures !column.bit ==> Cell(Flag(on), column) == Some(if on then "1" else "0")
    ensures column.bit ==> Cell(Flag(on), column) == Cell(Integer(if on then 1 else 0), column)
  {
  }

  /** Whether a column has digits enough for a BIT value: one byte at least, and one for every eight bits. */
  lemma BitCellExists(n: int, length: nat, column: Column)
    requires column.bit && column.length == length
    ensures n < 0 ==> Cell(Integer(n), column) == None
    ensures length <= 8 ==> (Cell(Integer(n), column).Some? <==> 0 <= n < 256)
    ensures length == 16 ==> (Cell(Integer(n), column).Some? <==> 0 <= n < 65_536)
    ensures Cell(Integer(n), column).Some? ==>
              |Cell(Integer(n), column).value| == 2 + if length == 0 then 2 else (length + 7) / 8 * 2
  {
    assert Pow256(1) == 256 * Pow256(0) && Pow256(2) == 256 * Pow256(1);
    hide HexText, Pow256;
  }

  /** A text with zeros in front, after its sign where it has one, up to the width and no further. */
  ghost predicate Fills(filled: string, text: string, width: nat) {
    var sign := if text != [] && text[0] in "+-" then 1 else 0;
    && |filled| == (if |text| < width then width else |text|)
    && filled[..sign] == text[..sign] && filled[|filled| - (|text| - sign)..] == text[sign..]
    && forall i :: sign <= i < |filled| - (|text| - sign) ==> filled[i] == '0'
  }

  lemma ZerosFill(text: string, width: nat)
    ensures Fills(ZeroFilled(text, width), text, width)
  {
  }

  /** Any other text is there as it is, read through its escapes; a column that fills with zeros puts them in
      front, after the sign of a number, and leaves the number what it is. */
  lemma TextCellReadsBack(text: string, column: Column)
    requires !column.bit
    ensures Cell(Text(text), column).Some?
    ensures var cell := Cell(Text(text), column).value;
            && (!column.zerofill ==> Unescape(cell) == text)
            && (column.zerofill ==> exists shown :: Unescape(shown) == text && Fills(cell, shown, column.length))
            && (IsNumber(text) ==> Denote(cell) == Denote(text))
  {
    hide Denote, Escape, Unescape, ZeroFilled, Fills;
    UnescapeUndoesEscape(text);
    ZerosFill(Escape(text), column.length);
    if IsNumber(text) {
      UnescapedExactlyWhenTame(text);
      FilledDenotes(text, column);
    }
  }

  /** Digits with a point or without, and with a sign or without, as a DECIMAL's. */
  predicate IsNumber(text: string) {
    && (forall c :: c in text ==> IsDigit(c) || c == '.' || c == '-')
    && text != [] && (if text[0] == '-' then |text| > 1 && IsDigit(text[1]) else IsDigit(text[0]))
  }

  /** Hexadecimal is written in capitals. */
  lemma {:induction false} HexIsUpper(bytes: seq<nat>)
    requires forall i :: 0 <= i < |bytes| ==> bytes[i] < 256
    ensures forall c :: c in HexText(bytes) ==> '0' <= c <= '9' || 'A' <= c <= 'F'
  {
    if bytes != [] {
      HexIsUpper(bytes[1..]);
      ByteIsUpper(bytes[0]);
      hide HexByte;
    }
  }

  lemma ByteIsUpper(b: nat)
    requires b < 256
    ensures forall c :: c in HexByte(b) ==> '0' <= c <= '9' || 'A' <= c <= 'F'
  {
    assert forall d: nat :: d < 16 ==> '0' <= Upper(HexDigit(d)) <= '9' || 'A' <= Upper(HexDigit(d)) <= 'F';
  }

  /** The digits of an integer's cell, after a dash where it is negative: no other character, and no zero in
      front but to fill the column. */
  lemma IntegerCellShows(n: int, column: Column)
    requires !column.bit
    ensures Cell(Integer(n), column).Some?
    ensures var cell := Cell(Integer(n), column).value;
            var digits := if n < 0 && cell != [] then cell[1..] else cell;
            && (n < 0 ==> cell != [] && cell[0] == '-')
            && digits != [] && AllDigits(digits) && NatOf(digits) == Magnitude(n)
            && (!column.zerofill ==> |digits| == 1 || digits[0] != '0')
            && (column.zerofill ==> Fills(cell, IntText(n), column.length))
  {
    hide Decimal, NatOf, ZeroFilled, Fills;
    DecimalRoundTrip(Magnitude(n));
    IntsAreNotEscaped(n);
    if column.zerofill {
      ZerosFill(IntText(n), column.length);
      FilledDigits(ZeroFilled(IntText(n), column.length), n, column.length);
    }
  }

  lemma FilledDigits(cell: string, n: int, width: nat)
    requires Fills(cell, IntText(n), width)
    ensures var digits := if n < 0 && cell != [] then cell[1..] else cell;
            && (n < 0 ==> cell != [] && cell[0] == '-')
            && digits != [] && AllDigits(digits) && NatOf(digits) == Magnitude(n)
  {
    hide Decimal, NatOf;
    var text, digits := IntText(n), Decimal(Magnitude(n));
    DecimalRoundTrip(Magnitude(n));
    assert text[0] in "+-" <==> n < 0;
    var sign := if n < 0 then 1 else 0;
    assert text[sign..] == digits;
    var zeros := cell[sign..|cell| - |digits|];
    assert cell[sign..] == zeros + digits;
    assert zeros == Zeros(|zeros|);
    ZerosAreZero(|zeros|);
    NatOfConcat(zeros, digits);
    if n < 0 { assert cell[0] == cell[..1][0] == text[..1][0]; } else { assert cell[0..] == cell; }
  }

  /** A float's cell in a column of fixed digits: the text with those digits, signed, and zeros in front where
      the column fills with them. */
  lemma FixedCellDenotes(negative: bool, magnitude: string, fixed: string, column: Column)
    requires !column.bit && 0 < column.fractionalDigits < 31
    requires IsMagnitude(magnitude) && IsFixed(fixed, column.fractionalDigits)
    ensures Cell(Double(negative, magnitude, fixed), column).Some?
    ensures var cell := Cell(Double(negative, magnitude, fixed), column).value;
            && Denote(cell) == Denote(fixed).(negative := negative)
            && Denote(cell).exponent == -(column.fractionalDigits as int)
            && (column.zerofill ==> Fills(cell, (if negative then "-" else "") + fixed, column.length))
            && (!column.zerofill ==> cell == (if negative then "-" else "") + fixed)
  {
    hide Denote, IsMagnitude, Filled, Fills;
    var text := FloatText(negative, magnitude, fixed, column);
    var at := |fixed| - column.fractionalDigits - 1;
    assert fixed == fixed[..at] + "." + fixed[at + 1..];
    assert IsDigit(fixed[..at][0]);
    DenotePointed(fixed[..at], fixed[at + 1..]);
    SignNegates(fixed);
    assert text == if negative then "-" + fixed else fixed;
    FilledDenotes(text, column);
    FilledOrNot(text, column);
  }

  /** In any other column, it is the text of the float with as many digits as it takes. */
  lemma DoubleCellShows(negative: bool, magnitude: string, fixed: string, column: Column)
    requires !column.bit && (column.fractionalDigits == 0 || column.fractionalDigits >= 31) && IsMagnitude(magnitude)
    ensures var text := DoubleText.DoubleText(negative, magnitude);
            var cell := Cell(Double(negative, magnitude, fixed), column);
            cell.Some? && if column.zerofill then Fills(cell.value, text, column.length) else cell.value == text
  {
    hide Filled, DoubleText.DoubleText, Fills, IsMagnitude;
    FilledOrNot(DoubleText.DoubleText(negative, magnitude), column);
  }

  lemma FilledOrNot(text: string, column: Column)
    ensures if column.zerofill then Fills(Filled(text, column), text, column.length) else Filled(text, column) == text
  {
    hide ZeroFilled, Fills;
    ZerosFill(text, column.length);
  }
}
