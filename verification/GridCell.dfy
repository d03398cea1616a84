/**
 The text of a value in the grid (`_grid_cell`, `_time_text`).

 A float comes as the texts Python writes its magnitude with: the shortest that reads back as it, and
 the one with the column's digits after the point.
 */
module GridCell {
  import opened Decimals
  import opened DoubleText
  import opened GridEscapes
  import opened TextGrid
  import opened Wrappers

  const DAY := 86_400_000_000
  const NOT_FIXED_DEC := 31

  /** What a cell may hold; times of day and spans are in microseconds. */
  datatype Datum =
    | Null
    | Bytes(bytes: seq<nat>)
    | Flag(on: bool)
    | Span(span: int)
    | Clock(time: nat)
    | Moment(year: nat, month: nat, day: nat, time: nat)
    | Double(negative: bool, magnitude: string, fixed: string)
    | Integer(number: int)
    | Text(text: string)

  datatype Column = Column(bit: bool, length: nat, fractionalDigits: nat, zerofill: bool)

  /** Digits, a point and so many digits. */
  predicate IsFixed(text: string, digits: nat) {
    |text| > digits + 1 && text[|text| - digits - 1] == '.'
    && AllDigits(text[..|text| - digits - 1]) && AllDigits(text[|text| - digits..])
  }

  predicate HasFixedDigits(column: Column) {
    0 < column.fractionalDigits < NOT_FIXED_DEC
  }

  /** What Python's values are: bytes, times of day, and the texts of finite floats. */
  predicate IsValue(value: Datum, column: Column) {
    match value
    case Bytes(bytes) => forall i :: 0 <= i < |bytes| ==> bytes[i] < 256
    case Clock(time) => time < DAY
    case Moment(year, month, day, time) => year < 10000 && month < 100 && day < 100 && time < DAY
    case Double(_, magnitude, fixed) =>
      IsMagnitude(magnitude) && (HasFixedDigits(column) ==> IsFixed(fixed, column.fractionalDigits))
    case _ => true
  }

  // --- Hexadecimal --------------------------------------------------------------------------------------

  function Upper(c: char): char {
    if 'a' <= c <= 'f' then (c as int - 32) as char else c
  }

  function HexByte(b: nat): string
    requires b < 256
  {
    [Upper(HexDigit(b / 16)), Upper(HexDigit(b % 16))]
  }

  /** value.hex().upper(). */
  function HexText(bytes: seq<nat>): (text: string)
    requires forall i :: 0 <= i < |bytes| ==> bytes[i] < 256
    ensures |text| == 2 * |bytes|
  {
    if bytes == [] then [] else HexByte(bytes[0]) + HexText(bytes[1..])
  }

  function Pow256(k: nat): (p: nat)
    ensures p >= 1
  {
    if k == 0 then 1 else 256 * Pow256(k - 1)
  }

  /** value.to_bytes(size, "big"). */
  function BigEndian(n: nat, size: nat): (bytes: seq<nat>)
    ensures |bytes| == size && forall i :: 0 <= i < |bytes| ==> bytes[i] < 256
  {
    if size == 0 then [] else BigEndian(n / 256, size - 1) + [n % 256]
  }

  // --- Times ----------------------------------------------------------------------------------------------

  /** A number with zeros in front where it is shorter. */
  function ZeroPadded(n: nat, digits: nat): string {
    var text := Decimal(n);
    Zeros(if |text| < digits then digits - |text| else 0) + text
  }

  function FractionText(microsecond: nat, digits: nat): string
    requires microsecond < 1_000_000
  {
    var text := ZeroPadded(microsecond, 6);
    MicrosecondDigits(microsecond);
    if 0 < digits <= 6 then "." + text[..digits]
    else if digits > 6 && microsecond != 0 then "." + text
    else ""
  }

  /** Hours, minutes and seconds. */
  function ClockText(seconds: nat): string {
    ZeroPadded(seconds / 3600, 2) + ":" + ZeroPadded(seconds / 60 % 60, 2) + ":" + ZeroPadded(seconds % 60, 2)
  }

  function Magnitude(n: int): nat {
    if n < 0 then -n else n
  }

  function SpanText(span: int, digits: nat): string {
    (if span < 0 then "-" else "") + ClockText(Magnitude(span) / 1_000_000)
    + FractionText(Magnitude(span) % 1_000_000, digits)
  }

  function DateText(year: nat, month: nat, day: nat): string {
    ZeroPadded(year, 4) + "-" + ZeroPadded(month, 2) + "-" + ZeroPadded(day, 2)
  }

  // --- The cell -------------------------------------------------------------------------------------------

  /** text.zfill(width). */
  function ZeroFilled(text: string, width: nat): string {
    var zeros := Zeros(if |text| < width then width - |text| else 0);
    if text != [] && (text[0] == '-' || text[0] == '+') then [text[0]] + zeros + text[1..] else zeros + text
  }

  function FloatText(negative: bool, magnitude: string, fixed: string, column: Column): string
    requires IsMagnitude(magnitude)
  {
    if HasFixedDigits(column) then (if negative then "-" else "") + fixed
    else DoubleText.DoubleText(negative, magnitude)
  }

  function BitSize(length: nat): nat {
    if (length + 7) / 8 < 1 then 1 else (length + 7) / 8
  }

  /** The bytes of a BIT column, None where the value has no such bytes and the conversion raises. */
  function BitText(value: Datum, length: nat): Option<string> {
    var number := match value
      case Integer(n) => Some(n)
      case Flag(on) => Some(if on then 1 else 0)
      case _ => None;
    if number.Some? && 0 <= number.value < Pow256(BitSize(length))
    then Some("0x" + HexText(BigEndian(number.value, BitSize(length))))
    else None
  }

  function Filled(text: string, column: Column): string {
    if column.zerofill then ZeroFilled(text, column.length) else text
  }

  function Cell(value: Datum, column: Column): Option<string>
    requires IsValue(value, column)
  {
    if value.Null? then Some("NULL")
    else if value.Bytes? then Some("0x" + HexText(value.bytes))
    else if column.bit then BitText(value, column.length)
    else
      match value
      case Flag(on) => Some(if on then "1" else "0")
      case Span(span) => Some(SpanText(span, column.fractionalDigits))
      case Clock(time) => Some(SpanText(time, column.fractionalDigits))
      case Moment(year, month, day, time) =>
        Some(DateText(year, month, day) + " " + SpanText(time, column.fractionalDigits))
      case Double(negative, magnitude, fixed) =>
        Some(Filled(FloatText(negative, magnitude, fixed, column), column))
      case Integer(n) => Some(Filled(Escape(IntText(n)), column))
      case Text(text) => Some(Filled(Escape(text), column))
  }

  // --- Nothing breaks the line ----------------------------------------------------------------------------

  /** The characters of numbers and times. */
  predicate IsPlain(c: char) {
    IsDigit(c) || 'A' <= c <= 'Z' || 'a' <= c <= 'z' || c == '.' || c == '-' || c == '+' || c == ':' || c == ' '
  }

  ghost predicate AllPlain(text: string) {
    forall c :: c in text ==> IsPlain(c)
  }

  lemma PlainIsTame(text: string)
    requires AllPlain(text)
    ensures Tame(text)
  {
  }

  lemma DigitsArePlain(text: string)
    requires AllDigits(text)
    ensures AllPlain(text)
  {
  }

  lemma ZeroPaddedIsDigits(n: nat, digits: nat)
    ensures AllDigits(ZeroPadded(n, digits)) && NatOf(ZeroPadded(n, digits)) == n
    ensures |ZeroPadded(n, digits)| >= digits && ZeroPadded(n, digits) != []
    ensures |Decimal(n)| <= digits ==> |ZeroPadded(n, digits)| == digits
  {
    hide Decimal, NatOf, Pow;
    DecimalRoundTrip(n);
    var k := if |Decimal(n)| < digits then digits - |Decimal(n)| else 0;
    ZerosAreZero(k);
    NatOfConcat(Zeros(k), Decimal(n));
  }

  lemma {:induction false} DecimalLength(n: nat, k: nat)
    requires n < Pow(k) && k >= 1
    ensures |Decimal(n)| <= k
  {
    if n >= 10 { DecimalLength(n / 10, k - 1); }
  }

  lemma MicrosecondDigits(microsecond: nat)
    requires microsecond < 1_000_000
    ensures |ZeroPadded(microsecond, 6)| == 6
  {
    assert Pow(2) == 100 && Pow(4) == 100 * Pow(2) && Pow(6) == 100 * Pow(4);
    DecimalLength(microsecond, 6);
  }

  lemma ClockIsPlain(seconds: nat)
    ensures AllPlain(ClockText(seconds))
  {
    hide ZeroPadded;
    ZeroPaddedIsDigits(seconds / 3600, 2);
    ZeroPaddedIsDigits(seconds / 60 % 60, 2);
    ZeroPaddedIsDigits(seconds % 60, 2);
    DigitsArePlain(ZeroPadded(seconds / 3600, 2));
    DigitsArePlain(ZeroPadded(seconds / 60 % 60, 2));
    DigitsArePlain(ZeroPadded(seconds % 60, 2));
  }

  lemma SpanIsPlain(span: int, digits: nat)
    ensures AllPlain(SpanText(span, digits))
  {
    hide ZeroPadded, ClockText;
    ClockIsPlain(Magnitude(span) / 1_000_000);
    MicrosecondDigits(Magnitude(span) % 1_000_000);
    ZeroPaddedIsDigits(Magnitude(span) % 1_000_000, 6);
    DigitsArePlain(ZeroPadded(Magnitude(span) % 1_000_000, 6));
  }

  lemma DateIsPlain(year: nat, month: nat, day: nat)
    ensures AllPlain(DateText(year, month, day))
  {
    hide ZeroPadded;
    ZeroPaddedIsDigits(year, 4);
    ZeroPaddedIsDigits(month, 2);
    ZeroPaddedIsDigits(day, 2);
    DigitsArePlain(ZeroPadded(year, 4));
    DigitsArePlain(ZeroPadded(month, 2));
    DigitsArePlain(ZeroPadded(day, 2));
  }

  lemma {:induction false} HexIsPlain(bytes: seq<nat>)
    requires forall i :: 0 <= i < |bytes| ==> bytes[i] < 256
    ensures AllPlain(HexText(bytes))
  {
    if bytes != [] {
      HexIsPlain(bytes[1..]);
      ByteIsPlain(bytes[0]);
      hide HexByte, IsPlain;
    }
  }

  lemma ByteIsPlain(b: nat)
    requires b < 256
    ensures AllPlain(HexByte(b))
  {
  }

  lemma IntIsPlain(n: int)
    ensures AllPlain(IntText(n))
  {
    DecimalRoundTrip(Magnitude(n));
    DigitsArePlain(Decimal(Magnitude(n)));
    hide Decimal;
  }

  lemma LayoutIsPlain(p: Placed)
    requires p.digits != [] && AllDigits(p.digits)
    ensures AllPlain(Layout(p))
  {
    assert IsPlain('0') && IsPlain('.') && IsPlain('e');
    hide IntText, IsPlain, AllDigits;
    IntIsPlain(p.decpt - 1);
    DigitsArePlain(p.digits);
    ZerosArePlain(Magnitude(p.decpt));
    ZerosArePlain(Magnitude(p.decpt - |p.digits|));
  }

  lemma ZerosArePlain(k: nat)
    ensures AllPlain(Zeros(k))
  {
  }

  lemma FloatIsPlain(negative: bool, magnitude: string, fixed: string, column: Column)
    requires IsValue(Double(negative, magnitude, fixed), column)
    ensures AllPlain(FloatText(negative, magnitude, fixed, column))
  {
    hide Layout, Place, IsMagnitude;
    if HasFixedDigits(column) {
      var at := |fixed| - column.fractionalDigits - 1;
      assert fixed == fixed[..at] + "." + fixed[at + 1..];
    } else if !IsZero(magnitude) {
      PlacedDigits(magnitude);
      LayoutIsPlain(Place(magnitude));
    }
  }

  lemma FilledIsTame(text: string, column: Column)
    requires Tame(text)
    ensures Tame(Filled(text, column))
  {
    var zeros := Zeros(if |text| < column.length then column.length - |text| else 0);
    ZerosArePlain(|zeros|);
    PlainIsTame(zeros);
    if text != [] {
      hide Tame;
      PartsAreTame(text);
      TamePieces(text[..1], zeros);
      TamePieces(text[..1] + zeros, text[1..]);
      TamePieces(zeros, text);
    }
  }

  lemma PartsAreTame(text: string)
    requires Tame(text) && text != []
    ensures Tame(text[..1]) && Tame(text[1..])
  {
    assert forall c :: c in text[..1] ==> c in text;
    assert forall c :: c in text[1..] ==> c in text;
  }

  lemma TamePieces(a: string, b: string)
    requires Tame(a) && Tame(b)
    ensures Tame(a + b)
  {
    assert forall c :: c in a + b ==> c in a || c in b;
  }

  /** The text of every value, of any column, holds nothing that would break its line. */
  lemma CellIsTame(value: Datum, column: Column)
    requires IsValue(value, column)
    ensures Cell(value, column).Some? ==> Tame(Cell(value, column).value)
  {
    hide Tame, AllPlain, Filled, HexText, BigEndian, SpanText, DateText, FloatText, IntText, Escape, IsMagnitude,
        IsFixed;
    PlainConstants();
    if value.Bytes? {
      HexIsPlain(value.bytes);
      PlainIsTame(HexText(value.bytes));
      TamePieces("0x", HexText(value.bytes));
    } else if column.bit {
      if value.Integer? && 0 <= value.number { BitsAreTame(value.number, BitSize(column.length)); }
      BitsAreTame(0, BitSize(column.length));
      BitsAreTame(1, BitSize(column.length));
    } else {
      OtherCellIsTame(value, column);
    }
  }

  lemma PlainConstants()
    ensures Tame("NULL") && Tame("0x") && Tame("0") && Tame("1") && Tame(" ")
  {
  }

  lemma BitsAreTame(n: nat, size: nat)
    ensures Tame("0x" + HexText(BigEndian(n, size)))
  {
    HexIsPlain(BigEndian(n, size));
    PlainIsTame(HexText(BigEndian(n, size)));
    PlainConstants();
    hide Tame, HexText;
    TamePieces("0x", HexText(BigEndian(n, size)));
  }

  lemma OtherCellIsTame(value: Datum, column: Column)
    requires IsValue(value, column) && !value.Bytes? && !column.bit
    ensures Cell(value, column).Some? && Tame(Cell(value, column).value)
  {
    hide Tame, AllPlain, Filled, SpanText, DateText, FloatText, IntText, Escape, IsMagnitude, IsFixed;
    PlainConstants();
    match value {
      case Span(span) => SpanIsTame(span, column.fractionalDigits);
      case Clock(time) => SpanIsTame(time, column.fractionalDigits);
      case Moment(year, month, day, time) =>
        DateIsPlain(year, month, day);
        PlainIsTame(DateText(year, month, day));
        SpanIsTame(time, column.fractionalDigits);
        TamePieces(DateText(year, month, day), " ");
        TamePieces(DateText(year, month, day) + " ", SpanText(time, column.fractionalDigits));
      case Double(negative, magnitude, fixed) =>
        FloatIsPlain(negative, magnitude, fixed, column);
        PlainIsTame(FloatText(negative, magnitude, fixed, column));
        FilledIsTame(FloatText(negative, magnitude, fixed, column), column);
      case Integer(n) =>
        EscapedIsTame(IntText(n));
        FilledIsTame(Escape(IntText(n)), column);
      case Text(text) =>
        EscapedIsTame(text);
        FilledIsTame(Escape(text), column);
      case _ =>
    }
  }

  lemma SpanIsTame(span: int, digits: nat)
    ensures Tame(SpanText(span, digits))
  {
    SpanIsPlain(span, digits);
    PlainIsTame(SpanText(span, digits));
  }

  // --- A result set of values -------------------------------------------------------------------------------

  /** A row has a value for every column, and each can be written. */
  ghost predicate CanDraw(columns: seq<Column>, row: seq<Datum>) {
    |row| == |columns|
    && forall j :: 0 <= j < |row| ==> IsValue(row[j], columns[j]) && Cell(row[j], columns[j]).Some?
  }

  function Texts(columns: seq<Column>, row: seq<Datum>): (texts: seq<string>)
    requires CanDraw(columns, row)
    ensures |texts| == |row| && forall j :: 0 <= j < |row| ==> Some(texts[j]) == Cell(row[j], columns[j])
  {
    seq(|row|, j requires 0 <= j < |row| => Cell(row[j], columns[j]).value)
  }

  function AllTexts(columns: seq<Column>, rows: seq<seq<Datum>>): (texts: seq<seq<string>>)
    requires forall row :: row in rows ==> CanDraw(columns, row)
    ensures |texts| == |rows| && forall i :: 0 <= i < |rows| ==> texts[i] == Texts(columns, rows[i])
  {
    seq(|rows|, i requires 0 <= i < |rows| => Texts(columns, rows[i]))
  }

  lemma TextsAreOneLine(columns: seq<Column>, row: seq<Datum>)
    requires CanDraw(columns, row)
    ensures forall text :: text in Texts(columns, row) ==> OneLine(text)
  {
    hide Cell;
    forall text | text in Texts(columns, row) ensures OneLine(text) {
      var j :| 0 <= j < |row| && text == Texts(columns, row)[j];
      CellIsTame(row[j], columns[j]);
    }
  }

  /** Whatever a result set holds, its grid breaks into exactly the lines it was drawn with. */
  lemma ValuesBreakIntoTheirLines(u: Tables, labels: seq<string>, columns: seq<Column>, rows: seq<seq<Datum>>,
                                  right: seq<bool>)
    requires |labels| == |columns| == |right| && forall row :: row in rows ==> CanDraw(columns, row)
    ensures var texts := AllTexts(columns, rows);
            && Rectangular(labels, texts, right)
            && var lines := GridLines(u, labels, texts, right); SplitLines(Joined("\n", lines)) == lines
  {
    hide GridLines, Joined, SplitLines, Texts, OneLine;
    var texts := AllTexts(columns, rows);
    forall row | row in texts ensures |row| == |labels| && forall text :: text in row ==> OneLine(text) {
      var i :| 0 <= i < |rows| && row == texts[i];
      assert rows[i] in rows;
      TextsAreOneLine(columns, rows[i]);
    }
    GridBreaksIntoItsLines(u, labels, texts, right);
  }

  // --- Reading it back --------------------------------------------------------------------------------------

  function Lower(c: char): char {
    if 'A' <= c <= 'F' then (c as int + 32) as char else c
  }

  /** The bytes that pairs of hexadecimal digits are. */
  function BytesOf(hex: string): seq<nat> {
    if |hex| < 2 then []
    else [HexValue(Lower(hex[0])) * 16 + HexValue(Lower(hex[1]))] + BytesOf(hex[2..])
  }

  /** Big end first. */
  function NumberOf(bytes: seq<nat>): nat {
    if bytes == [] then 0 else NumberOf(bytes[..|bytes| - 1]) * 256 + bytes[|bytes| - 1]
  }

  lemma ByteReadsBack(b: nat)
    requires b < 256
    ensures var hex := HexByte(b); HexValue(Lower(hex[0])) * 16 + HexValue(Lower(hex[1])) == b
  {
    assert forall d: nat :: d < 16 ==> HexValue(Lower(Upper(HexDigit(d)))) == d;
  }

  lemma ByteInFront(b: nat, hex: string)
    requires b < 256
    ensures BytesOf(HexByte(b) + hex) == [b] + BytesOf(hex)
  {
    ByteReadsBack(b);
    assert (HexByte(b) + hex)[2..] == hex;
    hide HexValue, Lower, Upper, HexDigit;
  }

  lemma {:induction false} HexReadsBack(bytes: seq<nat>)
    requires forall i :: 0 <= i < |bytes| ==> bytes[i] < 256
    ensures BytesOf(HexText(bytes)) == bytes
  {
    hide HexByte, BytesOf;
    if bytes != [] {
      HexReadsBack(bytes[1..]);
      ByteInFront(bytes[0], HexText(bytes[1..]));
    } else {
      NoBytes();
    }
  }

  lemma NoBytes()
    ensures BytesOf([]) == []
  {
  }

  lemma {:induction false} BigEndianReadsBack(n: nat, size: nat)
    requires n < Pow256(size)
    ensures NumberOf(BigEndian(n, size)) == n
  {
    if size > 0 {
      BigEndianReadsBack(n / 256, size - 1);
      assert BigEndian(n, size)[..size - 1] == BigEndian(n / 256, size - 1);
    }
  }

  /** Binary values show every byte, and a BIT value all the bytes of its column. */
  lemma HexCellReadsBack(bytes: seq<nat>, n: nat, column: Column)
    requires IsValue(Bytes(bytes), column)
    ensures Cell(Bytes(bytes), column).Some?
    ensures var text := Cell(Bytes(bytes), column).value; "0x" <= text && BytesOf(text[2..]) == bytes
    ensures column.bit ==> (Cell(Integer(n), column).Some? <==> n < Pow256(BitSize(column.length)))
    ensures column.bit && n < Pow256(BitSize(column.length)) ==>
              var text := Cell(Integer(n), column).value;
              "0x" <= text && |text| == 2 + 2 * BitSize(column.length) && NumberOf(BytesOf(text[2..])) == n
  {
    hide HexText, BytesOf, NumberOf, BigEndian;
    HexReadsBack(bytes);
    assert ("0x" + HexText(bytes))[2..] == HexText(bytes);
    var size := BitSize(column.length);
    if column.bit && n < Pow256(size) {
      BigEndianReadsBack(n, size);
      HexReadsBack(BigEndian(n, size));
      assert ("0x" + HexText(BigEndian(n, size)))[2..] == HexText(BigEndian(n, size));
    }
  }

  // Times.

  /** The microseconds that hours, minutes and seconds with a fraction are. */
  function ReadTime(text: string): nat {
    var rest := Past(text, ':');
    var seconds := Past(rest, ':');
    var fraction := Past(seconds, '.');
    ((NatOf(Before(text, ':')) * 60 + NatOf(Before(rest, ':'))) * 60 + NatOf(Before(seconds, '.'))) * 1_000_000
    + NatOf(fraction) * Pow(if |fraction| <= 6 then 6 - |fraction| else 0)
  }

  function ReadSpan(text: string): int {
    if text != [] && text[0] == '-' then -(ReadTime(text[1..]) as int) else ReadTime(text)
  }

  /** The microseconds one digit more or less would stand for. */
  function Unit(digits: nat): (unit: nat)
    ensures unit >= 1
  {
    if digits <= 6 then Pow(6 - digits) else 1
  }

  /** Without what the digits leave out. */
  function Truncated(n: nat, digits: nat): int {
    n - n % Unit(digits)
  }

  lemma SecondsParts(seconds: string, fraction: string)
    requires AllDigits(seconds) && (fraction == [] || fraction[0] == '.')
    ensures Before(seconds + fraction, '.') == seconds
    ensures Past(seconds + fraction, '.') == if fraction == [] then [] else fraction[1..]
  {
    hide Before, Past;
    if fraction == [] {
      assert seconds + fraction == seconds;
      Unparted(seconds, '.');
    } else {
      assert seconds + fraction == seconds + ['.'] + fraction[1..];
      Parted(seconds, '.', fraction[1..]);
    }
  }

  lemma ClockParts(h: string, m: string, rest: string)
    requires AllDigits(h) && AllDigits(m)
    ensures var text := h + ":" + m + ":" + rest;
            && Before(text, ':') == h && Before(Past(text, ':'), ':') == m && Past(Past(text, ':'), ':') == rest
  {
    hide Before, Past;
    assert h + ":" + m + ":" + rest == h + [':'] + (m + [':'] + rest);
    Parted(h, ':', m + [':'] + rest);
    Parted(m, ':', rest);
  }

  /** The microseconds a fraction with its point is. */
  function ReadFraction(fraction: string): nat {
    if fraction == [] then 0 else NatOf(fraction[1..]) * Pow(if |fraction| <= 7 then 7 - |fraction| else 0)
  }

  lemma PartsReadBack(hours: nat, minutes: nat, seconds: nat, fraction: string)
    requires fraction == [] || fraction[0] == '.'
    ensures var text := ZeroPadded(hours, 2) + ":" + ZeroPadded(minutes, 2) + ":" + ZeroPadded(seconds, 2) + fraction;
            ReadTime(text) == ((hours * 60 + minutes) * 60 + seconds) * 1_000_000 + ReadFraction(fraction)
  {
    hide ZeroPadded, NatOf, Pow, Before, Past, AllDigits;
    var h, m, s := ZeroPadded(hours, 2), ZeroPadded(minutes, 2), ZeroPadded(seconds, 2);
    ZeroPaddedIsDigits(hours, 2);
    ZeroPaddedIsDigits(minutes, 2);
    ZeroPaddedIsDigits(seconds, 2);
    assert h + ":" + m + ":" + s + fraction == h + ":" + m + ":" + (s + fraction);
    ClockParts(h, m, s + fraction);
    SecondsParts(s, fraction);
    NatOfNothing();
  }

  lemma ClockReadsBack(seconds: nat, fraction: string)
    requires fraction == [] || fraction[0] == '.'
    ensures ReadTime(ClockText(seconds) + fraction) == seconds * 1_000_000 + ReadFraction(fraction)
  {
    hide ZeroPadded, ReadTime, ReadFraction;
    PartsReadBack(seconds / 3600, seconds / 60 % 60, seconds % 60, fraction);
    Clockwork(seconds);
  }

  lemma Clockwork(seconds: nat)
    ensures (seconds / 3600 * 60 + seconds / 60 % 60) * 60 + seconds % 60 == seconds
  {
    assert seconds / 3600 == seconds / 60 / 60;
  }

  lemma {:induction false} DigitsBound(s: string)
    requires AllDigits(s)
    ensures NatOf(s) < Pow(|s|)
  {
    if s != [] { DigitsBound(s[..|s| - 1]); }
  }

  lemma {:induction false} PowAdds(a: nat, b: nat)
    ensures Pow(a + b) == Pow(a) * Pow(b)
  {
    if a > 0 { PowAdds(a - 1, b); }
  }

  lemma AtLeastOnce(k: nat, unit: nat)
    requires k >= 1
    ensures k * unit >= unit
  {
  }

  lemma Distributes(a: nat, b: nat, unit: nat)
    ensures (a - b) * unit == a * unit - b * unit
  {
  }

  lemma Remainder(q: nat, unit: nat, r: nat)
    requires r < unit
    ensures (q * unit + r) % unit == r
  {
    var quotient := (q * unit + r) / unit;
    Distributes(quotient, q, unit);
    Distributes(q, quotient, unit);
    if q < quotient {
      AtLeastOnce(quotient - q, unit);
    } else if quotient < q {
      AtLeastOnce(q - quotient, unit);
    }
  }

  /** The first digits of a number of six are all of it but what is left over. */
  lemma FirstDigits(n: nat, text: string, digits: nat)
    requires AllDigits(text) && |text| == 6 && NatOf(text) == n && digits <= 6
    ensures NatOf(text[..digits]) * Pow(6 - digits) == Truncated(n, digits)
  {
    hide NatOf, Pow;
    var a, b := text[..digits], text[digits..];
    assert text == a + b;
    NatOfConcat(a, b);
    DigitsBound(b);
    Remainder(NatOf(a), Pow(6 - digits), NatOf(b));
  }

  /** A multiple of the unit in front changes nothing about the remainder. */
  lemma WholeUnits(k: nat, n: nat, unit: nat)
    requires unit > 0
    ensures (k * unit + n) % unit == n % unit
  {
    var q, r := n / unit, n % unit;
    assert n == q * unit + r;
    assert (k + q) * unit == k * unit + q * unit;
    Remainder(k + q, unit, r);
  }

  lemma WholeSeconds(seconds: nat, microsecond: nat, digits: nat)
    requires microsecond < 1_000_000
    ensures Truncated(seconds * 1_000_000 + microsecond, digits) == seconds * 1_000_000 + Truncated(microsecond, digits)
  {
    hide Pow;
    if digits <= 6 {
      PowAdds(digits, 6 - digits);
      Million();
      Triple(seconds, Pow(digits), Pow(6 - digits));
      WholeUnits(seconds * Pow(digits), microsecond, Pow(6 - digits));
    }
  }

  lemma Triple(a: nat, b: nat, c: nat)
    ensures a * (b * c) == a * b * c
  {
  }

  lemma Million()
    ensures Pow(6) == 1_000_000
  {
    assert Pow(2) == 100 && Pow(4) == 100 * Pow(2) && Pow(6) == 100 * Pow(4);
  }

  lemma FractionReadsBack(microsecond: nat, digits: nat)
    requires microsecond < 1_000_000
    ensures var f := FractionText(microsecond, digits);
            (f == [] || f[0] == '.') && ReadFraction(f) == Truncated(microsecond, digits)
  {
    hide NatOf, Pow, ZeroPadded;
    var text := ZeroPadded(microsecond, 6);
    MicrosecondDigits(microsecond);
    ZeroPaddedIsDigits(microsecond, 6);
    PowSteps(0);
    Million();
    if digits <= 6 {
      FirstDigits(microsecond, text, digits);
      if digits > 0 { assert ("." + text[..digits])[1..] == text[..digits]; }
    } else if microsecond != 0 {
      assert ("." + text)[1..] == text;
    }
  }

  /** A time reads back as it is to the digits its column has. */
  lemma SpanReadsBack(span: int, digits: nat)
    ensures ReadSpan(SpanText(span, digits))
            == (if span < 0 then -1 else 1) * Truncated(Magnitude(span), digits)
  {
    hide ClockText, FractionText, ReadTime, ReadFraction, Truncated;
    var seconds, microsecond := Magnitude(span) / 1_000_000, Magnitude(span) % 1_000_000;
    var f := FractionText(microsecond, digits);
    FractionReadsBack(microsecond, digits);
    ClockReadsBack(seconds, f);
    WholeSeconds(seconds, microsecond, digits);
    ClockStarts(seconds);
    if span < 0 {
      assert SpanText(span, digits)[1..] == ClockText(seconds) + f;
    } else {
      assert SpanText(span, digits) == ClockText(seconds) + f;
    }
  }

  lemma ClockStarts(seconds: nat)
    ensures ClockText(seconds) != [] && IsDigit(ClockText(seconds)[0])
  {
    hide ZeroPadded;
    ZeroPaddedIsDigits(seconds / 3600, 2);
  }

  // Numbers.

  lemma {:induction false} MoreZeros(k: nat, text: string)
    requires text != [] && text[0] != '-'
    ensures Denote(Zeros(k) + text) == Denote(text)
  {
    hide Denote;
    if k == 0 {
      assert Zeros(k) + text == text;
    } else {
      assert Zeros(k) + text == ['0'] + (Zeros(k - 1) + text);
      assert (Zeros(k - 1) + text)[0] == if k == 1 then text[0] else '0';
      MoreZeros(k - 1, text);
      OneMoreZero(Zeros(k - 1) + text);
    }
  }

  lemma PartsOfMore(text: string, c: char)
    requires c != '0'
    ensures Before(['0'] + text, c) == ['0'] + Before(text, c) && Past(['0'] + text, c) == Past(text, c)
  {
    assert (['0'] + text)[1..] == text;
  }

  lemma OneMoreZero(text: string)
    requires text != [] && text[0] != '-'
    ensures Denote(['0'] + text) == Denote(text)
  {
    hide NatOf, IntOf, Before, Past;
    PartsOfMore(text, 'e');
    var mantissa := Before(text, 'e');
    PartsOfMore(mantissa, '.');
    var whole, fraction := Before(mantissa, '.'), Past(mantissa, '.');
    ZeroInFront(whole + fraction);
    assert ['0'] + whole + fraction == ['0'] + (whole + fraction);
  }

  lemma ZeroInFront(digits: string)
    ensures NatOf(['0'] + digits) == NatOf(digits)
  {
    NatOfConcat(['0'], digits);
    assert ['0'][..0] == [] && NatOf(['0']) == 0;
  }

  lemma SignedZeros(k: nat, rest: string)
    requires rest != [] && IsDigit(rest[0])
    ensures Denote("-" + (Zeros(k) + rest)) == Denote("-" + rest)
  {
    hide Denote;
    MoreZeros(k, rest);
    assert (Zeros(k) + rest)[0] == if k == 0 then rest[0] else '0';
    SignNegates(rest);
    SignNegates(Zeros(k) + rest);
  }

  /** Filling a number's text with zeros changes nothing about the number. */
  lemma ZeroFilledDenotes(text: string, width: nat)
    requires text != [] && if text[0] == '-' then |text| > 1 && IsDigit(text[1]) else IsDigit(text[0])
    ensures Denote(ZeroFilled(text, width)) == Denote(text)
    ensures |ZeroFilled(text, width)| == Max(|text|, width)
  {
    hide Denote;
    var k := if |text| < width then width - |text| else 0;
    if text[0] == '-' {
      var rest := text[1..];
      assert text == "-" + rest && ZeroFilled(text, width) == "-" + (Zeros(k) + rest);
      SignedZeros(k, rest);
    } else {
      MoreZeros(k, text);
      assert ZeroFilled(text, width) == Zeros(k) + text;
    }
  }

  lemma FilledDenotes(text: string, column: Column)
    requires text != [] && if text[0] == '-' then |text| > 1 && IsDigit(text[1]) else IsDigit(text[0])
    ensures Denote(Filled(text, column)) == Denote(text)
    ensures column.zerofill ==> |Filled(text, column)| == Max(|text|, column.length)
  {
    hide Denote, ZeroFilled;
    ZeroFilledDenotes(text, column.length);
  }

  lemma IntTextStarts(n: int)
    ensures var text := IntText(n);
            && text != [] && (if text[0] == '-' then |text| > 1 && IsDigit(text[1]) else IsDigit(text[0]))
            && Denote(text) == Number(n < 0, Magnitude(n), 0)
  {
    var text := Decimal(Magnitude(n));
    DecimalRoundTrip(Magnitude(n));
    assert IsDigit(text[0]);
    hide Decimal, Denote;
    DenoteWhole(text);
    if n < 0 { SignNegates(text); }
  }

  lemma IntsAreNotEscaped(n: int)
    ensures Escape(IntText(n)) == IntText(n)
  {
    IntIsPlain(n);
    UnescapedExactlyWhenTame(IntText(n));
  }

  /** An integer's cell denotes it, and is as wide as its column where that fills with zeros. */
  lemma NumberCellDenotes(n: int, column: Column)
    requires !column.bit
    ensures var cell := Cell(Integer(n), column);
            && cell.Some? && Denote(cell.value) == Number(n < 0, Magnitude(n), 0)
            && (column.zerofill ==> |cell.value| >= column.length)
  {
    hide Denote, IntText, Filled;
    IntsAreNotEscaped(n);
    IntTextStarts(n);
    FilledDenotes(IntText(n), column);
  }

  lemma DoubleTextStarts(negative: bool, magnitude: string)
    requires IsMagnitude(magnitude)
    ensures var text := DoubleText.DoubleText(negative, magnitude);
            text != [] && if text[0] == '-' then |text| > 1 && IsDigit(text[1]) else IsDigit(text[0])
  {
    hide Layout, Place, IsMagnitude;
    if !IsZero(magnitude) {
      PlacedDigits(magnitude);
      LayoutStartsWithDigit(Place(magnitude));
    }
  }

  /** A float's cell, in a column without a fixed number of digits, denotes exactly its value. */
  lemma DoubleCellDenotes(negative: bool, magnitude: string, fixed: string, column: Column)
    requires !column.bit && (column.fractionalDigits == 0 || column.fractionalDigits >= 31) && IsMagnitude(magnitude)
    ensures var cell := Cell(Double(negative, magnitude, fixed), column);
            && cell.Some?
            && Value(Denote(cell.value))
               == (if negative then -1.0 else 1.0) * Value(Denote(magnitude))
  {
    hide Denote, Value, DoubleText.DoubleText, IsMagnitude, Filled;
    DoubleTextStarts(negative, magnitude);
    FilledDenotes(DoubleText.DoubleText(negative, magnitude), column);
    DoubleTextKeepsValue(negative, magnitude);
  }
}
