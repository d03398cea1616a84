/**
 A FLOAT or DOUBLE as the server writes it (`_double_text`).

 The shell's value comes as the text Python's repr gives its magnitude; the function only moves the
 decimal point of that text. Denote reads any such text back as the exact decimal it stands for.
 */
module DoubleText {
  import opened Decimals

  const MAX_DECPT_FOR_F_FORMAT := 15

  // --- Taking text apart ---------------------------------------------------------------------------

  /** What comes before the first c, all of it where there is none. */
  function Before(s: string, c: char): string {
    if s == [] || s[0] == c then [] else [s[0]] + Before(s[1..], c)
  }

  /** What comes after the first c, nothing where there is none. */
  function Past(s: string, c: char): string {
    if s == [] then [] else if s[0] == c then s[1..] else Past(s[1..], c)
  }

  lemma {:induction false} Parted(a: string, c: char, b: string)
    requires c !in a
    ensures Before(a + [c] + b, c) == a && Past(a + [c] + b, c) == b
  {
    var s := a + [c] + b;
    if a != [] {
      assert s[1..] == a[1..] + [c] + b;
      Parted(a[1..], c, b);
    } else {
      assert s[1..] == b;
    }
  }

  lemma {:induction false} Unparted(a: string, c: char)
    requires c !in a
    ensures Before(a, c) == a && Past(a, c) == []
  {
    if a != [] { Unparted(a[1..], c); }
  }

  /** An exponent as written: digits after a sign, or none. */
  function IntOf(s: string): int {
    if s == [] then 0
    else if s[0] == '-' then -(NatOf(s[1..]) as int)
    else if s[0] == '+' then NatOf(s[1..])
    else NatOf(s)
  }

  function IntText(n: int): string {
    if n < 0 then "-" + Decimal(-n) else Decimal(n)
  }

  lemma SignedRoundTrip(n: nat)
    ensures IntOf("-" + Decimal(n)) == -(n as int)
  {
    DecimalRoundTrip(n);
    assert ("-" + Decimal(n))[1..] == Decimal(n);
  }

  lemma UnsignedRoundTrip(n: nat)
    ensures IntOf(Decimal(n)) == n
  {
    DecimalRoundTrip(n);
    assert IsDigit(Decimal(n)[0]);
  }

  lemma IntRoundTrip(n: int)
    ensures IntOf(IntText(n)) == n
  {
    hide IntOf;
    if n < 0 { SignedRoundTrip(-n); } else { UnsignedRoundTrip(n); }
  }

  // --- What decimal text denotes ---------------------------------------------------------------------

  /** coefficient * 10 ^ exponent, negated or not. */
  datatype Number = Number(negative: bool, coefficient: nat, exponent: int)

  function Denote(text: string): Number {
    var negative := text != [] && text[0] == '-';
    var magnitude := if negative then text[1..] else text;
    var mantissa := Before(magnitude, 'e');
    var whole, fraction := Before(mantissa, '.'), Past(mantissa, '.');
    Number(negative, NatOf(whole + fraction), IntOf(Past(magnitude, 'e')) - |fraction|)
  }

  function Pow10(e: int): real
    decreases if e < 0 then -e else e
  {
    if e == 0 then 1.0 else if e > 0 then 10.0 * Pow10(e - 1) else Pow10(e + 1) / 10.0
  }

  function Value(n: Number): real {
    (if n.negative then -1.0 else 1.0) * (n.coefficient as real * Pow10(n.exponent))
  }

  lemma Pow10Steps(e: int)
    ensures Pow10(e + 1) == 10.0 * Pow10(e)
  {
  }

  /** Zeros at the end of the coefficient are steps of the exponent. */
  lemma {:induction false} Scaled(m: nat, k: nat, e: int)
    ensures (m * Pow(k)) as real * Pow10(e - k) == m as real * Pow10(e)
  {
    hide Pow, Pow10;
    PowSteps(0);
    if k > 0 {
      Scaled(m, k - 1, e);
      TimesTen(m, k - 1);
      Pow10Steps(e - k);
      var p := m * Pow(k - 1);
      assert (p * 10) as real == 10.0 * p as real;
      RealProducts(p as real, Pow10(e - k));
      assert e - k + 1 == e - (k - 1);
    }
  }

  lemma RealProducts(a: real, b: real)
    ensures (10.0 * a) * b == a * (10.0 * b)
  {
  }

  // --- _double_text -------------------------------------------------------------------------------------

  /** The text of a finite magnitude: digits with an optional fraction, and after an e the exponent. */
  predicate IsMagnitude(text: string) {
    var mantissa := Before(text, 'e');
    && AllDigits(Before(mantissa, '.')) && AllDigits(Past(mantissa, '.'))
    && Before(mantissa, '.') != []
  }

  predicate IsZero(magnitude: string) {
    Denote(magnitude).coefficient == 0
  }

  /** Digits without zeros at either end, and how many of them are before the point; fewer than none
      where zeros come between. */
  datatype Placed = Placed(digits: string, decpt: int)

  function Place(magnitude: string): Placed {
    var mantissa, exponent := Before(magnitude, 'e'), Past(magnitude, 'e');
    var whole, fraction := StripLeading(Before(mantissa, '.')), Past(mantissa, '.');
    var decpt := if whole != [] then |whole| else |StripLeading(fraction)| - |fraction|;
    Placed(StripTrailing(StripLeading(whole + fraction)), decpt + IntOf(exponent))
  }

  /** In fixed notation: the point is at most so many places from the digits. */
  predicate Fixed(p: Placed) {
    p.decpt > -MAX_DECPT_FOR_F_FORMAT && (p.decpt <= MAX_DECPT_FOR_F_FORMAT || |p.digits| > p.decpt)
  }

  function Layout(p: Placed): string
    requires p.digits != []
  {
    if Fixed(p) then
      if p.decpt <= 0 then "0." + Zeros(-p.decpt) + p.digits
      else if p.decpt < |p.digits| then p.digits[..p.decpt] + "." + p.digits[p.decpt..]
      else p.digits + Zeros(p.decpt - |p.digits|)
    else
      p.digits[..1] + (if |p.digits| > 1 then "." + p.digits[1..] else "") + "e" + IntText(p.decpt - 1)
  }

  function DoubleText(negative: bool, magnitude: string): string
    requires IsMagnitude(magnitude)
  {
    if IsZero(magnitude) then "0"
    else
      PlacedDigits(magnitude);
      (if negative then "-" else "") + Layout(Place(magnitude))
  }

  /** The digits are what is left of the coefficient without zeros at either end, and the point is
      where the magnitude has it. */
  lemma PlacedDigits(magnitude: string)
    requires IsMagnitude(magnitude) && !IsZero(magnitude)
    ensures var p, n := Place(magnitude), Denote(magnitude);
            && p.digits != [] && AllDigits(p.digits) && p.digits[0] != '0' && p.digits[|p.digits| - 1] != '0'
            && !n.negative
            && p.decpt - |p.digits| >= n.exponent
            && n.coefficient == NatOf(p.digits) * Pow(p.decpt - |p.digits| - n.exponent)
  {
    var mantissa := Before(magnitude, 'e');
    var whole, fraction := Before(mantissa, '.'), Past(mantissa, '.');
    assert magnitude[0] == mantissa[0] == whole[0] && IsDigit(whole[0]);
    hide Pow, NatOf, Before, Past, StripLeading, StripTrailing, IntOf;
    StrippedTogether(whole, fraction);
    assert AllDigits(whole + fraction);
    hide AllDigits, IsDigit;
    StripLeadingKeepsNumber(whole + fraction);
    StripTrailingScales(StripLeading(whole + fraction));
    NatOfNothing();
  }

  lemma StrippedTogether(whole: string, fraction: string)
    requires AllDigits(whole) && AllDigits(fraction)
    ensures var m := StripLeading(whole + fraction);
            && StripLeading(StripLeading(whole) + fraction) == m
            && |m| - |fraction|
               == if StripLeading(whole) != [] then |StripLeading(whole)| else |StripLeading(fraction)| - |fraction|
  {
    hide StripLeading;
    StripLeadingOfConcat(whole, fraction);
    StripLeadingOfConcat(StripLeading(whole), fraction);
    StripLeadingOnce(whole);
  }

  lemma StripLeadingOnce(s: string)
    requires AllDigits(s)
    ensures StripLeading(StripLeading(s)) == StripLeading(s)
  {
    StripLeadingKeepsNumber(s);
  }

  // --- The text denotes the value ----------------------------------------------------------------

  /** Digits with a point after the first so many of them. */
  lemma DenotePointed(whole: string, fraction: string)
    requires whole != [] && AllDigits(whole) && AllDigits(fraction)
    ensures Denote(whole + "." + fraction) == Number(false, NatOf(whole + fraction), -|fraction|)
  {
    var s := whole + "." + fraction;
    assert 'e' !in s && s[0] == whole[0];
    Unparted(s, 'e');
    Parted(whole, '.', fraction);
  }

  lemma DenoteWhole(whole: string)
    requires whole != [] && AllDigits(whole)
    ensures Denote(whole) == Number(false, NatOf(whole), 0)
  {
    Unparted(whole, 'e');
    Unparted(whole, '.');
    assert whole + [] == whole;
  }

  lemma DenoteScientific(mantissa: string, whole: string, fraction: string, e: int)
    requires whole != [] && AllDigits(whole) && AllDigits(fraction)
    requires mantissa == whole + "." + fraction || (mantissa == whole && fraction == [])
    ensures Denote(mantissa + "e" + IntText(e)) == Number(false, NatOf(whole + fraction), e - |fraction|)
  {
    var s := mantissa + "e" + IntText(e);
    assert 'e' !in mantissa && s[0] == whole[0];
    Parted(mantissa, 'e', IntText(e));
    IntRoundTrip(e);
    if mantissa == whole {
      Unparted(whole, '.');
    } else {
      Parted(whole, '.', fraction);
    }
  }

  /** The digits of p at their place, and nothing else. */
  ghost predicate Matches(n: Number, p: Placed) {
    var x := p.decpt - |p.digits|;
    !n.negative && x >= n.exponent && n.coefficient == NatOf(p.digits) * Pow(x - n.exponent)
  }

  lemma SmallDenotes(p: Placed)
    requires p.digits != [] && AllDigits(p.digits) && Fixed(p) && p.decpt <= 0
    ensures Matches(Denote(Layout(p)), p)
  {
    ZerosAreZero(-p.decpt);
    ZerosAreZero(1 - p.decpt);
    assert Layout(p) == "0" + "." + (Zeros(-p.decpt) + p.digits);
    DenotePointed("0", Zeros(-p.decpt) + p.digits);
    assert "0" + (Zeros(-p.decpt) + p.digits) == Zeros(1 - p.decpt) + p.digits;
    NatOfConcat(Zeros(1 - p.decpt), p.digits);
  }

  lemma PointedDenotes(p: Placed)
    requires AllDigits(p.digits) && Fixed(p) && 0 < p.decpt < |p.digits|
    ensures Matches(Denote(Layout(p)), p)
  {
    DenotePointed(p.digits[..p.decpt], p.digits[p.decpt..]);
    assert p.digits[..p.decpt] + p.digits[p.decpt..] == p.digits;
  }

  lemma WholeDenotes(p: Placed)
    requires p.digits != [] && AllDigits(p.digits) && Fixed(p) && p.decpt >= |p.digits|
    ensures Matches(Denote(Layout(p)), p)
  {
    ZerosAreZero(p.decpt - |p.digits|);
    DenoteWhole(p.digits + Zeros(p.decpt - |p.digits|));
    NatOfConcat(p.digits, Zeros(p.decpt - |p.digits|));
  }

  lemma ScientificDenotes(p: Placed)
    requires p.digits != [] && AllDigits(p.digits) && !Fixed(p)
    ensures Matches(Denote(Layout(p)), p)
  {
    var d := p.digits;
    DenoteScientific(d[..1] + (if |d| > 1 then "." + d[1..] else ""), d[..1], d[1..], p.decpt - 1);
    assert d[..1] + d[1..] == d;
  }

  /** A number's text as short as it can be: in front of the point no zero but a single one, and after an e
      an exponent of digits, a dash before them or nothing, that do not begin with a zero; with an exponent, just
      one digit in front. */
  ghost predicate Short(text: string) {
    var mantissa, exponent := Before(text, 'e'), Past(text, 'e');
    var whole := Before(mantissa, '.');
    var size := if exponent != [] && exponent[0] == '-' then exponent[1..] else exponent;
    && whole != [] && AllDigits(whole) && (|whole| > 1 ==> whole[0] != '0')
    && AllDigits(Past(mantissa, '.'))
    && ('e' in text ==> |whole| == 1 && whole[0] != '0' && size != [] && AllDigits(size) && size[0] != '0')
  }

  lemma PointedIsShort(whole: string, fraction: string)
    requires whole != [] && AllDigits(whole) && AllDigits(fraction) && (|whole| > 1 ==> whole[0] != '0')
    ensures Short(whole + "." + fraction)
  {
    var s := whole + "." + fraction;
    assert 'e' !in s;
    Unparted(s, 'e');
    Parted(whole, '.', fraction);
  }

  lemma WholeIsShort(whole: string)
    requires whole != [] && AllDigits(whole) && (|whole| > 1 ==> whole[0] != '0')
    ensures Short(whole)
  {
    Unparted(whole, 'e');
    Unparted(whole, '.');
  }

  lemma ScientificIsShort(mantissa: string, whole: string, fraction: string, e: int)
    requires |whole| == 1 && AllDigits(whole) && whole[0] != '0' && AllDigits(fraction) && e != 0
    requires mantissa == whole + "." + fraction || (mantissa == whole && fraction == [])
    ensures Short(mantissa + "e" + IntText(e))
  {
    assert 'e' !in mantissa;
    Parted(mantissa, 'e', IntText(e));
    var n: nat := if e < 0 then -e else e;
    DecimalRoundTrip(n);
    if e < 0 { assert IntText(e)[1..] == Decimal(n); } else { assert IsDigit(IntText(e)[0]); }
    if mantissa == whole { Unparted(whole, '.'); } else { Parted(whole, '.', fraction); }
  }

  lemma LayoutIsShort(p: Placed)
    requires p.digits != [] && AllDigits(p.digits) && p.digits[0] != '0'
    ensures Short(Layout(p))
  {
    hide Short, Decimal;
    var d := p.digits;
    if !Fixed(p) {
      ScientificIsShort(d[..1] + (if |d| > 1 then "." + d[1..] else ""), d[..1], d[1..], p.decpt - 1);
    } else if p.decpt <= 0 {
      ZerosAreZero(-p.decpt);
      PointedIsShort("0", Zeros(-p.decpt) + d);
      assert Layout(p) == "0" + "." + (Zeros(-p.decpt) + d);
    } else if p.decpt < |d| {
      PointedIsShort(d[..p.decpt], d[p.decpt..]);
    } else {
      ZerosAreZero(p.decpt - |d|);
      WholeIsShort(d + Zeros(p.decpt - |d|));
    }
  }

  /** The text has a sign exactly when it is negative and not zero, which is written 0, and nothing in it that
      could be left out. */
  lemma DoubleTextIsShort(negative: bool, magnitude: string)
    requires IsMagnitude(magnitude)
    ensures IsZero(magnitude) ==> DoubleText(negative, magnitude) == "0"
    ensures !IsZero(magnitude) ==>
              var text := DoubleText(negative, magnitude);
              text != [] && (text[0] == '-' <==> negative) && Short(if negative then text[1..] else text)
  {
    hide Short, Place, IsMagnitude, Layout;
    if !IsZero(magnitude) {
      PlacedDigits(magnitude);
      LayoutStartsWithDigit(Place(magnitude));
      LayoutIsShort(Place(magnitude));
      assert "" + Layout(Place(magnitude)) == Layout(Place(magnitude));
    }
  }

  /** Whichever way it is laid out, the text denotes the digits at their place. */
  lemma LayoutDenotes(p: Placed)
    requires p.digits != [] && AllDigits(p.digits)
    ensures Matches(Denote(Layout(p)), p)
  {
    hide Denote, Layout, Matches;
    if !Fixed(p) {
      ScientificDenotes(p);
    } else if p.decpt <= 0 {
      SmallDenotes(p);
    } else if p.decpt < |p.digits| {
      PointedDenotes(p);
    } else {
      WholeDenotes(p);
    }
  }

  /** The value of digits at their place. */
  ghost function ValueOf(p: Placed): real {
    NatOf(p.digits) as real * Pow10(p.decpt - |p.digits|)
  }

  lemma MatchesHasValue(n: Number, p: Placed)
    requires Matches(n, p)
    ensures Value(n) == ValueOf(p)
  {
    hide Pow, Pow10, NatOf;
    var x := p.decpt - |p.digits|;
    Scaled(NatOf(p.digits), x - n.exponent, x);
    assert x - (x - n.exponent) == n.exponent;
  }

  lemma SignNegates(text: string)
    requires text != [] && text[0] != '-'
    ensures Denote("-" + text) == Denote(text).(negative := true)
  {
    assert ("-" + text)[1..] == text;
  }

  lemma SignOfValue(n: Number)
    requires !n.negative
    ensures Value(n) == 1.0 * Value(n) && Value(n.(negative := true)) == -1.0 * Value(n)
  {
    hide Pow10;
  }

  lemma ZeroValue(n: Number)
    requires n.coefficient == 0
    ensures Value(n) == 0.0 && 1.0 * Value(n) == 0.0 && -1.0 * Value(n) == 0.0
  {
    hide Pow10;
  }

  lemma ZeroDenotesZero()
    ensures Denote("0").coefficient == 0
  {
    DenoteWhole("0");
    assert ['0'][..0] == [];
    assert NatOf(['0']) == 0;
  }

  lemma LayoutStartsWithDigit(p: Placed)
    requires p.digits != [] && AllDigits(p.digits)
    ensures Layout(p) != [] && IsDigit(Layout(p)[0])
  {
  }

  lemma PlaceMatches(magnitude: string)
    requires IsMagnitude(magnitude) && !IsZero(magnitude)
    ensures Matches(Denote(magnitude), Place(magnitude))
  {
    hide Denote, Place, IsMagnitude;
    PlacedDigits(magnitude);
  }

  lemma LayoutKeepsValue(magnitude: string)
    requires IsMagnitude(magnitude) && !IsZero(magnitude)
    ensures Place(magnitude).digits != []
    ensures var text := Layout(Place(magnitude));
            text != [] && text[0] != '-' && !Denote(text).negative && Value(Denote(text)) == Value(Denote(magnitude))
  {
    hide Value, Denote, Place, ValueOf, IsMagnitude, Layout;
    var p := Place(magnitude);
    PlacedDigits(magnitude);
    PlaceMatches(magnitude);
    MatchesHasValue(Denote(magnitude), p);
    LayoutDenotes(p);
    MatchesHasValue(Denote(Layout(p)), p);
    LayoutStartsWithDigit(p);
  }

  lemma NonZeroKeepsValue(negative: bool, magnitude: string)
    requires IsMagnitude(magnitude) && !IsZero(magnitude)
    ensures Value(Denote(DoubleText(negative, magnitude)))
            == (if negative then -1.0 else 1.0) * Value(Denote(magnitude))
  {
    hide Value, Denote, Place, IsMagnitude, Layout;
    LayoutKeepsValue(magnitude);
    var text := Layout(Place(magnitude));
    SignNegates(text);
    SignOfValue(Denote(text));
    assert "" + text == text;
  }

  /** The text denotes exactly the value, for every finite value. */
  lemma DoubleTextKeepsValue(negative: bool, magnitude: string)
    requires IsMagnitude(magnitude)
    ensures Value(Denote(DoubleText(negative, magnitude)))
            == (if negative then -1.0 else 1.0) * Value(Denote(magnitude))
  {
    hide Value, Denote, Layout, Place, Matches, ValueOf, IsMagnitude, AllDigits, IsDigit;
    if IsZero(magnitude) {
      ZeroDenotesZero();
      ZeroValue(Denote("0"));
      ZeroValue(Denote(magnitude));
    } else {
      NonZeroKeepsValue(negative, magnitude);
    }
  }

  // --- How it reads ---------------------------------------------------------------------------------

  lemma FractionOfPointed(whole: string, fraction: string)
    requires AllDigits(whole) && AllDigits(fraction)
    ensures Past(Before(whole + "." + fraction, 'e'), '.') == fraction
  {
    var s := whole + "." + fraction;
    assert 'e' !in s;
    hide Before, Past;
    Unparted(s, 'e');
    Parted(whole, '.', fraction);
  }

  lemma SmallFraction(p: Placed)
    requires p.digits != [] && AllDigits(p.digits) && Fixed(p) && p.decpt <= 0
    ensures Past(Before(Layout(p), 'e'), '.') == Zeros(-p.decpt) + p.digits
  {
    ZerosAreZero(-p.decpt);
    hide Before, Past, Zeros;
    assert Layout(p) == "0" + "." + (Zeros(-p.decpt) + p.digits);
    FractionOfPointed("0", Zeros(-p.decpt) + p.digits);
  }

  lemma PointedFraction(p: Placed)
    requires AllDigits(p.digits) && Fixed(p) && 0 < p.decpt < |p.digits|
    ensures Past(Before(Layout(p), 'e'), '.') == p.digits[p.decpt..]
  {
    hide Before, Past;
    FractionOfPointed(p.digits[..p.decpt], p.digits[p.decpt..]);
  }

  lemma WholeHasNoPoint(p: Placed)
    requires p.digits != [] && AllDigits(p.digits) && Fixed(p) && p.decpt >= |p.digits|
    ensures '.' !in Layout(p)
  {
    ZerosAreZero(p.decpt - |p.digits|);
  }

  lemma IntTextHasNoPoint(n: int)
    ensures '.' !in IntText(n)
  {
    DecimalRoundTrip(if n < 0 then -n else n);
  }

  lemma ScientificFraction(p: Placed)
    requires p.digits != [] && AllDigits(p.digits) && !Fixed(p)
    ensures '.' in Layout(p) ==> |p.digits| > 1 && Past(Before(Layout(p), 'e'), '.') == p.digits[1..]
  {
    var d, e := p.digits, IntText(p.decpt - 1);
    IntTextHasNoPoint(p.decpt - 1);
    hide IntText, Before, Past;
    var mantissa := d[..1] + (if |d| > 1 then "." + d[1..] else "");
    assert Layout(p) == mantissa + ['e'] + e;
    assert 'e' !in mantissa;
    Parted(mantissa, 'e', e);
    if |d| > 1 {
      assert mantissa == d[..1] + ['.'] + d[1..];
      Parted(d[..1], '.', d[1..]);
    } else {
      assert mantissa == d;
    }
  }

  /** A fraction is never empty and never ends in a zero. */
  lemma FractionsEndInADigit(p: Placed)
    requires p.digits != [] && AllDigits(p.digits) && p.digits[|p.digits| - 1] != '0'
    ensures var fraction := Past(Before(Layout(p), 'e'), '.');
            '.' in Layout(p) ==> fraction != [] && fraction[|fraction| - 1] != '0'
  {
    hide Layout, Before, Past;
    if !Fixed(p) {
      ScientificFraction(p);
    } else if p.decpt <= 0 {
      SmallFraction(p);
    } else if p.decpt < |p.digits| {
      PointedFraction(p);
    } else {
      WholeHasNoPoint(p);
    }
  }

  lemma {:induction false} Pow10Grows(a: int, b: int)
    requires a <= b
    ensures 0.0 < Pow10(a) <= Pow10(b)
    decreases b - a, if a < 0 then -a else a
  {
    if a < b {
      Pow10Grows(a, b - 1);
      Pow10Steps(b - 1);
    } else {
      Pow10Positive(a);
    }
  }

  lemma {:induction false} Pow10Positive(e: int)
    ensures Pow10(e) > 0.0
    decreases if e < 0 then -e else e
  {
    if e > 0 { Pow10Positive(e - 1); } else if e < 0 { Pow10Positive(e + 1); }
  }

  lemma PowAsPow10(k: nat, e: int)
    ensures Pow(k) as real * Pow10(e - k) == Pow10(e)
  {
    Scaled(1, k, e);
    assert 1 * Pow(k) == Pow(k);
  }

  /** The point stands where the value's magnitude has it. */
  lemma PlaceBounds(p: Placed)
    requires p.digits != [] && AllDigits(p.digits) && p.digits[0] != '0'
    ensures Pow10(p.decpt - 1) <= ValueOf(p) < Pow10(p.decpt)
  {
    hide Pow, Pow10, NatOf, AllDigits;
    var n := |p.digits|;
    var unit := Pow10(p.decpt - n);
    NonZeroDigitsHaveValue(p.digits);
    Pow10Positive(p.decpt - n);
    PowAsPow10(n, p.decpt);
    PowAsPow10(n - 1, p.decpt - 1);
    assert (p.decpt - 1) - (n - 1) == p.decpt - n;
    var v := NatOf(p.digits);
    assert Pow(n - 1) as real <= v as real < Pow(n) as real;
    Scales(Pow(n - 1) as real, v as real, unit);
    Scales(v as real, Pow(n) as real, unit);
  }

  lemma Scales(a: real, b: real, unit: real)
    requires a <= b && unit > 0.0
    ensures a * unit <= b * unit && (a < b ==> a * unit < b * unit)
  {
  }

  lemma LastDigitShows(s: string)
    requires s != [] && AllDigits(s) && s[|s| - 1] != '0'
    ensures NatOf(s) % 10 != 0
  {
    var tens, last := NatOf(s[..|s| - 1]), s[|s| - 1];
    assert NatOf(s) == tens * 10 + DigitValue(last);
    assert 0 < DigitValue(last) < 10;
    hide NatOf, DigitValue, AllDigits;
    LastOfTens(tens, DigitValue(last));
  }

  lemma LastOfTens(tens: nat, last: nat)
    requires last < 10
    ensures (tens * 10 + last) % 10 == last
  {
  }

  ghost predicate IsWhole(v: real) {
    v.Floor as real == v
  }

  lemma WholeWithoutFraction(p: Placed)
    requires |p.digits| <= p.decpt
    ensures IsWhole(ValueOf(p))
  {
    hide Pow, NatOf, Pow10, IsWhole;
    var n, k := NatOf(p.digits), p.decpt - |p.digits|;
    PowIsPow10(k);
    assert ValueOf(p) == n as real * Pow(k) as real;
    RealOfProduct(n, Pow(k));
    IntIsWhole(n * Pow(k), ValueOf(p));
  }

  lemma PowIsPow10(k: nat)
    ensures Pow10(k) == Pow(k) as real
  {
    hide Pow, Pow10;
    PowAsPow10(k, k);
    Pow10Zero();
    assert k - k == 0;
  }

  lemma IntIsWhole(z: int, v: real)
    requires v == z as real
    ensures IsWhole(v)
  {
  }

  lemma OneMore(a: real, b: real)
    ensures a * (b + 1.0) == a * b + a
  {
  }

  lemma {:induction false} RealOfProduct(a: nat, b: nat)
    ensures a as real * b as real == (a * b) as real
  {
    if b > 0 {
      RealOfProduct(a, b - 1);
      OneMore(a as real, (b - 1) as real);
      assert a * b == a * (b - 1) + a;
    }
  }

  lemma Cancelled(w: real, n: real, a: real, b: real)
    requires w == n * a && b * a == 1.0
    ensures w * b == n
  {
    assert w * b == n * (b * a);
  }

  lemma FractionWithoutWhole(p: Placed)
    requires AllDigits(p.digits) && p.digits != [] && p.digits[|p.digits| - 1] != '0'
    requires |p.digits| > p.decpt
    ensures !IsWhole(ValueOf(p))
  {
    hide NatOf, Pow10, Pow;
    var n, k := NatOf(p.digits), |p.digits| - p.decpt;
    if IsWhole(ValueOf(p)) {
      var w := ValueOf(p).Floor;
      PowAsPow10(k, 0);
      Pow10Zero();
      Pow10Positive(0 - k);
      assert p.decpt - |p.digits| == 0 - k;
      Cancelled(w as real, n as real, Pow10(0 - k), Pow(k) as real);
      NonNegative(n as real, Pow10(0 - k));
      assert w >= 0;
      RealOfProduct(w, Pow(k));
      assert n == w * Pow(k);
      TimesTen(w, k - 1);
      LastDigitShows(p.digits);
    }
  }

  lemma NonNegative(a: real, b: real)
    requires a >= 0.0 && b >= 0.0
    ensures a * b >= 0.0
  {
  }

  lemma Pow10Zero()
    ensures Pow10(0) == 1.0
  {
  }

  /** A value is whole exactly when no digit stands after the point. */
  lemma WholeExactlyWithoutFraction(p: Placed)
    requires p.digits != [] && AllDigits(p.digits) && p.digits[|p.digits| - 1] != '0'
    ensures IsWhole(ValueOf(p)) <==> |p.digits| <= p.decpt
  {
    hide IsWhole, ValueOf;
    if |p.digits| <= p.decpt { WholeWithoutFraction(p); } else { FractionWithoutWhole(p); }
  }

  /** Scientific notation is used exactly for a magnitude below 1e-15, and for a whole number from
      1e15 on. */
  lemma ScientificExactlyWhenFarOff(magnitude: string)
    requires IsMagnitude(magnitude) && !IsZero(magnitude)
    ensures var v := Value(Denote(magnitude));
            !Fixed(Place(magnitude)) <==> v < Pow10(-15) || (v >= Pow10(15) && IsWhole(v))
  {
    var p := Place(magnitude);
    PlacedDigits(magnitude);
    MatchesHasValue(Denote(magnitude), p);
    PlaceBounds(p);
    WholeExactlyWithoutFraction(p);
    if p.decpt > -15 { Pow10Grows(-15, p.decpt - 1); } else { Pow10Grows(p.decpt, -15); }
    if p.decpt > 15 { Pow10Grows(15, p.decpt - 1); } else { Pow10Grows(p.decpt, 15); }
  }
}
