/** Numbers as decimal text. */
module Decimals {

  function DigitChar(d: nat): char
    requires d < 10
  {
    "0123456789"[d]
  }

  /** A number in decimal digits. */
  function Decimal(n: nat): string {
    if n < 10 then [DigitChar(n)] else Decimal(n / 10) + [DigitChar(n % 10)]
  }

  predicate IsDigit(c: char) {
    '0' <= c <= '9'
  }

  predicate AllDigits(s: string) {
    forall i :: 0 <= i < |s| ==> IsDigit(s[i])
  }

  function DigitValue(c: char): (d: nat)
    ensures d < 10
  {
    if IsDigit(c) then c as int - '0' as int else 0
  }

  /** The number some digits are. */
  function NatOf(s: string): nat {
    if s == [] then 0 else NatOf(s[..|s| - 1]) * 10 + DigitValue(s[|s| - 1])
  }

  function Pow(k: nat): (p: nat)
    ensures p >= 1
  {
    if k == 0 then 1 else 10 * Pow(k - 1)
  }

  lemma {:induction false} DecimalRoundTrip(n: nat)
    ensures AllDigits(Decimal(n)) && Decimal(n) != [] && NatOf(Decimal(n)) == n
    ensures n > 0 ==> Decimal(n)[0] != '0'
    ensures n == 0 ==> Decimal(n) == "0"
  {
    if n >= 10 {
      DecimalRoundTrip(n / 10);
      assert Decimal(n)[..|Decimal(n)| - 1] == Decimal(n / 10);
    } else {
      assert Decimal(n)[..0] == [];
    }
  }

  lemma IntProducts(a: int, b: int)
    ensures a * b * 10 == a * (10 * b)
  {
  }

  lemma PowSteps(k: nat)
    ensures Pow(0) == 1 && Pow(k + 1) == 10 * Pow(k)
  {
  }

  lemma TimesTen(m: nat, k: nat)
    ensures m * Pow(k + 1) == m * Pow(k) * 10
  {
    hide Pow;
    PowSteps(k);
    IntProducts(m, Pow(k));
  }

  lemma NatOfLast(s: string, c: char)
    ensures NatOf(s + [c]) == NatOf(s) * 10 + DigitValue(c)
  {
    assert (s + [c])[..|s|] == s;
  }

  lemma {:induction false} NatOfConcat(a: string, b: string)
    ensures NatOf(a + b) == NatOf(a) * Pow(|b|) + NatOf(b)
  {
    hide NatOf, Pow, DigitValue;
    if b == [] {
      assert a + b == a && NatOf([]) == 0 by { NatOfNothing(); }
      PowSteps(0);
    } else {
      var init, c := b[..|b| - 1], b[|b| - 1];
      assert a + b == (a + init) + [c] && b == init + [c];
      NatOfLast(a + init, c);
      NatOfLast(init, c);
      NatOfConcat(a, init);
      TimesTen(NatOf(a), |init|);
    }
  }

  lemma NatOfNothing()
    ensures NatOf([]) == 0
  {
  }

  /** Some digits without their leading zeros. */
  function StripLeading(s: string): string {
    if s != [] && s[0] == '0' then StripLeading(s[1..]) else s
  }

  function StripTrailing(s: string): string {
    if s != [] && s[|s| - 1] == '0' then StripTrailing(s[..|s| - 1]) else s
  }

  function Zeros(k: nat): string {
    seq(k, _ => '0')
  }

  lemma {:induction false} ZerosAreZero(k: nat)
    ensures NatOf(Zeros(k)) == 0 && AllDigits(Zeros(k))
  {
    if k > 0 {
      assert Zeros(k)[..k - 1] == Zeros(k - 1);
      ZerosAreZero(k - 1);
    }
  }

  lemma {:induction false} StripLeadingKeepsNumber(s: string)
    requires AllDigits(s)
    ensures AllDigits(StripLeading(s)) && NatOf(StripLeading(s)) == NatOf(s)
    ensures StripLeading(s) != [] ==> StripLeading(s)[0] != '0'
    ensures |StripLeading(s)| <= |s|
  {
    if s != [] && s[0] == '0' {
      StripLeadingKeepsNumber(s[1..]);
      assert s == [s[0]] + s[1..];
      NatOfConcat([s[0]], s[1..]);
      assert [s[0]][..0] == [];
      assert NatOf([s[0]]) == 0;
    }
  }

  lemma {:induction false} StripTrailingScales(s: string)
    requires AllDigits(s)
    ensures var t := StripTrailing(s);
            && |t| <= |s| && AllDigits(t) && NatOf(s) == NatOf(t) * Pow(|s| - |t|)
            && (t != [] ==> t[|t| - 1] != '0' && s != [] && t[0] == s[0])
  {
    hide NatOf, Pow;
    PowSteps(0);
    if s != [] && s[|s| - 1] == '0' {
      var init := s[..|s| - 1];
      StripTrailingScales(init);
      assert s == init + ['0'];
      NatOfLast(init, '0');
      TimesTen(NatOf(StripTrailing(s)), |init| - |StripTrailing(s)|);
    }
  }

  /** Leading zeros of digits that go on with others. */
  lemma {:induction false} StripLeadingOfConcat(a: string, b: string)
    ensures StripLeading(a + b) == if StripLeading(a) != [] then StripLeading(a) + b else StripLeading(b)
  {
    if a == [] {
      assert a + b == b;
    } else if a[0] == '0' {
      assert (a + b)[1..] == a[1..] + b;
      StripLeadingOfConcat(a[1..], b);
    }
  }

  lemma {:induction false} NonZeroDigitsHaveValue(s: string)
    requires AllDigits(s) && s != [] && s[0] != '0'
    ensures Pow(|s| - 1) <= NatOf(s) < Pow(|s|)
  {
    if |s| == 1 {
      assert s[..0] == [];
    } else {
      NonZeroDigitsHaveValue(s[..|s| - 1]);
    }
  }
}
