/** Decimal rendering of integers, as Python's `str(int)` produces it. */
module Decimal {

  predicate IsDigit(c: char) {
    '0' <= c <= '9'
  }

  predicate AllDigits(s: string) {
    forall i :: 0 <= i < |s| ==> IsDigit(s[i])
  }

  function DigitValue(c: char): (d: nat)
    requires IsDigit(c)
    ensures d < 10
  {
    c as int - '0' as int
  }

  function DigitChar(d: nat): (c: char)
    requires d < 10
    ensures IsDigit(c) && DigitValue(c) == d
  {
    ('0' as int + d) as char
  }

  /** The canonical decimal numeral of `n`: digits only, never empty, no leading zero. */
  function NatToDecimal(n: nat): (s: string)
    ensures |s| >= 1 && AllDigits(s)
    ensures s[0] == '0' <==> n == 0
    ensures n == 0 ==> s == "0"
    decreases n
  {
    if n < 10 then [DigitChar(n)] else NatToDecimal(n / 10) + [DigitChar(n % 10)]
  }

  /** Python's `str(i)` for an `int`: a minus sign in front of the magnitude when negative. */
  function IntToDecimal(i: int): (s: string)
    ensures |s| >= 1
    ensures s[0] == '-' <==> i < 0
    ensures i >= 0 ==> s == NatToDecimal(i)
    ensures i < 0 ==> s[1..] == NatToDecimal(-i)
  {
    if i < 0 then "-" + NatToDecimal(-i) else NatToDecimal(i)
  }

  /** A numeral with an optional leading minus sign: digits after the sign, digits throughout
      otherwise. */
  predicate SignedNumeral(s: string) {
    |s| >= 1 && if s[0] == '-' then AllDigits(s[1..]) else AllDigits(s)
  }

  /** The integer a signed numeral denotes, as `int(s)` reads it. */
  function SignedDecimalValue(s: string): int
    requires SignedNumeral(s)
  {
    if s[0] == '-' then 0 - DecimalValue(s[1..]) as int else DecimalValue(s)
  }

  /** Reading back `str(i)` gives `i`, negative or not. */
  lemma IntRoundTrip(i: int)
    ensures SignedNumeral(IntToDecimal(i))
    ensures SignedDecimalValue(IntToDecimal(i)) == i
  {
    if i < 0 {
      DecimalRoundTrip(-i);
    } else {
      DecimalRoundTrip(i);
    }
  }

  /** Every signed numeral without a superfluous leading zero, and without a minus sign in
      front of zero, is `str()` of its own value: the converse of the round trip. */
  lemma SignedDecimalCanonical(s: string)
    requires SignedNumeral(s)
    requires s[0] == '-' ==> |s| >= 2 && s[1] != '0'
    requires s[0] == '0' ==> |s| == 1
    ensures IntToDecimal(SignedDecimalValue(s)) == s
  {
    if s[0] == '-' {
      DecimalPositive(s[1..]);
      DecimalCanonical(s[1..]);
      assert s == "-" + s[1..];
    } else {
      DecimalCanonical(s);
    }
  }

  /** The value a string of decimal digits denotes (the empty string denotes 0). */
  function DecimalValue(s: string): nat
    requires AllDigits(s)
  {
    if s == [] then 0 else 10 * DecimalValue(s[..|s| - 1]) + DigitValue(s[|s| - 1])
  }

  /** Reading back a rendered numeral gives the number. */
  lemma {:induction false} DecimalRoundTrip(n: nat)
    ensures DecimalValue(NatToDecimal(n)) == n
  {
    if n >= 10 {
      var s := NatToDecimal(n / 10);
      var t := s + [DigitChar(n % 10)];
      assert t[..|t| - 1] == s;
      DecimalRoundTrip(n / 10);
    }
  }

  /** A numeral without a superfluous leading zero is the rendering of its own value. */
  lemma {:induction false} DecimalCanonical(s: string)
    requires |s| >= 1 && AllDigits(s)
    requires s[0] == '0' ==> |s| == 1
    ensures NatToDecimal(DecimalValue(s)) == s
  {
    if |s| > 1 {
      var p := s[..|s| - 1];
      DecimalPositive(p);
      DecimalCanonical(p);
      var v := DecimalValue(s);
      assert v / 10 == DecimalValue(p) && v % 10 == DigitValue(s[|s| - 1]);
      assert s == p + [s[|s| - 1]];
    }
  }

  /** A numeral that does not start with zero denotes a positive number. */
  lemma {:induction false} DecimalPositive(s: string)
    requires |s| >= 1 && AllDigits(s) && s[0] != '0'
    ensures DecimalValue(s) >= 1
  {
    if |s| > 1 {
      DecimalPositive(s[..|s| - 1]);
    }
  }

  /** Distinct integers have distinct renderings, so `str(id)` keeps integer ids apart. */
  lemma IntToDecimalInjective(i: int, k: int)
    requires IntToDecimal(i) == IntToDecimal(k)
    ensures i == k
  {
    if i < 0 {
      assert k < 0;
      assert NatToDecimal(-i) == NatToDecimal(-k);
      NatToDecimalInjective(-i, -k);
    } else {
      assert k >= 0;
      NatToDecimalInjective(i, k);
    }
  }

  /** Distinct naturals have distinct numerals. */
  lemma NatToDecimalInjective(m: nat, n: nat)
    requires NatToDecimal(m) == NatToDecimal(n)
    ensures m == n
  {
    DecimalRoundTrip(m);
    DecimalRoundTrip(n);
  }
}
