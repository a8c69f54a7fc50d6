/** Natural numbers written in decimal, and read back. */
module Decimals {

  function Digit(d: nat): char
    requires d < 10
  {
    ('0' as int + d) as char
  }

  function Decimal(n: nat): (text: string)
    ensures text != [] && ':' !in text
    ensures n >= 10 ==> |text| >= 2
  {
    if n < 10 then [Digit(n)] else Decimal(n / 10) + [Digit(n % 10)]
  }

  lemma {:induction false} DecimalInjective(a: nat, b: nat)
    requires Decimal(a) == Decimal(b)
    ensures a == b
  {
    var s, t := Decimal(a), Decimal(b);
    assert s[|s| - 1] == Digit(a % 10) && t[|t| - 1] == Digit(b % 10);
    if a >= 10 && b >= 10 {
      assert s[..|s| - 1] == Decimal(a / 10) && t[..|t| - 1] == Decimal(b / 10);
      DecimalInjective(a / 10, b / 10);
    }
  }

  predicate IsDigit(c: char) { '0' <= c <= '9' }

  predicate AllDigits(s: string) { s != [] && forall c :: c in s ==> IsDigit(c) }

  function DigitValue(c: char): (d: nat)
    requires IsDigit(c)
    ensures d < 10 && c == Digit(d)
  {
    c as int - '0' as int
  }

  function NumberOf(s: string): nat
    requires forall c :: c in s ==> IsDigit(c)
  {
    if s == [] then 0 else NumberOf(s[..|s| - 1]) * 10 + DigitValue(s[|s| - 1])
  }

  predicate HasLeadingZero(s: string) { |s| > 1 && s[0] == '0' }

  lemma {:induction false} LongerIsPositive(s: string)
    requires AllDigits(s) && !HasLeadingZero(s) && |s| > 1
    ensures NumberOf(s) >= 10
  {
    var init := s[..|s| - 1];
    assert AllDigits(init);
    if |init| > 1 {
      LongerIsPositive(init);
    } else {
      assert init[..0] == [] && NumberOf(init) == DigitValue(s[0]);
    }
  }

  /** Without leading zeros a number is written in one way. */
  lemma {:induction false} NumberOfInjective(a: string, b: string)
    requires AllDigits(a) && AllDigits(b) && !HasLeadingZero(a) && !HasLeadingZero(b) && NumberOf(a) == NumberOf(b)
    ensures a == b
  {
    var s, t := a[..|a| - 1], b[..|b| - 1];
    assert a == s + [a[|a| - 1]] && b == t + [b[|b| - 1]];
    assert NumberOf(a) == NumberOf(s) * 10 + DigitValue(a[|a| - 1]) &&
      NumberOf(b) == NumberOf(t) * 10 + DigitValue(b[|b| - 1]);
    assert NumberOf(s) == NumberOf(t) && a[|a| - 1] == b[|b| - 1];
    if |a| > 1 { LongerIsPositive(a); }
    if |b| > 1 { LongerIsPositive(b); }
    if |a| > 1 && |b| > 1 {
      assert AllDigits(s) && AllDigits(t);
      NumberOfInjective(s, t);
    }
  }

  /** Reading a number without leading zeros and writing it again gives back its text. */
  lemma {:induction false} DecimalOfNumber(s: string)
    requires AllDigits(s) && !HasLeadingZero(s)
    ensures Decimal(NumberOf(s)) == s
  {
    var init, last := s[..|s| - 1], s[|s| - 1];
    assert s == init + [last];
    assert NumberOf(s) == NumberOf(init) * 10 + DigitValue(last);
    if |s| > 1 {
      LongerIsPositive(s);
      assert AllDigits(init);
      DecimalOfNumber(init);
      assert NumberOf(s) / 10 == NumberOf(init) && NumberOf(s) % 10 == DigitValue(last);
    } else {
      assert init == [] && NumberOf(init) == 0;
    }
  }
}
