/** The decimal text a template literal `${n}` produces for a non-negative integer n. */
module Decimal {

  predicate IsDigit(c: char) {
    '0' <= c <= '9'
  }

  predicate AllDigits(s: string) {
    forall i :: 0 <= i < |s| ==> IsDigit(s[i])
  }

  function DigitChar(d: nat): (c: char)
    requires d < 10
    ensures IsDigit(c) && c as int - '0' as int == d
  {
    ('0' as int + d) as char
  }

  /** The shortest decimal numeral of n, as JavaScript prints a non-negative integer below 10^21
      (larger numbers print in exponent form, which no index or timestamp reaches). */
  function NatToString(n: nat): (s: string)
    ensures |s| > 0 && AllDigits(s)
    ensures |s| > 1 ==> s[0] != '0'
    decreases n
  {
    if n < 10 then [DigitChar(n)] else NatToString(n / 10) + [DigitChar(n % 10)]
  }

  /** The value of a string of decimal digits, most significant first. */
  function DigitsValue(s: string): nat
    requires AllDigits(s)
  {
    if s == [] then 0 else DigitsValue(s[..|s| - 1]) * 10 + (s[|s| - 1] as int - '0' as int)
  }

  /** Reading back the numeral gives the number: printing is invertible. */
  lemma {:induction false} NatToStringRoundTrip(n: nat)
    ensures DigitsValue(NatToString(n)) == n
    decreases n
  {
    var s := NatToString(n);
    if n >= 10 {
      assert s[..|s| - 1] == NatToString(n / 10);
      NatToStringRoundTrip(n / 10);
    } else {
      assert s[..|s| - 1] == [];
    }
  }

  /** Distinct numbers print as distinct numerals. */
  lemma NatToStringInjective(a: nat, b: nat)
    requires NatToString(a) == NatToString(b)
    ensures a == b
  {
    NatToStringRoundTrip(a);
    NatToStringRoundTrip(b);
  }

  /** A dash separates two numerals unambiguously: `a-c == b-d` forces `a == b` and `c == d`. */
  lemma {:induction false} DashSplit(a: string, c: string, b: string, d: string)
    requires AllDigits(a) && AllDigits(b)
    requires a + "-" + c == b + "-" + d
    ensures a == b && c == d
  {
    var x := a + "-" + c;
    var y := b + "-" + d;
    assert x[|a|] == '-' && y[|b|] == '-';
    assert forall i :: 0 <= i < |a| ==> x[i] == a[i];
    assert forall i :: 0 <= i < |b| ==> y[i] == b[i];
    assert |a| == |b|;
    assert a == x[..|a|] == y[..|b|] == b;
    assert c == x[|a| + 1..] == y[|b| + 1..] == d;
  }

  /** A dash followed by a numeral is found from the right: `a-c == b-d` with numerals c and d
      forces `a == b` and `c == d`, whatever dashes a and b contain. */
  lemma {:induction false} DashSplitLast(a: string, c: string, b: string, d: string)
    requires AllDigits(c) && AllDigits(d)
    requires a + "-" + c == b + "-" + d
    ensures a == b && c == d
  {
    var x := a + "-" + c;
    var y := b + "-" + d;
    assert x[|a|] == '-' && y[|b|] == '-';
    assert forall i :: |a| < i < |x| ==> x[i] == c[i - |a| - 1];
    assert forall i :: |b| < i < |y| ==> y[i] == d[i - |b| - 1];
    assert |a| == |b|;
    assert a == x[..|a|] == y[..|b|] == b;
    assert c == x[|a| + 1..] == y[|b| + 1..] == d;
  }
}
