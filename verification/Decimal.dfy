/** Printing integers in decimal, and reading them back. */
module Decimal {

  predicate IsDigit(c: char) { '0' <= c <= '9' }

  function DigitChar(d: nat): (c: char)
    requires d < 10
    ensures IsDigit(c) && (c as int) - ('0' as int) == d
  {
    ('0' as int + d) as char
  }

  function Digits(n: nat): (s: string)
    ensures |s| > 0 && forall i :: 0 <= i < |s| ==> IsDigit(s[i])
  {
    if n < 10 then [DigitChar(n)] else Digits(n / 10) + [DigitChar(n % 10)]
  }

  /** String(n) for an integer n. */
  function Printed(n: int): (s: string)
    ensures |s| > 0 && (IsDigit(s[0]) || s[0] == '-')
  {
    if n < 0 then "-" + Digits(-n) else Digits(n)
  }

  function DigitValue(c: char): nat
    requires IsDigit(c)
  {
    c as int - '0' as int
  }

  function DigitsValue(s: string): nat
    requires forall i :: 0 <= i < |s| ==> IsDigit(s[i])
  {
    if s == "" then 0 else 10 * DigitsValue(s[..|s| - 1]) + DigitValue(s[|s| - 1])
  }

  lemma {:induction false} DigitsReadBack(n: nat)
    ensures DigitsValue(Digits(n)) == n
  {
    if n < 10 {
      assert Digits(n)[..0] == "";
    } else {
      DigitsReadBack(n / 10);
      assert Digits(n)[..|Digits(n)| - 1] == Digits(n / 10);
    }
  }

  ghost predicate NoDigitFirst(s: string) {
    s == "" || !IsDigit(s[0])
  }

  lemma DigitsNoLonger(m: nat, n: nat, s: string, t: string)
    requires Digits(m) + s == Digits(n) + t && NoDigitFirst(s)
    ensures |Digits(n)| <= |Digits(m)|
  {
    var k := |Digits(m)|;
    assert s != "" ==> (Digits(m) + s)[k] == s[0];
  }

  lemma DigitsUnambiguous(m: nat, n: nat, s: string, t: string)
    requires Digits(m) + s == Digits(n) + t && NoDigitFirst(s) && NoDigitFirst(t)
    ensures m == n && s == t
  {
    DigitsNoLonger(m, n, s, t);
    DigitsNoLonger(n, m, t, s);
    assert Digits(m) == (Digits(m) + s)[..|Digits(m)|] == (Digits(n) + t)[..|Digits(n)|] == Digits(n);
    DigitsReadBack(m);
    DigitsReadBack(n);
    assert s == (Digits(m) + s)[|Digits(m)|..] == (Digits(n) + t)[|Digits(n)|..] == t;
  }

  lemma SignFirst(n: int, t: string)
    ensures (Printed(n) + t)[0] == '-' <==> n < 0
    ensures n < 0 ==> (Printed(n) + t)[1..] == Digits(-n) + t
  {
  }

  /** A printed integer is recovered from any text it starts, as long as no digit follows it. */
  lemma PrintedUnambiguous(m: int, n: int, s: string, t: string)
    requires Printed(m) + s == Printed(n) + t && NoDigitFirst(s) && NoDigitFirst(t)
    ensures m == n && s == t
  {
    SignFirst(m, s);
    SignFirst(n, t);
    if m < 0 {
      DigitsUnambiguous(-m, -n, s, t);
    } else {
      DigitsUnambiguous(m, n, s, t);
    }
  }
}
