/** Go's `strconv.Itoa`, and `strconv.Atoi` on a 64-bit platform. */
module Decimal {
  import opened Wrappers

  predicate IsDigit(c: char) {
    '0' <= c <= '9'
  }

  predicate AllDigits(s: string) {
    forall i :: 0 <= i < |s| ==> IsDigit(s[i])
  }

  function DigitOf(d: nat): (c: char)
    requires d < 10
    ensures IsDigit(c) && c - '0' == d as char
  {
    '0' + d as char
  }

  function Digits(n: nat): (s: string)
    ensures s != "" && AllDigits(s)
  {
    if n < 10 then [DigitOf(n)] else Digits(n / 10) + [DigitOf(n % 10)]
  }

  function Itoa(i: int): string {
    if i < 0 then "-" + Digits(-i) else Digits(i)
  }

  function ValueOf(s: string): nat
    requires AllDigits(s)
  {
    if s == "" then 0 else 10 * ValueOf(s[..|s| - 1]) + (s[|s| - 1] - '0') as nat
  }

  lemma {:induction false} DigitsValue(n: nat)
    ensures ValueOf(Digits(n)) == n
  {
    if n >= 10 {
      DigitsValue(n / 10);
      assert Digits(n)[..|Digits(n)| - 1] == Digits(n / 10);
    } else {
      assert Digits(n)[..0] == "";
    }
  }

  lemma ItoaSign(a: int)
    ensures Itoa(a) != "" && (Itoa(a)[0] == '-' <==> a < 0)
    ensures a < 0 ==> Itoa(a)[1..] == Digits(-a)
  {
    if a >= 0 { assert IsDigit(Digits(a)[0]); }
  }

  /** Different numbers are written differently. */
  lemma ItoaInjective(a: int, b: int)
    requires Itoa(a) == Itoa(b)
    ensures a == b
  {
    ItoaSign(a);
    ItoaSign(b);
    DigitsValue(if a < 0 then -a else a);
    DigitsValue(if b < 0 then -b else b);
  }

  lemma ItoaCharacters(a: int)
    ensures forall i :: 0 <= i < |Itoa(a)| ==> IsDigit(Itoa(a)[i]) || Itoa(a)[i] == '-'
  {
  }
}
