/** Decimal numerals, as JavaScript template literals write them. */
module Strings {
  function Digit(d: nat): char
    requires d < 10
  {
    '0' + d as char
  }

  predicate IsDigit(c: char) {
    '0' <= c <= '9'
  }

  /** The decimal numeral of `n`. */
  function Decimal(n: nat): (s: string)
    ensures s != [] && forall c :: c in s ==> IsDigit(c)
  {
    if n < 10 then [Digit(n)] else Decimal(n / 10) + [Digit(n % 10)]
  }

  function IntToString(n: int): string {
    if n < 0 then "-" + Decimal(-n) else Decimal(n)
  }

  function DigitValue(c: char): nat
    requires IsDigit(c)
  {
    (c - '0') as nat
  }

  function ParseDecimal(s: string): nat
    requires forall c :: c in s ==> IsDigit(c)
  {
    if s == [] then 0 else ParseDecimal(s[..|s| - 1]) * 10 + DigitValue(s[|s| - 1])
  }

  /** Numerals as one writes them: the digits from left to right, without a zero in front. */
  lemma {:induction false} DecimalReads(n: nat)
    ensures n < 10 ==> Decimal(n) == ["0123456789"[n]]
    ensures n >= 10 ==> Decimal(n) == Decimal(n / 10) + Decimal(n % 10) && Decimal(n)[0] != '0'
    ensures n > 0 ==> Decimal(n)[0] != '0'
  {
    if n >= 10 { DecimalReads(n / 10); }
  }

  lemma IntReads(n: int)
    ensures n >= 0 ==> IntToString(n) == Decimal(n)
    ensures n < 0 ==> IntToString(n) == ['-'] + Decimal(-n)
  {
  }

  lemma {:induction false} ParseOfDecimal(n: nat)
    ensures ParseDecimal(Decimal(n)) == n
  {
    if n >= 10 {
      ParseOfDecimal(n / 10);
      assert Decimal(n)[..|Decimal(n)| - 1] == Decimal(n / 10);
    }
  }
}
