/** Decimal numerals. */
module Decimals {

  function Digit(d: nat): char
    requires d < 10
  {
    "0123456789"[d]
  }

  function Decimal(n: nat): (s: string)
    ensures s != ""
  {
    if n < 10 then [Digit(n)] else Decimal(n / 10) + [Digit(n % 10)]
  }

  function DigitValue(c: char): nat { if '0' <= c <= '9' then c as nat - '0' as nat else 0 }

  function Numeral(s: string): nat {
    if s == "" then 0 else 10 * Numeral(s[..|s| - 1]) + DigitValue(s[|s| - 1])
  }

  lemma {:induction false} NumeralOfDecimal(n: nat)
    ensures Numeral(Decimal(n)) == n
    ensures ':' !in Decimal(n) && '-' !in Decimal(n) && '\0' !in Decimal(n)
  {
    if n >= 10 { NumeralOfDecimal(n / 10); }
  }

  lemma DecimalInjective(m: nat, n: nat)
    requires Decimal(m) == Decimal(n)
    ensures m == n
  {
    NumeralOfDecimal(m);
    NumeralOfDecimal(n);
  }
}
