/** Decimal rendering of numbers, as the identifiers `E{index}` and `proposal-{index}` use it. */
module Decimals {
  function Digit(d: nat): (c: char)
    requires d < 10
  {
    "0123456789"[d]
  }

  function Decimal(n: nat): (s: string)
    ensures |s| > 0
  {
    if n < 10 then [Digit(n)] else Decimal(n / 10) + [Digit(n % 10)]
  }

  /** What a text of digits stands for. */
  function ValueOfDigits(s: string): (n: int) {
    if s == "" then 0 else 10 * ValueOfDigits(s[..|s| - 1]) + (s[|s| - 1] as int - '0' as int)
  }

  /** The text is the numeral of the number: digits only, no leading zero, and it stands for the number. */
  lemma {:induction false} DecimalIsNumeral(n: nat)
    ensures ValueOfDigits(Decimal(n)) == n
    ensures forall i :: 0 <= i < |Decimal(n)| ==> '0' <= Decimal(n)[i] <= '9'
    ensures n > 0 ==> Decimal(n)[0] != '0'
  {
    var s := Decimal(n);
    assert s[..|s| - 1] == if n < 10 then "" else Decimal(n / 10);
    DigitIsDigit(n % 10);
    if n >= 10 {
      DecimalIsNumeral(n / 10);
    }
  }

  lemma DigitIsDigit(d: nat)
    requires d < 10
    ensures '0' <= Digit(d) <= '9' && Digit(d) as int - '0' as int == d
  {
  }

  /** Two numbers with the same decimal text are the same number. */
  lemma {:induction false} DecimalInjective(a: nat, b: nat)
    requires Decimal(a) == Decimal(b)
    ensures a == b
  {
    var s, t := Decimal(a), Decimal(b);
    assert s[|s| - 1] == Digit(a % 10) && t[|t| - 1] == Digit(b % 10);
    if a >= 10 && b >= 10 {
      assert Decimal(a / 10) == s[..|s| - 1] && Decimal(b / 10) == t[..|t| - 1];
      DecimalInjective(a / 10, b / 10);
    }
  }
}
