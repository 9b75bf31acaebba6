/** Rust's `{}` formatting of integers (decimal digits, a leading `-` for negatives), and its inverse. */
module Decimal {

  predicate IsDigits(s: string) {
    forall i :: 0 <= i < |s| ==> '0' <= s[i] <= '9'
  }

  function Digit(d: nat): (c: char)
    requires d < 10
    ensures '0' <= c <= '9' && c as int - '0' as int == d
  {
    (d + '0' as int) as char
  }

  /** `format!("{}", n)` for a non-negative integer: no sign, no leading zero. */
  function NatToDecimal(n: nat): (s: string)
    ensures |s| >= 1 && IsDigits(s)
    ensures s[0] == '0' ==> n == 0 && |s| == 1
    decreases n
  {
    if n < 10 then [Digit(n)] else NatToDecimal(n / 10) + [Digit(n % 10)]
  }

  /** `format!("{}", x)` for any integer. */
  function IntToDecimal(x: int): (s: string)
    ensures |s| >= 1
    ensures s[0] == '-' <==> x < 0
  {
    if x < 0 then "-" + NatToDecimal(-x) else NatToDecimal(x)
  }

  /** The value of a string of decimal digits. */
  function DigitsValue(s: string): nat
    requires IsDigits(s)
  {
    if s == [] then 0 else DigitsValue(s[..|s| - 1]) * 10 + (s[|s| - 1] as int - '0' as int)
  }

  predicate IsDecimal(s: string) {
    if |s| > 0 && s[0] == '-' then IsDigits(s[1..]) else IsDigits(s)
  }

  /** Reads back what `IntToDecimal` writes. */
  function ParseDecimal(s: string): int
    requires IsDecimal(s)
  {
    if |s| > 0 && s[0] == '-' then -(DigitsValue(s[1..]) as int) else DigitsValue(s)
  }

  lemma {:induction false} NatToDecimalRoundTrip(n: nat)
    ensures DigitsValue(NatToDecimal(n)) == n
    decreases n
  {
    if n >= 10 {
      NatToDecimalRoundTrip(n / 10);
      var s := NatToDecimal(n);
      assert s[..|s| - 1] == NatToDecimal(n / 10);
    }
  }

  lemma IntToDecimalRoundTrip(x: int)
    ensures IsDecimal(IntToDecimal(x)) && ParseDecimal(IntToDecimal(x)) == x
  {
    if x < 0 {
      assert IntToDecimal(x)[1..] == NatToDecimal(-x);
      NatToDecimalRoundTrip(-x);
    } else {
      NatToDecimalRoundTrip(x);
    }
  }

  /** Different numbers are written differently, so a decimal suffix identifies its number. */
  lemma IntToDecimalInjective(x: int, y: int)
    ensures IntToDecimal(x) == IntToDecimal(y) <==> x == y
  {
    if IntToDecimal(x) == IntToDecimal(y) {
      IntToDecimalRoundTrip(x);
      IntToDecimalRoundTrip(y);
    }
  }
}
