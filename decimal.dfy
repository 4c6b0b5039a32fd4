/**
 * Decimal rendering of money amounts. The webhook receives the amount in
 * the currency's minor unit (cents) and renders `(amount_total / 100)
 * .toFixed(2)`: the major units in decimal, a point, and exactly two digits
 * of minor units. Here the amount is a non-negative integer count of minor
 * units and the rendering uses integer division and remainder; `ParseAmount`
 * is its inverse, which shows that no two amounts render alike.
 */
module Decimal {
  import opened Wrappers

  predicate IsDigit(c: char) {
    '0' <= c <= '9'
  }

  function DigitChar(d: nat): (c: char)
    requires d < 10
    ensures IsDigit(c)
  {
    ('0' as int + d) as char
  }

  function DigitValue(c: char): (d: nat)
    requires IsDigit(c)
    ensures d < 10 && DigitChar(d) == c
  {
    c as int - '0' as int
  }

  predicate AllDigits(s: string) {
    forall i :: 0 <= i < |s| ==> IsDigit(s[i])
  }

  /** `n` written in decimal, without leading zeros (`String(n)` for a non-negative integer). */
  function DecimalString(n: nat): (s: string)
    ensures |s| >= 1 && AllDigits(s)
    ensures s[0] == '0' ==> n == 0 && |s| == 1
  {
    if n < 10 then [DigitChar(n)]
    else DecimalString(n / 10) + [DigitChar(n % 10)]
  }

  /** The value of a string of decimal digits (the empty string reads as 0). */
  function ParseDecimal(s: string): nat
    requires AllDigits(s)
  {
    if s == "" then 0
    else ParseDecimal(s[..|s| - 1]) * 10 + DigitValue(s[|s| - 1])
  }

  /** Reading back what `DecimalString` wrote gives the number. */
  lemma {:induction false} ParseDecimalString(n: nat)
    ensures ParseDecimal(DecimalString(n)) == n
  {
    var s := DecimalString(n);
    if n >= 10 {
      assert s[..|s| - 1] == DecimalString(n / 10);
      ParseDecimalString(n / 10);
    }
  }

  /** `(minor / 100).toFixed(2)` for a non-negative integer amount of minor units. */
  function FormatAmount(minor: nat): (s: string)
    ensures |s| >= 4 && s[|s| - 3] == '.'
    ensures AllDigits(s[..|s| - 3]) && AllDigits(s[|s| - 2..])
  {
    DecimalString(minor / 100) + "." + [DigitChar(minor / 10 % 10), DigitChar(minor % 10)]
  }

  /** Reads an amount written as digits, a point and two digits back into minor units. */
  function ParseAmount(s: string): Option<nat>
  {
    if |s| >= 4 && s[|s| - 3] == '.' && AllDigits(s[..|s| - 3]) && AllDigits(s[|s| - 2..]) then
      Some(ParseDecimal(s[..|s| - 3]) * 100 + DigitValue(s[|s| - 2]) * 10 + DigitValue(s[|s| - 1]))
    else None
  }

  /** The rendered amount reads back as the amount: the rendering loses nothing. */
  lemma FormatAmountRoundTrip(minor: nat)
    ensures ParseAmount(FormatAmount(minor)) == Some(minor)
  {
    var s := FormatAmount(minor);
    assert s[..|s| - 3] == DecimalString(minor / 100);
    ParseDecimalString(minor / 100);
  }

  /** Different amounts never render as the same text. */
  lemma FormatAmountInjective(a: nat, b: nat)
    requires FormatAmount(a) == FormatAmount(b)
    ensures a == b
  {
    FormatAmountRoundTrip(a);
    FormatAmountRoundTrip(b);
  }

  /** 650000 minor units render as "6500.00". */
  lemma FormatAmountExample()
    ensures FormatAmount(650000) == "6500.00"
  {
    assert DecimalString(6500) == "6500" by {
      assert DecimalString(6) == "6";
      assert DecimalString(65) == "65";
      assert DecimalString(650) == "650";
    }
  }
}
