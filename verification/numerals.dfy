/**
 * Decimal numerals as Arduino's String::toInt reads them, restricted to the
 * well-formed case: an optional sign followed by decimal digits.
 */
module Numerals {

  predicate IsDigit(c: char) {
    '0' <= c <= '9'
  }

  predicate AllDigits(s: string) {
    forall i :: 0 <= i < |s| ==> IsDigit(s[i])
  }

  function DigitValue(c: char): (d: nat)
    requires IsDigit(c)
    ensures d < 10
  {
    c as int - '0' as int
  }

  /** The digit character for `d`; `DigitValue` reads it back. */
  function DigitChar(d: nat): (c: char)
    requires d < 10
    ensures IsDigit(c) && DigitValue(c) == d
  {
    ('0' as int + d) as char
  }

  function Pow10(n: nat): (p: nat)
    ensures p >= 1
  {
    if n == 0 then 1 else 10 * Pow10(n - 1)
  }

  /** The value of a string of digits, most significant digit first. */
  function DigitsValue(s: string): (v: nat)
    requires AllDigits(s)
    ensures v < Pow10(|s|)
  {
    if s == [] then 0 else DigitsValue(s[..|s| - 1]) * 10 + DigitValue(s[|s| - 1])
  }

  /** Two-digit, zero-padded rendering of `n`, as in "05". */
  function TwoDigits(n: nat): (s: string)
    requires n < 100
    ensures |s| == 2 && AllDigits(s)
  {
    [DigitChar(n / 10), DigitChar(n % 10)]
  }

  lemma TwoDigitsValue(n: nat)
    requires n < 100
    ensures DigitsValue(TwoDigits(n)) == n
  {
    var s := TwoDigits(n);
    assert s[..1] == [DigitChar(n / 10)];
    assert DigitsValue(s[..1]) == n / 10 by {
      assert s[..1][..0] == [];
    }
  }

  /** Reading a four-digit string "hhmm" gives 100 * hh + mm. */
  lemma FourDigitsValue(hh: nat, mm: nat)
    requires hh < 100 && mm < 100
    ensures AllDigits(TwoDigits(hh) + TwoDigits(mm))
    ensures DigitsValue(TwoDigits(hh) + TwoDigits(mm)) == 100 * hh + mm
  {
    var a, b := TwoDigits(hh), TwoDigits(mm);
    var s := a + b;
    TwoDigitsValue(hh);
    assert s[..3][..2] == a;
    assert s[..3] == s[..4][..3];
    assert s[..4] == s;
    assert DigitsValue(s[..3]) == 10 * hh + mm / 10;
  }

  /** A numeral as `toInt` accepts it: digits, optionally after one sign character. */
  predicate IsNumeral(s: string) {
    || (|s| >= 1 && AllDigits(s))
    || (|s| >= 2 && (s[0] == '-' || s[0] == '+') && AllDigits(s[1..]))
  }

  /** The integer value of a numeral (String::toInt on the well-formed case). */
  function ToInt(s: string): (n: int)
    requires IsNumeral(s)
    ensures n < 0 ==> s[0] == '-'
    ensures -(Pow10(|s|) as int) < n < Pow10(|s|)
  {
    if s[0] == '-' then -(DigitsValue(s[1..]) as int)
    else if s[0] == '+' then DigitsValue(s[1..])
    else DigitsValue(s)
  }
}
