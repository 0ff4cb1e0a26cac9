/**
 * The timezone offset, in hours, handed to the solar calculator. Automatic
 * mode reads the clock's "%z" string ("-0500") as an integer and divides it by
 * 100; manual mode divides the configured seconds by 3600 -- as integers in
 * setConfig, but as doubles in getTimes.
 */
module TimezoneOffset {
  import opened Numerals
  import opened CArith
  import opened Settings

  /** `(double)(getFormattedTime("%z").toInt()/100)`: the integer division truncates. */
  function ZoneOffsetHours(zone: string): int
    requires IsNumeral(zone)
  {
    TruncDiv(ToInt(zone), 100)
  }

  /** The offset setConfig hands to `setPosition`. */
  function ConfiguredOffsetHours(c: Config, zone: string): int
    requires c.automaticTimezoneOffset ==> IsNumeral(zone)
  {
    if c.automaticTimezoneOffset then ZoneOffsetHours(zone)
    else TruncDiv(c.timezoneOffsetSeconds, 3600)
  }

  /** The offset getTimes hands to `setTZOffset` before a local calculation. */
  function CalculationOffsetHours(c: Config, zone: string): real
    requires c.automaticTimezoneOffset ==> IsNumeral(zone)
  {
    if c.automaticTimezoneOffset then ZoneOffsetHours(zone) as real
    else c.timezoneOffsetSeconds as real / 3600.0
  }

  /** A "%z" string made of a sign, two hour digits and two minute digits. */
  function ZoneString(negative: bool, hh: nat, mm: nat): string
    requires hh < 100 && mm < 100
  {
    [if negative then '-' else '+'] + TwoDigits(hh) + TwoDigits(mm)
  }

  /** Automatic mode keeps the whole hours of the zone and drops its minutes, toward zero. */
  lemma ZoneOffsetDropsMinutes(negative: bool, hh: nat, mm: nat)
    requires hh < 100 && mm < 60
    ensures IsNumeral(ZoneString(negative, hh, mm))
    ensures ZoneOffsetHours(ZoneString(negative, hh, mm)) == if negative then -(hh as int) else hh
  {
    var z := ZoneString(negative, hh, mm);
    assert z[1..] == TwoDigits(hh) + TwoDigits(mm);
    FourDigitsValue(hh, mm);
    var v := 100 * hh + mm;
    assert ToInt(z) == if negative then -v else v;
    DivUnique(v, 100, hh, mm);
  }

  /** "-0500" gives -5, "-0530" gives -5 (not -6) and "-0400" gives -4. */
  lemma ZoneOffsetExamples()
    ensures IsNumeral("-0500") && ZoneOffsetHours("-0500") == -5
    ensures IsNumeral("-0530") && ZoneOffsetHours("-0530") == -5
    ensures IsNumeral("-0400") && ZoneOffsetHours("-0400") == -4
  {
    assert "-0500" == ZoneString(true, 5, 0);
    ZoneOffsetDropsMinutes(true, 5, 0);
    assert "-0530" == ZoneString(true, 5, 30);
    ZoneOffsetDropsMinutes(true, 5, 30);
    assert "-0400" == ZoneString(true, 4, 0);
    ZoneOffsetDropsMinutes(true, 4, 0);
  }

  /** In automatic mode both operations hand the calculator the same offset. */
  lemma AutomaticOffsetsAgree(c: Config, zone: string)
    requires c.automaticTimezoneOffset && IsNumeral(zone)
    ensures ConfiguredOffsetHours(c, zone) as real == CalculationOffsetHours(c, zone)
  {
  }

  /**
   * In manual mode the two operations agree exactly when the configured offset
   * is a whole number of hours; otherwise setConfig's integer division loses the
   * fraction, toward zero.
   */
  lemma ManualOffsetsAgree(c: Config, zone: string)
    requires !c.automaticTimezoneOffset
    ensures ConfiguredOffsetHours(c, zone) as real == CalculationOffsetHours(c, zone)
            <==> c.timezoneOffsetSeconds % 3600 == 0
  {
    var s := c.timezoneOffsetSeconds;
    var q := TruncDiv(s, 3600);
    if s % 3600 == 0 {
      DivUnique(s, 3600, s / 3600, 0);
      TruncDivVersusFloorDiv(s, 3600);
      assert s == q * 3600;
    } else {
      if q as real == s as real / 3600.0 {
        assert s == q * 3600;
        DivUnique(s, 3600, q, 0);
        assert false;
      }
    }
  }

  /** -12600 seconds (UTC-3:30): setConfig uses -3 hours, getTimes -3.5 hours. */
  lemma HalfHourOffsetExample()
    ensures ConfiguredOffsetHours(Config(0.0, 0.0, "", -12600, false), "") == -3
    ensures CalculationOffsetHours(Config(0.0, 0.0, "", -12600, false), "") == -3.5
  {
    DivUnique(12600, 3600, 3, 1800);
  }

  /** The default -18000 seconds is UTC-5 for both operations. */
  lemma DefaultOffset()
    ensures ConfiguredOffsetHours(Defaults, "") == -5
    ensures CalculationOffsetHours(Defaults, "") == -5.0
  {
    DivUnique(18000, 3600, 5, 0);
  }
}
