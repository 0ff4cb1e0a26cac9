/**
 * Turning the calculator's raw minutes past midnight into hours and minutes:
 * the hour is floor(raw / 60); the sunset minute is floor(fmod(raw, 60)) but
 * the sunrise minute is ceil(fmod(raw, 60)).
 */
module LocalRounding {
  import opened CArith
  import opened SolarTimes

  function HourOf(raw: real): int {
    Floor(raw / 60.0)
  }

  function SunsetMinuteOf(raw: real): int {
    Floor(Fmod60(raw))
  }

  function SunriseMinuteOf(raw: real): int {
    Ceil(Fmod60(raw))
  }

  /** What the local path writes into `times`. */
  function LocalReading(sunsetRaw: real, sunriseRaw: real): Reading {
    Reading(HourOf(sunriseRaw), SunriseMinuteOf(sunriseRaw), HourOf(sunsetRaw), SunsetMinuteOf(sunsetRaw))
  }

  /** For a time of day at or after midnight, fmod by 60 is the part past the whole hour. */
  lemma FmodSplitsHour(raw: real)
    requires raw >= 0.0
    ensures HourOf(raw) >= 0
    ensures Fmod60(raw) == raw - HourOf(raw) as real * 60.0
  {
    assert Trunc(raw / 60.0) == HourOf(raw);
  }

  /** Sunset: hour and minute together are raw rounded down to a whole minute. */
  lemma SunsetIsFloor(raw: real)
    requires raw >= 0.0
    ensures 0 <= SunsetMinuteOf(raw) < 60
    ensures HourOf(raw) * 60 + SunsetMinuteOf(raw) == Floor(raw)
  {
    FmodSplitsHour(raw);
    var h := HourOf(raw);
    var m := SunsetMinuteOf(raw);
    assert m as real <= raw - h as real * 60.0 < m as real + 1.0;
    assert (h * 60 + m) as real <= raw < (h * 60 + m) as real + 1.0;
  }

  /** Sunrise: hour and minute together are raw rounded up to a whole minute. */
  lemma SunriseIsCeil(raw: real)
    requires raw >= 0.0
    ensures 0 <= SunriseMinuteOf(raw) <= 60
    ensures HourOf(raw) * 60 + SunriseMinuteOf(raw) == Ceil(raw)
  {
    FmodSplitsHour(raw);
    var h := HourOf(raw);
    var m := SunriseMinuteOf(raw);
    assert m as real - 1.0 < raw - h as real * 60.0 <= m as real;
    assert (h * 60 + m) as real - 1.0 < raw <= (h * 60 + m) as real;
  }

  /**
   * Because the sunrise minute is rounded up without carrying into the hour,
   * it reads 60 exactly when raw lies strictly inside the last minute of an hour.
   */
  lemma SunriseMinuteSixty(raw: real)
    requires raw >= 0.0
    ensures SunriseMinuteOf(raw) == 60 <==> 59.0 < Fmod60(raw)
  {
  }

  /** Worked values: sunset 1230.7 is 20:30, sunrise 323.2 is 5:24 and sunrise 359.5 is 5:60. */
  lemma RoundingExamples()
    ensures HourOf(1230.7) == 20 && SunsetMinuteOf(1230.7) == 30
    ensures HourOf(323.2) == 5 && SunriseMinuteOf(323.2) == 24
    ensures HourOf(359.5) == 5 && SunriseMinuteOf(359.5) == 60
  {
    FmodSplitsHour(1230.7);
    FmodSplitsHour(323.2);
    FmodSplitsHour(359.5);
  }

  /**
   * Before midnight (a negative raw value) fmod keeps the sign while the hour
   * is floored, so hour and minute no longer add up: -30.0 gives hour -1 and
   * sunset minute -30.
   */
  lemma NegativeRawExample()
    ensures HourOf(-30.0) == -1 && SunsetMinuteOf(-30.0) == -30
    ensures HourOf(-30.0) * 60 + SunsetMinuteOf(-30.0) != Floor(-30.0)
  {
    assert Trunc(-30.0 / 60.0) == 0;
  }
}
