/**
 * The SunsetSunrise component: it owns the configuration, the last accepted
 * sunrise/sunset times, the count of consecutive failed refreshes and the
 * solar calculator's settings, and decides on every refresh whether the web
 * service or the on-device calculation supplies the times.
 *
 * Collaborators enter as parameters: what the web service answered, what the
 * clock reads, the calculator's raw minutes, whether a stored settings file
 * exists and what parsing it gave, and whether saving succeeded.
 */
module SunsetSunrise {
  import opened Wrappers
  import opened Numerals
  import opened Settings
  import opened SolarTimes
  import opened RemoteResponse
  import opened LocalRounding
  import opened TimezoneOffset

  datatype Date = Date(year: int, month: int, day: int)

  /** The settings of the solar calculator object (`sunset`): position, offset in hours, date. */
  datatype Calculator = Calculator(lat: real, lng: real, tzOffset: real, date: Date)

  /**
   * One reading of the clock: the "%z" offset string, "%Y", "%m" and "%d" as
   * integers, and the "%Y-%m-%dT%H:%M:%S" timestamp.
   */
  datatype ClockReading = ClockReading(zone: string, year: int, month: int, day: int, stamp: string)

  /** The local calculation runs after three or more failures, or when there is no timezone name. */
  predicate UsesLocal(failCount: int, c: Config) {
    failCount >= 3 || c.timezoneString == ""
  }

  /** The remote path: consulted only when a timezone name is configured. */
  function RemoteAttempt(c: Config, r: RemoteOutcome): (rd: Option<Reading>)
    requires c.timezoneString != "" ==> Extractable(r)
    ensures rd.Some? <==> c.timezoneString != "" && Accepted(r)
    ensures c.timezoneString != "" ==> rd == RemoteReading(r)
  {
    if c.timezoneString != "" then RemoteReading(r) else None
  }

  class SunsetSunrise {
    var config: Config
    var times: Times
    var calculator: Calculator
    var configPath: string
    var apiFailCount: int

    /** The failure count never exceeds 3: at 3 the local calculation runs and succeeds. */
    ghost predicate Valid()
      reads this
    {
      0 <= apiFailCount <= 3
    }

    constructor (configFile: string)
      ensures Valid()
      ensures configPath == "/settings/util/" + configFile
      ensures apiFailCount == 0
      ensures config.timezoneString == "" && times.lastUpdated == ""
    {
      configPath := "/settings/util/" + configFile;
      config := Config(0.0, 0.0, "", 0, false);
      times := Times(0, 0, 0, 0, "");
      calculator := Calculator(0.0, 0.0, 0.0, Date(0, 0, 0));
      apiFailCount := 0;
    }

    /** The configuration document; reading it back loses only the automatic flag. */
    function GetConfig(): (d: ConfigDoc)
      reads this
      ensures d.lat == config.lat && d.lng == config.lng
      ensures ParseDoc(d) == config.(automaticTimezoneOffset := false)
    {
      Serialize(config)
    }

    /**
     * Commits a parsed configuration and moves the calculator to its position and
     * offset; `parsed` is None when the text did not parse, `saveOk` is what
     * saving the text to the settings file would report.
     */
    method SetConfig(parsed: Option<Config>, save: bool, saveOk: bool, zone: string) returns (ok: bool)
      requires Valid()
      requires parsed.Some? && parsed.value.automaticTimezoneOffset ==> IsNumeral(zone)
      modifies this
      ensures Valid()
      ensures parsed.None? ==> !ok && config == old(config) && calculator == old(calculator)
      ensures parsed.Some? ==>
        && config == parsed.value
        && calculator == old(calculator).(lat := parsed.value.lat, lng := parsed.value.lng,
                                          tzOffset := ConfiguredOffsetHours(parsed.value, zone) as real)
        && ok == (!save || saveOk)
      ensures times == old(times) && apiFailCount == old(apiFailCount) && configPath == old(configPath)
    {
      if parsed.None? {
        return false;
      }
      config := parsed.value;
      var hours := ConfiguredOffsetHours(config, zone);
      calculator := calculator.(lat := config.lat, lng := config.lng, tzOffset := hours as real);
      if save {
        return saveOk;
      }
      return true;
    }

    /**
     * Start-up: without a stored settings file the defaults are installed and
     * saved; otherwise the stored file's parse result is applied without saving.
     */
    method Begin(fileExists: bool, stored: Option<Config>, saveOk: bool, zone: string) returns (ok: bool)
      requires Valid()
      requires fileExists && stored.Some? && stored.value.automaticTimezoneOffset ==> IsNumeral(zone)
      modifies this
      ensures Valid()
      ensures !fileExists ==>
        && config == Defaults
        && calculator == old(calculator).(lat := 40.0, lng := -73.0, tzOffset := -5.0)
        && ok == saveOk
      ensures fileExists && stored.None? ==> !ok && config == old(config) && calculator == old(calculator)
      ensures fileExists && stored.Some? ==>
        && ok
        && config == stored.value
        && calculator == old(calculator).(lat := stored.value.lat, lng := stored.value.lng,
                                          tzOffset := ConfiguredOffsetHours(stored.value, zone) as real)
      ensures times == old(times) && apiFailCount == old(apiFailCount) && configPath == old(configPath)
    {
      if !fileExists {
        config := Defaults;
        DefaultOffset();
        ok := SetConfig(Some(ParseDoc(GetConfig())), true, saveOk, zone);
      } else {
        ok := SetConfig(stored, false, saveOk, zone);
      }
    }

    /**
     * Refreshes `times`. The web service is asked when a timezone name is set;
     * the local calculation runs when the name is empty or after three or more
     * failures, and then overrides whatever the service gave. Success resets the
     * failure count and stamps the times; failure counts up and keeps them.
     */
    method GetTimes(remote: RemoteOutcome, clock: ClockReading, sunsetRaw: real, sunriseRaw: real)
      returns (ok: bool)
      requires Valid()
      requires config.timezoneString != "" ==> Extractable(remote)
      requires UsesLocal(apiFailCount, config) && config.automaticTimezoneOffset ==> IsNumeral(clock.zone)
      modifies this
      ensures Valid()
      ensures ok <==> RemoteAttempt(old(config), remote).Some? || UsesLocal(old(apiFailCount), old(config))
      ensures ok ==>
        && apiFailCount == 0
        && times == Stamped(
             if UsesLocal(old(apiFailCount), old(config)) then LocalReading(sunsetRaw, sunriseRaw)
             else RemoteAttempt(old(config), remote).value,
             clock.stamp)
      ensures !ok ==> apiFailCount == old(apiFailCount) + 1 && times == old(times)
      ensures calculator ==
        if UsesLocal(old(apiFailCount), old(config)) then
          old(calculator).(tzOffset := CalculationOffsetHours(old(config), clock.zone),
                           date := Date(clock.year, clock.month, clock.day))
        else old(calculator)
      ensures config == old(config) && configPath == old(configPath)
    {
      var success := false;
      if config.timezoneString != "" {
        if remote.Envelope? && remote.code == 200 {
          var inner := remote.response;
          if inner.Inner? && inner.status == "OK" {
            times := times.(sunsetHour := Timestamps.StampHour(inner.sunset),
                            sunsetMinute := Timestamps.StampMinute(inner.sunset));
            times := times.(sunriseHour := Timestamps.StampHour(inner.sunrise),
                            sunriseMinute := Timestamps.StampMinute(inner.sunrise));
            success := true;
          }
        }
      }
      if apiFailCount >= 3 || config.timezoneString == "" {
        calculator := calculator.(tzOffset := CalculationOffsetHours(config, clock.zone));
        calculator := calculator.(date := Date(clock.year, clock.month, clock.day));
        times := times.(sunsetHour := HourOf(sunsetRaw), sunsetMinute := SunsetMinuteOf(sunsetRaw));
        times := times.(sunriseHour := HourOf(sunriseRaw), sunriseMinute := SunriseMinuteOf(sunriseRaw));
        success := true;
      }
      if success {
        apiFailCount := 0;
        times := times.(lastUpdated := clock.stamp);
        return true;
      }
      apiFailCount := apiFailCount + 1;
      return false;
    }
  }

  /**
   * A fresh component whose web service fails three times: those three
   * refreshes fail, and the fourth runs the local calculation whatever the
   * service answers then -- even an accepted answer is overridden -- succeeds
   * and resets the count.
   */
  method ThreeFailuresThenLocal(
    c: Config, failing: RemoteOutcome, fourthAnswer: RemoteOutcome,
    clock: ClockReading, sunsetRaw: real, sunriseRaw: real)
    returns (first: bool, second: bool, third: bool, fourth: bool, count: int, last: Times)
    requires c.timezoneString != "" && !Accepted(failing) && Extractable(fourthAnswer)
    requires c.automaticTimezoneOffset ==> IsNumeral(clock.zone)
    ensures !first && !second && !third && fourth
    ensures count == 0
    ensures last == Stamped(LocalReading(sunsetRaw, sunriseRaw), clock.stamp)
  {
    var s := new SunsetSunrise("SunsetSunrise.json");
    var configured := s.SetConfig(Some(c), false, true, clock.zone);
    first := s.GetTimes(failing, clock, sunsetRaw, sunriseRaw);
    second := s.GetTimes(failing, clock, sunsetRaw, sunriseRaw);
    third := s.GetTimes(failing, clock, sunsetRaw, sunriseRaw);
    fourth := s.GetTimes(fourthAnswer, clock, sunsetRaw, sunriseRaw);
    count := s.apiFailCount;
    last := s.times;
  }
}
