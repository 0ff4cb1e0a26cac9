/**
 * The answer of the sunrise-sunset web service, as far as the component looks
 * at it: an outer JSON envelope with a `code` and a `response` string, which
 * itself holds JSON with a `status` and the two timestamps.
 */
module RemoteResponse {
  import opened Wrappers
  import opened Numerals
  import opened Timestamps
  import opened SolarTimes

  /** The decoded `response` string, or the failure to decode it. */
  datatype Inner = InnerParseError | Inner(status: string, sunrise: string, sunset: string)

  /** The decoded envelope, or the failure to decode the body at all. */
  datatype RemoteOutcome = OuterParseError | Envelope(code: int, response: Inner)

  /** The four checks that all have to pass before any time field is written. */
  predicate Accepted(r: RemoteOutcome) {
    && r.Envelope?
    && r.code == 200
    && r.response.Inner?
    && r.response.status == "OK"
  }

  /** An accepted answer carries timestamps in the well-formed shape. */
  predicate Extractable(r: RemoteOutcome) {
    Accepted(r) ==> WellFormedStamp(r.response.sunrise) && WellFormedStamp(r.response.sunset)
  }

  /** What the remote path writes into `times`, if anything. */
  function RemoteReading(r: RemoteOutcome): (rd: Option<Reading>)
    requires Extractable(r)
    ensures rd.Some? <==> r.Envelope? && r.code == 200 && r.response.Inner? && r.response.status == "OK"
    ensures rd.Some? ==>
      && 0 <= rd.value.sunriseHour < 100 && 0 <= rd.value.sunriseMinute < 100
      && 0 <= rd.value.sunsetHour < 100 && 0 <= rd.value.sunsetMinute < 100
  {
    if Accepted(r) then
      var inner := r.response;
      Some(Reading(StampHour(inner.sunrise), StampMinute(inner.sunrise),
                   StampHour(inner.sunset), StampMinute(inner.sunset)))
    else None
  }

  /** An accepted answer whose timestamps carry the given hours and minutes is read back exactly. */
  lemma RemoteReadsBack(
    riseDate: string, riseHour: nat, riseMinute: nat, riseRest: string,
    setDate: string, setHour: nat, setMinute: nat, setRest: string)
    requires 'T' !in riseDate && 'T' !in setDate
    requires riseHour < 100 && riseMinute < 100 && setHour < 100 && setMinute < 100
    ensures
      var r := Envelope(200, Inner("OK",
        MakeStamp(riseDate, riseHour, ':', riseMinute, riseRest),
        MakeStamp(setDate, setHour, ':', setMinute, setRest)));
      Extractable(r) && RemoteReading(r) == Some(Reading(riseHour, riseMinute, setHour, setMinute))
  {
    StampRoundTrip(riseDate, riseHour, ':', riseMinute, riseRest);
    StampRoundTrip(setDate, setHour, ':', setMinute, setRest);
  }

  /** The service's documented example answer gives sunrise 05:23 and sunset 20:31. */
  lemma DocumentedAnswer()
    ensures
      var r := Envelope(200, Inner("OK", "2025-06-01T05:23:00-04:00", "2025-06-01T20:31:00-04:00"));
      Extractable(r) && RemoteReading(r) == Some(Reading(5, 23, 20, 31))
  {
    assert "2025-06-01T05:23:00-04:00" == MakeStamp("2025-06-01", 5, ':', 23, ":00-04:00");
    assert "2025-06-01T20:31:00-04:00" == MakeStamp("2025-06-01", 20, ':', 31, ":00-04:00");
    RemoteReadsBack("2025-06-01", 5, 23, ":00-04:00", "2025-06-01", 20, 31, ":00-04:00");
  }
}
