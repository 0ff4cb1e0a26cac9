/** The `times` record of the component and the four values a source supplies for it. */
module SolarTimes {

  /** Sunrise and sunset as hours and minutes past midnight, as one source reports them. */
  datatype Reading = Reading(sunriseHour: int, sunriseMinute: int, sunsetHour: int, sunsetMinute: int)

  /** The component's `times` struct: the last accepted reading and when it was taken. */
  datatype Times = Times(
    sunriseHour: int,
    sunriseMinute: int,
    sunsetHour: int,
    sunsetMinute: int,
    lastUpdated: string)
  {
    function ReadingOf(): Reading {
      Reading(sunriseHour, sunriseMinute, sunsetHour, sunsetMinute)
    }
  }

  function Stamped(rd: Reading, stamp: string): (t: Times)
    ensures t.ReadingOf() == rd && t.lastUpdated == stamp
  {
    Times(rd.sunriseHour, rd.sunriseMinute, rd.sunsetHour, rd.sunsetMinute, stamp)
  }
}
