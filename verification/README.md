# SunsetSunrise in Dafny

A model of the `SunsetSunrise` utility of FabricaIO (an Arduino/ESP32 component)
that keeps today's sunrise and sunset time for one configured location. On each
refresh (`getTimes`) it asks the sunrise-sunset.org web service when a timezone
name is configured, and computes the times on the device with a solar calculator
when no name is configured or after three or more consecutive failures. The
model covers that source-selection policy and its failure counter, the slicing
of hour and minute out of the service's ISO-8601 timestamps, the timezone-offset
arithmetic (automatic from the clock's `%z`, or manual from configured seconds),
the floor/ceil conversion of the calculator's raw minutes, and the configuration
operations `setConfig`, `getConfig` and `begin`.

Files (one module each):

- `wrappers.dfy` — `Option`.
- `numerals.dfy` — `String::toInt` on well-formed numerals; two-digit rendering for round trips.
- `c_arith.dfy` — C++ truncating integer division, `std::floor`, `std::ceil`, `std::trunc`, `std::fmod(x, 60)`.
- `solar_times.dfy` — the `times` struct and the four values a source supplies.
- `timestamps.dfy` — `indexOf("T")` and the `substring(1,3)` / `substring(4,6)` slices.
- `remote_response.dfy` — the web service's answer and the four-part acceptance gate.
- `local_rounding.dfy` — the conversion of raw minutes into hour and minute.
- `settings.dfy` — the configuration record, the defaults and the `getConfig` document.
- `timezone_offset.dfy` — the offsets handed to the calculator by `setConfig` and by `getTimes`.
- `sunset_sunrise.dfy` — the `SunsetSunrise` class (state and the four operations) and a client that
  drives a fresh object through three failures.

Collaborators are parameters. The web service's answer is a `RemoteOutcome`
(outer parse failed, or an envelope with `code` and an inner part that failed to
parse or carries `status`, `sunrise` and `sunset`); the clock is a
`ClockReading`; the solar calculator's raw results are two `real`s; the stored
settings file is a flag saying whether it exists plus its parse result
(`Option<Config>`); saving is a boolean result. The calculator object is
modelled by the settings the component pushes into it (`lat`, `lng`,
`tzOffset`, `date`).

Two behaviours of the code are easy to misread, and the model follows the code
in both: a failed remote request while fewer than three failures have been
counted does NOT fall back to the local calculation (src/SunsetSunrise.cpp:106),
so that refresh returns false; and the sunrise minute is rounded up without
carrying into the hour, so it can be 60 rather than staying within 0..59.

## Model

| member | source | states |
|---|---|---|
| `Numerals.DigitsValue` | src/SunsetSunrise.cpp:91-94 | the value `toInt` reads from a digit string, below 10 to the power of its length |
| `Numerals.ToInt` | src/SunsetSunrise.cpp:61 | `toInt` of a signed numeral such as "-0530": negative only after a minus sign, bounded by the digit count |
| `Numerals.FourDigitsValue` | src/SunsetSunrise.cpp:61 | the four digits "hhmm" of a `%z` string read as 100*hh + mm |
| `CArith.TruncDiv` | src/SunsetSunrise.cpp:61-63 | C++ int division: the quotient truncates toward zero (q*b <= a < q*b+b for a >= 0, q*b-b < a <= q*b for a < 0) |
| `CArith.TruncDivVersusFloorDiv` | src/SunsetSunrise.cpp:61-63 | truncating and flooring division agree iff the dividend is non-negative or divisible |
| `CArith.TruncDivNegate` | src/SunsetSunrise.cpp:61-63 | truncating division is symmetric: (-a)/b == -(a/b) |
| `CArith.Floor` | src/SunsetSunrise.cpp:117-119 | `floor`: the greatest integer not above x |
| `CArith.Ceil` | src/SunsetSunrise.cpp:120 | `std::ceil`: the least integer not below x |
| `CArith.Fmod60` | src/SunsetSunrise.cpp:118-120 | `std::fmod(x, 60)`: x minus a whole multiple of 60, in [0,60) for x >= 0 and in (-60,0] for x < 0 |
| `Timestamps.FirstIndexOf` | src/SunsetSunrise.cpp:91-94 | `indexOf("T")`: -1 iff there is no T, else the position of the first T |
| `Timestamps.StampHour` | src/SunsetSunrise.cpp:91 | the hour is the two digits after the first T, a value below 100 |
| `Timestamps.StampMinute` | src/SunsetSunrise.cpp:92 | the minute is the two digits at offsets 4..5 from the first T, a value below 100 |
| `Timestamps.StampRoundTrip` | src/SunsetSunrise.cpp:89-94 | any timestamp date+"T"+hh+sep+mm+rest (no T in date) yields exactly hh and mm |
| `Timestamps.FirstIndexOfPrefix` | src/SunsetSunrise.cpp:91 | the first T after a T-free prefix is found at the prefix's length |
| `Timestamps.SunriseExample` | src/SunsetSunrise.cpp:89-94 | "2025-06-01T05:23:00-04:00" gives hour 5, minute 23 |
| `RemoteResponse.RemoteReading` | src/SunsetSunrise.cpp:84-99 | the remote path yields a reading iff the outer JSON parses, code == 200, the inner response parses and status == "OK" |
| `RemoteResponse.RemoteReadsBack` | src/SunsetSunrise.cpp:88-95 | an accepted answer is read back as exactly the sunrise and sunset hours and minutes it carries |
| `RemoteResponse.DocumentedAnswer` | src/SunsetSunrise.cpp:84-95 | the sample answer gives sunrise 05:23 and sunset 20:31 |
| `LocalRounding.FmodSplitsHour` | src/SunsetSunrise.cpp:117-120 | for raw >= 0, fmod(raw,60) is raw minus 60 times the floored hour |
| `LocalRounding.SunsetIsFloor` | src/SunsetSunrise.cpp:117-118 | for raw >= 0 the sunset minute is in [0,60) and hour*60+minute == floor(raw) |
| `LocalRounding.SunriseIsCeil` | src/SunsetSunrise.cpp:119-120 | for raw >= 0 the sunrise minute is in [0,60] and hour*60+minute == ceil(raw) |
| `LocalRounding.SunriseMinuteSixty` | src/SunsetSunrise.cpp:120 | the sunrise minute is 60 iff fmod(raw,60) lies strictly above 59 |
| `LocalRounding.RoundingExamples` | src/SunsetSunrise.cpp:117-120 | sunset 1230.7 gives 20:30, sunrise 323.2 gives 5:24, sunrise 359.5 gives 5:60 |
| `LocalRounding.NegativeRawExample` | src/SunsetSunrise.cpp:117-118 | a raw value of -30 gives hour -1 and minute -30, which do not add up to floor(-30) |
| `Settings.SerializeParseRoundTrip` | src/SunsetSunrise.cpp:29-57 | reading back the getConfig document restores the config iff its automatic flag is off; the flag comes back false |
| `Settings.ParseSerializeRoundTrip` | src/SunsetSunrise.cpp:29-57 | re-emitting a read-back document reproduces it |
| `Settings.SerializeForgetsOnlyAutomatic` | src/SunsetSunrise.cpp:31-34 | two configs give the same document iff they differ at most in the automatic flag |
| `TimezoneOffset.ZoneOffsetDropsMinutes` | src/SunsetSunrise.cpp:61 | automatic mode: a `%z` of sign, hh, mm (mm < 60) gives +-hh, the minutes dropped toward zero |
| `TimezoneOffset.ZoneOffsetExamples` | src/SunsetSunrise.cpp:110 | "-0500" and "-0530" give -5, "-0400" gives -4 |
| `TimezoneOffset.AutomaticOffsetsAgree` | src/SunsetSunrise.cpp:60-61 | in automatic mode setConfig and getTimes hand the calculator the same offset |
| `TimezoneOffset.ManualOffsetsAgree` | src/SunsetSunrise.cpp:109-113 | in manual mode the setConfig (integer) and getTimes (real) offsets agree iff the seconds are a whole number of hours |
| `TimezoneOffset.HalfHourOffsetExample` | src/SunsetSunrise.cpp:63 | -12600 s gives -3 hours in setConfig and -3.5 hours in getTimes |
| `TimezoneOffset.DefaultOffset` | src/SunsetSunrise.cpp:17 | the default -18000 s is -5 hours in both operations |
| `SunsetSunrise.RemoteAttempt` | src/SunsetSunrise.cpp:76-99 | the service's answer counts iff a timezone name is set and the answer passes the gate; with no name it is never consulted |
| `SunsetSunrise.SunsetSunrise.constructor` | src/SunsetSunrise.cpp:5-7 | the settings path is "/settings/util/" + file name and the failure count starts at 0 |
| `SunsetSunrise.SunsetSunrise.GetConfig` | src/SunsetSunrise.cpp:29-39 | the document carries lat and lng unchanged and reads back as the config with the automatic flag cleared |
| `SunsetSunrise.SunsetSunrise.SetConfig` | src/SunsetSunrise.cpp:45-70 | parse failure: false, config and calculator unchanged; success: all five fields stored, calculator at (lat, lng, derived offset), result true or the save result |
| `SunsetSunrise.SunsetSunrise.Begin` | src/SunsetSunrise.cpp:11-25 | no stored file: defaults (40, -73, "America/New_York", -18000, false) stored, calculator at (40, -73, -5), result is the save result; otherwise the stored parse is applied unsaved |
| `SunsetSunrise.SunsetSunrise.GetTimes` | src/SunsetSunrise.cpp:74-130 | true iff the remote gate passed or the local path ran (count >= 3 or empty name); local overrides remote; true resets the count and stamps the times; false adds 1 and leaves times unchanged; the count stays within 0..3 |
| `SunsetSunrise.ThreeFailuresThenLocal` | src/SunsetSunrise.cpp:76-129 | a fresh object whose service fails three times returns false, false, false, then true with the local times whatever the fourth answer is, and ends with count 0 |

## Left out

- HTTP transport: the request to the web service (query parameters, the `String(double)` formatting of lat/lng) is network I/O; only the decoded answer is modelled.
- JSON: ArduinoJson's parsing, serialisation and `as<T>()` conversions are a foreign library. A settings text enters as its parse result; the document `getConfig` emits is a record of its four keys, and reading it back in `begin` is modelled by `Settings.ParseDoc` (the absent `automatic_timezone_offset` key reads as false).
- File storage: `checkConfig`, `Storage::readFile` and `saveConfig` become a flag, a parse result and a boolean save result. The text written to the file is not modelled.
- Clock: `TimeInterface::getFormattedTime` becomes a `ClockReading` parameter (the year, month and day already as integers).
- Solar astronomy: `calcSunset` and `calcSunrise` are floating-point code from another library; their raw minutes are parameters, and only the conversion after them is modelled.
- Logging: diagnostics only, no effect on state.
- Floating point: doubles are modelled as exact reals; lat and lng are stored and echoed unchanged.
- Fixed-width integers: `int` fields are unbounded; the failure count provably never exceeds 3, and the other values are far from 32-bit limits.
- Initial values: the C++ object leaves the config numbers, the times integers and the calculator's state uninitialised; the model starts them at zero. The strings start empty, as in C++.
- SunsetSunrise.SunsetSunrise.GetTimes: requires well-formed timestamps (a 'T' followed by digits at the sliced positions) when the answer is accepted, and a numeral `%z` when the automatic offset is used; what `indexOf`, `substring` and `toInt` do with malformed strings is library behaviour and is not modelled.
- SunsetSunrise.SunsetSunrise.SetConfig: requires a numeral `%z` when the automatic offset is used, for the same reason.
- SunsetSunrise.SunsetSunrise.Begin: requires a numeral `%z` when the stored config uses the automatic offset, for the same reason.
