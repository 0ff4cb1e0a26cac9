/**
 * Reading the hour and minute out of an ISO-8601 timestamp such as
 * "2025-06-01T05:23:00-04:00": find the first 'T', then the two characters
 * after it are the hour and the two characters three further on are the minute.
 */
module Timestamps {
  import opened Numerals

  /** String::indexOf for one character: the first position of `c`, or -1. */
  function FirstIndexOf(s: string, c: char): (i: int)
    ensures -1 <= i < |s|
    ensures i == -1 <==> c !in s
    ensures 0 <= i ==> s[i] == c && c !in s[..i]
  {
    if s == [] then -1
    else if s[0] == c then 0
    else
      var j := FirstIndexOf(s[1..], c);
      if j == -1 then -1 else j + 1
  }

  /** The well-formed case: a 'T' followed by digits where the hour and minute are read. */
  predicate WellFormedStamp(s: string) {
    var i := FirstIndexOf(s, 'T');
    0 <= i && i + 6 <= |s| && AllDigits(s[i + 1..i + 3]) && AllDigits(s[i + 4..i + 6])
  }

  /** `s.substring(s.indexOf("T")).substring(1,3).toInt()` */
  function StampHour(s: string): (h: nat)
    requires WellFormedStamp(s)
    ensures h < 100
  {
    var i := FirstIndexOf(s, 'T');
    DigitsValue(s[i + 1..i + 3])
  }

  /** `s.substring(s.indexOf("T")).substring(4,6).toInt()` */
  function StampMinute(s: string): (m: nat)
    requires WellFormedStamp(s)
    ensures m < 100
  {
    var i := FirstIndexOf(s, 'T');
    DigitsValue(s[i + 4..i + 6])
  }

  /** A timestamp with the given hour and minute after its first 'T'. */
  function MakeStamp(date: string, h: nat, sep: char, m: nat, rest: string): string
    requires h < 100 && m < 100
  {
    date + "T" + TwoDigits(h) + [sep] + TwoDigits(m) + rest
  }

  /**
   * Extraction reads back the hour and minute written after the first 'T',
   * whatever precedes it (so long as it holds no 'T'), whatever separates the
   * two fields and whatever follows them (seconds, a UTC offset).
   */
  lemma {:induction false} StampRoundTrip(date: string, h: nat, sep: char, m: nat, rest: string)
    requires 'T' !in date && h < 100 && m < 100
    ensures WellFormedStamp(MakeStamp(date, h, sep, m, rest))
    ensures StampHour(MakeStamp(date, h, sep, m, rest)) == h
    ensures StampMinute(MakeStamp(date, h, sep, m, rest)) == m
  {
    var s := MakeStamp(date, h, sep, m, rest);
    var i := |date|;
    FirstIndexOfPrefix(date, s[i..], 'T');
    assert s == date + s[i..];
    assert FirstIndexOf(s, 'T') == i;
    assert s[i + 1..i + 3] == TwoDigits(h);
    assert s[i + 4..i + 6] == TwoDigits(m);
    TwoDigitsValue(h);
    TwoDigitsValue(m);
  }

  /** Skipping a prefix free of `c` shifts the first index of `c` by its length. */
  lemma {:induction false} FirstIndexOfPrefix(p: string, t: string, c: char)
    requires c !in p && t != [] && t[0] == c
    ensures FirstIndexOf(p + t, c) == |p|
  {
    if p != [] {
      assert (p + t)[1..] == p[1..] + t;
      FirstIndexOfPrefix(p[1..], t, c);
    }
  }

  /** The worked example: "2025-06-01T05:23:00-04:00" gives 05:23. */
  lemma SunriseExample()
    ensures WellFormedStamp("2025-06-01T05:23:00-04:00")
    ensures StampHour("2025-06-01T05:23:00-04:00") == 5
    ensures StampMinute("2025-06-01T05:23:00-04:00") == 23
  {
    assert "2025-06-01T05:23:00-04:00" == MakeStamp("2025-06-01", 5, ':', 23, ":00-04:00");
    StampRoundTrip("2025-06-01", 5, ':', 23, ":00-04:00");
  }
}
