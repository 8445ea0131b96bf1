/**
 * Wall-clock time of day as the controller sees it: an instant within its
 * day, the `.hour`/`.minute` pair that the controller keeps of it, and the
 * zero-padded "HH:MM" text handed to the job registry as a daily trigger.
 */
module Clock {

  datatype Option<T> = None | Some(value: T)

  const SecondsPerHour: int := 3600
  const SecondsPerDay: int := 86400
  const MinutesPerDay: int := 1440

  /** A local wall-clock instant, in seconds since the midnight of its day. */
  type Seconds = s: int | 0 <= s < 86400

  /** The `.hour` and `.minute` fields of a datetime. */
  datatype HourMinute = HourMinute(hour: int, minute: int)

  predicate Valid(t: HourMinute) {
    0 <= t.hour < 24 && 0 <= t.minute < 60
  }

  function MinuteOfDay(t: HourMinute): int {
    60 * t.hour + t.minute
  }

  /**
   * Adds (or, for a negative count, subtracts) whole hours on the wall
   * clock; the date the result falls on is forgotten, so the shift wraps
   * around midnight.
   */
  function ShiftHours(s: Seconds, hours: int): (r: Seconds)
    ensures (r - s - SecondsPerHour * hours) % SecondsPerDay == 0
  {
    (s + SecondsPerHour * hours) % SecondsPerDay
  }

  /** Keeps the hour and the minute of an instant and drops its seconds. */
  function HourMinuteOf(s: Seconds): (t: HourMinute)
    ensures Valid(t)
    ensures MinuteOfDay(t) == s / 60
  {
    HourMinute(s / SecondsPerHour, s / 60 % 60)
  }

  /**
   * Dropping the seconds commutes with a whole-hour shift: the minute of
   * the day of the shifted instant is the shifted minute of the day.
   */
  lemma {:induction false} ShiftThenTruncate(s: Seconds, hours: int)
    ensures ShiftHours(s, hours) / 60 == (s / 60 + 60 * hours) % MinutesPerDay
  {
    var q, sec := s / 60, s % 60;
    var k, m := (q + 60 * hours) / MinutesPerDay, (q + 60 * hours) % MinutesPerDay;
    assert s + SecondsPerHour * hours == SecondsPerDay * k + (60 * m + sec);
    assert 0 <= 60 * m + sec < SecondsPerDay;
    assert ShiftHours(s, hours) == 60 * m + sec;
  }

  // ---------------------------------------------------------------------
  // "HH:MM" trigger text: f"{h:02}:{m:02}"

  predicate IsDigit(c: char) {
    '0' <= c <= '9'
  }

  function DigitValue(c: char): int {
    c as int - '0' as int
  }

  function DigitChar(d: int): (c: char)
    requires 0 <= d < 10
    ensures IsDigit(c) && DigitValue(c) == d
  {
    ('0' as int + d) as char
  }

  /** A number below 100 written with two digits, zero-padded on the left. */
  function Pad2(n: int): (s: string)
    requires 0 <= n < 100
    ensures |s| == 2 && IsDigit(s[0]) && IsDigit(s[1])
    ensures 10 * DigitValue(s[0]) + DigitValue(s[1]) == n
  {
    [DigitChar(n / 10), DigitChar(n % 10)]
  }

  /** The daily trigger text for a time of day. */
  function Format(t: HourMinute): (s: string)
    requires Valid(t)
    ensures |s| == 5 && s[2] == ':'
    ensures forall i | 0 <= i < 5 && i != 2 :: IsDigit(s[i])
  {
    Pad2(t.hour) + ":" + Pad2(t.minute)
  }

  /**
   * Reads "HH:MM" text back; the strict inverse of Format, accepting
   * exactly five characters, two digits, a colon, two digits, with an hour
   * below 24 and a minute below 60.
   */
  function Parse(s: string): (r: Option<HourMinute>)
    ensures r.Some? ==> Valid(r.value)
    ensures r.Some? ==> |s| == 5 && s[2] == ':'
  {
    if |s| == 5 && s[2] == ':' && IsDigit(s[0]) && IsDigit(s[1]) && IsDigit(s[3]) && IsDigit(s[4]) then
      var h := 10 * DigitValue(s[0]) + DigitValue(s[1]);
      var m := 10 * DigitValue(s[3]) + DigitValue(s[4]);
      if h < 24 && m < 60 then Some(HourMinute(h, m)) else None
    else
      None
  }

  /** Formatting a valid time of day and reading it back gives the same time. */
  lemma ParseFormat(t: HourMinute)
    requires Valid(t)
    ensures Parse(Format(t)) == Some(t)
  {
    var s := Format(t);
    assert s[..2] == Pad2(t.hour) && s[3..] == Pad2(t.minute);
  }

  /** Any text that reads as a time of day is that time's own formatting. */
  lemma FormatParse(s: string, t: HourMinute)
    requires Parse(s) == Some(t)
    ensures Valid(t) && Format(t) == s
  {
    DigitRoundTrip(s[0]);
    DigitRoundTrip(s[1]);
    DigitRoundTrip(s[3]);
    DigitRoundTrip(s[4]);
    assert Pad2(t.hour) == s[..2];
    assert Pad2(t.minute) == s[3..];
    assert s == s[..2] + ":" + s[3..];
  }

  lemma DigitRoundTrip(c: char)
    requires IsDigit(c)
    ensures DigitChar(DigitValue(c)) == c
  {
  }

  /** Format is injective on valid times of day. */
  lemma FormatInjective(t: HourMinute, u: HourMinute)
    requires Valid(t) && Valid(u) && Format(t) == Format(u)
    ensures t == u
  {
    ParseFormat(t);
    ParseFormat(u);
  }
}
