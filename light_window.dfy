/**
 * The daily light window: the grow light goes on a fixed number of hours
 * before sunset and off a fixed number of hours after sunrise. Both results
 * are wall-clock times of day, so the shift wraps around midnight, and only
 * their hour and minute are kept.
 */
module LightWindow {
  import opened Clock

  /** Hours after sunrise at which the light goes off. */
  const TimeAfterSunrise: int := 2
  /** Hours before sunset at which the light goes on. */
  const TimeBeforeSunset: int := 2

  /** The time of day at which the light goes on, for a given sunset. */
  function LightOnTime(sunset: Seconds): (t: HourMinute)
    ensures Valid(t)
    ensures MinuteOfDay(t) == (sunset / 60 - 60 * TimeBeforeSunset) % MinutesPerDay
  {
    ShiftThenTruncate(sunset, -TimeBeforeSunset);
    HourMinuteOf(ShiftHours(sunset, -TimeBeforeSunset))
  }

  /** The time of day at which the light goes off, for a given sunrise. */
  function LightOffTime(sunrise: Seconds): (t: HourMinute)
    ensures Valid(t)
    ensures MinuteOfDay(t) == (sunrise / 60 + 60 * TimeAfterSunrise) % MinutesPerDay
  {
    ShiftThenTruncate(sunrise, TimeAfterSunrise);
    HourMinuteOf(ShiftHours(sunrise, TimeAfterSunrise))
  }

  /** A time of day is determined by its minute of the day. */
  lemma MinuteOfDayDetermines(t: HourMinute, u: HourMinute)
    requires Valid(t) && Valid(u) && MinuteOfDay(t) == MinuteOfDay(u)
    ensures t == u
  {
  }

  /** Sunset at 18:30 gives 16:30; sunrise at 06:15 gives 08:15. */
  lemma EveningWindowExample()
    ensures LightOnTime(18 * 3600 + 30 * 60) == HourMinute(16, 30)
    ensures LightOffTime(6 * 3600 + 15 * 60) == HourMinute(8, 15)
  {
    assert (18 * 3600 + 30 * 60) / 60 == 1110;
    MinuteOfDayDetermines(LightOnTime(18 * 3600 + 30 * 60), HourMinute(16, 30));
    assert (6 * 3600 + 15 * 60) / 60 == 375;
    MinuteOfDayDetermines(LightOffTime(6 * 3600 + 15 * 60), HourMinute(8, 15));
  }

  /** A sunset shortly after midnight puts the on time late on the previous evening. */
  lemma MidnightWrapExample()
    ensures LightOnTime(1 * 3600 + 10 * 60 + 42) == HourMinute(23, 10)
    ensures LightOffTime(22 * 3600 + 59 * 60 + 59) == HourMinute(0, 59)
  {
    assert (1 * 3600 + 10 * 60 + 42) / 60 == 70;
    assert (70 - 120) % MinutesPerDay == 1390;
    MinuteOfDayDetermines(LightOnTime(1 * 3600 + 10 * 60 + 42), HourMinute(23, 10));
    assert (22 * 3600 + 59 * 60 + 59) / 60 == 1379;
    assert (1379 + 120) % MinutesPerDay == 59;
    MinuteOfDayDetermines(LightOffTime(22 * 3600 + 59 * 60 + 59), HourMinute(0, 59));
  }
}
