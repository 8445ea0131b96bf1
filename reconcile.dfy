/**
 * The check made once at startup to decide whether the light should be
 * switched on straight away. The controller compares the hour fields and
 * the minute fields of the current time and of the window's ends
 * separately; this is not the same as asking whether the current time lies
 * in the window, and the lemmas below show where the two agree and where
 * they part.
 */
module Reconcile {
  import opened Clock

  /** The startup condition exactly as the controller evaluates it. */
  predicate LightsOnAtStartup(now: HourMinute, on: HourMinute, off: HourMinute) {
    (now.hour > on.hour || now.hour < off.hour) &&
    (now.minute > on.minute || now.minute < off.minute)
  }

  /**
   * Whether `now` lies in the light window [on, off], read as spanning
   * midnight when `on` is later in the day than `off`.
   */
  predicate InWindow(now: HourMinute, on: HourMinute, off: HourMinute) {
    var n, a, b := MinuteOfDay(now), MinuteOfDay(on), MinuteOfDay(off);
    if a > b then n >= a || n <= b else a <= n <= b
  }

  /**
   * For a window that spans midnight the startup check never switches the
   * light on outside the window: an hour strictly after the on hour or
   * strictly before the off hour is already inside.
   */
  lemma StartupCheckSoundWhenSpanningMidnight(now: HourMinute, on: HourMinute, off: HourMinute)
    requires Valid(now) && Valid(on) && Valid(off)
    requires MinuteOfDay(on) > MinuteOfDay(off)
    requires LightsOnAtStartup(now, on, off)
    ensures InWindow(now, on, off)
  {
  }

  /**
   * On a window that spans midnight the check is true exactly when the
   * minute test passes and the hour falls strictly inside the part of the
   * window made of whole hours.
   */
  lemma StartupCheckOnSpanningWindow(now: HourMinute, on: HourMinute, off: HourMinute)
    requires Valid(now) && Valid(on) && Valid(off)
    requires MinuteOfDay(on) > MinuteOfDay(off)
    ensures LightsOnAtStartup(now, on, off) <==>
              (InWindow(now, on, off) && now.hour != on.hour && now.hour != off.hour &&
               (now.minute > on.minute || now.minute < off.minute))
  {
  }

  /** Window 20:00 to 06:00, started at 23:00: the light stays off although 23:00 is inside. */
  lemma StartupAtWholeHourMissesWindow()
    ensures var now, on, off := HourMinute(23, 0), HourMinute(20, 0), HourMinute(6, 0);
            InWindow(now, on, off) && !LightsOnAtStartup(now, on, off)
  {
  }

  /** Window 16:30 to 08:15, started at 22:00: the light is switched on. */
  lemma StartupAtTenPmSwitchesOn()
    ensures LightsOnAtStartup(HourMinute(22, 0), HourMinute(16, 30), HourMinute(8, 15))
  {
  }

  /** Window 16:30 to 08:15, started at 22:20: inside the window, yet the light stays off. */
  lemma StartupCheckMissesMinutesInsideWindow()
    ensures var now, on, off := HourMinute(22, 20), HourMinute(16, 30), HourMinute(8, 15);
            InWindow(now, on, off) && !LightsOnAtStartup(now, on, off)
  {
  }

  /** Window 06:00 to 20:00, started at 23:30: outside the window, yet the light is switched on. */
  lemma StartupCheckUnsoundWithinOneDay()
    ensures var now, on, off := HourMinute(23, 30), HourMinute(6, 0), HourMinute(20, 0);
            !InWindow(now, on, off) && LightsOnAtStartup(now, on, off)
  {
  }
}
