# DemeterBot schedule engine, modelled in Dafny

DemeterBot is a Raspberry Pi controller for a grow box. It switches a grow
light and a water pump on a schedule, and it appends a line to a log file
for every action. This project models the scheduling core of `main.py` and
proves properties about it:

- **Light window.** The light goes on two hours before sunset and off two
  hours after sunrise. Only the hour and minute of each time are kept, so
  the times wrap around midnight. Each time is written as a zero-padded
  `"HH:MM"` daily trigger (`clock.dfy`, `light_window.dfy`).
- **Job registry.** The `schedule` library's registry is modelled as an
  ordered sequence of jobs. Each job has a tag, a trigger and the action it
  calls, with that action's arguments bound. The controller only appends a
  job, clears one tag, clears everything, and picks out the jobs that are
  due (`registry.dfy`).
- **Startup reconciliation.** This is the check, done once at startup,
  that decides whether to switch the light on. It is modelled exactly as
  written: the hour fields and the minute fields are compared separately
  (`reconcile.dfy`).
- **Controller.** Module `Control` holds the controller's state as a value:
  the registry, the two output levels and the log. Every operation is a
  function on that value: each job action, the startup check, setup of the
  five jobs, one poll, the polling loop, and the cleanup that runs on exit.
  The lemmas there state what the program promises (`control.dfy`).
- **Process.** Class `Process.Controller` holds the same state as fields
  and changes it in place. Its methods follow the source statement by
  statement. Each method is proved to produce the state that the
  corresponding `Control` function describes (`process.dfy`). `Run` is the
  `__main__` block: it checks the time and registers the jobs, then runs a
  `while` loop over the polling passes. On every exit from that loop it
  forces both outputs low and clears every job.

Inputs the model takes as parameters:

- the sunrise and sunset instants, as seconds since midnight;
- the current hour and minute at startup;
- a finite prefix of the polling loop's passes. Each pass either raises an
  exception, or names the registry positions that are due (in the order
  they run) together with the level read from the stop input.

The model never reads a clock, a pin or the network.

## Behaviour of the code worth knowing

- `pumpOn` does not clear `pump_off_task` before registering a new off job
  (main.py:62). So `k` turn-ons without a turn-off in between leave `k` off
  jobs (`Control.PumpOnRepeated`), so several pump-off jobs can be
  registered at once.
- The off job repeats every `pumpOnInterval` minutes (main.py:62). It acts
  only once because its own action clears its tag
  (`Control.PumpOffJobIsOneShot`).
- The startup check (main.py:97-98) is not the check "is now inside a
  window that may span midnight".
  - For a window that spans midnight it never switches the light on
    outside the window (`Reconcile.StartupCheckSoundWhenSpanningMidnight`).
  - It does miss times inside the window, such as 23:00 in 20:00–06:00 or
    22:20 in 16:30–08:15.
  - For a window that stays within one day it can switch the light on
    outside the window, such as 23:30 in 06:00–20:00.
  - The lemmas in `reconcile.dfy` give these cases.
  - The startup check drives the pin and writes the "Lights turned on"
    line itself; it does not call `lightOn`.
- The refresh job is built with the date captured once at startup
  (main.py:156, 171). Every refresh therefore derives the same window
  again. The model's refresh action carries the sunrise and sunset of that
  date. `Control.Running` states that the registry keeps the startup
  window for as long as the loop runs.
- The `schedule` library does not catch exceptions raised by a job. An
  exception inside a job leaves the polling loop. The bare `except` then
  logs it, and the `finally` block cleans up (main.py:185-194).

## Model

| member | source | states |
|---|---|---|
| Clock.ShiftHours | main.py:45-46 | shifting an instant by whole hours gives the wall-clock instant congruent to it modulo one day, so the shift wraps at midnight |
| Clock.HourMinuteOf | main.py:50-51 | keeping `.hour` and `.minute` gives a valid time of day whose minute of the day is the instant's minute, seconds dropped |
| Clock.ShiftThenTruncate | main.py:45-51 | dropping the seconds after a whole-hour shift gives the shifted minute of the day modulo 1440 |
| Clock.Pad2 | main.py:50 | `{n:02}` for n below 100 is two digits whose decimal value is n |
| Clock.Format | main.py:50-51 | the trigger text of a valid time of day has five characters, `':'` at index 2 and digits elsewhere |
| Clock.Parse | main.py:50-51 | text that reads back as a time of day gives a valid time and has the `HH:MM` shape |
| Clock.ParseFormat | main.py:50-51 | reading back the formatted trigger gives the same hour and minute |
| Clock.FormatParse | main.py:168-169 | any text that reads back as a time is exactly that time's formatting, so Parse succeeds exactly on Format's outputs |
| Clock.FormatInjective | main.py:168-169 | distinct times of day give distinct trigger texts |
| LightWindow.LightOnTime | main.py:42-45 | the on time is a valid time of day whose minute of the day is (sunset minute − 120) mod 1440 |
| LightWindow.LightOffTime | main.py:41-46 | the off time is a valid time of day whose minute of the day is (sunrise minute + 120) mod 1440 |
| LightWindow.EveningWindowExample | main.py:160-161 | sunset 18:30 gives 16:30 and sunrise 06:15 gives 08:15 |
| LightWindow.MidnightWrapExample | main.py:160-161 | sunset 01:10:42 gives 23:10 and sunrise 22:59:59 gives 00:59: the shifts wrap and the seconds go |
| Registry.TaggedMembers | main.py:50-51 | the jobs under a tag are exactly the registry's jobs carrying that tag |
| Registry.Clear | main.py:48 | clearing a tag leaves no job under it |
| Registry.ClearKeepsOthers | main.py:48 | clearing a tag leaves every other tag's jobs unchanged and in their order |
| Registry.ClearMembers | main.py:71 | clearing a tag removes exactly the jobs carrying it and keeps every other job |
| Registry.ClearAppend | main.py:62-71 | clearing after an append clears the earlier jobs and drops the appended job exactly when it carries the cleared tag |
| Registry.ClearAbsent | main.py:71 | clearing a tag that no job carries leaves the registry unchanged |
| Registry.ClearIdempotent | main.py:71 | clearing a tag twice is clearing it once |
| Registry.TaggedAppend | main.py:62 | appending a job adds it to its own tag's jobs, at the end, and to no other tag's |
| Registry.Due | main.py:180 | the jobs run in one poll are taken from the registry as it stood when the poll began, at most one per pick |
| Registry.DueSelects | main.py:180 | the jobs of one poll are exactly the jobs at the distinct picked positions inside the registry, each position once |
| Registry.DueAtMostOnce | main.py:180 | no registered job runs more often in one poll than it is registered: the poll's jobs form a sub-multiset of the registry |
| Reconcile.LightsOnAtStartup | main.py:97-98 | the startup condition as the code evaluates it: hour after the on hour or before the off hour, and minute after the on minute or before the off minute |
| Reconcile.InWindow | main.py:41-46 | reference predicate, no counterpart in main.py: whether now lies in the window from the on time to the off time, read as spanning midnight when the on time is later in the day |
| Reconcile.StartupCheckSoundWhenSpanningMidnight | main.py:97-98 | for a window spanning midnight, the startup check only switches the light on inside the window |
| Reconcile.StartupCheckOnSpanningWindow | main.py:97-98 | for a window spanning midnight, the check holds exactly when now is in the window, its hour is neither end's hour, and the minute test passes |
| Reconcile.StartupAtWholeHourMissesWindow | main.py:97-100 | window 20:00–06:00, now 23:00: inside the window, yet the light is not switched on |
| Reconcile.StartupAtTenPmSwitchesOn | main.py:97-100 | window 16:30–08:15, now 22:00: the light is switched on |
| Reconcile.StartupCheckMissesMinutesInsideWindow | main.py:97-100 | window 16:30–08:15, now 22:20: inside the window, yet the light is not switched on |
| Reconcile.StartupCheckUnsoundWithinOneDay | main.py:97-100 | window 06:00–20:00, now 23:30: outside the window, yet the light is switched on |
| Control.LightOn | main.py:22-28 | the light goes high and one "Lights turned on" line is appended; registry and pump unchanged |
| Control.LightOff | main.py:31-37 | the light goes low and one "Lights turned off" line is appended; registry and pump unchanged |
| Control.LightJobs | main.py:50-51 | the two daily light_task jobs of a window: on at the on time's `HH:MM` calling lightOn, then off at the off time's `HH:MM` calling lightOff |
| Control.WindowJobs | main.py:45-51 | the light jobs of the window derived from a sunrise and a sunset |
| Control.LightScheduleUpdate | main.py:40-56 | clears light_task, appends the window's two jobs, appends one "Sun times updated" line |
| Control.PumpOffJob | main.py:62 | the pump_off_task job that calls pumpOff every `interval` minutes |
| Control.PumpOn | main.py:59-68 | appends one pump-off job without clearing earlier ones, drives the pump high, appends "Pump turned on" |
| Control.PumpOff | main.py:70-77 | clears pump_off_task, drives the pump low, appends "Pump turned off" |
| Control.Measurements | main.py:109-114 | appends one "Measurements made" line and changes nothing else |
| Control.Fire | main.py:168-175 | runs the action bound to a job: one of the six operations above, with the arguments bound at registration |
| Control.FireAll | main.py:180 | runs the actions of a list of jobs one after another, in order |
| Control.RunPending | main.py:180 | one poll: the due jobs are picked from the registry as it stands, then run in order |
| Control.Startup | main.py:92-106 | drives the light high when the startup check holds, then appends "Program started" and, if the light was switched on, "Lights turned on" |
| Control.RefreshJob | main.py:171 | the light_update_task job, daily at 23:45, refreshing with the sun times of the startup date |
| Control.PumpOnJob | main.py:173 | the pump_on_task job, every 3 hours, turning the pump on for 30 minutes |
| Control.MeasureJob | main.py:175 | the measurement_task job, every 60 minutes |
| Control.SetupJobs | main.py:168-175 | the five setup jobs in registration order: the two light jobs, then refresh, pump-on and measurement |
| Control.Setup | main.py:168-175 | appends the five setup jobs to the registry; outputs and log unchanged |
| Control.Cleanup | main.py:189-194 | drives both outputs low and clears every job; the log is untouched |
| Control.Main | main.py:118-194 | a whole run: Boot, then Loop over the given passes |
| Control.LightScheduleUpdateInstallsWindow | main.py:45-56 | after a refresh the light tag holds exactly two daily jobs, on at the window's on time calling lightOn then off at its off time calling lightOff; other tags and both outputs are unchanged; one "Sun times updated" line is appended |
| Control.LightScheduleUpdateIdempotent | main.py:48-51 | a second refresh with the same sun times leaves the registry as the first did |
| Control.LightTriggersEncodeWindow | main.py:45-51 | the light jobs' trigger texts read back as (sunset − 120 min) mod 1440 and (sunrise + 120 min) mod 1440 |
| Control.PumpOnAddsOneOffJob | main.py:62-68 | a turn-on appends one pump-off job calling pumpOff every interval minutes, removes nothing, leaves other tags unchanged, drives the pump high and appends "Pump turned on" |
| Control.PumpOnRepeated | main.py:62 | k turn-ons with no turn-off between leave k more pump-off jobs, the pump-on job untouched and the pump high |
| Control.PumpOffClearsOffJobs | main.py:71-77 | a turn-off removes every pump-off job, leaves every other tag (pump_on_task too) unchanged, drives the pump low and appends "Pump turned off" |
| Control.PumpOffTwice | main.py:71-73 | turning off twice leaves registry and outputs as once; only one more log line |
| Control.PumpOffJobIsOneShot | main.py:62-71 | firing the repeating pump-off job removes it from the registry |
| Control.StartupOutcome | main.py:95-106 | the light is switched on exactly when the check holds and otherwise untouched; "Program started" is appended, followed at once by "Lights turned on" exactly when the light was switched on; the earlier log is kept |
| Control.SetupInstallsFiveJobs | main.py:168-175 | from an empty registry setup leaves five jobs: the window's two under light_task and one each under light_update_task, pump_on_task and measurement_task |
| Control.Running | main.py:168-187 | the registry while the loop runs: Shape with the startup window's light jobs and the refresh job of the startup date |
| Control.Shape | main.py:168-175 | light_task holds the given window's pair; light_update_task, pump_on_task and measurement_task each hold their one setup job; pump_off_task holds only pump-off jobs of the 30-minute interval |
| Control.BootStartsRunning | main.py:141-175 | after startup and setup the registry holds what a running controller's registry holds |
| Control.RunningJobsAllowed | main.py:168-175 | every job of a running registry calls one of the six actions with the arguments bound at setup |
| Control.FireKeepsRunning | main.py:22-77 | running any of those actions keeps the registry in the running shape |
| Control.RunPendingKeepsRunning | main.py:180 | a poll keeps the registry in the running shape: the startup window's light jobs, the refresh, pump-on and measurement jobs, and only pump-off jobs besides |
| Control.Boot | main.py:141-175 | everything before the loop: both outputs set up low, the startup check on the derived window, then the five setup jobs |
| Control.Loop | main.py:179-187 | the polling loop over a finite prefix of passes: each pass runs the due jobs and then reads the stop input; a stop, or an exception (logged), ends it with the cleanup |
| Control.LoopKeepsRunning | main.py:179-183 | while the loop has not exited the registry stays in the running shape |
| Control.LoopExitCleansUp | main.py:179-194 | on any exit from the loop, by stop input or exception, both outputs are low and no job is left |
| Control.LoopRunsOn | main.py:179-183 | the loop is still running exactly when no pass so far raised or read the stop input high |
| Control.LoopExitsAtFirstStop | main.py:179-187 | the loop exits at the first pass that raises or reads stop, as Faulted or Stopped accordingly |
| Control.FireKeepsLog | main.py:25-28 | every action keeps the log's earlier lines |
| Control.LoopKeepsLog | main.py:102 | the log file is only appended to: the loop keeps every line already in it |
| Control.MainOutcome | main.py:118-194 | a whole run from an empty registry keeps the earlier log and then says "Program started"; while running the registry is in the running shape; after an exit both outputs are low and no job is left |
| Control.EveningScenario | main.py:156-175 | sunset 18:30, sunrise 06:15, start at 22:00: light jobs "16:30" on and "08:15" off, light high, log "Program started" then "Lights turned on" |
| Process.Controller.constructor | main.py:142-143 | a fresh process has both outputs low, no job, and the log file's earlier lines |
| Process.Controller.LightOn | main.py:22-28 | drives the light high and appends "Lights turned on", nothing else changes |
| Process.Controller.LightOff | main.py:31-37 | drives the light low and appends "Lights turned off", nothing else changes |
| Process.Controller.LightScheduleUpdate | main.py:40-56 | clears the light tag, appends the window's on job then its off job and one log line, leaving the state of Control.LightScheduleUpdate |
| Process.Controller.PumpOn | main.py:59-68 | leaves the state of Control.PumpOn: one more pump-off job, other tags unchanged |
| Process.Controller.PumpOff | main.py:70-77 | leaves the state of Control.PumpOff: no pump-off job, other tags unchanged |
| Process.Controller.Measurements | main.py:109-114 | appends "Measurements made", nothing else changes |
| Process.Controller.Fire | main.py:171-175 | calls the action bound to a job, leaving the state Control.Fire gives |
| Process.Controller.RunPending | main.py:180 | runs the due jobs picked at the start of the poll in order, leaving the state Control.RunPending gives |
| Process.Controller.Startup | main.py:92-106 | returns the check as written and leaves the state of Control.Startup |
| Process.Controller.Setup | main.py:168-175 | appends the five setup jobs, leaving the state of Control.Setup |
| Process.Controller.Cleanup | main.py:189-194 | drives both outputs low and clears every job, the log untouched |
| Process.Controller.Run | main.py:118-194 | leaves the state and exit that Control.Main gives; on any exit both outputs are low and no job is left |

## Left out

- GPIO pin setup, reads and writes, and `gpio.cleanup`: hardware. The
  outputs are booleans and the stop input is part of each pass of the trace.
- `systemCheck` (main.py:80-89): timed pin pulses ending with both outputs
  low, the level they were set up with, so it has no lasting effect on the
  modelled state.
- Geocoding through Nominatim and the `suntime` sunrise/sunset computation
  (main.py:147-158): network and floating-point libraries. Sunrise and
  sunset are inputs, as instants of their day.
- Exceptions raised before the loop starts (for example by the geocoder):
  the `finally` block also runs then, but the model covers only exits from the
  polling loop.
- Exceptions raised part-way through a job's action: a raising pass is
  modelled as raising before any of its jobs run.
- The `schedule` library's next-run and due-time computation inside
  `run_pending`, and the order in which it sorts due jobs: foreign code
  that is not part of this model. The jobs due in each pass, and their
  order, are an input.
- Clock.Parse: a strict inverse of the trigger format, not the `schedule`
  library's own parser, which is not part of this model.
- `time.sleep`, `datetime.now()` and the timestamp text of each log line:
  the log is a sequence of message kinds, and the startup time is an input.
- The traceback text written by `logging.exception`: modelled as one
  ExceptionTrace entry in the same log.
- `measurements` (main.py:109-114): a stub that only appends a log line,
  which is what the model does.
- Daylight-saving transitions: a whole-hour shift is modelled as
  wall-clock arithmetic, the way a timedelta acts on an aware datetime's
  fields.
- The polling loop never ends on its own. The model follows it over any
  finite prefix of its passes; an unexited prefix ends as StillRunning.
