/**
 * The controller's behaviour on values: its whole state (the job registry,
 * the light and pump outputs, the activity log) and what each operation
 * makes of it. These functions are the specification that the methods of
 * Process.Controller are proved against, and the lemmas here state what
 * the controller promises about them.
 */
module Control {
  import opened Clock
  import opened Registry
  import LightWindow
  import Reconcile

  /** Hours between pump turn-ons. */
  const PumpCycleTime: int := 3
  /** Minutes the pump stays on each time. */
  const PumpOnInterval: int := 30
  /** Minutes between measurements. */
  const MeasureInterval: int := 60
  /** The daily time at which the light window is derived again. */
  const RefreshAt: string := "23:45"

  /** The kinds of line the controller appends to its log file. */
  datatype Message =
    | ProgramStarted
    | LightsTurnedOn
    | LightsTurnedOff
    | SunTimesUpdated
    | PumpTurnedOn
    | PumpTurnedOff
    | MeasurementsMade
    | ExceptionTrace

  /** The output levels are `true` for high, `false` for low. */
  datatype State = State(jobs: seq<Job>, light: bool, pump: bool, log: seq<Message>)

  // ---------------------------------------------------------------------
  // The job actions

  function LightOn(s: State): State {
    s.(light := true, log := s.log + [LightsTurnedOn])
  }

  function LightOff(s: State): State {
    s.(light := false, log := s.log + [LightsTurnedOff])
  }

  /** The two daily jobs of a light window, under the light tag. */
  function LightJobs(on: HourMinute, off: HourMinute): seq<Job>
    requires Valid(on) && Valid(off)
  {
    [Job(LightTask, DailyAt(Format(on)), LightOnAction),
     Job(LightTask, DailyAt(Format(off)), LightOffAction)]
  }

  /** The light jobs of the window derived from a sunrise and a sunset. */
  function WindowJobs(sunrise: Seconds, sunset: Seconds): seq<Job> {
    LightJobs(LightWindow.LightOnTime(sunset), LightWindow.LightOffTime(sunrise))
  }

  function LightScheduleUpdate(s: State, sunrise: Seconds, sunset: Seconds): State {
    s.(jobs := Clear(s.jobs, LightTask) + WindowJobs(sunrise, sunset),
       log := s.log + [SunTimesUpdated])
  }

  /** The job that turns the pump off again, repeating every `interval` minutes. */
  function PumpOffJob(interval: int): Job {
    Job(PumpOffTask, EveryMinutes(interval), PumpOffAction)
  }

  function PumpOn(s: State, interval: int): State {
    s.(jobs := s.jobs + [PumpOffJob(interval)], pump := true, log := s.log + [PumpTurnedOn])
  }

  function PumpOff(s: State): State {
    s.(jobs := Clear(s.jobs, PumpOffTask), pump := false, log := s.log + [PumpTurnedOff])
  }

  function Measurements(s: State): State {
    s.(log := s.log + [MeasurementsMade])
  }

  /** Running a job's action. */
  function Fire(s: State, a: Action): State {
    match a
    case LightOnAction => LightOn(s)
    case LightOffAction => LightOff(s)
    case RefreshAction(sunrise, sunset) => LightScheduleUpdate(s, sunrise, sunset)
    case PumpOnAction(interval) => PumpOn(s, interval)
    case PumpOffAction => PumpOff(s)
    case MeasureAction => Measurements(s)
  }

  /** Running the actions of `due` one after another, in order. */
  function FireAll(s: State, due: seq<Job>): State
    decreases |due|
  {
    if due == [] then s
    else Fire(FireAll(s, due[..|due| - 1]), due[|due| - 1].action)
  }

  /** One poll of the registry: the due jobs are picked out first, then run. */
  function RunPending(s: State, picks: seq<nat>): State {
    FireAll(s, Due(s.jobs, picks))
  }

  // ---------------------------------------------------------------------
  // Startup, job setup, the polling loop and the final cleanup

  function Startup(s: State, now: HourMinute, on: HourMinute, off: HourMinute): State {
    if Reconcile.LightsOnAtStartup(now, on, off) then
      s.(light := true, log := s.log + [ProgramStarted, LightsTurnedOn])
    else
      s.(log := s.log + [ProgramStarted])
  }

  function RefreshJob(sunrise: Seconds, sunset: Seconds): Job {
    Job(LightUpdateTask, DailyAt(RefreshAt), RefreshAction(sunrise, sunset))
  }

  function PumpOnJob(): Job {
    Job(PumpOnTask, EveryHours(PumpCycleTime), PumpOnAction(PumpOnInterval))
  }

  function MeasureJob(): Job {
    Job(MeasurementTask, EveryMinutes(MeasureInterval), MeasureAction)
  }

  /** The five jobs registered before the polling loop starts. */
  function SetupJobs(on: HourMinute, off: HourMinute, sunrise: Seconds, sunset: Seconds): seq<Job>
    requires Valid(on) && Valid(off)
  {
    LightJobs(on, off) + [RefreshJob(sunrise, sunset)] + [PumpOnJob()] + [MeasureJob()]
  }

  function Setup(s: State, on: HourMinute, off: HourMinute, sunrise: Seconds, sunset: Seconds): State
    requires Valid(on) && Valid(off)
  {
    s.(jobs := s.jobs + SetupJobs(on, off, sunrise, sunset))
  }

  /** Both outputs low and every job gone. */
  function Cleanup(s: State): State {
    s.(light := false, pump := false, jobs := [])
  }

  /**
   * What happens in one pass of the polling loop: the due jobs run and the
   * stop input is then read, or an exception is raised.
   */
  datatype Tick = Poll(picks: seq<nat>, stop: bool) | Fault

  /** How the polling loop ended, if it did. */
  datatype Exit = Stopped | Faulted | StillRunning

  predicate Continues(t: Tick) {
    t.Poll? && !t.stop
  }

  /**
   * The polling loop over a finite prefix of its passes. An exception is
   * logged and then, like a stop, followed by the cleanup; a loop that has
   * not exited when the prefix ends is still running.
   */
  function Loop(s: State, trace: seq<Tick>): (State, Exit)
    decreases |trace|
  {
    if trace == [] then (s, StillRunning)
    else
      match trace[0]
      case Fault => (Cleanup(s.(log := s.log + [ExceptionTrace])), Faulted)
      case Poll(picks, stop) =>
        var next := RunPending(s, picks);
        if stop then (Cleanup(next), Stopped) else Loop(next, trace[1..])
  }

  /** Everything before the polling loop: outputs set up low, startup check, job setup. */
  function Boot(s: State, sunrise: Seconds, sunset: Seconds, now: HourMinute): State {
    var on, off := LightWindow.LightOnTime(sunset), LightWindow.LightOffTime(sunrise);
    Setup(Startup(s.(light := false, pump := false), now, on, off), on, off, sunrise, sunset)
  }

  /** A run of the controller process. */
  function Main(s: State, sunrise: Seconds, sunset: Seconds, now: HourMinute, trace: seq<Tick>): (State, Exit) {
    Loop(Boot(s, sunrise, sunset, now), trace)
  }

  // ---------------------------------------------------------------------
  // The light window in the registry

  /**
   * A refresh leaves exactly the two jobs of the new window under the light
   * tag, the on job first, and every other tag as it was.
   */
  lemma LightScheduleUpdateInstallsWindow(s: State, sunrise: Seconds, sunset: Seconds)
    ensures var r, on, off := LightScheduleUpdate(s, sunrise, sunset),
                              LightWindow.LightOnTime(sunset), LightWindow.LightOffTime(sunrise);
            && Tagged(r.jobs, LightTask) == [Job(LightTask, DailyAt(Format(on)), LightOnAction),
                                             Job(LightTask, DailyAt(Format(off)), LightOffAction)]
            && Count(r.jobs, LightTask) == 2
            && (forall u :: u != LightTask ==> Tagged(r.jobs, u) == Tagged(s.jobs, u))
            && r.light == s.light && r.pump == s.pump
            && r.log == s.log + [SunTimesUpdated]
  {
    var js := WindowJobs(sunrise, sunset);
    ClearKeepsOthers(s.jobs, LightTask);
    forall u
      ensures Tagged(Clear(s.jobs, LightTask) + js, u)
           == Tagged(Clear(s.jobs, LightTask), u) + (if u == LightTask then js else [])
    {
      LightJobsTagged(Clear(s.jobs, LightTask), js, u);
    }
  }

  /** Appending a pair of light jobs adds them to the light tag and to no other. */
  lemma LightJobsTagged(jobs: seq<Job>, js: seq<Job>, u: Tag)
    requires |js| == 2 && js[0].tag == LightTask && js[1].tag == LightTask
    ensures Tagged(jobs + js, u) == Tagged(jobs, u) + (if u == LightTask then js else [])
  {
    assert jobs + js == jobs + [js[0]] + [js[1]];
    TaggedAppend(jobs + [js[0]], js[1], u);
    TaggedAppend(jobs, js[0], u);
  }

  /** Clearing the light tag after appending a pair of light jobs drops the pair. */
  lemma LightJobsCleared(jobs: seq<Job>, js: seq<Job>)
    requires |js| == 2 && js[0].tag == LightTask && js[1].tag == LightTask
    ensures Clear(jobs + js, LightTask) == Clear(jobs, LightTask)
  {
    assert jobs + js == jobs + [js[0]] + [js[1]];
    ClearAppend(jobs + [js[0]], js[1], LightTask);
    ClearAppend(jobs, js[0], LightTask);
  }

  lemma ReplaceLightJobsIdempotent(jobs: seq<Job>, js: seq<Job>)
    requires |js| == 2 && js[0].tag == LightTask && js[1].tag == LightTask
    ensures Clear(Clear(jobs, LightTask) + js, LightTask) + js == Clear(jobs, LightTask) + js
  {
    LightJobsCleared(Clear(jobs, LightTask), js);
    ClearIdempotent(jobs, LightTask);
  }

  /**
   * A second refresh with the same sun times leaves the registry as the
   * first one did.
   */
  lemma LightScheduleUpdateIdempotent(s: State, sunrise: Seconds, sunset: Seconds)
    ensures LightScheduleUpdate(LightScheduleUpdate(s, sunrise, sunset), sunrise, sunset).jobs
         == LightScheduleUpdate(s, sunrise, sunset).jobs
  {
    var js := WindowJobs(sunrise, sunset);
    assert |js| == 2 && js[0].tag == LightTask && js[1].tag == LightTask;
    ReplaceLightJobsIdempotent(s.jobs, js);
  }

  /**
   * The trigger texts of the light jobs read back as the on time, sunset
   * less two hours, and the off time, sunrise plus two hours, on a clock
   * that wraps at midnight.
   */
  lemma LightTriggersEncodeWindow(sunrise: Seconds, sunset: Seconds)
    ensures var js := WindowJobs(sunrise, sunset);
            && |js| == 2 && js[0].trigger.DailyAt? && js[1].trigger.DailyAt?
            && js[0].action == LightOnAction && js[1].action == LightOffAction
            && Parse(js[0].trigger.at).Some? && Parse(js[1].trigger.at).Some?
            && MinuteOfDay(Parse(js[0].trigger.at).value) == (sunset / 60 - 60 * LightWindow.TimeBeforeSunset) % MinutesPerDay
            && MinuteOfDay(Parse(js[1].trigger.at).value) == (sunrise / 60 + 60 * LightWindow.TimeAfterSunrise) % MinutesPerDay
  {
    ParseFormat(LightWindow.LightOnTime(sunset));
    ParseFormat(LightWindow.LightOffTime(sunrise));
  }

  // ---------------------------------------------------------------------
  // The pump

  /**
   * Turning the pump on appends one pump-off job and removes nothing: the
   * registry before is a prefix of the registry after.
   */
  lemma PumpOnAddsOneOffJob(s: State, interval: int)
    ensures var r := PumpOn(s, interval);
            && |r.jobs| == |s.jobs| + 1 && r.jobs[..|s.jobs|] == s.jobs
            && Tagged(r.jobs, PumpOffTask) == Tagged(s.jobs, PumpOffTask) + [PumpOffJob(interval)]
            && Count(r.jobs, PumpOffTask) == Count(s.jobs, PumpOffTask) + 1
            && (forall u :: u != PumpOffTask ==> Tagged(r.jobs, u) == Tagged(s.jobs, u))
            && r.pump && r.light == s.light
            && r.log == s.log + [PumpTurnedOn]
  {
    forall u
      ensures Tagged(s.jobs + [PumpOffJob(interval)], u)
           == Tagged(s.jobs, u) + (if u == PumpOffTask then [PumpOffJob(interval)] else [])
    {
      TaggedAppend(s.jobs, PumpOffJob(interval), u);
    }
  }

  /** `k` pump turn-ons in a row, with no turn-off between them. */
  ghost function PumpOnTimes(s: State, k: nat, interval: int): State {
    if k == 0 then s else PumpOn(PumpOnTimes(s, k - 1, interval), interval)
  }

  /**
   * Since a turn-on does not clear the pump-off tag first, `k` turn-ons
   * leave `k` more pump-off jobs, and the pump-on job is untouched.
   */
  lemma {:induction false} PumpOnRepeated(s: State, k: nat, interval: int)
    ensures Count(PumpOnTimes(s, k, interval).jobs, PumpOffTask) == Count(s.jobs, PumpOffTask) + k
    ensures Tagged(PumpOnTimes(s, k, interval).jobs, PumpOnTask) == Tagged(s.jobs, PumpOnTask)
    ensures k > 0 ==> PumpOnTimes(s, k, interval).pump
  {
    if k > 0 {
      var before := PumpOnTimes(s, k - 1, interval);
      var jobs := before.jobs + [PumpOffJob(interval)];
      assert PumpOnTimes(s, k, interval) == PumpOn(before, interval);
      PumpOnRepeated(s, k - 1, interval);
      TaggedAppend(before.jobs, PumpOffJob(interval), PumpOffTask);
      TaggedAppend(before.jobs, PumpOffJob(interval), PumpOnTask);
      assert Count(jobs, PumpOffTask) == Count(before.jobs, PumpOffTask) + 1;
    }
  }

  /**
   * Turning the pump off removes every pump-off job, leaves every other tag
   * (the pump-on job among them) as it was, and leaves the pump low.
   */
  lemma PumpOffClearsOffJobs(s: State)
    ensures var r := PumpOff(s);
            && Count(r.jobs, PumpOffTask) == 0
            && (forall u :: u != PumpOffTask ==> Tagged(r.jobs, u) == Tagged(s.jobs, u))
            && Tagged(r.jobs, PumpOnTask) == Tagged(s.jobs, PumpOnTask)
            && !r.pump && r.light == s.light
            && r.log == s.log + [PumpTurnedOff]
  {
    ClearKeepsOthers(s.jobs, PumpOffTask);
  }

  /** Turning the pump off twice leaves the registry and outputs as once; only the log differs. */
  lemma PumpOffTwice(s: State)
    ensures var once, twice := PumpOff(s), PumpOff(PumpOff(s));
            && twice.jobs == once.jobs && twice.pump == once.pump && twice.light == once.light
            && twice.log == once.log + [PumpTurnedOff]
  {
    ClearIdempotent(s.jobs, PumpOffTask);
  }

  /**
   * The repeating pump-off job fires at most once: its own action removes
   * it, along with any other pump-off job, whatever the registry held.
   */
  lemma PumpOffJobIsOneShot(s: State, interval: int)
    ensures PumpOffJob(interval) !in Fire(s, PumpOffJob(interval).action).jobs
  {
    ClearMembers(s.jobs, PumpOffTask, PumpOffJob(interval));
  }

  // ---------------------------------------------------------------------
  // Startup

  /**
   * The startup check switches the light on exactly when its condition
   * holds, and otherwise touches no output. "Program started" is always
   * appended, followed at once by "Lights turned on" exactly when the
   * light was switched on; nothing already in the log is removed.
   */
  lemma StartupOutcome(s: State, now: HourMinute, on: HourMinute, off: HourMinute)
    ensures var r, act := Startup(s, now, on, off), Reconcile.LightsOnAtStartup(now, on, off);
            && s.log <= r.log
            && |r.log| == |s.log| + (if act then 2 else 1)
            && r.log[|s.log|] == ProgramStarted
            && (act <==> |r.log| > |s.log| + 1 && r.log[|s.log| + 1] == LightsTurnedOn)
            && (act ==> r.light)
            && (!act ==> r.light == s.light)
            && r.jobs == s.jobs && r.pump == s.pump
  {
  }

  // ---------------------------------------------------------------------
  // Setup, the registry while the loop runs, and the exit

  /**
   * From an empty registry, setup leaves five jobs: two under the light
   * tag, the window's on and off jobs, and one under each of the refresh,
   * pump-on and measurement tags; none under the pump-off tag.
   */
  lemma SetupInstallsFiveJobs(s: State, on: HourMinute, off: HourMinute, sunrise: Seconds, sunset: Seconds)
    requires Valid(on) && Valid(off)
    requires s.jobs == []
    ensures var r := Setup(s, on, off, sunrise, sunset);
            && |r.jobs| == 5
            && Tagged(r.jobs, LightTask) == LightJobs(on, off)
            && Tagged(r.jobs, LightUpdateTask) == [RefreshJob(sunrise, sunset)]
            && Tagged(r.jobs, PumpOnTask) == [PumpOnJob()]
            && Tagged(r.jobs, MeasurementTask) == [MeasureJob()]
            && Count(r.jobs, PumpOffTask) == 0
            && r.light == s.light && r.pump == s.pump && r.log == s.log
  {
    assert s.jobs + SetupJobs(on, off, sunrise, sunset) == SetupJobs(on, off, sunrise, sunset);
    SetupJobsTagged(on, off, sunrise, sunset, LightTask);
    SetupJobsTagged(on, off, sunrise, sunset, LightUpdateTask);
    SetupJobsTagged(on, off, sunrise, sunset, PumpOnTask);
    SetupJobsTagged(on, off, sunrise, sunset, PumpOffTask);
    SetupJobsTagged(on, off, sunrise, sunset, MeasurementTask);
  }

  lemma SetupJobsTagged(on: HourMinute, off: HourMinute, sunrise: Seconds, sunset: Seconds, u: Tag)
    requires Valid(on) && Valid(off)
    ensures Tagged(SetupJobs(on, off, sunrise, sunset), u) ==
            match u
            case LightTask => LightJobs(on, off)
            case LightUpdateTask => [RefreshJob(sunrise, sunset)]
            case PumpOnTask => [PumpOnJob()]
            case MeasurementTask => [MeasureJob()]
            case PumpOffTask => []
  {
    var lj, a, b, c := LightJobs(on, off), RefreshJob(sunrise, sunset), PumpOnJob(), MeasureJob();
    TaggedAppend(lj + [a] + [b], c, u);
    TaggedAppend(lj + [a], b, u);
    TaggedAppend(lj, a, u);
    LightJobsTagged([], lj, u);
    assert [] + lj == lj;
  }

  /**
   * What the registry holds while the polling loop runs: the light jobs of
   * the startup window, the refresh, pump-on and measurement jobs of setup,
   * and any number of pump-off jobs. The refresh job carries the sun times
   * of the startup date, so every refresh derives the same window again.
   */
  ghost predicate Running(s: State, sunrise: Seconds, sunset: Seconds) {
    Shape(s.jobs, WindowJobs(sunrise, sunset), RefreshJob(sunrise, sunset))
  }

  /** The registry shape of Running, for a given pair of light jobs and refresh job. */
  ghost predicate Shape(jobs: seq<Job>, window: seq<Job>, refresh: Job) {
    && Tagged(jobs, LightTask) == window
    && Tagged(jobs, LightUpdateTask) == [refresh]
    && Tagged(jobs, PumpOnTask) == [PumpOnJob()]
    && Tagged(jobs, MeasurementTask) == [MeasureJob()]
    && (forall j :: j in Tagged(jobs, PumpOffTask) ==> j == PumpOffJob(PumpOnInterval))
  }

  lemma RefreshKeepsShape(jobs: seq<Job>, window: seq<Job>, refresh: Job)
    requires Shape(jobs, window, refresh)
    requires |window| == 2 && window[0].tag == LightTask && window[1].tag == LightTask
    ensures Shape(Clear(jobs, LightTask) + window, window, refresh)
  {
    var c := Clear(jobs, LightTask);
    ClearKeepsOthers(jobs, LightTask);
    LightJobsTagged(c, window, LightTask);
    LightJobsTagged(c, window, LightUpdateTask);
    LightJobsTagged(c, window, PumpOnTask);
    LightJobsTagged(c, window, PumpOffTask);
    LightJobsTagged(c, window, MeasurementTask);
  }

  lemma PumpOnKeepsShape(jobs: seq<Job>, window: seq<Job>, refresh: Job)
    requires Shape(jobs, window, refresh)
    ensures Shape(jobs + [PumpOffJob(PumpOnInterval)], window, refresh)
  {
    forall u
      ensures Tagged(jobs + [PumpOffJob(PumpOnInterval)], u)
           == Tagged(jobs, u) + (if u == PumpOffTask then [PumpOffJob(PumpOnInterval)] else [])
    {
      TaggedAppend(jobs, PumpOffJob(PumpOnInterval), u);
    }
  }

  lemma PumpOffKeepsShape(jobs: seq<Job>, window: seq<Job>, refresh: Job)
    requires Shape(jobs, window, refresh)
    ensures Shape(Clear(jobs, PumpOffTask), window, refresh)
  {
    ClearKeepsOthers(jobs, PumpOffTask);
  }

  /** The actions that jobs of a running registry call. */
  predicate Allowed(a: Action, sunrise: Seconds, sunset: Seconds) {
    a.LightOnAction? || a.LightOffAction? || a == RefreshAction(sunrise, sunset) ||
    a == PumpOnAction(PumpOnInterval) || a.PumpOffAction? || a.MeasureAction?
  }

  lemma BootStartsRunning(s: State, sunrise: Seconds, sunset: Seconds, now: HourMinute)
    requires s.jobs == []
    ensures Running(Boot(s, sunrise, sunset, now), sunrise, sunset)
  {
    var on, off := LightWindow.LightOnTime(sunset), LightWindow.LightOffTime(sunrise);
    var st := Startup(s.(light := false, pump := false), now, on, off);
    SetupInstallsFiveJobs(st, on, off, sunrise, sunset);
  }

  lemma RunningJobsAllowed(s: State, sunrise: Seconds, sunset: Seconds, j: Job)
    requires Running(s, sunrise, sunset) && j in s.jobs
    ensures Allowed(j.action, sunrise, sunset)
  {
    TaggedMembers(s.jobs, j.tag, j);
  }

  lemma FireKeepsRunning(s: State, sunrise: Seconds, sunset: Seconds, a: Action)
    requires Running(s, sunrise, sunset) && Allowed(a, sunrise, sunset)
    ensures Running(Fire(s, a), sunrise, sunset)
  {
    var window, refresh := WindowJobs(sunrise, sunset), RefreshJob(sunrise, sunset);
    match a
    case RefreshAction(_, _) =>
      assert |window| == 2 && window[0].tag == LightTask && window[1].tag == LightTask;
      RefreshKeepsShape(s.jobs, window, refresh);
      assert Fire(s, a).jobs == Clear(s.jobs, LightTask) + window;
    case PumpOnAction(_) =>
      PumpOnKeepsShape(s.jobs, window, refresh);
      assert Fire(s, a).jobs == s.jobs + [PumpOffJob(PumpOnInterval)];
    case PumpOffAction =>
      PumpOffKeepsShape(s.jobs, window, refresh);
      assert Fire(s, a).jobs == Clear(s.jobs, PumpOffTask);
    case _ =>
  }

  lemma {:induction false} FireAllKeepsRunning(s: State, sunrise: Seconds, sunset: Seconds, due: seq<Job>)
    requires Running(s, sunrise, sunset)
    requires forall j :: j in due ==> Allowed(j.action, sunrise, sunset)
    ensures Running(FireAll(s, due), sunrise, sunset)
    decreases |due|
  {
    if due != [] {
      var front, last := due[..|due| - 1], due[|due| - 1];
      assert forall j :: j in front ==> j in due;
      assert last in due;
      FireAllKeepsRunning(s, sunrise, sunset, front);
      FireKeepsRunning(FireAll(s, front), sunrise, sunset, last.action);
    }
  }

  /**
   * A poll keeps the registry running: the jobs it fires were all in the
   * registry when the poll began, so each calls an allowed action.
   */
  lemma RunPendingKeepsRunning(s: State, sunrise: Seconds, sunset: Seconds, picks: seq<nat>)
    requires Running(s, sunrise, sunset)
    ensures Running(RunPending(s, picks), sunrise, sunset)
  {
    var due := Due(s.jobs, picks);
    forall j | j in due
      ensures Allowed(j.action, sunrise, sunset)
    {
      RunningJobsAllowed(s, sunrise, sunset, j);
    }
    FireAllKeepsRunning(s, sunrise, sunset, due);
  }

  lemma {:induction false} LoopKeepsRunning(s: State, sunrise: Seconds, sunset: Seconds, trace: seq<Tick>)
    requires Running(s, sunrise, sunset)
    ensures Loop(s, trace).1 == StillRunning ==> Running(Loop(s, trace).0, sunrise, sunset)
    decreases |trace|
  {
    if trace != [] && trace[0].Poll? {
      RunPendingKeepsRunning(s, sunrise, sunset, trace[0].picks);
      LoopKeepsRunning(RunPending(s, trace[0].picks), sunrise, sunset, trace[1..]);
    }
  }

  /** Every exit from the loop, by the stop input or by an exception, ends with both outputs low and no job left. */
  lemma {:induction false} LoopExitCleansUp(s: State, trace: seq<Tick>)
    ensures var (r, e) := Loop(s, trace);
            e != StillRunning ==> !r.light && !r.pump && r.jobs == []
    decreases |trace|
  {
    if trace != [] && trace[0].Poll? && !trace[0].stop {
      LoopExitCleansUp(RunPending(s, trace[0].picks), trace[1..]);
    }
  }

  /** The loop is still running exactly when no pass so far raised an exception or read the stop input high. */
  lemma {:induction false} LoopRunsOn(s: State, trace: seq<Tick>)
    ensures Loop(s, trace).1 == StillRunning <==> forall i :: 0 <= i < |trace| ==> Continues(trace[i])
    decreases |trace|
  {
    if trace != [] && Continues(trace[0]) {
      LoopRunsOn(RunPending(s, trace[0].picks), trace[1..]);
      assert forall i :: 1 <= i < |trace| ==> trace[i] == trace[1..][i - 1];
    }
  }

  /** The loop exits at the first pass that raises or reads stop, and the kind of exit is that pass's. */
  lemma {:induction false} LoopExitsAtFirstStop(s: State, trace: seq<Tick>, k: nat)
    requires k < |trace| && !Continues(trace[k])
    requires forall i :: 0 <= i < k ==> Continues(trace[i])
    ensures Loop(s, trace).1 == if trace[k].Fault? then Faulted else Stopped
    decreases k
  {
    if k > 0 {
      assert Continues(trace[0]);
      LoopExitsAtFirstStop(RunPending(s, trace[0].picks), trace[1..], k - 1);
    }
  }

  // ---------------------------------------------------------------------
  // The log

  lemma FireKeepsLog(s: State, a: Action)
    ensures s.log <= Fire(s, a).log
  {
  }

  lemma {:induction false} FireAllKeepsLog(s: State, due: seq<Job>)
    ensures s.log <= FireAll(s, due).log
    decreases |due|
  {
    if due != [] {
      FireAllKeepsLog(s, due[..|due| - 1]);
      FireKeepsLog(FireAll(s, due[..|due| - 1]), due[|due| - 1].action);
    }
  }

  /** The log file is only ever appended to: the loop keeps every line already in it. */
  lemma {:induction false} LoopKeepsLog(s: State, trace: seq<Tick>)
    ensures s.log <= Loop(s, trace).0.log
    decreases |trace|
  {
    if trace != [] && trace[0].Poll? {
      FireAllKeepsLog(s, Due(s.jobs, trace[0].picks));
      LoopKeepsLog(RunPending(s, trace[0].picks), trace[1..]);
    }
  }

  // ---------------------------------------------------------------------
  // A whole run

  /**
   * A run of the process from a fresh registry: the log keeps its earlier
   * lines and then says "Program started"; while the loop runs the registry
   * is as Running describes; once the loop exits, both outputs are low and
   * no job is left.
   */
  lemma MainOutcome(s: State, sunrise: Seconds, sunset: Seconds, now: HourMinute, trace: seq<Tick>)
    requires s.jobs == []
    ensures var (r, e) := Main(s, sunrise, sunset, now, trace);
            && s.log + [ProgramStarted] <= r.log
            && (e == StillRunning ==> Running(r, sunrise, sunset))
            && (e != StillRunning ==> !r.light && !r.pump && r.jobs == [])
  {
    var b := Boot(s, sunrise, sunset, now);
    BootStartsRunning(s, sunrise, sunset, now);
    LoopKeepsRunning(b, sunrise, sunset, trace);
    LoopExitCleansUp(b, trace);
    LoopKeepsLog(b, trace);
  }

  lemma FormatEveningWindow(on: HourMinute, off: HourMinute)
    requires on == HourMinute(16, 30) && off == HourMinute(8, 15)
    ensures Format(on) == "16:30" && Format(off) == "08:15"
  {
  }

  /**
   * The end-to-end scenario: sunset 18:30 and sunrise 06:15 give the light
   * jobs "16:30" (on) and "08:15" (off); started at 22:00, the light is
   * switched on and the log says "Program started" then "Lights turned on".
   */
  lemma EveningScenario(s: State)
    requires s.jobs == [] && s.log == []
    ensures var b := Boot(s, 6 * 3600 + 15 * 60, 18 * 3600 + 30 * 60, HourMinute(22, 0));
            && b.light && !b.pump
            && b.log == [ProgramStarted, LightsTurnedOn]
            && Tagged(b.jobs, LightTask) == [Job(LightTask, DailyAt("16:30"), LightOnAction),
                                             Job(LightTask, DailyAt("08:15"), LightOffAction)]
  {
    var sunrise, sunset, now := 6 * 3600 + 15 * 60, 18 * 3600 + 30 * 60, HourMinute(22, 0);
    LightWindow.EveningWindowExample();
    var on, off := LightWindow.LightOnTime(sunset), LightWindow.LightOffTime(sunrise);
    FormatEveningWindow(on, off);
    Reconcile.StartupAtTenPmSwitchesOn();
    var st := Startup(s.(light := false, pump := false), now, on, off);
    StartupOutcome(s.(light := false, pump := false), now, on, off);
    SetupInstallsFiveJobs(st, on, off, sunrise, sunset);
  }
}
