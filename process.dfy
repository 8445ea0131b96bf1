/**
 * The controller process as it runs: one object holding the job registry,
 * the levels of the light and pump outputs and the lines of the log file,
 * changed in place by each operation. Every method is proved to leave the
 * object in the state the matching function of module Control describes.
 */
module Process {
  import opened Clock
  import opened Registry
  import Control
  import LightWindow
  import Reconcile

  class Controller {
    var jobs: seq<Job>
    var light: bool
    var pump: bool
    var log: seq<Control.Message>

    /** The object's state as a value. */
    function View(): Control.State
      reads this
    {
      Control.State(jobs, light, pump, log)
    }

    /**
     * A fresh process: the outputs are set up low, the registry is empty,
     * and the log file holds whatever earlier runs appended to it.
     */
    constructor (earlier: seq<Control.Message>)
      ensures View() == Control.State([], false, false, earlier)
    {
      jobs := [];
      light := false;
      pump := false;
      log := earlier;
    }

    method LightOn()
      modifies this
      ensures View() == Control.LightOn(old(View()))
    {
      light := true;
      log := log + [Control.LightsTurnedOn];
    }

    method LightOff()
      modifies this
      ensures View() == Control.LightOff(old(View()))
    {
      light := false;
      log := log + [Control.LightsTurnedOff];
    }

    /** Derives the window again, clears the light tag and registers the window's two jobs. */
    method LightScheduleUpdate(sunrise: Seconds, sunset: Seconds)
      modifies this
      ensures View() == Control.LightScheduleUpdate(old(View()), sunrise, sunset)
    {
      var onTime := LightWindow.LightOnTime(sunset);
      var offTime := LightWindow.LightOffTime(sunrise);
      var cleared := Clear(jobs, LightTask);
      var onJob := Job(LightTask, DailyAt(Format(onTime)), LightOnAction);
      var offJob := Job(LightTask, DailyAt(Format(offTime)), LightOffAction);
      jobs := cleared + [onJob];
      jobs := jobs + [offJob];
      assert jobs == cleared + Control.WindowJobs(sunrise, sunset);
      log := log + [Control.SunTimesUpdated];
    }

    /** Registers a pump-off job (without clearing earlier ones), then drives the pump high. */
    method PumpOn(interval: int)
      modifies this
      ensures View() == Control.PumpOn(old(View()), interval)
      ensures Count(jobs, PumpOffTask) == Count(old(jobs), PumpOffTask) + 1
      ensures forall u :: u != PumpOffTask ==> Tagged(jobs, u) == Tagged(old(jobs), u)
    {
      jobs := jobs + [Control.PumpOffJob(interval)];
      pump := true;
      log := log + [Control.PumpTurnedOn];
      Control.PumpOnAddsOneOffJob(old(View()), interval);
    }

    /** Clears the pump-off tag and drives the pump low. */
    method PumpOff()
      modifies this
      ensures View() == Control.PumpOff(old(View()))
      ensures Count(jobs, PumpOffTask) == 0
      ensures forall u :: u != PumpOffTask ==> Tagged(jobs, u) == Tagged(old(jobs), u)
    {
      ClearKeepsOthers(jobs, PumpOffTask);
      jobs := Clear(jobs, PumpOffTask);
      pump := false;
      log := log + [Control.PumpTurnedOff];
    }

    method Measurements()
      modifies this
      ensures View() == Control.Measurements(old(View()))
    {
      log := log + [Control.MeasurementsMade];
    }

    /** Calls a job's action. */
    method Fire(a: Action)
      modifies this
      ensures View() == Control.Fire(old(View()), a)
    {
      match a
      case LightOnAction => LightOn();
      case LightOffAction => LightOff();
      case RefreshAction(sunrise, sunset) => LightScheduleUpdate(sunrise, sunset);
      case PumpOnAction(interval) => PumpOn(interval);
      case PumpOffAction => PumpOff();
      case MeasureAction => Measurements();
    }

    /**
     * One poll: the due jobs are picked out of the registry first and then
     * run in order, so a job that an action registers does not run in the
     * same poll.
     */
    method RunPending(picks: seq<nat>)
      modifies this
      ensures View() == Control.RunPending(old(View()), picks)
    {
      var due := Due(jobs, picks);
      var i := 0;
      while i < |due|
        invariant 0 <= i <= |due|
        invariant View() == Control.FireAll(old(View()), due[..i])
      {
        assert due[..i + 1][..i] == due[..i];
        Fire(due[i].action);
        i := i + 1;
      }
      assert due[..|due|] == due;
    }

    /**
     * The startup check: drives the light high when the current hour and
     * minute pass the comparison with the window's ends, then logs.
     */
    method Startup(now: HourMinute, onTime: HourMinute, offTime: HourMinute) returns (action: bool)
      modifies this
      ensures action == Reconcile.LightsOnAtStartup(now, onTime, offTime)
      ensures View() == Control.Startup(old(View()), now, onTime, offTime)
    {
      action := false;
      if now.hour > onTime.hour || now.hour < offTime.hour {
        if now.minute > onTime.minute || now.minute < offTime.minute {
          light := true;
          action := true;
        }
      }
      log := log + [Control.ProgramStarted];
      if action {
        log := log + [Control.LightsTurnedOn];
      }
    }

    /** Registers the five jobs of a run, each under its own tag. */
    method Setup(onTime: HourMinute, offTime: HourMinute, sunrise: Seconds, sunset: Seconds)
      requires Valid(onTime) && Valid(offTime)
      modifies this
      ensures View() == Control.Setup(old(View()), onTime, offTime, sunrise, sunset)
    {
      jobs := jobs + [Job(LightTask, DailyAt(Format(onTime)), LightOnAction)];
      jobs := jobs + [Job(LightTask, DailyAt(Format(offTime)), LightOffAction)];
      jobs := jobs + [Control.RefreshJob(sunrise, sunset)];
      jobs := jobs + [Control.PumpOnJob()];
      jobs := jobs + [Control.MeasureJob()];
    }

    /** Drives both outputs low and clears every job. */
    method Cleanup()
      modifies this
      ensures View() == Control.Cleanup(old(View()))
    {
      light := false;
      pump := false;
      jobs := [];
    }

    /**
     * A whole run over a finite prefix `trace` of the polling loop's
     * passes: setup, the startup check, job registration, then the loop,
     * which polls and reads the stop input until the input is high or an
     * exception is raised; on either exit the exception (if any) is logged
     * and the cleanup runs.
     */
    method Run(sunrise: Seconds, sunset: Seconds, now: HourMinute, trace: seq<Control.Tick>)
      returns (exit: Control.Exit)
      modifies this
      ensures (View(), exit) == Control.Main(old(View()), sunrise, sunset, now, trace)
      ensures exit != Control.StillRunning ==> !light && !pump && jobs == []
    {
      light := false;
      pump := false;
      var onTime := LightWindow.LightOnTime(sunset);
      var offTime := LightWindow.LightOffTime(sunrise);
      var _ := Startup(now, onTime, offTime);
      Setup(onTime, offTime, sunrise, sunset);
      ghost var goal := Control.Loop(View(), trace);

      exit := Control.StillRunning;
      var i := 0;
      while i < |trace| && exit == Control.StillRunning
        invariant 0 <= i <= |trace|
        invariant exit == Control.StillRunning ==> Control.Loop(View(), trace[i..]) == goal
        invariant exit != Control.StillRunning ==> (Control.Cleanup(View()), exit) == goal
      {
        assert trace[i..][1..] == trace[i + 1..];
        match trace[i] {
          case Fault =>
            log := log + [Control.ExceptionTrace];
            exit := Control.Faulted;
          case Poll(picks, stop) =>
            RunPending(picks);
            if stop {
              exit := Control.Stopped;
            }
        }
        i := i + 1;
      }
      if exit != Control.StillRunning {
        Cleanup();
      }
    }
  }
}
