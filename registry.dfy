/**
 * The job registry as the controller uses it: an ordered list of jobs, each
 * carrying a tag, a trigger and the action it calls. The controller only
 * ever appends a job, clears every job under one tag, clears all jobs, and
 * (once per poll) picks out the jobs that are due.
 */
module Registry {
  import opened Clock

  /** The five labels the controller groups its jobs under. */
  datatype Tag = LightTask | LightUpdateTask | PumpOnTask | PumpOffTask | MeasurementTask

  /** When a job runs: daily at "HH:MM", or every so many minutes or hours. */
  datatype Trigger = DailyAt(at: string) | EveryMinutes(minutes: int) | EveryHours(hours: int)

  /**
   * What a job calls, with the arguments bound to it when it was
   * registered. Pin numbers and the log file name are left out: they are
   * the same in every call.
   */
  datatype Action =
    | LightOnAction
    | LightOffAction
    | RefreshAction(sunrise: Seconds, sunset: Seconds)
    | PumpOnAction(interval: int)
    | PumpOffAction
    | MeasureAction

  datatype Job = Job(tag: Tag, trigger: Trigger, action: Action)

  /** The jobs under tag `t`, in registry order. */
  function Tagged(jobs: seq<Job>, t: Tag): (r: seq<Job>)
    ensures |r| <= |jobs|
  {
    if jobs == [] then []
    else
      var last := jobs[|jobs| - 1];
      Tagged(jobs[..|jobs| - 1], t) + (if last.tag == t then [last] else [])
  }

  /** How many jobs carry tag `t`. */
  function Count(jobs: seq<Job>, t: Tag): nat {
    |Tagged(jobs, t)|
  }

  /**
   * Clearing a tag: every job under `t` goes, every other job stays, in
   * its order.
   */
  function Clear(jobs: seq<Job>, t: Tag): (r: seq<Job>)
    ensures Tagged(r, t) == []
  {
    if jobs == [] then []
    else
      var last, rest := jobs[|jobs| - 1], Clear(jobs[..|jobs| - 1], t);
      if last.tag == t then rest
      else
        var r := rest + [last];
        assert r[..|r| - 1] == rest;
        r
  }

  /** Appending a job adds it to its own tag's group, at the end, and to no other. */
  lemma TaggedAppend(jobs: seq<Job>, j: Job, t: Tag)
    ensures Tagged(jobs + [j], t) == Tagged(jobs, t) + (if j.tag == t then [j] else [])
  {
    assert (jobs + [j])[..|jobs|] == jobs;
  }

  /** Clearing after an append clears the earlier jobs and drops the new one exactly when it carries `t`. */
  lemma ClearAppend(jobs: seq<Job>, j: Job, t: Tag)
    ensures Clear(jobs + [j], t) == Clear(jobs, t) + (if j.tag == t then [] else [j])
  {
    assert (jobs + [j])[..|jobs|] == jobs;
  }

  /** Clearing tag `t` leaves the jobs under every other tag as they were, in order. */
  lemma {:induction false} ClearKeepsOthers(jobs: seq<Job>, t: Tag)
    ensures forall u :: u != t ==> Tagged(Clear(jobs, t), u) == Tagged(jobs, u)
  {
    if jobs != [] {
      var init, last := jobs[..|jobs| - 1], jobs[|jobs| - 1];
      assert jobs == init + [last];
      ClearKeepsOthers(init, t);
      forall u | u != t
        ensures Tagged(Clear(jobs, t), u) == Tagged(jobs, u)
      {
        if last.tag != t {
          TaggedAppend(Clear(init, t), last, u);
        }
      }
    }
  }

  /** The jobs under tag `t` are exactly the registered jobs that carry `t`. */
  lemma {:induction false} TaggedMembers(jobs: seq<Job>, t: Tag, j: Job)
    ensures j in Tagged(jobs, t) <==> j in jobs && j.tag == t
  {
    if jobs != [] {
      var init := jobs[..|jobs| - 1];
      TaggedMembers(init, t, j);
      assert jobs == init + [jobs[|jobs| - 1]];
    }
  }

  /** Clearing tag `t` keeps exactly the jobs of every other tag. */
  lemma {:induction false} ClearMembers(jobs: seq<Job>, t: Tag, j: Job)
    ensures j in Clear(jobs, t) <==> j in jobs && j.tag != t
  {
    if jobs != [] {
      var init := jobs[..|jobs| - 1];
      ClearMembers(init, t, j);
      assert jobs == init + [jobs[|jobs| - 1]];
    }
  }

  /** Clearing a tag that no job carries changes nothing, and is no error. */
  lemma {:induction false} ClearAbsent(jobs: seq<Job>, t: Tag)
    requires Count(jobs, t) == 0
    ensures Clear(jobs, t) == jobs
  {
    if jobs != [] {
      var init := jobs[..|jobs| - 1];
      ClearAbsent(init, t);
      assert jobs == init + [jobs[|jobs| - 1]];
    }
  }

  /** Clearing a tag twice is clearing it once. */
  lemma ClearIdempotent(jobs: seq<Job>, t: Tag)
    ensures Clear(Clear(jobs, t), t) == Clear(jobs, t)
  {
    ClearAbsent(Clear(jobs, t), t);
  }

  /**
   * The jobs due in one poll, taken before any of them runs: `picks`
   * names registry positions in the order they are to run; positions past
   * the end and repeated positions are skipped.
   */
  function Due(jobs: seq<Job>, picks: seq<nat>): (r: seq<Job>)
    ensures |r| <= |picks|
    ensures forall j :: j in r ==> j in jobs
  {
    if picks == [] then []
    else
      var earlier, k := picks[..|picks| - 1], picks[|picks| - 1];
      Due(jobs, earlier) + (if k < |jobs| && k !in earlier then [jobs[k]] else [])
  }

  /**
   * The multiset of the jobs at the positions named in `picks` that lie
   * below `n`, each position counted once however often it is named.
   */
  ghost function Selected(jobs: seq<Job>, picks: seq<nat>, n: nat): multiset<Job>
    requires n <= |jobs|
  {
    if n == 0 then multiset{}
    else Selected(jobs, picks, n - 1) + (if n - 1 in picks then multiset{jobs[n - 1]} else multiset{})
  }

  lemma {:induction false} SelectedWithin(jobs: seq<Job>, picks: seq<nat>, n: nat)
    requires n <= |jobs|
    ensures Selected(jobs, picks, n) <= multiset(jobs[..n])
  {
    if n > 0 {
      SelectedWithin(jobs, picks, n - 1);
      assert jobs[..n] == jobs[..n - 1] + [jobs[n - 1]];
    }
  }

  lemma {:induction false} SelectedNone(jobs: seq<Job>, n: nat)
    requires n <= |jobs|
    ensures Selected(jobs, [], n) == multiset{}
  {
    if n > 0 {
      SelectedNone(jobs, n - 1);
    }
  }

  /** Only which positions are named matters, not how often or in what order. */
  lemma {:induction false} SelectedSame(jobs: seq<Job>, p: seq<nat>, q: seq<nat>, n: nat)
    requires n <= |jobs|
    requires forall i :: i in p <==> i in q
    ensures Selected(jobs, p, n) == Selected(jobs, q, n)
  {
    if n > 0 {
      SelectedSame(jobs, p, q, n - 1);
    }
  }

  /** Naming one more position, not named before, adds its job once when it lies below `n`. */
  lemma {:induction false} SelectedAdd(jobs: seq<Job>, earlier: seq<nat>, k: nat, n: nat)
    requires n <= |jobs| && k !in earlier
    ensures Selected(jobs, earlier + [k], n)
         == Selected(jobs, earlier, n) + (if k < n then multiset{jobs[k]} else multiset{})
  {
    if n > 0 {
      var m := n - 1;
      SelectedAdd(jobs, earlier, k, m);
      assert (m in earlier + [k]) <==> (m in earlier || m == k);
    }
  }

  /** The jobs due in one poll are the jobs at the distinct picked positions inside the registry. */
  lemma {:induction false} DueSelects(jobs: seq<Job>, picks: seq<nat>)
    ensures multiset(Due(jobs, picks)) == Selected(jobs, picks, |jobs|)
  {
    if picks == [] {
      SelectedNone(jobs, |jobs|);
    } else {
      var earlier, k := picks[..|picks| - 1], picks[|picks| - 1];
      DueSelects(jobs, earlier);
      assert picks == earlier + [k];
      if k in earlier {
        forall i
          ensures i in picks <==> i in earlier
        {
          assert (i in earlier + [k]) <==> (i in earlier || i == k);
        }
        SelectedSame(jobs, picks, earlier, |jobs|);
      } else {
        SelectedAdd(jobs, earlier, k, |jobs|);
      }
    }
  }

  /**
   * No registry job runs more often in one poll than it is registered:
   * the jobs of a poll form a sub-multiset of the registry.
   */
  lemma DueAtMostOnce(jobs: seq<Job>, picks: seq<nat>)
    ensures multiset(Due(jobs, picks)) <= multiset(jobs)
  {
    DueSelects(jobs, picks);
    SelectedWithin(jobs, picks, |jobs|);
    assert jobs[..|jobs|] == jobs;
  }
}
