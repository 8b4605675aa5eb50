/**
 * The StatMon interval scheduler: a list of jobs, each with a period in
 * seconds and the time of its last attempt, and a tick (`run_pending`) that
 * attempts every job whose period has elapsed, swallows what the job raises
 * and stamps the job with the tick's time whatever the outcome.
 *
 * Times are whole seconds; the clock is the `now` parameter of a tick. A
 * job's function is known by its name; whether it raises on a given tick is
 * the `raises` parameter (the set of job indices whose function raises).
 */
module Scheduling {
  import opened Common

  /** A registered job: the name of its function, its period and its last attempt. */
  datatype Job = Job(name: string, interval: int, lastRun: int)

  /** One call of a job's function during a tick, and whether it raised. */
  datatype Attempt = Attempt(job: nat, raised: bool)

  /** The unit chosen on a JobBuilder; `Unset` until `.seconds` or `.minutes`. */
  datatype TimeUnit = Unset | InSeconds | InMinutes

  /** The ValueError that `do` raises when no unit was chosen. */
  datatype SchedulerError = TimeUnitNotSet

  /** A job is due at `now` once a whole period has passed since its last attempt. */
  predicate Due(job: Job, now: int)
  {
    now - job.lastRun >= job.interval
  }

  /** A job as a tick at `now` leaves it: stamped with `now` if it was due, untouched otherwise. */
  function Stamp(job: Job, now: int): Job
  {
    if Due(job, now) then job.(lastRun := now) else job
  }

  /** The job list after one tick at `now`. */
  function Tick(jobs: seq<Job>, now: int): (r: seq<Job>)
    ensures |r| == |jobs|
    ensures forall i :: 0 <= i < |jobs| ==>
      r[i].name == jobs[i].name && r[i].interval == jobs[i].interval
    ensures forall i :: 0 <= i < |jobs| ==>
      r[i].lastRun == (if Due(jobs[i], now) then now else jobs[i].lastRun)
  {
    if jobs == [] then []
    else
      var n := |jobs| - 1;
      Tick(jobs[..n], now) + [Stamp(jobs[n], now)]
  }

  /**
   * The calls a tick at `now` makes, in the order it makes them: exactly the
   * due jobs, in registration order, each with the outcome of its call.
   */
  function Attempts(jobs: seq<Job>, now: int, raises: set<nat>): (r: seq<Attempt>)
    ensures forall k :: 0 <= k < |r| ==>
      r[k].job < |jobs| && Due(jobs[r[k].job], now) && (r[k].raised <==> r[k].job in raises)
    ensures forall i :: 0 <= i < |jobs| && Due(jobs[i], now) ==> Attempt(i, i in raises) in r
    ensures forall k, l :: 0 <= k < l < |r| ==> r[k].job < r[l].job
  {
    if jobs == [] then []
    else
      var n := |jobs| - 1;
      Attempts(jobs[..n], now, raises) + (if Due(jobs[n], now) then [Attempt(n, n in raises)] else [])
  }

  class Scheduler {
    /** `self.jobs`, in registration order. */
    var jobs: seq<Job>

    constructor ()
      ensures jobs == []
    {
      jobs := [];
    }

    /** `every(interval)`: a builder for one job of this scheduler. */
    method Every(interval: int) returns (b: JobBuilder)
      ensures fresh(b)
      ensures b.scheduler == this && b.interval == interval && b.unit == Unset
    {
      b := new JobBuilder(this, interval);
    }

    /** `add_job`: appends one job that has never run (last attempt at time 0). */
    method AddJob(name: string, intervalSeconds: int)
      modifies this
      ensures jobs == old(jobs) + [Job(name, intervalSeconds, 0)]
    {
      jobs := jobs + [Job(name, intervalSeconds, 0)];
    }

    /**
     * `run_pending`: visits the jobs in registration order, calls each due
     * one, catches what it raises and sets its last attempt to `now` in
     * either case. Jobs that are not due are left as they are.
     */
    method RunPending(now: int, raises: set<nat>) returns (attempts: seq<Attempt>)
      modifies this
      ensures jobs == Tick(old(jobs), now)
      ensures attempts == Attempts(old(jobs), now, raises)
    {
      ghost var before := jobs;
      attempts := [];
      var i := 0;
      while i < |jobs|
        invariant 0 <= i <= |jobs| == |before|
        invariant forall k :: 0 <= k < i ==> jobs[k] == Stamp(before[k], now)
        invariant forall k :: i <= k < |jobs| ==> jobs[k] == before[k]
        invariant attempts == Attempts(before[..i], now, raises)
      {
        assert before[..i + 1][..i] == before[..i];
        if now - jobs[i].lastRun >= jobs[i].interval {
          // The job's function runs here; an exception is caught and logged.
          var raised := i in raises;
          attempts := attempts + [Attempt(i, raised)];
          jobs := jobs[i := jobs[i].(lastRun := now)];
        }
        i := i + 1;
      }
      assert before[..i] == before;
    }
  }

  /** The fluent `scheduler.every(n).minutes.do(f)` helper. */
  class JobBuilder {
    const scheduler: Scheduler
    const interval: int
    var unit: TimeUnit

    constructor (scheduler: Scheduler, interval: int)
      ensures this.scheduler == scheduler && this.interval == interval && unit == Unset
    {
      this.scheduler := scheduler;
      this.interval := interval;
      unit := Unset;
    }

    /** The `.seconds` property: chooses seconds and returns the same builder. */
    method Seconds() returns (b: JobBuilder)
      modifies this
      ensures unit == InSeconds && b == this
    {
      unit := InSeconds;
      b := this;
    }

    /** The `.minutes` property: chooses minutes and returns the same builder. */
    method Minutes() returns (b: JobBuilder)
      modifies this
      ensures unit == InMinutes && b == this
    {
      unit := InMinutes;
      b := this;
    }

    /**
     * `do(func)`: registers the job with its period converted to seconds, or
     * raises ValueError, adding nothing, when no unit was chosen.
     */
    method Do(name: string) returns (r: Outcome<SchedulerError>)
      modifies scheduler
      ensures r == (if unit == Unset then Fail(TimeUnitNotSet) else Pass)
      ensures unit == InSeconds ==> scheduler.jobs == old(scheduler.jobs) + [Job(name, interval, 0)]
      ensures unit == InMinutes ==> scheduler.jobs == old(scheduler.jobs) + [Job(name, interval * 60, 0)]
      ensures unit == Unset ==> scheduler.jobs == old(scheduler.jobs)
    {
      var seconds: int;
      if unit == InSeconds {
        seconds := interval;
      } else if unit == InMinutes {
        seconds := interval * 60;
      } else {
        return Fail(TimeUnitNotSet);
      }
      scheduler.AddJob(name, seconds);
      r := Pass;
    }
  }

  // ---------------------------------------------------------------------
  // Properties of a sequence of ticks
  // ---------------------------------------------------------------------

  /** The job list after ticks at the given times, in order. */
  function RunTicks(jobs: seq<Job>, ticks: seq<int>): (r: seq<Job>)
    ensures |r| == |jobs|
    ensures forall i :: 0 <= i < |jobs| ==>
      r[i].name == jobs[i].name && r[i].interval == jobs[i].interval
  {
    if ticks == [] then jobs
    else Tick(RunTicks(jobs, ticks[..|ticks| - 1]), ticks[|ticks| - 1])
  }

  /** The times, among `ticks`, at which job `i` was attempted. */
  function FireTimes(jobs: seq<Job>, ticks: seq<int>, i: nat): seq<int>
    requires i < |jobs|
  {
    if ticks == [] then []
    else
      var prev := ticks[..|ticks| - 1];
      var now := ticks[|ticks| - 1];
      FireTimes(jobs, prev, i) + (if Due(RunTicks(jobs, prev)[i], now) then [now] else [])
  }

  /** The last attempt of job `i` before the ticks, or during them if there was one. */
  function LastFire(jobs: seq<Job>, ticks: seq<int>, i: nat): int
    requires i < |jobs|
  {
    var f := FireTimes(jobs, ticks, i);
    if f == [] then jobs[i].lastRun else f[|f| - 1]
  }

  /** After any ticks, a job's recorded last run is the time of its last attempt. */
  lemma {:induction false} LastRunIsLastFire(jobs: seq<Job>, ticks: seq<int>, i: nat)
    requires i < |jobs|
    ensures RunTicks(jobs, ticks)[i].lastRun == LastFire(jobs, ticks, i)
  {
    if ticks != [] {
      LastRunIsLastFire(jobs, ticks[..|ticks| - 1], i);
    }
  }

  /**
   * A further tick at `now` attempts job `i` exactly when a whole period has
   * passed since its last attempt, whether or not that attempt raised.
   */
  lemma {:induction false} FiresIffPeriodElapsed(jobs: seq<Job>, ticks: seq<int>, now: int, i: nat)
    requires i < |jobs|
    ensures FireTimes(jobs, ticks + [now], i) == FireTimes(jobs, ticks, i) + [now]
        <==> now - LastFire(jobs, ticks, i) >= jobs[i].interval
    ensures FireTimes(jobs, ticks + [now], i) == FireTimes(jobs, ticks, i)
        <==> now - LastFire(jobs, ticks, i) < jobs[i].interval
  {
    assert (ticks + [now])[..|ticks|] == ticks;
    LastRunIsLastFire(jobs, ticks, i);
  }

  /**
   * A job is never attempted early: its first attempt comes a whole period
   * after its initial last run, and consecutive attempts are a whole period
   * apart, however often it raised.
   */
  lemma {:induction false} NoEarlyFire(jobs: seq<Job>, ticks: seq<int>, i: nat)
    requires i < |jobs|
    ensures var f := FireTimes(jobs, ticks, i);
      (f != [] ==> f[0] - jobs[i].lastRun >= jobs[i].interval) &&
      forall k :: 0 <= k < |f| - 1 ==> f[k + 1] - f[k] >= jobs[i].interval
  {
    if ticks != [] {
      var prev := ticks[..|ticks| - 1];
      var now := ticks[|ticks| - 1];
      assert ticks == prev + [now];
      NoEarlyFire(jobs, prev, i);
      FiresIffPeriodElapsed(jobs, prev, now, i);
    }
  }

  /** Under the daemon's policy (last run 0), the first tick at or after one period attempts a job. */
  lemma FirstTickFires(name: string, interval: int, now: int)
    requires now >= interval
    ensures Tick([Job(name, interval, 0)], now) == [Job(name, interval, now)]
  {
  }
}
