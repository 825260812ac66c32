/** The day-by-day loop both simulators share: one step per calendar day
    from the start date, threading the battery state through, collecting
    (date, schedule, P&L) and stopping at the first day that raises. */
module SimulationLoop {
  import opened Wrappers

  /** One entry of the simulation's results list. */
  datatype DayResult<Sched> = DayResult(date: int, schedule: Sched, pnl: real)

  /** Why a day could not be completed; the Python code raises in these cases. */
  datatype SimError = ScheduleFailed | PriceRowMissing(interval: nat)

  /** What one day's operation produces, and the state it leaves behind. */
  type DayStep<!S, Sched> = (S, int) -> (Result<(Sched, real), SimError>, S)

  /** The number of days a simulation from start to end runs, both dates
      included: (end - start).days + 1, or none when end is before start. */
  function NumDays(start: int, end: int): (n: nat)
    ensures n == 0 <==> end < start
    ensures n > 0 ==> start + (n - 1) == end
  {
    if end < start then 0 else end - start + 1
  }

  /** The first k days from start. */
  function RunDays<S, Sched>(step: DayStep<S, Sched>, s: S, start: int, k: nat): (r: (Result<seq<DayResult<Sched>>, SimError>, S))
    ensures r.0.Success? ==> |r.0.value| == k
    ensures r.0.Success? ==> forall j :: 0 <= j < k ==> r.0.value[j].date == start + j
  {
    if k == 0 then (Success([]), s)
    else
      var (prev, s1) := RunDays(step, s, start, k - 1);
      if prev.Failure? then (prev, s1)
      else
        var (day, s2) := step(s1, start + k - 1);
        match day
        case Failure(e) => (Failure(e), s2)
        case Success(out) => (Success(prev.value + [DayResult(start + k - 1, out.0, out.1)]), s2)
  }

  /** The state after k + 1 days: unchanged after a failed run, otherwise the
      state the next day leaves. */
  lemma RunDaysState<S, Sched>(step: DayStep<S, Sched>, s: S, start: int, k: nat)
    ensures RunDays(step, s, start, k + 1).1
            == if RunDays(step, s, start, k).0.Failure? then RunDays(step, s, start, k).1
               else step(RunDays(step, s, start, k).1, start + k).1
  {
  }

  /** A property of the state that every day keeps, whatever the date and
      whether or not the day succeeds, holds after any number of days. */
  lemma {:induction false} RunDaysPreserves<S, Sched>(step: DayStep<S, Sched>, s: S, start: int, k: nat, inv: S -> bool)
    requires inv(s)
    requires forall t: S, date: int :: inv(t) ==> inv(step(t, date).1)
    ensures inv(RunDays(step, s, start, k).1)
  {
    if k > 0 {
      RunDaysPreserves(step, s, start, k - 1, inv);
      RunDaysState(step, s, start, k - 1);
      DayKeeps(step, inv, RunDays(step, s, start, k - 1).1, start + (k - 1));
    }
  }

  /** The day-invariant hypothesis of RunDaysPreserves at one state and date.
      A helper only: with t a parameter of type S the quantifier is
      instantiated, which it is not at the tuple component RunDays(..).1. */
  lemma DayKeeps<S, Sched>(step: DayStep<S, Sched>, inv: S -> bool, t: S, date: int)
    requires forall u: S, d: int :: inv(u) ==> inv(step(u, d).1)
    requires inv(t)
    ensures inv(step(t, date).1)
  {
  }

  /** One more successful day appends its entry to a successful run. */
  lemma RunDaysSucceeds<S, Sched>(step: DayStep<S, Sched>, s: S, start: int, k: nat,
                                  days: seq<DayResult<Sched>>, s1: S, out: (Sched, real), s2: S)
    requires RunDays(step, s, start, k) == (Success(days), s1)
    requires step(s1, start + k) == (Success(out), s2)
    ensures RunDays(step, s, start, k + 1) == (Success(days + [DayResult(start + k, out.0, out.1)]), s2)
  {
  }

  /** A failing day after a successful run ends the run with that day's error. */
  lemma RunDaysFails<S, Sched>(step: DayStep<S, Sched>, s: S, start: int, k: nat,
                               days: seq<DayResult<Sched>>, s1: S, e: SimError, s2: S)
    requires RunDays(step, s, start, k) == (Success(days), s1)
    requires step(s1, start + k) == (Failure(e), s2)
    ensures RunDays(step, s, start, k + 1) == (Failure(e), s2)
  {
  }

  /** Once a day fails, every longer run reports that same failure and ends
      in the same state: no later day is processed. */
  lemma {:induction false} FailureStopsTheRun<S, Sched>(step: DayStep<S, Sched>, s: S, start: int, k: nat, m: nat)
    requires k <= m && RunDays(step, s, start, k).0.Failure?
    ensures RunDays(step, s, start, m) == RunDays(step, s, start, k)
  {
    if k < m {
      FailureStopsTheRun(step, s, start, k, m - 1);
    }
  }

  /** A successful run extends each of its shorter runs: day j's entry is
      fixed once day j has run. */
  lemma {:induction false} SuccessfulRunExtendsPrefix<S, Sched>(step: DayStep<S, Sched>, s: S, start: int, k: nat, j: nat)
    requires j <= k && RunDays(step, s, start, k).0.Success?
    ensures RunDays(step, s, start, j).0.Success?
    ensures RunDays(step, s, start, j).0.value == RunDays(step, s, start, k).0.value[..j]
  {
    if j < k {
      SuccessfulRunExtendsPrefix(step, s, start, k - 1, j);
      var prev := RunDays(step, s, start, k - 1).0.value;
      assert RunDays(step, s, start, k).0.value[..k - 1] == prev;
      assert prev[..j] == RunDays(step, s, start, k).0.value[..j];
    } else {
      assert RunDays(step, s, start, k).0.value[..k] == RunDays(step, s, start, k).0.value;
    }
  }

  /** The running total of the daily P&L. */
  function TotalPnl<Sched>(results: seq<DayResult<Sched>>): real {
    if results == [] then 0.0 else TotalPnl(results[..|results| - 1]) + results[|results| - 1].pnl
  }

  lemma TotalPnlAppend<Sched>(results: seq<DayResult<Sched>>, day: DayResult<Sched>)
    ensures TotalPnl(results + [day]) == TotalPnl(results) + day.pnl
  {
    assert (results + [day])[..|results|] == results;
  }
}
