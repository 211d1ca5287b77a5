/** What the admission test as computed guarantees over whole runs. */
module Guarantee {
  import opened Options
  import opened Tasks
  import opened Scheduler
  import opened Admission

  // ---- The admission invariant ----

  predicate SafeRegistrations(es: seq<Event>) {
    forall e :: e in es && e.Register? ==> e.time <= LARGEST_SAFE_TIME
  }

  predicate SameLoads(ts: seq<Task>, ts': seq<Task>) {
    |ts| == |ts'| && forall i :: 0 <= i < |ts| ==> LoadOf(ts'[i]) == LoadOf(ts[i])
  }

  lemma {:induction false} SameTotals(ts: seq<Task>, ts': seq<Task>)
    requires SameLoads(ts, ts')
    ensures Total(ts') == Total(ts)
  {
    if ts != [] {
      var n := |ts| - 1;
      SameTotals(ts[..n], ts'[..n]);
      assert LoadOf(ts'[n]) == LoadOf(ts[n]);
    }
  }

  lemma SwitchKeepsLoads(s: State, best: nat)
    requires best < |s.tasks|
    ensures SameLoads(s.tasks, SwitchTo(s, best).tasks)
  {
  }

  lemma OthersKeepLoads(c: Config, s: State, e: Event)
    requires !e.Register? && !e.Deregister?
    ensures SameLoads(s.tasks, Step(c, s, e).tasks)
  {
    match e
    case Dispatch =>
      var best := BestReady(s.tasks);
      if best.Some? {
        SwitchKeepsLoads(s, best.value);
      }
    case _ =>
  }

  lemma SafeFromLoads(ts: seq<Task>, ts': seq<Task>)
    requires SameLoads(ts, ts') && SafeTimes(ts)
    ensures SafeTimes(ts')
  {
    forall t | t in ts' ensures t.processingTime <= LARGEST_SAFE_TIME {
      var i :| 0 <= i < |ts'| && ts'[i] == t;
      assert LoadOf(ts'[i]) == LoadOf(ts[i]) && ts[i] in ts;
    }
  }

  lemma StepKeepsTotal(c: Config, s: State, e: Event)
    requires SafeTimes(s.tasks) && Total(s.tasks) <= ADMISSION_BOUND
    requires e.Register? ==> e.time <= LARGEST_SAFE_TIME
    ensures SafeTimes(Step(c, s, e).tasks) && Total(Step(c, s, e).tasks) <= ADMISSION_BOUND
  {
    match e
    case Register(pid, period, time) =>
      AdmitsIffTotal(s.tasks, period, time);
      TotalOfPrepended(Task(pid, period, time, Sleeping, 0, false, None), s.tasks);
    case Deregister(pid) =>
      TotalOfRemoved(s.tasks, pid);
      RemoveKeepsOthers(s.tasks, pid);
    case _ =>
      OthersKeepLoads(c, s, e);
      SameTotals(s.tasks, Step(c, s, e).tasks);
      SafeFromLoads(s.tasks, Step(c, s, e).tasks);
  }

  /** Over every run, in both variants, that registers processing times of at most 429496:
      the truncated scaled utilisations sum to at most 6930, and the sum the 32-bit loop
      computes is that sum, so it has never wrapped. */
  lemma {:induction false} AdmittedTotal(c: Config, es: seq<Event>)
    requires SafeRegistrations(es)
    ensures SafeTimes(Run(c, es).tasks)
    ensures Total32(Run(c, es).tasks) == Total(Run(c, es).tasks) <= ADMISSION_BOUND
  {
    if es != [] {
      AdmittedTotal(c, es[..|es| - 1]);
      assert es[|es| - 1] in es;
      StepKeepsTotal(c, Run(c, es[..|es| - 1]), es[|es| - 1]);
    }
    TotalsAgree(Run(c, es).tasks);
  }
}
