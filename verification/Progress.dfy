/** Time can always go on: there is always an event that brings the next tick closer. */
module Progress {
  import opened Tasks
  import opened Loads
  import opened Scheduler
  import opened SchedulerInvariants
  import opened Processor
  import opened Schedulability

  /** How many events a task can still have before the clock moves: its due timer goes off,
      it yields, and if its next release is now, both once more. */
  function Weight(t: Task, now: nat): nat {
    if t.state == Sleeping then if t.timer.Some? && t.timer.value <= now then 2 else 0
    else if t.deadlineJiff + t.period <= now then 3 else 1
  }

  function Weights(ts: seq<Task>, now: nat): nat {
    if ts == [] then 0 else Weight(ts[0], now) + Weights(ts[1..], now)
  }

  lemma {:induction false} WeightsRenewed(ts: seq<Task>, k: nat, t: Task, now: nat)
    requires k < |ts|
    ensures Weights(ts[k := t], now) + Weight(ts[k], now) == Weights(ts, now) + Weight(t, now)
  {
    if k > 0 {
      WeightsRenewed(ts[1..], k - 1, t, now);
      assert ts[k := t][1..] == ts[1..][k - 1 := t];
    }
  }

  lemma {:induction false} WeightsPointwise(ts: seq<Task>, ts': seq<Task>, now: nat)
    requires |ts'| == |ts| && forall i :: 0 <= i < |ts| ==> OnlyStateDiffers(ts[i], ts'[i])
    ensures Weights(ts', now) == Weights(ts, now)
  {
    if ts != [] {
      assert OnlyStateDiffers(ts[0], ts'[0]);
      WeightsPointwise(ts[1..], ts'[1..], now);
    }
  }

  /** The clock stands still, and there is less to do before it can move. */
  ghost predicate Nearer(s: State, s': State) {
    && s'.jiffies == s.jiffies
    && (Weights(s'.tasks, s.jiffies) < Weights(s.tasks, s.jiffies)
        || (Weights(s'.tasks, s.jiffies) == Weights(s.tasks, s.jiffies) && s.wake && !s'.wake))
  }

  /** The job the processor is on has used up its time. */
  predicate Finished(x: Exec, k: nat)
    requires k < |x.s.tasks|
  {
    x.s.tasks[k].state == Running && Count(x.used, x.s.tasks[k].pid) >= x.s.tasks[k].processingTime
  }

  lemma ExpireNext(x: Exec, k: nat)
    requires Consistent(x.s) && k < |x.s.tasks| && Due(x.s, x.s.tasks[k])
    ensures Plays(x, Expire(x.s.tasks[k].pid)) && Nearer(x.s, Execute(x, Expire(x.s.tasks[k].pid)).s)
  {
    FindIs(x.s.tasks, k);
    assert TaskOk(x.s.jiffies, x.s.tasks[k]);
    WeightsRenewed(x.s.tasks, k, OnExpire(x.s, k).tasks[k], x.s.jiffies);
  }

  lemma DispatchNext(x: Exec)
    requires Consistent(x.s) && x.s.wake
    ensures Plays(x, Dispatch) && Nearer(x.s, Execute(x, Dispatch).s)
  {
    DispatchOnlyRuns(Guarded, x.s);
    WeightsPointwise(x.s.tasks, OnDispatch(Guarded, x.s).tasks, x.s.jiffies);
  }

  lemma YieldNext(x: Exec, k: nat)
    requires Consistent(x.s) && InTime(x.s) && k < |x.s.tasks| && x.s.tasks[k].state == Running
    ensures Plays(x, Yield(x.s.tasks[k].pid)) && Nearer(x.s, Execute(x, Yield(x.s.tasks[k].pid)).s)
  {
    FindIs(x.s.tasks, k);
    LookupIs(x.s.tasks, k);
    NoSkip(x.s, k);
    assert TaskOk(x.s.jiffies, x.s.tasks[k]);
    WeightsRenewed(x.s.tasks, k, OnYield(REAL_TIME, x.s, k).tasks[k], x.s.jiffies);
  }

  lemma TickNext(x: Exec)
    requires Consistent(x.s) && !x.s.wake && forall k :: 0 <= k < |x.s.tasks| ==> !Due(x.s, x.s.tasks[k])
    requires forall k :: 0 <= k < |x.s.tasks| ==> !Finished(x, k)
    ensures Plays(x, Tick)
  {
    if x.s.current.Some? {
      var k :| 0 <= k < |x.s.tasks| && x.s.tasks[k].pid == x.s.current.value && x.s.tasks[k].state == Running;
      LookupIs(x.s.tasks, k);
      assert !Finished(x, k);
    }
  }

  ghost predicate Routine(x: Exec, e: Event) {
    if e.Yield? then exists k :: 0 <= k < |x.s.tasks| && x.s.tasks[k].pid == e.pid && Finished(x, k)
    else (e.Expire? || e.Dispatch? || e.Tick?) && forall k :: 0 <= k < |x.s.tasks| ==> !Finished(x, k)
  }

  /** The event that brings the next tick closer, if it cannot happen yet: the yield of a job
      that has used up its time, a due timer, or a pending dispatch, in this order. */
  lemma NextStep(x: Exec) returns (e: Event)
    requires Consistent(x.s) && InTime(x.s)
    ensures Plays(x, e) && Routine(x, e)
    ensures e == Tick || Nearer(x.s, Execute(x, e).s)
  {
    if k :| 0 <= k < |x.s.tasks| && Finished(x, k) {
      e := Yield(x.s.tasks[k].pid);
      YieldNext(x, k);
    } else if k :| 0 <= k < |x.s.tasks| && Due(x.s, x.s.tasks[k]) {
      e := Expire(x.s.tasks[k].pid);
      ExpireNext(x, k);
    } else if x.s.wake {
      e := Dispatch;
      DispatchNext(x);
    } else {
      e := Tick;
      TickNext(x);
    }
  }

  ghost predicate Schedulable(u: seq<Load>) {
    Universe(u) && Roomy(u)
  }

  lemma ExecuteOneMore(u: seq<Load>, es: seq<Event>, e: Event)
    ensures Execution(es + [e]) == Execute(Execution(es), e)
    ensures WellBehaved(u, es) && Behaves(u, Execution(es), e) ==> WellBehaved(u, es + [e])
  {
    assert (es + [e])[..|es|] == es;
  }

  lemma OneStepCloser(u: seq<Load>, es: seq<Event>) returns (e: Event)
    requires Schedulable(u) && WellBehaved(u, es)
    ensures WellBehaved(u, es + [e])
    ensures e == Tick || Nearer(Execution(es).s, Execution(es + [e]).s)
  {
    RunProtected(u, es);
    e := NextStep(Execution(es));
    ExecuteOneMore(u, es, e);
  }

  /** The guarantees are not vacuous: every well-behaved run can be continued, without the
      clock moving, to where the clock may tick. */
  lemma TimeGoesOn(u: seq<Load>, es: seq<Event>) returns (run: seq<Event>)
    requires Schedulable(u) && WellBehaved(u, es)
    ensures es <= run && WellBehaved(u, run + [Tick])
    ensures Execution(run).s.jiffies == Execution(es).s.jiffies
    decreases Weights(Execution(es).s.tasks, Execution(es).s.jiffies), Execution(es).s.wake
  {
    var e := OneStepCloser(u, es);
    if e == Tick {
      run := es;
    } else {
      run := TimeGoesOn(u, es + [e]);
    }
  }
}
