/** What every run of the scheduler keeps, in both variants and in each. */
module SchedulerInvariants {
  import opened Options
  import opened Tasks
  import opened Scheduler

  // ---- Both variants: the current task, timers and deadlines ----

  predicate TaskOk(jiffies: nat, t: Task) {
    && (t.timer.Some? ==> t.state == Sleeping && t.deadlineSet && t.timer.value == t.deadlineJiff >= jiffies)
    && (t.state == Sleeping && t.deadlineSet ==> t.timer == Some(t.deadlineJiff))
    && (t.state != Sleeping ==> t.deadlineSet)
  }

  ghost predicate CurrentRuns(s: State) {
    s.current.Some? ==>
      exists i :: 0 <= i < |s.tasks| && s.tasks[i].pid == s.current.value && s.tasks[i].state == Running
  }

  ghost predicate Consistent(s: State) {
    && Distinct(s.tasks)
    && CurrentRuns(s)
    && forall i :: 0 <= i < |s.tasks| ==> TaskOk(s.jiffies, s.tasks[i])
  }

  lemma FindIs(ts: seq<Task>, k: nat)
    requires Distinct(ts) && k < |ts|
    ensures Find(ts, ts[k].pid) == k
  {
  }

  lemma NotFound(ts: seq<Task>, pid: nat)
    requires !Registered(ts, pid)
    ensures forall i :: 0 <= i < |ts| ==> ts[i].pid != pid
  {
  }

  lemma RenewKeepsOthers(s: State, k: nat, t: Task)
    requires Consistent(s) && k < |s.tasks| && t.pid == s.tasks[k].pid && TaskOk(s.jiffies, t)
    requires s.current == Some(t.pid) ==> t.state == Running
    ensures Consistent(Renew(s, k, t))
  {
    var s' := Renew(s, k, t);
    if s.current.Some? {
      var i :| 0 <= i < |s.tasks| && s.tasks[i].pid == s.current.value && s.tasks[i].state == Running;
      assert s'.tasks[i].pid == s.current.value && s'.tasks[i].state == Running;
    }
  }

  lemma RegisterConsistent(s: State, t: Task)
    requires Consistent(s) && !Registered(s.tasks, t.pid) && TaskOk(s.jiffies, t)
    ensures Consistent(s.(tasks := [t] + s.tasks))
  {
    var s' := s.(tasks := [t] + s.tasks);
    NotFound(s.tasks, t.pid);
    if s.current.Some? {
      var i :| 0 <= i < |s.tasks| && s.tasks[i].pid == s.current.value && s.tasks[i].state == Running;
      assert s'.tasks[i + 1] == s.tasks[i];
    }
  }

  lemma DeregisterConsistent(s: State, pid: nat)
    requires Consistent(s)
    ensures Consistent(OnDeregister(s, pid))
  {
    var s' := OnDeregister(s, pid);
    RemoveKeepsOthers(s.tasks, pid);
    forall i | 0 <= i < |s'.tasks| ensures TaskOk(s'.jiffies, s'.tasks[i]) {
      assert s'.tasks[i] in s.tasks;
    }
    if s'.current.Some? {
      var i :| 0 <= i < |s.tasks| && s.tasks[i].pid == s.current.value && s.tasks[i].state == Running;
      FindIs(s.tasks, i);
      assert s.tasks[i] in s'.tasks;
    }
  }

  lemma SwitchConsistent(s: State, best: nat)
    requires Consistent(s) && best < |s.tasks| && s.tasks[best].state == Ready
    ensures Consistent(SwitchTo(s, best))
  {
    var s' := SwitchTo(s, best);
    assert s'.tasks[best].pid == s.tasks[best].pid;
  }

  lemma YieldConsistent(c: Config, s: State, k: nat)
    requires Consistent(s) && k < |s.tasks|
    ensures Consistent(OnYield(c, s, k))
  {
    var t := s.tasks[k].(deadlineJiff := NextDeadline(c, s, s.tasks[k]), deadlineSet := true);
    if Skips(c, s, s.tasks[k]) {
      assert s.tasks[k].timer == None;
      if s.current == Some(t.pid) {
        var i :| 0 <= i < |s.tasks| && s.tasks[i].pid == s.current.value && s.tasks[i].state == Running;
        assert i == k;
      }
      RenewKeepsOthers(s, k, t);
    } else {
      var current := if c.variant == Guarded && s.current != Some(t.pid) then s.current else None;
      RenewKeepsOthers(s.(current := current), k, t.(state := Sleeping, timer := Some(t.deadlineJiff)));
    }
  }

  lemma SleeperIsNotCurrent(s: State, k: nat)
    requires Consistent(s) && k < |s.tasks| && s.tasks[k].state == Sleeping
    ensures s.current != Some(s.tasks[k].pid)
  {
    if s.current.Some? {
      var i :| 0 <= i < |s.tasks| && s.tasks[i].pid == s.current.value && s.tasks[i].state == Running;
      assert i != k;
    }
  }

  lemma ExpireConsistent(s: State, k: nat)
    requires Consistent(s) && k < |s.tasks| && s.tasks[k].timer.Some?
    ensures Consistent(OnExpire(s, k))
  {
    SleeperIsNotCurrent(s, k);
    RenewKeepsOthers(s, k, s.tasks[k].(state := Ready, timer := None));
  }

  lemma TickConsistent(s: State)
    requires Consistent(s) && Enabled(s, Tick)
    ensures Consistent(s.(jiffies := s.jiffies + 1))
  {
    var s' := s.(jiffies := s.jiffies + 1);
    forall i | 0 <= i < |s.tasks| ensures TaskOk(s'.jiffies, s'.tasks[i]) {
      assert !Due(s, s.tasks[i]) && TaskOk(s.jiffies, s.tasks[i]);
    }
  }

  /** One step keeps the as-written invariant: a non-NULL current_running is in the list
      and RUNNING, a pending timer belongs to a SLEEPING task and expires at its deadline,
      which has not passed, and a SLEEPING task with a deadline has its timer pending. */
  lemma StepConsistent(c: Config, s: State, e: Event)
    requires Consistent(s)
    ensures Consistent(Step(c, s, e))
  {
    if Enabled(s, e) {
      match e
      case Register(pid, period, time) => RegisterConsistent(s, Task(pid, period, time, Sleeping, 0, false, None));
      case Yield(pid) => YieldConsistent(c, s, Find(s.tasks, pid));
      case Expire(pid) => ExpireConsistent(s, Find(s.tasks, pid));
      case Deregister(pid) => DeregisterConsistent(s, pid);
      case Dispatch =>
        var best := BestReady(s.tasks);
        if best.Some? {
          SwitchConsistent(s, best.value);
        }
      case Tick => TickConsistent(s);
    }
  }

  lemma {:induction false} RunConsistent(c: Config, es: seq<Event>)
    ensures Consistent(Run(c, es))
  {
    if es != [] {
      RunConsistent(c, es[..|es| - 1]);
      StepConsistent(c, Run(c, es[..|es| - 1]), es[|es| - 1]);
    }
  }

  /** The dispatcher only turns awake tasks from READY to RUNNING and back. */
  predicate OnlyStateDiffers(t: Task, t': Task) {
    t' == t || (t.state != Sleeping && t'.state != Sleeping && t' == t.(state := t'.state))
  }

  lemma PreemptionOnlyRuns(s: State)
    requires Consistent(s)
    ensures |Preempted(s)| == |s.tasks|
    ensures forall i :: 0 <= i < |s.tasks| ==> OnlyStateDiffers(s.tasks[i], Preempted(s)[i])
  {
    if s.current.Some? {
      var cur :| 0 <= cur < |s.tasks| && s.tasks[cur].pid == s.current.value && s.tasks[cur].state == Running;
      FindIs(s.tasks, cur);
    }
  }

  lemma SwitchOnlyRuns(s: State, best: nat)
    requires Consistent(s) && best < |s.tasks| && s.tasks[best].state == Ready
    ensures var ts := SwitchTo(s, best).tasks;
            |ts| == |s.tasks| && forall i :: 0 <= i < |s.tasks| ==> OnlyStateDiffers(s.tasks[i], ts[i])
  {
    PreemptionOnlyRuns(s);
    assert OnlyStateDiffers(s.tasks[best], Preempted(s)[best]);
  }

  lemma DispatchOnlyRuns(variant: Variant, s: State)
    requires Consistent(s)
    ensures var ts := OnDispatch(variant, s).tasks;
            |ts| == |s.tasks| && forall i :: 0 <= i < |s.tasks| ==> OnlyStateDiffers(s.tasks[i], ts[i])
  {
    var best := BestReady(s.tasks);
    if best.Some? {
      SwitchOnlyRuns(s, best.value);
    }
  }

  // ---- Guarded: one RUNNING task, and the right one ----

  /** The RUNNING tasks are exactly the current one. */
  predicate Exclusive(s: State) {
    forall i :: 0 <= i < |s.tasks| ==> (s.tasks[i].state == Running <==> s.current == Some(s.tasks[i].pid))
  }

  /** Nothing READY should be running instead. */
  predicate Settled(s: State) {
    && (s.current == None ==> forall i :: 0 <= i < |s.tasks| ==> s.tasks[i].state != Ready)
    && (forall i, j | 0 <= i < |s.tasks| && 0 <= j < |s.tasks| && s.tasks[j].state == Ready ::
          s.current == Some(s.tasks[i].pid) ==> s.tasks[i].period <= s.tasks[j].period)
  }

  ghost predicate GuardedInv(s: State) {
    Consistent(s) && Exclusive(s) && (!s.wake ==> Settled(s))
  }

  /** `best` is READY and no READY task has a smaller period. */
  predicate MinReady(ts: seq<Task>, best: nat) {
    && best < |ts| && ts[best].state == Ready
    && forall i :: 0 <= i < |ts| && ts[i].state == Ready ==> ts[best].period <= ts[i].period
  }

  lemma SwitchFromNone(s: State, best: nat)
    requires Distinct(s.tasks) && Exclusive(s) && MinReady(s.tasks, best) && s.current == None
    ensures var tasks := s.tasks[best := s.tasks[best].(state := Running)];
            var s' := s.(tasks := tasks, current := Some(s.tasks[best].pid)); Exclusive(s') && Settled(s')
  {
  }

  lemma SwitchFrom(s: State, best: nat, cur: nat)
    requires Distinct(s.tasks) && Exclusive(s) && MinReady(s.tasks, best)
    requires cur < |s.tasks| && s.current == Some(s.tasks[cur].pid) && s.tasks[best].period < s.tasks[cur].period
    ensures var tasks := s.tasks[cur := s.tasks[cur].(state := Ready)][best := s.tasks[best].(state := Running)];
            var s' := s.(tasks := tasks, current := Some(s.tasks[best].pid)); Exclusive(s') && Settled(s')
  {
  }

  lemma SwitchGuarded(s: State, best: nat)
    requires Consistent(s) && Exclusive(s) && MinReady(s.tasks, best) && !CurrentWins(s, best)
    ensures Exclusive(SwitchTo(s, best)) && Settled(SwitchTo(s, best))
  {
    if s.current == None {
      SwitchFromNone(s, best);
    } else {
      var cur :| 0 <= cur < |s.tasks| && s.tasks[cur].pid == s.current.value && s.tasks[cur].state == Running;
      FindIs(s.tasks, cur);
      SwitchFrom(s, best, cur);
    }
  }

  lemma StayGuarded(s: State)
    requires Consistent(s) && (BestReady(s.tasks).Some? ==> CurrentWins(s, BestReady(s.tasks).value))
    ensures Settled(s)
  {
    var best := BestReady(s.tasks);
    if best.Some? {
      FindIs(s.tasks, Find(s.tasks, s.current.value));
    }
  }

  lemma DispatchSettles(s: State)
    requires Consistent(s) && Exclusive(s)
    ensures var s' := OnDispatch(Guarded, s); Exclusive(s') && Settled(s')
  {
    var best := BestReady(s.tasks);
    if best.Some? && !CurrentWins(s, best.value) {
      SwitchGuarded(s, best.value);
    } else {
      StayGuarded(s);
    }
  }

  lemma DeregisterGuarded(s: State, pid: nat)
    requires GuardedInv(s)
    ensures GuardedInv(OnDeregister(s, pid))
  {
    DeregisterConsistent(s, pid);
    RemoveKeepsOthers(s.tasks, pid);
    var s' := OnDeregister(s, pid);
    forall i | 0 <= i < |s'.tasks| ensures s'.tasks[i] in s.tasks && s'.tasks[i].pid != pid {
      assert s'.tasks[i] in s'.tasks;
    }
    if s.current == Some(pid) {
      var cur :| 0 <= cur < |s.tasks| && s.tasks[cur].pid == pid;
      FindIs(s.tasks, cur);
    }
  }

  lemma RegisterGuarded(s: State, t: Task)
    requires GuardedInv(s) && !Registered(s.tasks, t.pid) && TaskOk(s.jiffies, t) && t.state == Sleeping
    ensures GuardedInv(s.(tasks := [t] + s.tasks))
  {
    RegisterConsistent(s, t);
    NotFound(s.tasks, t.pid);
    var s' := s.(tasks := [t] + s.tasks);
    assert forall i :: 0 < i < |s'.tasks| ==> s'.tasks[i] == s.tasks[i - 1];
  }

  lemma YieldGuarded(c: Config, s: State, k: nat)
    requires c.variant == Guarded && GuardedInv(s) && k < |s.tasks|
    ensures GuardedInv(OnYield(c, s, k))
  {
    YieldConsistent(c, s, k);
  }

  lemma ExpireGuarded(s: State, k: nat)
    requires GuardedInv(s) && k < |s.tasks| && s.tasks[k].timer.Some?
    ensures GuardedInv(OnExpire(s, k))
  {
    ExpireConsistent(s, k);
  }

  lemma GuardedStep(c: Config, s: State, e: Event)
    requires c.variant == Guarded && GuardedInv(s)
    ensures GuardedInv(Step(c, s, e))
  {
    if Enabled(s, e) {
      match e
      case Register(pid, period, time) => RegisterGuarded(s, Task(pid, period, time, Sleeping, 0, false, None));
      case Yield(pid) => YieldGuarded(c, s, Find(s.tasks, pid));
      case Expire(pid) => ExpireGuarded(s, Find(s.tasks, pid));
      case Deregister(pid) => DeregisterGuarded(s, pid);
      case Dispatch =>
        StepConsistent(c, s, e);
        DispatchSettles(s);
      case Tick => TickConsistent(s);
    }
  }

  /** In every state a guarded run reaches, the RUNNING tasks are exactly {current_running};
      and unless a wake-up is outstanding, current_running's period is at most that of
      every READY task, and it is NULL only if no task is READY. */
  lemma {:induction false} GuardedRun(c: Config, es: seq<Event>)
    requires c.variant == Guarded
    ensures GuardedInv(Run(c, es))
  {
    if es != [] {
      GuardedRun(c, es[..|es| - 1]);
      GuardedStep(c, Run(c, es[..|es| - 1]), es[|es| - 1]);
    }
  }

  lemma RightAfterDispatch(c: Config, es: seq<Event>)
    requires c.variant == Guarded
    ensures !Run(c, es + [Dispatch]).wake && Exclusive(Run(c, es + [Dispatch])) && Settled(Run(c, es + [Dispatch]))
  {
    var all := es + [Dispatch];
    GuardedRun(c, all);
    assert all[..|all| - 1] == es;
  }

  // ---- As written: when the same holds, and when not ----

  lemma SwitchIgnoresWake(variant: Variant, s: State)
    ensures Switched(variant, s.(wake := true)) == Switched(variant, s).(wake := true)
  {
  }

  lemma WakeIsIrrelevant(c: Config, s: State, e: Event)
    ensures Step(c, s.(wake := true), e).tasks == Step(c, s, e).tasks
    ensures Step(c, s.(wake := true), e).current == Step(c, s, e).current
  {
    match e
    case Dispatch => SwitchIgnoresWake(c.variant, s);
    case _ =>
  }

  lemma AgreementKeepsExclusive(c: Config, s: State, e: Event)
    requires c.variant == AsWritten && Consistent(s) && Exclusive(s) && GuardsAgree(c, s, e)
    ensures Exclusive(Step(c, s, e))
  {
    var g := c.(variant := Guarded);
    VariantsAgree(c, s, e);
    GuardedStep(g, s.(wake := true), e);
    WakeIsIrrelevant(g, s, e);
  }

  lemma WinningCurrentStaysRunning(c: Config, s: State)
    requires c.variant == AsWritten && Consistent(s) && Exclusive(s) && !GuardsAgree(c, s, Dispatch)
    ensures !Exclusive(Step(c, s, Dispatch))
  {
    var best, cur := BestReady(s.tasks).value, Find(s.tasks, s.current.value);
    var s' := Step(c, s, Dispatch);
    assert s'.tasks == s.tasks[best := s.tasks[best].(state := Running)];
    assert s.tasks[cur].state == Running && s'.tasks[cur].pid != s'.tasks[best].pid;
  }

  lemma YieldByAnotherForgetsCurrent(c: Config, s: State, pid: nat)
    requires c.variant == AsWritten && Consistent(s) && Exclusive(s) && !GuardsAgree(c, s, Yield(pid))
    ensures !Exclusive(Step(c, s, Yield(pid)))
  {
    var cur :| 0 <= cur < |s.tasks| && s.tasks[cur].pid == s.current.value && s.tasks[cur].state == Running;
    assert Step(c, s, Yield(pid)).tasks[cur].state == Running;
  }

  /** A step of the code as written keeps the RUNNING tasks down to the current one
      exactly where its own checks, had they guarded the effect, would have allowed it. */
  lemma AsWrittenExclusiveIff(c: Config, s: State, e: Event)
    requires c.variant == AsWritten && Consistent(s) && Exclusive(s)
    ensures Exclusive(Step(c, s, e)) <==> GuardsAgree(c, s, e)
  {
    if GuardsAgree(c, s, e) {
      AgreementKeepsExclusive(c, s, e);
    } else {
      match e
      case Dispatch => WinningCurrentStaysRunning(c, s);
      case Yield(pid) => YieldByAnotherForgetsCurrent(c, s, pid);
    }
  }

  lemma VariantsAgree(c: Config, s: State, e: Event)
    requires GuardsAgree(c, s, e)
    ensures Step(c.(variant := AsWritten), s, e) == Step(c.(variant := Guarded), s, e)
  {
  }

  predicate GuardsAgreeAlong(c: Config, es: seq<Event>) {
    es == [] || (GuardsAgreeAlong(c, es[..|es| - 1]) && GuardsAgree(c, Run(c, es[..|es| - 1]), es[|es| - 1]))
  }

  /** A run of the code as written along which the guards never matter is a guarded run. */
  lemma {:induction false} AsWrittenRunIsGuarded(c: Config, es: seq<Event>)
    requires c.variant == AsWritten && GuardsAgreeAlong(c, es)
    ensures Run(c, es) == Run(c.(variant := Guarded), es)
  {
    if es != [] {
      AsWrittenRunIsGuarded(c, es[..|es| - 1]);
      VariantsAgree(c, Run(c, es[..|es| - 1]), es[|es| - 1]);
    }
  }

  ghost predicate ExclusiveAlong(c: Config, es: seq<Event>) {
    Exclusive(Run(c, es)) && (es == [] || ExclusiveAlong(c, es[..|es| - 1]))
  }

  /** A run of the code as written never has a RUNNING task that is not the current one, or
      the reverse, exactly if the guards never matter along it. */
  lemma {:induction false} AsWrittenExclusiveAlongIff(c: Config, es: seq<Event>)
    requires c.variant == AsWritten
    ensures ExclusiveAlong(c, es) <==> GuardsAgreeAlong(c, es)
  {
    if es != [] {
      var before := es[..|es| - 1];
      AsWrittenExclusiveAlongIff(c, before);
      RunConsistent(c, before);
      if ExclusiveAlong(c, before) {
        AsWrittenExclusiveIff(c, Run(c, before), es[|es| - 1]);
      }
    }
  }

  lemma RunOneMore(c: Config, es: seq<Event>, e: Event)
    ensures Run(c, es + [e]) == Step(c, Run(c, es), e)
  {
    assert (es + [e])[..|es|] == es;
  }

  const T1 := Task(1, 1, 0, Sleeping, 1, true, None)
  const T2 := Task(2, 2, 0, Sleeping, 2, true, None)

  lemma BothArmed(c: Config) returns (es: seq<Event>)
    requires c.variant == AsWritten && c.toJiffies(1) == 1 && c.toJiffies(2) == 2
    ensures Run(c, es) == State([T2.(timer := Some(2)), T1.(timer := Some(1))], None, 0, true)
  {
    var t1, t2 := Task(1, 1, 0, Sleeping, 0, false, None), Task(2, 2, 0, Sleeping, 0, false, None);
    es := [Register(1, 1, 0)];
    RunOneMore(c, [], Register(1, 1, 0));
    assert es == [] + es && Run(c, es) == State([t1], None, 0, false);
    RunOneMore(c, es, Register(2, 2, 0));
    es := es + [Register(2, 2, 0)];
    assert Run(c, es) == State([t2, t1], None, 0, false);
    RunOneMore(c, es, Yield(1));
    es := es + [Yield(1)];
    assert Run(c, es) == State([t2, T1.(timer := Some(1))], None, 0, true);
    RunOneMore(c, es, Yield(2));
    es := es + [Yield(2)];
  }

  lemma FirstRuns(c: Config) returns (es: seq<Event>)
    requires c.variant == AsWritten && c.toJiffies(1) == 1 && c.toJiffies(2) == 2
    ensures Run(c, es) == State([T2.(timer := Some(2)), T1.(state := Running)], Some(1), 1, false)
  {
    var w2 := T2.(timer := Some(2));
    es := BothArmed(c);
    RunOneMore(c, es, Tick);
    es := es + [Tick];
    RunOneMore(c, es, Expire(1));
    es := es + [Expire(1)];
    assert Run(c, es) == State([w2, T1.(state := Ready)], None, 1, true);
    RunOneMore(c, es, Dispatch);
    es := es + [Dispatch];
  }

  lemma SecondWakesUp(c: Config) returns (es: seq<Event>)
    requires c.variant == AsWritten && c.toJiffies(1) == 1 && c.toJiffies(2) == 2
    ensures Run(c, es) == State([T2.(state := Ready), T1.(state := Running)], Some(1), 2, true)
  {
    es := FirstRuns(c);
    RunOneMore(c, es, Tick);
    es := es + [Tick];
    RunOneMore(c, es, Expire(2));
    es := es + [Expire(2)];
  }

  /** The code as written reaches a state with two RUNNING tasks: a longer-period task
      wakes up while a shorter-period one is running. */
  lemma TwoRunning(c: Config) returns (es: seq<Event>)
    requires c.variant == AsWritten && c.toJiffies(1) == 1 && c.toJiffies(2) == 2
    ensures Run(c, es) == State([T2.(state := Running), T1.(state := Running)], Some(2), 2, false)
  {
    es := SecondWakesUp(c);
    RunOneMore(c, es, Dispatch);
    es := es + [Dispatch];
  }
}
