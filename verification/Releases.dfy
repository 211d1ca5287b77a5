/** When tasks are released, and which of several equal ones runs first. */
module Releases {
  import opened Options
  import opened Tasks
  import opened Scheduler
  import opened SchedulerInvariants
  import opened Pids
  import Admission
  import Loads

  // ---- The release grid ----

  /** A task's releases since it was registered, and one period, in jiffies, after its first yield. */
  datatype Log = Log(origin: Option<nat>, releases: seq<nat>)

  function Record(c: Config, s: State, e: Event, pid: nat, log: Log): Log {
    if !Enabled(s, e) then log
    else
      match e
      case Register(p, _, _) => if p == pid then Log(None, []) else log
      case Deregister(p) => if p == pid then Log(None, []) else log
      case Yield(p) =>
        if p == pid && log.origin == None
        then log.(origin := Some(s.jiffies + c.toJiffies(s.tasks[Find(s.tasks, p)].period)))
        else log
      case Expire(p) => if p == pid then log.(releases := log.releases + [s.jiffies]) else log
      case _ => log
  }

  function LogOf(c: Config, es: seq<Event>, pid: nat): Log {
    if es == [] then Log(None, [])
    else Record(c, Run(c, es[..|es| - 1]), es[|es| - 1], pid, LogOf(c, es[..|es| - 1], pid))
  }

  ghost predicate OnGrid(origin: nat, period: nat, x: nat) {
    exists n: nat :: x == origin + n * period
  }

  /** Releases lie on the grid, at least a period apart. */
  ghost predicate Spaced(origin: nat, period: nat, releases: seq<nat>) {
    && (forall i :: 0 <= i < |releases| ==> OnGrid(origin, period, releases[i]))
    && (forall i :: 0 < i < |releases| ==> releases[i - 1] + period <= releases[i])
  }

  ghost predicate Logged(c: Config, t: Task, log: Log) {
    var p := c.toJiffies(t.period);
    if !t.deadlineSet then log == Log(None, [])
    else
      && log.origin.Some?
      && OnGrid(log.origin.value, p, t.deadlineJiff)
      && Spaced(log.origin.value, p, log.releases)
      && (log.releases != [] ==>
            var last := log.releases[|log.releases| - 1];
            last + (if t.state == Sleeping then p else 0) <= t.deadlineJiff)
  }

  ghost predicate LoggedIn(c: Config, s: State, pid: nat, log: Log) {
    forall i :: 0 <= i < |s.tasks| && s.tasks[i].pid == pid ==> Logged(c, s.tasks[i], log)
  }

  lemma GridAhead(origin: nat, period: nat, x: nat)
    ensures OnGrid(origin, period, origin)
    ensures OnGrid(origin, period, x) ==> OnGrid(origin, period, x + period)
  {
    assert origin == origin + 0 * period;
    if n: nat :| x == origin + n * period {
      assert x + period == origin + (n + 1) * period;
    }
  }

  lemma YieldLogged(c: Config, s: State, k: nat, log: Log)
    requires Consistent(s) && k < |s.tasks| && Logged(c, s.tasks[k], log)
    ensures Logged(c, OnYield(c, s, k).tasks[k], Record(c, s, Yield(s.tasks[k].pid), s.tasks[k].pid, log))
  {
    var t := s.tasks[k];
    FindIs(s.tasks, k);
    assert TaskOk(s.jiffies, t);
    var origin := if t.deadlineSet then log.origin.value else NextDeadline(c, s, t);
    GridAhead(origin, c.toJiffies(t.period), t.deadlineJiff);
  }

  lemma ExpireLogged(c: Config, s: State, k: nat, log: Log)
    requires Consistent(s) && k < |s.tasks| && Logged(c, s.tasks[k], log) && Due(s, s.tasks[k])
    ensures Logged(c, OnExpire(s, k).tasks[k], Record(c, s, Expire(s.tasks[k].pid), s.tasks[k].pid, log))
  {
    FindIs(s.tasks, k);
    assert TaskOk(s.jiffies, s.tasks[k]);
  }

  lemma RunningStaysLogged(c: Config, t: Task, t': Task, log: Log)
    requires Logged(c, t, log) && OnlyStateDiffers(t, t')
    ensures Logged(c, t', log)
  {
  }

  lemma DispatchKeepsDeadlines(c: Config, s: State, pid: nat, log: Log)
    requires Consistent(s) && LoggedIn(c, s, pid, log)
    ensures LoggedIn(c, OnDispatch(c.variant, s), pid, log)
  {
    var s' := OnDispatch(c.variant, s);
    DispatchOnlyRuns(c.variant, s);
    forall i | 0 <= i < |s'.tasks| && s'.tasks[i].pid == pid ensures Logged(c, s'.tasks[i], log) {
      RunningStaysLogged(c, s.tasks[i], s'.tasks[i], log);
    }
  }

  lemma RegisterLogged(c: Config, s: State, p: nat, period: Period, time: nat, pid: nat, log: Log)
    requires LoggedIn(c, s, pid, log) && !Registered(s.tasks, p)
    ensures LoggedIn(c, OnRegister(s, p, period, time), pid, Record(c, s, Register(p, period, time), pid, log))
  {
    var s' := OnRegister(s, p, period, time);
    NotFound(s.tasks, p);
    assert s' == s || (s'.tasks[1..] == s.tasks && forall i :: 0 < i < |s'.tasks| ==> s'.tasks[i] == s.tasks[i - 1]);
  }

  lemma DeregisterLogged(c: Config, s: State, p: nat, pid: nat, log: Log)
    requires LoggedIn(c, s, pid, log)
    ensures LoggedIn(c, OnDeregister(s, p), pid, Record(c, s, Deregister(p), pid, log))
  {
    var s' := OnDeregister(s, p);
    RemoveKeepsOthers(s.tasks, p);
    forall i | 0 <= i < |s'.tasks| && s'.tasks[i].pid == pid ensures p != pid && Logged(c, s'.tasks[i], log) {
      assert s'.tasks[i] in s.tasks;
    }
  }

  lemma StepLogged(c: Config, s: State, e: Event, pid: nat, log: Log)
    requires Consistent(s) && LoggedIn(c, s, pid, log)
    ensures LoggedIn(c, Step(c, s, e), pid, Record(c, s, e, pid, log))
  {
    if Enabled(s, e) {
      match e
      case Register(p, period, time) => RegisterLogged(c, s, p, period, time, pid, log);
      case Yield(p) =>
        var k := Find(s.tasks, p);
        if p == pid { YieldLogged(c, s, k, log); }
      case Expire(p) =>
        var k := Find(s.tasks, p);
        if p == pid { ExpireLogged(c, s, k, log); }
      case Deregister(p) => DeregisterLogged(c, s, p, pid, log);
      case Dispatch => DispatchKeepsDeadlines(c, s, pid, log);
      case Tick =>
    }
  }

  lemma {:induction false} RunLogged(c: Config, es: seq<Event>, pid: nat)
    ensures LoggedIn(c, Run(c, es), pid, LogOf(c, es, pid))
  {
    if es != [] {
      var before := es[..|es| - 1];
      RunLogged(c, before, pid);
      RunConsistent(c, before);
      StepLogged(c, Run(c, before), es[|es| - 1], pid, LogOf(c, before, pid));
    }
  }

  /** A task that sleeps until `until`. */
  function Until(t: Task, until: nat): Task {
    t.(state := Sleeping, deadlineJiff := until, deadlineSet := true, timer := Some(until))
  }

  lemma FirstYield(c: Config, s: State, k: nat)
    requires Consistent(s) && k < |s.tasks| && !s.tasks[k].deadlineSet
    ensures Step(c, s, Yield(s.tasks[k].pid)).tasks
            == s.tasks[k := Until(s.tasks[k], s.jiffies + c.toJiffies(s.tasks[k].period))]
  {
    FindIs(s.tasks, k);
  }

  lemma NotYetYielded(c: Config, es: seq<Event>, k: nat)
    requires k < |Run(c, es).tasks| && LogOf(c, es, Run(c, es).tasks[k].pid).origin == None
    ensures !Run(c, es).tasks[k].deadlineSet
  {
    var t := Run(c, es).tasks[k];
    RunLogged(c, es, t.pid);
    assert Logged(c, t, LogOf(c, es, t.pid));
  }

  /** In every run and for every conversion to jiffies, the first yield of a task since its
      registration puts it to sleep for one period, converted. */
  lemma FirstYieldArms(c: Config, es: seq<Event>, s: State, k: nat, t: Task)
    requires s == Run(c, es) && k < |s.tasks| && t == s.tasks[k] && LogOf(c, es, t.pid).origin == None
    ensures Run(c, es + [Yield(t.pid)]).tasks == s.tasks[k := Until(t, s.jiffies + c.toJiffies(t.period))]
  {
    NotYetYielded(c, es, k);
    RunConsistent(c, es);
    FirstYield(c, s, k);
    RunOneMore(c, es, Yield(t.pid));
  }

  /** No drift: in every run, in both variants, the timer releases of a registered task
      are members of {d0 + k * P}, d0 being one period after its first yield and P its
      period in jiffies, each at least P after the one before; and a pending timer expires on
      that grid, after the last release and no earlier than now. */
  lemma ReleasesStayOnGrid(c: Config, es: seq<Event>, k: nat)
    requires k < |Run(c, es).tasks|
    ensures var s := Run(c, es);
            var t := s.tasks[k];
            var log := LogOf(c, es, t.pid);
            && (log.releases != [] ==> log.origin.Some?)
            && (log.origin.Some? ==> Spaced(log.origin.value, c.toJiffies(t.period), log.releases))
            && (t.timer.Some? ==>
                  && t.timer.value >= s.jiffies
                  && log.origin.Some? && OnGrid(log.origin.value, c.toJiffies(t.period), t.timer.value)
                  && (log.releases != [] ==>
                        log.releases[|log.releases| - 1] + c.toJiffies(t.period) <= t.timer.value))
  {
    var s := Run(c, es);
    RunLogged(c, es, s.tasks[k].pid);
    RunConsistent(c, es);
    assert Logged(c, s.tasks[k], LogOf(c, es, s.tasks[k].pid)) && TaskOk(s.jiffies, s.tasks[k]);
  }

  // ---- Catching up ----

  function Yields(c: Config, s: State, k: nat, n: nat): (r: State)
    requires k < |s.tasks|
    ensures |r.tasks| == |s.tasks|
  {
    if n == 0 then s else OnYield(c, Yields(c, s, k, n - 1), k)
  }

  /** How many yields a task with deadline `d` and period `p` in jiffies skips at `now`. */
  function Skipped(d: nat, p: nat, now: nat): nat
    requires p > 0
  {
    if now <= d + p then 0 else Loads.CeilDiv(now - d, p) - 1
  }

  lemma SkippedIsLate(d: nat, p: nat, now: nat, n: nat)
    requires p > 0 && n >= 1
    ensures n <= Skipped(d, p, now) <==> now > d + n * p
  {
    var m := Loads.CeilDiv(if now >= d then now - d else 0, p);
    Loads.CeilDivBounds(if now >= d then now - d else 0, p);
    Loads.MulOrder(1, n, p);
    Loads.MulOrder(m, n, p);
    if m > 0 {
      Loads.MulOrder(n, m - 1, p);
    }
  }

  /** A late task that yields again and again at one time only moves its deadline by a
      period each time, exactly max(0, ceil((now - d) / P) - 1) times... */
  lemma {:induction false} LateTaskSkips(c: Config, s: State, k: nat, n: nat)
    requires k < |s.tasks| && s.tasks[k].deadlineSet && c.toJiffies(s.tasks[k].period) > 0
    requires n <= Skipped(s.tasks[k].deadlineJiff, c.toJiffies(s.tasks[k].period), s.jiffies)
    ensures var t := s.tasks[k];
            Yields(c, s, k, n) == Renew(s, k, t.(deadlineJiff := t.deadlineJiff + n * c.toJiffies(t.period)))
  {
    if n == 0 {
      assert s.tasks[k := s.tasks[k]] == s.tasks;
    } else {
      var t, p := s.tasks[k], c.toJiffies(s.tasks[k].period);
      LateTaskSkips(c, s, k, n - 1);
      SkippedIsLate(t.deadlineJiff, p, s.jiffies, n);
      assert t.deadlineJiff + (n - 1) * p + p == t.deadlineJiff + n * p;
    }
  }

  /** ... and at the next yield goes to sleep until the first grid point not before now. */
  lemma LateTaskArms(c: Config, s: State, k: nat)
    requires k < |s.tasks| && s.tasks[k].deadlineSet && c.toJiffies(s.tasks[k].period) > 0
    ensures var t, p := s.tasks[k], c.toJiffies(s.tasks[k].period);
            var n := Skipped(t.deadlineJiff, p, s.jiffies);
            var armed := Yields(c, s, k, n + 1).tasks[k];
            var next := t.deadlineJiff + (n + 1) * p;
            && armed.state == Sleeping && armed.timer == Some(next) && next >= s.jiffies
            && (n > 0 ==> next - p < s.jiffies)
  {
    var t, p := s.tasks[k], c.toJiffies(s.tasks[k].period);
    var n := Skipped(t.deadlineJiff, p, s.jiffies);
    LateTaskSkips(c, s, k, n);
    SkippedIsLate(t.deadlineJiff, p, s.jiffies, n + 1);
    if n > 0 {
      SkippedIsLate(t.deadlineJiff, p, s.jiffies, n);
    }
    assert t.deadlineJiff + n * p + p == t.deadlineJiff + (n + 1) * p;
  }

  // ---- Ties ----

  /** The registered pids, oldest registration first. */
  function Arrivals(c: Config, es: seq<Event>): seq<nat> {
    if es == [] then []
    else
      var before, e := es[..|es| - 1], es[|es| - 1];
      var s, order := Run(c, before), Arrivals(c, before);
      match e
      case Register(pid, period, time) =>
        if Enabled(s, e) && Admission.Admits(s.tasks, period, time) then order + [pid] else order
      case Deregister(pid) => Without(order, pid)
      case _ => order
  }

  function NewestFirst(ts: seq<Task>): seq<nat> {
    if ts == [] then [] else NewestFirst(ts[1..]) + [ts[0].pid]
  }

  lemma {:induction false} DropAppended(pids: seq<nat>, pid: nat, last: nat)
    ensures Without(pids + [last], pid) == Without(pids, pid) + if last == pid then [] else [last]
  {
    if pids == [] {
      assert [] + [last] == [last];
    } else {
      DropAppended(pids[1..], pid, last);
      assert (pids + [last])[1..] == pids[1..] + [last];
    }
  }

  lemma {:induction false} RemoveDrops(ts: seq<Task>, pid: nat)
    ensures NewestFirst(Remove(ts, pid)) == Without(NewestFirst(ts), pid)
  {
    if ts != [] {
      RemoveDrops(ts[1..], pid);
      DropAppended(NewestFirst(ts[1..]), pid, ts[0].pid);
    }
  }

  lemma {:induction false} SamePids(ts: seq<Task>, ts': seq<Task>)
    requires |ts| == |ts'| && forall i :: 0 <= i < |ts| ==> ts'[i].pid == ts[i].pid
    ensures NewestFirst(ts') == NewestFirst(ts)
  {
    if ts != [] {
      SamePids(ts[1..], ts'[1..]);
    }
  }

  lemma OthersKeepPids(c: Config, s: State, e: Event)
    requires !e.Register? && !e.Deregister?
    ensures NewestFirst(Step(c, s, e).tasks) == NewestFirst(s.tasks)
  {
    var ts := Step(c, s, e).tasks;
    assert |ts| == |s.tasks| && forall i :: 0 <= i < |ts| ==> ts[i].pid == s.tasks[i].pid;
    SamePids(s.tasks, ts);
  }

  lemma {:induction false} ListIsInArrivalOrder(c: Config, es: seq<Event>)
    ensures NewestFirst(Run(c, es).tasks) == Arrivals(c, es)
  {
    if es != [] {
      var before, e := es[..|es| - 1], es[|es| - 1];
      var s := Run(c, before);
      ListIsInArrivalOrder(c, before);
      match e
      case Register(pid, period, time) =>
        assert ([Task(pid, period, time, Sleeping, 0, false, None)] + s.tasks)[1..] == s.tasks;
      case Deregister(pid) => RemoveDrops(s.tasks, pid);
      case _ => OthersKeepPids(c, s, e);
    }
  }

  lemma {:induction false} NewestFirstAt(ts: seq<Task>, i: nat)
    requires i < |ts|
    ensures |NewestFirst(ts)| == |ts| && NewestFirst(ts)[|ts| - 1 - i] == ts[i].pid
  {
    if i > 0 {
      NewestFirstAt(ts[1..], i - 1);
    } else if |ts| > 1 {
      NewestFirstAt(ts[1..], 0);
    }
  }

  /** Task `a` of the list was registered no later than task `b`. */
  predicate NoLater(ts: seq<Task>, order: seq<nat>, a: nat, b: nat)
    requires a < |ts| && b < |ts|
  {
    exists i, j :: 0 <= i <= j < |order| && order[i] == ts[a].pid && order[j] == ts[b].pid
  }

  lemma LaterInListIsNoLater(ts: seq<Task>, a: nat, b: nat)
    requires b <= a < |ts|
    ensures NoLater(ts, NewestFirst(ts), a, b)
  {
    NewestFirstAt(ts, a);
    NewestFirstAt(ts, b);
  }

  /** In every run the scan finds nothing exactly when no task is READY; otherwise it
      returns a READY task such that every READY task has a larger period, or the same
      period and was registered no earlier. */
  lemma FirstComeFirstServed(c: Config, es: seq<Event>)
    ensures var ts := Run(c, es).tasks;
            var best := BestReady(ts);
            && (best == None <==> forall i :: 0 <= i < |ts| ==> ts[i].state != Ready)
            && (best.Some? ==>
                  && ts[best.value].state == Ready
                  && forall i :: 0 <= i < |ts| && ts[i].state == Ready ==>
                       || ts[best.value].period < ts[i].period
                       || (ts[best.value].period == ts[i].period && NoLater(ts, Arrivals(c, es), best.value, i)))
  {
    var ts := Run(c, es).tasks;
    var best := BestReady(ts);
    ListIsInArrivalOrder(c, es);
    if best.Some? {
      forall i | 0 <= i <= best.value ensures NoLater(ts, Arrivals(c, es), best.value, i) {
        LaterInListIsNoLater(ts, best.value, i);
      }
    }
  }
}
