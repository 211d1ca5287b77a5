/** Necessity: when no window fits the demand of a task list, the critical instant, all
    tasks released together, makes the guarded scheduler miss a deadline. */
module Overload {
  import opened Options
  import opened Tasks
  import opened Loads
  import opened Scheduler
  import opened SchedulerInvariants
  import opened Processor
  import opened Admission
  import opened Departures
  import opened Progress

  // ---- States some run leads to ----

  /** Events in which all behave, none departs, and only tasks of `ts` register, within the bound. */
  predicate Fits(ts: seq<Task>, x: Exec, e: Event) {
    && Plays(x, e) && !e.Deregister? && |Execute(x, e).s.tasks| <= |ts|
    && (e.Register? ==>
          && e.time <= LARGEST_SAFE_TIME && Affords(Desk(x, []), e)
          && Load(e.pid, e.period, e.time) in LoadsOf(ts))
  }

  /** A set of states that such events do not leave: all that is needed to build runs in it. */
  ghost predicate Closed(ts: seq<Task>, reach: iset<Exec>) {
    IDLE in reach && forall x, e | x in reach && Fits(ts, x, e) :: Execute(x, e) in reach
  }

  lemma OneMore(ts: seq<Task>, reach: iset<Exec>, x: Exec, e: Event)
    requires Closed(ts, reach) && x in reach && Plays(x, e) && !e.Deregister? && |Execute(x, e).s.tasks| <= |ts|
    requires e.Register? ==> e.time <= LARGEST_SAFE_TIME && Affords(Desk(x, []), e)
    requires e.Register? ==> Load(e.pid, e.period, e.time) in LoadsOf(ts)
    ensures Execute(x, e) in reach
  {
    assert Fits(ts, x, e);
  }

  predicate Unstarted(t: Task) {
    t == Task(t.pid, t.period, t.processingTime, Sleeping, 0, false, None)
  }

  /** Tasks the admission test accepts, shortest period first. */
  predicate Ascending(ts: seq<Task>) {
    && ts != [] && Distinct(ts) && SafeTimes(ts) && Total(ts) <= ADMISSION_BOUND
    && (forall i :: 0 <= i < |ts| ==> Unstarted(ts[i]))
    && (forall i, j :: 0 <= i <= j < |ts| ==> ts[i].period <= ts[j].period)
  }

  function Longest(ts: seq<Task>): Period
    requires ts != []
  {
    ts[|ts| - 1].period
  }

  /** No window up to the longest period fits what the tasks ask for in it. */
  ghost predicate Overloaded(ts: seq<Task>) {
    ts != [] && forall t: nat :: 0 < t <= Longest(ts) ==> Demand(LoadsOf(ts), t) > t
  }

  // ---- Registering them, the longest period first ----

  lemma {:induction false} TotalOfTail(ts: seq<Task>, k: nat)
    requires k <= |ts|
    ensures Total(ts[k..]) <= Total(ts)
  {
    if k > 0 {
      TotalOfTail(ts, k - 1);
      assert ts[k - 1..] == [ts[k - 1]] + ts[k..];
      TotalOfPrepended(ts[k - 1], ts[k..]);
    } else {
      assert ts[0..] == ts;
    }
  }

  lemma TailIsAdmitted(ts: seq<Task>, k: nat)
    requires SafeTimes(ts) && Total(ts) <= ADMISSION_BOUND && k < |ts|
    ensures Admits(ts[k + 1..], ts[k].period, ts[k].processingTime)
    ensures Total(ts[k + 1..]) + Scaled(ts[k].processingTime, ts[k].period) <= ADMISSION_BOUND
    ensures ts[k].processingTime <= LARGEST_SAFE_TIME
  {
    var rest := ts[k + 1..];
    TotalOfTail(ts, k);
    assert ts[k..] == [ts[k]] + rest;
    TotalOfPrepended(ts[k], rest);
    assert ts[k] in ts;
    forall t | t in rest ensures t in ts {}
    AdmitsIffTotal(rest, ts[k].period, ts[k].processingTime);
  }

  lemma NotAmongTail(ts: seq<Task>, k: nat)
    requires Distinct(ts) && k < |ts|
    ensures !Registered(ts[k + 1..], ts[k].pid)
  {
    var rest := ts[k + 1..];
    forall i | 0 <= i < |rest| ensures rest[i].pid != ts[k].pid {
      assert rest[i] == ts[k + 1 + i];
    }
  }

  /** The tasks from k on have been registered. */
  function Enrolled(ts: seq<Task>, k: nat): Exec
    requires k <= |ts|
  {
    Exec(State(ts[k..], None, 0, false), map[])
  }

  lemma RegisterStep(ts: seq<Task>, k: nat)
    requires Ascending(ts) && k < |ts|
    ensures var x, e := Enrolled(ts, k + 1), Register(ts[k].pid, ts[k].period, ts[k].processingTime);
            Plays(x, e) && Execute(x, e) == Enrolled(ts, k) && Affords(Desk(x, []), e)
  {
    TailIsAdmitted(ts, k);
    NotAmongTail(ts, k);
    assert Unstarted(ts[k]);
    assert ts[k..] == [ts[k]] + ts[k + 1..];
  }

  lemma {:induction false} RegisterRun(ts: seq<Task>, reach: iset<Exec>, k: nat)
    requires Ascending(ts) && Closed(ts, reach) && k <= |ts|
    ensures Enrolled(ts, k) in reach
    decreases |ts| - k
  {
    if k == |ts| {
      assert Enrolled(ts, k) == IDLE;
    } else {
      RegisterRun(ts, reach, k + 1);
      RegisterStep(ts, k);
      TailIsAdmitted(ts, k);
      assert LoadsOf(ts)[k] == LoadOf(ts[k]);
      OneMore(ts, reach, Enrolled(ts, k + 1), Register(ts[k].pid, ts[k].period, ts[k].processingTime));
    }
  }

  // ---- First yields, so timed that all are released at once ----

  /** `ts` with the tasks from k on asleep until `at`. */
  function Armed(ts: seq<Task>, k: nat, at: nat): (r: seq<Task>)
    requires k <= |ts|
    ensures |r| == |ts|
    ensures forall i :: 0 <= i < |ts| ==>
      r[i] == if i < k then ts[i] else ts[i].(deadlineJiff := at, deadlineSet := true, timer := Some(at))
  {
    seq(|ts|, i requires 0 <= i < |ts| =>
      if i < k then ts[i] else ts[i].(deadlineJiff := at, deadlineSet := true, timer := Some(at)))
  }

  /** Nobody is awake and nobody is due before `until`. */
  predicate Quiet(s: State, until: nat) {
    && s.current == None && !s.wake
    && forall i :: 0 <= i < |s.tasks| ==> s.tasks[i].timer.Some? ==> s.tasks[i].timer.value >= until
  }

  lemma {:induction false} TickRun(ts: seq<Task>, reach: iset<Exec>, x: Exec, until: nat)
    requires Closed(ts, reach) && x in reach && Quiet(x.s, until) && x.s.jiffies <= until && |x.s.tasks| <= |ts|
    ensures x.(s := x.s.(jiffies := until)) in reach
    decreases until - x.s.jiffies
  {
    if x.s.jiffies == until {
      assert x.(s := x.s.(jiffies := until)) == x;
    } else {
      OneMore(ts, reach, x, Tick);
      TickRun(ts, reach, Execute(x, Tick), until);
    }
  }

  lemma ArmedDistinct(ts: seq<Task>, k: nat, at: nat)
    requires Distinct(ts) && k <= |ts|
    ensures Distinct(Armed(ts, k, at))
    ensures forall i :: 0 <= i < |ts| ==> Find(Armed(ts, k, at), ts[i].pid) == i
  {
    forall i | 0 <= i < |ts| ensures Find(Armed(ts, k, at), ts[i].pid) == i {
      FindIs(Armed(ts, k, at), i);
    }
  }

  /** The tasks from k on sleep until `at`; the time is `now`. */
  function Waiting(ts: seq<Task>, k: nat, at: nat, now: nat, wake: bool): Exec
    requires k <= |ts|
  {
    Exec(State(Armed(ts, k, at), None, now, wake), map[])
  }

  /** The yield of task k, one period before the common release. */
  lemma ArmStep(ts: seq<Task>, k: nat, at: nat)
    requires Distinct(ts) && k < |ts| && Unstarted(ts[k]) && ts[k].period <= at
    ensures var x, now := Waiting(ts, k + 1, at, at - ts[k].period, false), at - ts[k].period;
            Plays(x, Yield(ts[k].pid)) && Execute(x, Yield(ts[k].pid)) == Waiting(ts, k, at, now, true)
  {
    var s := Waiting(ts, k + 1, at, at - ts[k].period, false).s;
    var t := s.tasks[k];
    ArmedDistinct(ts, k + 1, at);
    assert t == ts[k] && !t.deadlineSet;
    LookupIs(s.tasks, k);
    var armed := t.(deadlineJiff := at, deadlineSet := true, timer := Some(at));
    assert OnYield(REAL_TIME, s, k) == State(s.tasks[k := armed], None, s.jiffies, true);
    assert OnYield(REAL_TIME, s, k).tasks == Armed(ts, k, at);
  }

  lemma DispatchNobody(ts: seq<Task>, k: nat, at: nat, now: nat)
    requires k <= |ts| && forall i :: 0 <= i < |ts| ==> Unstarted(ts[i])
    ensures Execute(Waiting(ts, k, at, now, true), Dispatch) == Waiting(ts, k, at, now, false)
  {
    assert forall i :: 0 <= i < |ts| ==> Unstarted(ts[i]) && Armed(ts, k, at)[i].state == Sleeping;
  }

  /** Task k yields and the dispatcher finds nobody to run. */
  lemma ArmOne(ts: seq<Task>, reach: iset<Exec>, k: nat, at: nat)
    requires Ascending(ts) && Closed(ts, reach) && k < |ts| && ts[k].period <= at
    requires Waiting(ts, k + 1, at, at - ts[k].period, false) in reach
    ensures Waiting(ts, k, at, at - ts[k].period, false) in reach
  {
    var now := at - ts[k].period;
    assert Unstarted(ts[k]);
    ArmStep(ts, k, at);
    OneMore(ts, reach, Waiting(ts, k + 1, at, now, false), Yield(ts[k].pid));
    DispatchNobody(ts, k, at, now);
    OneMore(ts, reach, Waiting(ts, k, at, now, true), Dispatch);
  }

  lemma ArmedIsQuiet(ts: seq<Task>, k: nat, at: nat, now: nat)
    requires k <= |ts| && forall i :: 0 <= i < |ts| ==> Unstarted(ts[i])
    ensures Quiet(Waiting(ts, k, at, now, false).s, at)
  {
    forall i | 0 <= i < k ensures ts[i].timer == None {
      assert Unstarted(ts[i]);
    }
  }

  function ArmedAt(ts: seq<Task>, k: nat): nat
    requires Ascending(ts) && k <= |ts|
  {
    if k == |ts| then 0 else Longest(ts) - ts[k].period
  }

  lemma WaitUntil(ts: seq<Task>, reach: iset<Exec>, k: nat, at: nat, now: nat, until: nat)
    requires Ascending(ts) && Closed(ts, reach) && k <= |ts| && now <= until <= at
    requires Waiting(ts, k, at, now, false) in reach
    ensures Waiting(ts, k, at, until, false) in reach
  {
    ArmedIsQuiet(ts, k, at, now);
    TickRun(ts, reach, Waiting(ts, k, at, now, false), until);
  }

  lemma {:induction false} ArmRun(ts: seq<Task>, reach: iset<Exec>, k: nat)
    requires Ascending(ts) && Closed(ts, reach) && k <= |ts|
    ensures Waiting(ts, k, Longest(ts), ArmedAt(ts, k), false) in reach
    decreases |ts| - k
  {
    if k == |ts| {
      RegisterRun(ts, reach, 0);
      assert ts[0..] == Armed(ts, k, Longest(ts));
    } else {
      ArmRun(ts, reach, k + 1);
      WaitUntil(ts, reach, k + 1, Longest(ts), ArmedAt(ts, k + 1), ArmedAt(ts, k));
      ArmOne(ts, reach, k, Longest(ts));
    }
  }

  // ---- The critical instant ----

  /** `ts` with the first m tasks released at `at` and the others about to be. */
  function Released(ts: seq<Task>, m: nat, at: nat): (r: seq<Task>)
    requires m <= |ts|
    ensures |r| == |ts|
    ensures forall i :: 0 <= i < |ts| ==>
      r[i] == ts[i].(state := if i < m then Ready else ts[i].state, deadlineJiff := at, deadlineSet := true,
                     timer := if i < m then None else Some(at))
  {
    seq(|ts|, i requires 0 <= i < |ts| =>
      ts[i].(state := if i < m then Ready else ts[i].state, deadlineJiff := at, deadlineSet := true,
             timer := if i < m then None else Some(at)))
  }

  ghost predicate Unused(used: map<nat, nat>) {
    forall pid: nat :: Count(used, pid) == 0
  }

  lemma ReleaseStep(ts: seq<Task>, m: nat, at: nat, wake: bool, used: map<nat, nat>)
    requires Ascending(ts) && m < |ts| && Unused(used)
    ensures var x := Exec(State(Released(ts, m, at), None, at, wake), used);
            var x' := Execute(x, Expire(ts[m].pid));
            && Plays(x, Expire(ts[m].pid)) && Unused(x'.used)
            && x'.s == State(Released(ts, m + 1, at), None, at, true)
  {
    var x := Exec(State(Released(ts, m, at), None, at, wake), used);
    var x' := Execute(x, Expire(ts[m].pid));
    FindIs(x.s.tasks, m);
    assert OnExpire(x.s, m).tasks == Released(ts, m + 1, at);
    forall pid: nat ensures Count(x'.used, pid) == 0 {
      assert Count(used, pid) == 0;
    }
  }

  lemma ReleaseFirst(ts: seq<Task>, reach: iset<Exec>) returns (x: Exec)
    requires Ascending(ts) && Closed(ts, reach)
    ensures x in reach && Unused(x.used) && x.s == State(Released(ts, 0, Longest(ts)), None, Longest(ts), false)
  {
    ArmRun(ts, reach, 0);
    WaitUntil(ts, reach, 0, Longest(ts), ArmedAt(ts, 0), Longest(ts));
    x := Waiting(ts, 0, Longest(ts), Longest(ts), false);
    assert Armed(ts, 0, Longest(ts)) == Released(ts, 0, Longest(ts));
  }

  lemma {:induction false} ReleaseRun(ts: seq<Task>, reach: iset<Exec>, m: nat) returns (x: Exec)
    requires Ascending(ts) && Closed(ts, reach) && m <= |ts|
    ensures x in reach && Unused(x.used) && x.s == State(Released(ts, m, Longest(ts)), None, Longest(ts), m > 0)
  {
    if m == 0 {
      x := ReleaseFirst(ts, reach);
    } else {
      var y := ReleaseRun(ts, reach, m - 1);
      ReleaseStep(ts, m - 1, Longest(ts), m > 1, y.used);
      OneMore(ts, reach, y, Expire(ts[m - 1].pid));
      x := Execute(y, Expire(ts[m - 1].pid));
    }
  }

  // ---- From there on: releases on the grid, and not a tick wasted ----

  /** `t` is `base` under way: released `count` times, a period apart, since `at`. */
  predicate OnGrid(at: nat, base: Task, t: Task, used: nat, count: nat) {
    && LoadOf(t) == LoadOf(base) && t.deadlineSet && count >= 1
    && NextRelease(at, t) == at + count * t.period
    && (t.state != Sleeping ==> used <= t.processingTime)
  }

  /** The ticks its jobs have been given. */
  function Credit(t: Task, used: nat, count: nat): int {
    count * t.processingTime - if t.state == Sleeping then 0 else t.processingTime - used
  }

  function Credits(x: Exec, count: seq<nat>): (c: seq<int>)
    requires |count| == |x.s.tasks|
    ensures |c| == |count|
    ensures forall i :: 0 <= i < |c| ==> c[i] == Credit(x.s.tasks[i], Count(x.used, x.s.tasks[i].pid), count[i])
  {
    seq(|count|, i requires 0 <= i < |count| => Credit(x.s.tasks[i], Count(x.used, x.s.tasks[i].pid), count[i]))
  }

  function SumOf(c: seq<int>): int {
    if c == [] then 0 else c[0] + SumOf(c[1..])
  }

  lemma {:induction false} SumOfBumped(c: seq<int>, k: nat, d: int)
    requires k < |c|
    ensures SumOf(c[k := c[k] + d]) == SumOf(c) + d
  {
    if k > 0 {
      SumOfBumped(c[1..], k - 1, d);
      assert c[k := c[k] + d][1..] == c[1..][k - 1 := c[1..][k - 1] + d];
    }
  }

  ghost predicate AllOnGrid(ts: seq<Task>, x: Exec, count: seq<nat>) {
    && ts != [] && |x.s.tasks| == |ts| && |count| == |ts|
    && forall i :: 0 <= i < |ts| ==>
         OnGrid(Longest(ts), ts[i], x.s.tasks[i], Count(x.used, ts[i].pid), count[i])
  }

  /** Task l has the longest period, and its first job since the common release is not over. */
  predicate Stands(ts: seq<Task>, x: Exec, count: seq<nat>, l: nat)
    requires ts != [] && |ts| == |x.s.tasks| == |count|
  {
    l < |ts| && ts[l].period == Longest(ts) && x.s.tasks[l].state != Sleeping && count[l] == 1
  }

  /** Every tick since the common release went to one of the tasks, and task l stands. */
  ghost predicate Pressed(ts: seq<Task>, x: Exec, count: seq<nat>, l: nat) {
    AllOnGrid(ts, x, count) && x.s.jiffies == Longest(ts) + SumOf(Credits(x, count)) && Stands(ts, x, count, l)
  }

  lemma PressedAfter(ts: seq<Task>, x: Exec, count: seq<nat>, l: nat, k: nat, x': Exec, n: nat, d: nat)
    requires Pressed(ts, x, count, l) && Distinct(ts) && k < |ts|
    requires |x'.s.tasks| == |ts| && x'.s.tasks == x.s.tasks[k := x'.s.tasks[k]]
    requires forall i :: 0 <= i < |ts| && i != k ==> Count(x'.used, ts[i].pid) == Count(x.used, ts[i].pid)
    requires OnGrid(Longest(ts), ts[k], x'.s.tasks[k], Count(x'.used, ts[k].pid), n)
    requires Credit(x'.s.tasks[k], Count(x'.used, ts[k].pid), n)
             == Credit(x.s.tasks[k], Count(x.used, ts[k].pid), count[k]) + d
    requires x'.s.jiffies == x.s.jiffies + d
    requires k == l ==> x'.s.tasks[k].state != Sleeping && n == 1
    ensures Pressed(ts, x', count[k := n], l)
  {
    var c, c' := Credits(x, count), Credits(x', count[k := n]);
    forall i | 0 <= i < |ts| ensures x.s.tasks[i].pid == ts[i].pid {
      assert OnGrid(Longest(ts), ts[i], x.s.tasks[i], Count(x.used, ts[i].pid), count[i]);
    }
    assert x'.s.tasks[k].pid == ts[k].pid;
    assert c' == c[k := c[k] + d];
    SumOfBumped(c, k, d);
  }

  lemma NextCredit(c: nat, p: nat)
    ensures (c + 1) * p == c * p + p
  {
  }

  lemma OnGridAt(ts: seq<Task>, x: Exec, count: seq<nat>, k: nat)
    requires AllOnGrid(ts, x, count) && k < |ts|
    ensures x.s.tasks[k].pid == ts[k].pid && x.s.tasks[k].period == ts[k].period
    ensures OnGrid(Longest(ts), ts[k], x.s.tasks[k], Count(x.used, ts[k].pid), count[k])
  {
  }

  lemma OtherPids(ts: seq<Task>, k: nat)
    requires Distinct(ts) && k < |ts|
    ensures forall i :: 0 <= i < |ts| && i != k ==> ts[i].pid != ts[k].pid
  {
  }

  /** A task on the grid that is released is on it once more. */
  lemma ReleasedOnGrid(at: nat, base: Task, t: Task, used: nat, count: nat)
    requires OnGrid(at, base, t, used, count) && t.state == Sleeping
    ensures var t' := t.(state := Ready, timer := None);
            OnGrid(at, base, t', 0, count + 1) && Credit(t', 0, count + 1) == Credit(t, used, count)
  {
    NextCredit(count, t.period);
    NextCredit(count, t.processingTime);
  }

  lemma PressedExpire(ts: seq<Task>, x: Exec, count: seq<nat>, l: nat, pid: nat) returns (count': seq<nat>)
    requires Pressed(ts, x, count, l) && Distinct(ts) && Consistent(x.s) && Enabled(x.s, Expire(pid))
    ensures Pressed(ts, Execute(x, Expire(pid)), count', l)
  {
    var k := Find(x.s.tasks, pid);
    var x' := Execute(x, Expire(pid));
    OnGridAt(ts, x, count, k);
    OtherPids(ts, k);
    assert TaskOk(x.s.jiffies, x.s.tasks[k]);
    ReleasedOnGrid(Longest(ts), ts[k], x.s.tasks[k], Count(x.used, pid), count[k]);
    PressedAfter(ts, x, count, l, k, x', count[k] + 1, 0);
    count' := count[k := count[k] + 1];
  }

  lemma SomebodyRuns(s: State, k: nat)
    requires GuardedInv(s) && !s.wake && k < |s.tasks| && s.tasks[k].state != Sleeping
    ensures s.current.Some?
  {
  }

  lemma TickingJob(x: Exec) returns (k: nat)
    requires GuardedInv(x.s) && Plays(x, Tick) && x.s.current.Some?
    ensures k < |x.s.tasks| && x.s.current == Some(x.s.tasks[k].pid) && x.s.tasks[k].state == Running
    ensures Count(x.used, x.s.tasks[k].pid) < x.s.tasks[k].processingTime
  {
    k :| 0 <= k < |x.s.tasks| && x.s.tasks[k].pid == x.s.current.value && x.s.tasks[k].state == Running;
    LookupIs(x.s.tasks, k);
  }

  lemma TickUses(x: Exec, pid: nat)
    requires x.s.current == Some(pid) && Enabled(x.s, Tick)
    ensures var x' := Execute(x, Tick);
            && x'.s == x.s.(jiffies := x.s.jiffies + 1)
            && forall q: nat :: Count(x'.used, q) == Count(x.used, q) + if q == pid then 1 else 0
  {
  }

  lemma PressedTick(ts: seq<Task>, x: Exec, count: seq<nat>, l: nat)
    requires Pressed(ts, x, count, l) && Distinct(ts) && GuardedInv(x.s) && Plays(x, Tick)
    ensures Pressed(ts, Execute(x, Tick), count, l)
  {
    SomebodyRuns(x.s, l);
    var k := TickingJob(x);
    TickUses(x, x.s.tasks[k].pid);
    OnGridAt(ts, x, count, k);
    OtherPids(ts, k);
    assert x.s.tasks == x.s.tasks[k := x.s.tasks[k]] && count == count[k := count[k]];
    PressedAfter(ts, x, count, l, k, Execute(x, Tick), count[k], 1);
  }

  lemma SameOnGrid(at: nat, base: Task, t: Task, t': Task, used: nat, count: nat)
    requires OnlyStateDiffers(t, t') && OnGrid(at, base, t, used, count)
    ensures OnGrid(at, base, t', used, count) && Credit(t', used, count) == Credit(t, used, count) && t'.pid == t.pid
  {
  }

  lemma PressedPointwise(ts: seq<Task>, x: Exec, count: seq<nat>, l: nat, x': Exec)
    requires Pressed(ts, x, count, l) && |x'.s.tasks| == |ts| && x'.used == x.used && x'.s.jiffies == x.s.jiffies
    requires forall i :: 0 <= i < |ts| ==> OnlyStateDiffers(x.s.tasks[i], x'.s.tasks[i])
    ensures Pressed(ts, x', count, l)
  {
    forall i | 0 <= i < |ts|
      ensures OnGrid(Longest(ts), ts[i], x'.s.tasks[i], Count(x'.used, ts[i].pid), count[i])
      ensures Credits(x', count)[i] == Credits(x, count)[i]
    {
      OnGridAt(ts, x, count, i);
      SameOnGrid(Longest(ts), ts[i], x.s.tasks[i], x'.s.tasks[i], Count(x.used, ts[i].pid), count[i]);
    }
    assert Credits(x', count) == Credits(x, count);
    assert OnlyStateDiffers(x.s.tasks[l], x'.s.tasks[l]);
  }

  lemma PressedDispatch(ts: seq<Task>, x: Exec, count: seq<nat>, l: nat)
    requires Pressed(ts, x, count, l) && Consistent(x.s)
    ensures Pressed(ts, Execute(x, Dispatch), count, l)
  {
    Dispatched(x);
    PressedPointwise(ts, x, count, l, Execute(x, Dispatch));
  }

  lemma PressedYield(ts: seq<Task>, x: Exec, count: seq<nat>, l: nat, k: nat)
    requires Pressed(ts, x, count, l) && Distinct(ts) && Consistent(x.s) && InTime(x.s)
    requires k < |ts| && k != l && Finished(x, k)
    ensures Pressed(ts, Execute(x, Yield(x.s.tasks[k].pid)), count, l)
  {
    FindIs(x.s.tasks, k);
    NoSkip(x.s, k);
    OnGridAt(ts, x, count, k);
    OnGridAt(ts, x, count, l);
    OtherPids(ts, k);
    assert count == count[k := count[k]];
    PressedAfter(ts, x, count, l, k, Execute(x, Yield(x.s.tasks[k].pid)), count[k], 0);
  }

  // ---- The last of the longest-period tasks waits to the end ----

  /** No other task stands. */
  ghost predicate Alone(ts: seq<Task>, x: Exec, count: seq<nat>, l: nat)
    requires ts != [] && |ts| == |x.s.tasks| == |count|
  {
    Stands(ts, x, count, l) && forall k :: 0 <= k < |ts| && k != l ==> !Stands(ts, x, count, k)
  }

  lemma {:induction false} EverythingServed(ts: seq<Task>, c: seq<int>, t: nat)
    requires |c| == |ts| && forall i :: 0 <= i < |ts| ==> c[i] >= CeilDiv(t, ts[i].period) * ts[i].processingTime
    ensures Demand(LoadsOf(ts), t) <= SumOf(c)
  {
    if ts != [] {
      EverythingServed(ts[1..], c[1..], t);
      assert LoadsOf(ts)[1..] == LoadsOf(ts[1..]);
    }
  }

  /** While the only task that stands is on the processor and done, nothing is awake but
      tasks of its period released anew. */
  lemma OthersAwake(ts: seq<Task>, x: Exec, count: seq<nat>, l: nat, i: nat)
    requires Ascending(ts) && Pressed(ts, x, count, l) && Alone(ts, x, count, l) && GuardedInv(x.s) && !x.s.wake
    requires Finished(x, l) && i < |ts| && i != l && x.s.tasks[i].state != Sleeping
    ensures ts[i].period == Longest(ts) && count[i] >= 2
  {
    OnGridAt(ts, x, count, i);
    OnGridAt(ts, x, count, l);
    OtherPids(ts, l);
    assert !Stands(ts, x, count, i);
  }

  lemma OneJob(c: int, count: nat, cost: nat, used: nat)
    requires count >= 2 && c == count * cost - (cost - used)
    ensures c >= cost
  {
    Loads.MulOrder(2, count, cost);
  }

  lemma CreditCovers(ts: seq<Task>, x: Exec, count: seq<nat>, l: nat, i: nat, t: nat)
    requires Ascending(ts) && Pressed(ts, x, count, l) && Alone(ts, x, count, l) && GuardedInv(x.s) && !x.s.wake
    requires Finished(x, l) && i < |ts| && t <= Longest(ts) && t <= count[i] * ts[i].period
    ensures Credits(x, count)[i] >= CeilDiv(t, ts[i].period) * ts[i].processingTime
  {
    OnGridAt(ts, x, count, i);
    if x.s.tasks[i].state == Sleeping || i == l {
      CeilDivAtMost(t, ts[i].period, count[i]);
      Loads.MulOrder(CeilDiv(t, ts[i].period), count[i], ts[i].processingTime);
    } else {
      OthersAwake(ts, x, count, l, i);
      OneJob(Credits(x, count)[i], count[i], ts[i].processingTime, Count(x.used, ts[i].pid));
      CeilDivAtMost(t, ts[i].period, 1);
      Loads.MulOrder(CeilDiv(t, ts[i].period), 1, ts[i].processingTime);
    }
  }

  lemma ReleasesCover(ts: seq<Task>, x: Exec, count: seq<nat>, l: nat, i: nat)
    requires Pressed(ts, x, count, l) && Consistent(x.s) && InTime(x.s) && i < |ts|
    ensures x.s.jiffies - Longest(ts) <= count[i] * ts[i].period && 1 <= count[i] * ts[i].period
  {
    OnGridAt(ts, x, count, i);
    assert TaskOk(x.s.jiffies, x.s.tasks[i]);
    Loads.MulOrder(1, count[i], ts[i].period);
  }

  /** Up to and including the time of its next release the last task that stands has not done its work. */
  lemma LastNeverDone(ts: seq<Task>, x: Exec, count: seq<nat>, l: nat)
    requires Ascending(ts) && Overloaded(ts) && Pressed(ts, x, count, l) && GuardedInv(x.s) && InTime(x.s) && !x.s.wake
    requires Alone(ts, x, count, l) && Longest(ts) <= x.s.jiffies <= 2 * Longest(ts)
    ensures !Finished(x, l)
  {
    if Finished(x, l) {
      var t := if x.s.jiffies == Longest(ts) then 1 else x.s.jiffies - Longest(ts);
      forall i | 0 <= i < |ts| ensures Credits(x, count)[i] >= CeilDiv(t, ts[i].period) * ts[i].processingTime {
        ReleasesCover(ts, x, count, l, i);
        CreditCovers(ts, x, count, l, i, t);
      }
      EverythingServed(ts, Credits(x, count), t);
      assert false;
    }
  }

  // ---- Finished jobs yield at once ----

  /** No job that waits for the processor is finished, and the one that is on it is not
      while a dispatch is pending. */
  ghost predicate Diligent(x: Exec) {
    && (forall k :: 0 <= k < |x.s.tasks| && x.s.tasks[k].state == Ready ==> Unfinished(x, k))
    && (x.s.wake ==> forall k :: 0 <= k < |x.s.tasks| ==> !Finished(x, k))
  }

  /** Its job has work left, if it ever had any. */
  predicate Unfinished(x: Exec, k: nat)
    requires k < |x.s.tasks|
  {
    x.s.tasks[k].processingTime > 0 ==> Count(x.used, x.s.tasks[k].pid) < x.s.tasks[k].processingTime
  }

  lemma DiligentYield(x: Exec, k: nat)
    requires GuardedInv(x.s) && InTime(x.s) && Diligent(x) && k < |x.s.tasks| && Finished(x, k)
    ensures Diligent(Execute(x, Yield(x.s.tasks[k].pid)))
  {
    FindIs(x.s.tasks, k);
    NoSkip(x.s, k);
    var x' := Execute(x, Yield(x.s.tasks[k].pid));
    forall i | 0 <= i < |x'.s.tasks| ensures x'.s.tasks[i].state != Running {
      assert i == k || x'.s.tasks[i] == x.s.tasks[i];
    }
    forall i | 0 <= i < |x'.s.tasks| && x'.s.tasks[i].state == Ready ensures Unfinished(x', i) {
      assert i != k && x'.s.tasks[i] == x.s.tasks[i] && Unfinished(x, i);
    }
  }

  lemma DiligentExpire(x: Exec, pid: nat)
    requires GuardedInv(x.s) && Diligent(x) && Plays(x, Expire(pid)) && Routine(x, Expire(pid))
    ensures Diligent(Execute(x, Expire(pid)))
  {
    var k := Find(x.s.tasks, pid);
    var x' := Execute(x, Expire(pid));
    forall i | 0 <= i < |x'.s.tasks|
      ensures x'.s.tasks[i].state == Ready ==> Unfinished(x', i)
      ensures !Finished(x', i)
    {
      if i != k {
        assert x'.s.tasks[i] == x.s.tasks[i] && x.s.tasks[i].pid != pid && !Finished(x, i);
      }
    }
  }

  lemma DiligentDispatch(x: Exec)
    requires GuardedInv(x.s) && Diligent(x) && Routine(x, Dispatch)
    ensures Diligent(Execute(x, Dispatch))
  {
    var x' := Execute(x, Dispatch);
    Dispatched(x);
    forall i | 0 <= i < |x'.s.tasks| && x'.s.tasks[i].state == Ready ensures Unfinished(x', i) {
      assert OnlyStateDiffers(x.s.tasks[i], x'.s.tasks[i]) && !Finished(x, i);
    }
  }

  lemma DiligentTick(x: Exec)
    requires GuardedInv(x.s) && Diligent(x) && Plays(x, Tick)
    ensures Diligent(Execute(x, Tick))
  {
    var x' := Execute(x, Tick);
    forall i | 0 <= i < |x'.s.tasks| && x'.s.tasks[i].state == Ready ensures Unfinished(x', i) {
      assert x'.s.tasks[i] == x.s.tasks[i] && Unfinished(x, i);
    }
  }

  // ---- The miss ----

  lemma InTimeStep(x: Exec, e: Event)
    requires GuardedInv(x.s) && InTime(x.s) && Plays(x, e) && (e.Expire? || e.Dispatch? || e.Tick? || e.Yield?)
    requires e.Tick? ==> forall k :: 0 <= k < |x.s.tasks| ==> !Overdue(x.s, k)
    ensures InTime(Execute(x, e).s)
  {
    var s' := Execute(x, e).s;
    match e
    case Expire(pid) => assert TaskOk(x.s.jiffies, x.s.tasks[Find(x.s.tasks, pid)]);
    case Dispatch =>
      DispatchOnlyRuns(Guarded, x.s);
      forall i | 0 <= i < |s'.tasks| && s'.tasks[i].state != Sleeping
        ensures s'.jiffies <= s'.tasks[i].deadlineJiff + s'.tasks[i].period
      {
        assert OnlyStateDiffers(x.s.tasks[i], s'.tasks[i]);
      }
    case Tick =>
      forall i | 0 <= i < |s'.tasks| && s'.tasks[i].state != Sleeping
        ensures s'.jiffies <= s'.tasks[i].deadlineJiff + s'.tasks[i].period
      {
        assert !Overdue(x.s, i);
      }
    case Yield(pid) =>
      NoSkip(x.s, Find(x.s.tasks, pid));
  }

  /** All that holds after the common release as long as no job is overdue when the clock ticks. */
  ghost predicate Onward(ts: seq<Task>, x: Exec, count: seq<nat>, l: nat) {
    && Pressed(ts, x, count, l) && GuardedInv(x.s) && InTime(x.s) && Diligent(x)
    && Longest(ts) <= x.s.jiffies <= 2 * Longest(ts)
  }

  /** When a job yields, some task still stands. */
  lemma OnwardYield(ts: seq<Task>, x: Exec, count: seq<nat>, l: nat, k: nat) returns (l': nat)
    requires Ascending(ts) && Overloaded(ts) && Onward(ts, x, count, l) && k < |ts| && Finished(x, k)
    ensures Pressed(ts, Execute(x, Yield(x.s.tasks[k].pid)), count, l')
  {
    l' := l;
    if k == l {
      if Alone(ts, x, count, l) {
        LastNeverDone(ts, x, count, l);
      } else {
        l' :| 0 <= l' < |ts| && l' != l && Stands(ts, x, count, l');
      }
    }
    PressedYield(ts, x, count, l', k);
  }

  lemma OnwardStep(ts: seq<Task>, x: Exec, count: seq<nat>, l: nat, e: Event) returns (count': seq<nat>, l': nat)
    requires Ascending(ts) && Overloaded(ts) && Onward(ts, x, count, l) && Plays(x, e) && Routine(x, e)
    ensures Pressed(ts, Execute(x, e), count', l') && Diligent(Execute(x, e))
  {
    count', l' := count, l;
    match e
    case Expire(pid) =>
      count' := PressedExpire(ts, x, count, l, pid);
      DiligentExpire(x, pid);
    case Dispatch =>
      PressedDispatch(ts, x, count, l);
      DiligentDispatch(x);
    case Tick =>
      PressedTick(ts, x, count, l);
      DiligentTick(x);
    case Yield(pid) =>
      var k :| 0 <= k < |x.s.tasks| && x.s.tasks[k].pid == pid && Finished(x, k);
      l' := OnwardYield(ts, x, count, l, k);
      DiligentYield(x, k);
  }

  /** The tasks registered are those of `ts`. */
  predicate Holds(ts: seq<Task>, s: State) {
    |s.tasks| == |ts| && forall i :: 0 <= i < |ts| ==> LoadOf(s.tasks[i]) == LoadOf(ts[i])
  }

  lemma PressedHolds(ts: seq<Task>, x: Exec, count: seq<nat>, l: nat)
    requires Pressed(ts, x, count, l)
    ensures Holds(ts, x.s)
  {
    forall i | 0 <= i < |ts| ensures LoadOf(x.s.tasks[i]) == LoadOf(ts[i]) {
      OnGridAt(ts, x, count, i);
    }
  }

  lemma LastIsOverdue(ts: seq<Task>, x: Exec, count: seq<nat>, l: nat)
    requires Pressed(ts, x, count, l) && x.s.jiffies == 2 * Longest(ts)
    ensures Overdue(x.s, l)
  {
    OnGridAt(ts, x, count, l);
    assert count[l] * Longest(ts) == Longest(ts);
  }

  /** The clock is about to tick, and job k, whose next release has come, has work left. */
  ghost predicate Misses(x: Exec, k: nat) {
    Plays(x, Tick) && k < |x.s.tasks| && Overdue(x.s, k) && Unfinished(x, k)
  }

  lemma OverdueMisses(x: Exec, k: nat)
    requires GuardedInv(x.s) && Diligent(x) && Plays(x, Tick) && Routine(x, Tick) && k < |x.s.tasks| && Overdue(x.s, k)
    ensures Misses(x, k)
  {
    assert !Finished(x, k);
  }

  lemma StaysOrderly(x: Exec, e: Event)
    requires GuardedInv(x.s) && InTime(x.s) && Plays(x, e) && Routine(x, e)
    requires e.Tick? ==> forall k :: 0 <= k < |x.s.tasks| ==> !Overdue(x.s, k)
    ensures GuardedInv(Execute(x, e).s) && InTime(Execute(x, e).s)
  {
    GuardedStep(REAL_TIME, x.s, e);
    InTimeStep(x, e);
  }

  /** The clock does not leave the first period after the common release. */
  lemma TimeAfter(ts: seq<Task>, x: Exec, count: seq<nat>, l: nat, e: Event)
    requires Pressed(ts, x, count, l) && Longest(ts) <= x.s.jiffies <= 2 * Longest(ts) && Routine(x, e)
    requires e.Tick? ==> forall k :: 0 <= k < |x.s.tasks| ==> !Overdue(x.s, k)
    ensures Longest(ts) <= Execute(x, e).s.jiffies <= 2 * Longest(ts)
  {
    if e.Tick? && x.s.jiffies == 2 * Longest(ts) {
      LastIsOverdue(ts, x, count, l);
    }
  }

  lemma OneEventOn(ts: seq<Task>, reach: iset<Exec>, x: Exec, count: seq<nat>, l: nat, e: Event)
    returns (y: Exec, count': seq<nat>, l': nat)
    requires Ascending(ts) && Overloaded(ts) && Closed(ts, reach) && x in reach && Onward(ts, x, count, l)
    requires Plays(x, e) && Routine(x, e) && (e.Tick? ==> forall j :: 0 <= j < |x.s.tasks| ==> !Overdue(x.s, j))
    ensures y in reach && y == Execute(x, e) && Onward(ts, y, count', l')
  {
    y := Execute(x, e);
    count', l' := OnwardStep(ts, x, count, l, e);
    PressedHolds(ts, y, count', l');
    StaysOrderly(x, e);
    TimeAfter(ts, x, count, l, e);
    OneMore(ts, reach, x, e);
  }

  lemma {:induction false} PressOn(ts: seq<Task>, reach: iset<Exec>, x: Exec, count: seq<nat>, l: nat)
    returns (y: Exec, k: nat)
    requires Ascending(ts) && Overloaded(ts) && Closed(ts, reach) && x in reach && Onward(ts, x, count, l)
    ensures y in reach && Holds(ts, y.s) && Misses(y, k)
    decreases 2 * Longest(ts) - x.s.jiffies, Weights(x.s.tasks, x.s.jiffies), x.s.wake
  {
    var e := NextStep(x);
    if j :| 0 <= j < |x.s.tasks| && e == Tick && Overdue(x.s, j) {
      y, k := x, j;
      PressedHolds(ts, x, count, l);
      OverdueMisses(x, k);
    } else {
      var z, count', l' := OneEventOn(ts, reach, x, count, l, e);
      y, k := PressOn(ts, reach, z, count', l');
    }
  }

  lemma {:induction false} SumOfZeros(c: seq<int>)
    requires forall i :: 0 <= i < |c| ==> c[i] == 0
    ensures SumOf(c) == 0
  {
    if c != [] {
      SumOfZeros(c[1..]);
    }
  }

  lemma ReleasedIsPressed(ts: seq<Task>, x: Exec)
    requires Ascending(ts) && Unused(x.used)
    requires x.s == State(Released(ts, |ts|, Longest(ts)), None, Longest(ts), true)
    ensures Pressed(ts, x, seq(|ts|, _ => 1), |ts| - 1)
  {
    var count: seq<nat> := seq(|ts|, _ => 1);
    forall i | 0 <= i < |ts|
      ensures OnGrid(Longest(ts), ts[i], x.s.tasks[i], Count(x.used, ts[i].pid), count[i])
      ensures Credits(x, count)[i] == 0
    {
      assert Count(x.used, ts[i].pid) == 0;
    }
    SumOfZeros(Credits(x, count));
  }

  lemma ReleasedIsGuarded(ts: seq<Task>, x: Exec)
    requires Ascending(ts) && x.s == State(Released(ts, |ts|, Longest(ts)), None, Longest(ts), true)
    ensures GuardedInv(x.s) && InTime(x.s)
  {
    forall i, j | 0 <= i < j < |ts| ensures x.s.tasks[i].pid != x.s.tasks[j].pid {
      assert ts[i].pid != ts[j].pid;
    }
  }

  lemma ReleasedIsOnward(ts: seq<Task>, x: Exec)
    requires Ascending(ts) && Unused(x.used)
    requires x.s == State(Released(ts, |ts|, Longest(ts)), None, Longest(ts), true)
    ensures Onward(ts, x, seq(|ts|, _ => 1), |ts| - 1)
  {
    ReleasedIsPressed(ts, x);
    ReleasedIsGuarded(ts, x);
    forall k | 0 <= k < |x.s.tasks| ensures Unfinished(x, k) {
      assert Count(x.used, x.s.tasks[k].pid) == 0;
    }
  }

  lemma CriticalState(ts: seq<Task>, reach: iset<Exec>) returns (x: Exec, k: nat)
    requires Ascending(ts) && Overloaded(ts) && Closed(ts, reach)
    ensures x in reach && Holds(ts, x.s) && Misses(x, k)
  {
    var start := ReleaseRun(ts, reach, |ts|);
    ReleasedIsOnward(ts, start);
    x, k := PressOn(ts, reach, start, seq(|ts|, _ => 1), |ts| - 1);
  }

  // ---- In a patient run from which nobody has departed ----

  predicate Fair(n: nat, es: seq<Event>) {
    Patient(n, es) && DeskAfter(es).charges == []
  }

  lemma FairOneMore(n: nat, es: seq<Event>, e: Event)
    requires Fair(n, es) && Plays(Execution(es), e) && !e.Deregister? && |Execute(Execution(es), e).s.tasks| <= n
    requires e.Register? ==> e.time <= LARGEST_SAFE_TIME && Affords(Desk(Execution(es), []), e)
    ensures Fair(n, es + [e]) && Execution(es + [e]) == Execute(Execution(es), e)
  {
    DeskIsExecution(es);
    DeskIsExecution(es + [e]);
    assert (es + [e])[..|es|] == es;
  }

  /** Such a run leads to x. */
  ghost predicate Fairly(n: nat, x: Exec) {
    exists es :: Fair(n, es) && Execution(es) == x
  }

  ghost function FairlyReached(n: nat): iset<Exec> {
    iset x: Exec | Fairly(n, x)
  }

  lemma FairlyOneMore(n: nat, x: Exec, e: Event)
    requires Fairly(n, x) && Plays(x, e) && !e.Deregister? && |Execute(x, e).s.tasks| <= n
    requires e.Register? ==> e.time <= LARGEST_SAFE_TIME && Affords(Desk(x, []), e)
    ensures Fairly(n, Execute(x, e))
  {
    var es :| Fair(n, es) && Execution(es) == x;
    FairOneMore(n, es, e);
  }

  lemma FairlyReachedIsClosed(ts: seq<Task>, n: nat)
    requires |ts| <= n
    ensures Closed(ts, FairlyReached(n))
  {
    assert Fair(n, []) && Execution([]) == IDLE;
    forall x, e | x in FairlyReached(n) && Fits(ts, x, e) ensures Execute(x, e) in FairlyReached(n) {
      FairlyOneMore(n, x, e);
    }
  }

  /** The converse of the deadline guarantee: accepted tasks whose demand no window up to
      the longest period fits miss a deadline in some patient run in which every task
      behaves and none departs: a job still has work left when its next release has come,
      and the clock moves on. */
  lemma CriticalInstant(ts: seq<Task>) returns (es: seq<Event>, k: nat)
    requires Ascending(ts) && Overloaded(ts)
    ensures Fair(|ts|, es) && Holds(ts, Execution(es).s) && Misses(Execution(es), k)
  {
    FairlyReachedIsClosed(ts, |ts|);
    var x;
    x, k := CriticalState(ts, FairlyReached(|ts|));
    assert Fairly(|ts|, x);
    es :| Fair(|ts|, es) && Execution(es) == x;
  }

  /** After that tick, whenever the job yields, it takes the branch for a passed deadline. */
  lemma MissSkips(x: Exec, k: nat)
    requires Consistent(x.s) && Misses(x, k)
    ensures k < |Execute(x, Tick).s.tasks| && Skips(REAL_TIME, Execute(x, Tick).s, Execute(x, Tick).s.tasks[k])
  {
    assert TaskOk(x.s.jiffies, x.s.tasks[k]);
  }
}
