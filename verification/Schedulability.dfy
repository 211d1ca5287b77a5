/** The end-to-end guarantee of the guarded scheduler: admitted tasks meet their deadlines. */
module Schedulability {
  import opened Options
  import opened Tasks
  import opened Loads
  import opened Scheduler
  import opened SchedulerInvariants
  import opened Admission
  import opened Processor
  import opened UtilizationBound
  import Guarantee
  import TimeDemand

  // ---- Runs over a fixed set of tasks ----

  /** An event of such a run; every task admitted is one of `u`. */
  predicate Behaves(u: seq<Load>, x: Exec, e: Event) {
    && Plays(x, e)
    && (e.Register? && Admits(x.s.tasks, e.period, e.time) ==> Load(e.pid, e.period, e.time) in u)
  }

  predicate WellBehaved(u: seq<Load>, es: seq<Event>) {
    es == [] || (WellBehaved(u, es[..|es| - 1]) && Behaves(u, Execution(es[..|es| - 1]), es[|es| - 1]))
  }

  /** A pid stands for one task. */
  predicate Universe(u: seq<Load>) {
    forall a, b :: a in u && b in u && a.pid == b.pid ==> a == b
  }

  // ---- One task in a window ----

  function TaskOf(x: Exec, l: Load): Option<Task> {
    Lookup(x.s.tasks, l.pid)
  }

  predicate Active(x: Exec, l: Load) {
    TaskOf(x, l).Some? && TaskOf(x, l).value.state != Sleeping
  }

  /** The earliest time of the next release of `l`, given what is known now. */
  function Next(x: Exec, l: Load): nat {
    var o := TaskOf(x, l);
    if o == None || !o.value.deadlineSet then x.s.jiffies + l.period
    else if o.value.state == Sleeping then o.value.deadlineJiff
    else o.value.deadlineJiff + l.period
  }

  /** The ticks the active job of `l` may still use. */
  function Left(x: Exec, l: Load): int {
    if Active(x, l) then l.cost - Count(x.used, l.pid) else 0
  }

  /** A window in which the processor has been busy with a level: when it started, and
      how many jobs each task has released in it. */
  datatype Window = Window(start: nat, count: map<nat, nat>)

  predicate Tracks(x: Exec, w: Window, l: Load) {
    && w.start + Count(w.count, l.pid) * l.period <= Next(x, l) <= x.s.jiffies + l.period
    && (Active(x, l) ==> Count(w.count, l.pid) >= 1)
    && Left(x, l) >= 0
  }

  /** The ticks of the window already spent on jobs of `l`, at least. */
  function ServedOne(x: Exec, w: Window, l: Load): int {
    Count(w.count, l.pid) * l.cost - Left(x, l)
  }

  function Extend(w: Window, e: Event): Window {
    match e
    case Expire(pid) => w.(count := w.count[pid := Count(w.count, pid) + 1])
    case _ => w
  }

  /** Every task is one of `u`. */
  ghost predicate Known(u: seq<Load>, ts: seq<Task>) {
    forall i :: 0 <= i < |ts| ==> LoadOf(ts[i]) in u
  }

  ghost predicate Sound(u: seq<Load>, x: Exec) {
    Universe(u) && GuardedInv(x.s) && OnTime(x.s) && Known(u, x.s.tasks)
  }

  function Spent(x: Exec, e: Event, l: Load): nat {
    if e == Tick && x.s.current == Some(l.pid) then 1 else 0
  }

  lemma SoundLookup(u: seq<Load>, x: Exec, l: Load)
    requires Sound(u, x) && l in u && TaskOf(x, l).Some?
    ensures var t := TaskOf(x, l).value;
            LoadOf(t) == l && TaskOk(x.s.jiffies, t) && (x.s.current == Some(l.pid) <==> t.state == Running)
    ensures var t := TaskOf(x, l).value; t.state != Sleeping ==> x.s.jiffies < t.deadlineJiff + l.period
  {
    var i :| 0 <= i < |x.s.tasks| && x.s.tasks[i] == TaskOf(x, l).value;
  }

  // ---- What an event does to one task ----

  lemma AfterRegister(u: seq<Load>, x: Exec, e: Event, l: Load)
    requires Sound(u, x) && e.Register? && Enabled(x.s, e) && l in u
    ensures var x' := Execute(x, e);
            TaskOf(x', l) == TaskOf(x, l)
            || (TaskOf(x, l) == None && TaskOf(x', l).Some? && TaskOf(x', l).value.state == Sleeping
                && !TaskOf(x', l).value.deadlineSet)
  {
    if e.pid == l.pid {
      NotFound(x.s.tasks, l.pid);
      LookupNone(x.s.tasks, l.pid);
    }
  }

  lemma AfterYield(u: seq<Load>, x: Exec, pid: nat, l: Load)
    requires Sound(u, x) && Enabled(x.s, Yield(pid)) && l in u
    ensures var x' := Execute(x, Yield(pid));
            if pid == l.pid then
              && TaskOf(x, l).Some? && TaskOf(x', l).Some?
              && TaskOf(x', l).value.state == Sleeping && TaskOf(x', l).value.deadlineSet
              && TaskOf(x', l).value.deadlineJiff
                 == (if TaskOf(x, l).value.deadlineSet then TaskOf(x, l).value.deadlineJiff else x.s.jiffies) + l.period
            else TaskOf(x', l) == TaskOf(x, l)
  {
    var k := Find(x.s.tasks, pid);
    NoSkip(x.s, k);
    LookupIs(x.s.tasks, k);
    LookupRenewed(x.s.tasks, k, OnYield(REAL_TIME, x.s, k).tasks[k], l.pid);
    if pid == l.pid {
      SoundLookup(u, x, l);
    }
  }

  lemma AfterExpire(u: seq<Load>, x: Exec, pid: nat, l: Load)
    requires Sound(u, x) && Enabled(x.s, Expire(pid)) && l in u
    ensures var x' := Execute(x, Expire(pid));
            if pid == l.pid then
              && TaskOf(x, l).Some? && TaskOf(x', l).Some?
              && TaskOf(x, l).value.state == Sleeping && TaskOf(x, l).value.deadlineSet
              && TaskOf(x', l).value.state == Ready && TaskOf(x', l).value.deadlineSet
              && TaskOf(x', l).value.deadlineJiff == TaskOf(x, l).value.deadlineJiff == x.s.jiffies
            else TaskOf(x', l) == TaskOf(x, l)
  {
    var k := Find(x.s.tasks, pid);
    assert TaskOk(x.s.jiffies, x.s.tasks[k]);
    LookupIs(x.s.tasks, k);
    LookupRenewed(x.s.tasks, k, OnExpire(x.s, k).tasks[k], l.pid);
  }

  lemma AfterDispatch(x: Exec, l: Load)
    requires Consistent(x.s)
    ensures SameJob(TaskOf(x, l), TaskOf(Execute(x, Dispatch), l))
  {
    var s' := OnDispatch(Guarded, x.s);
    DispatchOnlyRuns(Guarded, x.s);
    LookupPointwise(x.s.tasks, s'.tasks, l.pid);
    assert Execute(x, Dispatch).s == s';
  }

  lemma CurrentIsActive(u: seq<Load>, x: Exec, l: Load)
    requires Sound(u, x) && l in u && x.s.current == Some(l.pid)
    ensures Active(x, l)
  {
    var i :| 0 <= i < |x.s.tasks| && x.s.tasks[i].pid == l.pid && x.s.tasks[i].state == Running;
    LookupIs(x.s.tasks, i);
  }

  lemma TickTracks(u: seq<Load>, x: Exec, w: Window, l: Load)
    requires Sound(u, x) && Behaves(u, x, Tick) && l in u && Tracks(x, w, l)
    ensures Tracks(Execute(x, Tick), w, l)
    ensures ServedOne(Execute(x, Tick), w, l) == ServedOne(x, w, l) + Spent(x, Tick, l)
  {
    if TaskOf(x, l).Some? {
      SoundLookup(u, x, l);
    }
    if x.s.current == Some(l.pid) {
      CurrentIsActive(u, x, l);
    }
    assert TaskOf(Execute(x, Tick), l) == TaskOf(x, l);
  }

  lemma Distribute(n: nat, p: nat)
    ensures (n + 1) * p == n * p + p
  {
  }

  /** Released once more. */
  lemma ReleasedTracks(x: Exec, w: Window, l: Load, x': Exec, w': Window)
    requires Tracks(x, w, l) && w'.start == w.start && x'.s.jiffies == x.s.jiffies
    requires Count(w'.count, l.pid) == Count(w.count, l.pid) + 1 && Count(x'.used, l.pid) == 0
    requires !Active(x, l) && Active(x', l) && Next(x, l) == x.s.jiffies && Next(x', l) == x.s.jiffies + l.period
    ensures Tracks(x', w', l) && ServedOne(x', w', l) == ServedOne(x, w, l)
  {
    Distribute(Count(w.count, l.pid), l.period);
    Distribute(Count(w.count, l.pid), l.cost);
  }

  lemma ExpireTracks(u: seq<Load>, x: Exec, pid: nat, w: Window, l: Load)
    requires Sound(u, x) && Enabled(x.s, Expire(pid)) && l in u && Tracks(x, w, l)
    ensures Tracks(Execute(x, Expire(pid)), Extend(w, Expire(pid)), l)
    ensures ServedOne(Execute(x, Expire(pid)), Extend(w, Expire(pid)), l) >= ServedOne(x, w, l)
  {
    AfterExpire(u, x, pid, l);
    if pid == l.pid {
      ReleasedTracks(x, w, l, Execute(x, Expire(pid)), Extend(w, Expire(pid)));
    }
  }

  lemma OthersTrack(u: seq<Load>, x: Exec, e: Event, w: Window, l: Load)
    requires Sound(u, x) && Behaves(u, x, e) && l in u && Tracks(x, w, l) && !e.Expire? && !e.Tick?
    ensures Tracks(Execute(x, e), w, l)
    ensures ServedOne(Execute(x, e), w, l) >= ServedOne(x, w, l)
  {
    var released := Count(w.count, l.pid) * l.period;
    if TaskOf(x, l).Some? {
      SoundLookup(u, x, l);
    }
    match e
    case Register(_, _, _) => AfterRegister(u, x, e, l);
    case Yield(pid) => AfterYield(u, x, pid, l);
    case Deregister(pid) => LookupRemoved(x.s.tasks, pid, l.pid);
    case Dispatch => AfterDispatch(x, l);
  }

  /** Every event keeps a task's account in a window: its releases stay a period apart,
      and the work credited to it grows by the ticks it has just run. */
  lemma KeepsTrack(u: seq<Load>, x: Exec, e: Event, w: Window, l: Load)
    requires Sound(u, x) && Behaves(u, x, e) && l in u && Tracks(x, w, l)
    ensures Tracks(Execute(x, e), Extend(w, e), l)
    ensures ServedOne(Execute(x, e), Extend(w, e), l) >= ServedOne(x, w, l) + Spent(x, e, l)
  {
    match e
    case Expire(pid) => ExpireTracks(u, x, pid, w, l);
    case Tick => TickTracks(u, x, w, l);
    case _ => OthersTrack(u, x, e, w, l);
  }

  // ---- A whole level in a window ----

  function Served(j: seq<Load>, x: Exec, w: Window): int {
    if j == [] then 0 else ServedOne(x, w, j[0]) + Served(j[1..], x, w)
  }

  ghost predicate AllTrack(j: seq<Load>, x: Exec, w: Window) {
    forall l :: l in j ==> Tracks(x, w, l)
  }

  /** The processor has been busy with the loads `j` since the window started, all their
      released work is accounted for, and the demand so far has always covered the time. */
  ghost predicate Busy(j: seq<Load>, x: Exec, w: Window) {
    && w.start <= x.s.jiffies
    && AllTrack(j, x, w)
    && x.s.jiffies - w.start <= Served(j, x, w)
    && forall t: nat :: 0 < t <= x.s.jiffies - w.start ==> t <= Demand(j, t)
  }

  lemma {:induction false} ServedGrows(j: seq<Load>, x: Exec, w: Window, x': Exec, w': Window)
    requires forall l: Load :: l in j ==> ServedOne(x', w', l) >= ServedOne(x, w, l)
    ensures Served(j, x', w') >= Served(j, x, w)
  {
    if j != [] {
      assert j[0] in j;
      ServedGrows(j[1..], x, w, x', w');
    }
  }

  lemma {:induction false} ServedGrowsBy(j: seq<Load>, x: Exec, w: Window, x': Exec, w': Window, k: nat)
    requires forall l: Load :: l in j ==> ServedOne(x', w', l) >= ServedOne(x, w, l)
    requires k < |j| && ServedOne(x', w', j[k]) >= ServedOne(x, w, j[k]) + 1
    ensures Served(j, x', w') >= Served(j, x, w) + 1
  {
    assert j[0] in j;
    if k == 0 {
      ServedGrows(j[1..], x, w, x', w');
    } else {
      ServedGrowsBy(j[1..], x, w, x', w', k - 1);
    }
  }

  /** Releases are a period apart, so no more of them fit the window than its length
      allows, and no more work is served than they ask for. */
  lemma ServedOneWithinDemand(x: Exec, x': Exec, w: Window, l: Load, t: nat)
    requires Tracks(x, w, l) && Left(x', l) >= 0 && t == x.s.jiffies - w.start + 1
    ensures ServedOne(x', w, l) <= CeilDiv(t, l.period) * l.cost
  {
    var n := Count(w.count, l.pid);
    CeilDivAtLeast(t, l.period, n);
    Loads.MulOrder(n, CeilDiv(t, l.period), l.cost);
  }

  lemma {:induction false} ServedWithinDemand(j: seq<Load>, x: Exec, x': Exec, w: Window, t: nat)
    requires forall l: Load :: l in j ==> Tracks(x, w, l) && Left(x', l) >= 0
    requires t == x.s.jiffies - w.start + 1
    ensures Served(j, x', w) <= Demand(j, t)
  {
    if j != [] {
      assert j[0] in j;
      ServedWithinDemand(j[1..], x, x', w, t);
      ServedOneWithinDemand(x, x', w, j[0], t);
    }
  }

  lemma {:induction false} NothingServed(j: seq<Load>, x: Exec, start: nat)
    requires forall l: Load :: l in j ==> !Active(x, l)
    ensures Served(j, x, Window(start, map[])) == 0
  {
    if j != [] {
      NothingServed(j[1..], x, start);
    }
  }

  // ---- The invariant: every level has a window ----

  predicate LevelActive(j: seq<Load>, x: Exec) {
    exists l :: l in j && Active(x, l)
  }

  /** While some task of a level is active, the clock ticks for a task of that level. */
  lemma LevelRuns(u: seq<Load>, top: nat, x: Exec) returns (l: Load)
    requires Sound(u, x) && Behaves(u, x, Tick) && LevelActive(Level(u, top), x)
    ensures l in Level(u, top) && x.s.current == Some(l.pid)
  {
    var a :| a in Level(u, top) && Active(x, a);
    SoundLookup(u, x, a);
    var j :| 0 <= j < |x.s.tasks| && x.s.tasks[j] == TaskOf(x, a).value;
    if x.s.tasks[j].state == Running {
      l := a;
    } else {
      var i :| 0 <= i < |x.s.tasks| && x.s.tasks[i].pid == x.s.current.value && x.s.tasks[i].state == Running;
      l := LoadOf(x.s.tasks[i]);
    }
  }

  lemma LevelTracks(u: seq<Load>, top: nat, x: Exec, e: Event, w: Window)
    requires Sound(u, x) && Behaves(u, x, e) && AllTrack(Level(u, top), x, w)
    ensures AllTrack(Level(u, top), Execute(x, e), Extend(w, e))
    ensures forall l: Load :: l in Level(u, top) ==>
              ServedOne(Execute(x, e), Extend(w, e), l) >= ServedOne(x, w, l) + Spent(x, e, l)
  {
    forall l | l in Level(u, top)
      ensures Tracks(Execute(x, e), Extend(w, e), l)
      ensures ServedOne(Execute(x, e), Extend(w, e), l) >= ServedOne(x, w, l) + Spent(x, e, l)
    {
      KeepsTrack(u, x, e, w, l);
    }
  }

  lemma TickServes(u: seq<Load>, top: nat, x: Exec, w: Window)
    requires Sound(u, x) && Behaves(u, x, Tick) && LevelActive(Level(u, top), x)
    requires AllTrack(Level(u, top), x, w)
    ensures Served(Level(u, top), Execute(x, Tick), w) >= Served(Level(u, top), x, w) + 1
  {
    LevelTracks(u, top, x, Tick, w);
    var cur := LevelRuns(u, top, x);
    var k :| 0 <= k < |Level(u, top)| && Level(u, top)[k] == cur;
    ServedGrowsBy(Level(u, top), x, w, Execute(x, Tick), w, k);
  }

  lemma StaysTracked(u: seq<Load>, top: nat, x: Exec, e: Event, w: Window)
    requires Sound(u, x) && Behaves(u, x, e) && AllTrack(Level(u, top), x, w)
    ensures AllTrack(Level(u, top), Execute(x, e), Extend(w, e))
  {
    LevelTracks(u, top, x, e, w);
  }

  lemma TickWithinDemand(u: seq<Load>, top: nat, x: Exec, w: Window, t: nat)
    requires Sound(u, x) && Behaves(u, x, Tick) && w.start <= x.s.jiffies && t == x.s.jiffies - w.start + 1
    requires AllTrack(Level(u, top), x, w)
    ensures Served(Level(u, top), Execute(x, Tick), w) <= Demand(Level(u, top), t)
  {
    StaysTracked(u, top, x, Tick, w);
    ServedWithinDemand(Level(u, top), x, Execute(x, Tick), w, t);
  }

  lemma StaysBusy(j: seq<Load>, x: Exec, w: Window, x': Exec, t: nat)
    requires Busy(j, x, w) && x'.s.jiffies == x.s.jiffies + 1 && AllTrack(j, x', w)
    requires t == x.s.jiffies - w.start + 1 && Served(j, x, w) + 1 <= Served(j, x', w) <= Demand(j, t)
    ensures Busy(j, x', w)
  {
  }

  lemma TickKeepsPace(u: seq<Load>, top: nat, j: seq<Load>, x: Exec, w: Window, x': Exec, t: nat)
    requires Sound(u, x) && Behaves(u, x, Tick) && j == Level(u, top) && LevelActive(j, x) && x' == Execute(x, Tick)
    requires AllTrack(j, x, w) && w.start <= x.s.jiffies && t == x.s.jiffies - w.start + 1
    ensures AllTrack(j, x', w) && Served(j, x, w) + 1 <= Served(j, x', w) <= Demand(j, t)
  {
    TickServes(u, top, x, w);
    TickWithinDemand(u, top, x, w, t);
    StaysTracked(u, top, x, Tick, w);
  }

  lemma BusyTick(u: seq<Load>, top: nat, x: Exec, w: Window)
    requires Sound(u, x) && Behaves(u, x, Tick) && Busy(Level(u, top), x, w) && LevelActive(Level(u, top), x)
    ensures Busy(Level(u, top), Execute(x, Tick), w)
  {
    var j, x', t := Level(u, top), Execute(x, Tick), x.s.jiffies - w.start + 1;
    TickKeepsPace(u, top, j, x, w, x', t);
    assert x'.s.jiffies == x.s.jiffies + 1;
    StaysBusy(j, x, w, x', t);
  }

  lemma NextAfterTick(u: seq<Load>, x: Exec, l: Load)
    requires Sound(u, x) && Enabled(x.s, Tick) && l in u && !Active(x, l) && Next(x, l) <= x.s.jiffies + l.period
    ensures x.s.jiffies + 1 <= Next(Execute(x, Tick), l) <= x.s.jiffies + 1 + l.period
  {
    assert TaskOf(Execute(x, Tick), l) == TaskOf(x, l);
    if TaskOf(x, l).Some? {
      SoundLookup(u, x, l);
      var i :| 0 <= i < |x.s.tasks| && x.s.tasks[i] == TaskOf(x, l).value;
      assert !Due(x.s, x.s.tasks[i]);
    }
  }

  lemma IdleTracks(u: seq<Load>, x: Exec, w: Window, l: Load)
    requires Sound(u, x) && Behaves(u, x, Tick) && l in u && Tracks(x, w, l) && !Active(x, l)
    ensures Tracks(Execute(x, Tick), Window(x.s.jiffies + 1, map[]), l) && !Active(Execute(x, Tick), l)
  {
    NextAfterTick(u, x, l);
    assert TaskOf(Execute(x, Tick), l) == TaskOf(x, l);
    assert Count(map[], l.pid) * l.period == 0;
  }

  lemma IdleTick(u: seq<Load>, top: nat, x: Exec, w: Window)
    requires Sound(u, x) && Behaves(u, x, Tick) && Busy(Level(u, top), x, w) && !LevelActive(Level(u, top), x)
    ensures Busy(Level(u, top), Execute(x, Tick), Window(x.s.jiffies + 1, map[]))
  {
    var j, x', w' := Level(u, top), Execute(x, Tick), Window(x.s.jiffies + 1, map[]);
    forall l | l in j ensures Tracks(x', w', l) && !Active(x', l) {
      IdleTracks(u, x, w, l);
    }
    NothingServed(j, x', w'.start);
  }

  lemma BusyOther(u: seq<Load>, top: nat, x: Exec, e: Event, w: Window)
    requires Sound(u, x) && Behaves(u, x, e) && !e.Tick? && Busy(Level(u, top), x, w)
    ensures Busy(Level(u, top), Execute(x, e), Extend(w, e))
  {
    var j, x', w' := Level(u, top), Execute(x, e), Extend(w, e);
    LevelTracks(u, top, x, e, w);
    ServedGrows(j, x, w, x', w');
  }

  ghost predicate HasWindow(u: seq<Load>, top: nat, x: Exec) {
    exists w :: Busy(Level(u, top), x, w)
  }

  lemma KeepsWindow(u: seq<Load>, top: nat, x: Exec, e: Event)
    requires Sound(u, x) && Behaves(u, x, e) && HasWindow(u, top, x)
    ensures HasWindow(u, top, Execute(x, e))
  {
    var w :| Busy(Level(u, top), x, w);
    if !e.Tick? {
      BusyOther(u, top, x, e, w);
    } else if LevelActive(Level(u, top), x) {
      BusyTick(u, top, x, w);
    } else {
      IdleTick(u, top, x, w);
    }
  }

  // ---- From windows to deadlines ----

  lemma FactorOrder(f: real, a: real, b: real)
    requires f >= 1.0 && 1.0 <= a <= b
    ensures f * a <= f * b && b <= f * b
  {
    UtilizationBound.MulOrder(a, b, f);
    UtilizationBound.MulOrder(1.0, f, b);
  }

  lemma ProductOfPrepended(l: Load, s: seq<Load>)
    ensures Product(Utils([l] + s)) == (1.0 + Util(l)) * Product(Utils(s))
  {
    assert Utils([l] + s)[1..] == Utils(s);
  }

  lemma ProductGrows(l: Load, r: seq<Load>, s: seq<Load>)
    requires Product(Utils(r)) <= Product(Utils(s))
    ensures Product(Utils([l] + r)) <= Product(Utils([l] + s))
    ensures Product(Utils(r)) <= Product(Utils([l] + s))
  {
    ProductAtLeastOne(Utils(r));
    FactorOrder(1.0 + Util(l), Product(Utils(r)), Product(Utils(s)));
    ProductOfPrepended(l, r);
    ProductOfPrepended(l, s);
  }

  lemma {:induction false} LevelProduct(u: seq<Load>, top: nat)
    ensures Product(Utils(Level(u, top))) <= Product(Utils(u))
  {
    if u != [] {
      LevelProduct(u[1..], top);
      ProductGrows(u[0], Level(u[1..], top), u[1..]);
      assert u == [u[0]] + u[1..];
    }
  }

  /** Some window no longer than its period holds what the load's level can ask for in it,
      with time left. */
  ghost predicate HasRoom(u: seq<Load>, l: Load) {
    exists t: nat :: 0 < t <= l.period && Demand(Level(u, l.period), t) < t
  }

  ghost predicate Roomy(u: seq<Load>) {
    forall l :: l in u ==> HasRoom(u, l)
  }

  lemma ProductGivesRoom(u: seq<Load>)
    requires Product(Utils(u)) < 2.0
    ensures Roomy(u)
  {
    forall l | l in u ensures HasRoom(u, l) {
      LevelProduct(u, l.period);
      var t := TimeDemand.SomeWindowFits(Level(u, l.period), l.period);
    }
  }

  /** A busy window never reaches a length its demand fits into, so it ends within the
      period of any of its tasks, and with it every job released in it. */
  lemma BusyIsShort(u: seq<Load>, l: Load, x: Exec, w: Window)
    requires l in u && HasRoom(u, l) && Busy(Level(u, l.period), x, w) && Active(x, l)
    requires TaskOf(x, l).value.deadlineSet
    ensures x.s.jiffies < TaskOf(x, l).value.deadlineJiff + l.period
  {
    var j := Level(u, l.period);
    var t: nat :| 0 < t <= l.period && Demand(j, t) < t;
    assert x.s.jiffies - w.start < t;
    assert l in j && Tracks(x, w, l);
    Loads.MulOrder(1, Count(w.count, l.pid), l.period);
  }

  // ---- The theorem ----

  ghost predicate Protected(u: seq<Load>, x: Exec) {
    Sound(u, x) && forall top: nat :: HasWindow(u, top, x)
  }

  lemma RemainingAreKnown(u: seq<Load>, ts: seq<Task>, pid: nat)
    requires Known(u, ts)
    ensures Known(u, Remove(ts, pid))
  {
    var rest := Remove(ts, pid);
    RemoveKeepsOthers(ts, pid);
    forall i | 0 <= i < |rest| ensures LoadOf(rest[i]) in u {
      assert rest[i] in ts;
      var j :| 0 <= j < |ts| && ts[j] == rest[i];
      assert LoadOf(ts[j]) in u;
    }
  }

  lemma JoinedAreKnown(u: seq<Load>, ts: seq<Task>, t: Task)
    requires Known(u, ts) && LoadOf(t) in u
    ensures Known(u, [t] + ts)
  {
  }

  lemma LoadsStayKnown(u: seq<Load>, x: Exec, e: Event)
    requires Known(u, x.s.tasks) && Behaves(u, x, e)
    ensures Known(u, Execute(x, e).s.tasks)
  {
    match e
    case Deregister(pid) => RemainingAreKnown(u, x.s.tasks, pid);
    case Register(pid, period, time) =>
      if Admits(x.s.tasks, period, time) {
        JoinedAreKnown(u, x.s.tasks, Task(pid, period, time, Sleeping, 0, false, None));
      }
    case _ =>
      Guarantee.OthersKeepLoads(REAL_TIME, x.s, e);
      assert forall i :: 0 <= i < |x.s.tasks| ==> LoadOf(Execute(x, e).s.tasks[i]) == LoadOf(x.s.tasks[i]);
  }

  lemma WindowsGiveDeadlines(u: seq<Load>, x: Exec)
    requires Roomy(u) && Consistent(x.s)
    requires Known(u, x.s.tasks)
    requires forall top: nat :: HasWindow(u, top, x)
    ensures OnTime(x.s)
  {
    forall i | 0 <= i < |x.s.tasks| && x.s.tasks[i].state != Sleeping
      ensures x.s.jiffies < x.s.tasks[i].deadlineJiff + x.s.tasks[i].period
    {
      var l := LoadOf(x.s.tasks[i]);
      LookupIs(x.s.tasks, i);
      assert TaskOk(x.s.jiffies, x.s.tasks[i]) && HasWindow(u, l.period, x);
      var w :| Busy(Level(u, l.period), x, w);
      BusyIsShort(u, l, x, w);
    }
  }

  lemma StepProtected(u: seq<Load>, x: Exec, e: Event)
    requires Protected(u, x) && Behaves(u, x, e) && Roomy(u)
    ensures Protected(u, Execute(x, e))
  {
    GuardedStep(REAL_TIME, x.s, e);
    LoadsStayKnown(u, x, e);
    forall top: nat ensures HasWindow(u, top, Execute(x, e)) {
      assert HasWindow(u, top, x);
      KeepsWindow(u, top, x, e);
    }
    WindowsGiveDeadlines(u, Execute(x, e));
  }

  lemma IdleProtected(u: seq<Load>)
    requires Universe(u)
    ensures Protected(u, IDLE)
  {
    forall top: nat ensures HasWindow(u, top, IDLE) {
      var w := Window(0, map[]);
      NothingServed(Level(u, top), IDLE, 0);
      assert Busy(Level(u, top), IDLE, w);
    }
  }

  lemma {:induction false} RunProtected(u: seq<Load>, es: seq<Event>)
    requires Universe(u) && Roomy(u) && WellBehaved(u, es)
    ensures Protected(u, Execution(es))
  {
    if es == [] {
      IdleProtected(u);
    } else {
      RunProtected(u, es[..|es| - 1]);
      StepProtected(u, Execution(es[..|es| - 1]), es[|es| - 1]);
    }
  }

  /** Schedulability: take any tasks for each of which some window within its period has room
      for its level. In every run that registers only them, in any order and with any release
      phases, deregisters and registers them again at will, and lets each job use at most its
      processing time, every job is done before its task's next release, and so no yield ever
      finds its deadline passed. */
  lemma NoDeadlineMissed(u: seq<Load>, es: seq<Event>)
    requires Universe(u) && Roomy(u) && WellBehaved(u, es)
    ensures OnTime(Execution(es).s)
    ensures forall i :: 0 <= i < |Execution(es).s.tasks| ==>
              !Skips(REAL_TIME, Execution(es).s, Execution(es).s.tasks[i])
  {
    RunProtected(u, es);
    forall i | 0 <= i < |Execution(es).s.tasks| ensures !Skips(REAL_TIME, Execution(es).s, Execution(es).s.tasks[i]) {
      NoSkip(Execution(es).s, i);
    }
  }

  /** In particular when the product of (1 + C/T) is below 2, as it is when the exact
      utilisation is at most 0.693. */
  lemma NoDeadlineMissedByUtilization(u: seq<Load>, es: seq<Event>)
    requires Universe(u) && (Product(Utils(u)) < 2.0 || Sum(Utils(u)) <= 0.693) && WellBehaved(u, es)
    ensures OnTime(Execution(es).s)
  {
    if Product(Utils(u)) >= 2.0 {
      SumToProduct(Utils(u));
    }
    ProductGivesRoom(u);
    NoDeadlineMissed(u, es);
  }
}
