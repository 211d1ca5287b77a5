/** The exact test: which task lists always meet their deadlines. */
module ExactTest {
  import opened Tasks
  import opened Loads
  import opened Scheduler
  import opened SchedulerInvariants
  import opened Processor
  import opened Admission
  import opened Schedulability
  import opened Progress
  import opened Overload

  // ---- A run that puts off one yield ----

  /** In no window up to the longest period do the tasks leave any time free. */
  ghost predicate Saturated(ts: seq<Task>) {
    ts != [] && forall t: nat :: 0 < t <= Longest(ts) ==> Demand(LoadsOf(ts), t) >= t
  }

  /** After the common release of all tasks. */
  ghost predicate Lingering(ts: seq<Task>, x: Exec, count: seq<nat>, l: nat) {
    Pressed(ts, x, count, l) && GuardedInv(x.s) && InTime(x.s) && x.s.jiffies >= Longest(ts)
  }

  lemma StillEarly(ts: seq<Task>, x: Exec, count: seq<nat>, l: nat)
    requires Pressed(ts, x, count, l) && OnTime(x.s)
    ensures x.s.jiffies < 2 * Longest(ts)
  {
    OnGridAt(ts, x, count, l);
    assert count[l] * Longest(ts) == Longest(ts);
  }

  /** While jobs are on time and no timer is due, every next release is ahead. */
  lemma ReleasesAhead(ts: seq<Task>, x: Exec, count: seq<nat>, l: nat, i: nat)
    requires Pressed(ts, x, count, l) && Consistent(x.s) && OnTime(x.s) && i < |ts| && !Due(x.s, x.s.tasks[i])
    ensures x.s.jiffies - Longest(ts) + 1 <= count[i] * ts[i].period
  {
    OnGridAt(ts, x, count, i);
    assert TaskOk(x.s.jiffies, x.s.tasks[i]);
  }

  /** If the only task that stands is done, all work released so far is, and some release is due now. */
  lemma NeverStuck(ts: seq<Task>, x: Exec, count: seq<nat>, l: nat)
    requires Ascending(ts) && Saturated(ts) && Lingering(ts, x, count, l) && OnTime(x.s) && !x.s.wake
    requires forall k :: 0 <= k < |x.s.tasks| ==> !Due(x.s, x.s.tasks[k])
    requires Alone(ts, x, count, l)
    ensures !Finished(x, l)
  {
    if Finished(x, l) {
      var t := x.s.jiffies - Longest(ts) + 1;
      StillEarly(ts, x, count, l);
      forall i | 0 <= i < |ts| ensures Credits(x, count)[i] >= CeilDiv(t, ts[i].period) * ts[i].processingTime {
        ReleasesAhead(ts, x, count, l, i);
        CreditCovers(ts, x, count, l, i, t);
      }
      EverythingServed(ts, Credits(x, count), t);
      assert false;
    }
  }

  /** Jobs that are done yield, except the only one that stands. */
  ghost predicate MayYield(ts: seq<Task>, x: Exec, count: seq<nat>, l: nat, k: nat)
    requires ts != [] && |ts| == |x.s.tasks| == |count|
  {
    k < |ts| && Finished(x, k) && !(k == l && Alone(ts, x, count, l))
  }

  lemma LingeringYield(ts: seq<Task>, x: Exec, count: seq<nat>, l: nat, k: nat) returns (l': nat)
    requires Ascending(ts) && Lingering(ts, x, count, l) && MayYield(ts, x, count, l, k)
    ensures Pressed(ts, Execute(x, Yield(x.s.tasks[k].pid)), count, l')
  {
    l' := l;
    if k == l {
      l' :| 0 <= l' < |ts| && l' != l && Stands(ts, x, count, l');
    }
    PressedYield(ts, x, count, l', k);
  }

  lemma TickIsNext(ts: seq<Task>, x: Exec, count: seq<nat>, l: nat)
    requires Ascending(ts) && Saturated(ts) && Lingering(ts, x, count, l) && OnTime(x.s) && !x.s.wake
    requires forall k :: 0 <= k < |x.s.tasks| ==> !Due(x.s, x.s.tasks[k]) && !MayYield(ts, x, count, l, k)
    ensures Plays(x, Tick)
  {
    if Alone(ts, x, count, l) {
      NeverStuck(ts, x, count, l);
    }
    forall k | 0 <= k < |x.s.tasks| ensures !Finished(x, k) {
      assert !MayYield(ts, x, count, l, k);
    }
    TickNext(x);
  }

  /** An event after which every tick has still gone to one of the tasks and one stands. */
  lemma LingeringStep(ts: seq<Task>, x: Exec, count: seq<nat>, l: nat)
    returns (e: Event, count': seq<nat>, l': nat)
    requires Ascending(ts) && Saturated(ts) && Lingering(ts, x, count, l) && OnTime(x.s)
    ensures Plays(x, e) && (e.Expire? || e.Dispatch? || e.Tick? || e.Yield?)
    ensures e == Tick || Nearer(x.s, Execute(x, e).s)
    ensures Pressed(ts, Execute(x, e), count', l')
  {
    count', l' := count, l;
    if k :| 0 <= k < |x.s.tasks| && MayYield(ts, x, count, l, k) {
      e := Yield(x.s.tasks[k].pid);
      YieldNext(x, k);
      l' := LingeringYield(ts, x, count, l, k);
    } else if k :| 0 <= k < |x.s.tasks| && Due(x.s, x.s.tasks[k]) {
      e := Expire(x.s.tasks[k].pid);
      ExpireNext(x, k);
      count' := PressedExpire(ts, x, count, l, x.s.tasks[k].pid);
    } else if x.s.wake {
      e := Dispatch;
      DispatchNext(x);
      PressedDispatch(ts, x, count, l);
    } else {
      e := Tick;
      TickIsNext(ts, x, count, l);
      PressedTick(ts, x, count, l);
    }
  }

  lemma LingeringAfter(ts: seq<Task>, reach: iset<Exec>, x: Exec, e: Event, count: seq<nat>, l: nat)
    requires Closed(ts, reach) && x in reach && GuardedInv(x.s) && OnTime(x.s)
    requires ts != [] && x.s.jiffies >= Longest(ts)
    requires Plays(x, e) && (e.Expire? || e.Dispatch? || e.Tick? || e.Yield?)
    requires Pressed(ts, Execute(x, e), count, l)
    ensures Execute(x, e) in reach && Lingering(ts, Execute(x, e), count, l)
  {
    GuardedStep(REAL_TIME, x.s, e);
    InTimeStep(x, e);
    OneMore(ts, reach, x, e);
  }

  lemma {:induction false} LingerOn(ts: seq<Task>, reach: iset<Exec>, x: Exec, count: seq<nat>, l: nat)
    returns (y: Exec)
    requires Ascending(ts) && Saturated(ts) && Closed(ts, reach) && x in reach && Lingering(ts, x, count, l)
    ensures y in reach && !OnTime(y.s)
    decreases 2 * Longest(ts) - x.s.jiffies, Weights(x.s.tasks, x.s.jiffies), x.s.wake
  {
    if !OnTime(x.s) {
      y := x;
    } else {
      StillEarly(ts, x, count, l);
      var e, count', l' := LingeringStep(ts, x, count, l);
      LingeringAfter(ts, reach, x, e, count', l');
      y := LingerOn(ts, reach, Execute(x, e), count', l');
    }
  }

  lemma SaturatedIsLate(ts: seq<Task>, reach: iset<Exec>) returns (y: Exec)
    requires Ascending(ts) && Saturated(ts) && Closed(ts, reach)
    ensures y in reach && !OnTime(y.s)
  {
    var start := ReleaseRun(ts, reach, |ts|);
    ReleasedIsPressed(ts, start);
    ReleasedIsGuarded(ts, start);
    y := LingerOn(ts, reach, start, seq(|ts|, _ => 1), |ts| - 1);
  }

  // ---- Among all runs over a fixed list ----

  /** A well-behaved run over `u` leads to x. */
  ghost predicate Behaved(u: seq<Load>, x: Exec) {
    exists es :: WellBehaved(u, es) && Execution(es) == x
  }

  ghost function BehavedStates(u: seq<Load>): iset<Exec> {
    iset x: Exec | Behaved(u, x)
  }

  lemma BehavedOneMore(u: seq<Load>, x: Exec, e: Event)
    requires Behaved(u, x) && Behaves(u, x, e)
    ensures Behaved(u, Execute(x, e))
  {
    var es :| WellBehaved(u, es) && Execution(es) == x;
    ExecuteOneMore(u, es, e);
    assert WellBehaved(u, es + [e]);
  }

  lemma BehavedIsClosed(u: seq<Load>, ts: seq<Task>)
    requires forall l :: l in LoadsOf(ts) ==> l in u
    ensures Closed(ts, BehavedStates(u))
  {
    assert WellBehaved(u, []) && Execution([]) == IDLE;
    forall x, e | x in BehavedStates(u) && Fits(ts, x, e) ensures Execute(x, e) in BehavedStates(u) {
      BehavedOneMore(u, x, e);
    }
  }

  /** How many of the tasks have a period of at most `top`. */
  function LevelSize(ts: seq<Task>, top: nat): (m: nat)
    ensures m <= |ts|
    ensures forall i :: 0 <= i < m ==> ts[i].period <= top
    ensures m < |ts| ==> ts[m].period > top
  {
    if ts == [] || ts[0].period > top then 0 else 1 + LevelSize(ts[1..], top)
  }

  lemma {:induction false} NobodyInLevel(s: seq<Load>, top: nat)
    requires forall i :: 0 <= i < |s| ==> s[i].period > top
    ensures Level(s, top) == []
  {
    if s != [] {
      NobodyInLevel(s[1..], top);
    }
  }

  lemma PrefixLoads(ts: seq<Task>, m: nat)
    requires m < |ts|
    ensures LoadsOf(ts[..m + 1]) == [LoadOf(ts[0])] + LoadsOf(ts[1..][..m])
  {
    assert ts[..m + 1] == [ts[0]] + ts[1..][..m];
  }

  /** Of tasks in order of their periods a level is a prefix. */
  lemma {:induction false} LevelIsPrefix(ts: seq<Task>, top: nat)
    requires forall i, j :: 0 <= i <= j < |ts| ==> ts[i].period <= ts[j].period
    ensures Level(LoadsOf(ts), top) == LoadsOf(ts[..LevelSize(ts, top)])
  {
    if ts == [] || ts[0].period > top {
      NobodyInLevel(LoadsOf(ts), top);
    } else {
      var m := LevelSize(ts[1..], top);
      LevelIsPrefix(ts[1..], top);
      assert LoadsOf(ts)[1..] == LoadsOf(ts[1..]);
      PrefixLoads(ts, m);
    }
  }

  lemma {:induction false} TotalOfPrefix(ts: seq<Task>, m: nat)
    requires m <= |ts|
    ensures Total(ts[..m]) <= Total(ts)
    decreases |ts|
  {
    if m < |ts| {
      TotalOfPrefix(ts[..|ts| - 1], m);
      assert ts[..|ts| - 1][..m] == ts[..m];
    } else {
      assert ts[..m] == ts;
    }
  }

  lemma PrefixAscends(ts: seq<Task>, m: nat)
    requires Ascending(ts) && 0 < m <= |ts|
    ensures Ascending(ts[..m])
  {
    TotalOfPrefix(ts, m);
    forall t | t in ts[..m] ensures t in ts {}
  }

  lemma NoRoomIsSaturated(u: seq<Load>, l: Load, level: seq<Task>)
    requires !HasRoom(u, l) && Level(u, l.period) == LoadsOf(level) && level != [] && Longest(level) == l.period
    ensures Saturated(level)
  {
    forall t: nat | 0 < t <= l.period ensures Demand(LoadsOf(level), t) >= t {
      assert Demand(Level(u, l.period), t) >= t;
    }
  }

  lemma LevelEnds(ts: seq<Task>, i: nat, m: nat)
    requires Ascending(ts) && i < |ts| && m == LevelSize(ts, ts[i].period)
    ensures i < m && Longest(ts[..m]) == ts[i].period
  {
  }

  lemma LevelIsSaturated(ts: seq<Task>, i: nat) returns (level: seq<Task>)
    requires Ascending(ts) && i < |ts| && !HasRoom(LoadsOf(ts), LoadOf(ts[i]))
    ensures level <= ts && Ascending(level) && Saturated(level)
  {
    var m := LevelSize(ts, ts[i].period);
    level := ts[..m];
    LevelIsPrefix(ts, ts[i].period);
    LevelEnds(ts, i, m);
    PrefixAscends(ts, m);
    NoRoomIsSaturated(LoadsOf(ts), LoadOf(ts[i]), level);
  }

  lemma LevelIsLate(ts: seq<Task>, level: seq<Task>) returns (es: seq<Event>)
    requires level <= ts && Ascending(level) && Saturated(level)
    ensures WellBehaved(LoadsOf(ts), es) && !OnTime(Execution(es).s)
  {
    var u := LoadsOf(ts);
    forall l | l in LoadsOf(level) ensures l in u {
      var k :| 0 <= k < |level| && LoadsOf(level)[k] == l;
      assert u[k] == l;
    }
    BehavedIsClosed(u, level);
    var y := SaturatedIsLate(level, BehavedStates(u));
    assert Behaved(u, y);
    es :| WellBehaved(u, es) && Execution(es) == y;
  }

  lemma DistinctLoads(ts: seq<Task>)
    requires Distinct(ts)
    ensures Universe(LoadsOf(ts))
  {
    var u := LoadsOf(ts);
    forall a, b | a in u && b in u && a.pid == b.pid ensures a == b {
      var i :| 0 <= i < |ts| && u[i] == a;
      var j :| 0 <= j < |ts| && u[j] == b;
      assert u[i].pid == ts[i].pid && u[j].pid == ts[j].pid;
    }
  }

  /** The exact test. Of tasks that the admission test accepts together, every job is over
      before its task's next release in all runs that register only them, if and only if each
      has a window within its period in which all that its level can ask for, if released
      together, leaves time free. */
  lemma RoomyIff(ts: seq<Task>)
    requires Ascending(ts)
    ensures (forall es :: WellBehaved(LoadsOf(ts), es) ==> OnTime(Execution(es).s)) <==> Roomy(LoadsOf(ts))
  {
    var u := LoadsOf(ts);
    DistinctLoads(ts);
    if Roomy(u) {
      forall es | WellBehaved(u, es) ensures OnTime(Execution(es).s) {
        NoDeadlineMissed(u, es);
      }
    } else {
      var l :| l in u && !HasRoom(u, l);
      var i :| 0 <= i < |ts| && u[i] == l;
      var level := LevelIsSaturated(ts, i);
      var es := LevelIsLate(ts, level);
    }
  }
}
