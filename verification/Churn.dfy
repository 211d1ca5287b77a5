/** Deadlines while tasks come and go: patient runs keep them. */
module Churn {
  import opened Options
  import opened Sequences
  import opened Tasks
  import opened Loads
  import opened Scheduler
  import opened SchedulerInvariants
  import opened Processor
  import opened Admission
  import opened UtilizationBound
  import opened Departures
  import Guarantee
  import Progress
  import TimeDemand

  /** What tasks of a truncated total of 6930 can use, 49 of them at most. */
  const CAPACITY := 0.6979

  function Capacity(time: int): real {
    CAPACITY * time as real
  }

  // ---- Sums ----

  lemma {:induction false} SumOrder(a: seq<real>, b: seq<real>)
    requires |a| == |b| && forall i :: 0 <= i < |a| ==> a[i] <= b[i]
    ensures Sum(a) <= Sum(b)
  {
    if a != [] {
      SumOrder(a[1..], b[1..]);
    }
  }

  predicate Below(a: seq<real>, b: seq<real>, c: seq<real>) {
    |a| == |b| == |c| && forall i :: 0 <= i < |a| ==> a[i] <= b[i] + c[i]
  }

  lemma {:induction false} SumBelow(a: seq<real>, b: seq<real>, c: seq<real>)
    requires Below(a, b, c)
    ensures Sum(a) <= Sum(b) + Sum(c)
  {
    if a != [] {
      SumBelow(a[1..], b[1..], c[1..]);
    }
  }

  lemma {:induction false} SumUnlinked(a: seq<real>, k: nat)
    requires k < |a|
    ensures Sum(a) == Sum(Unlink(a, k)) + a[k]
  {
    if k == 0 {
      assert Unlink(a, 0) == a[1..];
    } else {
      SumUnlinked(a[1..], k - 1);
      assert Unlink(a, k)[1..] == Unlink(a[1..], k - 1);
    }
  }

  lemma SumPrepended(x: real, a: seq<real>)
    ensures Sum([x] + a) == x + Sum(a)
  {
    assert ([x] + a)[1..] == a;
  }

  lemma {:induction false} SumOfZeros(a: seq<real>)
    requires forall i :: 0 <= i < |a| ==> a[i] == 0.0
    ensures Sum(a) == 0.0
  {
    if a != [] {
      SumOfZeros(a[1..]);
    }
  }

  lemma {:induction false} SumBumped(a: seq<real>, b: seq<real>, k: nat, d: real)
    requires |a| == |b| && k < |a| && a[k] + d <= b[k] && forall i :: 0 <= i < |a| ==> a[i] <= b[i]
    ensures Sum(a) + d <= Sum(b)
  {
    if k == 0 {
      SumOrder(a[1..], b[1..]);
    } else {
      SumBumped(a[1..], b[1..], k - 1, d);
    }
  }

  // ---- One task's account in a window ----

  /** Since when a registered task has been accounted for, whether it was registered within
      the window, and how often it has been released since. */
  datatype Account = Account(since: nat, newcomer: bool, count: nat)

  /** The share of the processor a load stands for, over a time. */
  function Share(l: Load, time: int): real {
    Util(l) * time as real
  }

  function Work(l: Load, count: nat): real {
    (count * l.cost) as real
  }

  /** What a load released with the window can ask for by `t` beyond its share. */
  function Excess(l: Load, t: nat): real {
    Work(l, CeilDiv(t, l.period)) - Share(l, t)
  }

  /** The work of its releases that has been done. */
  function Served(t: Task, used: nat, a: Account): real {
    Work(LoadOf(t), a.count) - if t.state == Sleeping then 0.0 else (t.processingTime - used) as real
  }

  /** Its releases are a period apart, and a newcomer waits a period for the first. */
  predicate Tracked(now: nat, start: nat, t: Task, used: nat, a: Account) {
    && start <= a.since <= now && (!a.newcomer ==> a.since == start)
    && a.since + (a.count + if a.newcomer then 1 else 0) * t.period <= NextRelease(now, t) <= now + t.period
    && (t.state != Sleeping ==> a.count >= 1 && used <= t.processingTime)
    && (!t.deadlineSet ==> a.count == 0)
  }

  lemma Regroup(n: real, u: real, p: real)
    ensures n * (u * p) == u * (n * p)
  {
  }

  lemma CastProduct(a: nat, b: nat)
    ensures (a * b) as real == a as real * b as real
  {
  }

  /** Work is the share of the time its releases take. */
  lemma WorkIsShare(l: Load, count: nat)
    ensures Work(l, count) == Share(l, count * l.period)
  {
    CastProduct(count, l.cost);
    CastProduct(count, l.period);
    Regroup(count as real, Util(l), l.period as real);
  }

  lemma ShareOfMultiple(l: Load, count: nat, time: nat)
    requires count * l.period <= time
    ensures Work(l, count) <= Share(l, time)
  {
    WorkIsShare(l, count);
    ShareOrder(l, count * l.period, time);
  }

  lemma ShareOrder(l: Load, a: int, b: int)
    requires a <= b
    ensures Share(l, a) <= Share(l, b)
  {
    UtilizationBound.MulOrder(a as real, b as real, Util(l));
  }

  lemma ShareStep(l: Load, a: int)
    ensures Share(l, a + 1) == Share(l, a) + Util(l)
  {
  }

  lemma ExcessIsNotNegative(l: Load, t: nat)
    ensures Excess(l, t) >= 0.0
  {
    var c := CeilDiv(t, l.period);
    CeilDivBounds(t, l.period);
    WorkIsShare(l, c);
    ShareOrder(l, t, c * l.period);
  }

  /** No more work than the share by the next tick and, for a task released with the window,
      its excess. */
  lemma WorkWithinShare(now: nat, start: nat, t: Task, used: nat, a: Account)
    requires Tracked(now, start, t, used, a)
    ensures var l, time := LoadOf(t), now + 1 - start;
            Work(l, a.count) <= Share(l, now + 1 - a.since) + if a.newcomer then 0.0 else Excess(l, time)
  {
    var l := LoadOf(t);
    if a.newcomer {
      assert (a.count + 1) * l.period == a.count * l.period + l.period;
      ShareOfMultiple(l, a.count, now - a.since);
      ShareStep(l, now - a.since);
    } else {
      CeilDivAtLeast(now + 1 - start, l.period, a.count);
      Loads.MulOrder(a.count, CeilDiv(now + 1 - start, l.period), l.cost);
    }
  }

  // ---- What each event does to an account ----

  lemma ExpireAccount(now: nat, start: nat, t: Task, used: nat, a: Account)
    requires Tracked(now, start, t, used, a) && t.state == Sleeping && t.deadlineSet && t.deadlineJiff == now
    ensures var t' := t.(state := Ready, timer := None);
            var a' := a.(count := a.count + 1);
            Tracked(now, start, t', 0, a') && Served(t', 0, a') == Served(t, used, a)
  {
    var n := a.count + if a.newcomer then 1 else 0;
    assert (n + 1) * t.period == n * t.period + t.period;
    assert (a.count + 1) * t.processingTime == a.count * t.processingTime + t.processingTime;
  }

  lemma YieldAccount(now: nat, start: nat, t: Task, t': Task, used: nat, a: Account)
    requires Tracked(now, start, t, used, a) && !(t.state == Sleeping && t.deadlineSet)
    requires LoadOf(t') == LoadOf(t) && t'.state == Sleeping && t'.deadlineSet && t'.deadlineJiff == NextRelease(now, t)
    ensures Tracked(now, start, t', used, a) && Served(t', used, a) >= Served(t, used, a)
  {
  }

  lemma DispatchAccount(now: nat, start: nat, t: Task, t': Task, used: nat, a: Account)
    requires Tracked(now, start, t, used, a) && OnlyStateDiffers(t, t')
    ensures Tracked(now, start, t', used, a) && Served(t', used, a) == Served(t, used, a)
    ensures LoadOf(t') == LoadOf(t)
  {
  }

  lemma TickAccount(now: nat, start: nat, t: Task, used: nat, used': nat, a: Account)
    requires Tracked(now, start, t, used, a)
    requires used' == used || (used' == used + 1 && t.state != Sleeping && used < t.processingTime)
    ensures Tracked(now + 1, start, t, used', a)
    ensures Served(t, used', a) == Served(t, used, a) + (if t.state == Sleeping then 0 else used' - used) as real
  {
  }

  // ---- The window ----

  /** A window: one account for each registered task, how often each departed task that the
      window began with was released in it, the loads it began with, and the work of
      newcomers that have left. */
  datatype Epoch = Epoch(start: nat, accounts: seq<Account>, marks: seq<Option<nat>>, base: seq<Load>, spent: nat)

  ghost predicate Fitted(d: Desk, w: Epoch) {
    |w.accounts| == |d.x.s.tasks| && |w.marks| == |d.charges| && w.start <= d.x.s.jiffies
  }

  function Used(x: Exec, i: nat): nat
    requires i < |x.s.tasks|
  {
    Count(x.used, x.s.tasks[i].pid)
  }

  function ServedList(top: nat, x: Exec, accounts: seq<Account>): (r: seq<real>)
    requires |accounts| == |x.s.tasks|
    ensures |r| == |accounts|
    ensures forall i :: 0 <= i < |r| ==>
      r[i] == if x.s.tasks[i].period <= top then Served(x.s.tasks[i], Used(x, i), accounts[i]) else 0.0
  {
    seq(|accounts|, i requires 0 <= i < |accounts| =>
      if x.s.tasks[i].period <= top then Served(x.s.tasks[i], Used(x, i), accounts[i]) else 0.0)
  }

  function ShareList(top: nat, loads: seq<Load>, now: nat, accounts: seq<Account>): (r: seq<real>)
    requires |accounts| == |loads|
    ensures |r| == |accounts|
    ensures forall i :: 0 <= i < |r| ==>
      r[i] == if loads[i].period <= top then Share(loads[i], now - accounts[i].since) else 0.0
  {
    seq(|accounts|, i requires 0 <= i < |accounts| =>
      if loads[i].period <= top then Share(loads[i], now - accounts[i].since) else 0.0)
  }

  function ExcessList(top: nat, loads: seq<Load>, accounts: seq<Account>, t: nat): (r: seq<real>)
    requires |accounts| == |loads|
    ensures |r| == |accounts|
    ensures forall i :: 0 <= i < |r| ==>
      r[i] == if loads[i].period <= top && !accounts[i].newcomer then Excess(loads[i], t) else 0.0
  {
    seq(|accounts|, i requires 0 <= i < |accounts| =>
      if loads[i].period <= top && !accounts[i].newcomer then Excess(loads[i], t) else 0.0)
  }

  function WorkGone(cs: seq<Charge>, marks: seq<Option<nat>>): (r: seq<real>)
    requires |marks| == |cs|
    ensures |r| == |cs|
    ensures forall j :: 0 <= j < |r| ==> r[j] == if marks[j].Some? then Work(cs[j].load, marks[j].value) else 0.0
  {
    seq(|cs|, j requires 0 <= j < |cs| => if marks[j].Some? then Work(cs[j].load, marks[j].value) else 0.0)
  }

  function Counted(c: Charge, start: nat, now: nat): int {
    (if c.until < now then c.until else now) - start
  }

  function ShareGone(cs: seq<Charge>, marks: seq<Option<nat>>, start: nat, now: nat): (r: seq<real>)
    requires |marks| == |cs|
    ensures |r| == |cs|
    ensures forall j :: 0 <= j < |r| ==>
      r[j] == if marks[j].Some? then Share(cs[j].load, Counted(cs[j], start, now)) else 0.0
  {
    seq(|cs|, j requires 0 <= j < |cs| => if marks[j].Some? then Share(cs[j].load, Counted(cs[j], start, now)) else 0.0)
  }

  function ExcessGone(cs: seq<Charge>, marks: seq<Option<nat>>, t: nat): (r: seq<real>)
    requires |marks| == |cs|
    ensures |r| == |cs|
    ensures forall j :: 0 <= j < |r| ==> r[j] == if marks[j].Some? then Excess(cs[j].load, t) else 0.0
  {
    seq(|cs|, j requires 0 <= j < |cs| => if marks[j].Some? then Excess(cs[j].load, t) else 0.0)
  }

  function ExcessOfBase(top: nat, base: seq<Load>, t: nat): (r: seq<real>)
    ensures |r| == |base|
    ensures forall i :: 0 <= i < |r| ==> r[i] == if base[i].period <= top then Excess(base[i], t) else 0.0
  {
    seq(|base|, i requires 0 <= i < |base| => if base[i].period <= top then Excess(base[i], t) else 0.0)
  }

  // ---- Sums that are compared ----

  /** All that has been served, and the work of newcomers that have left, covers the time. */
  predicate KeepsBusy(time: int, served: seq<real>, gone: seq<real>, spent: nat) {
    time as real <= Sum(served) + Sum(gone) + spent as real
  }

  /** The shares stay within the capacity. */
  predicate WithinCapacity(time: int, live: seq<real>, left: seq<real>, spent: nat) {
    Sum(live) + Sum(left) + spent as real <= Capacity(time)
  }

  /** The work stays within the shares and the excess. */
  predicate WithinBudget(work: seq<real>, gone: seq<real>, live: seq<real>, left: seq<real>, excess: seq<real>) {
    Sum(work) + Sum(gone) <= Sum(live) + Sum(left) + Sum(excess)
  }

  /** The capacity and the excess cover the time. */
  predicate Covers(t: nat, excess: seq<real>) {
    t as real <= Capacity(t) + Sum(excess)
  }

  // ---- The invariant of one window ----

  ghost predicate AllTracked(top: nat, d: Desk, w: Epoch)
    requires Fitted(d, w)
  {
    forall i :: 0 <= i < |d.x.s.tasks| && d.x.s.tasks[i].period <= top ==>
                  Tracked(d.x.s.jiffies, w.start, d.x.s.tasks[i], Used(d.x, i), w.accounts[i])
  }

  predicate Marked(now: nat, start: nat, c: Charge, mark: Option<nat>) {
    mark.Some? ==> start + mark.value * c.load.period <= c.until <= now + c.load.period
  }

  ghost predicate AllMarked(d: Desk, w: Epoch)
    requires Fitted(d, w)
  {
    forall j :: 0 <= j < |d.charges| ==> Marked(d.x.s.jiffies, w.start, d.charges[j], w.marks[j])
  }

  /** The processor has worked for the level all the time. */
  ghost predicate Paced(top: nat, d: Desk, w: Epoch)
    requires Fitted(d, w)
  {
    KeepsBusy(d.x.s.jiffies - w.start, ServedList(top, d.x, w.accounts), WorkGone(d.charges, w.marks), w.spent)
  }

  /** Whoever comes after another in the window takes over no more than its share. */
  ghost predicate Shared(top: nat, d: Desk, w: Epoch)
    requires Fitted(d, w)
  {
    WithinCapacity(d.x.s.jiffies - w.start, ShareList(top, LoadsOf(d.x.s.tasks), d.x.s.jiffies, w.accounts),
                   ShareGone(d.charges, w.marks, w.start, d.x.s.jiffies), w.spent)
  }

  /** The tasks the window began with are still all there, registered or departed. */
  ghost predicate Accounted(top: nat, d: Desk, w: Epoch, t: nat)
    requires Fitted(d, w)
  {
    Sum(ExcessList(top, LoadsOf(d.x.s.tasks), w.accounts, t)) + Sum(ExcessGone(d.charges, w.marks, t))
    == Sum(ExcessOfBase(top, w.base, t))
  }

  /** So far what can be asked for has always covered the time. */
  ghost predicate Covered(top: nat, base: seq<Load>, t: nat) {
    Covers(t, ExcessOfBase(top, base, t))
  }

  ghost predicate Modest(base: seq<Load>) {
    |base| <= 49 && Sum(Utils(base)) <= CAPACITY
  }

  ghost predicate AllAccounted(top: nat, d: Desk, w: Epoch)
    requires Fitted(d, w)
  {
    forall t: nat :: Accounted(top, d, w, t)
  }

  ghost predicate CoveredUpTo(top: nat, base: seq<Load>, time: int) {
    forall t: nat :: 0 < t <= time ==> Covered(top, base, t)
  }

  ghost predicate Busy(top: nat, d: Desk, w: Epoch) {
    && Fitted(d, w) && AllTracked(top, d, w) && AllMarked(d, w)
    && Paced(top, d, w) && Shared(top, d, w) && Modest(w.base)
    && AllAccounted(top, d, w) && CoveredUpTo(top, w.base, d.x.s.jiffies - w.start)
  }

  // ---- Yields, expiries and dispatches ----

  /** What such an event does to the accounts. */
  function Advance(x: Exec, accounts: seq<Account>, e: Event): (r: seq<Account>)
    requires |accounts| == |x.s.tasks|
    ensures |r| == |accounts|
    ensures forall i :: 0 <= i < |r| ==> r[i].since == accounts[i].since && r[i].newcomer == accounts[i].newcomer
  {
    if e.Expire? && Registered(x.s.tasks, e.pid) then
      var k := Find(x.s.tasks, e.pid);
      accounts[k := accounts[k].(count := accounts[k].count + 1)]
    else accounts
  }

  /** An event's effect on the account of task i. */
  predicate Kept(now: nat, start: nat, t: Task, used: nat, a: Account, now': nat, t': Task, used': nat, a': Account,
                 ticks: nat) {
    && LoadOf(t') == LoadOf(t) && Tracked(now', start, t', used', a')
    && Served(t', used', a') >= Served(t, used, a) + ticks as real
  }

  lemma ExpireKeeps(x: Exec, start: nat, accounts: seq<Account>, pid: nat, i: nat)
    requires |accounts| == |x.s.tasks| && GuardedInv(x.s) && Plays(x, Expire(pid)) && i < |x.s.tasks|
    requires Tracked(x.s.jiffies, start, x.s.tasks[i], Used(x, i), accounts[i])
    ensures var x' := Execute(x, Expire(pid));
            && |x'.s.tasks| == |x.s.tasks| && x'.s.jiffies == x.s.jiffies
            && Kept(x.s.jiffies, start, x.s.tasks[i], Used(x, i), accounts[i],
                    x.s.jiffies, x'.s.tasks[i], Used(x', i), Advance(x, accounts, Expire(pid))[i], 0)
  {
    var k := Find(x.s.tasks, pid);
    assert TaskOk(x.s.jiffies, x.s.tasks[k]);
    if i == k {
      ExpireAccount(x.s.jiffies, start, x.s.tasks[i], Used(x, i), accounts[i]);
    } else {
      assert x.s.tasks[i].pid != pid;
    }
  }

  lemma YieldKeeps(x: Exec, start: nat, accounts: seq<Account>, pid: nat, i: nat)
    requires |accounts| == |x.s.tasks| && GuardedInv(x.s) && InTime(x.s) && Plays(x, Yield(pid)) && i < |x.s.tasks|
    requires Tracked(x.s.jiffies, start, x.s.tasks[i], Used(x, i), accounts[i])
    ensures var x' := Execute(x, Yield(pid));
            && |x'.s.tasks| == |x.s.tasks| && x'.s.jiffies == x.s.jiffies
            && Kept(x.s.jiffies, start, x.s.tasks[i], Used(x, i), accounts[i],
                    x.s.jiffies, x'.s.tasks[i], Used(x', i), Advance(x, accounts, Yield(pid))[i], 0)
  {
    var k := Find(x.s.tasks, pid);
    var x' := Execute(x, Yield(pid));
    NoSkip(x.s, k);
    LookupIs(x.s.tasks, k);
    if i == k {
      YieldAccount(x.s.jiffies, start, x.s.tasks[i], x'.s.tasks[i], Used(x, i), accounts[i]);
    }
  }

  lemma DispatchKeeps(x: Exec, start: nat, accounts: seq<Account>, i: nat)
    requires |accounts| == |x.s.tasks| && GuardedInv(x.s) && i < |x.s.tasks|
    requires Tracked(x.s.jiffies, start, x.s.tasks[i], Used(x, i), accounts[i])
    ensures var x' := Execute(x, Dispatch);
            && |x'.s.tasks| == |x.s.tasks| && x'.s.jiffies == x.s.jiffies
            && Kept(x.s.jiffies, start, x.s.tasks[i], Used(x, i), accounts[i],
                    x.s.jiffies, x'.s.tasks[i], Used(x', i), Advance(x, accounts, Dispatch)[i], 0)
  {
    DispatchOnlyRuns(Guarded, x.s);
    DispatchAccount(x.s.jiffies, start, x.s.tasks[i], Execute(x, Dispatch).s.tasks[i], Used(x, i), accounts[i]);
  }

  lemma TickKeeps(x: Exec, start: nat, accounts: seq<Account>, i: nat)
    requires |accounts| == |x.s.tasks| && GuardedInv(x.s) && Plays(x, Tick) && i < |x.s.tasks|
    requires Tracked(x.s.jiffies, start, x.s.tasks[i], Used(x, i), accounts[i])
    ensures var x' := Execute(x, Tick);
            && |x'.s.tasks| == |x.s.tasks| && x'.s.jiffies == x.s.jiffies + 1
            && Kept(x.s.jiffies, start, x.s.tasks[i], Used(x, i), accounts[i],
                    x.s.jiffies + 1, x'.s.tasks[i], Used(x', i), Advance(x, accounts, Tick)[i],
                    if x.s.current == Some(x.s.tasks[i].pid) then 1 else 0)
  {
    LookupIs(x.s.tasks, i);
    TickAccount(x.s.jiffies, start, x.s.tasks[i], Used(x, i), Used(Execute(x, Tick), i), accounts[i]);
  }

  lemma InnerKeeps(x: Exec, start: nat, accounts: seq<Account>, e: Event, i: nat)
    requires |accounts| == |x.s.tasks| && GuardedInv(x.s) && InTime(x.s) && Plays(x, e) && i < |x.s.tasks|
    requires e.Yield? || e.Expire? || e.Dispatch?
    requires Tracked(x.s.jiffies, start, x.s.tasks[i], Used(x, i), accounts[i])
    ensures var x' := Execute(x, e);
            && |x'.s.tasks| == |x.s.tasks| && x'.s.jiffies == x.s.jiffies
            && Kept(x.s.jiffies, start, x.s.tasks[i], Used(x, i), accounts[i],
                    x.s.jiffies, x'.s.tasks[i], Used(x', i), Advance(x, accounts, e)[i], 0)
  {
    match e
    case Yield(pid) => YieldKeeps(x, start, accounts, pid, i);
    case Expire(pid) => ExpireKeeps(x, start, accounts, pid, i);
    case Dispatch => DispatchKeeps(x, start, accounts, i);
  }

  lemma SameLoadsOf(ts: seq<Task>, ts': seq<Task>)
    requires Guarantee.SameLoads(ts, ts')
    ensures LoadsOf(ts') == LoadsOf(ts)
  {
  }

  lemma SameLists(top: nat, loads: seq<Load>, now: nat, accounts: seq<Account>, accounts': seq<Account>, t: nat)
    requires |accounts| == |accounts'| == |loads|
    requires forall i :: 0 <= i < |accounts| ==>
               accounts'[i].since == accounts[i].since && accounts'[i].newcomer == accounts[i].newcomer
    ensures ShareList(top, loads, now, accounts') == ShareList(top, loads, now, accounts)
    ensures ExcessList(top, loads, accounts', t) == ExcessList(top, loads, accounts, t)
  {
  }

  /** The desk at the same time, with the same tasks but for their progress, and accounts kept up. */
  ghost predicate Continued(top: nat, d: Desk, w: Epoch, d': Desk, w': Epoch) {
    && Fitted(d, w) && Fitted(d', w') && |d'.x.s.tasks| == |d.x.s.tasks|
    && d'.x.s.jiffies == d.x.s.jiffies && w'.start == w.start
    && forall i :: 0 <= i < |d.x.s.tasks| ==> ContinuedAt(top, d, w, d', w', i)
  }

  ghost predicate ContinuedAt(top: nat, d: Desk, w: Epoch, d': Desk, w': Epoch, i: nat)
    requires Fitted(d, w) && Fitted(d', w') && |d'.x.s.tasks| == |d.x.s.tasks| && i < |d.x.s.tasks|
  {
    && d'.x.s.tasks[i].period == d.x.s.tasks[i].period
    && (d.x.s.tasks[i].period <= top ==>
          Kept(d.x.s.jiffies, w.start, d.x.s.tasks[i], Used(d.x, i), w.accounts[i],
               d.x.s.jiffies, d'.x.s.tasks[i], Used(d'.x, i), w'.accounts[i], 0))
  }

  lemma InnerContinues(top: nat, d: Desk, w: Epoch, e: Event)
    requires Fitted(d, w) && AllTracked(top, d, w) && GuardedInv(d.x.s) && InTime(d.x.s) && Plays(d.x, e)
    requires e.Yield? || e.Expire? || e.Dispatch?
    ensures Continued(top, d, w, Serve(d, e), w.(accounts := Advance(d.x, w.accounts, e)))
    ensures LoadsOf(Serve(d, e).x.s.tasks) == LoadsOf(d.x.s.tasks)
  {
    var d', w' := Serve(d, e), w.(accounts := Advance(d.x, w.accounts, e));
    Guarantee.OthersKeepLoads(REAL_TIME, d.x.s, e);
    SameLoadsOf(d.x.s.tasks, d'.x.s.tasks);
    assert d'.x.s.jiffies == d.x.s.jiffies;
    forall i | 0 <= i < |d.x.s.tasks| ensures ContinuedAt(top, d, w, d', w', i) {
      assert LoadOf(d'.x.s.tasks[i]) == LoadOf(d.x.s.tasks[i]);
      if d.x.s.tasks[i].period <= top {
        InnerKeeps(d.x, w.start, w.accounts, e, i);
      }
    }
  }

  lemma ContinuedTracks(top: nat, d: Desk, w: Epoch, d': Desk, w': Epoch)
    requires Continued(top, d, w, d', w')
    ensures AllTracked(top, d', w')
  {
    forall i | 0 <= i < |d'.x.s.tasks| && d'.x.s.tasks[i].period <= top
      ensures Tracked(d'.x.s.jiffies, w'.start, d'.x.s.tasks[i], Used(d'.x, i), w'.accounts[i])
    {
      assert ContinuedAt(top, d, w, d', w', i);
    }
  }

  lemma ContinuedServes(top: nat, d: Desk, w: Epoch, d': Desk, w': Epoch)
    requires Continued(top, d, w, d', w')
    ensures Sum(ServedList(top, d'.x, w'.accounts)) >= Sum(ServedList(top, d.x, w.accounts))
  {
    var before, after := ServedList(top, d.x, w.accounts), ServedList(top, d'.x, w'.accounts);
    forall i | 0 <= i < |before| ensures before[i] <= after[i] {
      assert ContinuedAt(top, d, w, d', w', i);
    }
    SumOrder(before, after);
  }

  lemma InnerTracks(top: nat, d: Desk, w: Epoch, e: Event)
    requires Fitted(d, w) && AllTracked(top, d, w) && GuardedInv(d.x.s) && InTime(d.x.s) && Plays(d.x, e)
    requires e.Yield? || e.Expire? || e.Dispatch?
    ensures var d', w' := Serve(d, e), w.(accounts := Advance(d.x, w.accounts, e));
            && Fitted(d', w') && AllTracked(top, d', w') && LoadsOf(d'.x.s.tasks) == LoadsOf(d.x.s.tasks)
            && d'.x.s.jiffies == d.x.s.jiffies && |d'.x.s.tasks| == |d.x.s.tasks|
            && Sum(ServedList(top, d'.x, w'.accounts)) >= Sum(ServedList(top, d.x, w.accounts))
  {
    var d', w' := Serve(d, e), w.(accounts := Advance(d.x, w.accounts, e));
    InnerContinues(top, d, w, e);
    ContinuedTracks(top, d, w, d', w');
    ContinuedServes(top, d, w, d', w');
  }

  lemma BusyInner(top: nat, d: Desk, w: Epoch, e: Event)
    requires Busy(top, d, w) && GuardedInv(d.x.s) && InTime(d.x.s) && Plays(d.x, e)
    requires e.Yield? || e.Expire? || e.Dispatch?
    ensures Busy(top, Serve(d, e), w.(accounts := Advance(d.x, w.accounts, e)))
  {
    var d', w' := Serve(d, e), w.(accounts := Advance(d.x, w.accounts, e));
    InnerTracks(top, d, w, e);
    forall t: nat ensures Accounted(top, d', w', t) {
      assert Accounted(top, d, w, t);
      SameLists(top, LoadsOf(d.x.s.tasks), d.x.s.jiffies, w.accounts, w'.accounts, t);
    }
    SameLists(top, LoadsOf(d.x.s.tasks), d.x.s.jiffies, w.accounts, w'.accounts, 0);
  }

  // ---- The clock moves while the level is active ----

  predicate LevelActive(top: nat, s: State) {
    exists i :: 0 <= i < |s.tasks| && s.tasks[i].period <= top && s.tasks[i].state != Sleeping
  }

  /** While the level is active the processor works for it. */
  lemma LevelRuns(top: nat, x: Exec) returns (k: nat)
    requires GuardedInv(x.s) && Plays(x, Tick) && LevelActive(top, x.s)
    ensures k < |x.s.tasks| && x.s.current == Some(x.s.tasks[k].pid) && x.s.tasks[k].period <= top
  {
    var i :| 0 <= i < |x.s.tasks| && x.s.tasks[i].period <= top && x.s.tasks[i].state != Sleeping;
    if x.s.tasks[i].state == Running {
      k := i;
    } else {
      assert x.s.current.Some?;
      k :| 0 <= k < |x.s.tasks| && x.s.tasks[k].pid == x.s.current.value && x.s.tasks[k].state == Running;
    }
  }

  lemma TickTracks(top: nat, d: Desk, w: Epoch)
    requires Fitted(d, w) && AllTracked(top, d, w) && GuardedInv(d.x.s) && Plays(d.x, Tick) && LevelActive(top, d.x.s)
    ensures var d' := Serve(d, Tick);
            && Fitted(d', w) && AllTracked(top, d', w) && d'.x.s == d.x.s.(jiffies := d.x.s.jiffies + 1)
            && Sum(ServedList(top, d'.x, w.accounts)) >= Sum(ServedList(top, d.x, w.accounts)) + 1.0
  {
    var d' := Serve(d, Tick);
    var cur := LevelRuns(top, d.x);
    var before, after := ServedList(top, d.x, w.accounts), ServedList(top, d'.x, w.accounts);
    forall i | 0 <= i < |d.x.s.tasks| && d.x.s.tasks[i].period <= top
      ensures Tracked(d'.x.s.jiffies, w.start, d'.x.s.tasks[i], Used(d'.x, i), w.accounts[i])
      ensures after[i] >= before[i] + if i == cur then 1.0 else 0.0
    {
      TickKeeps(d.x, w.start, w.accounts, i);
    }
    SumBumped(before, after, cur, 1.0);
  }

  function WorkList(top: nat, loads: seq<Load>, accounts: seq<Account>): (r: seq<real>)
    requires |accounts| == |loads|
    ensures |r| == |accounts|
    ensures forall i :: 0 <= i < |r| ==>
      r[i] == if loads[i].period <= top then Work(loads[i], accounts[i].count) else 0.0
  {
    seq(|accounts|, i requires 0 <= i < |accounts| =>
      if loads[i].period <= top then Work(loads[i], accounts[i].count) else 0.0)
  }

  lemma ServedWithinWork(top: nat, d: Desk, w: Epoch)
    requires Fitted(d, w) && AllTracked(top, d, w)
    ensures Sum(ServedList(top, d.x, w.accounts)) <= Sum(WorkList(top, LoadsOf(d.x.s.tasks), w.accounts))
  {
    var served, work := ServedList(top, d.x, w.accounts), WorkList(top, LoadsOf(d.x.s.tasks), w.accounts);
    forall i | 0 <= i < |served| ensures served[i] <= work[i] {
      if d.x.s.tasks[i].period <= top {
        assert Tracked(d.x.s.jiffies, w.start, d.x.s.tasks[i], Used(d.x, i), w.accounts[i]);
      }
    }
    SumOrder(served, work);
  }

  /** Every account asks for no more than its share by the next tick, and its excess. */
  lemma LiveEntry(top: nat, d: Desk, w: Epoch, i: nat)
    requires Fitted(d, w) && AllTracked(top, d, w) && i < |d.x.s.tasks|
    ensures var loads, now := LoadsOf(d.x.s.tasks), d.x.s.jiffies + 1;
            WorkList(top, loads, w.accounts)[i]
            <= ShareList(top, loads, now, w.accounts)[i] + ExcessList(top, loads, w.accounts, now - w.start)[i]
  {
    if d.x.s.tasks[i].period <= top {
      WorkWithinShare(d.x.s.jiffies, w.start, d.x.s.tasks[i], Used(d.x, i), w.accounts[i]);
    }
  }

  lemma LiveBelow(top: nat, d: Desk, w: Epoch, t: nat)
    requires Fitted(d, w) && AllTracked(top, d, w) && t == d.x.s.jiffies + 1 - w.start
    ensures var loads, now := LoadsOf(d.x.s.tasks), d.x.s.jiffies + 1;
            Below(WorkList(top, loads, w.accounts),
                  ShareList(top, loads, now, w.accounts), ExcessList(top, loads, w.accounts, t))
  {
    var loads, now := LoadsOf(d.x.s.tasks), d.x.s.jiffies + 1;
    var share, excess := ShareList(top, loads, now, w.accounts), ExcessList(top, loads, w.accounts, t);
    var work := WorkList(top, loads, w.accounts);
    forall i | 0 <= i < |work| ensures work[i] <= share[i] + excess[i] { LiveEntry(top, d, w, i); }
  }

  lemma ChargeWithinShare(now: nat, start: nat, c: Charge, mark: Option<nat>)
    requires Marked(now, start, c, mark) && mark.Some? && start <= now
    ensures Work(c.load, mark.value) <= Share(c.load, Counted(c, start, now + 1)) + Excess(c.load, now + 1 - start)
  {
    var t := now + 1 - start;
    if c.until < now + 1 {
      ShareOfMultiple(c.load, mark.value, c.until - start);
      ExcessIsNotNegative(c.load, t);
    } else {
      CeilDivAtLeast(t, c.load.period, mark.value);
      Loads.MulOrder(mark.value, CeilDiv(t, c.load.period), c.load.cost);
    }
  }

  lemma GoneEntry(d: Desk, w: Epoch, j: nat)
    requires Fitted(d, w) && AllMarked(d, w) && j < |d.charges|
    ensures var now := d.x.s.jiffies + 1;
            WorkGone(d.charges, w.marks)[j]
            <= ShareGone(d.charges, w.marks, w.start, now)[j] + ExcessGone(d.charges, w.marks, now - w.start)[j]
  {
    assert Marked(d.x.s.jiffies, w.start, d.charges[j], w.marks[j]);
    if w.marks[j].Some? {
      ChargeWithinShare(d.x.s.jiffies, w.start, d.charges[j], w.marks[j]);
    }
  }

  lemma GoneBelow(d: Desk, w: Epoch, t: nat)
    requires Fitted(d, w) && AllMarked(d, w) && t == d.x.s.jiffies + 1 - w.start
    ensures Below(WorkGone(d.charges, w.marks), ShareGone(d.charges, w.marks, w.start, d.x.s.jiffies + 1),
                  ExcessGone(d.charges, w.marks, t))
  {
    var share, excess := ShareGone(d.charges, w.marks, w.start, d.x.s.jiffies + 1), ExcessGone(d.charges, w.marks, t);
    var work := WorkGone(d.charges, w.marks);
    forall j | 0 <= j < |work| ensures work[j] <= share[j] + excess[j] { GoneEntry(d, w, j); }
  }

  // ---- What registered and departed tasks use together ----

  function PendingUtils(cs: seq<Charge>, now: nat): (r: seq<real>)
    ensures |r| == |cs| && forall j :: 0 <= j < |r| ==> r[j] == if cs[j].until > now then Util(cs[j].load) else 0.0
  {
    seq(|cs|, j requires 0 <= j < |cs| => if cs[j].until > now then Util(cs[j].load) else 0.0)
  }

  /** The processor's capacity holds for all tasks that count. */
  ghost predicate Capable(d: Desk) {
    |d.x.s.tasks| <= 49
    && Utilization(d.x.s.tasks) + Sum(PendingUtils(d.charges, d.x.s.jiffies)) <= CAPACITY
  }

  lemma {:induction false} PendingTruncation(cs: seq<Charge>, now: nat)
    ensures Sum(PendingUtils(cs, now)) <= (PendingTotal(cs, now) + PendingCount(cs, now)) as real / 10000.0
  {
    if cs != [] {
      PendingTruncation(cs[1..], now);
      TruncationOfOne(cs[0].load);
      assert PendingUtils(cs, now)[1..] == PendingUtils(cs[1..], now);
    }
  }

  lemma ChargedIsCapable(d: Desk)
    requires Charged(d) && Crowd(d) <= 49
    ensures Capable(d)
  {
    TruncationOfSum(d.x.s.tasks);
    PendingTruncation(d.charges, d.x.s.jiffies);
  }

  lemma LevelShareGrows(top: nat, loads: seq<Load>, now: nat, accounts: seq<Account>)
    requires |accounts| == |loads|
    ensures Sum(ShareList(top, loads, now + 1, accounts))
            <= Sum(ShareList(top, loads, now, accounts)) + Sum(Utils(loads))
  {
    var before, after := ShareList(top, loads, now, accounts), ShareList(top, loads, now + 1, accounts);
    var utils := Utils(loads);
    forall i | 0 <= i < |after| ensures after[i] <= before[i] + utils[i] {
      ShareStep(loads[i], now - accounts[i].since);
    }
    SumBelow(after, before, utils);
  }

  lemma GoneShareGrows(cs: seq<Charge>, marks: seq<Option<nat>>, start: nat, now: nat)
    requires |marks| == |cs|
    ensures Sum(ShareGone(cs, marks, start, now + 1))
            <= Sum(ShareGone(cs, marks, start, now)) + Sum(PendingUtils(cs, now))
  {
    var before, after := ShareGone(cs, marks, start, now), ShareGone(cs, marks, start, now + 1);
    var utils := PendingUtils(cs, now);
    forall j | 0 <= j < |after| ensures after[j] <= before[j] + utils[j] {
      ShareStep(cs[j].load, now - start);
    }
    SumBelow(after, before, utils);
  }

  lemma ShareBudget(live: real, gone: real, live': real, gone': real, utils: real, pending: real, spent: real,
                    time: int)
    requires live + gone + spent <= Capacity(time) && utils + pending <= CAPACITY
    requires live' <= live + utils && gone' <= gone + pending
    ensures live' + gone' + spent <= Capacity(time + 1)
  {
  }

  lemma SharedTick(top: nat, d: Desk, w: Epoch)
    requires Fitted(d, w) && Shared(top, d, w) && Capable(d)
    requires Serve(d, Tick).x.s == d.x.s.(jiffies := d.x.s.jiffies + 1)
    ensures Fitted(Serve(d, Tick), w) && Shared(top, Serve(d, Tick), w)
  {
    var loads, now := LoadsOf(d.x.s.tasks), d.x.s.jiffies;
    LevelShareGrows(top, loads, now, w.accounts);
    GoneShareGrows(d.charges, w.marks, w.start, now);
    ShareBudget(Sum(ShareList(top, loads, now, w.accounts)), Sum(ShareGone(d.charges, w.marks, w.start, now)),
                Sum(ShareList(top, loads, now + 1, w.accounts)), Sum(ShareGone(d.charges, w.marks, w.start, now + 1)),
                Sum(Utils(loads)), Sum(PendingUtils(d.charges, now)), w.spent as real, now - w.start);
  }

  lemma PacedTick(top: nat, d: Desk, w: Epoch)
    requires Fitted(d, w) && Paced(top, d, w) && Fitted(Serve(d, Tick), w)
    requires Serve(d, Tick).x.s.jiffies == d.x.s.jiffies + 1
    requires Sum(ServedList(top, Serve(d, Tick).x, w.accounts)) >= Sum(ServedList(top, d.x, w.accounts)) + 1.0
    ensures Paced(top, Serve(d, Tick), w)
  {
  }

  /** The desk one tick later. */
  predicate Later(d: Desk, d': Desk) {
    d'.charges == d.charges && d'.x.s == d.x.s.(jiffies := d.x.s.jiffies + 1)
  }

  /** All work released so far is within the shares by the next tick, and the excess. */
  ghost predicate Budgeted(top: nat, d: Desk, w: Epoch, t: nat)
    requires Fitted(d, w)
  {
    var loads, now := LoadsOf(d.x.s.tasks), d.x.s.jiffies + 1;
    WithinBudget(WorkList(top, loads, w.accounts), WorkGone(d.charges, w.marks), ShareList(top, loads, now, w.accounts),
                 ShareGone(d.charges, w.marks, w.start, now), ExcessOfBase(top, w.base, t))
  }

  /** And it covers the time of the window. */
  ghost predicate Worked(top: nat, d: Desk, w: Epoch)
    requires Fitted(d, w)
  {
    KeepsBusy(d.x.s.jiffies - w.start, WorkList(top, LoadsOf(d.x.s.tasks), w.accounts),
              WorkGone(d.charges, w.marks), w.spent)
  }

  lemma BudgetFromParts(work: seq<real>, gone: seq<real>, live: seq<real>, left: seq<real>, liveExcess: seq<real>,
                        goneExcess: seq<real>, excess: seq<real>)
    requires Below(work, live, liveExcess) && Below(gone, left, goneExcess)
    requires Sum(liveExcess) + Sum(goneExcess) == Sum(excess)
    ensures WithinBudget(work, gone, live, left, excess)
  {
    SumBelow(work, live, liveExcess);
    SumBelow(gone, left, goneExcess);
  }

  lemma WorkWithinBudget(top: nat, d: Desk, w: Epoch, t: nat)
    requires Fitted(d, w) && AllTracked(top, d, w) && AllMarked(d, w)
    requires t == d.x.s.jiffies + 1 - w.start && Accounted(top, d, w, t)
    ensures Budgeted(top, d, w, t)
  {
    var loads, now := LoadsOf(d.x.s.tasks), d.x.s.jiffies + 1;
    LiveBelow(top, d, w, t);
    GoneBelow(d, w, t);
    BudgetFromParts(WorkList(top, loads, w.accounts), WorkGone(d.charges, w.marks),
                    ShareList(top, loads, now, w.accounts), ShareGone(d.charges, w.marks, w.start, now),
                    ExcessList(top, loads, w.accounts, t), ExcessGone(d.charges, w.marks, t),
                    ExcessOfBase(top, w.base, t));
  }

  lemma PacedWithinWork(top: nat, d: Desk, w: Epoch)
    requires Fitted(d, w) && AllTracked(top, d, w) && Paced(top, d, w)
    ensures Worked(top, d, w)
  {
    ServedWithinWork(top, d, w);
  }

  lemma CoverBudget(t: nat, work: seq<real>, gone: seq<real>, live: seq<real>, left: seq<real>, excess: seq<real>,
                    spent: nat)
    requires WithinBudget(work, gone, live, left, excess)
    requires KeepsBusy(t, work, gone, spent) && WithinCapacity(t, live, left, spent)
    ensures Covers(t, excess)
  {
  }

  /** By the next tick the work covers the time, and the shares stay within the capacity. */
  ghost predicate Prepared(top: nat, d: Desk, w: Epoch, t: nat)
    requires Fitted(d, w)
  {
    var loads, now := LoadsOf(d.x.s.tasks), d.x.s.jiffies + 1;
    && KeepsBusy(t, WorkList(top, loads, w.accounts), WorkGone(d.charges, w.marks), w.spent)
    && WithinCapacity(t, ShareList(top, loads, now, w.accounts), ShareGone(d.charges, w.marks, w.start, now), w.spent)
  }

  lemma PreparedBefore(top: nat, d: Desk, w: Epoch, d': Desk, t: nat)
    requires Later(d, d') && t == d.x.s.jiffies + 1 - w.start
    requires Fitted(d, w) && Fitted(d', w) && Worked(top, d', w) && Shared(top, d', w)
    ensures Prepared(top, d, w, t)
  {
  }

  lemma CoveredTick(top: nat, d: Desk, w: Epoch, t: nat)
    requires Fitted(d, w) && Budgeted(top, d, w, t) && Prepared(top, d, w, t)
    ensures Covered(top, w.base, t)
  {
    var loads, now := LoadsOf(d.x.s.tasks), d.x.s.jiffies + 1;
    CoverBudget(t, WorkList(top, loads, w.accounts), WorkGone(d.charges, w.marks),
                ShareList(top, loads, now, w.accounts), ShareGone(d.charges, w.marks, w.start, now),
                ExcessOfBase(top, w.base, t), w.spent);
  }

  lemma MarkedTick(d: Desk, w: Epoch, d': Desk)
    requires Fitted(d, w) && AllMarked(d, w) && Fitted(d', w) && d'.charges == d.charges
    requires d'.x.s.jiffies == d.x.s.jiffies + 1
    ensures AllMarked(d', w)
  {
    forall j | 0 <= j < |d.charges| ensures Marked(d'.x.s.jiffies, w.start, d.charges[j], w.marks[j]) {
      assert Marked(d.x.s.jiffies, w.start, d.charges[j], w.marks[j]);
    }
  }

  lemma AccountedLater(top: nat, d: Desk, w: Epoch, d': Desk, t: nat)
    requires Fitted(d, w) && Fitted(d', w) && Later(d, d') && Accounted(top, d, w, t)
    ensures Accounted(top, d', w, t)
  {
  }

  lemma ExtendCover(top: nat, base: seq<Load>, time: nat)
    requires time > 0 && CoveredUpTo(top, base, time - 1) && Covered(top, base, time)
    ensures CoveredUpTo(top, base, time)
  {
  }

  lemma CoverNow(top: nat, d: Desk, w: Epoch, d': Desk, t: nat)
    requires Later(d, d') && Fitted(d, w) && Fitted(d', w) && AllTracked(top, d, w) && AllMarked(d, w)
    requires AllTracked(top, d', w) && Paced(top, d', w) && Shared(top, d', w)
    requires AllAccounted(top, d, w) && t == d.x.s.jiffies + 1 - w.start
    ensures Covered(top, w.base, t)
  {
    assert Accounted(top, d, w, t);
    WorkWithinBudget(top, d, w, t);
    PacedWithinWork(top, d', w);
    PreparedBefore(top, d, w, d', t);
    CoveredTick(top, d, w, t);
  }

  lemma AllAccountedLater(top: nat, d: Desk, w: Epoch, d': Desk)
    requires Fitted(d, w) && Fitted(d', w) && Later(d, d') && AllAccounted(top, d, w)
    ensures AllAccounted(top, d', w)
  {
    forall t: nat ensures Accounted(top, d', w, t) {
      assert Accounted(top, d, w, t);
      AccountedLater(top, d, w, d', t);
    }
  }

  lemma CoverOn(top: nat, d: Desk, w: Epoch, d': Desk)
    requires Later(d, d') && Fitted(d, w) && Fitted(d', w) && AllTracked(top, d, w) && AllMarked(d, w)
    requires AllTracked(top, d', w) && Paced(top, d', w) && Shared(top, d', w)
    requires AllAccounted(top, d, w) && CoveredUpTo(top, w.base, d.x.s.jiffies - w.start)
    ensures CoveredUpTo(top, w.base, d'.x.s.jiffies - w.start)
  {
    var t := d.x.s.jiffies + 1 - w.start;
    CoverNow(top, d, w, d', t);
    ExtendCover(top, w.base, t);
  }

  lemma BusyLater(top: nat, d: Desk, w: Epoch, d': Desk)
    requires Busy(top, d, w) && Later(d, d') && Fitted(d', w) && AllTracked(top, d', w)
    requires Paced(top, d', w) && Shared(top, d', w)
    ensures Busy(top, d', w)
  {
    MarkedTick(d, w, d');
    CoverOn(top, d, w, d');
    AllAccountedLater(top, d, w, d');
  }

  lemma BusyTick(top: nat, d: Desk, w: Epoch)
    requires Busy(top, d, w) && GuardedInv(d.x.s) && Plays(d.x, Tick) && LevelActive(top, d.x.s) && Capable(d)
    ensures Busy(top, Serve(d, Tick), w)
  {
    TickTracks(top, d, w);
    PacedTick(top, d, w);
    SharedTick(top, d, w);
    BusyLater(top, d, w, Serve(d, Tick));
  }

  // ---- A new window ----

  /** While no task of the level is active the window starts anew with the next jiffy. */
  function Anew(d: Desk): Epoch {
    var n := |d.x.s.tasks|;
    Epoch(d.x.s.jiffies + 1, seq(n, _ => Account(d.x.s.jiffies + 1, false, 0)), seq(|d.charges|, _ => None),
           LoadsOf(d.x.s.tasks), 0)
  }

  lemma IdleTracks(top: nat, d: Desk, w: Epoch)
    requires Fitted(d, w) && AllTracked(top, d, w) && GuardedInv(d.x.s) && Plays(d.x, Tick) && !LevelActive(top, d.x.s)
    ensures Fitted(Serve(d, Tick), Anew(d)) && AllTracked(top, Serve(d, Tick), Anew(d))
  {
    var now := d.x.s.jiffies;
    forall i | 0 <= i < |d.x.s.tasks| && d.x.s.tasks[i].period <= top
      ensures Tracked(now + 1, now + 1, d.x.s.tasks[i], Used(Serve(d, Tick).x, i), Anew(d).accounts[i])
    {
      assert Tracked(now, w.start, d.x.s.tasks[i], Used(d.x, i), w.accounts[i]);
      assert TaskOk(now, d.x.s.tasks[i]) && !Due(d.x.s, d.x.s.tasks[i]);
    }
  }

  lemma NothingYet(top: nat, d: Desk, d': Desk)
    requires Later(d, d') && Fitted(d', Anew(d)) && !LevelActive(top, d.x.s)
    ensures Paced(top, d', Anew(d)) && Shared(top, d', Anew(d)) && AllMarked(d', Anew(d))
  {
    var w := Anew(d);
    SumOfZeros(ServedList(top, d'.x, w.accounts));
    SumOfZeros(WorkGone(d'.charges, w.marks));
    SumOfZeros(ShareList(top, LoadsOf(d'.x.s.tasks), d'.x.s.jiffies, w.accounts));
    SumOfZeros(ShareGone(d'.charges, w.marks, w.start, d'.x.s.jiffies));
  }

  lemma AnewAccounted(top: nat, d: Desk, d': Desk, t: nat)
    requires Later(d, d') && Fitted(d', Anew(d))
    ensures Accounted(top, d', Anew(d), t)
  {
    var w := Anew(d);
    SumOfZeros(ExcessGone(d'.charges, w.marks, t));
    assert ExcessList(top, w.base, w.accounts, t) == ExcessOfBase(top, w.base, t);
  }

  lemma CapableIsModest(d: Desk)
    requires Capable(d)
    ensures Modest(LoadsOf(d.x.s.tasks))
  {
  }

  lemma IdleTick(top: nat, d: Desk, w: Epoch)
    requires Busy(top, d, w) && GuardedInv(d.x.s) && Plays(d.x, Tick) && !LevelActive(top, d.x.s) && Capable(d)
    ensures Busy(top, Serve(d, Tick), Anew(d))
  {
    var d' := Serve(d, Tick);
    IdleTracks(top, d, w);
    NothingYet(top, d, d');
    forall t: nat ensures Accounted(top, d', Anew(d), t) { AnewAccounted(top, d, d', t); }
    CapableIsModest(d);
  }

  // ---- Newcomers ----

  function Welcomed(d: Desk, w: Epoch): Epoch {
    w.(accounts := [Account(d.x.s.jiffies, true, 0)] + w.accounts)
  }

  /** The desk with a fresh task in front. */
  predicate Joined(d: Desk, d': Desk, t: Task) {
    && d'.charges == d.charges && d'.x.used == d.x.used && d'.x.s == d.x.s.(tasks := [t] + d.x.s.tasks)
    && t.state == Sleeping && !t.deadlineSet
  }

  lemma WelcomeTracks(top: nat, d: Desk, w: Epoch, d': Desk, t: Task)
    requires Fitted(d, w) && AllTracked(top, d, w) && Joined(d, d', t)
    ensures Fitted(d', Welcomed(d, w)) && AllTracked(top, d', Welcomed(d, w))
  {
    forall i | 0 <= i < |d'.x.s.tasks| && d'.x.s.tasks[i].period <= top
      ensures Tracked(d.x.s.jiffies, w.start, d'.x.s.tasks[i], Used(d'.x, i), Welcomed(d, w).accounts[i])
    {
      if i > 0 {
        assert d'.x.s.tasks[i] == d.x.s.tasks[i - 1];
      }
    }
  }

  lemma LoadsOfJoined(t: Task, ts: seq<Task>)
    ensures LoadsOf([t] + ts) == [LoadOf(t)] + LoadsOf(ts)
  {
  }

  /** A newcomer adds nothing yet. */
  lemma WelcomeServed(top: nat, d: Desk, w: Epoch, d': Desk, t: Task)
    requires Fitted(d, w) && Joined(d, d', t) && Fitted(d', Welcomed(d, w))
    ensures Sum(ServedList(top, d'.x, Welcomed(d, w).accounts)) == Sum(ServedList(top, d.x, w.accounts))
  {
    assert ServedList(top, d'.x, Welcomed(d, w).accounts) == [0.0] + ServedList(top, d.x, w.accounts);
    SumPrepended(0.0, ServedList(top, d.x, w.accounts));
  }

  lemma WelcomeShare(top: nat, l: Load, loads: seq<Load>, now: nat, accounts: seq<Account>)
    requires |accounts| == |loads|
    ensures Sum(ShareList(top, [l] + loads, now, [Account(now, true, 0)] + accounts))
            == Sum(ShareList(top, loads, now, accounts))
  {
    assert ShareList(top, [l] + loads, now, [Account(now, true, 0)] + accounts)
           == [0.0] + ShareList(top, loads, now, accounts);
    SumPrepended(0.0, ShareList(top, loads, now, accounts));
  }

  lemma WelcomeExcess(top: nat, l: Load, loads: seq<Load>, a: Account, accounts: seq<Account>, t: nat)
    requires |accounts| == |loads| && a.newcomer
    ensures Sum(ExcessList(top, [l] + loads, [a] + accounts, t)) == Sum(ExcessList(top, loads, accounts, t))
  {
    assert ExcessList(top, [l] + loads, [a] + accounts, t) == [0.0] + ExcessList(top, loads, accounts, t);
    SumPrepended(0.0, ExcessList(top, loads, accounts, t));
  }

  lemma WelcomeAccounted(top: nat, d: Desk, w: Epoch, d': Desk, t: Task)
    requires Fitted(d, w) && Joined(d, d', t) && Fitted(d', Welcomed(d, w)) && AllAccounted(top, d, w)
    ensures AllAccounted(top, d', Welcomed(d, w))
  {
    LoadsOfJoined(t, d.x.s.tasks);
    forall time: nat ensures Accounted(top, d', Welcomed(d, w), time) {
      assert Accounted(top, d, w, time);
      WelcomeExcess(top, LoadOf(t), LoadsOf(d.x.s.tasks), Account(d.x.s.jiffies, true, 0), w.accounts, time);
    }
  }

  lemma WelcomeKept(top: nat, d: Desk, w: Epoch, d': Desk, t: Task)
    requires Fitted(d, w) && Joined(d, d', t) && Fitted(d', Welcomed(d, w))
    requires Paced(top, d, w) && Shared(top, d, w) && AllMarked(d, w)
    ensures Paced(top, d', Welcomed(d, w)) && Shared(top, d', Welcomed(d, w)) && AllMarked(d', Welcomed(d, w))
  {
    WelcomeServed(top, d, w, d', t);
    LoadsOfJoined(t, d.x.s.tasks);
    WelcomeShare(top, LoadOf(t), LoadsOf(d.x.s.tasks), d.x.s.jiffies, w.accounts);
  }

  lemma BusyRegister(top: nat, d: Desk, w: Epoch, e: Event) returns (w': Epoch)
    requires Busy(top, d, w) && e.Register? && Plays(d.x, e)
    ensures Busy(top, Serve(d, e), w')
  {
    if Admits(d.x.s.tasks, e.period, e.time) {
      var t := Task(e.pid, e.period, e.time, Sleeping, 0, false, None);
      w' := Welcomed(d, w);
      WelcomeTracks(top, d, w, Serve(d, e), t);
      WelcomeKept(top, d, w, Serve(d, e), t);
      WelcomeAccounted(top, d, w, Serve(d, e), t);
    } else {
      w' := w;
      assert Serve(d, e) == d;
    }
  }

  // ---- Departures ----

  /** A newcomer's work is within its share when it leaves; any other task stays accounted for. */
  function Farewell(top: nat, d: Desk, w: Epoch, k: nat): Epoch
    requires k < |d.x.s.tasks| && k < |w.accounts|
  {
    var a, t := w.accounts[k], d.x.s.tasks[k];
    w.(accounts := Unlink(w.accounts, k),
       marks := [if t.period <= top && !a.newcomer then Some(a.count) else None] + w.marks,
       spent := w.spent + if t.period <= top && a.newcomer then a.count * t.processingTime else 0)
  }

  lemma FarewellTracks(top: nat, d: Desk, w: Epoch, d': Desk, k: nat)
    requires Fitted(d, w) && AllTracked(top, d, w) && Left(d, d', k)
    ensures Fitted(d', Farewell(top, d, w, k)) && AllTracked(top, d', Farewell(top, d, w, k))
  {
    var w' := Farewell(top, d, w, k);
    forall i | 0 <= i < |d'.x.s.tasks| && d'.x.s.tasks[i].period <= top
      ensures Tracked(d.x.s.jiffies, w'.start, d'.x.s.tasks[i], Used(d'.x, i), w'.accounts[i])
    {
      var j := if i < k then i else i + 1;
      assert d'.x.s.tasks[i] == d.x.s.tasks[j] && w'.accounts[i] == w.accounts[j];
    }
  }

  lemma FarewellMarks(top: nat, d: Desk, w: Epoch, d': Desk, k: nat)
    requires Fitted(d, w) && AllTracked(top, d, w) && AllMarked(d, w) && Left(d, d', k) && Consistent(d.x.s)
    requires Fitted(d', Farewell(top, d, w, k))
    ensures AllMarked(d', Farewell(top, d, w, k))
  {
    var w' := Farewell(top, d, w, k);
    forall j | 0 <= j < |d'.charges| ensures Marked(d.x.s.jiffies, w'.start, d'.charges[j], w'.marks[j]) {
      if j > 0 {
        assert d'.charges[j] == d.charges[j - 1] && w'.marks[j] == w.marks[j - 1];
        assert Marked(d.x.s.jiffies, w.start, d.charges[j - 1], w.marks[j - 1]);
      } else if w'.marks[0].Some? {
        var t := d.x.s.tasks[k];
        assert Tracked(d.x.s.jiffies, w.start, t, Used(d.x, k), w.accounts[k]);
      }
    }
  }

  lemma UnlinkedLists(top: nat, ts: seq<Task>, accounts: seq<Account>, k: nat, now: nat, t: nat)
    requires |accounts| == |ts| && k < |ts|
    ensures var loads, loads', accounts' := LoadsOf(ts), LoadsOf(Unlink(ts, k)), Unlink(accounts, k);
            && ShareList(top, loads', now, accounts') == Unlink(ShareList(top, loads, now, accounts), k)
            && ExcessList(top, loads', accounts', t) == Unlink(ExcessList(top, loads, accounts, t), k)
  {
  }

  lemma ServedUnlinked(top: nat, x: Exec, x': Exec, accounts: seq<Account>, k: nat)
    requires |accounts| == |x.s.tasks| && k < |accounts| && x'.used == x.used && x'.s.tasks == Unlink(x.s.tasks, k)
    ensures Sum(ServedList(top, x', Unlink(accounts, k)))
            == Sum(ServedList(top, x, accounts)) - ServedList(top, x, accounts)[k]
  {
    assert ServedList(top, x', Unlink(accounts, k)) == Unlink(ServedList(top, x, accounts), k);
    SumUnlinked(ServedList(top, x, accounts), k);
  }

  lemma ShareUnlinked(top: nat, ts: seq<Task>, accounts: seq<Account>, k: nat, now: nat)
    requires |accounts| == |ts| && k < |ts|
    ensures Sum(ShareList(top, LoadsOf(Unlink(ts, k)), now, Unlink(accounts, k)))
            == Sum(ShareList(top, LoadsOf(ts), now, accounts)) - ShareList(top, LoadsOf(ts), now, accounts)[k]
  {
    UnlinkedLists(top, ts, accounts, k, now, 0);
    SumUnlinked(ShareList(top, LoadsOf(ts), now, accounts), k);
  }

  lemma ExcessUnlinked(top: nat, ts: seq<Task>, accounts: seq<Account>, k: nat, t: nat)
    requires |accounts| == |ts| && k < |ts|
    ensures Sum(ExcessList(top, LoadsOf(Unlink(ts, k)), Unlink(accounts, k), t))
            == Sum(ExcessList(top, LoadsOf(ts), accounts, t)) - ExcessList(top, LoadsOf(ts), accounts, t)[k]
  {
    UnlinkedLists(top, ts, accounts, k, 0, t);
    SumUnlinked(ExcessList(top, LoadsOf(ts), accounts, t), k);
  }

  function GoneWork(c: Charge, m: Option<nat>): real {
    if m.Some? then Work(c.load, m.value) else 0.0
  }

  function GoneShare(c: Charge, m: Option<nat>, start: nat, now: nat): real {
    if m.Some? then Share(c.load, Counted(c, start, now)) else 0.0
  }

  function GoneExcess(c: Charge, m: Option<nat>, t: nat): real {
    if m.Some? then Excess(c.load, t) else 0.0
  }

  lemma GonePrepended(c: Charge, cs: seq<Charge>, m: Option<nat>, marks: seq<Option<nat>>, start: nat, now: nat)
    requires |marks| == |cs|
    ensures Sum(WorkGone([c] + cs, [m] + marks)) == GoneWork(c, m) + Sum(WorkGone(cs, marks))
    ensures Sum(ShareGone([c] + cs, [m] + marks, start, now))
            == GoneShare(c, m, start, now) + Sum(ShareGone(cs, marks, start, now))
  {
    assert WorkGone([c] + cs, [m] + marks) == [GoneWork(c, m)] + WorkGone(cs, marks);
    assert ShareGone([c] + cs, [m] + marks, start, now)
           == [GoneShare(c, m, start, now)] + ShareGone(cs, marks, start, now);
    SumPrepended(GoneWork(c, m), WorkGone(cs, marks));
    SumPrepended(GoneShare(c, m, start, now), ShareGone(cs, marks, start, now));
  }

  lemma GoneExcessPrepended(c: Charge, cs: seq<Charge>, m: Option<nat>, marks: seq<Option<nat>>, t: nat)
    requires |marks| == |cs|
    ensures Sum(ExcessGone([c] + cs, [m] + marks, t)) == GoneExcess(c, m, t) + Sum(ExcessGone(cs, marks, t))
  {
    assert ExcessGone([c] + cs, [m] + marks, t) == [GoneExcess(c, m, t)] + ExcessGone(cs, marks, t);
    SumPrepended(GoneExcess(c, m, t), ExcessGone(cs, marks, t));
  }

  /** What the leaving task was credited with goes on counting. */
  lemma LeaverServed(top: nat, d: Desk, w: Epoch, k: nat)
    requires Fitted(d, w) && AllTracked(top, d, w) && k < |d.x.s.tasks|
    ensures var w', c := Farewell(top, d, w, k), ChargeFor(d.x.s.jiffies, d.x.s.tasks[k]);
            ServedList(top, d.x, w.accounts)[k] + w.spent as real <= GoneWork(c, w'.marks[0]) + w'.spent as real
  {
    if d.x.s.tasks[k].period <= top {
      assert Tracked(d.x.s.jiffies, w.start, d.x.s.tasks[k], Used(d.x, k), w.accounts[k]);
    }
  }

  /** And takes no more than its share. */
  lemma LeaverShare(top: nat, d: Desk, w: Epoch, k: nat)
    requires Fitted(d, w) && AllTracked(top, d, w) && k < |d.x.s.tasks| && Consistent(d.x.s) && InTime(d.x.s)
    ensures var w', c := Farewell(top, d, w, k), ChargeFor(d.x.s.jiffies, d.x.s.tasks[k]);
            GoneShare(c, w'.marks[0], w.start, d.x.s.jiffies) + w'.spent as real
            <= ShareList(top, LoadsOf(d.x.s.tasks), d.x.s.jiffies, w.accounts)[k] + w.spent as real
  {
    var t, a := d.x.s.tasks[k], w.accounts[k];
    if t.period <= top {
      assert Tracked(d.x.s.jiffies, w.start, t, Used(d.x, k), a);
      assert TaskOk(d.x.s.jiffies, t);
      if a.newcomer {
        assert (a.count + 1) * t.period == a.count * t.period + t.period;
        ShareOfMultiple(LoadOf(t), a.count, d.x.s.jiffies - a.since);
      }
    }
  }

  lemma LeaverExcess(top: nat, d: Desk, w: Epoch, k: nat, t: nat)
    requires Fitted(d, w) && k < |d.x.s.tasks|
    ensures var w', c := Farewell(top, d, w, k), ChargeFor(d.x.s.jiffies, d.x.s.tasks[k]);
            GoneExcess(c, w'.marks[0], t) == ExcessList(top, LoadsOf(d.x.s.tasks), w.accounts, t)[k]
  {
  }

  lemma FarewellPaced(top: nat, d: Desk, w: Epoch, d': Desk, k: nat)
    requires Fitted(d, w) && AllTracked(top, d, w) && Left(d, d', k) && Fitted(d', Farewell(top, d, w, k))
    requires Paced(top, d, w)
    ensures Paced(top, d', Farewell(top, d, w, k))
  {
    var w', c := Farewell(top, d, w, k), ChargeFor(d.x.s.jiffies, d.x.s.tasks[k]);
    ServedUnlinked(top, d.x, d'.x, w.accounts, k);
    GonePrepended(c, d.charges, w'.marks[0], w.marks, w.start, d.x.s.jiffies);
    assert w'.marks == [w'.marks[0]] + w.marks;
    LeaverServed(top, d, w, k);
  }

  lemma FarewellShared(top: nat, d: Desk, w: Epoch, d': Desk, k: nat)
    requires Fitted(d, w) && AllTracked(top, d, w) && Left(d, d', k) && Fitted(d', Farewell(top, d, w, k))
    requires Shared(top, d, w) && Consistent(d.x.s) && InTime(d.x.s)
    ensures Shared(top, d', Farewell(top, d, w, k))
  {
    var w', c := Farewell(top, d, w, k), ChargeFor(d.x.s.jiffies, d.x.s.tasks[k]);
    ShareUnlinked(top, d.x.s.tasks, w.accounts, k, d.x.s.jiffies);
    GonePrepended(c, d.charges, w'.marks[0], w.marks, w.start, d.x.s.jiffies);
    assert w'.marks == [w'.marks[0]] + w.marks;
    LeaverShare(top, d, w, k);
  }

  lemma FarewellAccounted(top: nat, d: Desk, w: Epoch, d': Desk, k: nat, t: nat)
    requires Fitted(d, w) && Left(d, d', k) && Fitted(d', Farewell(top, d, w, k)) && Accounted(top, d, w, t)
    ensures Accounted(top, d', Farewell(top, d, w, k), t)
  {
    var w', c := Farewell(top, d, w, k), ChargeFor(d.x.s.jiffies, d.x.s.tasks[k]);
    ExcessUnlinked(top, d.x.s.tasks, w.accounts, k, t);
    GoneExcessPrepended(c, d.charges, w'.marks[0], w.marks, t);
    assert w'.marks == [w'.marks[0]] + w.marks;
    LeaverExcess(top, d, w, k, t);
  }

  lemma BusyFarewell(top: nat, d: Desk, w: Epoch, d': Desk, k: nat)
    requires Busy(top, d, w) && Left(d, d', k) && Consistent(d.x.s) && InTime(d.x.s)
    ensures Busy(top, d', Farewell(top, d, w, k))
  {
    FarewellTracks(top, d, w, d', k);
    FarewellMarks(top, d, w, d', k);
    FarewellPaced(top, d, w, d', k);
    FarewellShared(top, d, w, d', k);
    forall t: nat ensures Accounted(top, d', Farewell(top, d, w, k), t) {
      assert Accounted(top, d, w, t);
      FarewellAccounted(top, d, w, d', k, t);
    }
  }

  lemma BusyDeregister(top: nat, d: Desk, w: Epoch, pid: nat) returns (w': Epoch)
    requires Busy(top, d, w) && Consistent(d.x.s) && InTime(d.x.s)
    ensures Busy(top, Serve(d, Deregister(pid)), w')
  {
    if Registered(d.x.s.tasks, pid) {
      var k := Find(d.x.s.tasks, pid);
      HasLeft(d, pid);
      w' := Farewell(top, d, w, k);
      BusyFarewell(top, d, w, Serve(d, Deregister(pid)), k);
    } else {
      w' := w;
      NobodyLeft(d, pid);
    }
  }

  // ---- Every level always has a window ----

  ghost predicate HasWindow(top: nat, d: Desk) {
    exists w :: Busy(top, d, w)
  }

  lemma KeepsWindow(top: nat, d: Desk, e: Event)
    requires HasWindow(top, d) && GuardedInv(d.x.s) && InTime(d.x.s) && Plays(d.x, e) && Capable(d)
    ensures HasWindow(top, Serve(d, e))
  {
    var w :| Busy(top, d, w);
    match e
    case Register(_, _, _) => var w' := BusyRegister(top, d, w, e);
    case Deregister(pid) => var w' := BusyDeregister(top, d, w, pid);
    case Tick => if LevelActive(top, d.x.s) { BusyTick(top, d, w); } else { IdleTick(top, d, w); }
    case _ => BusyInner(top, d, w, e);
  }

  // ---- From windows to deadlines ----

  /** The share of the processor of several loads, over a time. */
  function SharesOf(s: seq<Load>, t: nat): real {
    if s == [] then 0.0 else Share(s[0], t) + SharesOf(s[1..], t)
  }

  lemma {:induction false} LevelExcess(top: nat, base: seq<Load>, t: nat)
    ensures Sum(ExcessOfBase(top, base, t)) == Demand(Level(base, top), t) as real - SharesOf(Level(base, top), t)
  {
    if base != [] {
      LevelExcess(top, base[1..], t);
      assert ExcessOfBase(top, base, t)[1..] == ExcessOfBase(top, base[1..], t);
    }
  }

  lemma Distribute(a: real, b: real, t: real)
    ensures (a + b) * t == a * t + b * t
  {
  }

  /** The shares and the rest of the processor make up the whole. */
  lemma {:induction false} SharesAdd(s: seq<Load>, t: nat, rest: real, whole: real)
    requires rest + Sum(Utils(s)) == whole
    ensures SharesOf(s, t) + rest * t as real == whole * t as real
  {
    if s != [] {
      assert Utils(s)[1..] == Utils(s[1..]);
      SharesAdd(s[1..], t, rest + Util(s[0]), whole);
      Distribute(rest, Util(s[0]), t as real);
    }
  }

  lemma UtilsPrepended(l: Load, s: seq<Load>)
    ensures Utils([l] + s) == [Util(l)] + Utils(s) && Sum(Utils([l] + s)) == Util(l) + Sum(Utils(s))
  {
    SumPrepended(Util(l), Utils(s));
  }

  lemma {:induction false} LevelIsModest(top: nat, base: seq<Load>)
    ensures Sum(Utils(Level(base, top))) <= Sum(Utils(base)) && |Level(base, top)| <= |base|
  {
    if base != [] {
      LevelIsModest(top, base[1..]);
      assert base == [base[0]] + base[1..];
      UtilsPrepended(base[0], base[1..]);
      UtilsPrepended(base[0], Level(base[1..], top));
    }
  }

  lemma ModestProduct(level: seq<Load>, free: real, us: seq<real>, n: nat)
    requires |level| < n == 50 && free == CAPACITY - Sum(Utils(level)) >= 0.0 && us == [free] + Utils(level)
    ensures Product(us) < 2.0
  {
    SumPrepended(free, Utils(level));
    SumToProductFor50(us, n);
  }

  lemma RoomBeside(level: seq<Load>, top: nat) returns (t: nat, free: real)
    requires |level| <= 49 && Sum(Utils(level)) <= CAPACITY && top > 0 && TimeDemand.Within(level, top)
    ensures 0 < t <= top && free + Sum(Utils(level)) == CAPACITY
    ensures Demand(level, t) as real + free * t as real < t as real
  {
    free := CAPACITY - Sum(Utils(level));
    ModestProduct(level, free, [free] + Utils(level), 50);
    t := TimeDemand.SomeWindowFitsBeside(level, top, free, [free] + Utils(level));
  }

  lemma SharesFit(level: seq<Load>, t: nat, free: real)
    requires free + Sum(Utils(level)) == CAPACITY && Demand(level, t) as real + free * t as real < t as real
    ensures Capacity(t) + (Demand(level, t) as real - SharesOf(level, t)) < t as real
  {
    SharesAdd(level, t, free, CAPACITY);
  }

  /** Some time within `top` has not been covered, so the window is shorter. */
  lemma NotCovered(top: nat, base: seq<Load>) returns (t: nat)
    requires Modest(base) && top > 0
    ensures 0 < t <= top && !Covered(top, base, t)
  {
    var level := Level(base, top);
    var free;
    LevelIsModest(top, base);
    t, free := RoomBeside(level, top);
    SharesFit(level, t, free);
    LevelExcess(top, base, t);
  }

  lemma WindowEnds(top: nat, base: seq<Load>, time: nat)
    requires Modest(base) && top > 0 && CoveredUpTo(top, base, time)
    ensures time < top
  {
    var gap := NotCovered(top, base);
  }

  lemma ReleasedInWindow(now: nat, start: nat, t: Task, used: nat, a: Account)
    requires Tracked(now, start, t, used, a) && TaskOk(now, t) && t.state != Sleeping
    ensures start <= t.deadlineJiff
  {
    Loads.MulOrder(1, a.count + if a.newcomer then 1 else 0, t.period);
  }

  lemma WindowIsShort(d: Desk, w: Epoch, i: nat)
    requires i < |d.x.s.tasks| && d.x.s.tasks[i].state != Sleeping && Consistent(d.x.s)
    requires Busy(d.x.s.tasks[i].period, d, w)
    ensures d.x.s.jiffies < d.x.s.tasks[i].deadlineJiff + d.x.s.tasks[i].period
  {
    var t := d.x.s.tasks[i];
    assert Tracked(d.x.s.jiffies, w.start, t, Used(d.x, i), w.accounts[i]) && TaskOk(d.x.s.jiffies, t);
    ReleasedInWindow(d.x.s.jiffies, w.start, t, Used(d.x, i), w.accounts[i]);
    WindowEnds(t.period, w.base, d.x.s.jiffies - w.start);
  }

  lemma WindowsGiveDeadlines(d: Desk)
    requires Consistent(d.x.s) && forall top: nat :: HasWindow(top, d)
    ensures OnTime(d.x.s)
  {
    forall i | 0 <= i < |d.x.s.tasks| && d.x.s.tasks[i].state != Sleeping
      ensures d.x.s.jiffies < d.x.s.tasks[i].deadlineJiff + d.x.s.tasks[i].period
    {
      assert HasWindow(d.x.s.tasks[i].period, d);
      var w :| Busy(d.x.s.tasks[i].period, d, w);
      WindowIsShort(d, w, i);
    }
  }

  // ---- The theorem ----

  lemma NobodyYet(top: nat)
    ensures HasWindow(top, Desk(IDLE, []))
  {
    assert Busy(top, Desk(IDLE, []), Epoch(0, [], [], [], 0));
  }

  ghost predicate Sheltered(d: Desk) {
    OnTime(d.x.s) && forall top: nat :: HasWindow(top, d)
  }

  lemma StepSheltered(d: Desk, e: Event)
    requires Sheltered(d) && GuardedInv(d.x.s) && Charged(d) && Crowd(d) <= 49 && Plays(d.x, e)
    ensures Sheltered(Serve(d, e))
  {
    ChargedIsCapable(d);
    GuardedStep(REAL_TIME, d.x.s, e);
    forall top: nat ensures HasWindow(top, Serve(d, e)) {
      assert HasWindow(top, d);
      KeepsWindow(top, d, e);
    }
    WindowsGiveDeadlines(Serve(d, e));
  }

  /** Patient registrations are safe: in every run of the guarded scheduler in which tasks
      register and deregister at will, the admission test decides in 32-bit arithmetic, a
      registration it accepts also fits beside what departed tasks still count for, and at
      most 49 tasks count at a time, every job is done before its task's next release. */
  lemma {:induction false} PatientRunsAreOnTime(n: nat, es: seq<Event>)
    requires Patient(n, es) && n <= 49
    ensures Sheltered(DeskAfter(es))
  {
    if es == [] {
      forall top: nat ensures HasWindow(top, Desk(IDLE, [])) { NobodyYet(top); }
    } else {
      PatientRunsAreOnTime(n, es[..|es| - 1]);
      PatientCharged(n, es[..|es| - 1]);
      StepSheltered(DeskAfter(es[..|es| - 1]), es[|es| - 1]);
    }
  }

  // ---- Patient runs go on ----

  lemma {:induction false} CountDecays(cs: seq<Charge>, now: nat)
    ensures PendingCount(cs, now + 1) <= PendingCount(cs, now)
  {
    if cs != [] {
      CountDecays(cs[1..], now);
    }
  }

  lemma RoutineIsCareful(d: Desk, e: Event)
    requires Plays(d.x, e) && (e.Yield? || e.Expire? || e.Dispatch? || e.Tick?)
    ensures Careful(d, e) && Crowd(Serve(d, e)) <= Crowd(d)
  {
    Guarantee.OthersKeepLoads(REAL_TIME, d.x.s, e);
    CountDecays(d.charges, d.x.s.jiffies);
  }

  lemma PatientStep(n: nat, es: seq<Event>) returns (e: Event)
    requires Patient(n, es) && n <= 49
    ensures Patient(n, es + [e]) && DeskAfter(es + [e]) == Serve(DeskAfter(es), e)
    ensures e == Tick || Progress.Nearer(DeskAfter(es).x.s, DeskAfter(es + [e]).x.s)
  {
    PatientRunsAreOnTime(n, es);
    PatientCharged(n, es);
    e := Progress.NextStep(DeskAfter(es).x);
    RoutineIsCareful(DeskAfter(es), e);
    PatientOneMore(n, es, e);
  }

  /** Every patient run can be continued, without the clock moving, to where the clock ticks. */
  lemma PatientRunsGoOn(n: nat, es: seq<Event>) returns (run: seq<Event>)
    requires Patient(n, es) && n <= 49
    ensures es <= run && Patient(n, run + [Tick])
    ensures DeskAfter(run).x.s.jiffies == DeskAfter(es).x.s.jiffies
    decreases Progress.Weights(DeskAfter(es).x.s.tasks, DeskAfter(es).x.s.jiffies), DeskAfter(es).x.s.wake
  {
    var e := PatientStep(n, es);
    if e == Tick {
      run := es;
    } else {
      run := PatientRunsGoOn(n, es + [e]);
    }
  }
}
