/** Tasks that leave. The admission test forgets a task the moment it is deregistered, but
    the work it was last released for counts until its next release would have been. */
module Departures {
  import opened Options
  import opened Sequences
  import opened Tasks
  import opened Loads
  import opened Scheduler
  import opened SchedulerInvariants
  import opened Processor
  import opened Admission
  import opened Guarantee

  /** The earliest time of a task's next release, as far as is known now. */
  function NextRelease(now: nat, t: Task): nat {
    if !t.deadlineSet then now + t.period
    else if t.state == Sleeping then t.deadlineJiff
    else t.deadlineJiff + t.period
  }

  /** A task that has left, and the time of the release it did not wait for; a task that
      never yielded has not been released and waits for nothing. */
  datatype Charge = Charge(load: Load, until: nat)

  function ChargeFor(now: nat, t: Task): Charge {
    Charge(LoadOf(t), if t.deadlineSet then NextRelease(now, t) else now)
  }

  /** The execution together with the departures so far, latest first. */
  datatype Desk = Desk(x: Exec, charges: seq<Charge>)

  function Depart(d: Desk, e: Event): seq<Charge> {
    if e.Deregister? && Registered(d.x.s.tasks, e.pid)
    then [ChargeFor(d.x.s.jiffies, d.x.s.tasks[Find(d.x.s.tasks, e.pid)])] + d.charges
    else d.charges
  }

  function Serve(d: Desk, e: Event): Desk {
    Desk(Execute(d.x, e), Depart(d, e))
  }

  function DeskAfter(es: seq<Event>): Desk {
    if es == [] then Desk(IDLE, []) else Serve(DeskAfter(es[..|es| - 1]), es[|es| - 1])
  }

  lemma {:induction false} DeskIsExecution(es: seq<Event>)
    ensures DeskAfter(es).x == Execution(es)
  {
    if es != [] {
      DeskIsExecution(es[..|es| - 1]);
    }
  }

  // ---- What departed tasks still count for ----

  function PendingTotal(cs: seq<Charge>, now: nat): nat {
    if cs == [] then 0
    else (if cs[0].until > now then Scaled(cs[0].load.cost, cs[0].load.period) else 0) + PendingTotal(cs[1..], now)
  }

  function PendingCount(cs: seq<Charge>, now: nat): nat {
    if cs == [] then 0 else (if cs[0].until > now then 1 else 0) + PendingCount(cs[1..], now)
  }

  /** What the admission test would find if departed tasks counted until their next release. */
  function ChargedTotal(d: Desk): nat {
    Total(d.x.s.tasks) + PendingTotal(d.charges, d.x.s.jiffies)
  }

  function Crowd(d: Desk): nat {
    |d.x.s.tasks| + PendingCount(d.charges, d.x.s.jiffies)
  }

  /** A registration the test accepts also fits beside what departed tasks still count for. */
  predicate Affords(d: Desk, e: Event) {
    e.Register? && Admits(d.x.s.tasks, e.period, e.time) ==>
      ChargedTotal(d) + Scaled(e.time, e.period) <= ADMISSION_BOUND
  }

  /** The events of a run in which tasks behave and registrations are patient. */
  predicate Careful(d: Desk, e: Event) {
    Plays(d.x, e) && (e.Register? ==> e.time <= LARGEST_SAFE_TIME) && Affords(d, e)
  }

  /** A run of careful events in which never more than n tasks count at a time. */
  predicate Patient(n: nat, es: seq<Event>) {
    es == [] ||
    var before := es[..|es| - 1];
    Patient(n, before) && Careful(DeskAfter(before), es[|es| - 1]) && Crowd(DeskAfter(es)) <= n
  }

  lemma PatientOneMore(n: nat, es: seq<Event>, e: Event)
    requires Patient(n, es) && Careful(DeskAfter(es), e) && Crowd(Serve(DeskAfter(es), e)) <= n
    ensures Patient(n, es + [e]) && DeskAfter(es + [e]) == Serve(DeskAfter(es), e)
  {
    assert (es + [e])[..|es|] == es;
  }

  ghost predicate Charged(d: Desk) {
    SafeTimes(d.x.s.tasks) && ChargedTotal(d) <= ADMISSION_BOUND
  }

  /** Patience costs nothing while nobody has left whose next release is still ahead:
      the test as it is then suffices. */
  lemma NobodyPending(d: Desk, e: Event)
    requires Charged(d) && (e.Register? ==> e.time <= LARGEST_SAFE_TIME)
    requires forall i :: 0 <= i < |d.charges| ==> d.charges[i].until <= d.x.s.jiffies
    ensures Affords(d, e)
  {
    NothingPending(d.charges, d.x.s.jiffies);
    if e.Register? {
      AdmitsIffTotal(d.x.s.tasks, e.period, e.time);
    }
  }

  lemma {:induction false} NothingPending(cs: seq<Charge>, now: nat)
    requires forall i :: 0 <= i < |cs| ==> cs[i].until <= now
    ensures PendingTotal(cs, now) == 0 && PendingCount(cs, now) == 0
  {
    if cs != [] {
      NothingPending(cs[1..], now);
    }
  }

  // ---- The charged total stays within the bound ----

  lemma {:induction false} TotalUnlinked(ts: seq<Task>, k: nat)
    requires k < |ts|
    ensures Total(ts) == Total(Unlink(ts, k)) + Scaled(ts[k].processingTime, ts[k].period)
  {
    assert ts == [ts[0]] + ts[1..];
    TotalOfPrepended(ts[0], ts[1..]);
    if k == 0 {
      assert Unlink(ts, 0) == ts[1..];
    } else {
      TotalUnlinked(ts[1..], k - 1);
      assert Unlink(ts, k) == [ts[0]] + Unlink(ts[1..], k - 1);
      TotalOfPrepended(ts[0], Unlink(ts[1..], k - 1));
    }
  }

  lemma RemoveIs(s: State, pid: nat)
    requires Distinct(s.tasks) && Registered(s.tasks, pid)
    ensures Remove(s.tasks, pid) == Unlink(s.tasks, Find(s.tasks, pid))
  {
    var k := Find(s.tasks, pid);
    forall i | 0 <= i < |s.tasks| ensures s.tasks[i].pid == pid <==> i == k {
      FindIs(s.tasks, i);
    }
    RemoveIsUnlink(s.tasks, k, pid);
  }

  lemma NotRegisteredIs(s: State, pid: nat)
    requires !Registered(s.tasks, pid)
    ensures OnDeregister(s, pid) == s
  {
    NotFound(s.tasks, pid);
    NothingToRemove(s.tasks, pid);
  }

  lemma {:induction false} PendingDecays(cs: seq<Charge>, now: nat)
    ensures PendingTotal(cs, now + 1) <= PendingTotal(cs, now)
  {
    if cs != [] {
      PendingDecays(cs[1..], now);
    }
  }

  lemma UnlinkKeepsSafe(ts: seq<Task>, k: nat)
    requires SafeTimes(ts) && k < |ts|
    ensures SafeTimes(Unlink(ts, k))
  {
    forall t | t in Unlink(ts, k) ensures t in ts {}
  }

  lemma RegisterCharged(d: Desk, e: Event)
    requires Charged(d) && e.Register? && Careful(d, e)
    ensures Charged(Serve(d, e))
  {
    var t := Task(e.pid, e.period, e.time, Sleeping, 0, false, None);
    TotalOfPrepended(t, d.x.s.tasks);
  }

  lemma PendingPrepended(c: Charge, cs: seq<Charge>, now: nat)
    ensures PendingTotal([c] + cs, now) <= Scaled(c.load.cost, c.load.period) + PendingTotal(cs, now)
  {
    assert ([c] + cs)[1..] == cs;
  }

  /** What a task that leaves takes out of the total is charged at most once more. */
  lemma LeavingIsCharged(ts: seq<Task>, k: nat, c: Charge, cs: seq<Charge>, now: nat)
    requires k < |ts| && c.load == LoadOf(ts[k])
    ensures Total(Unlink(ts, k)) + PendingTotal([c] + cs, now) <= Total(ts) + PendingTotal(cs, now)
  {
    TotalUnlinked(ts, k);
    PendingPrepended(c, cs, now);
  }

  /** The desk without task k, whose charge comes first. */
  predicate Left(d: Desk, d': Desk, k: nat) {
    && k < |d.x.s.tasks| && d'.x.used == d.x.used
    && d'.charges == [ChargeFor(d.x.s.jiffies, d.x.s.tasks[k])] + d.charges
    && d'.x.s.tasks == Unlink(d.x.s.tasks, k) && d'.x.s.jiffies == d.x.s.jiffies
  }

  lemma HasLeft(d: Desk, pid: nat)
    requires Consistent(d.x.s) && Registered(d.x.s.tasks, pid)
    ensures Left(d, Serve(d, Deregister(pid)), Find(d.x.s.tasks, pid))
  {
    RemoveIs(d.x.s, pid);
  }

  lemma NobodyLeft(d: Desk, pid: nat)
    requires !Registered(d.x.s.tasks, pid)
    ensures Serve(d, Deregister(pid)) == d
  {
    NotRegisteredIs(d.x.s, pid);
  }

  lemma LeftCharged(d: Desk, d': Desk, k: nat)
    requires Charged(d) && Left(d, d', k)
    ensures Charged(d')
  {
    UnlinkKeepsSafe(d.x.s.tasks, k);
    LeavingIsCharged(d.x.s.tasks, k, ChargeFor(d.x.s.jiffies, d.x.s.tasks[k]), d.charges, d.x.s.jiffies);
  }

  lemma DeregisterCharged(d: Desk, pid: nat)
    requires Charged(d) && Consistent(d.x.s)
    ensures Charged(Serve(d, Deregister(pid)))
  {
    if Registered(d.x.s.tasks, pid) {
      HasLeft(d, pid);
      LeftCharged(d, Serve(d, Deregister(pid)), Find(d.x.s.tasks, pid));
    } else {
      NobodyLeft(d, pid);
    }
  }

  /** With patience the test bounds more than it sees: after every event the registered tasks
      and the departed ones that still count have a truncated total within the bound. */
  lemma StepCharged(d: Desk, e: Event)
    requires Charged(d) && Consistent(d.x.s) && Careful(d, e)
    ensures Charged(Serve(d, e))
  {
    match e
    case Register(_, _, _) => RegisterCharged(d, e);
    case Deregister(pid) => DeregisterCharged(d, pid);
    case _ =>
      var s, s' := d.x.s, Serve(d, e).x.s;
      OthersKeepLoads(REAL_TIME, s, e);
      SameTotals(s.tasks, s'.tasks);
      SafeFromLoads(s.tasks, s'.tasks);
      PendingDecays(d.charges, s.jiffies);
  }

  lemma {:induction false} PatientCharged(n: nat, es: seq<Event>)
    requires Patient(n, es)
    ensures Charged(DeskAfter(es)) && GuardedInv(DeskAfter(es).x.s) && Crowd(DeskAfter(es)) <= n
  {
    if es != [] {
      var d := DeskAfter(es[..|es| - 1]);
      PatientCharged(n, es[..|es| - 1]);
      StepCharged(d, es[|es| - 1]);
      GuardedStep(REAL_TIME, d.x.s, es[|es| - 1]);
    }
  }

  /** A run in which tasks behave, at most n are registered, and none is ever deregistered. */
  predicate Staying(n: nat, es: seq<Event>) {
    es == [] ||
    var before, e := es[..|es| - 1], es[|es| - 1];
    && Staying(n, before) && Plays(Execution(before), e) && !e.Deregister?
    && (e.Register? ==> e.time <= LARGEST_SAFE_TIME) && |Execution(es).s.tasks| <= n
  }

  /** Such runs are patient: nobody has left. */
  lemma {:induction false} StayingIsPatient(n: nat, es: seq<Event>)
    requires Staying(n, es)
    ensures Patient(n, es) && DeskAfter(es).charges == []
  {
    if es != [] {
      var before := es[..|es| - 1];
      StayingIsPatient(n, before);
      PatientCharged(n, before);
      DeskIsExecution(before);
      DeskIsExecution(es);
      NobodyPending(DeskAfter(before), es[|es| - 1]);
    }
  }
}
