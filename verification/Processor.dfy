/** The scheduler on a processor: runs in which tasks behave, and what deadlines mean in them. */
module Processor {
  import opened Options
  import opened Tasks
  import opened Scheduler
  import opened SchedulerInvariants

  /** One jiffy per millisecond. */
  const REAL_TIME := Config(Guarded, (ms: nat) => ms)

  // ---- Execution: what the running process does between events ----

  /** The scheduler together with the processor: `used` counts the ticks each task has
      spent on its current job. */
  datatype Exec = Exec(s: State, used: map<nat, nat>)

  const IDLE := Exec(INITIAL, map[])

  function Count(m: map<nat, nat>, pid: nat): nat {
    if pid in m then m[pid] else 0
  }

  function Lookup(ts: seq<Task>, pid: nat): (o: Option<Task>)
    ensures o.Some? ==> o.value in ts && o.value.pid == pid
  {
    if ts == [] then None else if ts[0].pid == pid then Some(ts[0]) else Lookup(ts[1..], pid)
  }

  /** The events of a run in which tasks behave: a process that sleeps until its release
      sends no yield, the dispatching thread runs before the clock moves on, and the clock
      moves on only while the current job stays within its processing time. */
  predicate Plays(x: Exec, e: Event) {
    && Enabled(x.s, e)
    && match e
       case Yield(pid) =>
         var o := Lookup(x.s.tasks, pid);
         o.Some? ==> !(o.value.state == Sleeping && o.value.deadlineSet)
       case Tick =>
         && !x.s.wake
         && (x.s.current.Some? ==>
               var o := Lookup(x.s.tasks, x.s.current.value);
               o.Some? ==> Count(x.used, o.value.pid) < o.value.processingTime)
       case _ => true
  }

  function Execute(x: Exec, e: Event): Exec {
    var used :=
      match e
      case Expire(pid) => x.used[pid := 0]
      case Tick =>
        if x.s.current == None then x.used else x.used[x.s.current.value := Count(x.used, x.s.current.value) + 1]
      case _ => x.used;
    Exec(Step(REAL_TIME, x.s, e), used)
  }

  function Execution(es: seq<Event>): Exec {
    if es == [] then IDLE else Execute(Execution(es[..|es| - 1]), es[|es| - 1])
  }

  lemma {:induction false} ExecutionIsRun(es: seq<Event>)
    ensures Execution(es).s == Run(REAL_TIME, es)
  {
    if es != [] {
      ExecutionIsRun(es[..|es| - 1]);
    }
  }

  lemma Dispatched(x: Exec)
    requires Consistent(x.s)
    ensures var x' := Execute(x, Dispatch);
            && x'.used == x.used && x'.s.jiffies == x.s.jiffies && |x'.s.tasks| == |x.s.tasks|
            && forall i :: 0 <= i < |x.s.tasks| ==> OnlyStateDiffers(x.s.tasks[i], x'.s.tasks[i])
  {
    DispatchOnlyRuns(Guarded, x.s);
  }

  // ---- Deadlines ----

  /** Every released job that has not yielded yet is before its task's next release. */
  predicate OnTime(s: State) {
    forall i :: 0 <= i < |s.tasks| && s.tasks[i].state != Sleeping ==>
                  s.jiffies < s.tasks[i].deadlineJiff + s.tasks[i].period
  }

  /** No released job that has not yielded yet is past its task's next release. */
  predicate InTime(s: State) {
    forall i :: 0 <= i < |s.tasks| && s.tasks[i].state != Sleeping ==>
                  s.jiffies <= s.tasks[i].deadlineJiff + s.tasks[i].period
  }

  lemma NoSkip(s: State, k: nat)
    requires Consistent(s) && InTime(s) && k < |s.tasks|
    ensures !Skips(REAL_TIME, s, s.tasks[k])
  {
    assert TaskOk(s.jiffies, s.tasks[k]);
  }

  /** The job's next release has come, or is past, and it has not yielded. */
  predicate Overdue(s: State, k: nat)
    requires k < |s.tasks|
  {
    s.tasks[k].state != Sleeping && s.jiffies >= s.tasks[k].deadlineJiff + s.tasks[k].period
  }

  /** The job's next release has come, and it has work left. */
  predicate Late(x: Exec, k: nat)
    requires k < |x.s.tasks|
  {
    Overdue(x.s, k) && Count(x.used, x.s.tasks[k].pid) < x.s.tasks[k].processingTime
  }

  // ---- Looking tasks up ----

  lemma {:induction false} LookupIs(ts: seq<Task>, k: nat)
    requires Distinct(ts) && k < |ts|
    ensures Lookup(ts, ts[k].pid) == Some(ts[k])
  {
    if k > 0 {
      LookupIs(ts[1..], k - 1);
    }
  }

  lemma {:induction false} LookupNone(ts: seq<Task>, pid: nat)
    requires forall i :: 0 <= i < |ts| ==> ts[i].pid != pid
    ensures Lookup(ts, pid) == None
  {
    if ts != [] {
      LookupNone(ts[1..], pid);
    }
  }

  lemma {:induction false} LookupRenewed(ts: seq<Task>, k: nat, t: Task, pid: nat)
    requires Distinct(ts) && k < |ts| && t.pid == ts[k].pid
    ensures Lookup(ts[k := t], pid) == if pid == t.pid then Some(t) else Lookup(ts, pid)
  {
    if k > 0 {
      LookupRenewed(ts[1..], k - 1, t, pid);
      assert ts[k := t][1..] == ts[1..][k - 1 := t];
    }
  }

  lemma {:induction false} LookupRemoved(ts: seq<Task>, gone: nat, pid: nat)
    ensures Lookup(Remove(ts, gone), pid) == if pid == gone then None else Lookup(ts, pid)
  {
    if ts != [] {
      LookupRemoved(ts[1..], gone, pid);
    }
  }

  /** Before and after, the same task: both asleep or both not, with the same deadline. */
  predicate SameJob(o: Option<Task>, o': Option<Task>) {
    o == o' || (&& o.Some? && o'.Some? && o.value.state != Sleeping && o'.value.state != Sleeping
                && o'.value.deadlineSet == o.value.deadlineSet && o'.value.deadlineJiff == o.value.deadlineJiff)
  }

  lemma {:induction false} LookupPointwise(ts: seq<Task>, ts': seq<Task>, pid: nat)
    requires |ts'| == |ts| && forall i :: 0 <= i < |ts| ==> OnlyStateDiffers(ts[i], ts'[i])
    ensures SameJob(Lookup(ts, pid), Lookup(ts', pid))
  {
    if ts != [] {
      LookupPointwise(ts[1..], ts'[1..], pid);
    }
  }
}
