/** The scheduler module's handlers over its linked list of task structures, updated in
    place. Each is proved to take the as-written step of the state machine. */
module Mp2 {
  import opened Options
  import opened Sequences
  import opened Tasks
  import Admission
  import Scheduler

  /** struct mp2_schedule_info_list; `timer` stands for wakeup_timer. */
  class TaskNode {
    var pid: nat
    var period: Period
    var processingTime: nat
    var state: RunState
    var deadlineJiff: nat
    var deadlineSet: bool
    var timer: Option<nat>

    constructor (pid: nat, period: Period, processingTime: nat)
      ensures View() == Task(pid, period, processingTime, Sleeping, 0, false, None)
    {
      this.pid := pid;
      this.period := period;
      this.processingTime := processingTime;
      deadlineJiff := 0;
      deadlineSet := false;
      state := Sleeping;
      timer := None;
    }

    function View(): Task
      reads this
    {
      Task(pid, period, processingTime, state, deadlineJiff, deadlineSet, timer)
    }
  }

  function ViewsOf(ns: seq<TaskNode>): (ts: seq<Task>)
    reads ns
    ensures |ts| == |ns| && forall i :: 0 <= i < |ns| ==> ts[i] == ns[i].View()
  {
    seq(|ns|, i requires 0 <= i < |ns| reads ns => ns[i].View())
  }

  lemma Unaliased(ns: seq<TaskNode>, k: nat)
    requires Distinct(ViewsOf(ns)) && k < |ns|
    ensures forall i :: 0 <= i < |ns| && i != k ==> ns[i] != ns[k]
  {
    var ts := ViewsOf(ns);
    forall i | 0 <= i < |ns| && i != k ensures ns[i] != ns[k] {
      assert ts[i].pid != ts[k].pid;
    }
  }

  /** After one node has been changed, but not its pid, the list reads like the old one with one entry renewed. */
  lemma Renewed(ns: seq<TaskNode>, ts: seq<Task>, k: nat)
    requires Distinct(ts) && |ts| == |ns| && k < |ns| && ns[k].pid == ts[k].pid
    requires forall i :: 0 <= i < |ns| && i != k ==> ns[i].View() == ts[i]
    ensures ViewsOf(ns) == ts[k := ns[k].View()] && Distinct(ViewsOf(ns))
  {
  }

  lemma Prepended(ns: seq<TaskNode>, ts: seq<Task>, n: TaskNode)
    requires ts == ViewsOf(ns) && Distinct(ts) && !Registered(ts, n.pid)
    ensures ViewsOf([n] + ns) == [n.View()] + ts && Distinct(ViewsOf([n] + ns))
  {
    assert forall i :: 0 <= i < |ts| ==> ts[i].pid != n.pid;
  }

  lemma Unlinked(ns: seq<TaskNode>, ts: seq<Task>, k: nat)
    requires ts == ViewsOf(ns) && Distinct(ts) && k < |ns|
    ensures ViewsOf(Unlink(ns, k)) == Unlink(ts, k) && Distinct(Unlink(ts, k))
    ensures forall n :: n in ns && n != ns[k] ==> n in Unlink(ns, k)
  {
  }

  lemma DeregisterIs(s: Scheduler.State, pid: nat)
    requires Distinct(s.tasks)
    ensures var k := Find(s.tasks, pid);
            Scheduler.OnDeregister(s, pid)
            == if k == |s.tasks| then s
               else if s.current == Some(pid) then Scheduler.State(Unlink(s.tasks, k), None, s.jiffies, true)
               else s.(tasks := Unlink(s.tasks, k))
  {
    var k := Find(s.tasks, pid);
    if k < |s.tasks| {
      RemoveIsUnlink(s.tasks, k, pid);
    } else {
      NothingToRemove(s.tasks, pid);
    }
  }

  function Postponed(c: Scheduler.Config, s: Scheduler.State, t: Task): Task {
    t.(deadlineJiff := Scheduler.NextDeadline(c, s, t), deadlineSet := true)
  }

  function Suspended(s: Scheduler.State, k: nat): Scheduler.State
    requires k < |s.tasks|
  {
    var t := s.tasks[k];
    Scheduler.State(s.tasks[k := t.(state := Sleeping, timer := Some(t.deadlineJiff))], None, s.jiffies, true)
  }

  lemma YieldIs(c: Scheduler.Config, s: Scheduler.State, k: nat)
    requires k < |s.tasks| && c.variant == Scheduler.AsWritten
    ensures var late := Scheduler.Renew(s, k, Postponed(c, s, s.tasks[k]));
            Scheduler.OnYield(c, s, k) == if Scheduler.Skips(c, s, s.tasks[k]) then late else Suspended(late, k)
  {
  }

  lemma ScanOneMore(ts: seq<Task>, i: nat)
    requires i < |ts|
    ensures var best := BestReady(ts[..i]);
            BestReady(ts[..i + 1])
            == if ts[i].state != Ready then best
               else if best == None || ts[i].period <= ts[best.value].period then Some(i) else best
  {
    assert ts[..i + 1][..i] == ts[..i];
  }

  lemma PreemptedIs(s: Scheduler.State, c: nat, b: nat)
    requires Distinct(s.tasks) && c < |s.tasks| && b < |s.tasks| && s.current == Some(s.tasks[c].pid)
    ensures Scheduler.CurrentWins(s, b) <==> s.tasks[c].period <= s.tasks[b].period
    ensures Scheduler.Preempted(s) == s.tasks[c := s.tasks[c].(state := Ready)]
  {
    assert Find(s.tasks, s.tasks[c].pid) == c;
  }

  /** It makes no difference that the wake-up is consumed before the switch. */
  lemma WokenFirst(s: Scheduler.State)
    ensures Scheduler.Switched(Scheduler.AsWritten, s.(wake := false)) == Scheduler.OnDispatch(Scheduler.AsWritten, s)
  {
  }

  class Module {
    const toJiffies: nat -> nat
    var list: seq<TaskNode>
    var currentRunning: TaskNode?
    var jiffies: nat
    var wake: bool

    ghost predicate Valid()
      reads this, list
    {
      Distinct(ViewsOf(list)) && (currentRunning != null ==> currentRunning in list)
    }

    /** The abstract state the structures stand for. */
    ghost function Abs(): Scheduler.State
      reads this, list, currentRunning
    {
      Scheduler.State(ViewsOf(list), if currentRunning == null then None else Some(currentRunning.pid), jiffies, wake)
    }

    ghost function Config(): Scheduler.Config {
      Scheduler.Config(Scheduler.AsWritten, toJiffies)
    }

    constructor (toJiffies: nat -> nat)
      ensures Valid() && Abs() == Scheduler.INITIAL && this.toJiffies == toJiffies
    {
      this.toJiffies := toJiffies;
      list := [];
      currentRunning := null;
      jiffies := 0;
      wake := false;
    }

    method GetTask(pid: nat) returns (task: TaskNode?)
      ensures task == null <==> !Registered(ViewsOf(list), pid)
      ensures task != null ==> task == list[Find(ViewsOf(list), pid)]
    {
      var i := 0;
      while i < |list|
        invariant 0 <= i <= |list|
        invariant forall j :: 0 <= j < i ==> list[j].pid != pid
      {
        if list[i].pid == pid {
          assert Find(ViewsOf(list), pid) == i;
          return list[i];
        }
        i := i + 1;
      }
      task := null;
    }

    method PassAdmissionControl(period: Period, processingTime: nat) returns (pass: bool)
      ensures pass <==> Admission.Admits(ViewsOf(list), period, processingTime)
    {
      var total: nat := 0;
      var i := 0;
      ghost var ts := ViewsOf(list);
      while i < |list|
        invariant 0 <= i <= |list|
        invariant total == Admission.Total32(ts[..i])
      {
        var cursor := list[i];
        total := (total + cursor.processingTime * Admission.MULTIPLIER % Admission.U32 / cursor.period) % Admission.U32;
        assert ts[..i + 1][..i] == ts[..i] && ts[i] == cursor.View();
        i := i + 1;
      }
      assert ts[..i] == ts;
      total := (total + processingTime * Admission.MULTIPLIER % Admission.U32 / period) % Admission.U32;
      pass := total <= Admission.ADMISSION_BOUND;
    }

    method GetMostPrioritizedReadyTask() returns (best: TaskNode?)
      ensures best == null <==> BestReady(ViewsOf(list)) == None
      ensures best != null ==> best == list[BestReady(ViewsOf(list)).value]
    {
      ghost var ts := ViewsOf(list);
      best := null;
      var i := 0;
      ghost var b := BestReady(ts[..i]);
      while i < |list|
        invariant 0 <= i <= |list|
        invariant b == BestReady(ts[..i])
        invariant best == null <==> b == None
        invariant best != null ==> b.value < |list| && best == list[b.value] && best.View() == ts[b.value]
      {
        var cursor := list[i];
        assert cursor.View() == ts[i];
        ScanOneMore(ts, i);
        if cursor.state == Ready {
          if best == null || cursor.period <= best.period {
            best := cursor;
            b := Some(i);
          }
        }
        i := i + 1;
      }
      assert ts[..i] == ts;
    }

    method OnRegister(pid: nat, period: Period, processingTime: nat) returns (ok: bool)
      requires Valid() && !Registered(ViewsOf(list), pid)
      modifies this
      ensures Valid() && Abs() == Scheduler.OnRegister(old(Abs()), pid, period, processingTime)
      ensures ok <==> Admission.Admits(old(ViewsOf(list)), period, processingTime)
    {
      ghost var ts := ViewsOf(list);
      ok := PassAdmissionControl(period, processingTime);
      if ok {
        var node := new TaskNode(pid, period, processingTime);
        assert ViewsOf(list) == ts;
        Prepended(list, ts, node);
        list := [node] + list;
      }
    }

    method TimerCallback(pid: nat)
      requires Valid() && Registered(ViewsOf(list), pid)
      modifies this, list
      ensures Valid() && Abs() == Scheduler.OnExpire(old(Abs()), Find(old(ViewsOf(list)), pid))
    {
      ghost var ts, k := ViewsOf(list), Find(ViewsOf(list), pid);
      var task := GetTask(pid);
      Unaliased(list, k);
      task.state := Ready;
      task.timer := None;
      wake := true;
      Renewed(list, ts, k);
    }

    /** The deadline part of a yield: the next one, and whether it has already passed. */
    method SetDeadline(task: TaskNode, ghost k: nat) returns (skipYielding: bool)
      requires Valid() && k < |list| && list[k] == task
      modifies task`deadlineJiff, task`deadlineSet
      ensures Valid()
      ensures Abs() == Scheduler.Renew(old(Abs()), k, Postponed(Config(), old(Abs()), old(task.View())))
      ensures skipYielding <==> Scheduler.Skips(Config(), old(Abs()), old(task.View()))
    {
      ghost var ts := ViewsOf(list);
      Unaliased(list, k);
      skipYielding := false;
      if !task.deadlineSet {
        task.deadlineSet := true;
        task.deadlineJiff := jiffies + toJiffies(task.period);
      } else {
        task.deadlineJiff := task.deadlineJiff + toJiffies(task.period);
        if jiffies > task.deadlineJiff {
          skipYielding := true;
        }
      }
      Renewed(list, ts, k);
    }

    /** The rest of a yield that is not skipped: the task sleeps until its deadline. */
    method Suspend(task: TaskNode, ghost k: nat)
      requires Valid() && k < |list| && list[k] == task
      modifies this`currentRunning, this`wake, task`timer, task`state
      ensures Valid() && Abs() == Suspended(old(Abs()), k)
    {
      ghost var ts := ViewsOf(list);
      Unaliased(list, k);
      task.timer := Some(task.deadlineJiff);
      task.state := Sleeping;
      currentRunning := null;
      wake := true;
      Renewed(list, ts, k);
    }

    method OnYield(pid: nat)
      requires Valid() && Registered(ViewsOf(list), pid)
      modifies this, list
      ensures Valid() && Abs() == Scheduler.OnYield(Config(), old(Abs()), Find(old(ViewsOf(list)), pid))
    {
      ghost var k := Find(ViewsOf(list), pid);
      var task := GetTask(pid);
      YieldIs(Config(), Abs(), k);
      var skipYielding := SetDeadline(task, k);
      if skipYielding {
        return;
      }
      Suspend(task, k);
    }

    /** The node at k of `all` has been unlinked; `cur` was the current task, `woken` the wake-up. */
    ghost predicate Dropped(all: seq<TaskNode>, k: nat, cur: TaskNode?, woken: bool)
      reads this
    {
      && k < |all| && list == Unlink(all, k)
      && if cur == all[k] then currentRunning == null && wake else currentRunning == cur && wake == woken
    }

    lemma RemovalIs(before: Scheduler.State, all: seq<TaskNode>, k: nat, cur: TaskNode?)
      requires before.tasks == ViewsOf(all) && Distinct(before.tasks) && before.jiffies == jiffies
      requires (cur != null ==> cur in all) && before.current == if cur == null then None else Some(cur.pid)
      requires Dropped(all, k, cur, before.wake)
      ensures Valid() && Abs() == Scheduler.OnDeregister(before, all[k].pid)
    {
      Unlinked(all, before.tasks, k);
      if cur != null {
        var c :| 0 <= c < |all| && all[c] == cur;
        assert before.tasks[c].pid == cur.pid && before.tasks[k].pid == all[k].pid;
      }
      assert Find(before.tasks, all[k].pid) == k;
      DeregisterIs(before, all[k].pid);
    }

    /** The body of the loop for the record that is found. */
    method Drop(i: nat)
      requires i < |list|
      modifies this`list, this`currentRunning, this`wake
      ensures Dropped(old(list), i, old(currentRunning), old(wake))
    {
      if currentRunning == list[i] {
        currentRunning := null;
        wake := true;
      }
      list := list[..i] + list[i + 1..];
    }

    /** The loop removes while it goes on through the list. */
    method Unlist(pid: nat) returns (ghost removed: bool)
      requires Valid()
      modifies this`list, this`currentRunning, this`wake
      ensures var k := Find(old(ViewsOf(list)), pid);
              if removed then Dropped(old(list), k, old(currentRunning), old(wake))
              else k == |old(list)| && list == old(list) && currentRunning == old(currentRunning) && wake == old(wake)
    {
      ghost var all, k := list, Find(ViewsOf(list), pid);
      removed := false;
      var i := 0;
      while i < |list|
        invariant 0 <= i <= |list|
        invariant !removed ==> i <= k && list == all && currentRunning == old(currentRunning) && wake == old(wake)
        invariant removed ==> k <= i && Dropped(all, k, old(currentRunning), old(wake))
        decreases |list| - i
      {
        var cursor := list[i];
        if cursor.pid == pid {
          assert !removed && i == k;
          Drop(i);
          removed := true;
        } else {
          i := i + 1;
        }
      }
    }

    method OnDeregister(pid: nat)
      requires Valid()
      modifies this
      ensures Valid() && Abs() == Scheduler.OnDeregister(old(Abs()), pid)
    {
      ghost var all, before := list, Abs();
      ghost var removed := Unlist(pid);
      if removed {
        assert all[Find(before.tasks, pid)].pid == pid;
        RemovalIs(before, all, Find(before.tasks, pid), old(currentRunning));
      } else {
        assert Abs() == before;
        DeregisterIs(before, pid);
      }
    }

    /** The preemption of the current task, unless it is the more prioritized one. */
    method Preempt(best: TaskNode, ghost b: nat)
      requires Valid() && b < |list| && list[b] == best
      modifies list
      ensures Valid()
      ensures ViewsOf(list) == if Scheduler.CurrentWins(old(Abs()), b) then old(ViewsOf(list))
                               else Scheduler.Preempted(old(Abs()))
      ensures currentRunning != null ==> currentRunning.pid == old(currentRunning.pid)
    {
      ghost var ts := ViewsOf(list);
      if currentRunning != null {
        ghost var c :| 0 <= c < |list| && list[c] == currentRunning;
        assert ts[c] == currentRunning.View();
        PreemptedIs(Abs(), c, b);
        if !(currentRunning.period <= best.period) {
          Unaliased(list, c);
          currentRunning.state := Ready;
          Renewed(list, ts, c);
        }
      }
    }

    method SwitchTo(best: TaskNode, ghost b: nat)
      requires Valid() && b < |list| && list[b] == best
      modifies this`currentRunning, list
      ensures Valid() && Abs() == Scheduler.SwitchTo(old(Abs()), b)
    {
      Preempt(best, b);
      ghost var ts := ViewsOf(list);
      Unaliased(list, b);
      best.state := Running;
      currentRunning := best;
      Renewed(list, ts, b);
    }

    /** The scan, and the switch to what it finds. */
    method SwitchToBest()
      requires Valid()
      modifies this`currentRunning, list
      ensures Valid() && Abs() == Scheduler.Switched(Scheduler.AsWritten, old(Abs()))
    {
      var best := GetMostPrioritizedReadyTask();
      if best != null {
        SwitchTo(best, BestReady(ViewsOf(list)).value);
      }
    }

    /** The dispatching thread goes on when it has been woken up. */
    method WakeUp()
      requires Valid()
      modifies this`wake
      ensures Valid() && Abs() == old(Abs()).(wake := false)
    {
      wake := false;
    }

    method Dispatch()
      requires Valid()
      modifies this, list
      ensures Valid() && Abs() == Scheduler.OnDispatch(Scheduler.AsWritten, old(Abs()))
    {
      WokenFirst(Abs());
      WakeUp();
      SwitchToBest();
    }
  }
}
