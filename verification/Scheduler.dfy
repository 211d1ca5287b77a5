/** The scheduler as a state machine: one step per message, timer expiry, dispatcher
    wake-up or clock tick. Each step exists as the code has it and, for the two places
    where the code departs from its own checks, as guarded. */
module Scheduler {
  import opened Options
  import opened Tasks
  import Admission

  /** `tasks` is in list order, newest first; `wake` says that the dispatching thread
      has been woken up and has not run since. */
  datatype State = State(tasks: seq<Task>, current: Option<nat>, jiffies: nat, wake: bool)

  const INITIAL := State([], None, 0, false)

  datatype Event =
    | Register(pid: nat, period: Period, time: nat)
    | Yield(pid: nat)
    | Deregister(pid: nat)
    | Expire(pid: nat)
    | Dispatch
    | Tick

  /** Which code runs: as written, or with the context switch and the clearing of
      `current` under the checks the code already computes or uses elsewhere. */
  datatype Variant = AsWritten | Guarded

  /** The variant, and the kernel's conversion from milliseconds to jiffies. */
  datatype Config = Config(variant: Variant, toJiffies: nat -> nat)

  function Renew(s: State, k: nat, t: Task): State
    requires k < |s.tasks|
  {
    s.(tasks := s.tasks[k := t])
  }

  // ---- on_register ----

  function OnRegister(s: State, pid: nat, period: Period, time: nat): State {
    if Admission.Admits(s.tasks, period, time)
    then s.(tasks := [Task(pid, period, time, Sleeping, 0, false, None)] + s.tasks)
    else s
  }

  // ---- timer_callback ----

  function OnExpire(s: State, k: nat): State
    requires k < |s.tasks|
  {
    Renew(s, k, s.tasks[k].(state := Ready, timer := None)).(wake := true)
  }

  // ---- on_yield ----

  /** The deadline a yield computes: one period after now, or one period after the last one. */
  function NextDeadline(c: Config, s: State, t: Task): nat {
    (if t.deadlineSet then t.deadlineJiff else s.jiffies) + c.toJiffies(t.period)
  }

  /** "Deadline passed ... skip yielding": the next release is already over. */
  predicate Skips(c: Config, s: State, t: Task) {
    t.deadlineSet && s.jiffies > NextDeadline(c, s, t)
  }

  function OnYield(c: Config, s: State, k: nat): State
    requires k < |s.tasks|
  {
    var t := s.tasks[k].(deadlineJiff := NextDeadline(c, s, s.tasks[k]), deadlineSet := true);
    if Skips(c, s, s.tasks[k]) then Renew(s, k, t)
    else
      var current := if c.variant == Guarded && s.current != Some(t.pid) then s.current else None;
      Renew(s, k, t.(state := Sleeping, timer := Some(t.deadlineJiff))).(current := current, wake := true)
  }

  // ---- on_deregister ----

  function OnDeregister(s: State, pid: nat): State {
    var cleared := if Registered(s.tasks, pid) && s.current == Some(pid) then s.(current := None, wake := true) else s;
    cleared.(tasks := Remove(s.tasks, pid))
  }

  // ---- dispatching_thread_func ----

  /** The current task is at least as prioritized as the one the scan found. */
  predicate CurrentWins(s: State, best: nat)
    requires best < |s.tasks|
  {
    && s.current.Some?
    && var cur := Find(s.tasks, s.current.value);
    && cur < |s.tasks|
    && MorePrioritized(s.tasks[cur], s.tasks[best])
  }

  function Preempted(s: State): seq<Task> {
    if s.current == None then s.tasks
    else
      var cur := Find(s.tasks, s.current.value);
      if cur < |s.tasks| then s.tasks[cur := s.tasks[cur].(state := Ready)] else s.tasks
  }

  function SwitchTo(s: State, best: nat): State
    requires best < |s.tasks|
  {
    var tasks := if CurrentWins(s, best) then s.tasks else Preempted(s);
    s.(tasks := tasks[best := tasks[best].(state := Running)], current := Some(tasks[best].pid))
  }

  /** The scan, and the switch to what it finds. */
  function Switched(variant: Variant, s: State): State {
    var best := BestReady(s.tasks);
    if best == None || (variant == Guarded && CurrentWins(s, best.value)) then s else SwitchTo(s, best.value)
  }

  function OnDispatch(variant: Variant, s: State): State {
    Switched(variant, s).(wake := false)
  }

  // ---- One step ----

  predicate Due(s: State, t: Task) {
    t.timer.Some? && t.timer.value <= s.jiffies
  }

  /** Whether an event can happen: handlers find the task they are called for, a pid is
      registered once, a timer goes off no earlier than its expiry, and the clock does
      not move past an expiry before that timer has gone off. */
  predicate Enabled(s: State, e: Event) {
    match e
    case Register(pid, _, _) => !Registered(s.tasks, pid)
    case Yield(pid) => Registered(s.tasks, pid)
    case Expire(pid) => Registered(s.tasks, pid) && Due(s, s.tasks[Find(s.tasks, pid)])
    case Deregister(_) => true
    case Dispatch => true
    case Tick => forall i :: 0 <= i < |s.tasks| ==> !Due(s, s.tasks[i])
  }

  /** What an event does; one that cannot happen is left out of the run. */
  function Step(c: Config, s: State, e: Event): State {
    if !Enabled(s, e) then s
    else
      match e
      case Register(pid, period, time) => OnRegister(s, pid, period, time)
      case Yield(pid) => OnYield(c, s, Find(s.tasks, pid))
      case Expire(pid) => OnExpire(s, Find(s.tasks, pid))
      case Deregister(pid) => OnDeregister(s, pid)
      case Dispatch => OnDispatch(c.variant, s)
      case Tick => s.(jiffies := s.jiffies + 1)
  }

  /** The state after a run from module load. */
  function Run(c: Config, es: seq<Event>): State {
    if es == [] then INITIAL else Step(c, Run(c, es[..|es| - 1]), es[|es| - 1])
  }

  // ---- The two variants ----

  /** Where the guards make no difference: the scan finds nothing better than keeping the
      current task only if there is nothing to find, and only the current task yields. */
  predicate GuardsAgree(c: Config, s: State, e: Event) {
    match e
    case Dispatch => var best := BestReady(s.tasks); best.Some? ==> !CurrentWins(s, best.value)
    case Yield(pid) =>
      Enabled(s, e) && !Skips(c, s, s.tasks[Find(s.tasks, pid)]) ==> s.current == None || s.current == Some(pid)
    case _ => true
  }
}
