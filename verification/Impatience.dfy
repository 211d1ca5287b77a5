/** Why registrations must be patient: the admission test forgets a task the moment it is
    deregistered, and four tasks that come and go are enough to miss a deadline. */
module Impatience {
  import opened Options
  import opened Sequences
  import opened Tasks
  import opened Scheduler
  import opened SchedulerInvariants
  import opened Processor
  import opened Admission
  import opened Departures
  import opened Overload

  /** A run in which tasks behave, processing times stay below the wrap-around, and never more
      than n tasks are registered; nobody waits for the next release of a departed task. */
  predicate Played(n: nat, es: seq<Event>) {
    es == [] ||
    var before, e := es[..|es| - 1], es[|es| - 1];
    && Played(n, before) && Plays(Execution(before), e) && (e.Register? ==> e.time <= LARGEST_SAFE_TIME)
    && |Execution(es).s.tasks| <= n
  }

  /** The states of such runs are closed under the events of such runs. */
  ghost predicate Hasty(n: nat, reach: iset<Exec>) {
    IDLE in reach &&
    forall x, e | x in reach && Plays(x, e) && (e.Register? ==> e.time <= LARGEST_SAFE_TIME) ::
      |Execute(x, e).s.tasks| <= n ==> Execute(x, e) in reach
  }

  lemma OneHasty(n: nat, reach: iset<Exec>, x: Exec, e: Event, y: Exec)
    requires Hasty(n, reach) && x in reach && Plays(x, e) && (e.Register? ==> e.time <= LARGEST_SAFE_TIME)
    requires y == Execute(x, e) && |y.s.tasks| <= n
    ensures y in reach
  {
  }

  // ---- What happens at one moment ----

  function Asleep(t: Task, until: nat): Task {
    t.(state := Sleeping, deadlineJiff := until, deadlineSet := true, timer := Some(until))
  }

  /** Task k is the one that runs. */
  predicate Runs(s: State, k: nat) {
    Distinct(s.tasks) && k < |s.tasks| && s.tasks[k].state == Running && s.current == Some(s.tasks[k].pid)
  }

  lemma Leave(n: nat, reach: iset<Exec>, x: Exec, k: nat) returns (y: Exec)
    requires Hasty(n, reach) && x in reach && Runs(x.s, k) && |x.s.tasks| <= n
    ensures y in reach && y == Exec(State(Unlink(x.s.tasks, k), None, x.s.jiffies, true), x.used)
  {
    FindIs(x.s.tasks, k);
    RemoveIs(x.s, x.s.tasks[k].pid);
    y := Exec(State(Unlink(x.s.tasks, k), None, x.s.jiffies, true), x.used);
    OneHasty(n, reach, x, Deregister(x.s.tasks[k].pid), y);
  }

  lemma Join(n: nat, reach: iset<Exec>, x: Exec, t: Task) returns (y: Exec)
    requires Hasty(n, reach) && x in reach && |x.s.tasks| < n
    requires Unstarted(t) && !Registered(x.s.tasks, t.pid) && Admits(x.s.tasks, t.period, t.processingTime)
    requires t.processingTime <= LARGEST_SAFE_TIME
    ensures y in reach && y == x.(s := x.s.(tasks := [t] + x.s.tasks))
  {
    y := x.(s := x.s.(tasks := [t] + x.s.tasks));
    OneHasty(n, reach, x, Register(t.pid, t.period, t.processingTime), y);
  }

  lemma FirstYield(n: nat, reach: iset<Exec>, x: Exec, t: Task, rest: seq<Task>) returns (y: Exec)
    requires Hasty(n, reach) && x in reach && x.s.tasks == [t] + rest && Unstarted(t) && x.s.current == None
    requires |x.s.tasks| <= n
    ensures y in reach
    ensures y == Exec(State([Asleep(t, x.s.jiffies + t.period)] + rest, None, x.s.jiffies, true), x.used)
  {
    y := Exec(State(x.s.tasks[0 := Asleep(t, x.s.jiffies + t.period)], None, x.s.jiffies, true), x.used);
    OneHasty(n, reach, x, Yield(t.pid), y);
  }

  lemma UnlinkLacks(ts: seq<Task>, k: nat, pid: nat)
    requires k < |ts| && !Registered(ts, pid)
    ensures !Registered(Unlink(ts, k), pid)
  {
    NotFound(ts, pid);
  }

  /** The running task is replaced by a new one, which yields at once. */
  lemma Replace(n: nat, reach: iset<Exec>, x: Exec, k: nat, t: Task, rest: seq<Task>, after: seq<Task>)
    returns (y: Exec)
    requires Hasty(n, reach) && x in reach && Runs(x.s, k) && |x.s.tasks| <= n
    requires after == [Asleep(t, x.s.jiffies + t.period)] + rest
    requires Unstarted(t) && t.processingTime <= LARGEST_SAFE_TIME && !Registered(x.s.tasks, t.pid)
    requires rest == Unlink(x.s.tasks, k) && Admits(rest, t.period, t.processingTime)
    ensures y in reach && y == Exec(State(after, None, x.s.jiffies, true), x.used)
  {
    UnlinkLacks(x.s.tasks, k, t.pid);
    y := Leave(n, reach, x, k);
    y := Join(n, reach, y, t);
    y := FirstYield(n, reach, y, t, rest);
  }

  /** The running task has done its job. */
  lemma Rest(n: nat, reach: iset<Exec>, x: Exec, k: nat) returns (y: Exec)
    requires Hasty(n, reach) && x in reach && Runs(x.s, k) && |x.s.tasks| <= n
    requires x.s.tasks[k].deadlineSet && x.s.jiffies <= x.s.tasks[k].deadlineJiff + x.s.tasks[k].period
    ensures y in reach
    ensures var t := x.s.tasks[k];
            y == Exec(State(x.s.tasks[k := Asleep(t, t.deadlineJiff + t.period)], None, x.s.jiffies, true), x.used)
  {
    var t := x.s.tasks[k];
    FindIs(x.s.tasks, k);
    LookupIs(x.s.tasks, k);
    y := Exec(State(x.s.tasks[k := Asleep(t, t.deadlineJiff + t.period)], None, x.s.jiffies, true), x.used);
    OneHasty(n, reach, x, Yield(t.pid), y);
  }

  /** Task k is released. */
  lemma Wake(n: nat, reach: iset<Exec>, x: Exec, k: nat) returns (y: Exec)
    requires Hasty(n, reach) && x in reach && Distinct(x.s.tasks) && k < |x.s.tasks| <= n
    requires x.s.tasks[k].timer == Some(x.s.jiffies)
    ensures y in reach
    ensures var t := x.s.tasks[k];
            y == Exec(x.s.(tasks := x.s.tasks[k := t.(state := Ready, timer := None)], wake := true),
                      x.used[t.pid := 0])
  {
    var t := x.s.tasks[k];
    FindIs(x.s.tasks, k);
    y := Exec(x.s.(tasks := x.s.tasks[k := t.(state := Ready, timer := None)], wake := true), x.used[t.pid := 0]);
    OneHasty(n, reach, x, Expire(t.pid), y);
  }

  /** `b` is the READY task of the smallest period, the last one in the list of that period. */
  predicate Picks(ts: seq<Task>, b: nat) {
    && b < |ts| && ts[b].state == Ready
    && (forall i :: 0 <= i < |ts| && ts[i].state == Ready ==> ts[b].period <= ts[i].period)
    && (forall i :: b < i < |ts| && ts[i].state == Ready ==> ts[b].period < ts[i].period)
  }

  lemma PicksIsBest(ts: seq<Task>, b: nat)
    requires Picks(ts, b)
    ensures BestReady(ts) == Some(b)
  {
  }

  /** Nobody runs, and the dispatcher picks task b. */
  lemma Pick(n: nat, reach: iset<Exec>, x: Exec, b: nat) returns (y: Exec)
    requires Hasty(n, reach) && x in reach && Picks(x.s.tasks, b) && |x.s.tasks| <= n && x.s.current == None
    ensures y in reach
    ensures y
            == Exec(State(x.s.tasks[b := x.s.tasks[b].(state := Running)], Some(x.s.tasks[b].pid), x.s.jiffies, false),
                    x.used)
  {
    PicksIsBest(x.s.tasks, b);
    y := Exec(State(x.s.tasks[b := x.s.tasks[b].(state := Running)], Some(x.s.tasks[b].pid), x.s.jiffies, false),
              x.used);
    OneHasty(n, reach, x, Dispatch, y);
  }

  lemma PreemptIs(s: State, k: nat, b: nat)
    requires Runs(s, k) && Picks(s.tasks, b) && s.tasks[b].period < s.tasks[k].period
    ensures var tasks := s.tasks[k := s.tasks[k].(state := Ready)][b := s.tasks[b].(state := Running)];
            OnDispatch(Guarded, s) == State(tasks, Some(s.tasks[b].pid), s.jiffies, false)
  {
    PicksIsBest(s.tasks, b);
    FindIs(s.tasks, k);
  }

  /** Task b is picked and task k preempted. */
  lemma Preempt(n: nat, reach: iset<Exec>, x: Exec, k: nat, b: nat) returns (y: Exec)
    requires Hasty(n, reach) && x in reach && Runs(x.s, k) && Picks(x.s.tasks, b) && |x.s.tasks| <= n
    requires x.s.tasks[b].period < x.s.tasks[k].period
    ensures y in reach
    ensures var tasks := x.s.tasks[k := x.s.tasks[k].(state := Ready)][b := x.s.tasks[b].(state := Running)];
            y == Exec(State(tasks, Some(x.s.tasks[b].pid), x.s.jiffies, false), x.used)
  {
    PreemptIs(x.s, k, b);
    y := Exec(OnDispatch(Guarded, x.s), x.used);
    OneHasty(n, reach, x, Dispatch, y);
  }

  /** Nobody's timer goes off before `until`. */
  predicate NoneDue(ts: seq<Task>, until: nat) {
    forall i :: 0 <= i < |ts| && ts[i].timer.Some? ==> ts[i].timer.value >= until
  }

  function Worked(x: Exec, pid: nat, d: nat): Exec {
    Exec(x.s.(jiffies := x.s.jiffies + d), x.used[pid := Count(x.used, pid) + d])
  }

  lemma WorkedOn(x: Exec, pid: nat, d: nat)
    ensures Worked(Worked(x, pid, 1), pid, d) == Worked(x, pid, d + 1)
  {
    var one := Count(x.used, pid) + 1;
    assert x.used[pid := one][pid := one + d] == x.used[pid := one + d];
  }

  /** Task k runs for d > 0 ticks. */
  lemma {:induction false} Work(n: nat, reach: iset<Exec>, x: Exec, k: nat, d: nat) returns (y: Exec)
    requires Hasty(n, reach) && x in reach && Runs(x.s, k) && !x.s.wake && |x.s.tasks| <= n
    requires NoneDue(x.s.tasks, x.s.jiffies + d) && d > 0
    requires Count(x.used, x.s.tasks[k].pid) + d <= x.s.tasks[k].processingTime
    ensures y in reach && y == Worked(x, x.s.tasks[k].pid, d)
    decreases d
  {
    var pid := x.s.tasks[k].pid;
    LookupIs(x.s.tasks, k);
    y := Worked(x, pid, 1);
    OneHasty(n, reach, x, Tick, y);
    if d > 1 {
      y := Work(n, reach, y, k, d - 1);
      WorkedOn(x, pid, d - 1);
    }
  }

  // ---- What the tasks do one after the other ----

  /** Nobody runs; task b is picked and runs for d ticks. */
  lemma Burst(n: nat, reach: iset<Exec>, x: Exec, b: nat, d: nat) returns (y: Exec)
    requires Hasty(n, reach) && x in reach && Picks(x.s.tasks, b) && |x.s.tasks| <= n && x.s.current == None
    requires Distinct(x.s.tasks) && NoneDue(x.s.tasks, x.s.jiffies + d) && d > 0
    requires Count(x.used, x.s.tasks[b].pid) + d <= x.s.tasks[b].processingTime
    ensures y in reach && y.used == x.used[x.s.tasks[b].pid := Count(x.used, x.s.tasks[b].pid) + d]
    ensures y.s
            == State(x.s.tasks[b := x.s.tasks[b].(state := Running)], Some(x.s.tasks[b].pid), x.s.jiffies + d, false)
  {
    y := Pick(n, reach, x, b);
    y := Work(n, reach, y, b, d);
  }

  // ---- Rounds of newcomers, each released every five jiffies to run for one ----

  function Newcomer(pid: nat): Task {
    Task(pid, 5, 1, Sleeping, 0, false, None)
  }

  function Off(pid: nat, until: nat): Task {
    Task(pid, 5, 1, Sleeping, until, true, Some(until))
  }

  function On(pid: nat, since: nat): Task {
    Task(pid, 5, 1, Ready, since, true, None)
  }

  /** The pid of the j-th of m newcomers in the list, the latest first. */
  function PidOf(m: nat, j: nat): nat
    requires j < m
  {
    3 + m - j
  }

  /** The newcomers at time t, released up to the j-th; those before `lo` are released only next time. */
  function Arriving(m: nat, lo: nat, j: nat, t: nat): (r: seq<Task>)
    ensures |r| == m
    ensures forall i :: 0 <= i < m ==>
      r[i] == if i < lo then Off(PidOf(m, i), t + 5) else if i < j then On(PidOf(m, i), t) else Off(PidOf(m, i), t)
  {
    seq(m, i requires 0 <= i < m =>
      if i < lo then Off(PidOf(m, i), t + 5) else if i < j then On(PidOf(m, i), t) else Off(PidOf(m, i), t))
  }

  /** The newcomers released at t, those from `hi` on already done. */
  function Serving(m: nat, lo: nat, hi: nat, t: nat): (r: seq<Task>)
    ensures |r| == m
    ensures forall i :: 0 <= i < m ==> r[i] == if lo <= i < hi then On(PidOf(m, i), t) else Off(PidOf(m, i), t + 5)
  {
    seq(m, i requires 0 <= i < m => if lo <= i < hi then On(PidOf(m, i), t) else Off(PidOf(m, i), t + 5))
  }

  /** Tasks of a long period that have been released and not been done. */
  predicate Base(rest: seq<Task>) {
    && rest != [] && Distinct(rest)
    && forall i :: 0 <= i < |rest| ==>
         rest[i].pid < 4 && rest[i].period == 1000 && rest[i].state == Ready && rest[i].timer == None
  }

  /** Newcomers, then base tasks. */
  predicate Mixed(ts: seq<Task>, m: nat) {
    && m <= |ts|
    && (forall i :: 0 <= i < m ==> ts[i].pid == PidOf(m, i))
    && (forall i :: m <= i < |ts| ==> ts[i].pid < 4)
    && Distinct(ts[m..])
  }

  lemma MixedIsDistinct(ts: seq<Task>, m: nat)
    requires Mixed(ts, m)
    ensures Distinct(ts)
  {
    forall i, j | 0 <= i < j < |ts| ensures ts[i].pid != ts[j].pid {
      if i >= m {
        assert ts[m..][i - m].pid != ts[m..][j - m].pid;
      }
    }
  }

  /** The base tasks have used what they had used before. */
  ghost predicate SameUse(used: map<nat, nat>, used': map<nat, nat>) {
    forall pid: nat :: pid < 4 ==> Count(used', pid) == Count(used, pid)
  }

  ghost predicate NewJobs(m: nat, lo: nat, hi: nat, used: map<nat, nat>) {
    forall i: nat :: lo <= i < hi <= m ==> Count(used, PidOf(m, i)) == 0
  }

  lemma {:induction false} WakeNewcomers(reach: iset<Exec>, x: Exec, m: nat, lo: nat, j: nat, t: nat, rest: seq<Task>)
    returns (y: Exec)
    requires Hasty(4, reach) && x in reach && x.s.tasks == Arriving(m, lo, j, t) + rest && x.s.jiffies == t
    requires lo <= j <= m && Mixed(x.s.tasks, m) && m + |rest| <= 4 && NewJobs(m, lo, j, x.used)
    ensures y in reach && SameUse(x.used, y.used) && NewJobs(m, lo, m, y.used)
    ensures y.s == x.s.(tasks := Arriving(m, lo, m, t) + rest, wake := x.s.wake || j < m)
    decreases m - j
  {
    y := x;
    if j < m {
      MixedIsDistinct(x.s.tasks, m);
      y := Wake(4, reach, x, j);
      assert y.s.tasks == Arriving(m, lo, j + 1, t) + rest;
      assert y.s.tasks[m..] == x.s.tasks[m..];
      y := WakeNewcomers(reach, y, m, lo, j + 1, t, rest);
    }
  }

  /** The newcomer before `hi` runs. */
  function Turn(m: nat, lo: nat, hi: nat, t: nat, rest: seq<Task>, now: nat): State
    requires lo < hi <= m
  {
    var ts := Serving(m, lo, hi, t);
    State(ts[hi - 1 := ts[hi - 1].(state := Running)] + rest, Some(PidOf(m, hi - 1)), now, false)
  }

  /** No newcomer is awake. */
  function Between(m: nat, t: nat, rest: seq<Task>, now: nat): State {
    State(Serving(m, 0, 0, t) + rest, None, now, true)
  }

  lemma TurnRuns(m: nat, lo: nat, hi: nat, t: nat, rest: seq<Task>, now: nat)
    requires lo < hi <= m && Base(rest) && now < t + 5
    ensures Runs(Turn(m, lo, hi, t, rest, now), hi - 1) && NoneDue(Turn(m, lo, hi, t, rest, now).tasks, now + 1)
  {
    assert Turn(m, lo, hi, t, rest, now).tasks[m..] == rest;
    MixedIsDistinct(Turn(m, lo, hi, t, rest, now).tasks, m);
  }

  lemma TurnIsOver(m: nat, lo: nat, hi: nat, t: nat, rest: seq<Task>, now: nat)
    requires lo < hi <= m
    ensures var ts := Turn(m, lo, hi, t, rest, now).tasks;
            && ts[hi - 1] == On(PidOf(m, hi - 1), t).(state := Running)
            && ts[hi - 1 := Off(PidOf(m, hi - 1), t + 5)] == Serving(m, lo, hi - 1, t) + rest
  {
  }

  lemma OneTurn(reach: iset<Exec>, x: Exec, m: nat, lo: nat, hi: nat, t: nat, rest: seq<Task>, now: nat)
    returns (y: Exec)
    requires Hasty(4, reach) && x in reach && lo < hi <= m && Base(rest) && m + |rest| <= 4
    requires x.s == Turn(m, lo, hi, t, rest, now) && now < t + 5 && NewJobs(m, lo, hi, x.used)
    ensures y in reach && SameUse(x.used, y.used) && NewJobs(m, lo, hi - 1, y.used)
    ensures y.s == State(Serving(m, lo, hi - 1, t) + rest, None, now + 1, true)
  {
    TurnRuns(m, lo, hi, t, rest, now);
    TurnIsOver(m, lo, hi, t, rest, now);
    y := Work(4, reach, x, hi - 1, 1);
    y := Rest(4, reach, y, hi - 1);
  }

  lemma NextTurn(reach: iset<Exec>, x: Exec, m: nat, lo: nat, hi: nat, t: nat, rest: seq<Task>, now: nat)
    returns (y: Exec)
    requires Hasty(4, reach) && x in reach && lo < hi <= m && Base(rest) && m + |rest| <= 4
    requires x.s == State(Serving(m, lo, hi, t) + rest, None, now, true)
    ensures y in reach && y.used == x.used && y.s == Turn(m, lo, hi, t, rest, now)
  {
    y := Pick(4, reach, x, hi - 1);
    assert y.s.tasks == Turn(m, lo, hi, t, rest, now).tasks;
  }

  /** One after the other the newcomers have their turn. */
  lemma {:induction false} Turns(reach: iset<Exec>, x: Exec, m: nat, lo: nat, hi: nat, t: nat, rest: seq<Task>,
                                 now: nat)
    returns (y: Exec)
    requires Hasty(4, reach) && x in reach && lo < hi <= m && Base(rest) && m + |rest| <= 4
    requires x.s == Turn(m, lo, hi, t, rest, now) && now + hi - lo <= t + 5 && NewJobs(m, lo, hi, x.used)
    ensures y in reach && SameUse(x.used, y.used) && y.s == Between(m, t, rest, now + hi - lo)
    decreases hi
  {
    y := OneTurn(reach, x, m, lo, hi, t, rest, now);
    if lo < hi - 1 {
      y := NextTurn(reach, y, m, lo, hi - 1, t, rest, now + 1);
      y := Turns(reach, y, m, lo, hi - 1, t, rest, now + 1);
    } else {
      assert Serving(m, lo, lo, t) == Serving(m, 0, 0, t);
    }
  }

  /** The last of the base tasks runs, and all newcomers are about to be released. */
  function Round(m: nat, t: nat, rest: seq<Task>): State
    requires rest != []
  {
    var b := |rest| - 1;
    State(Arriving(m, 0, 0, t) + rest[b := rest[b].(state := Running)], Some(rest[b].pid), t, false)
  }

  /** Of the base tasks only the last one has been given more time, namely d. */
  ghost predicate Given(rest: seq<Task>, used: map<nat, nat>, used': map<nat, nat>, d: nat)
    requires rest != []
  {
    forall pid: nat :: pid < 4 ==>
      Count(used', pid) == Count(used, pid) + if pid == rest[|rest| - 1].pid then d else 0
  }

  lemma BaseIsPicked(m: nat, t: nat, rest: seq<Task>)
    requires Base(rest)
    ensures var ts := Serving(m, 0, 0, t) + rest;
            Picks(ts, m + |rest| - 1) && NoneDue(ts, t + 5) && Mixed(ts, m)
  {
    assert (Serving(m, 0, 0, t) + rest)[m..] == rest;
  }

  lemma BaseIsRunning(m: nat, t: nat, rest: seq<Task>)
    requires Base(rest)
    ensures var ts, b := Serving(m, 0, 0, t) + rest, m + |rest| - 1;
            ts[b] == rest[|rest| - 1] && ts[b := ts[b].(state := Running)] == Round(m, t + 5, rest).tasks
  {
    var b := |rest| - 1;
    assert Arriving(m, 0, 0, t + 5) == Serving(m, 0, 0, t);
  }

  lemma BaseRuns(reach: iset<Exec>, x: Exec, m: nat, t: nat, rest: seq<Task>, d: nat) returns (y: Exec)
    requires Hasty(4, reach) && x in reach && Base(rest) && m + |rest| <= 4 && 0 < d <= 5
    requires x.s == Between(m, t, rest, t + 5 - d)
    requires Count(x.used, rest[|rest| - 1].pid) + d <= rest[|rest| - 1].processingTime
    ensures y in reach && y.s == Round(m, t + 5, rest) && Given(rest, x.used, y.used, d)
  {
    BaseIsPicked(m, t, rest);
    MixedIsDistinct(x.s.tasks, m);
    BaseIsRunning(m, t, rest);
    y := Burst(4, reach, x, m + |rest| - 1, d);
  }

  lemma RoundIsMixed(m: nat, j: nat, t: nat, rest: seq<Task>)
    requires Base(rest) && j <= m
    ensures var b := |rest| - 1; Mixed(Arriving(m, 0, j, t) + rest[b := rest[b].(state := Running)], m)
  {
    var b := |rest| - 1;
    var runs := rest[b := rest[b].(state := Running)];
    assert (Arriving(m, 0, j, t) + runs)[m..] == runs;
  }

  lemma NewcomerIsPicked(m: nat, t: nat, rest: seq<Task>)
    requires Base(rest) && m > 0
    ensures var b := |rest| - 1; Picks(Arriving(m, 0, m, t) + rest[b := rest[b].(state := Running)], m - 1)
  {
  }

  lemma NewcomerIsRunning(m: nat, t: nat, rest: seq<Task>)
    requires Base(rest) && m > 0
    ensures var b := |rest| - 1;
            var ts := Arriving(m, 0, m, t) + rest[b := rest[b].(state := Running)];
            ts[m + b := ts[m + b].(state := Ready)][m - 1 := ts[m - 1].(state := Running)]
            == Turn(m, 0, m, t, rest, t).tasks
  {
    var b := |rest| - 1;
    assert Arriving(m, 0, m, t) == Serving(m, 0, m, t);
    assert rest[b := rest[b].(state := Running)][b := rest[b].(state := Running).(state := Ready)] == rest;
  }

  /** The newcomers have just been released and the last of the base tasks runs. */
  function JustReleased(m: nat, t: nat, rest: seq<Task>): State
    requires rest != []
  {
    var b := |rest| - 1;
    State(Arriving(m, 0, m, t) + rest[b := rest[b].(state := Running)], Some(rest[b].pid), t, true)
  }

  lemma BaseStillRuns(m: nat, t: nat, rest: seq<Task>)
    requires Base(rest)
    ensures Runs(JustReleased(m, t, rest), m + |rest| - 1)
  {
    RoundIsMixed(m, m, t, rest);
    MixedIsDistinct(JustReleased(m, t, rest).tasks, m);
  }

  lemma NewcomerPreempts(reach: iset<Exec>, x: Exec, m: nat, t: nat, rest: seq<Task>) returns (y: Exec)
    requires Hasty(4, reach) && x in reach && Base(rest) && 0 < m && m + |rest| <= 4 && x.s == JustReleased(m, t, rest)
    ensures y in reach && y.used == x.used && y.s == Turn(m, 0, m, t, rest, t)
  {
    BaseStillRuns(m, t, rest);
    NewcomerIsPicked(m, t, rest);
    NewcomerIsRunning(m, t, rest);
    y := Preempt(4, reach, x, m + |rest| - 1, m - 1);
  }

  /** The first newcomer preempts the base task. */
  lemma BasePauses(reach: iset<Exec>, x: Exec, m: nat, t: nat, rest: seq<Task>) returns (y: Exec)
    requires Hasty(4, reach) && x in reach && Base(rest) && 0 < m && m + |rest| <= 4 && x.s == Round(m, t, rest)
    ensures y in reach && SameUse(x.used, y.used) && NewJobs(m, 0, m, y.used)
    ensures y.s == Turn(m, 0, m, t, rest, t)
  {
    var b := |rest| - 1;
    RoundIsMixed(m, 0, t, rest);
    y := WakeNewcomers(reach, x, m, 0, 0, t, rest[b := rest[b].(state := Running)]);
    y := NewcomerPreempts(reach, y, m, t, rest);
  }

  lemma OneRound(reach: iset<Exec>, x: Exec, m: nat, t: nat, rest: seq<Task>) returns (y: Exec)
    requires Hasty(4, reach) && x in reach && Base(rest) && 0 < m && m + |rest| <= 4 && x.s == Round(m, t, rest)
    requires Count(x.used, rest[|rest| - 1].pid) + (5 - m) <= rest[|rest| - 1].processingTime
    ensures y in reach && y.s == Round(m, t + 5, rest) && Given(rest, x.used, y.used, 5 - m)
  {
    y := BasePauses(reach, x, m, t, rest);
    y := Turns(reach, y, m, 0, m, t, rest, t);
    y := BaseRuns(reach, y, m, t, rest, 5 - m);
  }

  lemma OneRoundLess(c: nat, d: nat)
    requires c > 0
    ensures c * d == (c - 1) * d + d && (c - 1) * d >= 0
  {
  }

  lemma {:induction false} Rounds(reach: iset<Exec>, x: Exec, m: nat, t: nat, rest: seq<Task>, c: nat)
    returns (y: Exec)
    requires Hasty(4, reach) && x in reach && Base(rest) && 0 < m && m + |rest| <= 4 && x.s == Round(m, t, rest)
    requires Count(x.used, rest[|rest| - 1].pid) + c * (5 - m) <= rest[|rest| - 1].processingTime
    ensures y in reach && y.s == Round(m, t + 5 * c, rest) && Given(rest, x.used, y.used, c * (5 - m))
    decreases c
  {
    y := x;
    if c > 0 {
      OneRoundLess(c, 5 - m);
      y := OneRound(reach, x, m, t, rest);
      y := Rounds(reach, y, m, t + 5, rest, c - 1);
    }
  }

  /** A first round and c more. */
  lemma Phase(reach: iset<Exec>, x: Exec, m: nat, t: nat, rest: seq<Task>, c: nat, d: nat, end: nat)
    returns (y: Exec)
    requires Hasty(4, reach) && x in reach && Base(rest) && 0 < m && m + |rest| <= 4
    requires x.s == State(Arriving(m, 1, 1, t) + rest, None, t, true)
    requires d == 6 - m + c * (5 - m) && end == t + 5 + 5 * c
    requires Count(x.used, rest[|rest| - 1].pid) + d <= rest[|rest| - 1].processingTime
    ensures y in reach && y.s == Round(m, end, rest) && Given(rest, x.used, y.used, d)
  {
    y := FirstRound(reach, x, m, t, rest);
    y := Rounds(reach, y, m, t + 5, rest, c);
  }

  /** The round in which the latest newcomer is not yet released. */
  lemma FirstRound(reach: iset<Exec>, x: Exec, m: nat, t: nat, rest: seq<Task>) returns (y: Exec)
    requires Hasty(4, reach) && x in reach && Base(rest) && 0 < m && m + |rest| <= 4
    requires x.s == State(Arriving(m, 1, 1, t) + rest, None, t, true)
    requires Count(x.used, rest[|rest| - 1].pid) + (6 - m) <= rest[|rest| - 1].processingTime
    ensures y in reach && y.s == Round(m, t + 5, rest) && Given(rest, x.used, y.used, 6 - m)
  {
    assert x.s.tasks[m..] == rest;
    y := WakeNewcomers(reach, x, m, 1, 1, t, rest);
    if m > 1 {
      assert Arriving(m, 1, m, t) == Serving(m, 1, m, t);
      y := NextTurn(reach, y, m, 1, m, t, rest, t);
      y := Turns(reach, y, m, 1, m, t, rest, t);
    } else {
      assert Arriving(m, 1, 1, t) == Serving(m, 0, 0, t);
    }
    y := BaseRuns(reach, y, m, t, rest, 6 - m);
  }

  lemma {:induction false} TotalOfNewcomers(m: nat, t: nat, rest: seq<Task>)
    ensures Total(Arriving(m, 0, 0, t) + rest) == 2000 * m + Total(rest)
  {
    if m == 0 {
      assert Arriving(m, 0, 0, t) + rest == rest;
    } else {
      TotalOfNewcomers(m - 1, t, rest);
      assert Arriving(m, 0, 0, t) + rest == [Off(PidOf(m, 0), t)] + (Arriving(m - 1, 0, 0, t) + rest);
      TotalOfPrepended(Off(PidOf(m, 0), t), Arriving(m - 1, 0, 0, t) + rest);
    }
  }

  lemma NewcomerIsAdmitted(m: nat, t: nat, rest: seq<Task>)
    requires SafeTimes(rest) && 2000 * m + Total(rest) + 2000 <= ADMISSION_BOUND
    ensures Admits(Arriving(m, 0, 0, t) + rest, 5, 1)
  {
    var ts := Arriving(m, 0, 0, t) + rest;
    TotalOfNewcomers(m, t, rest);
    forall k | k in ts ensures k.processingTime <= LARGEST_SAFE_TIME {}
    AdmitsIffTotal(ts, 5, 1);
  }

  lemma BaseHasRun(m: nat, t: nat, rest: seq<Task>)
    requires Base(rest)
    ensures Runs(Round(m, t, rest), m + |rest| - 1)
  {
    RoundIsMixed(m, 0, t, rest);
    MixedIsDistinct(Round(m, t, rest).tasks, m);
  }

  lemma NewcomerIsNew(m: nat, t: nat, rest: seq<Task>)
    requires Base(rest)
    ensures !Registered(Round(m, t, rest).tasks, 4 + m)
  {
  }

  lemma BaseHasLeft(m: nat, t: nat, rest: seq<Task>)
    requires Base(rest)
    ensures Unlink(Round(m, t, rest).tasks, m + |rest| - 1) == Arriving(m, 0, 0, t) + rest[..|rest| - 1]
  {
  }

  lemma NewcomerIsFirst(m: nat, t: nat, rest: seq<Task>, all: seq<Task>)
    requires all == Arriving(m, 0, 0, t) + rest
    ensures [Asleep(Newcomer(4 + m), t + 5)] + all == Arriving(m + 1, 1, 1, t) + rest
  {
    assert [Asleep(Newcomer(4 + m), t + 5)] + Arriving(m, 0, 0, t) == Arriving(m + 1, 1, 1, t);
  }

  /** The base task that runs has done its job and is replaced. */
  lemma OneMoreNewcomer(reach: iset<Exec>, x: Exec, m: nat, t: nat, rest: seq<Task>, left: seq<Task>)
    returns (y: Exec)
    requires Hasty(4, reach) && x in reach && Base(rest) && m + |rest| <= 4 && x.s == Round(m, t, rest)
    requires left == rest[..|rest| - 1] && Admits(Arriving(m, 0, 0, t) + left, 5, 1)
    ensures y in reach && y == Exec(State(Arriving(m + 1, 1, 1, t) + left, None, t, true), x.used)
  {
    BaseHasRun(m, t, rest);
    NewcomerIsNew(m, t, rest);
    BaseHasLeft(m, t, rest);
    var all := Arriving(m, 0, 0, t) + left;
    var after := Arriving(m + 1, 1, 1, t) + left;
    NewcomerIsFirst(m, t, left, all);
    y := Replace(4, reach, x, m + |rest| - 1, Newcomer(4 + m), all, after);
  }

  // ---- Four tasks ----

  function Initial(): (ts: seq<Task>)
    ensures |ts| == 4
  {
    [Task(0, 1000, 93, Sleeping, 0, false, None), Task(1, 1000, 199, Sleeping, 0, false, None),
     Task(2, 1000, 197, Sleeping, 0, false, None), Task(3, 1000, 200, Sleeping, 0, false, None)]
  }

  function Awake(pid: nat, time: nat): Task {
    Task(pid, 1000, time, Ready, 1000, true, None)
  }

  /** The first k of them after their common release. */
  function Bases(k: nat): (ts: seq<Task>)
    requires k <= 4
    ensures |ts| == k && forall i :: 0 <= i < k ==> ts[i].pid == i && ts[i].processingTime <= 200
    ensures k > 0 ==> Base(ts)
  {
    [Awake(0, 93), Awake(1, 199), Awake(2, 197), Awake(3, 200)][..k]
  }

  function BaseTotal(k: nat): nat {
    if k == 0 then 0 else if k == 1 then 930 else if k == 2 then 2920 else if k == 3 then 4890 else 6890
  }

  lemma TotalOfOneMore(k: nat)
    requires k < 4
    ensures Total(Bases(k + 1)) == Total(Bases(k)) + Bases(k + 1)[k].processingTime * 10
  {
    assert Bases(k + 1)[..k] == Bases(k);
  }

  lemma {:induction false} TotalOfBases(k: nat)
    requires k <= 4
    ensures Total(Bases(k)) == BaseTotal(k)
  {
    if k > 0 {
      TotalOfBases(k - 1);
      TotalOfOneMore(k - 1);
    } else {
      assert Bases(0) == [];
    }
  }

  lemma BasesAdmit(m: nat, t: nat, k: nat)
    requires k > 0 && m + k == 3
    ensures Admits(Arriving(m, 0, 0, t) + Bases(k), 5, 1)
  {
    TotalOfBases(k);
    forall b | b in Bases(k) ensures b.processingTime <= LARGEST_SAFE_TIME {}
    NewcomerIsAdmitted(m, t, Bases(k));
  }

  /** The base task that has run is replaced by the m-th newcomer, and the next one runs for d ticks. */
  lemma NextPhase(reach: iset<Exec>, x: Exec, m: nat, k: nat, t: nat, c: nat, d: nat, end: nat) returns (y: Exec)
    requires Hasty(4, reach) && x in reach && 0 < m && 0 < k && m + k == 4 && x.s == Round(m - 1, t, Bases(k + 1))
    requires d == 6 - m + c * (5 - m) && end == t + 5 + 5 * c
    requires Count(x.used, k - 1) == 0 && d <= Bases(k)[k - 1].processingTime
    ensures y in reach && y.s == Round(m, end, Bases(k)) && Given(Bases(k), x.used, y.used, d)
  {
    BasesAdmit(m - 1, t, k);
    assert Bases(k + 1)[..k] == Bases(k);
    y := OneMoreNewcomer(reach, x, m - 1, t, Bases(k + 1), Bases(k));
    y := Phase(reach, y, m, t, Bases(k), c, d, end);
  }

  lemma FirstPhase(reach: iset<Exec>, x: Exec) returns (y: Exec)
    requires Hasty(4, reach) && x in reach && x.s == State(Bases(4), None, 1000, true) && Unused(x.used)
    ensures y in reach && y.s == Round(0, 1200, Bases(4)) && Given(Bases(4), x.used, y.used, 200)
  {
    assert Count(x.used, 3) == 0;
    y := Burst(4, reach, x, 3, 200);
    assert y.s.tasks == Round(0, 1200, Bases(4)).tasks;
  }

  /** The task that runs last still has work left at the time of its next release. */
  lemma LastIsLate(reach: iset<Exec>, x: Exec) returns (y: Exec)
    requires Hasty(4, reach) && x in reach && x.s == State(Bases(4), None, 1000, true) && Unused(x.used)
    ensures y in reach && y.s == Round(3, 2000, Bases(1)) && Count(y.used, 0) == 91
  {
    assert Count(x.used, 0) == Count(x.used, 1) == Count(x.used, 2) == 0;
    y := FirstPhase(reach, x);
    y := NextPhase(reach, y, 1, 3, 1200, 48, 197, 1445);
    y := NextPhase(reach, y, 2, 2, 1445, 65, 199, 1775);
    y := NextPhase(reach, y, 3, 1, 1775, 44, 91, 2000);
  }

  lemma ThenSkips(reach: iset<Exec>, x: Exec) returns (y: Exec)
    requires Hasty(4, reach) && x in reach && x.s == Round(3, 2000, Bases(1))
    ensures y in reach && |y.s.tasks| == 4 && Skips(REAL_TIME, y.s, y.s.tasks[3])
  {
    y := BasePauses(reach, x, 3, 2000, Bases(1));
    assert y.s.tasks[3..] == Bases(1);
    MixedIsDistinct(y.s.tasks, 3);
    y := Work(4, reach, y, 2, 1);
  }

  lemma InitialIsAscending()
    ensures Ascending(Initial())
  {
    var ts := Initial();
    forall i | 0 <= i < 4 ensures Unstarted(ts[i]) {}
    assert Total(ts[..0]) == 0;
    assert ts[..1][..0] == ts[..0] && ts[..2][..1] == ts[..1] && ts[..3][..2] == ts[..2] && ts[..3] == ts[..|ts| - 1];
    assert Total(ts[..1]) == 930 && Total(ts[..2]) == 2920 && Total(ts[..3]) == 4890;
  }

  // ---- The run ----

  /** Such a run leads to x. */
  ghost predicate Led(n: nat, x: Exec) {
    exists es :: Played(n, es) && Execution(es) == x
  }

  ghost function Leads(n: nat): iset<Exec> {
    iset x: Exec | Led(n, x)
  }

  lemma PlayedOneMore(n: nat, es: seq<Event>, e: Event) returns (run: seq<Event>)
    requires Played(n, es) && Plays(Execution(es), e) && (e.Register? ==> e.time <= LARGEST_SAFE_TIME)
    requires |Execute(Execution(es), e).s.tasks| <= n
    ensures Played(n, run) && Execution(run) == Execute(Execution(es), e)
  {
    run := es + [e];
    assert run[..|es|] == es;
  }

  lemma LedOneMore(n: nat, x: Exec, e: Event)
    requires Led(n, x) && Plays(x, e) && (e.Register? ==> e.time <= LARGEST_SAFE_TIME) && |Execute(x, e).s.tasks| <= n
    ensures Led(n, Execute(x, e))
  {
    var es :| Played(n, es) && Execution(es) == x;
    var run := PlayedOneMore(n, es, e);
  }

  lemma LeadsIsHasty(n: nat)
    ensures Hasty(n, Leads(n))
  {
    assert Played(n, []) && Execution([]) == IDLE;
    forall x, e | x in Leads(n) && Plays(x, e) && (e.Register? ==> e.time <= LARGEST_SAFE_TIME)
                  && |Execute(x, e).s.tasks| <= n
      ensures Execute(x, e) in Leads(n)
    {
      LedOneMore(n, x, e);
    }
  }

  lemma HastyIsClosed(n: nat, reach: iset<Exec>, ts: seq<Task>)
    requires Hasty(n, reach) && |ts| <= n
    ensures Closed(ts, reach)
  {
    forall x, e | x in reach && Fits(ts, x, e) ensures Execute(x, e) in reach {
      OneHasty(n, reach, x, e, Execute(x, e));
    }
  }

  lemma Start(reach: iset<Exec>) returns (x: Exec)
    requires Hasty(4, reach)
    ensures x in reach && x.s == State(Bases(4), None, 1000, true) && Unused(x.used)
  {
    InitialIsAscending();
    HastyIsClosed(4, reach, Initial());
    x := ReleaseRun(Initial(), reach, 4);
    assert Released(Initial(), 4, 1000) == Bases(4);
  }

  lemma Misfortune(reach: iset<Exec>) returns (x: Exec, y: Exec)
    requires Hasty(4, reach)
    ensures x in reach && |x.s.tasks| == 4 && Late(x, 3)
    ensures y in reach && |y.s.tasks| == 4 && Skips(REAL_TIME, y.s, y.s.tasks[3])
  {
    x := Start(reach);
    x := LastIsLate(reach, x);
    y := ThenSkips(reach, x);
  }

  /** Four tasks at a time, each admitted by the test, and processing times far from the
      wrap-around; but three of them are deregistered as their first job ends and replaced at
      once. The fourth still has work left when its next release has come, and its yield will
      find its deadline passed. Runs like this one are what patience rules out. */
  lemma ImpatienceMisses() returns (late: seq<Event>, skips: seq<Event>)
    ensures Played(4, late) && |Execution(late).s.tasks| == 4 && Late(Execution(late), 3)
    ensures Played(4, skips) && |Execution(skips).s.tasks| == 4
    ensures Skips(REAL_TIME, Execution(skips).s, Execution(skips).s.tasks[3])
  {
    LeadsIsHasty(4);
    var x, y := Misfortune(Leads(4));
    assert Led(4, x) && Led(4, y);
    late :| Played(4, late) && Execution(late) == x;
    skips :| Played(4, skips) && Execution(skips) == y;
  }
}
