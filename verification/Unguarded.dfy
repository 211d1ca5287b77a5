/** What the code as written does to deadlines: it keeps them where the guards do not matter,
    and elsewhere its switch makes a task late at any utilisation. */
module Unguarded {
  import opened Options
  import opened Tasks
  import opened Loads
  import opened Scheduler
  import opened SchedulerInvariants
  import opened Processor
  import opened Admission
  import Schedulability
  import UtilizationBound

  const AS_WRITTEN := REAL_TIME.(variant := AsWritten)

  // ---- Where the guards do not matter ----

  /** Runs of the code as written along which the guards never matter meet the deadlines that
      the guarded ones do. */
  lemma AgreeingRunsMeetDeadlines(u: seq<Load>, es: seq<Event>)
    requires Schedulability.Universe(u) && Schedulability.Roomy(u) && Schedulability.WellBehaved(u, es)
    requires GuardsAgreeAlong(AS_WRITTEN, es)
    ensures OnTime(Run(AS_WRITTEN, es))
  {
    Schedulability.NoDeadlineMissed(u, es);
    ExecutionIsRun(es);
    AsWrittenRunIsGuarded(AS_WRITTEN, es);
  }

  // ---- Runs of the code as written ----

  /** The process that `current` names runs, whatever the states say. */
  function Perform(x: Exec, e: Event): Exec {
    Execute(x, e).(s := Step(AS_WRITTEN, x.s, e))
  }

  function Performance(es: seq<Event>): Exec {
    if es == [] then IDLE else Perform(Performance(es[..|es| - 1]), es[|es| - 1])
  }

  /** A run in which tasks behave and processing times stay below the wrap-around. */
  predicate Performed(es: seq<Event>) {
    es == [] ||
    var before, e := es[..|es| - 1], es[|es| - 1];
    Performed(before) && Plays(Performance(before), e) && (e.Register? ==> e.time <= LARGEST_SAFE_TIME)
  }

  /** The states of such runs are closed under the events of such runs. */
  ghost predicate Closed(reach: iset<Exec>) {
    IDLE in reach &&
    forall x, e | x in reach && Plays(x, e) && (e.Register? ==> e.time <= LARGEST_SAFE_TIME) :: Perform(x, e) in reach
  }

  lemma OneMore(reach: iset<Exec>, x: Exec, e: Event, y: Exec)
    requires Closed(reach) && x in reach && Plays(x, e) && (e.Register? ==> e.time <= LARGEST_SAFE_TIME)
    requires y == Perform(x, e)
    ensures y in reach
  {
  }

  // ---- One task of period p that needs a tick, and one of a longer period that needs p ----

  function Short(p: Period): Task {
    Task(1, p, 1, Sleeping, 0, false, None)
  }

  function Long(p: Period, q: Period): Task {
    Task(2, q, p, Sleeping, 0, false, None)
  }

  function Off(t: Task, until: nat): Task {
    t.(deadlineJiff := until, deadlineSet := true, timer := Some(until))
  }

  function On(t: Task, since: nat, state: RunState): Task {
    t.(state := state, deadlineJiff := since, deadlineSet := true)
  }

  lemma BothAreAdmitted(p: Period, q: Period)
    requires p <= LARGEST_SAFE_TIME && Scaled(1, p) + Scaled(p, q) <= ADMISSION_BOUND
    ensures Admits([], p, 1) && Admits([Short(p)], q, p)
  {
    assert [Short(p)][..0] == [];
    AdmitsIffTotal([], p, 1);
    AdmitsIffTotal([Short(p)], q, p);
  }

  lemma BothRegister(reach: iset<Exec>, p: Period, q: Period) returns (y: Exec)
    requires Closed(reach) && p <= LARGEST_SAFE_TIME && Scaled(1, p) + Scaled(p, q) <= ADMISSION_BOUND
    ensures y in reach && y == Exec(State([Long(p, q), Short(p)], None, 0, false), map[])
  {
    BothAreAdmitted(p, q);
    y := Exec(State([Short(p)], None, 0, false), map[]);
    OneMore(reach, IDLE, Register(1, p, 1), y);
    var x := y;
    y := Exec(State([Long(p, q), Short(p)], None, 0, false), map[]);
    OneMore(reach, x, Register(2, q, p), y);
  }

  /** Nobody runs and no timer goes off. */
  lemma {:induction false} Idle(reach: iset<Exec>, x: Exec, until: nat) returns (y: Exec)
    requires Closed(reach) && x in reach && x.s.current == None && !x.s.wake && x.s.jiffies <= until
    requires forall i :: 0 <= i < |x.s.tasks| && x.s.tasks[i].timer.Some? ==> x.s.tasks[i].timer.value >= until
    ensures y in reach && y == x.(s := x.s.(jiffies := until))
    decreases until - x.s.jiffies
  {
    y := x;
    if x.s.jiffies < until {
      y := x.(s := x.s.(jiffies := x.s.jiffies + 1));
      OneMore(reach, x, Tick, y);
      y := Idle(reach, y, until);
    }
  }

  lemma LongYields(reach: iset<Exec>, x: Exec, p: Period, q: Period) returns (y: Exec)
    requires Closed(reach) && x in reach && x == Exec(State([Long(p, q), Short(p)], None, 0, false), map[])
    ensures y in reach && y == Exec(State([Off(Long(p, q), q), Short(p)], None, 0, false), map[])
  {
    var z := Exec(State([Off(Long(p, q), q), Short(p)], None, 0, true), map[]);
    assert x.s.tasks[0 := Off(Long(p, q), q)] == z.s.tasks;
    OneMore(reach, x, Yield(2), z);
    y := Exec(z.s.(wake := false), map[]);
    OneMore(reach, z, Dispatch, y);
  }

  lemma ShortYields(reach: iset<Exec>, x: Exec, p: Period, q: Period) returns (y: Exec)
    requires Closed(reach) && x in reach && p <= q
    requires x == Exec(State([Off(Long(p, q), q), Short(p)], None, q - p, false), map[])
    ensures y in reach && y == Exec(State([Off(Long(p, q), q), Off(Short(p), q)], None, q - p, false), map[])
  {
    var z := Exec(State([Off(Long(p, q), q), Off(Short(p), q)], None, q - p, true), map[]);
    assert x.s.tasks[1 := Off(Short(p), q)] == z.s.tasks;
    FindIs(x.s.tasks, 1);
    LookupIs(x.s.tasks, 1);
    OneMore(reach, x, Yield(1), z);
    y := Exec(z.s.(wake := false), map[]);
    OneMore(reach, z, Dispatch, y);
  }

  lemma ShortRuns(reach: iset<Exec>, x: Exec, p: Period, q: Period) returns (y: Exec)
    requires Closed(reach) && x in reach
    requires x == Exec(State([Off(Long(p, q), q), Off(Short(p), q)], None, q, false), map[])
    ensures y in reach
    ensures y == Exec(State([Off(Long(p, q), q), On(Short(p), q, Running)], Some(1), q, false), map[1 := 0])
  {
    var z := Exec(State([Off(Long(p, q), q), On(Short(p), q, Ready)], None, q, true), map[1 := 0]);
    assert x.s.tasks[1 := On(Short(p), q, Ready)] == z.s.tasks;
    FindIs(x.s.tasks, 1);
    OneMore(reach, x, Expire(1), z);
    y := Exec(State([Off(Long(p, q), q), On(Short(p), q, Running)], Some(1), q, false), map[1 := 0]);
    assert z.s.tasks[1 := On(Short(p), q, Running)] == y.s.tasks;
    OneMore(reach, z, Dispatch, y);
  }

  /** The scan finds the other task, and the switch is made although the comparison has
      gone against it. */
  lemma LongTakesOver(reach: iset<Exec>, x: Exec, p: Period, q: Period) returns (y: Exec)
    requires Closed(reach) && x in reach && p <= q
    requires x == Exec(State([Off(Long(p, q), q), On(Short(p), q, Running)], Some(1), q, false), map[1 := 0])
    ensures y in reach
    ensures y.s == State([On(Long(p, q), q, Running), On(Short(p), q, Running)], Some(2), q, false)
    ensures y.used == map[1 := 0, 2 := 0]
  {
    var z := Exec(State([On(Long(p, q), q, Ready), On(Short(p), q, Running)], Some(1), q, true), map[1 := 0, 2 := 0]);
    assert x.s.tasks[0 := On(Long(p, q), q, Ready)] == z.s.tasks;
    assert map[1 := 0][2 := 0] == map[1 := 0, 2 := 0];
    OneMore(reach, x, Expire(2), z);
    y := Exec(State([On(Long(p, q), q, Running), On(Short(p), q, Running)], Some(2), q, false), z.used);
    assert z.s.tasks[0 := On(Long(p, q), q, Running)] == y.s.tasks;
    assert BestReady(z.s.tasks) == Some(0) && z.s.tasks[1].pid == 1;
    FindIs(z.s.tasks, 1);
    OneMore(reach, z, Dispatch, y);
  }

  function Taken(p: Period, q: Period, d: nat): Exec {
    Exec(State([On(Long(p, q), q, Running), On(Short(p), q, Running)], Some(2), q + d, false), map[1 := 0, 2 := d])
  }

  lemma {:induction false} LongRuns(reach: iset<Exec>, p: Period, q: Period, d: nat)
    requires Closed(reach) && Taken(p, q, 0) in reach && d <= p
    ensures Taken(p, q, d) in reach
  {
    if d > 0 {
      LongRuns(reach, p, q, d - 1);
      assert Taken(p, q, d - 1).used[2 := d] == Taken(p, q, d).used;
      OneMore(reach, Taken(p, q, d - 1), Tick, Taken(p, q, d));
    }
  }

  lemma ShortIsLate(reach: iset<Exec>, p: Period, q: Period)
    requires Closed(reach) && p <= LARGEST_SAFE_TIME && Scaled(1, p) + Scaled(p, q) <= ADMISSION_BOUND && p <= q
    ensures Taken(p, q, p) in reach
  {
    var x := BothRegister(reach, p, q);
    x := LongYields(reach, x, p, q);
    x := Idle(reach, x, q - p);
    x := ShortYields(reach, x, p, q);
    x := Idle(reach, x, q);
    x := ShortRuns(reach, x, p, q);
    x := LongTakesOver(reach, x, p, q);
    assert x == Taken(p, q, 0);
    LongRuns(reach, p, q, p);
  }

  // ---- The run ----

  ghost predicate Led(x: Exec) {
    exists es :: Performed(es) && Performance(es) == x
  }

  lemma LedOneMore(x: Exec, e: Event)
    requires Led(x) && Plays(x, e) && (e.Register? ==> e.time <= LARGEST_SAFE_TIME)
    ensures Led(Perform(x, e))
  {
    var es :| Performed(es) && Performance(es) == x;
    var run := es + [e];
    assert run[..|es|] == es;
    assert Performed(run) && Performance(run) == Perform(x, e);
  }

  lemma LedIsClosed()
    ensures Closed(iset x: Exec | Led(x))
  {
    assert Performed([]) && Performance([]) == IDLE;
    forall x, e | Led(x) && Plays(x, e) && (e.Register? ==> e.time <= LARGEST_SAFE_TIME) ensures Led(Perform(x, e)) {
      LedOneMore(x, e);
    }
  }

  /** Whatever the two periods, as long as the test accepts the two tasks: the one of the
      shorter period is at its next release and has not run at all. */
  lemma SwitchMakesLate(p: Period, q: Period) returns (es: seq<Event>)
    requires p <= q && p <= LARGEST_SAFE_TIME && Scaled(1, p) + Scaled(p, q) <= ADMISSION_BOUND
    ensures Performed(es) && Performance(es) == Taken(p, q, p) && Late(Performance(es), 1)
  {
    var reach := iset x: Exec | Led(x);
    LedIsClosed();
    ShortIsLate(reach, p, q);
    assert Led(Taken(p, q, p));
    es :| Performed(es) && Performance(es) == Taken(p, q, p);
  }

  // ---- At any utilisation ----

  lemma BothAreSmall(p: Period, q: Period)
    requires p >= 4 && q == p * p
    ensures Scaled(1, p) <= 2500 && Scaled(p, q) <= 2500
  {
    QuotientLess(MULTIPLIER, p, 2501);
    Loads.MulOrder(4, p, p);
    QuotientLess(p * MULTIPLIER, q, 2501);
  }

  lemma Cancels(r: real, s: real)
    requires r > 0.0 && s == r * r
    ensures s > 0.0 && r / s == 1.0 / r
  {
    var u := 1.0 / r;
    assert u * r == 1.0;
    assert u * s == (u * r) * r == r;
  }

  lemma HalfEach(m: nat, p: Period, q: Period)
    requires m >= 2 && p == 2 * m && q == p * p
    ensures Util(Load(1, p, 1)) + Util(Load(2, q, p)) == 1.0 / m as real
  {
    assert (p * p) as real == p as real * p as real;
    Cancels(p as real, q as real);
  }

  /** The periods of two tasks that together use 1/m. */
  lemma LightTasks(m: nat) returns (p: Period, q: Period)
    requires m >= 2
    ensures p == 2 * m && p <= q && Scaled(1, p) + Scaled(p, q) <= ADMISSION_BOUND
    ensures Util(Load(1, p, 1)) + Util(Load(2, q, p)) == 1.0 / m as real
  {
    p := 2 * m;
    Loads.MulOrder(1, p, p);
    q := p * p;
    BothAreSmall(p, q);
    HalfEach(m, p, q);
  }

  lemma UtilizationOfTwo(a: Task, b: Task)
    ensures Utilization([a, b]) == Util(LoadOf(a)) + Util(LoadOf(b))
  {
    var us := Utils(LoadsOf([a, b]));
    assert us[1..][1..] == [];
    assert UtilizationBound.Sum(us[1..]) == us[1];
  }

  /** However little the tasks use, two are enough for the code as written to make one late. */
  lemma LateAtAnyUtilization(m: nat) returns (es: seq<Event>)
    requires m >= 2 && 2 * m <= LARGEST_SAFE_TIME
    ensures Performed(es) && |Performance(es).s.tasks| == 2 && Late(Performance(es), 1)
    ensures Utilization(Performance(es).s.tasks) == 1.0 / m as real
  {
    var p, q := LightTasks(m);
    es := SwitchMakesLate(p, q);
    UtilizationOfTwo(On(Long(p, q), q, Running), On(Short(p), q, Running));
  }
}
