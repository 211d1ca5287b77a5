/** How many tasks the admission test is safe for: 49, and no more. */
module AdmissionLimit {
  import opened Options
  import opened Tasks
  import opened Loads
  import opened Admission
  import opened Scheduler
  import opened Processor
  import opened Departures
  import opened Overload
  import Churn

  // ---- Fifty tasks, each hiding almost 1/10000 ----

  /** The scaled utilisation the k-th task shows the admission test: 30 * 139 + 20 * 138 = 6930. */
  function Shown(k: nat): nat {
    if k < 30 then 139 else 138
  }

  /** The largest processing time for which a period of `p` shows only `Shown(k)`. */
  function Squeezed(k: nat, p: Period): nat {
    if k < 30 then (140 * p - 1) / 10000 else (139 * p - 1) / 10000
  }

  /** `next` is `p` grown by the factor g/10000, rounded down or one less. */
  predicate Grows(p: int, next: int, g: int) {
    g * p - 10000 <= 10000 * next <= g * p
  }

  lemma TenSteps(p: seq<int>, k: nat, g: int)
    requires k + 10 < |p| && p[k] >= 0 && (g == 10140 || g == 10139)
    requires forall i :: k <= i < k + 10 ==> Grows(p[i], p[i + 1], g)
    ensures g == 10140 ==> 1149157 * p[k] - 11000000 <= 1000000 * p[k + 10] <= 1149158 * p[k]
    ensures g == 10139 ==> 1148024 * p[k] - 11000000 <= 1000000 * p[k + 10] <= 1148025 * p[k]
  {
    assert Grows(p[k], p[k + 1], g) && Grows(p[k + 1], p[k + 2], g) && Grows(p[k + 2], p[k + 3], g);
    assert Grows(p[k + 3], p[k + 4], g) && Grows(p[k + 4], p[k + 5], g) && Grows(p[k + 5], p[k + 6], g);
    assert Grows(p[k + 6], p[k + 7], g) && Grows(p[k + 7], p[k + 8], g) && Grows(p[k + 8], p[k + 9], g);
    assert Grows(p[k + 9], p[k + 10], g);
  }

  lemma FiftySteps(p: seq<int>)
    requires |p| == 51 && p[0] == 10000000
    requires forall i :: 0 <= i < 50 ==> Grows(p[i], p[i + 1], if i < 30 then 10140 else 10139)
    ensures p[50] > 20000000 && p[49] < 20000000
  {
    TenSteps(p, 0, 10140);
    TenSteps(p, 10, 10140);
    TenSteps(p, 20, 10140);
    TenSteps(p, 30, 10139);
    TenSteps(p, 40, 10139);
    assert Grows(p[49], p[50], 10139);
  }

  lemma QuotientIs(x: nat, p: nat, q: nat)
    requires p > 0 && q * p <= x < q * p + p
    ensures x / p == q
  {
    var d := x / p;
    Loads.MulOrder(d + 1, q, p);
    Loads.MulOrder(q + 1, d, p);
  }

  /** Periods p[0] < p[1] < ... < p[50], the last more than twice the first, the one
      before less, whose differences as processing times show just what is allowed. */
  predicate Stairs(p: seq<Period>) {
    && |p| == 51
    && p[49] < 2 * p[0] < p[50]
    && (forall k :: 0 <= k < 50 ==> p[k] < p[k + 1])
    && (forall k: nat {:trigger Shows(p, k)} :: k < 50 ==> Shows(p, k))
  }

  predicate Shows(p: seq<Period>, k: nat) {
    k + 1 < |p| && p[k] < p[k + 1] && Scaled(p[k + 1] - p[k], p[k]) == Shown(k)
  }

  lemma SqueezedShows(k: nat, p: Period)
    requires p > 10000
    ensures Squeezed(k, p) > 0 && Scaled(Squeezed(k, p), p) == Shown(k)
    ensures Grows(p, p + Squeezed(k, p), if k < 30 then 10140 else 10139)
  {
    QuotientIs(Squeezed(k, p) * 10000, p, Shown(k));
  }

  predicate Climbs(p: seq<Period>, k: nat) {
    Shows(p, k) && Grows(p[k], p[k + 1], if k < 30 then 10140 else 10139)
  }

  /** Each period exceeds the one before by the processing time of the task before. */
  lemma {:induction false} Climb(n: nat) returns (p: seq<Period>)
    ensures |p| == n + 1 && p[0] == 10000000 && p[n] >= 10000000
    ensures forall k: nat {:trigger Climbs(p, k)} :: k < n ==> Climbs(p, k)
  {
    if n == 0 {
      p := [10000000];
    } else {
      var q := Climb(n - 1);
      SqueezedShows(n - 1, q[n - 1]);
      p := q + [q[n - 1] + Squeezed(n - 1, q[n - 1])];
      forall k: nat | k < n ensures Climbs(p, k) {
        if k < n - 1 {
          assert Climbs(q, k) && p[k] == q[k] && p[k + 1] == q[k + 1];
        }
      }
    }
  }

  lemma StairsExist() returns (p: seq<Period>)
    ensures Stairs(p) && p[0] == 10000000
  {
    p := Climb(50);
    forall i: nat | i < 50 ensures Grows(p[i], p[i + 1], if i < 30 then 10140 else 10139) && p[i] < p[i + 1] {
      assert Climbs(p, i);
    }
    FiftySteps(p);
    forall k: nat | k < 50 ensures Shows(p, k) {
      assert Climbs(p, k);
    }
  }

  function Steep(p: seq<Period>, n: nat): (ts: seq<Task>)
    requires Stairs(p) && n <= 50
    ensures |ts| == n
    ensures forall k :: 0 <= k < n ==> ts[k] == Task(k, p[k], p[k + 1] - p[k], Sleeping, 0, false, None)
  {
    if n == 0 then []
    else Steep(p, n - 1) + [Task(n - 1, p[n - 1], p[n] - p[n - 1], Sleeping, 0, false, None)]
  }

  lemma TotalOfAppended(ts: seq<Task>, t: Task, shown: nat)
    requires Scaled(t.processingTime, t.period) == shown
    ensures Total(ts + [t]) == Total(ts) + shown
  {
    assert (ts + [t])[..|ts|] == ts;
  }

  lemma SteepStep(p: seq<Period>, n: nat)
    requires Stairs(p) && 0 < n <= 50
    ensures Total(Steep(p, n)) == Total(Steep(p, n - 1)) + Shown(n - 1)
  {
    assert Shows(p, n - 1);
    TotalOfAppended(Steep(p, n - 1), Task(n - 1, p[n - 1], p[n] - p[n - 1], Sleeping, 0, false, None), Shown(n - 1));
  }

  lemma {:induction false} SteepTotal(p: seq<Period>, n: nat)
    requires Stairs(p) && n <= 50
    ensures Total(Steep(p, n)) == 138 * n + if n <= 30 then n else 30
  {
    if n > 0 {
      SteepTotal(p, n - 1);
      SteepStep(p, n);
    }
  }

  lemma {:induction false} StairsAscend(p: seq<Period>, j: nat, k: nat)
    requires Stairs(p) && j <= k <= 50
    ensures p[j] + (k - j) <= p[k]
  {
    if j < k {
      StairsAscend(p, j, k - 1);
    }
  }

  /** A task list the admission test accepts, one task after the other. */
  predicate Accepted(ts: seq<Task>) {
    Distinct(ts) && SafeTimes(ts) && Total(ts) <= ADMISSION_BOUND
  }

  lemma StairsAreSafe(p: seq<Period>, k: nat)
    requires Stairs(p) && p[0] == 10000000 && k < 50
    ensures p[k + 1] - p[k] <= LARGEST_SAFE_TIME
  {
    StairsAscend(p, k, 49);
    assert Shows(p, k);
    TimeFromScaled(p[k + 1] - p[k], p[k], Shown(k));
  }

  lemma SteepIsSafe(p: seq<Period>, n: nat)
    requires Stairs(p) && p[0] == 10000000 && n <= 50
    ensures Distinct(Steep(p, n)) && SafeTimes(Steep(p, n))
  {
    var ts := Steep(p, n);
    forall i, j | 0 <= i < j < n ensures ts[i].pid != ts[j].pid {
      assert ts[i] == Task(i, p[i], p[i + 1] - p[i], Sleeping, 0, false, None);
      assert ts[j] == Task(j, p[j], p[j + 1] - p[j], Sleeping, 0, false, None);
    }
    forall t | t in Steep(p, n) ensures t.processingTime <= LARGEST_SAFE_TIME {
      var k :| 0 <= k < n && Steep(p, n)[k] == t;
      StairsAreSafe(p, k);
    }
  }

  lemma SteepIsAccepted(p: seq<Period>, n: nat)
    requires Stairs(p) && p[0] == 10000000 && n <= 50
    ensures Accepted(Steep(p, n))
  {
    SteepIsSafe(p, n);
    SteepTotal(p, n);
  }

  lemma TimeFromScaled(time: nat, period: Period, q: nat)
    requires Scaled(time, period) == q <= 139 && period <= 30000000
    ensures time <= LARGEST_SAFE_TIME
  {
    Loads.MulOrder(q + 1, 140, period);
  }

  // ---- Their demand ----

  /** Up to time t, a task of period below t has asked for its time twice. */
  lemma {:induction false} SteepDemand(p: seq<Period>, n: nat, m: nat, t: nat)
    requires Stairs(p) && t > 0 && m <= n <= 50 && forall k: nat :: k < m ==> p[k] < t
    ensures Demand(LoadsOf(Steep(p, n)), t) + 2 * p[0] >= p[n] + p[m]
  {
    if n > 0 {
      var last := LoadOf(Steep(p, n)[n - 1]);
      assert LoadsOf(Steep(p, n)) == LoadsOf(Steep(p, n - 1)) + [last];
      DemandOfAppended(LoadsOf(Steep(p, n - 1)), last, t);
      if m == n {
        SteepDemand(p, n - 1, m - 1, t);
        CeilDivAtLeast(t, last.period, 2);
        Loads.MulOrder(2, CeilDiv(t, last.period), last.cost);
      } else {
        SteepDemand(p, n - 1, m, t);
        CeilDivAtLeast(t, last.period, 1);
        Loads.MulOrder(1, CeilDiv(t, last.period), last.cost);
      }
    }
  }

  lemma {:induction false} DemandOfAppended(s: seq<Load>, l: Load, t: nat)
    ensures Demand(s + [l], t) == Demand(s, t) + CeilDiv(t, l.period) * l.cost
  {
    if s != [] {
      DemandOfAppended(s[1..], l, t);
      assert (s + [l])[1..] == s[1..] + [l];
    }
  }

  function PeriodsBelow(p: seq<Period>, t: nat, n: nat): (m: nat)
    requires n < |p|
    ensures m <= n
    ensures m < n ==> t <= p[m]
    ensures m > 0 ==> p[m - 1] < t
  {
    if n == 0 then 0 else if p[n - 1] < t then n else PeriodsBelow(p, t, n - 1)
  }

  /** At no time up to the last period have the fifty tasks had all the time they ask for. */
  lemma SteepNeverFits(p: seq<Period>, n: nat, t: nat)
    requires Stairs(p) && n == 50 && 0 < t <= p[49]
    ensures Demand(LoadsOf(Steep(p, n)), t) > t
  {
    var m := PeriodsBelow(p, t, 49);
    forall k: nat | k < m ensures p[k] < t {
      StairsAscend(p, k, m - 1);
    }
    SteepDemand(p, n, m, t);
  }

  // ---- Fifty or more ----

  lemma SteepAt(p: seq<Period>, n: nat, k: nat)
    requires Stairs(p) && k < n <= 50
    ensures Steep(p, n)[k] == Task(k, p[k], p[k + 1] - p[k], Sleeping, 0, false, None)
  {
  }

  lemma SteepOrdered(p: seq<Period>, n: nat, i: nat, j: nat)
    requires Stairs(p) && n <= 50 && i <= j < n
    ensures Steep(p, n)[i].period <= Steep(p, n)[j].period
  {
    SteepAt(p, n, i);
    SteepAt(p, n, j);
    StairsAscend(p, i, j);
  }

  lemma SteepIsAscending(p: seq<Period>, n: nat)
    requires Stairs(p) && p[0] == 10000000 && 0 < n <= 50
    ensures Ascending(Steep(p, n))
  {
    var ts := Steep(p, n);
    SteepIsAccepted(p, n);
    forall i | 0 <= i < n ensures Unstarted(ts[i]) { SteepAt(p, n, i); }
    forall i, j | 0 <= i <= j < n ensures ts[i].period <= ts[j].period { SteepOrdered(p, n, i, j); }
  }

  lemma SteepIsOverloaded(p: seq<Period>, n: nat)
    requires Stairs(p) && n == 50
    ensures Overloaded(Steep(p, n))
  {
    var ts := Steep(p, n);
    SteepAt(p, n, 49);
    forall t: nat | 0 < t <= Longest(ts) ensures Demand(LoadsOf(ts), t) > t {
      SteepNeverFits(p, n, t);
    }
  }

  /** n tasks with something to do that the test accepts although no window fits them. */
  ghost predicate Burden(ts: seq<Task>, n: nat) {
    && |ts| == n && Ascending(ts) && Overloaded(ts)
    && forall i :: 0 <= i < n ==> ts[i].pid < n && ts[i].processingTime > 0 && ts[i].period >= 10001
  }

  lemma SteepIsBurden(n: nat) returns (ts: seq<Task>)
    requires n == 50
    ensures Burden(ts, n)
  {
    var p := StairsExist();
    ts := Steep(p, n);
    SteepIsAscending(p, n);
    SteepIsOverloaded(p, n);
    forall i | 0 <= i < n ensures ts[i].pid < n && ts[i].processingTime > 0 && ts[i].period >= 10001 {
      SteepAt(p, n, i);
      StairsAscend(p, 0, i);
      assert Shows(p, i);
    }
  }

  lemma PrependedIsAccepted(t: Task, ts: seq<Task>)
    requires Accepted(ts) && t.processingTime <= LARGEST_SAFE_TIME && Scaled(t.processingTime, t.period) == 0
    requires forall i :: 0 <= i < |ts| ==> ts[i].pid != t.pid
    ensures Accepted([t] + ts)
  {
    TotalOfPrepended(t, ts);
    forall i, j | 0 <= i < j < |[t] + ts| ensures ([t] + ts)[i].pid != ([t] + ts)[j].pid {
      assert ([t] + ts)[j] == ts[j - 1];
    }
  }

  lemma PrependedAscends(t: Task, ts: seq<Task>)
    requires Ascending(ts) && Unstarted(t) && t.processingTime <= LARGEST_SAFE_TIME
    requires Scaled(t.processingTime, t.period) == 0
    requires forall i :: 0 <= i < |ts| ==> ts[i].pid != t.pid && t.period <= ts[i].period
    ensures Ascending([t] + ts)
  {
    var all := [t] + ts;
    PrependedIsAccepted(t, ts);
    forall i | 0 <= i < |all| ensures Unstarted(all[i]) {
      assert i == 0 || Unstarted(ts[i - 1]);
    }
    forall i, j | 0 <= i <= j < |all| ensures all[i].period <= all[j].period {
      assert j == 0 || all[j] == ts[j - 1];
    }
  }

  lemma DemandOfPrepended(l: Load, s: seq<Load>, t: nat)
    ensures Demand([l] + s, t) >= Demand(s, t)
  {
    assert ([l] + s)[1..] == s;
    Loads.MulOrder(0, CeilDiv(t, l.period), l.cost);
  }

  lemma PrependedOverloads(t: Task, ts: seq<Task>)
    requires Overloaded(ts)
    ensures Overloaded([t] + ts)
  {
    forall time: nat | 0 < time <= Longest([t] + ts) ensures Demand(LoadsOf([t] + ts), time) > time {
      DemandOfPrepended(LoadOf(t), LoadsOf(ts), time);
      assert LoadsOf([t] + ts) == [LoadOf(t)] + LoadsOf(ts);
    }
  }

  /** One more task, so light that the test does not see it. */
  lemma {:induction false} BurdenExists(n: nat) returns (ts: seq<Task>)
    requires n >= 50
    ensures Burden(ts, n)
  {
    if n == 50 {
      ts := SteepIsBurden(n);
    } else {
      var rest := BurdenExists(n - 1);
      var t := Task(n - 1, 10001, 1, Sleeping, 0, false, None);
      PrependedAscends(t, rest);
      PrependedOverloads(t, rest);
      ts := [t] + rest;
    }
  }

  lemma BurdenIsLate(ts: seq<Task>, n: nat, x: Exec, k: nat)
    requires Burden(ts, n) && Holds(ts, x.s) && Misses(x, k)
    ensures |x.s.tasks| == n && Late(x, k)
  {
    assert LoadOf(x.s.tasks[k]) == LoadOf(ts[k]);
  }

  /** With n admitted tasks, n at least 50, a run in which a job is late, and the clock tick
      after which its yield finds its deadline passed. */
  lemma MissWith(n: nat) returns (es: seq<Event>, k: nat)
    requires n >= 50
    ensures Fair(n, es) && |Execution(es).s.tasks| == n && k < n && Late(Execution(es), k)
    ensures Fair(n, es + [Tick]) && |Execution(es + [Tick]).s.tasks| == n
    ensures Skips(REAL_TIME, Execution(es + [Tick]).s, Execution(es + [Tick]).s.tasks[k])
  {
    var ts := BurdenExists(n);
    es, k := CriticalInstant(ts);
    BurdenIsLate(ts, n, Execution(es), k);
    PatientCharged(n, es);
    DeskIsExecution(es);
    MissSkips(Execution(es), k);
    FairOneMore(n, es, Tick);
  }

  // ---- Exactly 49 ----

  /** In no patient run with at most n tasks at a time does a yield find its deadline passed. */
  ghost predicate NeverSkips(n: nat) {
    forall es, k: nat :: Patient(n, es) && k < |Execution(es).s.tasks| ==>
                           !Skips(REAL_TIME, Execution(es).s, Execution(es).s.tasks[k])
  }

  /** And in none has a job work left when its task's next release has come. */
  ghost predicate NeverLate(n: nat) {
    forall es, k: nat :: Patient(n, es) && k < |Execution(es).s.tasks| ==> !Late(Execution(es), k)
  }

  /** Tasks admitted by the test as computed, at most 49 of which count at a time, miss no
      deadline, whatever their periods and release phases and however they come and go, as
      long as registrations are patient. */
  lemma AdmittedTasksMeetDeadlines(es: seq<Event>, n: nat, k: nat)
    requires Patient(n, es) && n <= 49 && k < |Execution(es).s.tasks|
    ensures OnTime(Execution(es).s)
    ensures !Skips(REAL_TIME, Execution(es).s, Execution(es).s.tasks[k]) && !Late(Execution(es), k)
  {
    Churn.PatientRunsAreOnTime(n, es);
    PatientCharged(n, es);
    DeskIsExecution(es);
    NoSkip(Execution(es).s, k);
  }

  /** The admission test is safe for n tasks at a time exactly when n is at most 49. */
  lemma SafeForIff(n: nat)
    ensures NeverSkips(n) <==> n <= 49
    ensures NeverLate(n) <==> n <= 49
  {
    if n <= 49 {
      forall es, k: nat | Patient(n, es) && k < |Execution(es).s.tasks|
        ensures !Skips(REAL_TIME, Execution(es).s, Execution(es).s.tasks[k]) && !Late(Execution(es), k)
      {
        AdmittedTasksMeetDeadlines(es, n, k);
      }
    } else {
      var es, k := MissWith(n);
      assert Patient(n, es) && Late(Execution(es), k);
      assert Patient(n, es + [Tick]) && Skips(REAL_TIME, Execution(es + [Tick]).s, Execution(es + [Tick]).s.tasks[k]);
    }
  }
}
