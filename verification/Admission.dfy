/** The fixed-point utilisation test applied before a task is registered. */
module Admission {
  import opened Options
  import opened Tasks
  import opened Loads
  import UtilizationBound

  const MULTIPLIER := 10000
  const ADMISSION_BOUND := 6930
  const U32: nat := 0x1_0000_0000

  /** The largest processing time whose scaled product fits 32 bits. */
  const LARGEST_SAFE_TIME := 429496

  // ---- As computed, in 32-bit unsigned arithmetic ----

  function Scaled32(time: nat, period: Period): nat {
    time * MULTIPLIER % U32 / period
  }

  function Total32(ts: seq<Task>): nat {
    if ts == [] then 0
    else
      var last := ts[|ts| - 1];
      (Total32(ts[..|ts| - 1]) + Scaled32(last.processingTime, last.period)) % U32
  }

  predicate Admits(ts: seq<Task>, period: Period, time: nat) {
    (Total32(ts) + Scaled32(time, period)) % U32 <= ADMISSION_BOUND
  }

  // ---- As intended ----

  function Scaled(time: nat, period: Period): nat {
    time * MULTIPLIER / period
  }

  function Total(ts: seq<Task>): nat {
    if ts == [] then 0
    else
      var last := ts[|ts| - 1];
      Total(ts[..|ts| - 1]) + Scaled(last.processingTime, last.period)
  }

  predicate SafeTimes(ts: seq<Task>) {
    forall t :: t in ts ==> t.processingTime <= LARGEST_SAFE_TIME
  }

  lemma ScaledAtMostProduct(time: nat, period: Period)
    ensures Scaled(time, period) <= time * MULTIPLIER
  {
    var q := time * MULTIPLIER / period;
    Loads.MulOrder(1, period, q);
  }

  lemma SafeScaled(time: nat, period: Period)
    requires time <= LARGEST_SAFE_TIME
    ensures Scaled32(time, period) == Scaled(time, period) < U32 - ADMISSION_BOUND
  {
    FitsWord(time * MULTIPLIER);
    ScaledAtMostProduct(time, period);
  }

  lemma FitsWord(n: nat)
    requires n < U32
    ensures n % U32 == n
  {
  }

  lemma {:induction false} TotalsAgree(ts: seq<Task>)
    requires SafeTimes(ts) && Total(ts) <= ADMISSION_BOUND
    ensures Total32(ts) == Total(ts)
  {
    if ts != [] {
      var last := ts[|ts| - 1];
      TotalsAgree(ts[..|ts| - 1]);
      assert last in ts;
      SafeScaled(last.processingTime, last.period);
    }
  }

  /** With processing times of at most 429496 neither the product nor the running sum
      wraps: the 32-bit verdict is the verdict of the unbounded test. */
  lemma AdmitsIffTotal(ts: seq<Task>, period: Period, time: nat)
    requires SafeTimes(ts) && Total(ts) <= ADMISSION_BOUND && time <= LARGEST_SAFE_TIME
    ensures Admits(ts, period, time) <==> Total(ts) + Scaled(time, period) <= ADMISSION_BOUND
  {
    TotalsAgree(ts);
    SafeScaled(time, period);
  }

  // ---- What 32 bits make of it ----

  /** The sum without any bound of what the test takes each task for: its product taken to 32
      bits and divided. */
  function WideTotal(ts: seq<Task>): nat {
    if ts == [] then 0
    else
      var last := ts[|ts| - 1];
      WideTotal(ts[..|ts| - 1]) + last.processingTime * 10000 % 0x1_0000_0000 / last.period
  }

  lemma WrapOnce(n: nat, a: nat, b: nat)
    requires a == n % 0x1_0000_0000
    ensures (a + b) % 0x1_0000_0000 == (n + b) % 0x1_0000_0000
  {
  }

  lemma {:induction false} Total32IsWide(ts: seq<Task>)
    ensures Total32(ts) == WideTotal(ts) % 0x1_0000_0000
  {
    if ts != [] {
      var last := ts[|ts| - 1];
      Total32IsWide(ts[..|ts| - 1]);
      WrapOnce(WideTotal(ts[..|ts| - 1]), Total32(ts[..|ts| - 1]), Scaled32(last.processingTime, last.period));
    }
  }

  /** The verdict on any task and any list, whatever wraps around: the sum of what the test
      takes the tasks for, taken to 32 bits once, is at most 6930. */
  lemma AdmitsIffWide(ts: seq<Task>, period: Period, time: nat)
    ensures Admits(ts, period, time)
            <==> (WideTotal(ts) + time * 10000 % 0x1_0000_0000 / period) % 0x1_0000_0000 <= 6930
  {
    Total32IsWide(ts);
    WrapOnce(WideTotal(ts), Total32(ts), Scaled32(time, period));
  }

  /** A period at which a task of a longer processing time gets past the test. */
  lemma WrappedProductIsAdmitted(time: nat) returns (period: Period)
    requires LARGEST_SAFE_TIME < time < U32
    ensures period < U32 && Admits([], period, time) && Scaled(time, period) > ADMISSION_BOUND
  {
    var product, wrapped := time * MULTIPLIER, time * MULTIPLIER % U32;
    assert wrapped <= product - U32;
    if product < (ADMISSION_BOUND + 1) * U32 {
      period := product / (ADMISSION_BOUND + 1);
    } else {
      period := U32 - 1;
    }
    assert wrapped < (ADMISSION_BOUND + 1) * period <= product;
    QuotientAtLeast(product, period, ADMISSION_BOUND + 1);
    QuotientLess(wrapped, period, ADMISSION_BOUND + 1);
  }

  lemma QuotientAtLeast(x: nat, p: Period, q: nat)
    requires q * p <= x
    ensures x / p >= q
  {
    Loads.MulOrder(x / p + 1, q, p);
  }

  lemma QuotientLess(x: nat, p: Period, q: nat)
    requires x < q * p
    ensures x / p < q
  {
    Loads.MulOrder(q, x / p, p);
  }

  /** The 32-bit verdict on a task of this period is the unbounded one, whatever tasks have been admitted. */
  ghost predicate RightVerdict(time: nat, period: Period) {
    forall ts :: SafeTimes(ts) && Total(ts) <= ADMISSION_BOUND ==>
                   (Admits(ts, period, time) <==> Total(ts) + Scaled(time, period) <= ADMISSION_BOUND)
  }

  /** For a 32-bit processing time the verdict is right at every 32-bit period exactly when
      the time is at most 429496. */
  lemma VerdictIff(time: nat)
    requires time < U32
    ensures (forall period: Period :: period < U32 ==> RightVerdict(time, period)) <==> time <= LARGEST_SAFE_TIME
  {
    if time <= LARGEST_SAFE_TIME {
      forall period: Period, ts | SafeTimes(ts) && Total(ts) <= ADMISSION_BOUND
        ensures Admits(ts, period, time) <==> Total(ts) + Scaled(time, period) <= ADMISSION_BOUND
      {
        AdmitsIffTotal(ts, period, time);
      }
    } else {
      var period := WrappedProductIsAdmitted(time);
      assert SafeTimes([]) && Total([]) == 0;
      assert !RightVerdict(time, period);
    }
  }

  // ---- Registering and deregistering ----

  lemma {:induction false} TotalOfPrepended(t: Task, ts: seq<Task>)
    ensures Total([t] + ts) == Scaled(t.processingTime, t.period) + Total(ts)
  {
    var all := [t] + ts;
    if ts == [] {
      assert all[..0] == [];
    } else {
      TotalOfPrepended(t, ts[..|ts| - 1]);
      assert all[..|all| - 1] == [t] + ts[..|ts| - 1];
    }
  }

  lemma {:induction false} TotalOfRemoved(ts: seq<Task>, pid: nat)
    ensures Total(Remove(ts, pid)) <= Total(ts)
  {
    if ts != [] {
      TotalOfRemoved(ts[1..], pid);
      assert ts == [ts[0]] + ts[1..];
      TotalOfPrepended(ts[0], ts[1..]);
      TotalOfPrepended(ts[0], Remove(ts[1..], pid));
    }
  }

  // ---- What truncated division hides ----

  function LoadOf(t: Task): Load {
    Load(t.pid, t.period, t.processingTime)
  }

  function LoadsOf(ts: seq<Task>): (s: seq<Load>)
    ensures |s| == |ts|
    ensures forall i :: 0 <= i < |ts| ==> s[i] == LoadOf(ts[i])
  {
    seq(|ts|, i requires 0 <= i < |ts| => LoadOf(ts[i]))
  }

  /** The exact utilisation of a task list. */
  function Utilization(ts: seq<Task>): real {
    UtilizationBound.Sum(Utils(LoadsOf(ts)))
  }

  lemma TruncationOfOne(l: Load)
    ensures Util(l) < (Scaled(l.cost, l.period) + 1) as real / 10000.0
  {
    var c, p, q := l.cost, l.period, Scaled(l.cost, l.period);
    assert c * MULTIPLIER < (q + 1) * p;
    assert ((q + 1) * p) as real == (q + 1) as real * p as real;
    QuotientBelow(c as real, p as real, (q + 1) as real);
  }

  lemma QuotientBelow(c: real, p: real, q: real)
    requires p > 0.0 && c * 10000.0 < q * p
    ensures c / p < q / 10000.0
  {
    var u := c / p;
    assert u * p == c;
    if u >= q / 10000.0 {
      UtilizationBound.MulOrder(q / 10000.0, u, p);
    }
  }

  /** Each task hides less than 1/10000 from the test: the exact utilisation stays below
      the truncated total plus n/10000. */
  lemma {:induction false} TruncationOfSum(ts: seq<Task>)
    ensures Utilization(ts) <= (Total(ts) + |ts|) as real / 10000.0
    ensures ts != [] ==> Utilization(ts) < (Total(ts) + |ts|) as real / 10000.0
  {
    if ts != [] {
      TruncationOfSum(ts[1..]);
      TruncationOfOne(LoadOf(ts[0]));
      assert ts == [ts[0]] + ts[1..];
      TotalOfPrepended(ts[0], ts[1..]);
      var us := Utils(LoadsOf(ts));
      assert us[1..] == Utils(LoadsOf(ts[1..]));
      assert us[0] == Util(LoadOf(ts[0]));
    }
  }

  /** Any number of tasks whose whole utilisation is hidden pass the test together, so
      no bound on the exact utilisation holds for all task counts. */
  function Tiny(n: nat): (ts: seq<Task>)
    ensures |ts| == n
  {
    if n == 0 then [] else Tiny(n - 1) + [Task(n, 10001, 1, Sleeping, 0, false, None)]
  }

  lemma {:induction false} TinyTasksAreFree(n: nat)
    ensures Total(Tiny(n)) == 0 && SafeTimes(Tiny(n)) && Distinct(Tiny(n))
    ensures forall t :: t in Tiny(n) ==> 0 < t.pid <= n
  {
    if n > 0 {
      TinyTasksAreFree(n - 1);
      assert Tiny(n)[..n - 1] == Tiny(n - 1);
    }
  }

  lemma {:induction false} TinyTasksAddUp(n: nat)
    ensures Utilization(Tiny(n)) == n as real / 10001.0
  {
    if n > 0 {
      var us := Utils(LoadsOf(Tiny(n - 1)));
      TinyTasksAddUp(n - 1);
      assert Utils(LoadsOf(Tiny(n))) == us + [1.0 / 10001.0];
      SumOfAppended(us, 1.0 / 10001.0);
    }
  }

  lemma {:induction false} SumOfAppended(us: seq<real>, u: real)
    ensures UtilizationBound.Sum(us + [u]) == UtilizationBound.Sum(us) + u
  {
    if us != [] {
      SumOfAppended(us[1..], u);
      assert (us + [u])[1..] == us[1..] + [u];
    }
  }
}
