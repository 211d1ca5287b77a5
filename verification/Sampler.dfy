/** The profiler's sampler: the registered list, the delayed work that samples it, and the
    kernel's counters of every process, which a sample reads and resets. */
module Sampler {
  import opened Pids
  import Loads
  import opened Profiler

  /** A process's counters since they were last read. */
  datatype Counters = Counters(minFlt: nat, majFlt: nat, utime: nat, stime: nat)

  const ZERO := Counters(0, 0, 0, 0)

  /** An unsigned long holds numbers below this. */
  const ULONG: nat := 0x1_0000_0000_0000_0000

  datatype Totals = Totals(minFlt: nat, majFlt: nat, cpu: nat)

  function Add(c: Counters, t: Totals): Totals {
    Totals(c.minFlt + t.minFlt, c.majFlt + t.majFlt, c.utime + c.stime + t.cpu)
  }

  /** The live processes, the registered pids (newest first, repetitions allowed) and
      whether the delayed work is queued. */
  datatype World = World(tasks: map<nat, Counters>, list: seq<nat>, pending: bool)

  /** What one pass over the list adds up: a pid met again reads zero. */
  function Reading(tasks: map<nat, Counters>, list: seq<nat>): Totals
    decreases |list|
  {
    if list == [] then Totals(0, 0, 0)
    else if list[0] !in tasks then Reading(tasks, list[1..])
    else Add(tasks[list[0]], Reading(tasks[list[0] := ZERO], list[1..]))
  }

  function AfterReading(tasks: map<nat, Counters>, list: seq<nat>): map<nat, Counters>
    decreases |list|
  {
    if list == [] then tasks
    else if list[0] !in tasks then AfterReading(tasks, list[1..])
    else AfterReading(tasks[list[0] := ZERO], list[1..])
  }

  /** Reading one list entry. */
  lemma ReadingOneMore(tasks: map<nat, Counters>, list: seq<nat>)
    requires list != []
    ensures list[0] !in tasks ==> Reading(tasks, list) == Reading(tasks, list[1..])
                                  && AfterReading(tasks, list) == AfterReading(tasks, list[1..])
    ensures list[0] in tasks ==>
              && Reading(tasks, list) == Add(tasks[list[0]], Reading(tasks[list[0] := ZERO], list[1..]))
              && AfterReading(tasks, list) == AfterReading(tasks[list[0] := ZERO], list[1..])
  {
  }

  function OnRegister(w: World, pid: nat): World {
    w.(list := [pid] + w.list, pending := w.pending || w.list == [])
  }

  function OnDeregister(w: World, pid: nat): World {
    w.(list := Without(w.list, pid), pending := w.pending && Without(w.list, pid) != [])
  }

  function OnSample(w: World): World {
    w.(tasks := AfterReading(w.tasks, w.list), pending := true)
  }

  function Wrapped(t: Totals): Totals {
    Totals(t.minFlt % ULONG, t.majFlt % ULONG, t.cpu % ULONG)
  }

  /** A sum so far that has wrapped around `wraps` times, and what is still to be read. */
  predicate AddsUp(all: nat, sum: nat, rest: nat, wraps: nat) {
    all == sum + rest + ULONG * wraps && sum < ULONG
  }

  predicate Adds(all: Totals, sums: Totals, rest: Totals, wraps: Totals) {
    && AddsUp(all.minFlt, sums.minFlt, rest.minFlt, wraps.minFlt)
    && AddsUp(all.majFlt, sums.majFlt, rest.majFlt, wraps.majFlt)
    && AddsUp(all.cpu, sums.cpu, rest.cpu, wraps.cpu)
  }

  lemma AddsOne(all: nat, sum: nat, c: nat, rest: nat, wraps: nat) returns (wraps': nat)
    requires AddsUp(all, sum, c + rest, wraps)
    ensures AddsUp(all, (sum + c) % ULONG, rest, wraps')
  {
    wraps' := wraps + (sum + c) / ULONG;
  }

  /** One turn of the loop. */
  lemma AddsMore(all: Totals, sums: Totals, c: Counters, rest: Totals, wraps: Totals) returns (wraps': Totals)
    requires Adds(all, sums, Add(c, rest), wraps)
    ensures Adds(all, Wrapped(Add(c, sums)), rest, wraps')
  {
    var minWraps := AddsOne(all.minFlt, sums.minFlt, c.minFlt, rest.minFlt, wraps.minFlt);
    var majWraps := AddsOne(all.majFlt, sums.majFlt, c.majFlt, rest.majFlt, wraps.majFlt);
    var cpuWraps := AddsOne(all.cpu, sums.cpu, c.utime + c.stime, rest.cpu, wraps.cpu);
    wraps' := Totals(minWraps, majWraps, cpuWraps);
  }

  lemma AddsAll(all: Totals, sums: Totals, wraps: Totals)
    requires Adds(all, sums, Totals(0, 0, 0), wraps)
    ensures sums == Wrapped(all)
  {
    ModIs(all.minFlt, ULONG, wraps.minFlt, sums.minFlt);
    ModIs(all.majFlt, ULONG, wraps.majFlt, sums.majFlt);
    ModIs(all.cpu, ULONG, wraps.cpu, sums.cpu);
  }

  /** The removal loop at position i. */
  lemma WithoutOneMore(list: seq<nat>, i: nat, pid: nat)
    requires i < |list|
    ensures list[i] == pid ==>
              var less := list[..i] + list[i + 1..];
              less[..i] + Without(less[i..], pid) == list[..i] + Without(list[i..], pid)
    ensures list[i] != pid ==> list[..i + 1] + Without(list[i + 1..], pid) == list[..i] + Without(list[i..], pid)
  {
    assert list[i..][1..] == list[i + 1..];
    if list[i] == pid {
      var less := list[..i] + list[i + 1..];
      assert less[..i] == list[..i] && less[i..] == list[i + 1..];
    } else {
      assert list[..i + 1] == list[..i] + [list[i]];
    }
  }

  class Module {
    var tasks: map<nat, Counters>
    var list: seq<nat>
    var pending: bool
    const profiler: Buffer

    ghost predicate Valid()
      reads this, profiler
    {
      profiler.Valid()
    }

    ghost function Abs(): World
      reads this
    {
      World(tasks, list, pending)
    }

    constructor (cap: nat, live: map<nat, Counters>)
      requires cap > 0 && cap % 4 == 0
      ensures Valid() && Abs() == World(live, [], false) && fresh(profiler) && fresh(profiler.words)
      ensures profiler.words[..] == Blank(cap) && profiler.profilerIdx == 0
    {
      tasks, list, pending := live, [], false;
      profiler := new Buffer(cap);
    }

    /** -1 if the process is gone; otherwise its counters, which are reset. */
    method GetCpuUse(pid: nat) returns (ret: int, c: Counters)
      modifies this`tasks
      ensures ret == if pid in old(tasks) then 0 else -1
      ensures ret == 0 ==> c == old(tasks)[pid] && tasks == old(tasks)[pid := Counters(0, 0, 0, 0)]
      ensures ret == -1 ==> tasks == old(tasks)
    {
      ret, c := -1, ZERO;
      if pid in tasks {
        c := tasks[pid];
        tasks := tasks[pid := ZERO];
        ret := 0;
      }
    }

    /** The pass over the list, in 64 bits. */
    method SumUp() returns (minTotal: nat, majTotal: nat, cpuTotal: nat)
      modifies this`tasks
      ensures Totals(minTotal, majTotal, cpuTotal) == Wrapped(Reading(old(tasks), list))
      ensures tasks == AfterReading(old(tasks), list)
    {
      minTotal, majTotal, cpuTotal := 0, 0, 0;
      ghost var all, wraps := Reading(tasks, list), Totals(0, 0, 0);
      var i := 0;
      while i < |list|
        invariant 0 <= i <= |list|
        invariant AfterReading(tasks, list[i..]) == AfterReading(old(tasks), list)
        invariant Adds(all, Totals(minTotal, majTotal, cpuTotal), Reading(tasks, list[i..]), wraps)
      {
        ReadingOneMore(tasks, list[i..]);
        assert list[i..][1..] == list[i + 1..];
        var ret, c := GetCpuUse(list[i]);
        if ret != -1 {
          wraps := AddsMore(all, Totals(minTotal, majTotal, cpuTotal), c, Reading(tasks, list[i + 1..]), wraps);
          minTotal := (minTotal + c.minFlt) % ULONG;
          majTotal := (majTotal + c.majFlt) % ULONG;
          cpuTotal := (cpuTotal + c.utime + c.stime) % ULONG;
        }
        i := i + 1;
      }
      AddsAll(all, Totals(minTotal, majTotal, cpuTotal), wraps);
    }

    /** One sample: jiffies, the two fault totals and the cpu time in milliseconds, whose
        conversion is a parameter. */
    method UpdateProfiler(now: int, toMillis: nat -> int) returns (line: Line)
      requires Valid()
      modifies this`tasks, this`pending, profiler, profiler.words
      ensures Valid() && Abs() == OnSample(old(Abs()))
      ensures var t, word := Reading(old(tasks), list), 0x1_0000_0000_0000_0000;
              line == Line(now, t.minFlt % word, t.majFlt % word, toMillis(t.cpu % word))
      ensures profiler.words[..] == Write(old(profiler.words[..]), old(profiler.profilerIdx), line)
      ensures profiler.profilerIdx == Advance(old(profiler.profilerIdx), profiler.words.Length)
    {
      var minTotal, majTotal, cpuTotal := SumUp();
      line := Line(now, minTotal, majTotal, toMillis(cpuTotal));
      profiler.Record(line);
      pending := true;
    }

    method Register(pid: nat)
      modifies this`list, this`pending
      ensures Abs() == OnRegister(old(Abs()), pid)
    {
      if list == [] {
        pending := true;
      }
      list := [pid] + list;
    }

    method Deregister(pid: nat)
      modifies this`list, this`pending
      ensures Abs() == OnDeregister(old(Abs()), pid)
    {
      var i := 0;
      while i < |list|
        modifies this`list
        invariant 0 <= i <= |list|
        invariant list[..i] + Without(list[i..], pid) == Without(old(list), pid)
        decreases |list| - i
      {
        WithoutOneMore(list, i, pid);
        if list[i] == pid {
          list := list[..i] + list[i + 1..];
        } else {
          i := i + 1;
        }
      }
      if list == [] {
        pending := false;
      }
    }
  }

  // ---- What a sample adds up ----

  datatype Kind = Minor | Major | Cpu

  /** Page faults of one kind, or the cpu time, user and system. */
  function Amount(c: Counters, kind: Kind): nat {
    match kind
    case Minor => c.minFlt
    case Major => c.majFlt
    case Cpu => c.utime + c.stime
  }

  function Recorded(t: Totals, kind: Kind): nat {
    match kind
    case Minor => t.minFlt
    case Major => t.majFlt
    case Cpu => t.cpu
  }

  /** What the counters of the processes among `pids` with a pid below n hold. */
  function Held(tasks: map<nat, Counters>, pids: set<nat>, n: nat, kind: Kind): nat {
    if n == 0 then 0
    else Held(tasks, pids, n - 1, kind)
         + if n - 1 in tasks && n - 1 in pids then Amount(tasks[n - 1], kind) else 0
  }

  function Everyone(tasks: map<nat, Counters>, n: nat, kind: Kind): nat {
    Held(tasks, tasks.Keys, n, kind)
  }

  function PidsOf(list: seq<nat>): set<nat> {
    set p | p in list
  }

  lemma {:induction false} HeldSame(a: map<nat, Counters>, pids: set<nat>, b: map<nat, Counters>, qids: set<nat>,
                                    n: nat, kind: Kind)
    requires forall p :: 0 <= p < n ==> (p in a && p in pids) == (p in b && p in qids)
    requires forall p :: 0 <= p < n && p in a && p in pids ==> Amount(a[p], kind) == Amount(b[p], kind)
    ensures Held(a, pids, n, kind) == Held(b, qids, n, kind)
  {
    if n > 0 {
      HeldSame(a, pids, b, qids, n - 1, kind);
    }
  }

  /** Changing one process's counters changes what is held by the difference. */
  lemma {:induction false} HeldUpdate(tasks: map<nat, Counters>, pid: nat, c: Counters, pids: set<nat>, n: nat,
                                      kind: Kind)
    requires pid in tasks && pid in pids && pid < n
    ensures Held(tasks[pid := c], pids, n, kind)
            == Held(tasks, pids, n, kind) - Amount(tasks[pid], kind) + Amount(c, kind)
  {
    if pid == n - 1 {
      HeldSame(tasks[pid := c], pids, tasks, pids, n - 1, kind);
    } else {
      HeldUpdate(tasks, pid, c, pids, n - 1, kind);
    }
  }

  lemma {:induction false} ReadingResets(tasks: map<nat, Counters>, list: seq<nat>)
    ensures var r := AfterReading(tasks, list);
            && r.Keys == tasks.Keys
            && forall p :: p in tasks ==> r[p] == if p in list then Counters(0, 0, 0, 0) else tasks[p]
    decreases |list|
  {
    if list != [] {
      ReadingResets(if list[0] in tasks then tasks[list[0] := ZERO] else tasks, list[1..]);
    }
  }

  lemma HeldMember(tasks: map<nat, Counters>, list: seq<nat>, n: nat, kind: Kind)
    requires list != [] && list[0] in tasks && list[0] < n
    ensures var p := list[0];
            Held(tasks, PidsOf(list), n, kind)
            == Amount(tasks[p], kind) + Held(tasks[p := ZERO], PidsOf(list[1..]), n, kind)
  {
    var p := list[0];
    HeldUpdate(tasks, p, ZERO, PidsOf(list), n, kind);
    HeldSameButZero(tasks[p := ZERO], PidsOf(list), PidsOf(list[1..]), p, n, kind);
  }

  /** A process whose counters are zero may be counted or not. */
  lemma {:induction false} HeldSameButZero(tasks: map<nat, Counters>, pids: set<nat>, qids: set<nat>, z: nat,
                                           n: nat, kind: Kind)
    requires z in tasks && tasks[z] == ZERO
    requires forall p :: p != z ==> (p in pids <==> p in qids)
    ensures Held(tasks, pids, n, kind) == Held(tasks, qids, n, kind)
  {
    if n > 0 {
      HeldSameButZero(tasks, pids, qids, z, n - 1, kind);
    }
  }

  /** One sample records the faults and the cpu time of each live registered process exactly
      once, however often its pid was registered. */
  lemma {:induction false} ReadingIsHeld(tasks: map<nat, Counters>, list: seq<nat>, n: nat, kind: Kind)
    requires forall p :: p in tasks ==> p < n
    ensures Recorded(Reading(tasks, list), kind) == Held(tasks, PidsOf(list), n, kind)
    decreases |list|
  {
    if list == [] {
      NobodyHolds(tasks, n, kind);
    } else if list[0] in tasks {
      ReadingIsHeld(tasks[list[0] := ZERO], list[1..], n, kind);
      HeldMember(tasks, list, n, kind);
    } else {
      ReadingIsHeld(tasks, list[1..], n, kind);
      HeldSame(tasks, PidsOf(list), tasks, PidsOf(list[1..]), n, kind);
    }
  }

  lemma {:induction false} NobodyHolds(tasks: map<nat, Counters>, n: nat, kind: Kind)
    ensures Held(tasks, PidsOf([]), n, kind) == 0
  {
    if n > 0 {
      NobodyHolds(tasks, n - 1, kind);
    }
  }

  lemma {:induction false} HeldSplits(tasks: map<nat, Counters>, after: map<nat, Counters>, pids: set<nat>,
                                      n: nat, kind: Kind)
    requires after.Keys == tasks.Keys
    requires forall p :: p in tasks ==> after[p] == if p in pids then ZERO else tasks[p]
    ensures Everyone(tasks, n, kind) == Held(tasks, pids, n, kind) + Everyone(after, n, kind)
  {
    if n > 0 {
      HeldSplits(tasks, after, pids, n - 1, kind);
    }
  }

  /** A sample moves faults and cpu time from the counters to the record. */
  lemma SampleConserves(tasks: map<nat, Counters>, list: seq<nat>, n: nat, kind: Kind)
    requires forall p :: p in tasks ==> p < n
    ensures Everyone(tasks, n, kind)
            == Recorded(Reading(tasks, list), kind) + Everyone(AfterReading(tasks, list), n, kind)
  {
    ReadingIsHeld(tasks, list, n, kind);
    ReadingResets(tasks, list);
    HeldSplits(tasks, AfterReading(tasks, list), PidsOf(list), n, kind);
  }

  // ---- Runs ----

  /** A process starts with its counters at zero, faults, runs, and exits; the rest are the
      profiler's own events. */
  datatype Event =
    | Start(pid: nat)
    | Fault(pid: nat, major: bool)
    | Work(pid: nat, utime: nat, stime: nat)
    | Exit(pid: nat)
    | Register(pid: nat)
    | Deregister(pid: nat)
    | Sample

  /** The world and the tallies of one kind. */
  datatype Ledger = Ledger(w: World, recorded: nat, generated: nat, lost: nat)

  /** An event that cannot happen changes nothing; a sample happens when the work is queued. */
  function Step(l: Ledger, e: Event, kind: Kind): Ledger {
    var w := l.w;
    match e
    case Start(pid) => if pid in w.tasks then l else l.(w := w.(tasks := w.tasks[pid := ZERO]))
    case Fault(pid, maj) =>
      if pid !in w.tasks then l
      else
        var c := w.tasks[pid];
        var c' := if maj then c.(majFlt := c.majFlt + 1) else c.(minFlt := c.minFlt + 1);
        l.(w := w.(tasks := w.tasks[pid := c']),
           generated := l.generated + if kind == (if maj then Major else Minor) then 1 else 0)
    case Work(pid, u, s) =>
      if pid !in w.tasks then l
      else
        var c := w.tasks[pid];
        l.(w := w.(tasks := w.tasks[pid := c.(utime := c.utime + u, stime := c.stime + s)]),
           generated := l.generated + if kind == Cpu then u + s else 0)
    case Exit(pid) =>
      if pid !in w.tasks then l
      else l.(w := w.(tasks := w.tasks - {pid}), lost := l.lost + Amount(w.tasks[pid], kind))
    case Register(pid) => l.(w := OnRegister(w, pid))
    case Deregister(pid) => l.(w := OnDeregister(w, pid))
    case Sample =>
      if !w.pending then l
      else l.(w := OnSample(w), recorded := l.recorded + Recorded(Reading(w.tasks, w.list), kind) % ULONG)
  }

  function Run(live: map<nat, Counters>, es: seq<Event>, kind: Kind): Ledger {
    if es == [] then Ledger(World(live, [], false), 0, 0, 0)
    else Step(Run(live, es[..|es| - 1], kind), es[|es| - 1], kind)
  }

  predicate PidsBelow(live: map<nat, Counters>, es: seq<Event>, n: nat) {
    && (forall p :: p in live ==> p < n)
    && forall i :: 0 <= i < |es| ==> es[i].Start? ==> es[i].pid < n
  }

  /** What is recorded, held and lost is what there was and what was generated since, up to
      a record's having wrapped around. */
  predicate Balanced(l: Ledger, n: nat, kind: Kind, initial: nat, wraps: nat) {
    && (forall p :: p in l.w.tasks ==> p < n)
    && l.recorded + Everyone(l.w.tasks, n, kind) + l.lost + wraps * ULONG == initial + l.generated
  }

  lemma UpdateEveryone(tasks: map<nat, Counters>, pid: nat, c: Counters, n: nat, kind: Kind)
    requires pid in tasks && pid < n
    ensures Everyone(tasks[pid := c], n, kind)
            == Everyone(tasks, n, kind) - Amount(tasks[pid], kind) + Amount(c, kind)
  {
    assert tasks[pid := c].Keys == tasks.Keys;
    HeldUpdate(tasks, pid, c, tasks.Keys, n, kind);
  }

  lemma {:induction false} HeldWithout(tasks: map<nat, Counters>, pid: nat, n: nat, kind: Kind)
    requires pid in tasks
    ensures Everyone(tasks, n, kind)
            == Everyone(tasks - {pid}, n, kind) + if pid < n then Amount(tasks[pid], kind) else 0
  {
    if n > 0 {
      HeldWithout(tasks, pid, n - 1, kind);
    }
  }

  lemma SampleBalances(l: Ledger, n: nat, kind: Kind, initial: nat, wraps: nat) returns (after: nat)
    requires Balanced(l, n, kind, initial, wraps)
    ensures Balanced(Step(l, Sample, kind), n, kind, initial, after)
  {
    after := wraps;
    if l.w.pending {
      var total := Recorded(Reading(l.w.tasks, l.w.list), kind);
      SampleConserves(l.w.tasks, l.w.list, n, kind);
      ReadingResets(l.w.tasks, l.w.list);
      after := wraps + total / ULONG;
      assert after * ULONG == wraps * ULONG + total / ULONG * ULONG;
    }
  }

  lemma StepBalances(l: Ledger, e: Event, n: nat, kind: Kind, initial: nat, wraps: nat) returns (after: nat)
    requires Balanced(l, n, kind, initial, wraps) && (e.Start? ==> e.pid < n)
    ensures Balanced(Step(l, e, kind), n, kind, initial, after)
  {
    var tasks := l.w.tasks;
    after := wraps;
    match e
    case Start(pid) =>
      if pid !in tasks {
        HeldWithout(tasks[pid := ZERO], pid, n, kind);
        assert tasks[pid := ZERO] - {pid} == tasks;
      }
    case Fault(pid, maj) =>
      if pid in tasks {
        UpdateEveryone(tasks, pid, Step(l, e, kind).w.tasks[pid], n, kind);
      }
    case Work(pid, u, s) =>
      if pid in tasks {
        UpdateEveryone(tasks, pid, Step(l, e, kind).w.tasks[pid], n, kind);
      }
    case Exit(pid) =>
      if pid in tasks {
        HeldWithout(tasks, pid, n, kind);
      }
    case Register(pid) =>
    case Deregister(pid) =>
    case Sample => after := SampleBalances(l, n, kind, initial, wraps);
  }

  /** Conservation over every run, for minor faults, for major faults and for cpu time: what
      the samples recorded, what live processes still hold and what exits took away is what
      there was at first and what has been generated since, less what wrapped around in a
      record; and nothing wraps while there is less than 2^64 in all. */
  lemma {:induction false} CountersAreConserved(live: map<nat, Counters>, es: seq<Event>, n: nat, kind: Kind)
    returns (wraps: nat)
    requires PidsBelow(live, es, n)
    ensures var l := Run(live, es, kind);
            && l.recorded + Everyone(l.w.tasks, n, kind) + l.lost + wraps * 0x1_0000_0000_0000_0000
               == Everyone(live, n, kind) + l.generated
            && (Everyone(live, n, kind) + l.generated < 0x1_0000_0000_0000_0000 ==> wraps == 0)
    ensures Balanced(Run(live, es, kind), n, kind, Everyone(live, n, kind), wraps)
  {
    if es == [] {
      wraps := 0;
    } else {
      var before := CountersAreConserved(live, es[..|es| - 1], n, kind);
      wraps := StepBalances(Run(live, es[..|es| - 1], kind), es[|es| - 1], n, kind, Everyone(live, n, kind), before);
    }
    Loads.MulOrder(1, wraps, ULONG);
  }

  // ---- Who is registered ----

  /** The pid of event i is registered by it and never deregistered after it. */
  predicate Lasting(es: seq<Event>, i: nat)
    requires i < |es|
  {
    es[i].Register? && forall j :: i < j < |es| ==> es[j] != Deregister(es[i].pid)
  }

  /** The lasting registrations from event i on, newest first. */
  function Arrivals(es: seq<Event>, i: nat): seq<nat>
    requires i <= |es|
    decreases |es| - i
  {
    if i == |es| then [] else Arrivals(es, i + 1) + if Lasting(es, i) then [es[i].pid] else []
  }

  lemma Associate(a: seq<nat>, b: seq<nat>, c: seq<nat>)
    ensures a + (b + c) == (a + b) + c
  {
  }

  lemma {:induction false} WithoutAdds(a: seq<nat>, b: seq<nat>, pid: nat)
    ensures Without(a + b, pid) == Without(a, pid) + Without(b, pid)
  {
    if a == [] {
      assert a + b == b;
    } else {
      WithoutAdds(a[1..], b, pid);
      assert (a + b)[1..] == a[1..] + b && (a + b)[0] == a[0];
      Associate([a[0]], Without(a[1..], pid), Without(b, pid));
    }
  }

  /** One more event and an earlier registration. */
  lemma LastingAfter(es: seq<Event>, e: Event, i: nat)
    requires i < |es|
    ensures Lasting(es + [e], i) <==> Lasting(es, i) && e != Deregister(es[i].pid)
  {
    var all := es + [e];
    if Lasting(all, i) {
      forall j | i < j < |es| ensures es[j] != Deregister(es[i].pid) {
        assert all[j] == es[j];
      }
      assert all[|es|] == e;
    }
  }

  /** What one event makes of the lasting registrations. */
  function Arrived(list: seq<nat>, e: Event): seq<nat> {
    match e
    case Register(pid) => [pid] + list
    case Deregister(pid) => Without(list, pid)
    case _ => list
  }

  lemma {:induction false} ArrivalsAfter(es: seq<Event>, e: Event, i: nat)
    requires i <= |es|
    ensures Arrivals(es + [e], i) == Arrived(Arrivals(es, i), e)
    decreases |es| - i
  {
    var all := es + [e];
    if i == |es| {
      assert Arrivals(all, i + 1) == [];
      assert all[i] == e;
    } else {
      ArrivalsAfter(es, e, i + 1);
      LastingAfter(es, e, i);
      assert all[i] == es[i];
      if e.Deregister? {
        WithoutAdds(Arrivals(es, i + 1), if Lasting(es, i) then [es[i].pid] else [], e.pid);
      }
    }
  }

  /** Over every run the list holds exactly the registrations that have not been followed by a
      deregistration of the same pid, newest first. */
  lemma {:induction false} ListIsArrivals(live: map<nat, Counters>, es: seq<Event>, kind: Kind)
    ensures Run(live, es, kind).w.list == Arrivals(es, 0)
  {
    if es != [] {
      var before, e := es[..|es| - 1], es[|es| - 1];
      ListIsArrivals(live, before, kind);
      ArrivalsAfter(before, e, 0);
      assert before + [e] == es;
    }
  }

  lemma {:induction false} ArrivedIff(es: seq<Event>, i: nat, pid: nat)
    requires i <= |es|
    ensures pid in Arrivals(es, i) <==> exists k :: i <= k < |es| && es[k] == Register(pid) && Lasting(es, k)
    decreases |es| - i
  {
    if i < |es| {
      ArrivedIff(es, i + 1, pid);
    }
  }

  /** So a pid is on the list exactly if it was registered and not deregistered since. */
  lemma RegisteredIff(live: map<nat, Counters>, es: seq<Event>, kind: Kind, pid: nat)
    ensures pid in Run(live, es, kind).w.list
            <==> exists i :: 0 <= i < |es| && es[i] == Register(pid)
                             && forall j :: i < j < |es| ==> es[j] != Deregister(pid)
  {
    ListIsArrivals(live, es, kind);
    ArrivedIff(es, 0, pid);
    if k :| 0 <= k < |es| && es[k] == Register(pid) && forall j :: k < j < |es| ==> es[j] != Deregister(pid) {
      assert Lasting(es, k);
    }
  }

  /** Over every run, the sampling work is queued exactly while some process is registered. */
  lemma {:induction false} SamplerIsArmedIff(live: map<nat, Counters>, es: seq<Event>, kind: Kind)
    ensures var w := Run(live, es, kind).w; w.pending <==> w.list != []
  {
    if es != [] {
      SamplerIsArmedIff(live, es[..|es| - 1], kind);
    }
  }
}
