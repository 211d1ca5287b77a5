/** The sampler and the reader sharing one buffer: samples and drains in any order, each
    atomic. The producer goes round `slots` records, the reader round the first `m`. */
module Pipeline {
  import opened Profiler
  import opened Monitor

  datatype Event = Sample(line: Line) | Read

  /** The buffer, where the next sample goes, and three logs: the whole lines printed, the
      samples taken, and those that can no longer be printed whole, because they were
      overwritten first or because they lie beyond the reader's circle. */
  datatype Pipe = Pipe(b: seq<int>, idx: nat, printed: seq<Line>, taken: seq<Line>, lost: seq<Line>)

  function WholeLines(ls: seq<Line>): seq<Line> {
    if ls == [] then [] else (if Whole(ls[0]) then [ls[0]] else []) + WholeLines(ls[1..])
  }

  /** The sample that writing `l` at slot s puts out of the reader's reach. */
  function Lost(b: seq<int>, s: nat, l: Line, m: nat): seq<Line>
    requires 4 * s + 4 <= |b|
  {
    if s >= m then [l] else if At(b, s) == NOTHING then [] else [At(b, s)]
  }

  predicate Ready(b: seq<int>, idx: nat, m: nat) {
    0 < m && 4 * m < |b| && |b| % 4 == 0 && idx % 4 == 0 && idx < |b|
  }

  function Step(p: Pipe, e: Event, m: nat): (q: Pipe)
    requires Ready(p.b, p.idx, m)
    ensures |q.b| == |p.b| && Ready(q.b, q.idx, m)
  {
    match e
    case Sample(l) =>
      p.(b := Write(p.b, p.idx, l), idx := Advance(p.idx, |p.b|), taken := p.taken + [l],
         lost := p.lost + Lost(p.b, p.idx / 4, l, m))
    case Read =>
      var o := Drain(p.b, 4 * m);
      p.(b := o.b, printed := p.printed + WholeLines(o.lines))
  }

  function Begin(slots: nat): Pipe {
    Pipe(Blank(4 * slots), 0, [], [], [])
  }

  function Run(slots: nat, m: nat, es: seq<Event>): (p: Pipe)
    requires 0 < m < slots
    ensures |p.b| == 4 * slots && Ready(p.b, p.idx, m)
  {
    if es == [] then Begin(slots) else Step(Run(slots, m, es[..|es| - 1]), es[|es| - 1], m)
  }

  predicate WholeEvents(es: seq<Event>) {
    forall i :: 0 <= i < |es| ==> es[i].Sample? ==> Whole(es[i].line)
  }

  // ---- Counting ----

  function One(l: Line, x: Line): nat {
    if l == x then 1 else 0
  }

  function Count(ls: seq<Line>, x: Line): nat {
    if ls == [] then 0 else One(ls[0], x) + Count(ls[1..], x)
  }

  lemma {:induction false} CountAppend(a: seq<Line>, b: seq<Line>, x: Line)
    ensures Count(a + b, x) == Count(a, x) + Count(b, x)
  {
    if a == [] {
      assert a + b == b;
    } else {
      CountAppend(a[1..], b, x);
      assert (a + b)[1..] == a[1..] + b;
    }
  }

  lemma {:induction false} CountIsMultiplicity(ls: seq<Line>, x: Line)
    ensures Count(ls, x) == multiset(ls)[x]
  {
    if ls != [] {
      CountIsMultiplicity(ls[1..], x);
      assert ls == [ls[0]] + ls[1..];
    }
  }

  /** The copies of x in slots [from, m). */
  function Copies(b: seq<int>, x: Line, from: nat, m: nat): nat
    requires from <= m && 4 * m <= |b|
    decreases m - from
  {
    if from == m then 0 else One(At(b, from), x) + Copies(b, x, from + 1, m)
  }

  lemma {:induction false} StoredCopies(b: seq<int>, x: Line, from: nat, m: nat)
    requires from <= m && 4 * m <= |b| && x != NOTHING
    ensures Count(Stored(b, from, m), x) == Copies(b, x, from, m)
    decreases m - from
  {
    if from < m {
      StoredCopies(b, x, from + 1, m);
      CountAppend(if At(b, from) == NOTHING then [] else [At(b, from)], Stored(b, from + 1, m), x);
    }
  }

  // ---- Conservation ----

  /** Every record x taken was printed whole, is still in the reader's circle, or was lost. */
  predicate Balanced(p: Pipe, m: nat, x: Line)
    requires 4 * m <= |p.b|
  {
    Count(p.taken, x) == Count(p.printed, x) + Copies(p.b, x, 0, m) + Count(p.lost, x)
  }

  lemma WriteAt(b: seq<int>, l: Line, s: nat, q: nat)
    requires 4 * s + 4 <= |b| && 4 * q + 4 <= |b|
    ensures At(Write(b, 4 * s, l), q) == if q == s then l else At(b, q)
  {
  }

  lemma {:induction false} CopiesAfterWrite(b: seq<int>, l: Line, s: nat, x: Line, from: nat, m: nat)
    requires from <= m && 4 * m <= |b| && 4 * s + 4 <= |b|
    ensures Copies(Write(b, 4 * s, l), x, from, m)
            == Copies(b, x, from, m) + if from <= s < m then One(l, x) - One(At(b, s), x) else 0
    decreases m - from
  {
    if from < m {
      CopiesAfterWrite(b, l, s, x, from + 1, m);
      WriteAt(b, l, s, from);
    }
  }

  lemma WriteAligned(b: seq<int>, l: Line, s: nat, m: nat)
    requires 4 * s + 4 <= |b| && Aligned(b, m) && Whole(l)
    ensures Aligned(Write(b, 4 * s, l), m)
  {
    var c := Write(b, 4 * s, l);
    forall q | 0 <= q < m ensures At(c, q) == NOTHING || Whole(At(c, q)) {
      assert At(b, q) == NOTHING || Whole(At(b, q));
      WriteAt(b, l, s, q);
    }
  }

  lemma SampleBalances(p: Pipe, l: Line, m: nat, x: Line)
    requires Ready(p.b, p.idx, m) && x != NOTHING && Balanced(p, m, x)
    ensures Balanced(Step(p, Sample(l), m), m, x)
  {
    var s := p.idx / 4;
    assert p.idx == 4 * s;
    CopiesAfterWrite(p.b, l, s, x, 0, m);
    CountAppend(p.taken, [l], x);
    CountAppend(p.lost, Lost(p.b, s, l, m), x);
  }

  lemma {:induction false} AllWhole(ls: seq<Line>)
    requires forall l :: l in ls ==> Whole(l)
    ensures WholeLines(ls) == ls
  {
    if ls != [] {
      AllWhole(ls[1..]);
    }
  }

  lemma BeyondOnly(b: seq<int>, c: seq<int>, m: nat)
    requires 4 * m < |b| && c == b[4 * m := EMPTY] && Aligned(b, m)
    ensures Aligned(c, m) && Stored(b, 0, m) == Stored(c, 0, m)
  {
    StoredDepends(b, c, 0, m);
    forall q | 0 <= q < m ensures At(c, q) == NOTHING || Whole(At(c, q)) {
      assert At(c, q) == At(b, q);
    }
  }

  /** A drain moves whole records from the buffer to the output, whatever it also prints. */
  lemma DrainMoves(b: seq<int>, m: nat)
    requires 0 < m && 4 * m < |b| && Aligned(b, m)
    ensures var o := Drain(b, 4 * m);
            Aligned(o.b, m) && Stored(b, 0, m) == WholeLines(o.lines) + Stored(o.b, 0, m)
  {
    var o := Drain(b, 4 * m);
    if SomethingToDrain(b, m) {
      DrainConserves(b, m);
      AllWhole(o.lines);
    } else {
      StoredIsEmptyIff(b, 0, m);
      NothingStoredScan(b, m);
      DrainOfNothing(b, m);
      BeyondOnly(b, o.b, m);
      assert WholeLines(o.lines) == [];
    }
  }

  lemma ReadBalances(p: Pipe, m: nat, x: Line)
    requires Ready(p.b, p.idx, m) && Aligned(p.b, m) && x != NOTHING && Balanced(p, m, x)
    ensures Balanced(Step(p, Read, m), m, x)
  {
    var o := Drain(p.b, 4 * m);
    DrainMoves(p.b, m);
    CountAppend(WholeLines(o.lines), Stored(o.b, 0, m), x);
    CountAppend(p.printed, WholeLines(o.lines), x);
    StoredCopies(p.b, x, 0, m);
    StoredCopies(o.b, x, 0, m);
  }

  lemma {:induction false} CirclesStayAligned(slots: nat, m: nat, es: seq<Event>)
    requires 0 < m < slots && WholeEvents(es)
    ensures Aligned(Run(slots, m, es).b, m)
  {
    if es == [] {
      forall q | 0 <= q < m ensures At(Blank(4 * slots), q) == NOTHING {}
    } else {
      CirclesStayAligned(slots, m, es[..|es| - 1]);
      var p := Run(slots, m, es[..|es| - 1]);
      match es[|es| - 1]
      case Sample(l) => WriteAligned(p.b, l, p.idx / 4, m);
      case Read => DrainMoves(p.b, m);
    }
  }

  lemma {:induction false} NothingCopied(slots: nat, x: Line, from: nat, m: nat)
    requires from <= m <= slots && x != NOTHING
    ensures Copies(Blank(4 * slots), x, from, m) == 0
    decreases m - from
  {
    if from < m {
      NothingCopied(slots, x, from + 1, m);
      assert At(Blank(4 * slots), from) == NOTHING;
    }
  }

  lemma {:induction false} RunBalances(slots: nat, m: nat, es: seq<Event>, x: Line)
    requires 0 < m < slots && WholeEvents(es) && x != NOTHING
    ensures Balanced(Run(slots, m, es), m, x)
  {
    if es == [] {
      NothingCopied(slots, x, 0, m);
    } else {
      RunBalances(slots, m, es[..|es| - 1], x);
      var p := Run(slots, m, es[..|es| - 1]);
      match es[|es| - 1]
      case Sample(l) => SampleBalances(p, l, m, x);
      case Read =>
        CirclesStayAligned(slots, m, es[..|es| - 1]);
        ReadBalances(p, m, x);
    }
  }

  /** Over every run of samples and drains in any order: each sample taken has been printed
      whole exactly once, is still in the reader's circle, or was lost. */
  lemma NothingPrintedTwice(slots: nat, m: nat, es: seq<Event>, x: Line)
    requires 0 < m < slots && WholeEvents(es) && Whole(x)
    ensures var p := Run(slots, m, es);
            multiset(p.taken)[x] == multiset(p.printed)[x] + multiset(Stored(p.b, 0, m))[x] + multiset(p.lost)[x]
  {
    var p := Run(slots, m, es);
    RunBalances(slots, m, es, x);
    StoredCopies(p.b, x, 0, m);
    CountIsMultiplicity(p.taken, x);
    CountIsMultiplicity(p.printed, x);
    CountIsMultiplicity(Stored(p.b, 0, m), x);
    CountIsMultiplicity(p.lost, x);
  }
}
