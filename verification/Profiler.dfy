/** The profiler's circular buffer and the program that drains it. Words are unsigned
    long; the word with all bits set, -1, marks an empty place. */
module Profiler {
  import Loads
  import opened Options

  const EMPTY := -1

  /** The producer's capacity in words and the reader's, as configured; a record is four words. */
  const MEM_BUFFER_CAP := 65536
  const BUFD_MAX := 48000

  /** One sample: jiffies, minor faults, major faults and cpu time. A drain prints one
      such line, whatever words it finds. */
  datatype Line = Line(w0: int, w1: int, w2: int, w3: int)

  /** No word of a whole record reads as empty. */
  predicate Whole(l: Line) {
    l.w0 != EMPTY && l.w1 != EMPTY && l.w2 != EMPTY && l.w3 != EMPTY
  }

  // ---- The producer ----

  function Write(b: seq<int>, i: nat, l: Line): (r: seq<int>)
    requires i + 4 <= |b|
    ensures |r| == |b|
  {
    b[i := l.w0][i + 1 := l.w1][i + 2 := l.w2][i + 3 := l.w3]
  }

  function Advance(i: nat, cap: nat): nat {
    if i + 4 >= cap then 0 else i + 4
  }

  class Buffer {
    const words: array<int>
    var profilerIdx: nat

    ghost predicate Valid()
      reads this
    {
      words.Length % 4 == 0 && profilerIdx % 4 == 0 && profilerIdx < words.Length
    }

    constructor (cap: nat)
      requires cap > 0 && cap % 4 == 0
      ensures Valid() && fresh(words) && words[..] == Blank(cap) && profilerIdx == 0
      ensures forall i :: 0 <= i < words.Length ==> words[i] == -1
    {
      words := new int[cap](_ => EMPTY);
      profilerIdx := 0;
    }

    method Record(l: Line)
      requires Valid()
      modifies this, words
      ensures Valid()
      ensures words[..] == Write(old(words[..]), old(profilerIdx), l)
      ensures profilerIdx == Advance(old(profilerIdx), words.Length)
    {
      words[profilerIdx] := l.w0;
      profilerIdx := profilerIdx + 1;
      words[profilerIdx] := l.w1;
      profilerIdx := profilerIdx + 1;
      words[profilerIdx] := l.w2;
      profilerIdx := profilerIdx + 1;
      words[profilerIdx] := l.w3;
      profilerIdx := profilerIdx + 1;
      if profilerIdx >= words.Length {
        profilerIdx := 0;
      }
    }
  }

  function Blank(cap: nat): (b: seq<int>)
    ensures |b| == cap && forall i :: 0 <= i < cap ==> b[i] == EMPTY
  {
    seq(cap, _ => EMPTY)
  }

  /** The write position after the samples `h`. */
  function IndexAfter(h: seq<Line>, slots: nat): (i: nat)
    requires slots > 0
    ensures i % 4 == 0 && i + 4 <= 4 * slots
  {
    if h == [] then 0 else Advance(IndexAfter(h[..|h| - 1], slots), 4 * slots)
  }

  /** The buffer of `slots` records after the samples `h`, with no drain. */
  function BufferAfter(h: seq<Line>, slots: nat): (b: seq<int>)
    requires slots > 0
    ensures |b| == 4 * slots
  {
    if h == [] then Blank(4 * slots)
    else Write(BufferAfter(h[..|h| - 1], slots), IndexAfter(h[..|h| - 1], slots), h[|h| - 1])
  }

  /** The newest sample whose number is r modulo the number of slots. */
  function Newest(h: seq<Line>, slots: nat, r: nat): Option<Line>
    requires slots > 0
  {
    if h == [] then None
    else if (|h| - 1) % slots == r then Some(h[|h| - 1])
    else Newest(h[..|h| - 1], slots, r)
  }

  predicate Holds(b: seq<int>, r: nat, l: Line)
    requires 4 * r + 4 <= |b|
  {
    b[4 * r] == l.w0 && b[4 * r + 1] == l.w1 && b[4 * r + 2] == l.w2 && b[4 * r + 3] == l.w3
  }

  lemma ModStep(n: nat, m: nat)
    requires m > 0
    ensures (n + 1) % m == if n % m + 1 == m then 0 else n % m + 1
  {
    var q, r := n / m, n % m;
    if r + 1 == m {
      ModIs(n + 1, m, q + 1, 0);
    } else {
      ModIs(n + 1, m, q, r + 1);
    }
  }

  lemma ModIs(n: nat, m: nat, q: nat, r: nat)
    requires r < m && n == q * m + r
    ensures n % m == r
  {
    var d := n / m - q;
    assert d * m == r - n % m;
    Loads.MulOrder(1, d, m);
    Loads.MulOrder(d, -1, m);
  }

  lemma AdvanceOfSlot(r: nat, slots: nat)
    requires r < slots
    ensures Advance(4 * r, 4 * slots) == 4 * if r + 1 == slots then 0 else r + 1
  {
  }

  lemma {:induction false} IndexIsSampleCount(h: seq<Line>, slots: nat)
    requires slots > 0
    ensures IndexAfter(h, slots) == 4 * (|h| % slots)
  {
    if h != [] {
      var n := |h| - 1;
      IndexIsSampleCount(h[..n], slots);
      ModStep(n, slots);
      AdvanceOfSlot(n % slots, slots);
    }
  }

  /** The buffer refines the sample history: record slot r holds exactly the newest sample
      whose number is r modulo the slot count, and only empty words if there is none. */
  lemma {:induction false} BufferRefinesHistory(h: seq<Line>, slots: nat, r: nat)
    requires r < slots
    ensures var newest := Newest(h, slots, r);
            Holds(BufferAfter(h, slots), r, if newest == None then Line(EMPTY, EMPTY, EMPTY, EMPTY) else newest.value)
  {
    if h != [] {
      BufferRefinesHistory(h[..|h| - 1], slots, r);
      IndexIsSampleCount(h[..|h| - 1], slots);
    }
  }

  /** `Newest` is what it says: the last i < n with i mod slots = r. */
  lemma {:induction false} NewestIsLast(h: seq<Line>, slots: nat, r: nat, i: nat)
    requires slots > 0 && i < |h| && i % slots == r
    requires forall j :: i < j < |h| ==> j % slots != r
    ensures Newest(h, slots, r) == Some(h[i])
  {
    if i < |h| - 1 {
      NewestIsLast(h[..|h| - 1], slots, r, i);
    }
  }

  lemma {:induction false} NoneIsNewest(h: seq<Line>, slots: nat, r: nat)
    requires slots > 0 && forall j :: 0 <= j < |h| ==> j % slots != r
    ensures Newest(h, slots, r) == None
  {
    if h != [] {
      NoneIsNewest(h[..|h| - 1], slots, r);
    }
  }
}
