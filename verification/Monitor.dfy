/** The reader: finds the first word in use, then prints and erases four words at a time
    around its own, smaller, circle until it meets an empty word. */
module Monitor {
  import opened Profiler

  /** The words in use. */
  function InUse(b: seq<int>): nat {
    if b == [] then 0 else (if b[0] != EMPTY then 1 else 0) + InUse(b[1..])
  }

  lemma {:induction false} Erase(b: seq<int>, i: nat)
    requires i < |b|
    ensures InUse(b[i := EMPTY]) == InUse(b) - (if b[i] != EMPTY then 1 else 0)
  {
    if i > 0 {
      Erase(b[1..], i - 1);
      assert b[i := EMPTY][1..] == b[1..][i - 1 := EMPTY];
    }
  }

  /** The index after `i`: the reader wraps at its own capacity `r`. */
  function Next(i: nat, r: nat): nat {
    if i + 1 >= r then 0 else i + 1
  }

  /** The first word in use below r, from i on, or r. */
  function Scan(b: seq<int>, r: nat, i: nat): (k: nat)
    requires i <= r <= |b|
    ensures i <= k <= r
    ensures forall j :: i <= j < k ==> b[j] == EMPTY
    ensures k < r ==> b[k] != EMPTY
    decreases r - i
  {
    if i == r || b[i] != EMPTY then i else Scan(b, r, i + 1)
  }

  datatype Outcome = Outcome(lines: seq<Line>, b: seq<int>)

  /** One turn of the loop: what it prints, what it leaves, and where it stops. */
  datatype Turn = Turn(line: Line, b: seq<int>, index: nat)

  function OneTurn(b: seq<int>, r: nat, i: nat): (t: Turn)
    requires 0 < r < |b| && i <= r
    ensures |t.b| == |b| && t.index < r
  {
    var i1 := Next(i, r);
    var b1 := b[i := EMPTY];
    var i2 := Next(i1, r);
    var b2 := b1[i1 := EMPTY];
    var i3 := Next(i2, r);
    var b3 := b2[i2 := EMPTY];
    Turn(Line(b[i], b1[i1], b2[i2], b3[i3]), b3[i3 := EMPTY], Next(i3, r))
  }

  /** Every turn of the loop erases the word it found in use, so the loop ends, whatever
      the buffer holds. */
  lemma TurnErases(b: seq<int>, r: nat, i: nat)
    requires 0 < r < |b| && i <= r && b[i] != EMPTY
    ensures InUse(OneTurn(b, r, i).b) < InUse(b)
  {
    var i1 := Next(i, r);
    var i2 := Next(i1, r);
    var i3 := Next(i2, r);
    var b1 := b[i := EMPTY];
    var b2 := b1[i1 := EMPTY];
    var b3 := b2[i2 := EMPTY];
    Erase(b, i);
    Erase(b1, i1);
    Erase(b2, i2);
    Erase(b3, i3);
  }

  function DrainFrom(b: seq<int>, r: nat, i: nat): (o: Outcome)
    requires 0 < r < |b| && i <= r
    ensures |o.b| == |b|
    decreases InUse(b)
  {
    if b[i] == EMPTY then Outcome([], b)
    else
      TurnErases(b, r, i);
      var t := OneTurn(b, r, i);
      var rest := DrainFrom(t.b, r, t.index);
      Outcome([t.line] + rest.lines, rest.b)
  }

  function Drain(b: seq<int>, r: nat): (o: Outcome)
    requires 0 < r < |b|
    ensures |o.b| == |b|
  {
    DrainFrom(b, r, Scan(b, r, 0))
  }

  /** The body of the drain loop: four words read, erased and stepped over, each with its own wrap. */
  method PrintRecord(buf: array<int>, r: nat, i: nat) returns (line: Line, index: nat)
    requires 0 < r < buf.Length && i <= r
    modifies buf
    ensures Turn(line, buf[..], index) == OneTurn(old(buf[..]), r, i)
  {
    index := i;
    var w0 := buf[index];
    buf[index] := EMPTY;
    index := index + 1;
    if index >= r { index := 0; }
    var w1 := buf[index];
    buf[index] := EMPTY;
    index := index + 1;
    if index >= r { index := 0; }
    var w2 := buf[index];
    buf[index] := EMPTY;
    index := index + 1;
    if index >= r { index := 0; }
    var w3 := buf[index];
    buf[index] := EMPTY;
    index := index + 1;
    if index >= r { index := 0; }
    line := Line(w0, w1, w2, w3);
  }

  method FirstInUse(buf: array<int>, r: nat) returns (index: nat)
    requires r <= buf.Length
    ensures index == Scan(buf[..], r, 0)
  {
    index := 0;
    while index < r
      invariant index <= r
      invariant Scan(buf[..], r, index) == Scan(buf[..], r, 0)
    {
      if buf[index] != EMPTY { break; }
      index := index + 1;
    }
  }

  /** main: the reader's capacity `r` lies within the mapped buffer. */
  method PrintAll(buf: array<int>, r: nat) returns (lines: seq<Line>)
    requires 0 < r < buf.Length
    modifies buf
    ensures Outcome(lines, buf[..]) == Drain(old(buf[..]), r)
  {
    var index := FirstInUse(buf, r);
    ghost var all := Drain(buf[..], r);
    lines := [];
    while buf[index] != EMPTY
      invariant 0 <= index <= r
      invariant all.b == DrainFrom(buf[..], r, index).b
      invariant all.lines == lines + DrainFrom(buf[..], r, index).lines
      decreases InUse(buf[..])
    {
      TurnErases(buf[..], r, index);
      var line;
      line, index := PrintRecord(buf, r, index);
      lines := lines + [line];
    }
    assert lines + [] == lines;
  }

  // ---- Buffers of whole records ----

  function At(b: seq<int>, r: nat): Line
    requires 4 * r + 4 <= |b|
  {
    Line(b[4 * r], b[4 * r + 1], b[4 * r + 2], b[4 * r + 3])
  }

  const NOTHING := Line(EMPTY, EMPTY, EMPTY, EMPTY)

  /** The first m slots each hold a whole record or nothing. */
  predicate Aligned(b: seq<int>, m: nat) {
    4 * m <= |b| && forall r :: 0 <= r < m ==> At(b, r) == NOTHING || Whole(At(b, r))
  }

  /** The records in slots [from, m), in slot order. */
  function Stored(b: seq<int>, from: nat, m: nat): (ls: seq<Line>)
    requires from <= m && 4 * m <= |b|
    decreases m - from
  {
    if from == m then []
    else (if At(b, from) == NOTHING then [] else [At(b, from)]) + Stored(b, from + 1, m)
  }

  lemma StoredStep(b: seq<int>, from: nat, m: nat)
    requires from < m && 4 * m <= |b|
    ensures Stored(b, from, m) == (if At(b, from) == NOTHING then [] else [At(b, from)]) + Stored(b, from + 1, m)
  {
  }

  lemma {:induction false} StoredDepends(b: seq<int>, c: seq<int>, from: nat, m: nat)
    requires from <= m && 4 * m <= |b| && |c| == |b|
    requires forall k :: 4 * from <= k < 4 * m ==> b[k] == c[k]
    ensures Stored(b, from, m) == Stored(c, from, m)
    decreases m - from
  {
    if from < m {
      StoredDepends(b, c, from + 1, m);
      StoredStep(b, from, m);
      StoredStep(c, from, m);
      assert At(b, from) == At(c, from);
    }
  }

  lemma {:induction false} StoredNothing(b: seq<int>, from: nat, mid: nat, m: nat)
    requires from <= mid <= m && 4 * m <= |b| && forall r :: from <= r < mid ==> At(b, r) == NOTHING
    ensures Stored(b, from, m) == Stored(b, mid, m)
    decreases mid - from
  {
    if from < mid {
      StoredNothing(b, from + 1, mid, m);
      StoredStep(b, from, m);
      assert At(b, from) == NOTHING;
    }
  }

  predicate EmptyBefore(b: seq<int>, r: nat)
    requires 4 * r <= |b|
  {
    forall k :: 0 <= k < 4 * r ==> b[k] == EMPTY
  }

  function EraseSlot(b: seq<int>, r: nat): (c: seq<int>)
    requires 4 * r + 4 <= |b|
    ensures |c| == |b|
    ensures forall k :: 0 <= k < |b| ==> c[k] == if 4 * r <= k < 4 * r + 4 then EMPTY else b[k]
  {
    b[4 * r := EMPTY][4 * r + 1 := EMPTY][4 * r + 2 := EMPTY][4 * r + 3 := EMPTY]
  }

  lemma EraseTwo(b: seq<int>, i: nat)
    requires i + 1 < |b| && b[i] != EMPTY && b[i + 1] != EMPTY
    ensures InUse(b[i := EMPTY][i + 1 := EMPTY]) + 2 == InUse(b)
  {
    Erase(b, i);
    Erase(b[i := EMPTY], i + 1);
  }

  lemma EraseSlotInUse(b: seq<int>, r: nat)
    requires 4 * r + 4 <= |b| && Whole(At(b, r))
    ensures InUse(EraseSlot(b, r)) + 4 == InUse(b)
  {
    var i := 4 * r;
    EraseTwo(b, i);
    EraseTwo(b[i := EMPTY][i + 1 := EMPTY], i + 2);
  }

  /** One turn at a slot boundary prints that slot and erases it. */
  lemma TurnAtSlot(b: seq<int>, m: nat, r: nat)
    requires r < m && 4 * m < |b|
    ensures OneTurn(b, 4 * m, 4 * r) == Turn(At(b, r), EraseSlot(b, r), if r + 1 == m then 0 else 4 * (r + 1))
  {
  }

  lemma EraseSlotStored(b: seq<int>, m: nat, r: nat)
    requires r < m && 4 * m <= |b| && EmptyBefore(b, r) && At(b, r) != NOTHING
    ensures Stored(b, 0, m) == [At(b, r)] + Stored(EraseSlot(b, r), 0, m)
  {
    var c := EraseSlot(b, r);
    StoredNothing(b, 0, r, m);
    StoredNothing(c, 0, r + 1, m);
    StoredDepends(b, c, r + 1, m);
  }

  lemma EraseSlotAligned(b: seq<int>, m: nat, r: nat)
    requires r < m && Aligned(b, m)
    ensures Aligned(EraseSlot(b, r), m)
  {
    var c := EraseSlot(b, r);
    forall q | 0 <= q < m ensures At(c, q) == NOTHING || Whole(At(c, q)) {
      assert At(b, q) == NOTHING || Whole(At(b, q));
    }
  }

  /** What a drain of whole records achieves: it prints whole records, in slot order; what
      it printed followed by what it leaves is what there was; it erases four words per
      line and touches nothing beyond the reader's capacity. */
  predicate DrainsRecords(b: seq<int>, o: Outcome, m: nat)
    requires 4 * m <= |b|
  {
    && |o.b| == |b| && Aligned(o.b, m)
    && (forall l :: l in o.lines ==> Whole(l))
    && Stored(b, 0, m) == o.lines + Stored(o.b, 0, m)
    && InUse(o.b) + 4 * |o.lines| == InUse(b)
    && forall k :: 4 * m <= k < |b| ==> o.b[k] == b[k]
  }

  lemma PrependLine(b: seq<int>, m: nat, r: nat, rest: Outcome)
    requires r < m && 4 * m <= |b| && EmptyBefore(b, r) && Whole(At(b, r))
    requires DrainsRecords(EraseSlot(b, r), rest, m)
    ensures DrainsRecords(b, Outcome([At(b, r)] + rest.lines, rest.b), m)
  {
    EraseSlotInUse(b, r);
    EraseSlotStored(b, m, r);
    assert [At(b, r)] + (rest.lines + Stored(rest.b, 0, m)) == ([At(b, r)] + rest.lines) + Stored(rest.b, 0, m);
  }

  /** The records of the slots from r to the first empty one. */
  function RunFrom(b: seq<int>, r: nat, m: nat): (ls: seq<Line>)
    requires r <= m && 4 * m <= |b|
    ensures r + |ls| <= m
    decreases m - r
  {
    if r == m || At(b, r) == NOTHING then [] else [At(b, r)] + RunFrom(b, r + 1, m)
  }

  lemma {:induction false} RunDepends(b: seq<int>, c: seq<int>, r: nat, m: nat)
    requires r <= m && 4 * m <= |b| && |c| == |b|
    requires forall k :: 4 * r <= k < 4 * m ==> b[k] == c[k]
    ensures RunFrom(b, r, m) == RunFrom(c, r, m)
    decreases m - r
  {
    if r < m {
      RunDepends(b, c, r + 1, m);
    }
  }

  /** `c` is `b` with every word below 4 * e erased. */
  predicate ErasedBelow(b: seq<int>, c: seq<int>, e: nat) {
    |c| == |b| && forall k :: 0 <= k < |b| ==> c[k] == if k < 4 * e then EMPTY else b[k]
  }

  lemma ErasedAlready(b: seq<int>, r: nat, e: nat, c: seq<int>)
    requires r < e && 4 * e <= |b| && EmptyBefore(b, r)
    requires ErasedBelow(EraseSlot(b, r), c, e)
    ensures ErasedBelow(b, c, e)
  {
  }

  /** Where the reader stands after slot r - 1. */
  function Start(r: nat, m: nat): nat {
    if r == m then 0 else 4 * r
  }

  lemma DrainTakesSlot(b: seq<int>, m: nat, r: nat)
    requires r < m && 4 * m < |b| && Whole(At(b, r))
    ensures var rest := DrainFrom(EraseSlot(b, r), 4 * m, Start(r + 1, m));
            DrainFrom(b, 4 * m, Start(r, m)) == Outcome([At(b, r)] + rest.lines, rest.b)
  {
    TurnAtSlot(b, m, r);
  }

  lemma DrainStops(b: seq<int>, m: nat, r: nat)
    requires r <= m && 0 < m && 4 * m < |b| && EmptyBefore(b, r)
    requires r == m || At(b, r) == NOTHING
    ensures DrainFrom(b, 4 * m, Start(r, m)) == Outcome([], b)
  {
    assert b[Start(r, m)] == EMPTY;
  }

  lemma RecordsStop(b: seq<int>, m: nat, r: nat)
    requires r <= m && 0 < m && 4 * m < |b| && Aligned(b, m) && EmptyBefore(b, r)
    requires r == m || At(b, r) == NOTHING
    ensures DrainsRecords(b, DrainFrom(b, 4 * m, Start(r, m)), m)
  {
    DrainStops(b, m, r);
    assert Stored(b, 0, m) == [] + Stored(b, 0, m);
  }

  lemma RecordsGoOn(b: seq<int>, m: nat, r: nat)
    requires r < m && 4 * m < |b| && EmptyBefore(b, r) && Whole(At(b, r))
    requires DrainsRecords(EraseSlot(b, r), DrainFrom(EraseSlot(b, r), 4 * m, Start(r + 1, m)), m)
    ensures DrainsRecords(b, DrainFrom(b, 4 * m, Start(r, m)), m)
  {
    DrainTakesSlot(b, m, r);
    PrependLine(b, m, r, DrainFrom(EraseSlot(b, r), 4 * m, Start(r + 1, m)));
  }

  lemma NextSlot(b: seq<int>, m: nat, r: nat)
    requires r < m && Aligned(b, m) && EmptyBefore(b, r) && At(b, r) != NOTHING
    ensures Whole(At(b, r)) && Aligned(EraseSlot(b, r), m) && EmptyBefore(EraseSlot(b, r), r + 1)
  {
    EraseSlotAligned(b, m, r);
  }

  /** A drain that starts at a slot with nothing in use before it, or has come round. */
  lemma {:induction false} DrainFromSlot(b: seq<int>, m: nat, r: nat)
    requires r <= m && 0 < m && 4 * m < |b| && Aligned(b, m) && EmptyBefore(b, r)
    ensures DrainsRecords(b, DrainFrom(b, 4 * m, Start(r, m)), m)
    decreases m - r
  {
    if r == m || At(b, r) == NOTHING {
      RecordsStop(b, m, r);
    } else {
      NextSlot(b, m, r);
      DrainFromSlot(EraseSlot(b, r), m, r + 1);
      RecordsGoOn(b, m, r);
    }
  }

  /** The outcome prints exactly the run that starts at slot r, and erases exactly that. */
  predicate TakesRun(b: seq<int>, o: Outcome, m: nat, r: nat)
    requires r <= m && 4 * m <= |b|
  {
    o.lines == RunFrom(b, r, m) && ErasedBelow(b, o.b, r + |o.lines|)
  }

  lemma NoRun(b: seq<int>, m: nat, r: nat)
    requires r <= m && 4 * m <= |b| && EmptyBefore(b, r)
    requires r == m || At(b, r) == NOTHING
    ensures TakesRun(b, Outcome([], b), m, r)
  {
    assert RunFrom(b, r, m) == [];
  }

  lemma PrependToRun(b: seq<int>, rest: Outcome, m: nat, r: nat)
    requires r < m && 4 * m <= |b| && EmptyBefore(b, r) && At(b, r) != NOTHING
    requires TakesRun(EraseSlot(b, r), rest, m, r + 1)
    ensures TakesRun(b, Outcome([At(b, r)] + rest.lines, rest.b), m, r)
  {
    RunDepends(b, EraseSlot(b, r), r + 1, m);
    ErasedAlready(b, r, r + 1 + |rest.lines|, rest.b);
  }

  lemma RunStops(b: seq<int>, m: nat, r: nat)
    requires r <= m && 0 < m && 4 * m < |b| && EmptyBefore(b, r)
    requires r == m || At(b, r) == NOTHING
    ensures TakesRun(b, DrainFrom(b, 4 * m, Start(r, m)), m, r)
  {
    DrainStops(b, m, r);
    NoRun(b, m, r);
  }

  lemma RunGoesOn(b: seq<int>, m: nat, r: nat)
    requires r < m && 4 * m < |b| && EmptyBefore(b, r) && Whole(At(b, r))
    requires TakesRun(EraseSlot(b, r), DrainFrom(EraseSlot(b, r), 4 * m, Start(r + 1, m)), m, r + 1)
    ensures TakesRun(b, DrainFrom(b, 4 * m, Start(r, m)), m, r)
  {
    DrainTakesSlot(b, m, r);
    PrependToRun(b, DrainFrom(EraseSlot(b, r), 4 * m, Start(r + 1, m)), m, r);
  }

  lemma {:induction false} DrainsRun(b: seq<int>, m: nat, r: nat)
    requires r <= m && 0 < m && 4 * m < |b| && Aligned(b, m) && EmptyBefore(b, r)
    ensures TakesRun(b, DrainFrom(b, 4 * m, Start(r, m)), m, r)
    decreases m - r
  {
    if r == m || At(b, r) == NOTHING {
      RunStops(b, m, r);
    } else {
      NextSlot(b, m, r);
      DrainsRun(EraseSlot(b, r), m, r + 1);
      RunGoesOn(b, m, r);
    }
  }

  // ---- One drain ----

  lemma ScanFindsSlot(b: seq<int>, m: nat)
    requires Aligned(b, m) && 4 * m <= |b|
    ensures var k := Scan(b, 4 * m, 0);
            && k % 4 == 0 && EmptyBefore(b, k / 4)
            && (k < 4 * m ==> Whole(At(b, k / 4)))
  {
    var k := Scan(b, 4 * m, 0);
    if k < 4 * m {
      var r := k / 4;
      assert At(b, r) == NOTHING || Whole(At(b, r));
      assert k == 4 * r || k == 4 * r + 1 || k == 4 * r + 2 || k == 4 * r + 3;
    }
  }

  lemma {:induction false} StoredIsEmptyIff(b: seq<int>, r: nat, m: nat)
    requires r <= m && 4 * m <= |b|
    ensures Stored(b, r, m) == [] <==> forall q :: r <= q < m ==> At(b, q) == NOTHING
    decreases m - r
  {
    if r < m {
      StoredIsEmptyIff(b, r + 1, m);
      if At(b, r) != NOTHING {
        assert Stored(b, r, m) != [];
      } else {
        assert Stored(b, r, m) == Stored(b, r + 1, m);
      }
    }
  }

  /** The reader runs off its own circle exactly when nothing is stored in it: it then
      starts at the word just beyond, prints it with three empty words, and erases it. */
  lemma DrainOfNothing(b: seq<int>, m: nat)
    requires 0 < m && 4 * m < |b| && Scan(b, 4 * m, 0) == 4 * m
    ensures Drain(b, 4 * m)
            == if b[4 * m] == EMPTY then Outcome([], b)
               else Outcome([Line(b[4 * m], EMPTY, EMPTY, EMPTY)], b[4 * m := EMPTY])
  {
    if b[4 * m] != EMPTY {
      var c := b[4 * m := EMPTY];
      assert c[0 := EMPTY] == c && c[1 := EMPTY] == c && c[2 := EMPTY] == c;
      assert OneTurn(b, 4 * m, 4 * m) == Turn(Line(b[4 * m], EMPTY, EMPTY, EMPTY), c, 3);
      assert DrainFrom(c, 4 * m, 3) == Outcome([], c);
    }
  }

  predicate SomethingToDrain(b: seq<int>, m: nat)
    requires 4 * m < |b|
  {
    Stored(b, 0, m) != [] || b[4 * m] == EMPTY
  }

  lemma ConservesNothing(b: seq<int>, m: nat)
    requires Aligned(b, m) && 0 < m && 4 * m < |b| && SomethingToDrain(b, m) && Scan(b, 4 * m, 0) == 4 * m
    ensures DrainsRecords(b, Drain(b, 4 * m), m) && Stored(b, 0, m) == []
  {
    StoredIsEmptyIff(b, 0, m);
    DrainOfNothing(b, m);
    forall q | 0 <= q < m ensures At(b, q) == NOTHING {}
  }

  lemma LinesOfDrain(b: seq<int>, m: nat, r: nat)
    requires r < m && 4 * m < |b| && Whole(At(b, r))
    ensures DrainFrom(b, 4 * m, 4 * r).lines != []
  {
    DrainTakesSlot(b, m, r);
  }

  /** A drain of whole records prints only whole records, in slot order, loses none and
      leaves the rest, except when its circle is empty and the word beyond is in use. */
  lemma DrainConserves(b: seq<int>, m: nat)
    requires Aligned(b, m) && 0 < m && 4 * m < |b| && SomethingToDrain(b, m)
    ensures DrainsRecords(b, Drain(b, 4 * m), m)
    ensures Stored(b, 0, m) != [] ==> Drain(b, 4 * m).lines != []
  {
    var k := Scan(b, 4 * m, 0);
    ScanFindsSlot(b, m);
    if k < 4 * m {
      assert k == 4 * (k / 4);
      DrainFromSlot(b, m, k / 4);
      LinesOfDrain(b, m, k / 4);
    } else {
      ConservesNothing(b, m);
    }
  }

  lemma NothingStoredScan(b: seq<int>, m: nat)
    requires 4 * m <= |b| && forall r :: 0 <= r < m ==> At(b, r) == NOTHING
    ensures Scan(b, 4 * m, 0) == 4 * m
  {
    forall k | 0 <= k < 4 * m ensures b[k] == EMPTY {
      assert At(b, k / 4) == NOTHING;
      assert k == 4 * (k / 4) || k == 4 * (k / 4) + 1 || k == 4 * (k / 4) + 2 || k == 4 * (k / 4) + 3;
    }
  }

  lemma PrintsWholeRecordsIff(b: seq<int>, m: nat)
    requires Aligned(b, m) && 0 < m && 4 * m < |b|
    ensures (forall l :: l in Drain(b, 4 * m).lines ==> Whole(l)) <==> SomethingToDrain(b, m)
  {
    if SomethingToDrain(b, m) {
      DrainConserves(b, m);
    } else {
      StoredIsEmptyIff(b, 0, m);
      NothingStoredScan(b, m);
      DrainOfNothing(b, m);
      assert Line(b[4 * m], EMPTY, EMPTY, EMPTY) in Drain(b, 4 * m).lines;
    }
  }

  // ---- Draining again and again ----

  function Drains(b: seq<int>, m: nat, n: nat): (o: Outcome)
    requires 0 < m && 4 * m < |b|
    ensures |o.b| == |b|
    decreases n
  {
    if n == 0 then Outcome([], b)
    else
      var first := Drain(b, 4 * m);
      var rest := Drains(first.b, m, n - 1);
      Outcome(first.lines + rest.lines, rest.b)
  }

  /** Some number of drains, no more than there are records, prints every record stored
      below the reader's capacity exactly once, in slot order, and leaves none. */
  lemma {:induction false} DrainsEmptyTheCircle(b: seq<int>, m: nat) returns (n: nat)
    requires Aligned(b, m) && 0 < m && 4 * m < |b|
    ensures n <= |Stored(b, 0, m)|
    ensures var o := Drains(b, m, n); o.lines == Stored(b, 0, m) && Stored(o.b, 0, m) == []
    decreases |Stored(b, 0, m)|
  {
    if Stored(b, 0, m) == [] {
      n := 0;
    } else {
      DrainConserves(b, m);
      var rest := DrainsEmptyTheCircle(Drain(b, 4 * m).b, m);
      n := rest + 1;
    }
  }

  // ---- Producer and reader together ----

  predicate WholeSamples(h: seq<Line>) {
    forall i :: 0 <= i < |h| ==> Whole(h[i])
  }

  lemma SmallMod(i: nat, m: nat)
    requires i < m
    ensures i % m == i
  {
    ModIs(i, m, 0, i);
  }

  /** Before the producer has come round, sample i is in slot i. */
  lemma FreshSlots(h: seq<Line>, slots: nat, r: nat)
    requires |h| <= slots && r < slots
    ensures At(BufferAfter(h, slots), r) == if r < |h| then h[r] else NOTHING
  {
    forall j | 0 <= j < |h| ensures j % slots == j { SmallMod(j, slots); }
    BufferRefinesHistory(h, slots, r);
    if r < |h| {
      NewestIsLast(h, slots, r, r);
    } else {
      NoneIsNewest(h, slots, r);
    }
  }

  lemma FreshAligned(h: seq<Line>, slots: nat, m: nat)
    requires |h| <= slots && m < slots && WholeSamples(h)
    ensures Aligned(BufferAfter(h, slots), m)
  {
    forall r | 0 <= r < m ensures var l := At(BufferAfter(h, slots), r); l == NOTHING || Whole(l) {
      FreshSlots(h, slots, r);
    }
  }

  /** The run from the first slot of a fresh buffer is what the reader can reach of it. */
  lemma {:induction false} FreshRun(b: seq<int>, h: seq<Line>, m: nat, r: nat, end: nat)
    requires r <= end && 4 * m <= |b| && WholeSamples(h) && end == if |h| <= m then |h| else m
    requires forall q :: 0 <= q < m ==> At(b, q) == if q < |h| then h[q] else NOTHING
    ensures RunFrom(b, r, m) == h[r..end]
    decreases m - r
  {
    if r < end {
      FreshRun(b, h, m, r + 1, end);
      assert At(b, r) == h[r] && h[r] in h;
      assert h[r..end] == [h[r]] + h[r + 1..end];
    } else if r < m {
      assert At(b, r) == NOTHING;
    }
  }

  lemma FreshStart(h: seq<Line>, slots: nat, m: nat)
    requires 0 < m < slots && 0 < |h| <= slots && WholeSamples(h)
    ensures Scan(BufferAfter(h, slots), 4 * m, 0) == 0
  {
    FreshSlots(h, slots, 0);
  }

  /** The first drain after the samples `h`, no more than the producer's slots, prints those
      that fit the reader's circle, in order, and erases exactly them. */
  lemma FirstDrain(h: seq<Line>, slots: nat, m: nat)
    requires 0 < m < slots && 0 < |h| <= slots && WholeSamples(h)
    ensures var b, o := BufferAfter(h, slots), Drain(BufferAfter(h, slots), 4 * m);
            o.lines == (if |h| <= m then h else h[..m]) && ErasedBelow(b, o.b, |o.lines|)
  {
    var b := BufferAfter(h, slots);
    FreshAligned(h, slots, m);
    FreshStart(h, slots, m);
    DrainsRun(b, m, 0);
    forall q | 0 <= q < m ensures At(b, q) == if q < |h| then h[q] else NOTHING { FreshSlots(h, slots, q); }
    FreshRun(b, h, m, 0, if |h| <= m then |h| else m);
    assert h[0..|h|] == h;
  }

  /** Sample then drain: k samples that fit the reader's circle, k = m included, are
      printed in order by one drain, which leaves every word of the buffer empty. */
  lemma SampleThenDrain(h: seq<Line>, slots: nat, m: nat)
    requires 0 < m < slots && |h| <= m && WholeSamples(h)
    ensures Drain(BufferAfter(h, slots), 4 * m) == Outcome(h, Blank(4 * slots))
  {
    var b := BufferAfter(h, slots);
    forall q | |h| <= q < slots ensures At(b, q) == NOTHING { FreshSlots(h, slots, q); }
    EmptyFrom(b, slots, |h|);
    if h == [] {
      assert b == Blank(4 * slots);
      DrainOfNothing(b, m);
    } else {
      FirstDrain(h, slots, m);
      assert Drain(b, 4 * m).b == Blank(4 * slots);
    }
  }

  /** As configured: up to 12000 samples. */
  lemma ConfiguredSampleThenDrain(h: seq<Line>, slots: nat, m: nat)
    requires slots == 16384 && m == 12000 && |h| <= m && WholeSamples(h)
    ensures Drain(BufferAfter(h, slots), BUFD_MAX) == Outcome(h, Blank(MEM_BUFFER_CAP))
  {
    assert BUFD_MAX == 4 * m && MEM_BUFFER_CAP == 4 * slots;
    SampleThenDrain(h, slots, m);
  }

  lemma EmptyFrom(b: seq<int>, slots: nat, n: nat)
    requires |b| == 4 * slots && n <= slots && forall q :: n <= q < slots ==> At(b, q) == NOTHING
    ensures forall k :: 4 * n <= k < 4 * slots ==> b[k] == EMPTY
  {
    forall k | 4 * n <= k < 4 * slots ensures b[k] == EMPTY {
      assert At(b, k / 4) == NOTHING;
      assert k == 4 * (k / 4) || k == 4 * (k / 4) + 1 || k == 4 * (k / 4) + 2 || k == 4 * (k / 4) + 3;
    }
  }

  /** The reader's circle is smaller than the producer's: once m samples have been taken
      and drained, sample m lies beyond the circle, and a drain prints only its first word,
      with three empty words, and erases that word. */
  lemma SamplesBeyondTheCircle(h: seq<Line>, slots: nat, m: nat)
    requires 0 < m < |h| <= slots && WholeSamples(h)
    ensures var o := Drain(Drain(BufferAfter(h, slots), 4 * m).b, 4 * m);
            o.lines == [Line(h[m].w0, EMPTY, EMPTY, EMPTY)]
  {
    var b := BufferAfter(h, slots);
    var c := Drain(b, 4 * m).b;
    FirstDrain(h, slots, m);
    FreshSlots(h, slots, m);
    assert c[4 * m] == At(b, m).w0;
    DrainOfNothing(c, m);
  }
}
