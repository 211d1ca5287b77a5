/** From the product of (1 + C/T) to a window the demand fits into with room to spare. */
module TimeDemand {
  import opened Loads
  import opened Sequences
  import opened UtilizationBound

  /** What a load contributes to a window ending at its anchor, its last release
      in the window: the quota of work released before. `factor` is 1 + C/T, by which
      the quota makes the anchor grow. */
  datatype Item = Item(factor: real, anchor: nat, quota: real)

  predicate Fair(i: Item) {
    i.factor >= 1.0 && i.quota >= 0.0 && i.anchor as real + i.quota == i.factor * i.anchor as real
  }

  function Quotas(s: seq<Item>): real {
    if s == [] then 0.0 else s[0].quota + Quotas(s[1..])
  }

  /** The quotas of the items anchored before `t`. */
  function QuotasBefore(s: seq<Item>, t: nat): real {
    if s == [] then 0.0 else (if s[0].anchor < t then s[0].quota else 0.0) + QuotasBefore(s[1..], t)
  }

  /** `base` multiplied by the factors of all items. */
  function Grown(base: real, s: seq<Item>): real {
    if s == [] then base else s[0].factor * Grown(base, s[1..])
  }

  /** No anchor lies beyond `base` plus the quotas anchored before it. */
  ghost predicate Crowded(s: seq<Item>, base: real) {
    forall i :: i in s ==> i.anchor as real <= base + QuotasBefore(s, i.anchor)
  }

  lemma {:induction false} QuotasWithout(s: seq<Item>, k: nat, t: nat)
    requires k < |s|
    ensures Quotas(s) == Quotas(Unlink(s, k)) + s[k].quota
    ensures QuotasBefore(s, t) == QuotasBefore(Unlink(s, k), t) + if s[k].anchor < t then s[k].quota else 0.0
  {
    if k == 0 {
      assert Unlink(s, 0) == s[1..];
    } else {
      QuotasWithout(s[1..], k - 1, t);
      assert Unlink(s, k)[1..] == Unlink(s[1..], k - 1);
    }
  }

  lemma {:induction false} GrownWithout(base: real, s: seq<Item>, k: nat)
    requires k < |s|
    ensures Grown(base, s) == s[k].factor * Grown(base, Unlink(s, k))
  {
    if k == 0 {
      assert Unlink(s, 0) == s[1..];
    } else {
      GrownWithout(base, s[1..], k - 1);
      assert Unlink(s, k)[1..] == Unlink(s[1..], k - 1);
      SwapFactors(s[0].factor, s[k].factor, Grown(base, Unlink(s, k)[1..]));
    }
  }

  lemma SwapFactors(f: real, g: real, rest: real)
    ensures f * (g * rest) == g * (f * rest)
  {
  }

  lemma {:induction false} BeforeIsPart(s: seq<Item>, t: nat)
    requires forall i :: i in s ==> Fair(i)
    ensures 0.0 <= QuotasBefore(s, t) <= Quotas(s)
  {
    if s != [] {
      assert Fair(s[0]);
      BeforeIsPart(s[1..], t);
    }
  }

  function Latest(s: seq<Item>): (k: nat)
    requires s != []
    ensures k < |s|
    ensures forall i :: i in s ==> i.anchor <= s[k].anchor
  {
    if |s| == 1 then 0
    else
      var k := 1 + Latest(s[1..]);
      assert forall i :: i in s ==> i == s[0] || i in s[1..];
      if s[0].anchor <= s[k].anchor then k else 0
  }

  lemma CrowdedWithout(s: seq<Item>, k: nat, base: real)
    requires k < |s| && Crowded(s, base) && forall i :: i in s ==> Fair(i)
    requires forall i :: i in s ==> i.anchor <= s[k].anchor
    ensures Crowded(Unlink(s, k), base)
    ensures s[k].anchor as real <= base + Quotas(Unlink(s, k))
  {
    forall i | i in Unlink(s, k)
      ensures i.anchor as real <= base + QuotasBefore(Unlink(s, k), i.anchor)
    {
      QuotasWithout(s, k, i.anchor);
    }
    QuotasWithout(s, k, s[k].anchor);
    BeforeIsPart(Unlink(s, k), s[k].anchor);
  }

  /** In a crowded sequence the quotas grow `base` by at most the product of the factors.
      Items are taken out latest anchor first, so what is anchored before the others
      does not change. */
  lemma {:induction false} Chain(s: seq<Item>, base: real)
    requires (forall i :: i in s ==> Fair(i)) && Crowded(s, base)
    ensures base + Quotas(s) <= Grown(base, s)
    decreases |s|
  {
    if s != [] {
      var k := Latest(s);
      CrowdedWithout(s, k, base);
      Chain(Unlink(s, k), base);
      ChainTake(s, k, base);
    }
  }

  lemma ChainTake(s: seq<Item>, k: nat, base: real)
    requires k < |s| && Fair(s[k]) && s[k].anchor as real <= base + Quotas(Unlink(s, k))
    requires base + Quotas(Unlink(s, k)) <= Grown(base, Unlink(s, k))
    ensures base + Quotas(s) <= Grown(base, s)
  {
    GrownWithout(base, s, k);
    QuotasWithout(s, k, 0);
    ChainStep(s[k], base + Quotas(Unlink(s, k)), Grown(base, Unlink(s, k)));
  }

  lemma ChainStep(i: Item, sum: real, bound: real)
    requires Fair(i) && i.anchor as real <= sum <= bound
    ensures sum + i.quota <= i.factor * bound
  {
    UtilizationBound.MulOrder(sum, bound, i.factor);
    UtilizationBound.MulOrder(1.0, i.factor, sum - i.anchor as real);
  }

  lemma {:induction false} GrownScales(base: real, s: seq<Item>)
    ensures Grown(base, s) == base * Grown(1.0, s)
  {
    if s != [] {
      GrownScales(base, s[1..]);
      SwapFactors(s[0].factor, base, Grown(1.0, s[1..]));
    }
  }

  lemma DoublingTakesTwo(base: real, product: real, grown: real)
    requires base > 0.0 && base + base <= grown == base * product
    ensures product >= 2.0
  {
    UtilizationBound.MulOrder(product, 2.0 - (2.0 - product), base);
  }

  /** Items whose own quotas leave no anchor free have factors that multiply to at least 2. */
  lemma CrowdedTakesTwo(s: seq<Item>)
    requires (forall i :: i in s ==> Fair(i)) && Quotas(s) > 0.0 && Crowded(s, Quotas(s))
    ensures Grown(1.0, s) >= 2.0
  {
    Chain(s, Quotas(s));
    GrownScales(Quotas(s), s);
    DoublingTakesTwo(Quotas(s), Grown(1.0, s), Grown(Quotas(s), s));
  }

  // ---- Loads as items ----

  /** The last release of `l` at or before `top` when it is released at 0: floor(top/T) * T. */
  function Anchored(l: Load, top: nat): (i: Item)
    requires l.period <= top
    ensures i.factor == 1.0 + Util(l) && 0 < i.anchor <= top
  {
    assert top / l.period >= 1;
    Item(1.0 + Util(l), top / l.period * l.period, (top / l.period * l.cost) as real)
  }

  predicate Within(s: seq<Load>, top: nat) {
    forall l :: l in s ==> l.period <= top
  }

  function Items(s: seq<Load>, top: nat): (r: seq<Item>)
    requires Within(s, top)
    ensures forall i :: i in r ==> 0 < i.anchor <= top
  {
    if s == [] then [] else [Anchored(s[0], top)] + Items(s[1..], top)
  }

  lemma {:induction false} ItemsAreFair(s: seq<Load>, top: nat)
    requires Within(s, top)
    ensures forall i :: i in Items(s, top) ==> Fair(i)
  {
    if s != [] {
      ItemsAreFair(s[1..], top);
      AnchoredIsFair(s[0], top);
    }
  }

  lemma AnchoredIsFair(l: Load, top: nat)
    requires l.period <= top
    ensures Fair(Anchored(l, top))
  {
    var q, u, p := (top / l.period) as real, Util(l), l.period as real;
    assert u * p == l.cost as real;
    assert q * (u * p) == u * (q * p);
  }

  lemma {:induction false} GrownIsProduct(items: seq<Item>, us: seq<real>)
    requires |items| == |us| && forall i :: 0 <= i < |us| ==> items[i].factor == 1.0 + us[i]
    ensures Grown(1.0, items) == Product(us)
  {
    if us != [] {
      GrownIsProduct(items[1..], us[1..]);
    }
  }

  lemma {:induction false} ItemFactors(s: seq<Load>, top: nat)
    requires Within(s, top)
    ensures |Items(s, top)| == |s|
    ensures forall i :: 0 <= i < |s| ==> Items(s, top)[i].factor == 1.0 + Util(s[i])
  {
    if s != [] {
      ItemFactors(s[1..], top);
    }
  }

  /** A load anchored at or after t has used at most its quota by t; any other, at most twice that. */
  lemma LoadAtAnchor(l: Load, top: nat, t: nat)
    requires l.period <= top && t <= top
    ensures var i := Anchored(l, top);
            (CeilDiv(t, l.period) * l.cost) as real <= i.quota + if i.anchor < t then i.quota else 0.0
  {
    var q, c := top / l.period, CeilDiv(t, l.period);
    if t <= q * l.period {
      CeilDivAtMost(t, l.period, q);
      Loads.MulOrder(c, q, l.cost);
    } else {
      CeilDivAtMost(t, l.period, q + 1);
      AtMostTwice(c, q, l.cost);
    }
  }

  lemma AtMostTwice(c: nat, q: nat, cost: nat)
    requires c <= q + 1 && q >= 1
    ensures c * cost <= q * cost + q * cost
  {
    Loads.MulOrder(c, q + 1, cost);
    Loads.MulOrder(1, q, cost);
  }

  lemma {:induction false} DemandAtAnchor(s: seq<Load>, top: nat, t: nat)
    requires Within(s, top) && t <= top
    ensures Demand(s, t) as real <= Quotas(Items(s, top)) + QuotasBefore(Items(s, top), t)
  {
    if s != [] {
      DemandAtAnchor(s[1..], top, t);
      LoadAtAnchor(s[0], top, t);
    }
  }

  // ---- A share of the processor that is used up evenly ----

  /** Work that takes the share f of all time: none of it is ever anchored before `top`. */
  function Steady(f: real, top: nat): Item {
    Item(1.0 + f, top, f * top as real)
  }

  lemma SteadyWithin(f: real, top: nat, t: nat)
    requires f >= 0.0 && t <= top
    ensures Fair(Steady(f, top)) && f * t as real <= Steady(f, top).quota
  {
    UtilizationBound.MulOrder(t as real, top as real, f);
  }

  function ItemsBeside(s: seq<Load>, top: nat, f: real): (r: seq<Item>)
    requires Within(s, top)
    ensures r != [] && r[1..] == Items(s, top)
  {
    [Steady(f, top)] + Items(s, top)
  }

  lemma BesideIsFair(s: seq<Load>, top: nat, f: real)
    requires Within(s, top) && f >= 0.0
    ensures forall i :: i in ItemsBeside(s, top, f) ==> Fair(i)
  {
    ItemsAreFair(s, top);
    SteadyWithin(f, top, top);
  }

  lemma GrownBeside(s: seq<Load>, top: nat, f: real, us: seq<real>)
    requires Within(s, top) && us == [f] + Utils(s)
    ensures Grown(1.0, ItemsBeside(s, top, f)) == Product(us)
  {
    ItemFactors(s, top);
    GrownIsProduct(ItemsBeside(s, top, f), us);
  }

  lemma DemandBeside(s: seq<Load>, top: nat, f: real, t: nat)
    requires Within(s, top) && f >= 0.0 && t <= top
    ensures var items := ItemsBeside(s, top, f);
            Demand(s, t) as real + f * t as real <= Quotas(items) + QuotasBefore(items, t)
  {
    DemandAtAnchor(s, top, t);
    SteadyWithin(f, top, t);
  }

  /** An anchor that the quotas leave free. */
  lemma FreeAnchor(items: seq<Item>) returns (t: nat)
    requires (forall i :: i in items ==> Fair(i)) && Quotas(items) > 0.0 && Grown(1.0, items) < 2.0
    ensures t as real > Quotas(items) + QuotasBefore(items, t) && exists i :: i in items && i.anchor == t
  {
    if Crowded(items, Quotas(items)) {
      CrowdedTakesTwo(items);
    }
    var i :| i in items && i.anchor as real > Quotas(items) + QuotasBefore(items, i.anchor);
    t := i.anchor;
  }

  /** The hyperbolic test: if the product of the factors 1 + f and 1 + C/T is below 2, then
      some window no longer than `top` holds all the work that loads of period at most
      `top` can ask for in it beside a steady share f, with time left over. */
  lemma SomeWindowFitsBeside(s: seq<Load>, top: nat, f: real, us: seq<real>) returns (t: nat)
    requires top > 0 && Within(s, top) && f >= 0.0 && us == [f] + Utils(s) && Product(us) < 2.0
    ensures 0 < t <= top && Demand(s, t) as real + f * t as real < t as real
  {
    var items := ItemsBeside(s, top, f);
    BesideIsFair(s, top, f);
    GrownBeside(s, top, f, us);
    if Quotas(items) > 0.0 {
      t := FreeAnchor(items);
      assert forall i :: i in items ==> i == items[0] || i in items[1..];
    } else {
      t := top;
      BeforeIsPart(items, top);
    }
    DemandBeside(s, top, f, t);
  }

  lemma SomeWindowFits(s: seq<Load>, top: nat) returns (t: nat)
    requires top > 0 && Within(s, top) && Product(Utils(s)) < 2.0
    ensures 0 < t <= top && Demand(s, t) < t
  {
    assert ([0.0] + Utils(s))[1..] == Utils(s);
    t := SomeWindowFitsBeside(s, top, 0.0, [0.0] + Utils(s));
  }
}
