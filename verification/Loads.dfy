/** Periodic loads and the two quantities schedulability is about: how much of
    the processor a set of loads uses, and how much work it can ask for. */
module Loads {

  /** A registered task as the analysis sees it: it asks for at most `cost`
      ticks once every `period` ticks. */
  datatype RawLoad = Load(pid: nat, period: nat, cost: nat)
  type Load = l: RawLoad | l.period > 0 witness Load(0, 1, 0)

  /** The exact utilisation C/T of one load. */
  function Util(l: Load): (u: real)
    ensures u >= 0.0
  {
    l.cost as real / l.period as real
  }

  function Utils(s: seq<Load>): (us: seq<real>)
    ensures |us| == |s|
    ensures forall i :: 0 <= i < |s| ==> us[i] == Util(s[i])
  {
    seq(|s|, i requires 0 <= i < |s| => Util(s[i]))
  }

  /** How many jobs of period `p` fit a window of length `t`: t/p rounded up. */
  function CeilDiv(t: nat, p: nat): (n: nat)
    requires p > 0
  {
    (t + p - 1) / p
  }

  lemma CeilDivBounds(t: nat, p: nat)
    requires p > 0
    ensures t <= CeilDiv(t, p) * p < t + p
  {
  }

  /** The work `s` can ask for in a window of length `t` in which all its
      tasks are released together. */
  function Demand(s: seq<Load>, t: nat): nat {
    if s == [] then 0 else CeilDiv(t, s[0].period) * s[0].cost + Demand(s[1..], t)
  }

  /** The loads a task of period `top` can be delayed by: those of no longer period. */
  function Level(s: seq<Load>, top: nat): (r: seq<Load>)
    ensures forall l: Load :: l in r <==> l in s && l.period <= top
  {
    if s == [] then []
    else if s[0].period <= top then [s[0]] + Level(s[1..], top)
    else Level(s[1..], top)
  }

  lemma CeilDivAtMost(t: nat, p: nat, n: nat)
    requires p > 0 && t <= n * p
    ensures CeilDiv(t, p) <= n
  {
    var c := CeilDiv(t, p);
    CeilDivBounds(t, p);
    MulOrder(n + 1, c, p);
  }

  lemma CeilDivAtLeast(t: nat, p: nat, n: nat)
    requires p > 0 && n * p < t + p
    ensures n <= CeilDiv(t, p)
  {
    var c := CeilDiv(t, p);
    CeilDivBounds(t, p);
    MulOrder(c + 1, n, p);
  }

  lemma MulOrder(a: int, b: int, p: nat)
    ensures a <= b ==> a * p <= b * p
  {
  }
}
