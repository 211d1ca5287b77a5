/** From a bound on the sum of utilisations to a bound on the product of (1 + u),
    which is what the time-demand argument needs. */
module UtilizationBound {

  predicate NonNegative(us: seq<real>) {
    forall i :: 0 <= i < |us| ==> us[i] >= 0.0
  }

  function Sum(us: seq<real>): (r: real)
    ensures NonNegative(us) ==> r >= 0.0
  {
    if us == [] then 0.0 else us[0] + Sum(us[1..])
  }

  /** The product of (1 + u) over all utilisations u. */
  function Product(us: seq<real>): real {
    if us == [] then 1.0 else (1.0 + us[0]) * Product(us[1..])
  }

  lemma {:induction false} ProductAtLeastOne(us: seq<real>)
    requires NonNegative(us)
    ensures Product(us) >= 1.0
  {
    if us != [] {
      ProductAtLeastOne(us[1..]);
      MulOrder(1.0, 1.0 + us[0], Product(us[1..]));
    }
  }

  function Pow(x: real, n: nat): real {
    if n == 0 then 1.0 else x * Pow(x, n - 1)
  }

  // ---- Sum at most 0.693, any number of tasks ----

  function Halves(us: seq<real>): (hs: seq<real>)
    ensures |hs| == |us|
    ensures NonNegative(us) ==> NonNegative(hs)
  {
    if us == [] then [] else [us[0] / 2.0] + Halves(us[1..])
  }

  lemma {:induction false} HalvesSum(us: seq<real>)
    ensures Sum(Halves(us)) == Sum(us) / 2.0
  {
    if us != [] {
      HalvesSum(us[1..]);
      assert Halves(us)[1..] == Halves(us[1..]);
    }
  }

  lemma MulOrder(a: real, b: real, c: real)
    requires a <= b && c >= 0.0
    ensures a * c <= b * c && c * a <= c * b
  {
  }

  lemma SquareOfProduct(a: real, b: real)
    ensures (a * a) * (b * b) == (a * b) * (a * b)
  {
    calc {
      (a * a) * (b * b);
      a * (a * (b * b));
      { assert a * (b * b) == (a * b) * b; }
      a * ((a * b) * b);
      { assert a * ((a * b) * b) == ((a * b) * b) * a; }
      ((a * b) * b) * a;
      { assert ((a * b) * b) * a == (a * b) * (b * a); }
      (a * b) * (a * b);
    }
  }

  lemma HalvesStep(u: real, rest: real, hrest: real)
    requires u >= 0.0 && 0.0 <= rest <= hrest * hrest
    ensures (1.0 + u) * rest <= ((1.0 + u / 2.0) * hrest) * ((1.0 + u / 2.0) * hrest)
  {
    var x := 1.0 + u / 2.0;
    assert x * x >= 1.0 + u;
    MulOrder(1.0 + u, x * x, rest);
    MulOrder(rest, hrest * hrest, x * x);
    SquareOfProduct(x, hrest);
  }

  /** Splitting every utilisation in two can only raise the product: 1 + u <= (1 + u/2)^2. */
  lemma {:induction false} HalvesProduct(us: seq<real>)
    requires NonNegative(us)
    ensures Product(us) <= Product(Halves(us)) * Product(Halves(us))
  {
    if us != [] {
      HalvesProduct(us[1..]);
      ProductAtLeastOne(us[1..]);
      assert Halves(us)[1..] == Halves(us[1..]);
      HalvesStep(us[0], Product(us[1..]), Product(Halves(us[1..])));
    }
  }

  lemma SlackStep(u: real, s: real, p: real)
    requires u >= 0.0 && s >= 0.0 && p >= 0.0 && p * (1.0 - s) <= 1.0
    ensures ((1.0 + u) * p) * (1.0 - (u + s)) <= 1.0
  {
    assert u * u >= 0.0 && u * s >= 0.0;
    assert (1.0 + u) * (1.0 - (u + s)) == (1.0 - s) - u * u - u * s;
    MulOrder((1.0 + u) * (1.0 - (u + s)), 1.0 - s, p);
    assert ((1.0 + u) * p) * (1.0 - (u + s)) == ((1.0 + u) * (1.0 - (u + s))) * p;
  }

  /** Product * (1 - Sum) never exceeds 1. */
  lemma {:induction false} ProductTimesSlack(us: seq<real>)
    requires NonNegative(us) && Sum(us) <= 1.0
    ensures Product(us) * (1.0 - Sum(us)) <= 1.0
  {
    if us != [] {
      ProductTimesSlack(us[1..]);
      ProductAtLeastOne(us[1..]);
      SlackStep(us[0], Sum(us[1..]), Product(us[1..]));
    }
  }

  /** Limit(k) bounds the product of utilisations that sum to at most 0.693 / 2^k;
      each entry is at least the square of the next. */
  function Limit(k: nat): real
    requires k <= 11
  {
    if k == 0 then 1.999940193755
    else if k == 1 then 1.414192417514
    else if k == 2 then 1.189198224651
    else if k == 3 then 1.090503656413
    else if k == 4 then 1.044271830709
    else if k == 5 then 1.021896193705
    else if k == 6 then 1.010888813720
    else if k == 7 then 1.005429666222
    else if k == 8 then 1.002711157922
    else if k == 9 then 1.001354661407
    else if k == 10 then 1.000677101470
    else 1.000338493446
  }

  function Share(k: nat): real {
    if k == 0 then 0.693 else Share(k - 1) / 2.0
  }

  lemma SmallSum(us: seq<real>)
    requires NonNegative(us) && Sum(us) <= Share(11)
    ensures Product(us) <= Limit(11)
  {
    ShareOf11();
    ProductTimesSlack(us);
    ProductAtLeastOne(us);
    SlackToLimit(Product(us), Sum(us));
  }

  lemma ShareOf11()
    ensures Share(11) == 0.693 / 2048.0
  {
    assert Share(5) == 0.693 / 32.0;
  }

  lemma SlackToLimit(p: real, s: real)
    requires p >= 1.0 && s <= 0.693 / 2048.0 && p * (1.0 - s) <= 1.0
    ensures p <= Limit(11)
  {
    MulOrder(1.0 - 0.693 / 2048.0, 1.0 - s, p);
  }

  lemma {:induction false} SumToProductFrom(us: seq<real>, k: nat)
    requires NonNegative(us) && k <= 11 && Sum(us) <= Share(k)
    ensures Product(us) <= Limit(k)
    decreases 11 - k
  {
    if k == 11 {
      SmallSum(us);
    } else {
      var hs := Halves(us);
      HalvesSum(us);
      SumToProductFrom(hs, k + 1);
      HalvesProduct(us);
      ProductAtLeastOne(hs);
      LimitStep(Product(us), Product(hs), k);
    }
  }

  lemma LimitStep(p: real, h: real, k: nat)
    requires k < 11 && p <= h * h && 0.0 < h <= Limit(k + 1)
    ensures p <= Limit(k)
  {
    Squared(h, Limit(k + 1));
    LimitSquares(k);
  }

  lemma LimitSquares(k: nat)
    requires k < 11
    ensures Limit(k + 1) * Limit(k + 1) <= Limit(k)
  {
  }

  lemma Squared(a: real, b: real)
    requires 0.0 < a <= b
    ensures a * a <= b * b
  {
    MulOrder(a, b, a);
    MulOrder(a, b, b);
  }

  /** Utilisations that sum to at most 0.693 (the admission bound, just under ln 2)
      have a product of (1 + u) strictly below 2, however many they are. */
  lemma SumToProduct(us: seq<real>)
    requires NonNegative(us) && Sum(us) <= 0.693
    ensures Product(us) < 2.0
  {
    SumToProductFrom(us, 0);
  }

  // ---- At most 50 utilisations, sum below 0.6979 ----

  lemma PowOrder(a: real, b: real, n: nat)
    requires 0.0 <= a <= b
    ensures 0.0 <= Pow(a, n) <= Pow(b, n)
  {
    if n > 0 {
      PowOrder(a, b, n - 1);
      MulOrder(Pow(a, n - 1), Pow(b, n - 1), a);
      MulOrder(a, b, Pow(b, n - 1));
    }
  }

  lemma Associate(a: real, b: real, c: real)
    ensures a * (b * c) == (a * b) * c
  {
  }

  lemma {:induction false} PowSum(x: real, m: nat, n: nat)
    ensures Pow(x, m + n) == Pow(x, m) * Pow(x, n)
  {
    if m > 0 {
      PowSum(x, m - 1, n);
      Associate(x, Pow(x, m - 1), Pow(x, n));
    }
  }

  lemma BernoulliStep(a: real, b: real, n: real, p: real, q: real)
    requires a >= 0.0 && b >= 0.0 && n >= 0.0 && p >= 0.0
    requires (n * b - (n - 1.0) * a) * p <= q
    ensures ((n + 1.0) * b - n * a) * (a * p) <= b * q
  {
    var c, d := n * b - (n - 1.0) * a, (n + 1.0) * b - n * a;
    assert b * c - d * a == n * ((b - a) * (b - a));
    MulOrder(0.0, (b - a) * (b - a), n);
    MulOrder(d * a, b * c, p);
    MulOrder(c * p, q, b);
    assert d * (a * p) == (d * a) * p;
    assert b * (c * p) == (b * c) * p;
  }

  /** Bernoulli's inequality in the homogeneous form the induction on means needs. */
  lemma {:induction false} Bernoulli(a: real, b: real, m: nat)
    requires a >= 0.0 && b >= 0.0
    ensures ((m + 1) as real * b - m as real * a) * Pow(a, m) <= Pow(b, m + 1)
  {
    if m == 0 {
      assert Pow(b, 1) == b * Pow(b, 0);
    } else {
      Bernoulli(a, b, m - 1);
      PowOrder(a, a, m - 1);
      BernoulliStep(a, b, m as real, Pow(a, m - 1), Pow(b, m));
    }
  }

  /** The product of n equal factors whose utilisations add up to `sum`. */
  function EqualShares(sum: real, n: nat): real
    requires n > 0
  {
    Pow(1.0 + sum / n as real, n)
  }

  lemma MeanStep(u: real, sum: real, rest: real, m: nat)
    requires u >= 0.0 && sum >= 0.0 && m > 0
    requires 0.0 <= rest <= EqualShares(sum, m)
    ensures (1.0 + u) * rest <= EqualShares(u + sum, m + 1)
  {
    var n := m as real;
    var a, b := 1.0 + sum / n, 1.0 + (u + sum) / (n + 1.0);
    assert (n + 1.0) * b == n + 1.0 + u + sum && n * a == n + sum;
    Bernoulli(a, b, m);
    MulOrder(rest, Pow(a, m), 1.0 + u);
  }

  /** Arithmetic-geometric mean inequality for the factors 1 + u. */
  lemma {:induction false} EqualSharesAreWorst(us: seq<real>, n: nat)
    requires NonNegative(us) && n == |us| > 0
    ensures Product(us) <= EqualShares(Sum(us), n)
  {
    if n == 1 {
      assert us[1..] == [];
      SingleShare(us[0]);
    } else {
      EqualSharesAreWorst(us[1..], n - 1);
      ProductAtLeastOne(us[1..]);
      MeanStep(us[0], Sum(us[1..]), Product(us[1..]), n - 1);
    }
  }

  lemma SingleShare(u: real)
    ensures EqualShares(u, 1) == 1.0 + u
  {
    assert Pow(1.0 + u, 1) == (1.0 + u) * Pow(1.0 + u, 0);
  }

  /** Spreading the same sum over more tasks can only raise the product. */
  lemma {:induction false} MoreSharesAreWorse(sum: real, m: nat, n: nat)
    requires sum >= 0.0 && 0 < m <= n
    ensures EqualShares(sum, m) <= EqualShares(sum, n)
    decreases n - m
  {
    if m < n {
      PowOrder(1.0 + sum / m as real, 1.0 + sum / m as real, m);
      MeanStep(0.0, sum, EqualShares(sum, m), m);
      MoreSharesAreWorse(sum, m + 1, n);
    }
  }

  lemma FiftyShares(sum: real, n: nat)
    requires 0.0 <= sum <= 0.6979 && n == 50
    ensures EqualShares(sum, n) < 2.0
  {
    FiftiethIsSmall(sum, n as real);
    PowOrder(1.0 + sum / n as real, 1.013958, n);
    PowerOf50(1.013958, n);
  }

  /** With at most 50 utilisations there is room for what truncated division hides from
      49 tasks: a sum of at most 0.6979 still gives a product strictly below 2. */
  lemma SumToProductFor50(us: seq<real>, n: nat)
    requires NonNegative(us) && |us| <= n == 50 && Sum(us) <= 0.6979
    ensures Product(us) < 2.0
  {
    if us != [] {
      EqualSharesAreWorst(us, |us|);
      MoreSharesAreWorse(Sum(us), |us|, n);
      FiftyShares(Sum(us), n);
    }
  }

  lemma FiftiethIsSmall(sum: real, n: real)
    requires 0.0 <= sum <= 0.6979 && n == 50.0
    ensures 0.0 <= 1.0 + sum / n <= 1.013958
  {
  }

  lemma PowerOf50(x: real, n: nat)
    requires x == 1.013958 && n == 50
    ensures Pow(x, n) < 2.0
  {
    var k := 3;
    assert Pow(x, k) == x * (x * (x * Pow(x, k - 3)));
    Double(x, k, 1.0424611967, 1.0867253467);
    Double(x, 2 * k, 1.0867253467, 1.1809719792);
    Double(x, 4 * k, 1.1809719792, 1.3946948157);
    Double(x, 8 * k, 1.3946948157, 1.945173629);
    MulOrder(Pow(x, n - 2), 1.945173629, x);
    MulOrder(Pow(x, n - 1), x * 1.945173629, x);
  }

  lemma Double(x: real, k: nat, b: real, b2: real)
    requires x >= 0.0 && Pow(x, k) <= b && b * b <= b2
    ensures Pow(x, 2 * k) <= b2
  {
    PowOrder(x, x, k);
    PowSum(x, k, k);
    MulOrder(Pow(x, k), b, Pow(x, k));
    MulOrder(Pow(x, k), b, b);
  }
}
