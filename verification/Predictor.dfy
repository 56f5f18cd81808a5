/** The daily burn rate: recent days weigh more. Costs are reals; rounding is not modelled. */
module Predictor {

  function Sum(costs: seq<real>): real {
    if costs == [] then 0.0 else Sum(costs[..|costs| - 1]) + costs[|costs| - 1]
  }

  /** Day `i`, counted from 1, taken `i` times. */
  function RampSum(costs: seq<real>): real {
    if costs == [] then 0.0 else RampSum(costs[..|costs| - 1]) + |costs| as real * costs[|costs| - 1]
  }

  /** `1 + 2 + ... + n` */
  function Ramp(n: nat): real {
    if n == 0 then 0.0 else Ramp(n - 1) + n as real
  }

  lemma {:induction false} RampClosed(n: nat)
    ensures 2.0 * Ramp(n) == n as real * (n as real + 1.0)
  {
    if n > 0 {
      RampClosed(n - 1);
    }
  }

  /** The mean of a few days, the ramp-weighted mean of three or more. */
  function BurnRate(costs: seq<real>): real {
    if costs == [] then 0.0
    else if |costs| < 3 then Sum(costs) / |costs| as real
    else
      RampPositive(|costs|);
      RampSum(costs) / Ramp(|costs|)
  }

  /** From the third day on, the rate is the sum by how many days were counted: `n * (n + 1) / 2` of them. */
  lemma RateTimesDays(costs: seq<real>, counted: real)
    requires |costs| >= 3 && 2.0 * counted == |costs| as real * (|costs| as real + 1.0)
    ensures BurnRate(costs) * counted == RampSum(costs)
  {
    RampClosed(|costs|);
    RampPositive(|costs|);
    assert counted == Ramp(|costs|);
    Undivided(RampSum(costs), counted);
  }

  lemma Undivided(a: real, t: real)
    requires t > 0.0
    ensures a / t * t == a
  {
  }

  /** One day's cost, the mean of two days, and of three days the last counted three times. */
  lemma FirstDays(c0: real, c1: real, c2: real)
    ensures BurnRate([]) == 0.0 && BurnRate([c0]) == c0 && BurnRate([c0, c1]) == (c0 + c1) / 2.0
    ensures BurnRate([c0, c1, c2]) == (c0 + 2.0 * c1 + 3.0 * c2) / 6.0
  {
    var one, two, three := [c0], [c0, c1], [c0, c1, c2];
    assert one[..0] == [] && two[..1] == one && three[..2] == two;
    assert Sum(one) == c0 && Sum(two) == c0 + c1;
    assert RampSum(one) == c0 && RampSum(two) == c0 + 2.0 * c1 && RampSum(three) == c0 + 2.0 * c1 + 3.0 * c2;
    assert Ramp(1) == 1.0 && Ramp(2) == 3.0 && Ramp(3) == 6.0;
  }

  method CalculateBurnRate(dailyCosts: seq<real>) returns (rate: real)
    ensures rate == BurnRate(dailyCosts)
  {
    if |dailyCosts| == 0 {
      return 0.0;
    }
    if |dailyCosts| < 3 {
      rate := PlainMean(dailyCosts);
      return;
    }
    rate := WeightedMean(dailyCosts);
  }

  /** The loop for few days. */
  method PlainMean(costs: seq<real>) returns (rate: real)
    requires costs != []
    ensures rate == Sum(costs) / |costs| as real
  {
    var sum := 0.0;
    for i := 0 to |costs|
      invariant sum == Sum(costs[..i])
    {
      assert costs[..i + 1][..i] == costs[..i];
      sum := sum + costs[i];
    }
    assert costs[..|costs|] == costs;
    rate := sum / |costs| as real;
  }

  /** The loop with weights that grow towards the recent days. */
  method WeightedMean(costs: seq<real>) returns (rate: real)
    requires costs != []
    ensures Ramp(|costs|) > 0.0 && rate == RampSum(costs) / Ramp(|costs|)
  {
    var weightedSum, weightTotal := 0.0, 0.0;
    var n := |costs| as real;
    for i := 0 to |costs|
      invariant Scaled(weightedSum, n, RampSum(costs[..i])) && Scaled(weightTotal, n, Ramp(i))
    {
      var weight := (i as real + 1.0) / n;
      WeighDay(costs, i, n, weightedSum, weightTotal);
      weightedSum := weightedSum + costs[i] * weight;
      weightTotal := weightTotal + weight;
    }
    assert costs[..|costs|] == costs;
    RampPositive(|costs|);
    ScaledQuotient(weightedSum, weightTotal, n, RampSum(costs), Ramp(|costs|));
    rate := weightedSum / weightTotal;
  }

  /** Each day counts once more than the day before it. */
  lemma RampSnoc(costs: seq<real>, i: nat)
    requires i < |costs|
    ensures RampSum(costs[..i + 1]) == RampSum(costs[..i]) + (i as real + 1.0) * costs[i]
    ensures Ramp(i + 1) == Ramp(i) + (i as real + 1.0) * 1.0
  {
    assert costs[..i + 1][..i] == costs[..i];
  }

  lemma RampPositive(n: nat)
    requires n > 0
    ensures Ramp(n) > 0.0
  {
    RampClosed(n);
    assert n as real * (n as real + 1.0) > 0.0;
  }

  /** `x` is `y` divided by `n`. */
  predicate Scaled(x: real, n: real, y: real) {
    x * n == y
  }

  lemma ScaledStep(x: real, y: real, k: real, c: real, n: real)
    requires n > 0.0 && Scaled(x, n, y)
    ensures Scaled(x + c * (k / n), n, y + k * c)
  {
    var w := k / n;
    assert w * n == k;
    assert (x + c * w) * n == x * n + c * (w * n);
  }

  lemma WeighDay(costs: seq<real>, i: nat, n: real, sum: real, total: real)
    requires i < |costs| && n > 0.0 && Scaled(sum, n, RampSum(costs[..i])) && Scaled(total, n, Ramp(i))
    ensures Scaled(sum + costs[i] * ((i as real + 1.0) / n), n, RampSum(costs[..i + 1]))
    ensures Scaled(total + (i as real + 1.0) / n, n, Ramp(i + 1))
  {
    RampSnoc(costs, i);
    ScaledStep(sum, RampSum(costs[..i]), i as real + 1.0, costs[i], n);
    ScaledStep(total, Ramp(i), i as real + 1.0, 1.0, n);
  }

  lemma ScaledQuotient(a: real, b: real, n: real, x: real, y: real)
    requires n > 0.0 && y > 0.0 && Scaled(a, n, x) && Scaled(b, n, y)
    ensures b != 0.0 && a / b == x / y
  {
    var q := x / y;
    assert q * y == x;
    assert q * (b * n) == (q * b) * n;
    assert (q * b - a) * n == 0.0;
    assert q * b == a;
  }

  // ---------- Bounds ----------

  predicate Within(costs: seq<real>, lo: real, hi: real) {
    forall c | c in costs :: lo <= c <= hi
  }

  lemma StepWithin(t: real, s: real, k: real, c: real, t': real, s': real, lo: real, hi: real)
    requires k >= 0.0 && lo <= c <= hi && Between(t, s, lo, hi)
    requires t' == t + k && s' == s + k * c
    ensures Between(t', s', lo, hi)
  {
    assert k * lo <= k * c by { assert k * (c - lo) >= 0.0; }
    assert k * c <= k * hi by { assert k * (hi - c) >= 0.0; }
    assert (t + k) * lo == t * lo + k * lo;
    assert (t + k) * hi == t * hi + k * hi;
  }

  /** `s` is `t` times something between `lo` and `hi`. */
  predicate Between(t: real, s: real, lo: real, hi: real) {
    t * lo <= s <= t * hi
  }

  lemma {:induction false} SumWithin(costs: seq<real>, lo: real, hi: real)
    requires Within(costs, lo, hi)
    ensures Between(|costs| as real, Sum(costs), lo, hi)
  {
    if costs != [] {
      var front, c := costs[..|costs| - 1], costs[|costs| - 1];
      assert c in costs && forall x | x in front :: x in costs;
      SumWithin(front, lo, hi);
      StepWithin(|front| as real, Sum(front), 1.0, c, |costs| as real, Sum(costs), lo, hi);
    }
  }

  lemma {:induction false} RampWithin(costs: seq<real>, lo: real, hi: real)
    requires Within(costs, lo, hi)
    ensures Between(Ramp(|costs|), RampSum(costs), lo, hi)
  {
    if costs != [] {
      var front, c := costs[..|costs| - 1], costs[|costs| - 1];
      assert c in costs && forall x | x in front :: x in costs;
      RampWithin(front, lo, hi);
      StepWithin(Ramp(|front|), RampSum(front), |front| as real + 1.0, c, Ramp(|costs|), RampSum(costs), lo, hi);
    }
  }

  lemma QuotientWithin(a: real, b: real, lo: real, hi: real)
    requires b > 0.0 && Between(b, a, lo, hi)
    ensures lo <= a / b <= hi
  {
    var q := a / b;
    assert q * b == a;
    assert (q - lo) * b >= 0.0 && (hi - q) * b >= 0.0;
  }

  lemma RampMeanWithin(costs: seq<real>, lo: real, hi: real, s: real, t: real)
    requires costs != [] && Within(costs, lo, hi) && s == RampSum(costs) && t == Ramp(|costs|)
    ensures t > 0.0 && lo <= s / t <= hi
  {
    RampPositive(|costs|);
    RampWithin(costs, lo, hi);
    QuotientWithin(s, t, lo, hi);
  }

  lemma MeanWithin(costs: seq<real>, lo: real, hi: real, s: real, t: real)
    requires costs != [] && Within(costs, lo, hi) && s == Sum(costs) && t == |costs| as real
    ensures lo <= s / t <= hi
  {
    SumWithin(costs, lo, hi);
    QuotientWithin(s, t, lo, hi);
  }

  /** The rate lies between the cheapest and the dearest day, for any non-empty history. */
  lemma RateIsBetweenExtremes(costs: seq<real>, lo: real, hi: real)
    requires costs != [] && Within(costs, lo, hi)
    ensures lo <= BurnRate(costs) <= hi
  {
    RampMeanWithin(costs, lo, hi, RampSum(costs), Ramp(|costs|));
    MeanWithin(costs, lo, hi, Sum(costs), |costs| as real);
  }

  // ---------- Trend ----------

  predicate Rising(costs: seq<real>) {
    forall i, j | 0 <= i < j < |costs| :: costs[i] <= costs[j]
  }

  predicate Falling(costs: seq<real>) {
    forall i, j | 0 <= i < j < |costs| :: costs[i] >= costs[j]
  }

  /** With rising costs, twice the ramp sum is at least `n + 1` times the sum. */
  lemma {:induction false} RampOutweighs(costs: seq<real>)
    requires Rising(costs)
    ensures 2.0 * RampSum(costs) >= (|costs| as real + 1.0) * Sum(costs)
    ensures costs != [] ==> |costs| as real * costs[|costs| - 1] >= Sum(costs)
  {
    if costs != [] {
      var n := |costs| - 1;
      RampOutweighs(costs[..n]);
      assert n > 0 ==> costs[..n][n - 1] <= costs[n];
      OutweighStep(n as real, if n > 0 then costs[n - 1] else costs[n], costs[n], Sum(costs[..n]), RampSum(costs[..n]));
    }
  }

  lemma OutweighStep(n: real, last: real, c: real, s: real, w: real)
    requires n >= 0.0 && last <= c && n * last >= s && 2.0 * w >= (n + 1.0) * s
    ensures 2.0 * (w + (n + 1.0) * c) >= (n + 2.0) * (s + c) && (n + 1.0) * c >= s + c
  {
    assert n * c >= n * last by { assert n * (c - last) >= 0.0; }
    assert (n + 1.0) * c == n * c + c;
    assert (n + 2.0) * (s + c) == (n + 1.0) * s + s + (n * c + 2.0 * c);
  }

  lemma {:induction false} Negated(costs: seq<real>) returns (neg: seq<real>)
    ensures |neg| == |costs| && (forall i | 0 <= i < |costs| :: neg[i] == -costs[i])
    ensures Sum(neg) == -Sum(costs) && RampSum(neg) == -RampSum(costs)
  {
    if costs == [] {
      neg := [];
    } else {
      var n := |costs| - 1;
      var front := Negated(costs[..n]);
      neg := front + [-costs[n]];
      assert neg[..n] == front;
      assert |costs| as real * -costs[n] == -(|costs| as real * costs[n]);
    }
  }

  lemma Weigh(r: real, s: real, n: real, t: real)
    requires n > 0.0 && t > 0.0 && 2.0 * t == n * (n + 1.0) && 2.0 * r >= (n + 1.0) * s
    ensures r / t >= s / n
  {
    var x, y := r / t, s / n;
    assert x * t == r && y * n == s;
    assert 2.0 * (x * t) == x * (n * (n + 1.0)) by { assert 2.0 * (x * t) == x * (2.0 * t); }
    assert (n + 1.0) * (y * n) == y * (n * (n + 1.0));
    assert (x - y) * (n * (n + 1.0)) >= 0.0;
    assert n * (n + 1.0) > 0.0;
  }

  lemma NegatedQuotient(a: real, b: real)
    requires b > 0.0
    ensures (-a) / b == -(a / b)
  {
    var q := a / b;
    assert q * b == a && (-q) * b == -a;
  }

  lemma RisingFacts(costs: seq<real>, n: real, t: real)
    requires costs != [] && Rising(costs) && n == |costs| as real && t == Ramp(|costs|)
    ensures n > 0.0 && t > 0.0 && 2.0 * t == n * (n + 1.0) && 2.0 * RampSum(costs) >= (n + 1.0) * Sum(costs)
  {
    RampClosed(|costs|);
    RampPositive(|costs|);
    RampOutweighs(costs);
  }

  lemma RisingLeansUp(costs: seq<real>)
    requires costs != [] && Rising(costs)
    ensures Ramp(|costs|) > 0.0 && RampSum(costs) / Ramp(|costs|) >= Sum(costs) / |costs| as real
  {
    var n, t := |costs| as real, Ramp(|costs|);
    RisingFacts(costs, n, t);
    Weigh(RampSum(costs), Sum(costs), n, t);
  }

  /** Chebyshev's sum inequality: the weighted rate is at least the plain mean for rising costs, at most for falling. */
  lemma RateLeansToRecentDays(costs: seq<real>)
    requires costs != []
    ensures Rising(costs) ==> BurnRate(costs) >= Sum(costs) / |costs| as real
    ensures Falling(costs) ==> BurnRate(costs) <= Sum(costs) / |costs| as real
  {
    if Rising(costs) {
      RisingLeansUp(costs);
    }
    if Falling(costs) {
      var neg := Negated(costs);
      RisingLeansUp(neg);
      NegatedQuotient(RampSum(costs), Ramp(|costs|));
      NegatedQuotient(Sum(costs), |costs| as real);
    }
  }
}
