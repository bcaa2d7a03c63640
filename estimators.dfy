/** The estimators the tests share: pooled variance and pooled proportion,
    the Satterthwaite degrees of freedom, the F ratio with the larger
    variance on top, Cohen's d with its classification, and the
    normality pre-check. */
module Estimators {
  import opened Numerics
  import opened SampleStats

  function Min(a: real, b: real): real { if a <= b then a else b }
  function Max(a: real, b: real): real { if a <= b then b else a }

  lemma QuotientsPositive(p: real, k1: real, q: real, k2: real)
    requires 0.0 <= p && 0.0 <= q && 0.0 < p + q
    requires 0.0 < k1 && 0.0 < k2
    ensures 0.0 < p / k1 + q / k2
  {
    QuotientSign(p, k1);
    QuotientSign(q, k2);
  }

  lemma MulPositive(x: real, y: real)
    requires 0.0 < x && 0.0 < y
    ensures 0.0 < x * y
  {
  }

  lemma MulNonNegative(x: real, y: real)
    requires 0.0 <= x && 0.0 <= y
    ensures 0.0 <= x * y
  {
  }

  /** A positive factor can be cancelled from an inequality. */
  lemma CancelPositive(x: real, y: real, c: real)
    requires 0.0 < c && x * c <= y * c
    ensures x <= y
  {
    assert (x - y) * c == x * c - y * c;
    if y < x {
      MulPositive(x - y, c);
    }
  }

  /** A positive factor can be multiplied into an inequality. */
  lemma ScalePositive(x: real, y: real, c: real)
    requires 0.0 < c && x <= y
    ensures x * c <= y * c
  {
    assert (y - x) * c == y * c - x * c;
    if x < y {
      MulPositive(y - x, c);
    }
  }

  /** A weighted average with positive weights lies between its two values. */
  lemma WeightedAverageBetween(w1: real, a: real, w2: real, b: real)
    requires 0.0 < w1 && 0.0 < w2
    ensures Min(a, b) <= (w1 * a + w2 * b) / (w1 + w2) <= Max(a, b)
  {
    if a <= b {
      WeightedAverageOrdered(w1, a, w2, b);
    } else {
      WeightedAverageOrdered(w2, b, w1, a);
      assert w2 * b + w1 * a == w1 * a + w2 * b && w2 + w1 == w1 + w2;
    }
  }

  lemma WeightedAverageOrdered(w1: real, lo: real, w2: real, hi: real)
    requires 0.0 < w1 && 0.0 < w2 && lo <= hi
    ensures lo <= (w1 * lo + w2 * hi) / (w1 + w2) <= hi
  {
    var w := w1 + w2;
    var m := (w1 * lo + w2 * hi) / w;
    assert m * w == w1 * lo + w2 * hi;
    ScalePositive(lo, hi, w1);
    ScalePositive(lo, hi, w2);
    assert lo * w == lo * w1 + lo * w2;
    assert hi * w == hi * w1 + hi * w2;
    CancelPositive(lo, m, w);
    CancelPositive(m, hi, w);
  }

  /** The pooled variance Sp^2 = ((n1-1) v1 + (n2-1) v2) / (n1 + n2 - 2),
      the (n1-1, n2-1)-weighted average of the two sample variances. */
  function PooledVariance(n1: int, v1: real, n2: int, v2: real): (sp2: real)
    requires n1 >= 2 && n2 >= 2
    ensures Min(v1, v2) <= sp2 <= Max(v1, v2)
    ensures 0.0 <= v1 && 0.0 <= v2 ==> (sp2 == 0.0 <==> v1 == 0.0 && v2 == 0.0)
  {
    var w1 := (n1 - 1) as real;
    var w2 := (n2 - 1) as real;
    assert w1 + w2 == (n1 + n2 - 2) as real;
    WeightedAverageBetween(w1, v1, w2, v2);
    (w1 * v1 + w2 * v2) / (w1 + w2)
  }

  /** The sample proportion X/n. */
  function Proportion(x: nat, n: nat): (p: real)
    requires n >= 1
    ensures p * (n as real) == x as real
    ensures 0.0 <= p
  {
    QuotientSign(x as real, n as real);
    x as real / n as real
  }

  /** The pooled proportion (X1 + X2)/(n1 + n2) is the average of the two
      sample proportions weighted by the sample sizes, so it lies between
      them. */
  function PooledProportion(x1: nat, n1: nat, x2: nat, n2: nat): (p: real)
    requires n1 >= 1 && n2 >= 1
    ensures Min(Proportion(x1, n1), Proportion(x2, n2)) <= p <= Max(Proportion(x1, n1), Proportion(x2, n2))
  {
    var p1 := Proportion(x1, n1);
    var p2 := Proportion(x2, n2);
    assert (x1 + x2) as real == n1 as real * p1 + n2 as real * p2;
    assert (n1 + n2) as real == n1 as real + n2 as real;
    WeightedAverageBetween(n1 as real, p1, n2 as real, p2);
    (x1 + x2) as real / (n1 + n2) as real
  }

  /** The Satterthwaite approximation of the Welch test's degrees of freedom,
      (v1/n1 + v2/n2)^2 / ((v1/n1)^2/(n1-1) + (v2/n2)^2/(n2-1)). */
  function SatterthwaiteDf(n1: int, v1: real, n2: int, v2: real): (df: real)
    requires n1 >= 2 && n2 >= 2
    requires 0.0 <= v1 && 0.0 <= v2 && 0.0 < v1 + v2
    ensures 0.0 < df
  {
    var a := v1 / n1 as real;
    var b := v2 / n2 as real;
    QuotientSign(v1, n1 as real);
    QuotientSign(v2, n2 as real);
    DenominatorPositive(a, b, (n1 - 1) as real, (n2 - 1) as real);
    Sq(a + b) / (Sq(a) / (n1 - 1) as real + Sq(b) / (n2 - 1) as real)
  }

  lemma DenominatorPositive(a: real, b: real, k1: real, k2: real)
    requires 0.0 <= a && 0.0 <= b && 0.0 < a + b
    requires 0.0 < k1 && 0.0 < k2
    ensures 0.0 < Sq(a) / k1 + Sq(b) / k2
    ensures 0.0 < Sq(a + b)
  {
    SqPositive(a + b);
    if 0.0 < a {
      SqPositive(a);
    } else {
      SqPositive(b);
    }
    QuotientsPositive(Sq(a), k1, Sq(b), k2);
  }

  /** The F ratio with its degrees of freedom. */
  datatype FRatio = FRatio(f: real, df1: int, df2: int)

  /** The larger variance goes on top, and the numerator's degrees of
      freedom belong to that sample; on a tie the first sample is on top. */
  function OrderVariances(v1: real, n1: int, v2: real, n2: int): (r: FRatio)
    requires 0.0 < v1 && 0.0 < v2
    ensures 1.0 <= r.f
    ensures r.f * Min(v1, v2) == Max(v1, v2)
    ensures v1 >= v2 ==> r.df1 == n1 - 1 && r.df2 == n2 - 1
    ensures v1 < v2 ==> r.df1 == n2 - 1 && r.df2 == n1 - 1
  {
    if v1 >= v2 then FRatio(v1 / v2, n1 - 1, n2 - 1)
    else FRatio(v2 / v1, n2 - 1, n1 - 1)
  }

  /** Which sample is called the first never changes F; it changes the
      degrees of freedom only on a tie, where it swaps them. */
  lemma OrderVariancesSwap(v1: real, n1: int, v2: real, n2: int)
    requires 0.0 < v1 && 0.0 < v2
    ensures OrderVariances(v2, n2, v1, n1).f == OrderVariances(v1, n1, v2, n2).f
    ensures v1 != v2 ==> OrderVariances(v2, n2, v1, n1) == OrderVariances(v1, n1, v2, n2)
    ensures v1 == v2 ==> OrderVariances(v2, n2, v1, n1).df1 == OrderVariances(v1, n1, v2, n2).df2
    ensures v1 == v2 ==> OrderVariances(v2, n2, v1, n1).df2 == OrderVariances(v1, n1, v2, n2).df1
  {
  }

  /** A difference over the square root of a variance, and 0 when that
      square root is 0: the value-level core of Cohen's d. */
  function Standardized(diff: real, v: real, sqrt: imap<real, real>): (d: real)
    requires 0.0 <= v
    requires IsSqrt(sqrt)
    ensures v == 0.0 ==> d == 0.0
    ensures 0.0 < v ==> d * sqrt[v] == diff
    ensures 0.0 < v ==> (0.0 < d <==> 0.0 < diff) && (d < 0.0 <==> diff < 0.0)
  {
    var sd := sqrt[v];
    SqrtOf(sqrt, 0.0, 0.0);
    if sd == 0.0 then
      0.0
    else
      QuotientSign(diff, sd);
      diff / sd
  }

  /** Cohen's d from the summaries of the two samples: the mean difference
      over the pooled standard deviation, and 0 when that standard
      deviation is 0 (both samples constant). */
  function StandardizedMeanDifference(g1: Summary, g2: Summary, sqrt: imap<real, real>): (d: real)
    requires ValidSummary(g1) && ValidSummary(g2)
    requires IsSqrt(sqrt)
    ensures PooledVariance(g1.n, g1.variance, g2.n, g2.variance) == 0.0 ==> d == 0.0
    ensures 0.0 < PooledVariance(g1.n, g1.variance, g2.n, g2.variance) ==>
              && d * sqrt[PooledVariance(g1.n, g1.variance, g2.n, g2.variance)] == g1.mean - g2.mean
              && (0.0 < d <==> g2.mean < g1.mean)
              && (d < 0.0 <==> g1.mean < g2.mean)
  {
    Standardized(g1.mean - g2.mean, PooledVariance(g1.n, g1.variance, g2.n, g2.variance), sqrt)
  }

  /** Exchanging the two samples negates Cohen's d. */
  lemma StandardizedMeanDifferenceSwap(g1: Summary, g2: Summary, sqrt: imap<real, real>)
    requires ValidSummary(g1) && ValidSummary(g2)
    requires IsSqrt(sqrt)
    ensures StandardizedMeanDifference(g2, g1, sqrt) == -StandardizedMeanDifference(g1, g2, sqrt)
  {
    PooledVarianceSymmetric(g1.n, g1.variance, g2.n, g2.variance);
    StandardizedOdd(g1.mean - g2.mean, PooledVariance(g1.n, g1.variance, g2.n, g2.variance), sqrt);
    assert g2.mean - g1.mean == -(g1.mean - g2.mean);
  }

  /** Cohen's d as the page computes it, from the two samples. */
  function CohensD(d1: seq<real>, d2: seq<real>, sqrt: imap<real, real>): real
    requires |d1| >= 2 && |d2| >= 2
    requires IsSqrt(sqrt)
  {
    StandardizedMeanDifference(Summarize(d1), Summarize(d2), sqrt)
  }

  /** A test statistic: a difference over its standard error, so that
      multiplying back by the standard error recovers the difference; with
      a positive standard error it has the sign of the difference. */
  function Standardize(diff: real, se: real): (z: real)
    requires se != 0.0
    ensures z * se == diff
    ensures 0.0 < se ==> (0.0 < z <==> 0.0 < diff) && (z < 0.0 <==> diff < 0.0)
  {
    assert 0.0 < se ==> (0.0 < diff / se <==> 0.0 < diff) && (diff / se < 0.0 <==> diff < 0.0) by {
      if 0.0 < se {
        QuotientSign(diff, se);
      }
    }
    diff / se
  }

  /** `se` is the positive square root of the variance `radicand` and
      `stat` is `diff` in units of `se`. */
  predicate Standardizes(se: real, stat: real, diff: real, radicand: real)
  {
    0.0 < se && se * se == radicand && stat * se == diff
  }

  /** A standardised statistic has the sign of the difference it measures. */
  lemma StandardizesSign(se: real, stat: real, diff: real, radicand: real)
    requires Standardizes(se, stat, diff, radicand)
    ensures 0.0 < stat <==> 0.0 < diff
    ensures stat < 0.0 <==> diff < 0.0
  {
    if 0.0 < stat {
      MulPositive(stat, se);
    } else if stat < 0.0 {
      MulPositive(-stat, se);
      assert (-stat) * se == -(stat * se);
    }
  }

  /** A standard error and the statistic it standardises. */
  datatype Standard = Standard(se: real, stat: real)

  /** The standard error is the square root of the variance `radicand` of
      the estimate, and the statistic is the difference over it. */
  function StandardizeBy(diff: real, radicand: real, sqrt: imap<real, real>): (s: Standard)
    requires IsSqrt(sqrt) && 0.0 < radicand
    ensures Standardizes(s.se, s.stat, diff, radicand)
  {
    var se := sqrt[radicand];
    SqrtPositive(sqrt, radicand);
    Standard(se, Standardize(diff, se))
  }

  /** Negating the difference negates the statistic. */
  lemma StandardizeOdd(diff: real, se: real)
    requires se != 0.0
    ensures Standardize(-diff, se) == -Standardize(diff, se)
  {
    NegatedQuotient(diff, se);
  }

  /** Dividing by a positive number keeps the sign. */
  lemma QuotientSign(x: real, y: real)
    requires 0.0 < y
    ensures (x / y) * y == x
    ensures 0.0 < x / y <==> 0.0 < x
    ensures x / y < 0.0 <==> x < 0.0
  {
    var q := x / y;
    assert q * y == x;
    if 0.0 < q {
      MulPositive(q, y);
    } else if q < 0.0 {
      MulPositive(-q, y);
      assert (-q) * y == -(q * y);
    }
  }

  lemma NegatedQuotient(x: real, y: real)
    requires y != 0.0
    ensures (-x) / y == -(x / y)
  {
    var q := x / y;
    var r := (-x) / y;
    assert q * y == x;
    assert r * y == -x;
    assert (r + q) * y == r * y + q * y;
    ProductZero(r + q, y);
  }

  lemma PooledVarianceSymmetric(n1: int, v1: real, n2: int, v2: real)
    requires n1 >= 2 && n2 >= 2
    ensures PooledVariance(n2, v2, n1, v1) == PooledVariance(n1, v1, n2, v2)
  {
    assert (n2 + n1 - 2) as real == (n1 + n2 - 2) as real;
  }

  /** Swapping the two samples negates Cohen's d. */
  lemma CohensDSwap(d1: seq<real>, d2: seq<real>, sqrt: imap<real, real>)
    requires |d1| >= 2 && |d2| >= 2
    requires IsSqrt(sqrt)
    ensures CohensD(d2, d1, sqrt) == -CohensD(d1, d2, sqrt)
  {
    StandardizedMeanDifferenceSwap(Summarize(d1), Summarize(d2), sqrt);
  }

  lemma StandardizedOdd(diff: real, v: real, sqrt: imap<real, real>)
    requires 0.0 <= v
    requires IsSqrt(sqrt)
    ensures Standardized(-diff, v, sqrt) == -Standardized(diff, v, sqrt)
  {
    if sqrt[v] != 0.0 {
      NegatedQuotient(diff, sqrt[v]);
    }
  }

  datatype EffectSize = Negligible | Small | Medium | Large

  /** The size class of an effect, from |d| against the thresholds 0.2,
      0.5 and 0.8. */
  function InterpretEffectSize(d: real): (e: EffectSize)
    ensures e == Negligible <==> Abs(d) < 0.2
    ensures e == Small <==> 0.2 <= Abs(d) < 0.5
    ensures e == Medium <==> 0.5 <= Abs(d) < 0.8
    ensures e == Large <==> 0.8 <= Abs(d)
  {
    var a := Abs(d);
    if a < 0.2 then Negligible
    else if a < 0.5 then Small
    else if a < 0.8 then Medium
    else Large
  }

  function Rank(e: EffectSize): nat
  {
    match e
    case Negligible => 0
    case Small => 1
    case Medium => 2
    case Large => 3
  }

  /** The class depends on |d| only, and a larger |d| never gets a smaller class. */
  lemma InterpretEffectSizeOrder(d: real, d': real)
    ensures InterpretEffectSize(-d) == InterpretEffectSize(d)
    ensures Abs(d) <= Abs(d') ==> Rank(InterpretEffectSize(d)) <= Rank(InterpretEffectSize(d'))
  {
  }

  /** The normality pre-check: with fewer than three observations it
      passes without consulting the Shapiro-Wilk test; otherwise it passes
      exactly when that test's p-value exceeds 0.05. */
  function CheckNormality(data: seq<real>, shapiroP: imap<seq<real>, real>): (ok: bool)
    requires TotalOnSamples(shapiroP)
    ensures |data| < 3 ==> ok
    ensures |data| >= 3 ==> (ok <==> shapiroP[data] > 0.05)
  {
    if |data| < 3 then true else shapiroP[data] > 0.05
  }
}
