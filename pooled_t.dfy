/** The pooled-variance two-sample t test with Cohen's d and a 95%
    confidence interval of the mean difference, computed from the two
    samples' summaries (size, mean, variance). */
module PooledTTest {
  import opened Numerics
  import opened Results
  import opened SampleStats
  import opened TailRule
  import opened Estimators

  /** The pooled-variance t statistic with its degrees of freedom and
      decision, and the 95% confidence interval of the mean difference
      with its t quantile and margin of error. */
  datatype PooledStat = PooledStat(
    sp2: real, se: real, t: real, df: int, decision: Decision,
    tCi: real, moe: real, ciLow: real, ciHigh: real)

  /** The pooled-variance t test from the two summaries. When both
      variances are 0 the pooled variance is 0 and the statistic
      undefined. */
  function PooledCore(g1: Summary, g2: Summary, alpha: real, tail: Tail, lib: Lib): (r: Result<PooledStat>)
    requires ValidSummary(g1) && ValidSummary(g2)
    requires ValidLib(lib)
    ensures r.Failure? <==> g1.variance == 0.0 && g2.variance == 0.0
    ensures r.Failure? ==> r.error == ZeroStandardError
    ensures r.Success? ==>
              && 0.0 < PooledVariance(g1.n, g1.variance, g2.n, g2.variance)
              && r.value == PooledFromVariance(PooledVariance(g1.n, g1.variance, g2.n, g2.variance),
                                               g1, g2, alpha, tail, lib)
  {
    var sp2 := PooledVariance(g1.n, g1.variance, g2.n, g2.variance);
    if sp2 == 0.0 then
      Failure(ZeroStandardError)
    else
      Success(PooledFromVariance(sp2, g1, g2, alpha, tail, lib))
  }

  /** The statistic, decision and interval once the pooled variance sp2 > 0 is known. */
  function PooledFromVariance(sp2: real, g1: Summary, g2: Summary, alpha: real, tail: Tail, lib: Lib): (o: PooledStat)
    requires ValidSummary(g1) && ValidSummary(g2)
    requires ValidLib(lib)
    requires 0.0 < sp2
    ensures o.sp2 == sp2
    ensures Standardizes(o.se, o.t, g1.mean - g2.mean, sp2 * (1.0 / g1.n as real + 1.0 / g2.n as real))
    ensures o.df == g1.n + g2.n - 2
    ensures o.decision == Decide(lib.student[o.df as real], alpha, tail, o.t)
    ensures o.tCi == lib.student[o.df as real].ppf[0.975]
    ensures o.moe == o.tCi * o.se
    ensures o.ciLow == (g1.mean - g2.mean) - o.moe && o.ciHigh == (g1.mean - g2.mean) + o.moe
  {
    var k := 1.0 / g1.n as real + 1.0 / g2.n as real;
    QuotientsPositive(1.0, g1.n as real, 1.0, g2.n as real);
    MulPositive(sp2, k);
    var diff := g1.mean - g2.mean;
    var s := StandardizeBy(diff, sp2 * k, lib.sqrt);
    var df := g1.n + g2.n - 2;
    var tCi := lib.student[df as real].ppf[1.0 - 0.05 / 2.0];
    var moe := tCi * s.se;
    PooledStat(sp2, s.se, s.stat, df, Decide(lib.student[df as real], alpha, tail, s.stat),
               tCi, moe, diff - moe, diff + moe)
  }

  /** The pooled-variance t test's outcome: the group means, the
      statistic and interval, Cohen's d with its size class, and the
      normality pre-check of each group. */
  datatype PooledOutcome = PooledOutcome(
    mean1: real, mean2: real, stat: PooledStat, cohenD: real, effect: EffectSize,
    normal1: bool, normal2: bool)

  /** The pooled-variance t test on two samples. Each group needs two
      observations for its sample variance; when both groups are constant
      the statistic is undefined. */
  function PooledT(d1: seq<real>, d2: seq<real>, alpha: real, tail: Tail, lib: Lib): (r: Result<PooledOutcome>)
    requires ValidLib(lib)
    ensures |d1| < 2 || |d2| < 2 ==> r == Failure(TooFewObservations)
    ensures |d1| >= 2 && |d2| >= 2 ==>
              (r.Failure? <==> (forall i :: 0 <= i < |d1| ==> d1[i] == d1[0])
                               && (forall i :: 0 <= i < |d2| ==> d2[i] == d2[0]))
    ensures r.Success? ==>
              && |d1| >= 2 && |d2| >= 2
              && r.value.mean1 == Mean(d1) && r.value.mean2 == Mean(d2)
              && PooledCore(Summarize(d1), Summarize(d2), alpha, tail, lib) == Success(r.value.stat)
              && r.value.cohenD == CohensD(d1, d2, lib.sqrt)
              && r.value.effect == InterpretEffectSize(r.value.cohenD)
              && r.value.normal1 == CheckNormality(d1, lib.shapiroP)
              && r.value.normal2 == CheckNormality(d2, lib.shapiroP)
  {
    if |d1| < 2 || |d2| < 2 then
      Failure(TooFewObservations)
    else
      VarianceZeroIff(d1);
      VarianceZeroIff(d2);
      match PooledCore(Summarize(d1), Summarize(d2), alpha, tail, lib)
      case Failure(e) => Failure(e)
      case Success(stat) =>
        var d := CohensD(d1, d2, lib.sqrt);
        Success(PooledOutcome(Mean(d1), Mean(d2), stat, d, InterpretEffectSize(d),
                              CheckNormality(d1, lib.shapiroP), CheckNormality(d2, lib.shapiroP)))
  }
}

module PooledTProperties {
  import opened Numerics
  import opened Results
  import opened SampleStats
  import opened TailRule
  import opened Estimators
  import opened PooledTTest

  /** The confidence interval is always the 95% interval: it depends
      neither on the significance level nor on the tail chosen. */
  lemma PooledIntervalIgnoresAlphaAndTail(g1: Summary, g2: Summary, alpha: real, tail: Tail,
                                          alpha': real, tail': Tail, lib: Lib)
    requires ValidSummary(g1) && ValidSummary(g2)
    requires ValidLib(lib)
    requires PooledCore(g1, g2, alpha, tail, lib).Success?
    ensures PooledCore(g1, g2, alpha', tail', lib).Success?
    ensures PooledCore(g1, g2, alpha', tail', lib).value.ciLow == PooledCore(g1, g2, alpha, tail, lib).value.ciLow
    ensures PooledCore(g1, g2, alpha', tail', lib).value.ciHigh == PooledCore(g1, g2, alpha, tail, lib).value.ciHigh
  {
    var sp2 := PooledVariance(g1.n, g1.variance, g2.n, g2.variance);
    var o := PooledFromVariance(sp2, g1, g2, alpha, tail, lib);
    var o' := PooledFromVariance(sp2, g1, g2, alpha', tail', lib);
    RootUnique(o.se, o'.se);
  }

  /** The 95% interval is centred on the difference of the means. */
  lemma PooledIntervalSymmetric(g1: Summary, g2: Summary, alpha: real, tail: Tail, lib: Lib)
    requires ValidSummary(g1) && ValidSummary(g2)
    requires ValidLib(lib)
    requires PooledCore(g1, g2, alpha, tail, lib).Success?
    ensures PooledCore(g1, g2, alpha, tail, lib).value.ciLow + PooledCore(g1, g2, alpha, tail, lib).value.ciHigh
         == 2.0 * (g1.mean - g2.mean)
  {
  }

  /** The statistic points the way of the difference of the means, which
      is what the one-sided rules test. */
  lemma PooledTSign(g1: Summary, g2: Summary, alpha: real, tail: Tail, lib: Lib)
    requires ValidSummary(g1) && ValidSummary(g2)
    requires ValidLib(lib)
    requires PooledCore(g1, g2, alpha, tail, lib).Success?
    ensures 0.0 < PooledCore(g1, g2, alpha, tail, lib).value.t <==> g2.mean < g1.mean
    ensures PooledCore(g1, g2, alpha, tail, lib).value.t < 0.0 <==> g1.mean < g2.mean
  {
    var sp2 := PooledVariance(g1.n, g1.variance, g2.n, g2.variance);
    var o := PooledFromVariance(sp2, g1, g2, alpha, tail, lib);
    StandardizesSign(o.se, o.t, g1.mean - g2.mean, sp2 * (1.0 / g1.n as real + 1.0 / g2.n as real));
  }

  /** When both groups are constant the test has no statistic, and
      Cohen's d, which the page still shows, is 0 and negligible. */
  lemma ConstantGroupsEffectSize(d1: seq<real>, d2: seq<real>, alpha: real, tail: Tail, lib: Lib)
    requires |d1| >= 2 && |d2| >= 2
    requires ValidLib(lib)
    requires forall i :: 0 <= i < |d1| ==> d1[i] == d1[0]
    requires forall i :: 0 <= i < |d2| ==> d2[i] == d2[0]
    ensures PooledT(d1, d2, alpha, tail, lib) == Failure(ZeroStandardError)
    ensures CohensD(d1, d2, lib.sqrt) == 0.0
    ensures InterpretEffectSize(CohensD(d1, d2, lib.sqrt)) == Negligible
  {
    VarianceZeroIff(d1);
    VarianceZeroIff(d2);
  }

  /** Duality of the interval and the test: the two-sided test at the 5%
      level rejects exactly when the 95% interval excludes 0. */
  lemma PooledIntervalDuality(g1: Summary, g2: Summary, lib: Lib)
    requires ValidSummary(g1) && ValidSummary(g2)
    requires ValidLib(lib)
    requires PooledCore(g1, g2, 0.05, TwoSided, lib).Success?
    ensures PooledCore(g1, g2, 0.05, TwoSided, lib).value.decision.reject
        <==> 0.0 < PooledCore(g1, g2, 0.05, TwoSided, lib).value.ciLow
             || PooledCore(g1, g2, 0.05, TwoSided, lib).value.ciHigh < 0.0
  {
    DualityAtVariance(PooledVariance(g1.n, g1.variance, g2.n, g2.variance), g1, g2, lib);
  }

  lemma DualityAtVariance(sp2: real, g1: Summary, g2: Summary, lib: Lib)
    requires ValidSummary(g1) && ValidSummary(g2)
    requires ValidLib(lib)
    requires 0.0 < sp2
    ensures PooledFromVariance(sp2, g1, g2, 0.05, TwoSided, lib).decision.reject
        <==> 0.0 < PooledFromVariance(sp2, g1, g2, 0.05, TwoSided, lib).ciLow
             || PooledFromVariance(sp2, g1, g2, 0.05, TwoSided, lib).ciHigh < 0.0
  {
    var o := PooledFromVariance(sp2, g1, g2, 0.05, TwoSided, lib);
    assert o.decision.reject <==> Abs(o.t) > o.tCi;
    IntervalExcludesZero(o.t, o.se, o.tCi, g1.mean - g2.mean, o.moe);
  }

  /** An interval centred on d = t*se with half-width moe = c*se, se > 0,
      excludes 0 exactly when |t| > c. */
  lemma IntervalExcludesZero(t: real, se: real, c: real, d: real, moe: real)
    requires 0.0 < se && t * se == d && moe == c * se
    ensures Abs(t) > c <==> 0.0 < d - moe || d + moe < 0.0
  {
    ProductOrder(t, c, se);
    ProductOrder(-c, t, se);
    assert (-c) * se == -(c * se);
  }

  /** Multiplying by a positive number keeps a strict order, both ways. */
  lemma ProductOrder(x: real, y: real, c: real)
    requires 0.0 < c
    ensures x > y <==> x * c > y * c
  {
    assert x * c - y * c == (x - y) * c;
    if x > y {
      MulPositive(x - y, c);
    } else {
      MulNonNegative(y - x, c);
      assert (y - x) * c == -((x - y) * c);
    }
  }
}
