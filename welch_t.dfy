/** The separate-variance (Welch) two-sample t test with the
    Satterthwaite degrees of freedom. */
module WelchTTest {
  import opened Numerics
  import opened Results
  import opened SampleStats
  import opened TailRule
  import opened Estimators
  import opened PooledTTest

  /** The Welch statistic; its degrees of freedom are a real number. */
  datatype WelchStat = WelchStat(se: real, t: real, df: real, decision: Decision)

  /** The separate-variance (Welch) t test from the two summaries, with
      the Satterthwaite degrees of freedom. */
  function WelchCore(g1: Summary, g2: Summary, alpha: real, tail: Tail, lib: Lib): (r: Result<WelchStat>)
    requires ValidSummary(g1) && ValidSummary(g2)
    requires ValidLib(lib)
    ensures r.Failure? <==> g1.variance == 0.0 && g2.variance == 0.0
    ensures r.Failure? ==> r.error == ZeroStandardError
    ensures r.Success? ==>
              && 0.0 < SatterthwaiteDf(g1.n, g1.variance, g2.n, g2.variance)
              && r.value == WelchWithDf(g1, g2, SatterthwaiteDf(g1.n, g1.variance, g2.n, g2.variance), alpha, tail, lib)
  {
    if g1.variance == 0.0 && g2.variance == 0.0 then
      Failure(ZeroStandardError)
    else
      Success(WelchWithDf(g1, g2, SatterthwaiteDf(g1.n, g1.variance, g2.n, g2.variance), alpha, tail, lib))
  }

  /** The Welch statistic for given degrees of freedom: the difference of
      the means over the square root of v1/n1 + v2/n2, and the t decision. */
  function WelchWithDf(g1: Summary, g2: Summary, df: real, alpha: real, tail: Tail, lib: Lib): (w: WelchStat)
    requires ValidSummary(g1) && ValidSummary(g2)
    requires !(g1.variance == 0.0 && g2.variance == 0.0)
    requires ValidLib(lib)
    ensures Standardizes(w.se, w.t, g1.mean - g2.mean, g1.variance / g1.n as real + g2.variance / g2.n as real)
    ensures w.df == df
    ensures w.decision == Decide(lib.student[df], alpha, tail, w.t)
  {
    QuotientSign(g1.variance, g1.n as real);
    QuotientSign(g2.variance, g2.n as real);
    QuotientsPositive(g1.variance, g1.n as real, g2.variance, g2.n as real);
    var s := StandardizeBy(g1.mean - g2.mean, g1.variance / g1.n as real + g2.variance / g2.n as real, lib.sqrt);
    WelchStat(s.se, s.stat, df, Decide(lib.student[df], alpha, tail, s.stat))
  }

  /** The Welch test on two samples. */
  function WelchT(d1: seq<real>, d2: seq<real>, alpha: real, tail: Tail, lib: Lib): (r: Result<WelchStat>)
    requires ValidLib(lib)
    ensures |d1| < 2 || |d2| < 2 ==> r == Failure(TooFewObservations)
    ensures |d1| >= 2 && |d2| >= 2 ==>
              (r.Failure? <==> (forall i :: 0 <= i < |d1| ==> d1[i] == d1[0])
                               && (forall i :: 0 <= i < |d2| ==> d2[i] == d2[0]))
    ensures r.Success? ==>
              && |d1| >= 2 && |d2| >= 2
              && WelchCore(Summarize(d1), Summarize(d2), alpha, tail, lib) == r
  {
    if |d1| < 2 || |d2| < 2 then
      Failure(TooFewObservations)
    else
      VarianceZeroIff(d1);
      VarianceZeroIff(d2);
      WelchCore(Summarize(d1), Summarize(d2), alpha, tail, lib)
  }
}

module WelchTProperties {
  import opened Numerics
  import opened Results
  import opened SampleStats
  import opened TailRule
  import opened Estimators
  import opened PooledTTest
  import opened WelchTTest
  import opened PooledTProperties

  /** The Welch statistic points the way of the difference of the means. */
  lemma WelchTSign(g1: Summary, g2: Summary, alpha: real, tail: Tail, lib: Lib)
    requires ValidSummary(g1) && ValidSummary(g2)
    requires ValidLib(lib)
    requires WelchCore(g1, g2, alpha, tail, lib).Success?
    ensures 0.0 < WelchCore(g1, g2, alpha, tail, lib).value.t <==> g2.mean < g1.mean
    ensures WelchCore(g1, g2, alpha, tail, lib).value.t < 0.0 <==> g1.mean < g2.mean
  {
    var w := WelchCore(g1, g2, alpha, tail, lib).value;
    StandardizesSign(w.se, w.t, g1.mean - g2.mean, g1.variance / g1.n as real + g2.variance / g2.n as real);
  }

  /** With groups of equal size and equal positive variances, the Welch
      test and the pooled test coincide: same standard error, same
      statistic, and the Satterthwaite degrees of freedom are n1 + n2 - 2. */
  lemma WelchAgreesWithPooled(n: int, v: real, m1: real, m2: real, alpha: real, tail: Tail, lib: Lib)
    requires n >= 2 && 0.0 < v
    requires ValidLib(lib)
    ensures var w := WelchCore(Summary(n, m1, v), Summary(n, m2, v), alpha, tail, lib);
            var p := PooledCore(Summary(n, m1, v), Summary(n, m2, v), alpha, tail, lib);
            && w.Success? && p.Success?
            && w.value.se == p.value.se
            && w.value.t == p.value.t
            && w.value.df == (n + n - 2) as real
            && w.value.decision == p.value.decision
  {
    SatterthwaiteEqual(n, v);
    EqualRadicands(n, v);
    EqualWeightsPool(n, v);
    AgreementAt(Summary(n, m1, v), Summary(n, m2, v), v, (n + n - 2) as real, alpha, tail, lib);
  }

  /** The Welch statistic at df = n1 + n2 - 2 and the pooled statistic at
      sp2 agree when v1/n1 + v2/n2 = sp2 (1/n1 + 1/n2). */
  lemma AgreementAt(g1: Summary, g2: Summary, sp2: real, df: real, alpha: real, tail: Tail, lib: Lib)
    requires ValidSummary(g1) && ValidSummary(g2)
    requires !(g1.variance == 0.0 && g2.variance == 0.0)
    requires ValidLib(lib)
    requires 0.0 < sp2
    requires g1.variance / g1.n as real + g2.variance / g2.n as real == sp2 * (1.0 / g1.n as real + 1.0 / g2.n as real)
    requires df == (g1.n + g2.n - 2) as real
    ensures var w := WelchWithDf(g1, g2, df, alpha, tail, lib);
            var p := PooledFromVariance(sp2, g1, g2, alpha, tail, lib);
            w.se == p.se && w.t == p.t && w.df == p.df as real && w.decision == p.decision
  {
    var w := WelchWithDf(g1, g2, df, alpha, tail, lib);
    var p := PooledFromVariance(sp2, g1, g2, alpha, tail, lib);
    SameStandardization(w.se, w.t, p.se, p.t, g1.mean - g2.mean,
                        g1.variance / g1.n as real + g2.variance / g2.n as real,
                        sp2 * (1.0 / g1.n as real + 1.0 / g2.n as real));
  }

  /** Standardizing one difference by equal variances gives one standard
      error and one statistic. */
  lemma SameStandardization(se1: real, t1: real, se2: real, t2: real, diff: real, r1: real, r2: real)
    requires Standardizes(se1, t1, diff, r1) && Standardizes(se2, t2, diff, r2)
    requires r1 == r2
    ensures se1 == se2 && t1 == t2
  {
    RootUnique(se1, se2);
    assert (t1 - t2) * se1 == t1 * se1 - t2 * se2;
    ProductZero(t1 - t2, se1);
  }

  /** For equal sizes and variances the two standard errors have the same
      square: v/n + v/n is the pooled variance times 1/n + 1/n. */
  lemma EqualRadicands(n: int, v: real)
    requires n >= 2
    ensures v / n as real + v / n as real == PooledVariance(n, v, n, v) * (1.0 / n as real + 1.0 / n as real)
  {
    EqualWeightsPool(n, v);
    assert v / n as real == v * (1.0 / n as real);
  }

  /** Pooling two equal variances from groups of equal size gives that variance. */
  lemma EqualWeightsPool(n: int, v: real)
    requires n >= 2
    ensures PooledVariance(n, v, n, v) == v
  {
    var w := (n - 1) as real;
    assert w * v + w * v == (n + n - 2) as real * v;
  }

  /** The Satterthwaite formula for two groups of equal size and equal
      positive variance gives 2(n - 1). */
  lemma SatterthwaiteEqual(n: int, v: real)
    requires n >= 2 && 0.0 < v
    ensures SatterthwaiteDf(n, v, n, v) == (n + n - 2) as real
  {
    var a := v / n as real;
    var k := (n - 1) as real;
    QuotientSign(v, n as real);
    SqPositive(a);
    var s := Sq(a);
    assert Sq(a + a) == 4.0 * s by {
      assert (a + a) * (a + a) == a * (a + a) + a * (a + a);
      assert a * (a + a) == a * a + a * a;
    }
    QuotientSign(s, k);
    var den := s / k + s / k;
    assert den * k == 2.0 * s by {
      assert (s / k + s / k) * k == (s / k) * k + (s / k) * k;
    }
    DivideBack(4.0 * s, den, 2.0 * k);
  }

  /** x / y is the number z with z * y == x. */
  lemma DivideBack(x: real, y: real, z: real)
    requires y != 0.0 && z * y == x
    ensures x / y == z
  {
    var q := x / y;
    assert q * y == x;
    assert (q - z) * y == q * y - z * y;
    ProductZero(q - z, y);
  }
}
