/** The one-sample tests: the Z test for a proportion, the Z test for a
    mean with known sigma, the t test for a mean, and the paired t test,
    which is the t test on the pre-minus-post differences. Each test
    returns its intermediate quantities and the tail decision, or the
    reason it has no finite statistic. */
module OneSampleTests {
  import opened Numerics
  import opened Results
  import opened SampleStats
  import opened TailRule
  import opened Estimators

  /** The one-proportion Z test's outcome; `smallSample` is the condition
      under which the page warns that the normal approximation may fail. */
  datatype ProportionZ = ProportionZ(pHat: real, se: real, z: real, smallSample: bool, decision: Decision)

  /** Z test for one proportion: X successes in n trials against the
      hypothesised proportion pi0. The standard error is 0, and the
      statistic undefined, exactly when pi0 is 0 or 1. */
  function OneProportionZ(x: nat, n: nat, pi0: real, alpha: real, tail: Tail, lib: Lib): (r: Result<ProportionZ>)
    requires n >= 1 && 0.0 <= pi0 <= 1.0
    requires ValidLib(lib)
    ensures r.Failure? <==> pi0 == 0.0 || pi0 == 1.0
    ensures r.Failure? ==> r.error == ZeroStandardError
    ensures r.Success? ==>
              && r.value.pHat * (n as real) == x as real
              && 0.0 < r.value.se
              && r.value.se * r.value.se == pi0 * (1.0 - pi0) / (n as real)
              && r.value.z * r.value.se == r.value.pHat - pi0
              && (0.0 < r.value.z <==> pi0 < r.value.pHat)
              && (r.value.smallSample <==> (n as real) * pi0 < 5.0 || (n as real) * (1.0 - pi0) < 5.0)
              && r.value.decision == Decide(lib.normal, alpha, tail, r.value.z)
  {
    var pHat := Proportion(x, n);
    var radicand := pi0 * (1.0 - pi0) / n as real;
    ProportionVariance(pi0, n as real);
    if radicand == 0.0 then
      Failure(ZeroStandardError)
    else
      var se := lib.sqrt[radicand];
      SqrtPositive(lib.sqrt, radicand);
      var z := Standardize(pHat - pi0, se);
      var small := (n as real) * pi0 < 5.0 || (n as real) * (1.0 - pi0) < 5.0;
      Success(ProportionZ(pHat, se, z, small, Decide(lib.normal, alpha, tail, z)))
  }

  /** The Bernoulli variance over n is non-negative, and zero exactly at the
      ends of the unit interval. */
  lemma ProportionVariance(p: real, n: real)
    requires 0.0 <= p <= 1.0 && 0.0 < n
    ensures 0.0 <= p * (1.0 - p) / n
    ensures p * (1.0 - p) / n == 0.0 <==> p == 0.0 || p == 1.0
  {
    MulNonNegative(p, 1.0 - p);
    QuotientSign(p * (1.0 - p), n);
    if p * (1.0 - p) == 0.0 {
      ProductZero(p, 1.0 - p);
    }
  }

  /** The page's default inputs: 40 successes in 100 trials against 0.5
      give p = 0.4, a standard error of 0.05 and Z = -2. */
  lemma OneProportionExample(lib: Lib, alpha: real, tail: Tail)
    requires ValidLib(lib)
    ensures OneProportionZ(40, 100, 0.5, alpha, tail, lib).Success?
    ensures OneProportionZ(40, 100, 0.5, alpha, tail, lib).value.pHat == 0.4
    ensures OneProportionZ(40, 100, 0.5, alpha, tail, lib).value.se == 0.05
    ensures OneProportionZ(40, 100, 0.5, alpha, tail, lib).value.z == -2.0
    ensures !OneProportionZ(40, 100, 0.5, alpha, tail, lib).value.smallSample
  {
    assert 0.5 * (1.0 - 0.5) / 100.0 == 0.0025;
    SqrtOf(lib.sqrt, 0.0025, 0.05);
  }

  /** The one-sample Z test's outcome. */
  datatype MeanZ = MeanZ(mean: real, se: real, z: real, decision: Decision)

  /** Z test for a mean with known population sigma. The sigma input has
      no lower bound, so a negative sigma gives a negative standard error;
      sigma = 0 leaves the statistic undefined, and so does an empty
      sample. */
  function OneSampleZ(data: seq<real>, mu0: real, sigma: real, alpha: real, tail: Tail, lib: Lib): (r: Result<MeanZ>)
    requires ValidLib(lib)
    ensures r.Failure? <==> |data| == 0 || sigma == 0.0
    ensures |data| == 0 ==> r == Failure(TooFewObservations)
    ensures |data| > 0 && sigma == 0.0 ==> r == Failure(ZeroStandardError)
    ensures r.Success? ==>
              && r.value.mean == Mean(data)
              && r.value.se * lib.sqrt[|data| as real] == sigma
              && r.value.z * r.value.se == Mean(data) - mu0
              && r.value.decision == Decide(lib.normal, alpha, tail, r.value.z)
  {
    if |data| == 0 then
      Failure(TooFewObservations)
    else if sigma == 0.0 then
      Failure(ZeroStandardError)
    else
      var root := lib.sqrt[|data| as real];
      SqrtPositive(lib.sqrt, |data| as real);
      var se := sigma / root;
      QuotientSign(sigma, root);
      var z := Standardize(Mean(data) - mu0, se);
      Success(MeanZ(Mean(data), se, z, Decide(lib.normal, alpha, tail, z)))
  }

  /** Moving the sample and the hypothesised mean by the same amount
      changes neither the statistic nor the decision. */
  lemma OneSampleZShift(data: seq<real>, mu0: real, sigma: real, c: real, alpha: real, tail: Tail, lib: Lib)
    requires |data| > 0 && sigma != 0.0
    requires ValidLib(lib)
    ensures OneSampleZ(Shift(data, c), mu0 + c, sigma, alpha, tail, lib).value.z
         == OneSampleZ(data, mu0, sigma, alpha, tail, lib).value.z
    ensures OneSampleZ(Shift(data, c), mu0 + c, sigma, alpha, tail, lib).value.decision
         == OneSampleZ(data, mu0, sigma, alpha, tail, lib).value.decision
  {
    MeanShift(data, c);
    assert Mean(Shift(data, c)) - (mu0 + c) == Mean(data) - mu0;
  }

  /** The t statistic with its standard deviation, standard error and
      degrees of freedom. */
  datatype MeanT = MeanT(sd: real, se: real, t: real, df: int, decision: Decision)

  /** The t test for a mean from the sample's summary. When the sample
      standard deviation is 0 the statistic is undefined. */
  function TStatistic(g: Summary, mu0: real, alpha: real, tail: Tail, lib: Lib): (r: Result<MeanT>)
    requires ValidSummary(g)
    requires ValidLib(lib)
    ensures r.Failure? <==> g.variance == 0.0
    ensures r.Failure? ==> r.error == ZeroStandardError
    ensures r.Success? ==>
              && 0.0 < r.value.sd && r.value.sd * r.value.sd == g.variance
              && 0.0 < r.value.se && r.value.se * lib.sqrt[g.n as real] == r.value.sd
              && r.value.t * r.value.se == g.mean - mu0
              && (0.0 < r.value.t <==> mu0 < g.mean)
              && (r.value.t < 0.0 <==> g.mean < mu0)
              && r.value.df == g.n - 1
              && r.value.decision == Decide(lib.student[(g.n - 1) as real], alpha, tail, r.value.t)
  {
    if g.variance == 0.0 then
      Failure(ZeroStandardError)
    else
      var sd := lib.sqrt[g.variance];
      SqrtPositive(lib.sqrt, g.variance);
      var root := lib.sqrt[g.n as real];
      SqrtPositive(lib.sqrt, g.n as real);
      var se := sd / root;
      QuotientSign(sd, root);
      var t := Standardize(g.mean - mu0, se);
      var df := g.n - 1;
      Success(MeanT(sd, se, t, df, Decide(lib.student[df as real], alpha, tail, t)))
  }

  /** Moving the mean and the hypothesised mean by the same amount changes
      nothing in the test. */
  lemma TStatisticShift(g: Summary, mu0: real, c: real, alpha: real, tail: Tail, lib: Lib)
    requires ValidSummary(g)
    requires ValidLib(lib)
    ensures TStatistic(Summary(g.n, g.mean + c, g.variance), mu0 + c, alpha, tail, lib)
         == TStatistic(g, mu0, alpha, tail, lib)
  {
    assert g.mean + c - (mu0 + c) == g.mean - mu0;
  }

  /** Negating the mean, against a hypothesised mean of 0, negates t and
      keeps the standard error, the degrees of freedom and the two-sided
      verdict. */
  lemma TStatisticNegate(g: Summary, alpha: real, lib: Lib)
    requires ValidSummary(g)
    requires ValidLib(lib)
    ensures TStatistic(Summary(g.n, -g.mean, g.variance), 0.0, alpha, TwoSided, lib).Success?
        <==> TStatistic(g, 0.0, alpha, TwoSided, lib).Success?
    ensures TStatistic(g, 0.0, alpha, TwoSided, lib).Success? ==>
              && TStatistic(Summary(g.n, -g.mean, g.variance), 0.0, alpha, TwoSided, lib).value.t
                 == -TStatistic(g, 0.0, alpha, TwoSided, lib).value.t
              && TStatistic(Summary(g.n, -g.mean, g.variance), 0.0, alpha, TwoSided, lib).value.se
                 == TStatistic(g, 0.0, alpha, TwoSided, lib).value.se
              && TStatistic(Summary(g.n, -g.mean, g.variance), 0.0, alpha, TwoSided, lib).value.df
                 == TStatistic(g, 0.0, alpha, TwoSided, lib).value.df
              && TStatistic(Summary(g.n, -g.mean, g.variance), 0.0, alpha, TwoSided, lib).value.decision
                 == TStatistic(g, 0.0, alpha, TwoSided, lib).value.decision
  {
    var r := TStatistic(g, 0.0, alpha, TwoSided, lib);
    if r.Success? {
      assert -g.mean - 0.0 == -(g.mean - 0.0);
      StandardizeOdd(g.mean - 0.0, r.value.se);
      TwoSidedIsTwiceRightTail(lib.student[(g.n - 1) as real], alpha, r.value.t);
    }
  }

  /** The t test with the normality pre-check's verdict, which only
      produces a warning. */
  datatype TTest = TTest(stat: MeanT, normalOk: bool)

  /** The one-sample t test on a sample. It runs only on more than one
      observation, and it has no statistic when all observations are
      equal. */
  function OneSampleT(data: seq<real>, mu0: real, alpha: real, tail: Tail, lib: Lib): (r: Result<TTest>)
    requires ValidLib(lib)
    ensures |data| < 2 ==> r == Failure(TooFewObservations)
    ensures |data| >= 2 ==> (r.Failure? <==> forall i :: 0 <= i < |data| ==> data[i] == data[0])
    ensures |data| >= 2 && r.Failure? ==> r.error == ZeroStandardError
    ensures r.Success? ==>
              && |data| >= 2
              && TStatistic(Summarize(data), mu0, alpha, tail, lib) == Success(r.value.stat)
              && r.value.normalOk == CheckNormality(data, lib.shapiroP)
  {
    if |data| < 2 then
      Failure(TooFewObservations)
    else
      VarianceZeroIff(data);
      match TStatistic(Summarize(data), mu0, alpha, tail, lib)
      case Failure(e) => Failure(e)
      case Success(stat) => Success(TTest(stat, CheckNormality(data, lib.shapiroP)))
  }

  /** Moving the sample and the hypothesised mean by the same amount
      changes neither the statistic nor the decision. */
  lemma OneSampleTShift(data: seq<real>, mu0: real, c: real, alpha: real, tail: Tail, lib: Lib)
    requires |data| >= 2
    requires ValidLib(lib)
    ensures OneSampleT(Shift(data, c), mu0 + c, alpha, tail, lib).Success?
        <==> OneSampleT(data, mu0, alpha, tail, lib).Success?
    ensures OneSampleT(data, mu0, alpha, tail, lib).Success? ==>
              OneSampleT(Shift(data, c), mu0 + c, alpha, tail, lib).value.stat
              == OneSampleT(data, mu0, alpha, tail, lib).value.stat
  {
    VarianceShift(data, c);
    TStatisticShift(Summarize(data), mu0, c, alpha, tail, lib);
    assert Summarize(Shift(data, c)) == Summary(|data|, Mean(data) + c, Variance(data));
  }

  /** The paired t test: defined only for samples of equal length, it is
      the t test of the differences pre[i] - post[i] against 0. */
  function PairedT(pre: seq<real>, post: seq<real>, alpha: real, tail: Tail, lib: Lib): (r: Result<TTest>)
    requires ValidLib(lib)
    ensures |pre| != |post| ==> r == Failure(LengthMismatch)
    ensures |pre| == |post| && |pre| < 2 ==> r == Failure(TooFewObservations)
    ensures |pre| == |post| && |pre| >= 2 ==>
              (r.Failure? <==> forall i :: 0 <= i < |pre| ==> pre[i] - post[i] == pre[0] - post[0])
    ensures r.Success? ==>
              && |pre| == |post| && |pre| >= 2
              && TStatistic(Summarize(Diff(pre, post)), 0.0, alpha, tail, lib) == Success(r.value.stat)
              && r.value.normalOk == CheckNormality(Diff(pre, post), lib.shapiroP)
  {
    if |pre| != |post| then
      Failure(LengthMismatch)
    else
      OneSampleT(Diff(pre, post), 0.0, alpha, tail, lib)
  }

  /** Identical before and after measurements have mean difference 0 and a
      standard deviation of 0, so the paired test has no statistic. */
  lemma PairedIdentical(a: seq<real>, alpha: real, tail: Tail, lib: Lib)
    requires |a| >= 2
    requires ValidLib(lib)
    ensures Mean(Diff(a, a)) == 0.0
    ensures PairedT(a, a, alpha, tail, lib) == Failure(ZeroStandardError)
  {
    DiffSelf(a);
  }

  /** Exchanging the before and after samples negates the paired statistic
      and leaves its standard error, degrees of freedom and two-sided
      verdict unchanged. */
  lemma PairedSwap(pre: seq<real>, post: seq<real>, alpha: real, lib: Lib)
    requires |pre| == |post|
    requires ValidLib(lib)
    ensures PairedT(post, pre, alpha, TwoSided, lib).Success? <==> PairedT(pre, post, alpha, TwoSided, lib).Success?
    ensures PairedT(pre, post, alpha, TwoSided, lib).Success? ==>
              && PairedT(post, pre, alpha, TwoSided, lib).value.stat.t == -PairedT(pre, post, alpha, TwoSided, lib).value.stat.t
              && PairedT(post, pre, alpha, TwoSided, lib).value.stat.se == PairedT(pre, post, alpha, TwoSided, lib).value.stat.se
              && PairedT(post, pre, alpha, TwoSided, lib).value.stat.df == PairedT(pre, post, alpha, TwoSided, lib).value.stat.df
              && PairedT(post, pre, alpha, TwoSided, lib).value.stat.decision
                 == PairedT(pre, post, alpha, TwoSided, lib).value.stat.decision
  {
    var d := Diff(pre, post);
    DiffSwap(pre, post);
    if |d| >= 2 {
      VarianceNeg(d);
      assert Summarize(Neg(d)) == Summary(|d|, -Mean(d), Variance(d));
      TStatisticNegate(Summarize(d), alpha, lib);
    }
  }
}
