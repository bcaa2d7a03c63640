/** The F test for the ratio of two variances. */
module VarianceFTest {
  import opened Numerics
  import opened Results
  import opened SampleStats
  import opened TailRule
  import opened Estimators

  /** The F test's outcome. */
  datatype FOutcome = FOutcome(ratio: FRatio, decision: Decision)

  /** The F test for the ratio of two variances from the two summaries,
      the larger variance on top, with the two-sided rule at the upper
      tail. A variance of 0 leaves the ratio undefined. */
  function FCore(g1: Summary, g2: Summary, alpha: real, lib: Lib): (r: Result<FOutcome>)
    requires ValidSummary(g1) && ValidSummary(g2)
    requires ValidLib(lib)
    ensures r.Failure? <==> g1.variance == 0.0 || g2.variance == 0.0
    ensures r.Failure? ==> r.error == ZeroVariance
    ensures r.Success? ==>
              && 1.0 <= r.value.ratio.f
              && r.value.ratio.f * Min(g1.variance, g2.variance) == Max(g1.variance, g2.variance)
              && (g1.variance >= g2.variance ==> r.value.ratio.df1 == g1.n - 1 && r.value.ratio.df2 == g2.n - 1)
              && (g1.variance < g2.variance ==> r.value.ratio.df1 == g2.n - 1 && r.value.ratio.df2 == g1.n - 1)
              && (r.value.decision.reject <==> r.value.ratio.f > r.value.decision.critical)
              && r.value.decision
                 == DecideF(lib.fisher[r.value.ratio.df1 as real][r.value.ratio.df2 as real], alpha, r.value.ratio.f)
  {
    if g1.variance == 0.0 || g2.variance == 0.0 then
      Failure(ZeroVariance)
    else
      var ratio := OrderVariances(g1.variance, g1.n, g2.variance, g2.n);
      Success(FOutcome(ratio, DecideF(lib.fisher[ratio.df1 as real][ratio.df2 as real], alpha, ratio.f)))
  }

  /** Which group is entered first never changes F; unless the variances
      tie, it changes neither the degrees of freedom nor the verdict, and
      on a tie it swaps the degrees of freedom. */
  lemma FCoreSwap(g1: Summary, g2: Summary, alpha: real, lib: Lib)
    requires ValidSummary(g1) && ValidSummary(g2)
    requires ValidLib(lib)
    requires FCore(g1, g2, alpha, lib).Success?
    ensures FCore(g2, g1, alpha, lib).Success?
    ensures FCore(g2, g1, alpha, lib).value.ratio.f == FCore(g1, g2, alpha, lib).value.ratio.f
    ensures g1.variance != g2.variance ==> FCore(g2, g1, alpha, lib) == FCore(g1, g2, alpha, lib)
    ensures g1.variance == g2.variance ==>
              && FCore(g2, g1, alpha, lib).value.ratio.df1 == FCore(g1, g2, alpha, lib).value.ratio.df2
              && FCore(g2, g1, alpha, lib).value.ratio.df2 == FCore(g1, g2, alpha, lib).value.ratio.df1
  {
    OrderVariancesSwap(g1.variance, g1.n, g2.variance, g2.n);
  }

  /** When every F distribution lives on the positive reals, the F test
      rejects exactly when its p-value is below alpha. */
  lemma FCoreAgreesWithPValue(g1: Summary, g2: Summary, alpha: real, lib: Lib)
    requires ValidSummary(g1) && ValidSummary(g2)
    requires ValidLib(lib)
    requires forall df1, df2 :: ValidPositiveDist(lib.fisher[df1][df2])
    requires 0.0 < alpha < 2.0
    requires FCore(g1, g2, alpha, lib).Success?
    ensures FCore(g1, g2, alpha, lib).value.decision.reject
        <==> FCore(g1, g2, alpha, lib).value.decision.pValue < alpha
  {
    var r := FCore(g1, g2, alpha, lib).value.ratio;
    DecideFAgreesWithPValue(lib.fisher[r.df1 as real][r.df2 as real], alpha, r.f);
  }

  /** The F test on two samples. Each group needs two observations. */
  function FTest(d1: seq<real>, d2: seq<real>, alpha: real, lib: Lib): (r: Result<FOutcome>)
    requires ValidLib(lib)
    ensures |d1| < 2 || |d2| < 2 ==> r == Failure(TooFewObservations)
    ensures |d1| >= 2 && |d2| >= 2 ==>
              (r.Failure? <==> (forall i :: 0 <= i < |d1| ==> d1[i] == d1[0])
                               || (forall i :: 0 <= i < |d2| ==> d2[i] == d2[0]))
    ensures r.Success? ==>
              && |d1| >= 2 && |d2| >= 2
              && FCore(Summarize(d1), Summarize(d2), alpha, lib) == r
  {
    if |d1| < 2 || |d2| < 2 then
      Failure(TooFewObservations)
    else
      VarianceZeroIff(d1);
      VarianceZeroIff(d2);
      FCore(Summarize(d1), Summarize(d2), alpha, lib)
  }

  /** The F page's default groups give variances 3.7 and 0.5, so F = 7.4
      with 4 and 4 degrees of freedom. */
  lemma FTestExample(alpha: real, lib: Lib)
    requires ValidLib(lib)
    ensures FTest([7.0, 9.0, 12.0, 10.0, 8.0], [8.0, 8.0, 9.0, 7.0, 8.0], alpha, lib).Success?
    ensures FTest([7.0, 9.0, 12.0, 10.0, 8.0], [8.0, 8.0, 9.0, 7.0, 8.0], alpha, lib).value.ratio
         == FRatio(7.4, 4, 4)
  {
    SummaryOfFive([7.0, 9.0, 12.0, 10.0, 8.0], 9.2, 3.7);
    SummaryOfFive([8.0, 8.0, 9.0, 7.0, 8.0], 8.0, 0.5);
  }

  /** Mean and variance of a five-observation sample, by unfolding. */
  lemma SummaryOfFive(s: seq<real>, m: real, v: real)
    requires |s| == 5
    requires s[0] + s[1] + s[2] + s[3] + s[4] == 5.0 * m
    requires Sq(s[0] - m) + Sq(s[1] - m) + Sq(s[2] - m) + Sq(s[3] - m) + Sq(s[4] - m) == 4.0 * v
    ensures Summarize(s) == Summary(5, m, v)
  {
    SumFive(s);
    SumSqDevFive(s, m);
  }

  lemma SumFive(s: seq<real>)
    requires |s| == 5
    ensures Sum(s) == s[0] + s[1] + s[2] + s[3] + s[4]
  {
    assert s[..4][..3] == s[..3] && s[..3][..2] == s[..2] && s[..2][..1] == s[..1] && s[..1][..0] == [];
    assert Sum(s) == Sum(s[..4]) + s[4];
    assert Sum(s[..4]) == Sum(s[..3]) + s[3];
    assert Sum(s[..3]) == Sum(s[..2]) + s[2];
    assert Sum(s[..2]) == Sum(s[..1]) + s[1];
    assert Sum(s[..1]) == Sum([]) + s[0];
  }

  lemma SumSqDevFive(s: seq<real>, m: real)
    requires |s| == 5
    ensures SumSqDev(s, m) == Sq(s[0] - m) + Sq(s[1] - m) + Sq(s[2] - m) + Sq(s[3] - m) + Sq(s[4] - m)
  {
    assert s[..4][..3] == s[..3] && s[..3][..2] == s[..2] && s[..2][..1] == s[..1] && s[..1][..0] == [];
    assert SumSqDev(s, m) == SumSqDev(s[..4], m) + Sq(s[4] - m);
    assert SumSqDev(s[..4], m) == SumSqDev(s[..3], m) + Sq(s[3] - m);
    assert SumSqDev(s[..3], m) == SumSqDev(s[..2], m) + Sq(s[2] - m);
    assert SumSqDev(s[..2], m) == SumSqDev(s[..1], m) + Sq(s[1] - m);
    assert SumSqDev(s[..1], m) == SumSqDev([], m) + Sq(s[0] - m);
  }
}
