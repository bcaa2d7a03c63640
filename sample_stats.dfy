/** Sample statistics as numpy computes them in exact arithmetic:
    `np.mean` and the Bessel-corrected `np.var(..., ddof=1)`. */
module SampleStats {

  function Sq(x: real): (r: real)
    ensures 0.0 <= r
  {
    x * x
  }

  lemma ProductZero(a: real, b: real)
    requires a * b == 0.0
    ensures a == 0.0 || b == 0.0
  {
  }

  lemma SqZero(x: real)
    requires Sq(x) == 0.0
    ensures x == 0.0
  {
    ProductZero(x, x);
  }

  lemma SqPositive(x: real)
    requires x != 0.0
    ensures 0.0 < Sq(x)
  {
    if Sq(x) == 0.0 {
      SqZero(x);
    }
  }

  function Sum(s: seq<real>): real
    decreases |s|
  {
    if |s| == 0 then 0.0 else Sum(s[..|s| - 1]) + s[|s| - 1]
  }

  /** `np.mean`. */
  function Mean(s: seq<real>): real
    requires |s| > 0
  {
    Sum(s) / (|s| as real)
  }

  /** The sum of squared deviations of the sample from `m`. */
  function SumSqDev(s: seq<real>, m: real): (r: real)
    ensures 0.0 <= r
    decreases |s|
  {
    if |s| == 0 then 0.0 else SumSqDev(s[..|s| - 1], m) + Sq(s[|s| - 1] - m)
  }

  /** `np.var(s, ddof=1)`, the square of `np.std(s, ddof=1)`. */
  function Variance(s: seq<real>): (v: real)
    requires |s| >= 2
    ensures 0.0 <= v
  {
    SumSqDev(s, Mean(s)) / ((|s| - 1) as real)
  }

  /** What the tests compute from a sample before anything else: its size,
      its mean and its Bessel-corrected variance. */
  datatype Summary = Summary(n: int, mean: real, variance: real)

  /** A summary of a sample of at least two observations. */
  predicate ValidSummary(g: Summary)
  {
    g.n >= 2 && 0.0 <= g.variance
  }

  function Summarize(s: seq<real>): (g: Summary)
    requires |s| >= 2
    ensures ValidSummary(g) && g.n == |s|
  {
    Summary(|s|, Mean(s), Variance(s))
  }

  /** The sample with every observation negated. */
  function Neg(s: seq<real>): (r: seq<real>)
    ensures |r| == |s| && forall i :: 0 <= i < |s| ==> r[i] == -s[i]
  {
    seq(|s|, i requires 0 <= i < |s| => -s[i])
  }

  /** The element-wise differences `a[i] - b[i]` (numpy's `d1 - d2`). */
  function Diff(a: seq<real>, b: seq<real>): (r: seq<real>)
    requires |a| == |b|
    ensures |r| == |a| && forall i :: 0 <= i < |a| ==> r[i] == a[i] - b[i]
  {
    seq(|a|, i requires 0 <= i < |a| => a[i] - b[i])
  }

  lemma {:induction false} SumNeg(s: seq<real>)
    ensures Sum(Neg(s)) == -Sum(s)
    decreases |s|
  {
    if |s| > 0 {
      assert Neg(s)[..|s| - 1] == Neg(s[..|s| - 1]);
      SumNeg(s[..|s| - 1]);
    }
  }

  lemma MeanNeg(s: seq<real>)
    requires |s| > 0
    ensures Mean(Neg(s)) == -Mean(s)
  {
    SumNeg(s);
  }

  lemma {:induction false} SumSqDevNeg(s: seq<real>, m: real)
    ensures SumSqDev(Neg(s), -m) == SumSqDev(s, m)
    decreases |s|
  {
    if |s| > 0 {
      assert Neg(s)[..|s| - 1] == Neg(s[..|s| - 1]);
      SumSqDevNeg(s[..|s| - 1], m);
    }
  }

  /** Negating a sample negates its mean and keeps its variance. */
  lemma VarianceNeg(s: seq<real>)
    requires |s| >= 2
    ensures Mean(Neg(s)) == -Mean(s)
    ensures Variance(Neg(s)) == Variance(s)
  {
    MeanNeg(s);
    SumSqDevNeg(s, Mean(s));
  }

  /** The squared deviations sum to zero exactly when every observation equals `m`. */
  lemma {:induction false} SumSqDevZero(s: seq<real>, m: real)
    ensures SumSqDev(s, m) == 0.0 <==> forall i :: 0 <= i < |s| ==> s[i] == m
    decreases |s|
  {
    if |s| > 0 {
      var init := s[..|s| - 1];
      SumSqDevZero(init, m);
      assert forall i :: 0 <= i < |init| ==> init[i] == s[i];
      if SumSqDev(s, m) == 0.0 {
        assert Sq(s[|s| - 1] - m) == 0.0;
        SqZero(s[|s| - 1] - m);
      }
    }
  }

  lemma {:induction false} SumConstant(s: seq<real>, c: real)
    requires forall i :: 0 <= i < |s| ==> s[i] == c
    ensures Sum(s) == (|s| as real) * c
    decreases |s|
  {
    if |s| > 0 {
      SumConstant(s[..|s| - 1], c);
    }
  }

  /** A sample's variance is zero exactly when all its observations are equal. */
  lemma VarianceZeroIff(s: seq<real>)
    requires |s| >= 2
    ensures Variance(s) == 0.0 <==> forall i :: 0 <= i < |s| ==> s[i] == s[0]
  {
    var m := Mean(s);
    SumSqDevZero(s, m);
    if forall i :: 0 <= i < |s| ==> s[i] == s[0] {
      SumConstant(s, s[0]);
      assert m == s[0];
    }
  }

  /** The differences of a sample with itself are all zero, so their mean
      and their variance are zero. */
  lemma DiffSelf(a: seq<real>)
    requires |a| >= 2
    ensures Mean(Diff(a, a)) == 0.0
    ensures Variance(Diff(a, a)) == 0.0
  {
    var d := Diff(a, a);
    SumConstant(d, 0.0);
    VarianceZeroIff(d);
  }

  /** Swapping the two samples negates the differences. */
  lemma DiffSwap(a: seq<real>, b: seq<real>)
    requires |a| == |b|
    ensures Diff(b, a) == Neg(Diff(a, b))
  {
  }

  /** The sample with `c` added to every observation. */
  function Shift(s: seq<real>, c: real): (r: seq<real>)
    ensures |r| == |s| && forall i :: 0 <= i < |s| ==> r[i] == s[i] + c
  {
    seq(|s|, i requires 0 <= i < |s| => s[i] + c)
  }

  lemma {:induction false} SumShift(s: seq<real>, c: real)
    ensures Sum(Shift(s, c)) == Sum(s) + (|s| as real) * c
    decreases |s|
  {
    if |s| > 0 {
      assert Shift(s, c)[..|s| - 1] == Shift(s[..|s| - 1], c);
      SumShift(s[..|s| - 1], c);
    }
  }

  lemma {:induction false} SumSqDevShift(s: seq<real>, m: real, c: real)
    ensures SumSqDev(Shift(s, c), m + c) == SumSqDev(s, m)
    decreases |s|
  {
    if |s| > 0 {
      assert Shift(s, c)[..|s| - 1] == Shift(s[..|s| - 1], c);
      SumSqDevShift(s[..|s| - 1], m, c);
    }
  }

  /** Moving every observation by `c` moves the mean by `c`. */
  lemma MeanShift(s: seq<real>, c: real)
    requires |s| > 0
    ensures Mean(Shift(s, c)) == Mean(s) + c
  {
    SumShift(s, c);
    var n := |s| as real;
    assert (Sum(s) + n * c) / n == Sum(s) / n + c;
  }

  /** ... and keeps the variance. */
  lemma VarianceShift(s: seq<real>, c: real)
    requires |s| >= 2
    ensures Mean(Shift(s, c)) == Mean(s) + c
    ensures Variance(Shift(s, c)) == Variance(s)
  {
    MeanShift(s, c);
    SumSqDevShift(s, Mean(s), c);
  }
}
