/** The numerical routines the engine borrows from numpy and scipy, kept
    abstract: a square root, the standard normal, Student t and Fisher F
    distributions (cumulative distribution function and quantile function),
    and the p-value of the Shapiro-Wilk normality test. Each routine is an
    infinite map from its arguments to its result, and only the facts the
    proofs need are assumed about them, as predicates on the maps. */
module Numerics {

  function Abs(x: real): (r: real)
    ensures 0.0 <= r && (r == x || r == -x)
  {
    if x < 0.0 then -x else x
  }

  /** `sqrt` is defined on the non-negative reals and agrees with the real
      square root there. */
  ghost predicate IsSqrt(sqrt: imap<real, real>)
  {
    forall x :: 0.0 <= x ==> x in sqrt && 0.0 <= sqrt[x] && sqrt[x] * sqrt[x] == x
  }

  lemma SqrtPositive(sqrt: imap<real, real>, x: real)
    requires IsSqrt(sqrt)
    requires 0.0 < x
    ensures 0.0 < sqrt[x]
  {
    var r := sqrt[x];
    assert 0.0 <= r && r * r == x;
  }

  /** The square root is the unique non-negative root. */
  lemma SqrtOf(sqrt: imap<real, real>, x: real, r: real)
    requires IsSqrt(sqrt)
    requires 0.0 <= r && r * r == x
    ensures sqrt[x] == r
  {
    var q := sqrt[x];
    assert 0.0 <= q && q * q == x;
    RootUnique(q, r);
  }

  lemma RootUnique(q: real, r: real)
    requires 0.0 <= q && 0.0 <= r && q * q == r * r
    ensures q == r
  {
    assert (q - r) * (q + r) == q * q - r * r;
    if q + r != 0.0 {
      assert q - r == 0.0;
    }
  }

  /** A function defined on every real. */
  ghost predicate Total(f: imap<real, real>)
  {
    forall x :: x in f
  }

  /** A continuous distribution given by its cdf and its quantile function (ppf). */
  datatype Dist = Dist(cdf: imap<real, real>, ppf: imap<real, real>)

  ghost predicate IsDist(d: Dist)
  {
    Total(d.cdf) && Total(d.ppf)
  }

  /** The cdf is strictly increasing and the quantile function is its
      inverse on the open unit interval. */
  ghost predicate ValidDist(d: Dist)
  {
    && IsDist(d)
    && (forall x, y :: x < y ==> d.cdf[x] < d.cdf[y])
    && (forall u :: 0.0 < u < 1.0 ==> var q := d.ppf[u]; d.cdf[q] == u)
  }

  /** A statistic lies above (below) the u-quantile exactly when its cdf
      value lies above (below) u. */
  lemma QuantileOrder(d: Dist, u: real, x: real)
    requires ValidDist(d)
    requires 0.0 < u < 1.0
    ensures x > d.ppf[u] <==> d.cdf[x] > u
    ensures x < d.ppf[u] <==> d.cdf[x] < u
  {
    var q := d.ppf[u];
    assert d.cdf[q] == u;
    if x > q {
      assert d.cdf[q] < d.cdf[x];
    } else if x < q {
      assert d.cdf[x] < d.cdf[q];
    }
  }

  /** A distribution on the positive reals, such as Fisher's F: its cdf is
      strictly increasing on x > 0 only, and its quantiles on the open
      unit interval are positive. */
  ghost predicate ValidPositiveDist(d: Dist)
  {
    && IsDist(d)
    && (forall x, y :: 0.0 < x < y ==> d.cdf[x] < d.cdf[y])
    && (forall u :: 0.0 < u < 1.0 ==> var q := d.ppf[u]; 0.0 < q && d.cdf[q] == u)
  }

  /** For a positive statistic, `QuantileOrder` holds on the positive reals. */
  lemma PositiveQuantileOrder(d: Dist, u: real, x: real)
    requires ValidPositiveDist(d)
    requires 0.0 < u < 1.0 && 0.0 < x
    ensures x > d.ppf[u] <==> d.cdf[x] > u
  {
    var q := d.ppf[u];
    assert 0.0 < q && d.cdf[q] == u;
    if x > q {
      assert d.cdf[q] < d.cdf[x];
    } else if x < q {
      assert d.cdf[x] < d.cdf[q];
    }
  }

  /** A statistic defined on every sample. */
  ghost predicate TotalOnSamples(p: imap<seq<real>, real>)
  {
    forall s: seq<real> :: s in p
  }

  /** The routines of the numerical libraries the test engine calls.
      `student[df]` is the t distribution with df degrees of freedom,
      `fisher[df1][df2]` the F distribution, and `shapiroP` gives the
      Shapiro-Wilk p-value of a sample. */
  datatype Lib = Lib(
    sqrt: imap<real, real>,
    normal: Dist,
    student: imap<real, Dist>,
    fisher: imap<real, imap<real, Dist>>,
    shapiroP: imap<seq<real>, real>)

  /** Every routine is defined wherever the engine may call it. */
  ghost predicate ValidLib(lib: Lib)
  {
    && IsSqrt(lib.sqrt)
    && IsDist(lib.normal)
    && (forall df :: df in lib.student && IsDist(lib.student[df]))
    && (forall df1 :: df1 in lib.fisher && (forall df2 :: df2 in lib.fisher[df1] && IsDist(lib.fisher[df1][df2])))
    && TotalOnSamples(lib.shapiroP)
  }
}
