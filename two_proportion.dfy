/** The Z test for the difference of two proportions, with the pooled
    proportion in the standard error. */
module TwoProportionTest {
  import opened Numerics
  import opened Results
  import opened SampleStats
  import opened TailRule
  import opened Estimators

  /** The two-proportion Z test's outcome. */
  datatype ProportionsZ = ProportionsZ(p1: real, p2: real, pPool: real, se: real, z: real, decision: Decision)

  /** Z test for the difference of two proportions, with the pooled
      proportion in the standard error. The standard error vanishes, and
      the statistic is undefined, when the pooled proportion is 0 or at
      least 1: no successes at all, or at least as many successes as
      trials (`NullVariancePositive`). */
  function TwoProportionZ(x1: nat, n1: nat, x2: nat, n2: nat, alpha: real, tail: Tail, lib: Lib): (r: Result<ProportionsZ>)
    requires n1 >= 1 && n2 >= 1
    requires ValidLib(lib)
    ensures r.Failure? <==> x1 + x2 == 0 || x1 + x2 >= n1 + n2
    ensures r.Failure? ==> r.error == ZeroStandardError
    ensures r.Success? ==>
              && 0.0 < PooledProportion(x1, n1, x2, n2) < 1.0
              && r.value == ZFromProportions(Proportion(x1, n1), Proportion(x2, n2),
                                             PooledProportion(x1, n1, x2, n2), n1, n2, alpha, tail, lib)
  {
    if x1 + x2 == 0 || x1 + x2 >= n1 + n2 then
      Failure(ZeroStandardError)
    else
      FractionInside(x1 + x2, n1 + n2);
      Success(ZFromProportions(Proportion(x1, n1), Proportion(x2, n2),
                               PooledProportion(x1, n1, x2, n2), n1, n2, alpha, tail, lib))
  }

  /** The statistic once the pooled proportion is known to lie strictly
      between 0 and 1: the difference p1 - p2 over the square root of
      pPool (1 - pPool) (1/n1 + 1/n2), and the normal decision. */
  function ZFromProportions(p1: real, p2: real, pPool: real, n1: nat, n2: nat, alpha: real, tail: Tail, lib: Lib)
    : (r: ProportionsZ)
    requires n1 >= 1 && n2 >= 1
    requires 0.0 < pPool < 1.0
    requires ValidLib(lib)
    ensures r.p1 == p1 && r.p2 == p2 && r.pPool == pPool
    ensures Standardizes(r.se, r.z, p1 - p2, pPool * (1.0 - pPool) * (1.0 / n1 as real + 1.0 / n2 as real))
    ensures r.decision == Decide(lib.normal, alpha, tail, r.z)
  {
    var k := 1.0 / n1 as real + 1.0 / n2 as real;
    QuotientsPositive(1.0, n1 as real, 1.0, n2 as real);
    MulPositive(pPool, 1.0 - pPool);
    MulPositive(pPool * (1.0 - pPool), k);
    var s := StandardizeBy(p1 - p2, pPool * (1.0 - pPool) * k, lib.sqrt);
    ProportionsZ(p1, p2, pPool, s.se, s.stat, Decide(lib.normal, alpha, tail, s.stat))
  }

  /** The statistic points the way of the difference of the proportions. */
  lemma TwoProportionSign(x1: nat, n1: nat, x2: nat, n2: nat, alpha: real, tail: Tail, lib: Lib)
    requires n1 >= 1 && n2 >= 1
    requires ValidLib(lib)
    requires TwoProportionZ(x1, n1, x2, n2, alpha, tail, lib).Success?
    ensures 0.0 < TwoProportionZ(x1, n1, x2, n2, alpha, tail, lib).value.z
        <==> Proportion(x2, n2) < Proportion(x1, n1)
    ensures TwoProportionZ(x1, n1, x2, n2, alpha, tail, lib).value.z < 0.0
        <==> Proportion(x1, n1) < Proportion(x2, n2)
  {
    ZSign(Proportion(x1, n1), Proportion(x2, n2), PooledProportion(x1, n1, x2, n2), n1, n2, alpha, tail, lib);
  }

  lemma ZSign(p1: real, p2: real, pPool: real, n1: nat, n2: nat, alpha: real, tail: Tail, lib: Lib)
    requires n1 >= 1 && n2 >= 1
    requires 0.0 < pPool < 1.0
    requires ValidLib(lib)
    ensures 0.0 < ZFromProportions(p1, p2, pPool, n1, n2, alpha, tail, lib).z <==> p2 < p1
    ensures ZFromProportions(p1, p2, pPool, n1, n2, alpha, tail, lib).z < 0.0 <==> p1 < p2
  {
    var r := ZFromProportions(p1, p2, pPool, n1, n2, alpha, tail, lib);
    StandardizesSign(r.se, r.z, p1 - p2, pPool * (1.0 - pPool) * (1.0 / n1 as real + 1.0 / n2 as real));
  }

  /** A fraction x/n with 0 < x < n lies strictly between 0 and 1. */
  lemma FractionInside(x: nat, n: nat)
    requires 0 < x < n
    ensures 0.0 < x as real / n as real < 1.0
  {
    QuotientSign(x as real, n as real);
    if 1.0 <= x as real / n as real {
      ScalePositive(1.0, x as real / n as real, n as real);
    }
  }

  /** With p = x/n and k > 0, the variance p(1-p)k is positive exactly
      when 0 < x < n; otherwise its square root, the standard error, is 0
      or undefined. */
  lemma NullVariancePositive(x: nat, n: nat, p: real, k: real)
    requires n >= 1 && 0.0 < k
    requires p == x as real / n as real
    ensures 0.0 < p * (1.0 - p) * k <==> 0 < x < n
  {
    QuotientSign(x as real, n as real);
    if 0 < x < n {
      assert p < 1.0 by {
        if 1.0 <= p {
          ScalePositive(1.0, p, n as real);
        }
      }
      MulPositive(p, 1.0 - p);
      MulPositive(p * (1.0 - p), k);
    } else if x == 0 {
      assert p == 0.0;
    } else {
      assert 1.0 <= p by {
        CancelPositive(1.0, p, n as real);
      }
      MulNonNegative(p, p - 1.0);
      MulNonNegative(p * (p - 1.0), k);
      assert p * (1.0 - p) * k == -(p * (p - 1.0) * k);
    }
  }
}
