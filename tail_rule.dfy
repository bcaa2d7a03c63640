/** The tail-dependent decision rule shared by the normal and t tests, the
    two-sided rule of the F test, and the mapping from the menu's tail
    labels to a tail. */
module TailRule {
  import opened Numerics

  datatype Tail = TwoSided | RightSided | LeftSided

  /** Critical value, p-value and whether the null hypothesis is rejected. */
  datatype Decision = Decision(critical: real, pValue: real, reject: bool)

  predicate IsPrefix(p: string, s: string)
  {
    |p| <= |s| && s[..|p|] == p
  }

  /** Python's `sub in s`. */
  predicate Contains(s: string, sub: string)
    decreases |s|
  {
    IsPrefix(sub, s) || (|s| > 0 && Contains(s[1..], sub))
  }

  /** `sub` occurs in `s` starting at index `i`. */
  predicate OccursAt(s: string, sub: string, i: int)
  {
    0 <= i && i + |sub| <= |s| && s[i..i + |sub|] == sub
  }

  /** `Contains` is the usual substring test: some occurrence exists. */
  lemma {:induction false} ContainsAt(s: string, sub: string)
    ensures Contains(s, sub) <==> exists i :: OccursAt(s, sub, i)
    decreases |s|
  {
    if |s| > 0 {
      ContainsAt(s[1..], sub);
      if IsPrefix(sub, s) {
        assert s[0..|sub|] == s[..|sub|];
        assert OccursAt(s, sub, 0);
      }
      if Contains(s[1..], sub) {
        var i :| OccursAt(s[1..], sub, i);
        assert s[i + 1..i + 1 + |sub|] == s[1..][i..i + |sub|];
        assert OccursAt(s, sub, i + 1);
      }
      if exists i :: OccursAt(s, sub, i) {
        var i :| OccursAt(s, sub, i);
        if i > 0 {
          assert s[1..][i - 1..i - 1 + |sub|] == s[i..i + |sub|];
          assert OccursAt(s[1..], sub, i - 1);
        } else {
          assert s[..|sub|] == s[i..i + |sub|];
        }
      }
    } else {
      if exists i :: OccursAt(s, sub, i) {
        var i :| OccursAt(s, sub, i);
        assert i == 0 && |sub| == 0;
        assert IsPrefix(sub, s);
      }
      if |sub| == 0 {
        assert OccursAt(s, sub, 0);
      }
    }
  }

  /** A text that lacks the first character of `sub` does not contain `sub`. */
  lemma {:induction false} LacksFirstChar(s: string, sub: string)
    requires |sub| > 0
    requires forall i :: 0 <= i < |s| ==> s[i] != sub[0]
    ensures !Contains(s, sub)
    decreases |s|
  {
    if |s| > 0 {
      LacksFirstChar(s[1..], sub);
      assert |sub| <= |s| ==> s[..|sub|][0] == s[0];
    }
  }

  /** The `if "Two" in choice ... elif "Right" in choice ... else` dispatch:
      every choice naming neither "Two" nor "Right" is read as left-sided. */
  function TailOfLabel(choice: string): (t: Tail)
    ensures t == TwoSided <==> Contains(choice, "Two")
    ensures t == RightSided <==> !Contains(choice, "Two") && Contains(choice, "Right")
    ensures t == LeftSided <==> !Contains(choice, "Two") && !Contains(choice, "Right")
  {
    if Contains(choice, "Two") then TwoSided
    else if Contains(choice, "Right") then RightSided
    else LeftSided
  }

  /** The shared rule: critical value from the quantile function, p-value
      from the cdf, and the comparison of the statistic with the critical
      value. */
  function Decide(d: Dist, alpha: real, tail: Tail, stat: real): (r: Decision)
    requires IsDist(d)
  {
    match tail
    case TwoSided =>
      var crit := d.ppf[1.0 - alpha / 2.0];
      Decision(crit, 2.0 * (1.0 - d.cdf[Abs(stat)]), Abs(stat) > crit)
    case RightSided =>
      var crit := d.ppf[1.0 - alpha];
      Decision(crit, 1.0 - d.cdf[stat], stat > crit)
    case LeftSided =>
      var crit := d.ppf[alpha];
      Decision(crit, d.cdf[stat], stat < crit)
  }

  /** When the cdf is strictly increasing and the quantile function its
      inverse, rejecting is the same as a p-value below alpha, on every tail. */
  lemma DecideAgreesWithPValue(d: Dist, alpha: real, tail: Tail, stat: real)
    requires ValidDist(d) && 0.0 < alpha < 1.0
    ensures Decide(d, alpha, tail, stat).reject <==> Decide(d, alpha, tail, stat).pValue < alpha
  {
    match tail
    case TwoSided => QuantileOrder(d, 1.0 - alpha / 2.0, Abs(stat));
    case RightSided => QuantileOrder(d, 1.0 - alpha, stat);
    case LeftSided => QuantileOrder(d, alpha, stat);
  }

  /** The two-sided p-value is twice the right-tail p-value at |T|, and
      the two-sided verdict does not depend on the sign of T. */
  lemma TwoSidedIsTwiceRightTail(d: Dist, alpha: real, stat: real)
    requires IsDist(d)
    ensures Decide(d, alpha, TwoSided, stat).pValue == 2.0 * Decide(d, alpha, RightSided, Abs(stat)).pValue
    ensures Decide(d, alpha, TwoSided, -stat) == Decide(d, alpha, TwoSided, stat)
  {
  }

  /** The p-value does not depend on alpha, so a rejection at one level is
      a rejection at every larger level. */
  lemma RejectMonotoneInAlpha(d: Dist, alpha: real, alpha': real, tail: Tail, stat: real)
    requires ValidDist(d)
    requires 0.0 < alpha <= alpha' < 1.0
    requires Decide(d, alpha, tail, stat).reject
    ensures Decide(d, alpha', tail, stat).reject
  {
    DecideAgreesWithPValue(d, alpha, tail, stat);
    DecideAgreesWithPValue(d, alpha', tail, stat);
  }

  /** The F test's rule: the larger variance is on top, the critical value
      is the (1 - alpha/2)-quantile and the p-value is twice the upper tail. */
  function DecideF(d: Dist, alpha: real, f: real): (r: Decision)
    requires IsDist(d)
  {
    var crit := d.ppf[1.0 - alpha / 2.0];
    Decision(crit, 2.0 * (1.0 - d.cdf[f]), f > crit)
  }

  /** For a distribution on the positive reals and a positive ratio, the
      F rule rejects exactly when its p-value is below alpha. */
  lemma DecideFAgreesWithPValue(d: Dist, alpha: real, f: real)
    requires ValidPositiveDist(d) && 0.0 < alpha < 2.0 && 0.0 < f
    ensures DecideF(d, alpha, f).reject <==> DecideF(d, alpha, f).pValue < alpha
  {
    PositiveQuantileOrder(d, 1.0 - alpha / 2.0, f);
  }

  /** The labels offered by the tests' tail menus select the intended tails. */
  lemma TwoSidedLabels()
    ensures TailOfLabel("Two-sided (Dua Arah)") == TwoSided
    ensures TailOfLabel("Two-sided") == TwoSided
  {
  }

  lemma RightSidedLabel()
    ensures TailOfLabel("Right-sided") == RightSided
  {
    LacksFirstChar("Right-sided", "Two");
  }

  lemma LeftSidedLabel()
    ensures TailOfLabel("Left-sided") == LeftSided
  {
    LacksFirstChar("Left-sided", "Two");
    LacksFirstChar("Left-sided", "Right");
  }
}
