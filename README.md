# Hypothesis-test engine of the statistics workbench

This workbench is a Streamlit page set for introductory statistics. Each page reads
its inputs from widgets. When its button is pressed, it runs a short,
straight-line calculation and shows the statistic, the critical value, the
p-value and the verdict. This project holds that calculation engine, lifted
out of the page functions and written over exact reals:

- **The sample tokeniser** `parse_data` (`ParseData`). It turns `;`, `,`, tab
  and newline into spaces and splits on whitespace as Python's `str.split()`
  does. Every token `float()` accepts becomes an observation, in order. An
  empty text, or a text without a single number, gives nothing. This is an
  imperative loop, so it is modelled as a method: its loop invariant ties it
  to the specification function `Parsed`.
- **Sample statistics** (`SampleStats`): the sum, the mean, the
  Bessel-corrected variance (`ddof=1`), and the element-wise differences of
  the paired test.
- **The shared estimators** (`Estimators`):
  - the pooled variance and the pooled proportion
  - the Satterthwaite degrees of freedom
  - the F ratio, with the larger variance on top
  - Cohen's d with its zero guard, and the effect-size classifier
  - the normality pre-check
- **The tail rule** (`TailRule`). It is copied into every Z and t page: a
  critical value from the quantile function, a p-value from the cdf, and
  the reject flag. It comes with the F test's two-sided variant and with the
  dispatch on the tail label (`"Two" in choice`, then `"Right" in choice`,
  else left-sided).
- **The eight tests**:
  - the one-proportion Z, the one-sample Z, the one-sample t and the paired t (`OneSampleTests`)
  - the two-proportion Z (`TwoProportionTest`)
  - the pooled-variance t with Cohen's d and a 95% interval (`PooledTTest`, `PooledTProperties`)
  - the Welch t (`WelchTTest`, `WelchTProperties`)
  - the variance-ratio F test (`VarianceFTest`)

The numerical library routines are abstract (`Numerics`): the square root,
the normal, Student t and Fisher F cdf and quantile function, and the
Shapiro-Wilk p-value. They are fields of a `Lib` value that every test takes
as a parameter, each an `imap`. Every test function requires `ValidLib`,
which says two things:

- every routine is defined wherever the engine calls it;
- `IsSqrt`: the square root is non-negative and squares back.

So the square-root fact is a precondition of the whole engine. The same
holds for `Standardized`, `StandardizedMeanDifference`, `CohensD` and
`StandardizeBy`, which require `IsSqrt` directly. The facts about the
distributions are left to the lemmas that need them:

- `ValidDist` (normal and Student t): the cdf is strictly increasing and
  the quantile function is its inverse on (0, 1).
- `ValidPositiveDist` (Fisher F): the same, but only for x > 0, with
  positive quantiles. A real F distribution has cdf 0 on x ≤ 0, so it can
  never satisfy `ValidDist`, and no F lemma assumes it.

`float()` is the parameter `toFloat` of the tokeniser.

A calculation that would end in `nan` or `inf` in the program is a
`Failure` with the reason. This covers a zero standard error, a zero
variance in the F ratio, and fewer than two observations for a `ddof=1`
variance. Everything else is a `Success` carrying the test's statistics:
the standard error, the statistic, the degrees of freedom, and the decision
(critical value, p-value, reject flag). The pooled test also carries its
interval, the two means and Cohen's d.

The page also shows some figures the result does not carry, because they
follow from the inputs: the sample sizes, the sample mean of the one-sample
t test, the mean difference of the paired and Welch tests, and the
standard deviations of the pooled test. They are `|d|`, `Mean`, `Diff` and
`Variance` of `SampleStats`.

Files:

- `results.dfy`: Option, Result and the error reasons.
- `numerics.dfy`: the abstract routines.
- `sample_stats.dfy`
- `parse_data.dfy`
- `tail_rule.dfy`
- `estimators.dfy`
- `one_sample_tests.dfy`
- `two_proportion.dfy`
- `pooled_t.dfy`
- `welch_t.dfy`
- `f_test.dfy`

## Model

| member | source | states |
|---|---|---|
| ParseData.ParseData | content.py:11-35 | the loop's result is `Parsed(text)`; an empty text gives None, and a Some result is never empty |
| ParseData.Clean | content.py:20 | every `;` `,` tab and newline becomes a space and every other character is kept, position by position |
| ParseData.Split | content.py:23 | every token `str.split()` yields is non-empty and free of whitespace |
| ParseData.SplitKeepsAllButWhitespace | content.py:23 | splitting drops exactly the whitespace: the tokens put back together are the text without its whitespace |
| ParseData.SplitJoin | content.py:23 | whitespace-free tokens joined by runs of whitespace are split back into exactly those tokens |
| ParseData.SplitSkipsBlank | content.py:23 | leading whitespace yields no token |
| ParseData.CleanJoin | content.py:20 | cleaning keeps the words and cleans each gap between them |
| ParseData.CleanGap | content.py:20 | a run of separators and whitespace cleans to whitespace only |
| ParseData.NumbersAllConvert | content.py:22-27 | when every token converts, the result is the converted tokens, in order |
| ParseData.NumbersSkip | content.py:24-27 | a token `float()` rejects is skipped and the numbers around it keep their order |
| ParseData.ParseJoined | content.py:16-35 | numbers with any non-empty runs of `;` `,` tab, newline or whitespace between them are read back exactly, in order |
| ParseData.ParseDefaultSample | content.py:447 | the default text "10, 12, 11, 14, 13" reads as those five numbers, in order |
| SampleStats.SumSqDev | content.py:494 | the sum of squared deviations is non-negative |
| SampleStats.Variance | content.py:494 | the `ddof=1` variance is non-negative |
| SampleStats.Summarize | content.py:554-555 | a sample of at least two observations has a valid summary of its own size |
| SampleStats.SumSqDevZero | content.py:494 | the squared deviations from m sum to 0 exactly when every observation equals m |
| SampleStats.VarianceZeroIff | content.py:494 | the variance is 0 exactly when all observations are equal, which is the degenerate case of every t and F test |
| SampleStats.SumShift | content.py:493 | shifting every observation by c adds n·c to the sum |
| SampleStats.MeanShift | content.py:493 | shifting every observation by c shifts the mean by c |
| SampleStats.SumSqDevShift | content.py:494 | shifting the sample and the centre together keeps the squared deviations |
| SampleStats.VarianceShift | content.py:493-494 | shifting the sample keeps its variance |
| SampleStats.SumNeg | content.py:673 | negating the sample negates its sum |
| SampleStats.MeanNeg | content.py:673 | negating the sample negates its mean |
| SampleStats.SumSqDevNeg | content.py:674 | negating the sample and its centre keeps the squared deviations |
| SampleStats.VarianceNeg | content.py:673-674 | negating the sample negates the mean and keeps the variance |
| SampleStats.Diff | content.py:669 | `d1 - d2` is element-wise: entry i is pre[i] - post[i] |
| SampleStats.DiffSelf | content.py:669-674 | identical samples have differences of mean 0 and variance 0 |
| SampleStats.DiffSwap | content.py:669 | exchanging the samples negates the differences |
| Estimators.PooledVariance | content.py:557 | Sp² lies between the two variances, and it is 0 exactly when both are 0 |
| Estimators.PooledVarianceSymmetric | content.py:557 | Sp² does not depend on which group is first |
| Estimators.WeightedAverageBetween | content.py:557 | a positively weighted average lies between its two values |
| Estimators.Proportion | content.py:408 | p·n = X and p ≥ 0 |
| Estimators.PooledProportion | content.py:409 | the pooled proportion lies between p1 and p2 |
| Estimators.SatterthwaiteDf | content.py:624-626 | the Satterthwaite degrees of freedom are positive whenever some variance is |
| Estimators.OrderVariances | content.py:719-724 | F ≥ 1, F·min(v1,v2) = max(v1,v2), and df1 belongs to the larger variance (to the first group on a tie) |
| Estimators.OrderVariancesSwap | content.py:719-724 | swapping the groups never changes F; it changes nothing unless v1 = v2, where it swaps df1 and df2 |
| Estimators.Standardized | content.py:158-161 | 0 when the variance is 0; otherwise d times the root is the difference, and d has the difference's sign |
| Estimators.StandardizedMeanDifference | content.py:154-161 | Cohen's d is 0 when Sp² is 0; otherwise it times the pooled sd is x̄1 - x̄2, and it has that difference's sign |
| Estimators.StandardizedMeanDifferenceSwap | content.py:154-161 | exchanging the groups negates Cohen's d |
| Estimators.CohensDSwap | content.py:154-161 | exchanging the two samples negates Cohen's d |
| Estimators.StandardizedOdd | content.py:160-161 | negating the difference negates d |
| Estimators.Standardize | content.py:360 | the statistic times the standard error is the difference, and with a positive standard error it has the difference's sign |
| Estimators.StandardizesSign | content.py:411 | a standardised statistic has the sign of its difference |
| Estimators.StandardizeBy | content.py:410-411 | the standard error is the positive root of the variance, and the statistic is the difference in units of it |
| Estimators.InterpretEffectSize | content.py:164-169 | each class holds exactly for its |d| band: below 0.2, then below 0.5, then below 0.8, then the rest |
| Estimators.InterpretEffectSizeOrder | content.py:164-169 | the class depends on |d| only, and a larger |d| never gets a smaller class |
| Estimators.CheckNormality | content.py:137-151 | fewer than 3 observations pass without the Shapiro-Wilk test; otherwise the check passes exactly when p > 0.05 |
| Numerics.Abs | content.py:364 | |x| ≥ 0 and is x or -x |
| Numerics.SqrtOf | content.py:355 | the routine's root is the unique non-negative root |
| Numerics.QuantileOrder | content.py:362-373 | a statistic is above or below the u-quantile exactly when its cdf value is above or below u |
| Numerics.PositiveQuantileOrder | content.py:726-728 | for a distribution on the positive reals and a positive statistic, the statistic is above the u-quantile exactly when its cdf value is above u |
| TailRule.ContainsAt | content.py:362 | Python's `sub in s` holds exactly when `sub` occurs at some index |
| TailRule.LacksFirstChar | content.py:366 | a text without the first character of `sub` does not contain `sub` |
| TailRule.TailOfLabel | content.py:362-373 | two-sided exactly when the label contains "Two", right-sided exactly when it contains "Right" but not "Two", left-sided for every other label |
| TailRule.TwoSidedLabels | content.py:351 | the two-sided menu labels select the two-sided rule |
| TailRule.RightSidedLabel | content.py:405 | "Right-sided" selects the right-sided rule |
| TailRule.LeftSidedLabel | content.py:405 | "Left-sided" falls through to the left-sided rule |
| TailRule.DecideAgreesWithPValue | content.py:362-373 | for an increasing cdf whose quantile is its inverse and 0 < α < 1, reject holds exactly when p < α, on every tail |
| TailRule.TwoSidedIsTwiceRightTail | content.py:363-368 | the two-sided p-value is twice the right-tail p-value at |T|, and the two-sided verdict ignores the sign of T |
| TailRule.RejectMonotoneInAlpha | content.py:362-373 | a rejection at level α is a rejection at every larger level |
| TailRule.DecideFAgreesWithPValue | content.py:726-728 | for a distribution on the positive reals and F > 0, the F rule rejects exactly when its p-value is below α |
| OneSampleTests.OneProportionZ | content.py:353-373 | fails exactly when π0 is 0 or 1; otherwise p̂·n = X, se² = π0(1-π0)/n, z·se = p̂ - π0, z has the sign of p̂ - π0, the warning flag is nπ0 < 5 or n(1-π0) < 5, and the decision is the normal tail rule at z |
| OneSampleTests.ProportionVariance | content.py:355 | π0(1-π0)/n ≥ 0, and it is 0 exactly when π0 is 0 or 1 |
| OneSampleTests.OneProportionExample | content.py:345-360 | the default inputs 40 of 100 against 0.5 give p̂ = 0.4, se = 0.05, z = -2 and no warning |
| OneSampleTests.OneSampleZ | content.py:449-466 | an empty sample or σ = 0 fail; otherwise the mean is x̄, se·√n = σ, z·se = x̄ - μ0, and the decision is the normal tail rule at z |
| OneSampleTests.OneSampleZShift | content.py:451-453 | shifting the sample and μ0 together keeps z and the decision |
| OneSampleTests.TStatistic | content.py:492-509 | fails exactly when the variance is 0; otherwise sd² = s², se·√n = sd, t·se = x̄ - μ0, t has the sign of x̄ - μ0, df = n-1, and the decision is the t tail rule at df |
| OneSampleTests.TStatisticShift | content.py:492-496 | shifting the mean and μ0 together changes nothing |
| OneSampleTests.TStatisticNegate | content.py:495-501 | negating the mean against μ0 = 0 negates t and keeps se, df and the two-sided verdict |
| OneSampleTests.OneSampleT | content.py:488-509 | fewer than 2 observations are refused; a constant sample fails; otherwise the result is the t test on the sample's summary, with the normality pre-check's verdict |
| OneSampleTests.OneSampleTShift | content.py:492-496 | shifting the sample and μ0 together keeps the statistic |
| OneSampleTests.PairedT | content.py:667-694 | refused unless the lengths agree; otherwise it is the t test of pre[i] - post[i] against 0, failing exactly when the differences are constant |
| OneSampleTests.PairedIdentical | content.py:669-675 | identical pre and post give d̄ = 0 and no statistic |
| OneSampleTests.PairedSwap | content.py:669-681 | exchanging pre and post negates t and keeps se, df and the two-sided verdict |
| TwoProportionTest.TwoProportionZ | content.py:407-424 | fails exactly when X1 + X2 is 0 or at least n1 + n2; otherwise 0 < p̄ < 1 and the result is the statistic at p1, p2 and p̄ |
| TwoProportionTest.ZFromProportions | content.py:410-424 | se is the positive root of p̄(1-p̄)(1/n1 + 1/n2), z·se = p1 - p2, and the decision is the normal tail rule at z |
| TwoProportionTest.TwoProportionSign | content.py:408-411 | z > 0 exactly when p1 > p2, and z < 0 exactly when p1 < p2 |
| TwoProportionTest.ZSign | content.py:410-411 | the statistic at given proportions has the sign of p1 - p2 |
| TwoProportionTest.FractionInside | content.py:409 | 0 < x < n gives 0 < x/n < 1 |
| TwoProportionTest.NullVariancePositive | content.py:409-410 | p̄(1-p̄)k > 0 exactly when 0 < X1 + X2 < n1 + n2, the condition the test's guard checks |
| PooledTTest.PooledCore | content.py:554-580 | fails exactly when both variances are 0; otherwise Sp² > 0 and the result is the statistic at Sp² |
| PooledTTest.PooledFromVariance | content.py:557-580 | se is the positive root of Sp²(1/n1 + 1/n2), t·se = x̄1 - x̄2, df = n1 + n2 - 2, the decision is the t tail rule, the interval uses the 0.975 quantile, and ci = (x̄1 - x̄2) ∓ t_ci·se |
| PooledTTest.PooledT | content.py:544-580 | groups of fewer than 2 are refused; it fails exactly when both groups are constant; otherwise the means, statistic, Cohen's d with its class, and both normality verdicts are those of the parts |
| PooledTProperties.PooledIntervalIgnoresAlphaAndTail | content.py:577-580 | the interval depends neither on α nor on the tail |
| PooledTProperties.PooledIntervalSymmetric | content.py:577-580 | ci_low + ci_high = 2(x̄1 - x̄2) |
| PooledTProperties.PooledTSign | content.py:559 | t > 0 exactly when x̄1 > x̄2, and t < 0 exactly when x̄1 < x̄2 |
| PooledTProperties.ConstantGroupsEffectSize | content.py:154-161 | when both groups are constant the test fails, while Cohen's d, which the page still shows, is 0 and negligible |
| PooledTProperties.PooledIntervalDuality | content.py:562-580 | the two-sided test at 5% rejects exactly when the 95% interval excludes 0 |
| PooledTProperties.DualityAtVariance | content.py:562-580 | the same duality at any positive Sp² |
| PooledTProperties.IntervalExcludesZero | content.py:577-580 | an interval d ∓ c·se around d = t·se excludes 0 exactly when |t| > c |
| WelchTTest.WelchCore | content.py:619-639 | fails exactly when both variances are 0; otherwise the Satterthwaite df is positive and the result is the statistic at that df |
| WelchTTest.WelchWithDf | content.py:621-639 | se is the positive root of v1/n1 + v2/n2, t·se = x̄1 - x̄2, and the decision is the t tail rule at the given df |
| WelchTTest.WelchT | content.py:617-639 | groups of fewer than 2 are refused; it fails exactly when both groups are constant; otherwise it is the test on the two summaries |
| WelchTProperties.WelchTSign | content.py:622 | t > 0 exactly when x̄1 > x̄2, and t < 0 exactly when x̄1 < x̄2 |
| WelchTProperties.WelchAgreesWithPooled | content.py:619-626 | with n1 = n2 and v1 = v2 > 0, the Welch and pooled tests have the same se, t and decision, and the Satterthwaite df is n1 + n2 - 2 |
| WelchTProperties.AgreementAt | content.py:621-626 | when the two radicands agree and df = n1 + n2 - 2, the Welch and pooled statistics agree |
| WelchTProperties.SameStandardization | content.py:621-622 | one difference standardised by equal variances gives one se and one statistic |
| WelchTProperties.EqualRadicands | content.py:621 | v/n + v/n equals Sp²(1/n + 1/n) for equal groups |
| WelchTProperties.EqualWeightsPool | content.py:557 | pooling two equal variances from equal groups gives that variance |
| WelchTProperties.SatterthwaiteEqual | content.py:624-626 | equal sizes and equal positive variances give df = 2(n-1) |
| VarianceFTest.FCore | content.py:716-728 | fails exactly when a variance is 0; otherwise F ≥ 1, F·min = max, df1 belongs to the larger variance, and the decision is the F rule, which rejects exactly when F exceeds the critical value |
| VarianceFTest.FCoreSwap | content.py:719-728 | swapping the groups keeps F; unless the variances tie it keeps the whole outcome, and on a tie it swaps df1 and df2 |
| VarianceFTest.FCoreAgreesWithPValue | content.py:716-728 | when the F distributions live on the positive reals, the F test rejects exactly when 2(1 - cdf(F)) < α |
| VarianceFTest.FTest | content.py:714-728 | groups of fewer than 2 are refused; it fails exactly when a group is constant; otherwise it is the test on the two summaries |
| VarianceFTest.FTestExample | content.py:709-724 | the default groups give F = 7.4 with 4 and 4 degrees of freedom |
| VarianceFTest.SummaryOfFive | content.py:716 | the summary of a five-observation sample, by unfolding |

## Left out

- The Streamlit interface is not modelled: widgets, tabs, session state,
  `st.error`, `st.warning` and the `display_test_result` rendering. The
  program's warnings become booleans: the nπ0 < 5 flag of the one-proportion
  test and the normality verdicts. The messages themselves are not modelled.
- `get_data_input` is not modelled. It is file upload through pandas and
  random demo data from `np.random.normal`, so it is I/O and randomness.
- `plot_distribution` (matplotlib), the AI consultant (secrets and a network
  call to Gemini), `main.py` (menu routing) and `styles.py` (CSS) are not
  part of this model.
- The numerical routines are abstract. `np.sqrt`, the `norm`, `t` and `f`
  cdf and ppf, `stats.shapiro` and `float()` are parameters. Only the
  properties above are assumed about them, so no lemma states a concrete
  critical value or p-value.
- Floating point is modelled as exact reals. Rounding is not modelled, and
  neither are `nan` and `inf`. A division that would produce them is a
  `Failure` instead: a zero standard error, a zero variance in the F ratio,
  or fewer than two observations for a `ddof=1` variance.
  - The program guards the sample size only in the one-sample t test
    (`len(data) > 1`) and the equal lengths in the paired test. In the
    other tests a group of one observation gives `nan` in the program and
    `TooFewObservations` in the model.
  - A two-proportion input with more successes than trials makes the
    program's radicand negative and its root `nan`. The model reports it as
    `ZeroStandardError`, because its guard covers every non-positive
    radicand.
- TwoProportionZ: guards on the integer condition that X1 + X2 is 0 or at
  least n1 + n2, rather than on the radicand being 0. `NullVariancePositive`
  proves the two conditions the same.
- SatterthwaiteDf: states positivity only, not the textbook bounds
  min(n1, n2) - 1 ≤ df ≤ n1 + n2 - 2.
- CohensD: has no contract of its own. It is `StandardizedMeanDifference` of
  the two summaries, and its properties are stated there and in
  `CohensDSwap`.
- TailRule.Decide and TailRule.DecideF: have no contract of their own.
  Their meaning is stated by `DecideAgreesWithPValue`,
  `TwoSidedIsTwiceRightTail`, `RejectMonotoneInAlpha` and
  `DecideFAgreesWithPValue`.
- DecideFAgreesWithPValue: assumes F > 0 and a distribution on the positive
  reals. Every ratio the F test forms is at least 1 (`OrderVariances`), so
  `FCoreAgreesWithPValue` needs no such bound. The lemma also says nothing
  about the defect that the F test's `2(1 - cdf(F))` can exceed 1 when F
  lies below the distribution's median. Showing that needs the real F
  distribution.
- DecideAgreesWithPValue: assumes 0 < α < 1. Several pages bound α only
  from below (`number_input("Alpha", 0.05)` makes 0.05 the minimum), so the
  model takes α as an unconstrained parameter and puts the bound on the
  lemma.
- OneSampleZ: takes σ as given. The program puts no lower bound on σ, so a
  negative σ gives a negative standard error. The model keeps that and
  specifies se·√n = σ; only σ = 0 fails.
- PooledT: when both groups are constant it returns a bare `Failure`, so it
  does not carry the Cohen's d = 0 ("Negligible") that the page still shows
  next to the undefined t. `ConstantGroupsEffectSize` states that value.
- PooledCore: the swap and shift symmetries are not proved for the pooled,
  Welch and two-proportion tests at the level of the whole test. The
  ingredients are proved: `PooledVarianceSymmetric`, `StandardizeOdd`,
  `TwoSidedIsTwiceRightTail` and `CohensDSwap`.
- ParseData: its exception handler (content.py:37-39) is not modelled. No
  step of the modelled loop can raise an exception.
