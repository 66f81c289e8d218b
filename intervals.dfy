/**
 * The three confidence intervals of script.js. The quantiles that jStat
 * supplies (normal, Student-t and chi-squared inverse distribution
 * functions) are parameters, and so is every square root: a parameter `se`
 * stands for `Math.sqrt(x)` when `se >= 0 && se * se == x`. The rounding to
 * two decimals (`toFixed(2)`) is not modelled.
 */
module ConfidenceIntervals {
  import opened Statistics

  datatype Interval = Interval(lower: real, upper: real)

  predicate Contains(iv: Interval, x: real)
  {
    iv.lower <= x <= iv.upper
  }

  /** `inner` lies inside `outer`. */
  predicate Within(inner: Interval, outer: Interval)
  {
    outer.lower <= inner.lower && inner.upper <= outer.upper
  }

  /** `mean ± q * se`: the interval shape shared by both estimators of the mean. */
  function AroundMean(mean: real, q: real, se: real): (iv: Interval)
    ensures iv.lower + iv.upper == 2.0 * mean
    ensures iv.upper - iv.lower == 2.0 * q * se
    ensures q >= 0.0 && se >= 0.0 ==> Contains(iv, mean)
  {
    assert q >= 0.0 && se >= 0.0 ==> q * se >= 0.0 by {
      if q >= 0.0 && se >= 0.0 {
        ProductNonNegative(q, se);
      }
    }
    Interval(mean - q * se, mean + q * se)
  }

  /** A larger quantile gives an interval that contains the smaller one's. */
  lemma AroundMeanWidens(mean: real, q1: real, q2: real, se: real)
    requires q1 <= q2 && se >= 0.0
    ensures Within(AroundMean(mean, q1, se), AroundMean(mean, q2, se))
  {
    ProductNonNegative(q2 - q1, se);
    assert q2 * se - q1 * se == (q2 - q1) * se;
  }

  /**
   * `confidenceIntervalKnownVariance`: `z` is the normal quantile and `se`
   * the square root of the biased variance divided by n.
   */
  function KnownVarianceInterval(data: seq<real>, z: real, se: real): (iv: Interval)
    requires |data| > 0
    requires se >= 0.0 && se * se == BiasedVariance(data) / |data| as real
    ensures iv.lower + iv.upper == 2.0 * Mean(data)
    ensures z >= 0.0 ==> Contains(iv, Mean(data))
    ensures (iv.upper - iv.lower) * (iv.upper - iv.lower) == 4.0 * z * z * BiasedVariance(data) / |data| as real
  {
    var iv := AroundMean(Mean(data), z, se);
    assert (2.0 * z * se) * (2.0 * z * se) == 4.0 * z * z * (se * se);
    iv
  }

  /**
   * `confidenceIntervalUnknownVariance`: `t` is the Student-t quantile with
   * n - 1 degrees of freedom and `se` is `s / Math.sqrt(n)` for the corrected
   * standard deviation `s`, that is the square root of the corrected
   * variance divided by n.
   */
  function UnknownVarianceInterval(data: seq<real>, t: real, se: real): (iv: Interval)
    requires |data| > 1
    requires se >= 0.0 && se * se == CorrectedVariance(data) / |data| as real
    ensures iv.lower + iv.upper == 2.0 * Mean(data)
    ensures t >= 0.0 ==> Contains(iv, Mean(data))
    ensures (iv.upper - iv.lower) * (iv.upper - iv.lower) == 4.0 * t * t * CorrectedVariance(data) / |data| as real
  {
    var iv := AroundMean(Mean(data), t, se);
    assert (2.0 * t * se) * (2.0 * t * se) == 4.0 * t * t * (se * se);
    iv
  }

  /** A larger normal quantile (a higher confidence level) widens the known-variance interval. */
  lemma KnownVarianceWidens(data: seq<real>, z1: real, z2: real, se: real)
    requires |data| > 0 && z1 <= z2
    requires se >= 0.0 && se * se == BiasedVariance(data) / |data| as real
    ensures Within(KnownVarianceInterval(data, z1, se), KnownVarianceInterval(data, z2, se))
  {
    AroundMeanWidens(Mean(data), z1, z2, se);
  }

  /** A larger Student-t quantile (a higher confidence level) widens the unknown-variance interval. */
  lemma UnknownVarianceWidens(data: seq<real>, t1: real, t2: real, se: real)
    requires |data| > 1 && t1 <= t2
    requires se >= 0.0 && se * se == CorrectedVariance(data) / |data| as real
    ensures Within(UnknownVarianceInterval(data, t1, se), UnknownVarianceInterval(data, t2, se))
  {
    AroundMeanWidens(Mean(data), t1, t2, se);
  }

  /**
   * `confidenceIntervalVariance` as written: the BIASED variance (divided by
   * n) multiplied by n - 1, over the upper and the lower chi-squared
   * quantiles.
   */
  function VarianceIntervalAsWritten(data: seq<real>, chiLower: real, chiUpper: real): Interval
    requires |data| > 1 && chiLower > 0.0 && chiUpper > 0.0
  {
    var scaled := (|data| - 1) as real * BiasedVariance(data);
    Interval(scaled / chiUpper, scaled / chiLower)
  }

  /**
   * The variance interval with the pivot `(n - 1) * S^2 / sigma^2` of the
   * corrected variance `S^2`, that is the sum of squared deviations.
   */
  function VarianceInterval(data: seq<real>, chiLower: real, chiUpper: real): Interval
    requires |data| > 1 && chiLower > 0.0 && chiUpper > 0.0
  {
    var scaled := (|data| - 1) as real * CorrectedVariance(data);
    Interval(scaled / chiUpper, scaled / chiLower)
  }

  /** `q / cu <= v <= q / cl` exactly when `cl <= q / v <= cu`, for positive `cl`, `cu`, `v`. */
  lemma PivotBounds(q: real, cl: real, cu: real, v: real)
    requires cl > 0.0 && cu > 0.0 && v > 0.0
    ensures q / cu <= v <==> q / v <= cu
    ensures v <= q / cl <==> cl <= q / v
  {
    assert q / cu * cu == q;
    assert q / cl * cl == q;
    assert q / v * v == q;
    assert q / cu <= v <==> q <= v * cu;
    assert q / v <= cu <==> q <= cu * v;
    assert v <= q / cl <==> v * cl <= q;
    assert cl <= q / v <==> cl * v <= q;
  }

  /**
   * The variance interval holds exactly those variances `sigma2` whose
   * pivot `(n - 1) * S^2 / sigma2` lies between the two chi-squared quantiles.
   */
  lemma VarianceIntervalPivot(data: seq<real>, chiLower: real, chiUpper: real, sigma2: real)
    requires |data| > 1 && chiLower > 0.0 && chiUpper > 0.0 && sigma2 > 0.0
    ensures Contains(VarianceInterval(data, chiLower, chiUpper), sigma2) <==>
      chiLower <= (|data| - 1) as real * CorrectedVariance(data) / sigma2 <= chiUpper
  {
    PivotBounds((|data| - 1) as real * CorrectedVariance(data), chiLower, chiUpper, sigma2);
  }

  /** Quantiles further apart (a higher confidence level) give a wider variance interval. */
  lemma VarianceIntervalWidens(data: seq<real>, cl1: real, cu1: real, cl2: real, cu2: real)
    requires |data| > 1 && 0.0 < cl2 <= cl1 && 0.0 < cu1 <= cu2
    ensures Within(VarianceInterval(data, cl1, cu1), VarianceInterval(data, cl2, cu2))
  {
    VarianceOrder(data);
    var q := (|data| - 1) as real * CorrectedVariance(data);
    assert q >= 0.0;
    QuotientAntitone(q, cu1, cu2);
    QuotientAntitone(q, cl2, cl1);
  }

  /** Quantiles further apart give a wider interval as written, too. */
  lemma AsWrittenWidens(data: seq<real>, cl1: real, cu1: real, cl2: real, cu2: real)
    requires |data| > 1 && 0.0 < cl2 <= cl1 && 0.0 < cu1 <= cu2
    ensures Within(VarianceIntervalAsWritten(data, cl1, cu1), VarianceIntervalAsWritten(data, cl2, cu2))
  {
    VarianceOrder(data);
    var q := (|data| - 1) as real * BiasedVariance(data);
    ProductNonNegative((|data| - 1) as real, BiasedVariance(data));
    QuotientAntitone(q, cu1, cu2);
    QuotientAntitone(q, cl2, cl1);
  }

  lemma QuotientAntitone(q: real, a: real, b: real)
    requires q >= 0.0 && 0.0 < a <= b
    ensures q / b <= q / a
  {
    assert q / a * a == q;
    assert q / b * b == q;
    assert q / b * a <= q / b * b;
  }

  /** The interval as written is the corrected one shrunk by the factor (n - 1) / n. */
  lemma AsWrittenShrinks(data: seq<real>, chiLower: real, chiUpper: real)
    requires |data| > 1 && chiLower > 0.0 && chiUpper > 0.0
    ensures VarianceIntervalAsWritten(data, chiLower, chiUpper).lower * |data| as real
         == VarianceInterval(data, chiLower, chiUpper).lower * (|data| - 1) as real
    ensures VarianceIntervalAsWritten(data, chiLower, chiUpper).upper * |data| as real
         == VarianceInterval(data, chiLower, chiUpper).upper * (|data| - 1) as real
  {
    VarianceOrder(data);
    var m, b, c := (|data| - 1) as real, BiasedVariance(data), CorrectedVariance(data);
    ShrinkFactor(m, b, c, chiUpper);
    ShrinkFactor(m, b, c, chiLower);
  }

  lemma ShrinkFactor(m: real, b: real, c: real, chi: real)
    requires chi > 0.0 && c * m == b * (m + 1.0)
    ensures m * b / chi * (m + 1.0) == m * c / chi * m
  {
    assert m * b / chi * (m + 1.0) == m * (b * (m + 1.0)) / chi;
    assert m * c / chi * m == m * (c * m) / chi;
  }

  /**
   * For the sample 1, 2, 3, 4, 5 and quantiles 1 and 10, the variance 9 has
   * pivot 10 / 9, inside the quantiles, yet the interval as written, [0.8, 8],
   * leaves it out; the corrected interval is [1, 10].
   */
  lemma AsWrittenMissesPivot()
    ensures var data := [1.0, 2.0, 3.0, 4.0, 5.0];
      && 1.0 <= 4.0 * CorrectedVariance(data) / 9.0 <= 10.0
      && Contains(VarianceInterval(data, 1.0, 10.0), 9.0)
      && !Contains(VarianceIntervalAsWritten(data, 1.0, 10.0), 9.0)
  {
    FiveValueSample();
  }
}
