/**
 * Descriptive statistics of a sample (script.js): the sample mean, the biased
 * ("sample") variance and the corrected variance, all computed as left folds
 * in the order of `Array.prototype.reduce`. Exact reals stand in for
 * JavaScript doubles, so no rounding is modelled; square roots are left to
 * the callers that need them.
 */
module Statistics {
  import opened Wrappers

  /** `s.reduce((sum, x) => sum + x, 0)`: a left fold, last element added last. */
  function Sum(s: seq<real>): real
  {
    if |s| == 0 then 0.0 else Sum(s[..|s| - 1]) + s[|s| - 1]
  }

  /** `s.reduce((sum, x) => sum + Math.pow(x - c, 2), 0)`. */
  function SumSqDev(s: seq<real>, c: real): real
  {
    if |s| == 0 then 0.0
    else SumSqDev(s[..|s| - 1], c) + (s[|s| - 1] - c) * (s[|s| - 1] - c)
  }

  /** Smallest element, as `Math.min.apply(null, s)` returns for a non-empty sample. */
  function Min(s: seq<real>): real
    requires |s| > 0
  {
    if |s| == 1 then s[0]
    else
      var m := Min(s[1..]);
      if s[0] < m then s[0] else m
  }

  /** Largest element, as `Math.max.apply(null, s)` returns for a non-empty sample. */
  function Max(s: seq<real>): real
    requires |s| > 0
  {
    if |s| == 1 then s[0]
    else
      var m := Max(s[1..]);
      if s[0] > m then s[0] else m
  }

  /** The minimum is an element of the sample and no element is smaller. */
  lemma {:induction false} MinIsLeast(s: seq<real>)
    requires |s| > 0
    ensures Min(s) in s
    ensures forall i :: 0 <= i < |s| ==> Min(s) <= s[i]
  {
    if |s| > 1 {
      MinIsLeast(s[1..]);
      assert forall i :: 1 <= i < |s| ==> s[i] == s[1..][i - 1];
    }
  }

  /** The maximum is an element of the sample and no element is larger. */
  lemma {:induction false} MaxIsGreatest(s: seq<real>)
    requires |s| > 0
    ensures Max(s) in s
    ensures forall i :: 0 <= i < |s| ==> s[i] <= Max(s)
  {
    if |s| > 1 {
      MaxIsGreatest(s[1..]);
      assert forall i :: 1 <= i < |s| ==> s[i] == s[1..][i - 1];
    }
  }

  /** Sample mean: the sum divided by the sample size. */
  function Mean(s: seq<real>): real
    requires |s| > 0
  {
    Sum(s) / |s| as real
  }

  /** Biased sample variance: squared deviations from the mean, divided by n. */
  function BiasedVariance(s: seq<real>): real
    requires |s| > 0
  {
    SumSqDev(s, Mean(s)) / |s| as real
  }

  /** Corrected sample variance: the same squared deviations, divided by n - 1. */
  function CorrectedVariance(s: seq<real>): real
    requires |s| > 1
  {
    SumSqDev(s, Mean(s)) / (|s| - 1) as real
  }

  lemma ProductNonNegative(a: real, b: real)
    requires a >= 0.0 && b >= 0.0
    ensures a * b >= 0.0
  {
  }

  lemma SquareNonNegative(d: real)
    ensures d * d >= 0.0
  {
    if d < 0.0 {
      assert d * d == (-d) * (-d);
    }
  }

  /** A sum of squares is never negative. */
  lemma {:induction false} SumSqDevNonNegative(s: seq<real>, c: real)
    ensures SumSqDev(s, c) >= 0.0
  {
    if |s| > 0 {
      SumSqDevNonNegative(s[..|s| - 1], c);
      SquareNonNegative(s[|s| - 1] - c);
    }
  }

  /** Every element is at least `lo`, so the sum is at least n * lo. */
  lemma {:induction false} SumAtLeast(s: seq<real>, lo: real)
    requires forall i :: 0 <= i < |s| ==> lo <= s[i]
    ensures |s| as real * lo <= Sum(s)
  {
    if |s| > 0 {
      var n := (|s| - 1) as real;
      SumAtLeast(s[..|s| - 1], lo);
      assert n * lo + lo == (n + 1.0) * lo;
    }
  }

  /** Every element is at most `hi`, so the sum is at most n * hi. */
  lemma {:induction false} SumAtMost(s: seq<real>, hi: real)
    requires forall i :: 0 <= i < |s| ==> s[i] <= hi
    ensures Sum(s) <= |s| as real * hi
  {
    if |s| > 0 {
      var n := (|s| - 1) as real;
      SumAtMost(s[..|s| - 1], hi);
      assert n * hi + hi == (n + 1.0) * hi;
    }
  }

  /** Every element is strictly below `hi`, so a non-empty sum is strictly below n * hi. */
  lemma {:induction false} SumBelow(s: seq<real>, hi: real)
    requires |s| > 0
    requires forall i :: 0 <= i < |s| ==> s[i] < hi
    ensures Sum(s) < |s| as real * hi
  {
    var n := (|s| - 1) as real;
    if |s| == 1 {
      assert s[..0] == [];
    } else {
      SumBelow(s[..|s| - 1], hi);
    }
    assert n * hi + hi == (n + 1.0) * hi;
  }

  /** The mean is at least the smallest value of the sample. */
  lemma MeanAtLeastMin(s: seq<real>)
    requires |s| > 0
    ensures Min(s) <= Mean(s)
  {
    MinIsLeast(s);
    MeanAtLeast(s, Min(s));
  }

  /** The mean is at most the largest value of the sample. */
  lemma MeanAtMostMax(s: seq<real>)
    requires |s| > 0
    ensures Mean(s) <= Max(s)
  {
    MaxIsGreatest(s);
    MeanAtMost(s, Max(s));
  }

  /** A lower bound of every element is a lower bound of the mean. */
  lemma MeanAtLeast(s: seq<real>, lo: real)
    requires |s| > 0
    requires forall i :: 0 <= i < |s| ==> lo <= s[i]
    ensures lo <= Mean(s)
  {
    SumAtLeast(s, lo);
  }

  /** An upper bound of every element is an upper bound of the mean. */
  lemma MeanAtMost(s: seq<real>, hi: real)
    requires |s| > 0
    requires forall i :: 0 <= i < |s| ==> s[i] <= hi
    ensures Mean(s) <= hi
  {
    SumAtMost(s, hi);
  }

  /**
   * Both variances are non-negative, the corrected one is at least the biased
   * one, and they differ exactly by the factor n / (n - 1).
   */
  lemma VarianceOrder(s: seq<real>)
    requires |s| > 1
    ensures 0.0 <= BiasedVariance(s) <= CorrectedVariance(s)
    ensures CorrectedVariance(s) * (|s| - 1) as real == BiasedVariance(s) * |s| as real
  {
    var q := SumSqDev(s, Mean(s));
    SumSqDevNonNegative(s, Mean(s));
    var n := |s| as real;
    assert BiasedVariance(s) * n == q;
    assert CorrectedVariance(s) * (n - 1.0) == q;
    assert q / n <= q / (n - 1.0) by {
      assert q / n * n == q;
      assert q / (n - 1.0) * (n - 1.0) == q;
      assert q / n * (n - 1.0) <= q / n * n;
    }
  }

  /** The sample 1, 2, 3, 4, 5: mean 3, biased variance 2, corrected variance 2.5. */
  lemma FiveValueSample()
    ensures Mean([1.0, 2.0, 3.0, 4.0, 5.0]) == 3.0
    ensures BiasedVariance([1.0, 2.0, 3.0, 4.0, 5.0]) == 2.0
    ensures CorrectedVariance([1.0, 2.0, 3.0, 4.0, 5.0]) == 2.5
  {
    var s := [1.0, 2.0, 3.0, 4.0, 5.0];
    assert s[..4] == [1.0, 2.0, 3.0, 4.0];
    assert s[..4][..3] == [1.0, 2.0, 3.0];
    assert s[..4][..3][..2] == [1.0, 2.0];
    assert s[..4][..3][..2][..1] == [1.0];
    assert s[..4][..3][..2][..1][..0] == [];
    assert Sum([1.0]) == 1.0;
    assert Sum([1.0, 2.0]) == 3.0;
    assert Sum([1.0, 2.0, 3.0]) == 6.0;
    assert Sum([1.0, 2.0, 3.0, 4.0]) == 10.0;
    assert Sum(s) == 15.0;
    assert SumSqDev([1.0], 3.0) == 4.0;
    assert SumSqDev([1.0, 2.0], 3.0) == 5.0;
    assert SumSqDev([1.0, 2.0, 3.0], 3.0) == 5.0;
    assert SumSqDev([1.0, 2.0, 3.0, 4.0], 3.0) == 6.0;
    assert SumSqDev(s, 3.0) == 10.0;
  }

  /**
   * What the page prints for the comparison sample: size, mean, biased and
   * corrected variance. A missing value stands for the NaN that 0 / 0 gives
   * in JavaScript: the mean and the biased variance of the empty sample, and
   * the corrected variance of a sample of one. The corrected variance of the
   * empty sample is the empty sum over 0 - 1, that is 0 (JavaScript's -0).
   */
  datatype Description = Description(
    size: nat,
    mean: Option<real>,
    variance: Option<real>,
    correctedVariance: Option<real>)

  function Describe(sample: seq<real>): (d: Description)
    ensures d.size == |sample|
    ensures d.mean.Some? <==> |sample| >= 1
    ensures d.variance.Some? <==> |sample| >= 1
    ensures d.correctedVariance.Some? <==> |sample| != 1
    ensures |sample| >= 1 ==> d.mean == Some(Mean(sample)) && d.variance == Some(BiasedVariance(sample))
    ensures |sample| >= 2 ==> d.correctedVariance == Some(CorrectedVariance(sample))
    ensures |sample| == 0 ==> d.correctedVariance == Some(0.0)
    ensures |sample| >= 1 ==> Min(sample) <= d.mean.value <= Max(sample)
    ensures |sample| == 1 ==> d.variance == Some(0.0)
    ensures |sample| >= 2 ==> 0.0 <= d.variance.value <= d.correctedVariance.value
  {
    var n := |sample|;
    // For the empty sample the centre (the NaN mean) is never used: the fold is 0.
    if n == 0 then Description(0, None, None, Some(SumSqDev(sample, 0.0) / -1.0))
    else
      MeanAtLeastMin(sample);
      MeanAtMostMax(sample);
      if n == 1 then
        assert sample[..0] == [];
        assert Mean(sample) == sample[0];
        assert SumSqDev(sample, sample[0]) == 0.0;
        Description(1, Some(Mean(sample)), Some(BiasedVariance(sample)), None)
      else
        VarianceOrder(sample);
        Description(n, Some(Mean(sample)), Some(BiasedVariance(sample)), Some(CorrectedVariance(sample)))
  }

  /**
   * `generatedData.slice(0, parseInt(generatedData.length * 0.1))`: the first
   * tenth of the sample, rounded down.
   */
  function ComparePrefix(data: seq<real>): (p: seq<real>)
    ensures |p| * 10 <= |data| < (|p| + 1) * 10
    ensures p == data[..|p|]
  {
    data[..|data| / 10]
  }

  /**
   * From 10 to 19 values the comparison sample has one element, so its
   * corrected variance is NaN; below 10 values it is empty, so its mean and
   * biased variance are NaN and its corrected variance is 0.
   */
  lemma ShortSampleStatistics(data: seq<real>)
    requires |data| < 20
    ensures 10 <= |data| ==> Describe(ComparePrefix(data)).correctedVariance == None
    ensures |data| < 10 ==> Describe(ComparePrefix(data)).mean == None
    ensures |data| < 10 ==> Describe(ComparePrefix(data)).variance == None
    ensures |data| < 10 ==> Describe(ComparePrefix(data)).correctedVariance == Some(0.0)
  {
  }
}
