/**
 * Generation of the synthetic sample (script.js): the sum-of-twelve-uniforms
 * approximation of a standard normal variate and the affine map that moves
 * it to mean `m` and standard deviation `sigma`. The uniform draws that
 * `Math.random` supplies are parameters here.
 */
module Variate {
  import opened Statistics

  /** Number of uniform draws summed per variate. */
  const Draws: nat := 12

  /**
   * `generateRandomVariable`: adds the twelve draws one by one to an
   * accumulator starting at 0, then subtracts 6. With draws in [0, 1) the
   * result lies in [-6, 6).
   */
  method GenerateRandomVariable(uniforms: seq<real>) returns (x: real)
    requires |uniforms| == Draws
    ensures x == Sum(uniforms) - 6.0
    ensures (forall i :: 0 <= i < |uniforms| ==> 0.0 <= uniforms[i] < 1.0) ==> -6.0 <= x < 6.0
  {
    x := 0.0;
    for i := 0 to Draws
      invariant x == Sum(uniforms[..i])
    {
      assert uniforms[..i + 1][..i] == uniforms[..i];
      x := x + uniforms[i];
    }
    assert uniforms[..Draws] == uniforms;
    if forall i :: 0 <= i < |uniforms| ==> 0.0 <= uniforms[i] < 1.0 {
      SumAtLeast(uniforms, 0.0);
      SumBelow(uniforms, 1.0);
    }
    x := x - 6.0;
  }

  /** Twelve draws of exactly one half give the variate 0. */
  lemma HalvesGiveZero(uniforms: seq<real>)
    requires |uniforms| == Draws
    requires forall i :: 0 <= i < |uniforms| ==> uniforms[i] == 0.5
    ensures Sum(uniforms) - 6.0 == 0.0
  {
    SumAtLeast(uniforms, 0.5);
    SumAtMost(uniforms, 0.5);
  }

  /** `transformToNormalDistribution`: the affine map `sigma * x + m`. */
  function Transform(x: real, m: real, sigma: real): real
  {
    sigma * x + m
  }

  /** For `sigma != 0` the map is undone by subtracting `m` and dividing by `sigma`. */
  lemma TransformInverse(x: real, m: real, sigma: real)
    requires sigma != 0.0
    ensures (Transform(x, m, sigma) - m) / sigma == x
  {
  }

  /** For `sigma > 0` the map is strictly increasing, so it keeps the order of a sample. */
  lemma TransformMonotone(x: real, y: real, m: real, sigma: real)
    requires sigma > 0.0 && x < y
    ensures Transform(x, m, sigma) < Transform(y, m, sigma)
  {
    assert sigma * (y - x) > 0.0;
  }

  /** The map applied to every element, in order. */
  function TransformAll(s: seq<real>, m: real, sigma: real): (t: seq<real>)
    ensures |t| == |s|
    ensures forall i :: 0 <= i < |s| ==> t[i] == Transform(s[i], m, sigma)
  {
    seq(|s|, i requires 0 <= i < |s| => Transform(s[i], m, sigma))
  }

  /**
   * The generation loop of `main`: `numValues` times, draw a variate from the
   * next twelve uniforms, keep it, and keep its image under the affine map.
   */
  method GenerateSample(uniforms: seq<real>, numValues: nat, m: real, sigma: real)
    returns (raw: seq<real>, data: seq<real>)
    requires |uniforms| == Draws * numValues
    ensures |raw| == numValues
    ensures forall i :: 0 <= i < numValues ==> raw[i] == Sum(uniforms[Draws * i..Draws * i + Draws]) - 6.0
    ensures data == TransformAll(raw, m, sigma)
  {
    raw, data := [], [];
    for i := 0 to numValues
      invariant |raw| == |data| == i
      invariant forall k :: 0 <= k < i ==> raw[k] == Sum(uniforms[Draws * k..Draws * k + Draws]) - 6.0
      invariant data == TransformAll(raw, m, sigma)
    {
      assert Draws * i + Draws <= Draws * numValues by {
        assert Draws * (i + 1) <= Draws * numValues;
      }
      var randomVariable := GenerateRandomVariable(uniforms[Draws * i..Draws * i + Draws]);
      raw := raw + [randomVariable];
      data := data + [Transform(randomVariable, m, sigma)];
    }
  }

  /** The sum of the mapped sample is `sigma` times the sum plus `n * m`. */
  lemma {:induction false} SumOfTransformed(s: seq<real>, m: real, sigma: real)
    ensures Sum(TransformAll(s, m, sigma)) == sigma * Sum(s) + |s| as real * m
  {
    if |s| > 0 {
      var t := TransformAll(s, m, sigma);
      var init := s[..|s| - 1];
      assert t[..|s| - 1] == TransformAll(init, m, sigma);
      SumOfTransformed(init, m, sigma);
      var n := (|s| - 1) as real;
      assert sigma * Sum(init) + n * m + (sigma * s[|s| - 1] + m)
          == sigma * (Sum(init) + s[|s| - 1]) + (n + 1.0) * m;
    }
  }

  /** Squared deviations of the mapped sample from the mapped centre scale by `sigma * sigma`. */
  lemma {:induction false} SumSqDevOfTransformed(s: seq<real>, c: real, m: real, sigma: real)
    ensures SumSqDev(TransformAll(s, m, sigma), Transform(c, m, sigma)) == sigma * sigma * SumSqDev(s, c)
  {
    if |s| > 0 {
      var t := TransformAll(s, m, sigma);
      var init := s[..|s| - 1];
      assert t[..|s| - 1] == TransformAll(init, m, sigma);
      SumSqDevOfTransformed(init, c, m, sigma);
      var x, k := s[|s| - 1], sigma * sigma;
      SquaredDeviationScales(x, c, m, sigma);
      Distribute(k, SumSqDev(init, c), (x - c) * (x - c));
    }
  }

  lemma SquaredDeviationScales(x: real, c: real, m: real, sigma: real)
    ensures (Transform(x, m, sigma) - Transform(c, m, sigma)) * (Transform(x, m, sigma) - Transform(c, m, sigma))
         == sigma * sigma * ((x - c) * (x - c))
  {
    var d := x - c;
    assert Transform(x, m, sigma) - Transform(c, m, sigma) == sigma * d;
  }

  lemma Distribute(k: real, a: real, b: real)
    ensures k * a + k * b == k * (a + b)
  {
  }

  /** The mean of the mapped sample is the mapped mean. */
  lemma MeanOfTransformed(s: seq<real>, m: real, sigma: real)
    requires |s| > 0
    ensures Mean(TransformAll(s, m, sigma)) == Transform(Mean(s), m, sigma)
  {
    SumOfTransformed(s, m, sigma);
    var n := |s| as real;
    assert (sigma * Sum(s) + n * m) / n == sigma * (Sum(s) / n) + m;
  }

  lemma ScaledQuotient(a: real, k: real, q: real, n: real)
    requires n != 0.0 && a == k * q
    ensures a / n == k * (q / n)
  {
    assert (q / n) * n == q;
  }

  /** The biased variance of the mapped sample is `sigma * sigma` times the biased variance. */
  lemma VarianceOfTransformed(s: seq<real>, m: real, sigma: real)
    requires |s| > 0
    ensures BiasedVariance(TransformAll(s, m, sigma)) == sigma * sigma * BiasedVariance(s)
  {
    var t := TransformAll(s, m, sigma);
    MeanOfTransformed(s, m, sigma);
    SumSqDevOfTransformed(s, Mean(s), m, sigma);
    assert BiasedVariance(t) == SumSqDev(t, Mean(t)) / |t| as real;
    ScaledQuotient(SumSqDev(t, Mean(t)), sigma * sigma, SumSqDev(s, Mean(s)), |s| as real);
  }
}
