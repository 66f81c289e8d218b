/**
 * The interval variation series of script.js: equal-width bucket edges
 * (`calculateIntervalBounds`) and the frequency of each bucket
 * (`createVariationSeries`). Exact reals stand in for JavaScript doubles.
 */
module Binning {
  import opened Wrappers
  import opened Statistics

  /** Width of one bucket: the range `[lo, hi]` split into `k` equal parts. */
  function Width(lo: real, hi: real, k: nat): (w: real)
    ensures lo <= hi ==> w >= 0.0
    ensures k > 0 ==> w * k as real == hi - lo
  {
    // For k = 0 the source divides by zero, but no edge then uses the width.
    if k == 0 then 0.0 else (hi - lo) / k as real
  }

  /** `k` left edges `lo + i * width`, then the sentinel `hi + 1`. */
  function Edges(lo: real, hi: real, k: nat): (b: seq<real>)
    ensures |b| == k + 1 && b[k] == hi + 1.0
    ensures k > 0 ==> b[0] == lo
  {
    seq(k, i requires 0 <= i < k => lo + i as real * Width(lo, hi, k)) + [hi + 1.0]
  }

  /** The bounds `calculateIntervalBounds` returns for a sample and a bucket count. */
  function IntervalBounds(data: seq<real>, k: nat): (b: seq<real>)
    requires |data| > 0
    ensures |b| == k + 1 && b[k] == Max(data) + 1.0
    ensures k > 0 ==> b[0] == Min(data)
  {
    Edges(Min(data), Max(data), k)
  }

  ghost predicate NonDecreasing(b: seq<real>)
  {
    forall i, j :: 0 <= i <= j < |b| ==> b[i] <= b[j]
  }

  /**
   * `calculateIntervalBounds`: pushes the running edge `numIntervals` times,
   * adding the width after each push, then pushes `max + 1`.
   */
  method CalculateIntervalBounds(data: seq<real>, numIntervals: nat) returns (bounds: seq<real>)
    requires |data| > 0
    ensures bounds == IntervalBounds(data, numIntervals)
    ensures |bounds| == numIntervals + 1
    ensures bounds[numIntervals] == Max(data) + 1.0
    ensures numIntervals > 0 ==> bounds[0] == Min(data)
  {
    var minValue := Min(data);
    var maxValue := Max(data);
    var intervalSize := Width(minValue, maxValue, numIntervals);
    bounds := [];
    var currentBound := minValue;
    for i := 0 to numIntervals
      invariant |bounds| == i
      invariant currentBound == minValue + i as real * intervalSize
      invariant forall j :: 0 <= j < i ==> bounds[j] == minValue + j as real * intervalSize
    {
      bounds := bounds + [currentBound];
      currentBound := currentBound + intervalSize;
    }
    bounds := bounds + [maxValue + 1.0];
    ghost var edges := Edges(minValue, maxValue, numIntervals);
    forall j | 0 <= j < |edges|
      ensures bounds[j] == edges[j]
    {
    }
  }

  /** Adding a non-negative width keeps edges in order, and the last real edge is at most `hi`. */
  lemma EdgeOrder(lo: real, hi: real, w: real, k: nat, i: nat, j: nat)
    requires w >= 0.0 && i <= j < k && w * k as real == hi - lo
    ensures lo + i as real * w <= lo + j as real * w <= hi
  {
    var x, y, n := i as real, j as real, k as real;
    ProductNonNegative(y - x, w);
    assert y * w - x * w == (y - x) * w;
    ProductNonNegative(n - y, w);
    assert n * w - y * w == (n - y) * w;
    assert w * n == n * w;
  }

  /** The edges, one by one. */
  lemma EdgeAt(lo: real, hi: real, k: nat, i: nat)
    requires i <= k
    ensures |Edges(lo, hi, k)| == k + 1
    ensures Edges(lo, hi, k)[i] == if i < k then lo + i as real * Width(lo, hi, k) else hi + 1.0
  {
  }

  /** For `lo <= hi` the edges never decrease and the sentinel is above `hi`. */
  lemma EdgesNonDecreasing(lo: real, hi: real, k: nat)
    requires lo <= hi
    ensures NonDecreasing(Edges(lo, hi, k))
  {
    var b, w := Edges(lo, hi, k), Width(lo, hi, k);
    forall i, j | 0 <= i <= j < |b|
      ensures b[i] <= b[j]
    {
      EdgeAt(lo, hi, k, i);
      EdgeAt(lo, hi, k, j);
      if j < k {
        assert b[i] == lo + i as real * w && b[j] == lo + j as real * w;
        EdgeOrder(lo, hi, w, k, i, j);
      } else if i < k {
        assert b[i] == lo + i as real * w && b[j] == hi + 1.0;
        EdgeOrder(lo, hi, w, k, i, i);
      } else {
        assert i == j;
      }
    }
  }

  /** The bounds of a sample never decrease. */
  lemma BoundsNonDecreasing(data: seq<real>, k: nat)
    requires |data| > 0
    ensures NonDecreasing(IntervalBounds(data, k))
  {
    MinIsLeast(data);
    MaxIsGreatest(data);
    EdgesNonDecreasing(Min(data), Max(data), k);
  }

  /** Every value of the sample lies strictly below the sentinel. */
  lemma SentinelAboveSample(data: seq<real>, k: nat)
    requires |data| > 0
    ensures forall i :: 0 <= i < |data| ==> data[i] < IntervalBounds(data, k)[k]
  {
    MaxIsGreatest(data);
  }

  /** With at least one bucket, every value lies in `[bounds[0], bounds[k])`. */
  lemma SampleWithinBounds(data: seq<real>, k: nat)
    requires |data| > 0 && k > 0
    ensures forall i :: 0 <= i < |data| ==>
      IntervalBounds(data, k)[0] <= data[i] < IntervalBounds(data, k)[k]
  {
    MinIsLeast(data);
    MaxIsGreatest(data);
  }

  /** `value >= bounds[j] && value < bounds[j + 1]`: the half-open bucket test. */
  predicate InBucket(v: real, bounds: seq<real>, j: int)
    requires 0 <= j && j + 1 < |bounds|
  {
    bounds[j] <= v < bounds[j + 1]
  }

  /**
   * The inner loop of `createVariationSeries` from bucket `from` on: the
   * first bucket whose test succeeds, or none.
   */
  function FirstBucket(v: real, bounds: seq<real>, from: nat): (r: Option<nat>)
    decreases |bounds| - from
    ensures r.Some? ==> from <= r.value && r.value + 1 < |bounds| && InBucket(v, bounds, r.value)
    ensures r.Some? ==> forall j :: from <= j < r.value ==> !InBucket(v, bounds, j)
    ensures r.None? ==> forall j :: from <= j && j + 1 < |bounds| ==> !InBucket(v, bounds, j)
  {
    if from + 1 >= |bounds| then None
    else if InBucket(v, bounds, from) then Some(from)
    else FirstBucket(v, bounds, from + 1)
  }

  /** The bucket a value is counted in, scanning from the first one. */
  function Bucket(v: real, bounds: seq<real>): (r: Option<nat>)
    ensures r.Some? ==> r.value + 1 < |bounds| && InBucket(v, bounds, r.value)
    ensures r.Some? ==> forall j :: 0 <= j < r.value ==> !InBucket(v, bounds, j)
    ensures r.None? <==> forall j :: 0 <= j && j + 1 < |bounds| ==> !InBucket(v, bounds, j)
  {
    FirstBucket(v, bounds, 0)
  }

  /** A bucket whose test succeeds after all earlier tests failed is the value's bucket. */
  lemma FirstMatch(v: real, bounds: seq<real>, j: nat)
    requires j + 1 < |bounds| && InBucket(v, bounds, j)
    requires forall j' :: 0 <= j' < j ==> !InBucket(v, bounds, j')
    ensures Bucket(v, bounds) == Some(j)
  {
  }

  /**
   * The counts after the values of `data` have been processed in order:
   * all zero at first, then each value adds one to its bucket, if any.
   */
  function Tally(data: seq<real>, bounds: seq<real>): (counts: seq<nat>)
    ensures |counts| == |bounds|
  {
    if |data| == 0 then seq(|bounds|, _ => 0)
    else
      var counts := Tally(data[..|data| - 1], bounds);
      match Bucket(data[|data| - 1], bounds)
      case None => counts
      case Some(j) => counts[j := counts[j] + 1]
  }

  /**
   * Processing one more value changes at most one slot: the value's bucket
   * gains one and every other slot keeps its count.
   */
  lemma TallyStep(data: seq<real>, v: real, bounds: seq<real>)
    ensures forall j :: 0 <= j < |bounds| ==>
      Tally(data + [v], bounds)[j] == Tally(data, bounds)[j] + (if Bucket(v, bounds) == Some(j) then 1 else 0)
  {
    assert (data + [v])[..|data|] == data;
  }

  /** Sum of the counts. */
  function Total(c: seq<nat>): nat
  {
    if |c| == 0 then 0 else c[0] + Total(c[1..])
  }

  /** Incrementing one slot adds one to the total. */
  lemma {:induction false} TotalBump(c: seq<nat>, j: nat)
    requires j < |c|
    ensures Total(c[j := c[j] + 1]) == Total(c) + 1
  {
    if j > 0 {
      assert c[j := c[j] + 1][1..] == c[1..][j - 1 := c[j] + 1];
      TotalBump(c[1..], j - 1);
    }
  }

  /** A zero-filled series has total 0. */
  lemma {:induction false} TotalZeros(n: nat)
    ensures Total(seq(n, _ => 0)) == 0
  {
    if n > 0 {
      assert seq(n, _ => 0)[1..] == seq(n - 1, _ => 0);
      TotalZeros(n - 1);
    }
  }

  /** Number of values of `data` that some bucket accepts. */
  function Covered(data: seq<real>, bounds: seq<real>): (r: nat)
    ensures r <= |data|
  {
    if |data| == 0 then 0
    else Covered(data[..|data| - 1], bounds) + (if Bucket(data[|data| - 1], bounds).Some? then 1 else 0)
  }

  /** Number of values of `data` in `[lo, hi)`. */
  function CountIn(data: seq<real>, lo: real, hi: real): (r: nat)
    ensures r <= |data|
  {
    if |data| == 0 then 0
    else CountIn(data[..|data| - 1], lo, hi) + (if lo <= data[|data| - 1] < hi then 1 else 0)
  }

  /** Each value adds one to the total if a bucket accepts it, and nothing otherwise. */
  lemma {:induction false} TallyTotal(data: seq<real>, bounds: seq<real>)
    ensures Total(Tally(data, bounds)) == Covered(data, bounds)
  {
    if |data| == 0 {
      TotalZeros(|bounds|);
    } else {
      TallyTotal(data[..|data| - 1], bounds);
      var c := Tally(data[..|data| - 1], bounds);
      match Bucket(data[|data| - 1], bounds)
      case None =>
      case Some(j) => TotalBump(c, j);
    }
  }

  /** The counts never add up to more than the number of values. */
  lemma TallyTotalAtMost(data: seq<real>, bounds: seq<real>)
    ensures Total(Tally(data, bounds)) <= |data|
  {
    TallyTotal(data, bounds);
  }

  /** The trailing slot is never a bucket, so it stays 0. */
  lemma {:induction false} TallyLastSlotZero(data: seq<real>, bounds: seq<real>)
    requires |bounds| > 0
    ensures Tally(data, bounds)[|bounds| - 1] == 0
  {
    if |data| > 0 {
      TallyLastSlotZero(data[..|data| - 1], bounds);
    }
  }

  /** A value in `[bounds[from], bounds[last])` is accepted by some bucket from `from` on. */
  lemma {:induction false} FirstBucketFound(v: real, bounds: seq<real>, from: nat)
    requires from + 1 < |bounds|
    requires bounds[from] <= v < bounds[|bounds| - 1]
    ensures FirstBucket(v, bounds, from).Some?
    decreases |bounds| - from
  {
    if !InBucket(v, bounds, from) {
      FirstBucketFound(v, bounds, from + 1);
    }
  }

  /** If every value is accepted by some bucket, every value is counted. */
  lemma {:induction false} AllCovered(data: seq<real>, bounds: seq<real>)
    requires forall i :: 0 <= i < |data| ==> Bucket(data[i], bounds).Some?
    ensures Covered(data, bounds) == |data|
  {
    if |data| > 0 {
      var init := data[..|data| - 1];
      assert forall i :: 0 <= i < |init| ==> init[i] == data[i];
      AllCovered(init, bounds);
    }
  }

  /**
   * With non-decreasing bounds the half-open buckets are disjoint, so the
   * first match is the only one: a value is counted in bucket `j` exactly
   * when it lies in `[bounds[j], bounds[j + 1])`.
   */
  lemma BucketOfSorted(v: real, bounds: seq<real>, j: nat)
    requires NonDecreasing(bounds) && j + 1 < |bounds|
    ensures Bucket(v, bounds) == Some(j) <==> InBucket(v, bounds, j)
  {
    if InBucket(v, bounds, j) {
      forall j' | 0 <= j' < j
        ensures !InBucket(v, bounds, j')
      {
        assert bounds[j' + 1] <= bounds[j];
      }
      FirstMatch(v, bounds, j);
    }
  }

  /** With non-decreasing bounds, slot `j` counts the values in `[bounds[j], bounds[j + 1])`. */
  lemma {:induction false} TallyCountsBucket(data: seq<real>, bounds: seq<real>, j: nat)
    requires NonDecreasing(bounds) && j + 1 < |bounds|
    ensures Tally(data, bounds)[j] == CountIn(data, bounds[j], bounds[j + 1])
  {
    if |data| > 0 {
      TallyCountsBucket(data[..|data| - 1], bounds, j);
      BucketOfSorted(data[|data| - 1], bounds, j);
    }
  }

  /**
   * The variation series of a sample with its own bounds and at least one
   * bucket: every value is counted exactly once, the trailing slot is 0, and
   * each bucket holds exactly the values in its half-open interval.
   */
  lemma VariationSeriesExact(data: seq<real>, k: nat)
    requires |data| > 0 && k > 0
    ensures Total(Tally(data, IntervalBounds(data, k))) == |data|
    ensures Tally(data, IntervalBounds(data, k))[k] == 0
    ensures forall j :: 0 <= j < k ==>
      Tally(data, IntervalBounds(data, k))[j] == CountIn(data, IntervalBounds(data, k)[j], IntervalBounds(data, k)[j + 1])
  {
    var b := IntervalBounds(data, k);
    SampleWithinBounds(data, k);
    forall i | 0 <= i < |data|
      ensures Bucket(data[i], b).Some?
    {
      FirstBucketFound(data[i], b, 0);
    }
    AllCovered(data, b);
    TallyTotal(data, b);
    TallyLastSlotZero(data, b);
    BoundsNonDecreasing(data, k);
    forall j | 0 <= j < k
      ensures Tally(data, b)[j] == CountIn(data, b[j], b[j + 1])
    {
      TallyCountsBucket(data, b, j);
    }
  }

  /** With no buckets the bounds are the sentinel alone. */
  lemma NoBuckets(data: seq<real>)
    requires |data| > 0
    ensures IntervalBounds(data, 0) == [Max(data) + 1.0]
  {
  }

  /** A single bound means no bucket at all: the series is one 0 and no value is counted. */
  lemma SingleBoundSeries(data: seq<real>, bounds: seq<real>)
    requires |bounds| == 1
    ensures Tally(data, bounds) == [0]
  {
    TallyLastSlotZero(data, bounds);
  }

  /**
   * `createVariationSeries`: a zero-filled array as long as `bounds`; for each
   * value, the first bucket whose test succeeds is incremented and the scan
   * stops.
   */
  method CreateVariationSeries(data: seq<real>, bounds: seq<real>) returns (series: array<nat>)
    ensures fresh(series)
    ensures series.Length == |bounds|
    ensures series[..] == Tally(data, bounds)
    ensures Total(series[..]) <= |data|
    ensures |bounds| > 0 ==> series[|bounds| - 1] == 0
  {
    series := new nat[|bounds|](_ => 0);
    assert series[..] == Tally(data[..0], bounds);
    for i := 0 to |data|
      invariant series.Length == |bounds|
      invariant series[..] == Tally(data[..i], bounds)
    {
      var value := data[i];
      assert data[..i + 1][..i] == data[..i];
      var j := 0;
      while j < |bounds| - 1
        invariant 0 <= j
        invariant |bounds| > 0 ==> j <= |bounds| - 1
        invariant forall j' :: 0 <= j' < j && j' + 1 < |bounds| ==> !InBucket(value, bounds, j')
        invariant series[..] == Tally(data[..i], bounds)
      {
        if value >= bounds[j] && value < bounds[j + 1] {
          FirstMatch(value, bounds, j);
          series[j] := series[j] + 1;
          break;
        }
        j := j + 1;
      }
      assert series[..] == Tally(data[..i + 1], bounds);
    }
    assert data[..|data|] == data;
    TallyTotalAtMost(data, bounds);
    if |bounds| > 0 {
      TallyLastSlotZero(data, bounds);
    }
  }
}
