/**
 * Density estimation (src/getLines.js): the event histogram, the fold over a
 * binary-searched index window, the windowed kernel density estimate, and
 * the per-sender bandwidth mixture of `getLines`.
 */
module Density {
  import opened Wrappers
  import opened Search
  import opened Sampling
  import opened Lines
  import opened Chats

  /** Sample density and windowing of one redraw (`slowDraw` / `fastDraw` in src/ChatViz.js). */
  datatype Profile = Profile(numSamples: nat, histogramResolution: nat, normalBandwidth: real)

  // ---------------------------------------------------------------------
  // histogram
  // ---------------------------------------------------------------------

  /** The number of elements of `s` in `[lo, hi)`, in any order. */
  function CountIn(s: seq<real>, lo: real, hi: real): nat {
    if s == [] then 0
    else (if lo <= s[0] < hi then 1 else 0) + CountIn(s[1..], lo, hi)
  }

  /** Counting over two adjacent half-open ranges counts over their union. */
  lemma {:induction false} CountInSplit(s: seq<real>, lo: real, mid: real, hi: real)
    requires lo <= mid <= hi
    ensures CountIn(s, lo, hi) == CountIn(s, lo, mid) + CountIn(s, mid, hi)
  {
    if s != [] {
      CountInSplit(s[1..], lo, mid, hi);
    }
  }

  /** On ascending input the count in `[lo, hi)` is a difference of leading runs. */
  lemma {:induction false} CountInAscending(s: seq<real>, lo: real, hi: real)
    requires Ascending(s) && lo <= hi
    ensures CountIn(s, lo, hi) == CountBelow(s, hi) - CountBelow(s, lo)
  {
    if s != [] {
      var rest := s[1..];
      assert Ascending(rest);
      CountInAscending(rest, lo, hi);
      if s[0] >= lo && |rest| > 0 {
        assert rest[0] >= s[0];
      }
    }
  }

  /** The bucket width: `(last - first) / nBuckets`; never used when there are no buckets. */
  function BucketWidth(nBuckets: nat, first: real, last: real): real {
    if nBuckets == 0 then 0.0 else (last - first) / nBuckets as real
  }

  /** The upper edge of bucket `k - 1`, which is the lower edge of bucket `k`. */
  function Edge(first: real, interval: real, k: nat): real {
    first + k as real * interval
  }

  lemma EdgeStep(first: real, interval: real, k: nat)
    ensures Edge(first, interval, k + 1) == Edge(first, interval, k) + interval
    ensures interval >= 0.0 ==> Edge(first, interval, k) >= first
  {
    assert (k + 1) as real * interval == k as real * interval + interval;
    if interval >= 0.0 {
      assert k as real * interval >= 0.0;
    }
  }

  /** The buckets' non-negative widths add up to the window: the last upper edge is `last`. */
  lemma LastEdge(nBuckets: nat, first: real, last: real)
    requires first <= last
    ensures BucketWidth(nBuckets, first, last) >= 0.0
    ensures Edge(first, BucketWidth(nBuckets, first, last), nBuckets) == if nBuckets > 0 then last else first
  {
    if nBuckets > 0 {
      var n := nBuckets as real;
      assert n * ((last - first) / n) == last - first;
    }
  }

  /** The count of bucket `k`: inputs in `[Edge(k), Edge(k + 1))`. */
  function Occupancy(input: seq<real>, first: real, interval: real, k: nat): nat {
    CountIn(input, Edge(first, interval, k), Edge(first, interval, k + 1))
  }

  /** The timestamp stored for bucket `k`: its upper edge less half a width. */
  function Centre(first: real, interval: real, k: nat): real {
    Edge(first, interval, k + 1) - interval / 2.0
  }

  /**
   * The two parallel arrays `histogram` returns after its first `m` buckets:
   * the centre and count of each bucket with a non-zero count, in bucket order.
   */
  function HistogramOf(input: seq<real>, first: real, interval: real, m: nat): (h: (seq<real>, seq<nat>))
  {
    if m == 0 then ([], [])
    else
      var (ts, vs) := HistogramOf(input, first, interval, m - 1);
      var c := Occupancy(input, first, interval, m - 1);
      if c != 0 then (ts + [Centre(first, interval, m - 1)], vs + [c]) else (ts, vs)
  }

  function SumNat(s: seq<nat>): nat {
    if s == [] then 0 else SumNat(s[..|s| - 1]) + s[|s| - 1]
  }

  /**
   * After `m` buckets of non-negative width: at most `m` entries, every
   * stored count at least 1, centres strictly increasing inside
   * `(first, Edge(m))`, and the counts summing to the inputs in
   * `[first, Edge(m))`.
   */
  lemma {:induction false} HistogramShape(input: seq<real>, first: real, interval: real, m: nat)
    requires interval >= 0.0
    ensures var (ts, vs) := HistogramOf(input, first, interval, m);
      && |ts| == |vs| <= m
      && (forall p :: 0 <= p < |vs| ==> vs[p] >= 1)
      && StrictlyAscending(ts)
      && (forall p :: 0 <= p < |ts| ==> first < ts[p] < Edge(first, interval, m))
      && SumNat(vs) == CountIn(input, first, Edge(first, interval, m))
  {
    if m == 0 {
      assert Edge(first, interval, 0) == first;
      assert CountIn(input, first, first) == 0 by {
        CountInSplit(input, first, first, first);
      }
    } else {
      HistogramShape(input, first, interval, m - 1);
      var (ts, vs) := HistogramOf(input, first, interval, m - 1);
      var c := Occupancy(input, first, interval, m - 1);
      var lo, hi := Edge(first, interval, m - 1), Edge(first, interval, m);
      EdgeStep(first, interval, m - 1);
      CountInSplit(input, first, lo, hi);
      if c != 0 {
        if interval == 0.0 {
          CountInSplit(input, lo, lo, lo);
          assert false;
        }
        var centre := Centre(first, interval, m - 1);
        assert lo < centre < hi;
        AppendBucket(ts, vs, first, lo, centre, hi, c);
      }
    }
  }

  /** Appending a non-empty bucket whose centre lies above every stored one keeps the shape. */
  lemma AppendBucket(ts: seq<real>, vs: seq<nat>, first: real, lo: real, centre: real, hi: real, c: nat)
    requires |ts| == |vs| && StrictlyAscending(ts) && c >= 1
    requires forall p :: 0 <= p < |vs| ==> vs[p] >= 1
    requires forall p :: 0 <= p < |ts| ==> first < ts[p] < lo
    requires first <= lo < centre < hi
    ensures var ts', vs' := ts + [centre], vs + [c];
      && |ts'| == |vs'|
      && (forall p :: 0 <= p < |vs'| ==> vs'[p] >= 1)
      && StrictlyAscending(ts')
      && (forall p :: 0 <= p < |ts'| ==> first < ts'[p] < hi)
      && SumNat(vs') == SumNat(vs) + c
  {
    var ts', vs' := ts + [centre], vs + [c];
    assert vs'[..|vs'| - 1] == vs;
    forall p, q | 0 <= p < q < |ts'|
      ensures ts'[p] < ts'[q]
    {
      if q < |ts| {
        assert ts'[p] == ts[p] && ts'[q] == ts[q];
      }
    }
  }

  /**
   * The inner loop of `histogram`: advance the cursor from `j0` past every
   * input below `time`, counting those at or after `first`. On ascending
   * input the cursor stops at the leading run below `time`, and the count is
   * the number of consumed inputs at or after `first`.
   */
  method ScanBucket(input: seq<real>, j0: nat, first: real, time: real) returns (j: nat, value: nat)
    requires Ascending(input) && first <= time
    requires j0 <= CountBelow(input, time)
    ensures j == CountBelow(input, time)
    ensures var below := CountBelow(input, first);
      value == j - (if j0 > below then j0 else below)
  {
    ghost var below := CountBelow(input, first);
    CountBelowMonotone(input, first, time);
    j, value := j0, 0;
    if j < |input| {
      while j < |input| && input[j] < time
        invariant j0 <= j <= CountBelow(input, time)
        invariant value == if j <= below then 0 else j - (if j0 > below then j0 else below)
      {
        if input[j] >= first {
          value := value + 1;
        } else if j >= below {
          AtLeastFromCountBelow(input, first, j);
        }
        j := j + 1;
      }
    }
  }

  /**
   * src/getLines.js `histogram`: one forward pass of the cursor `j` over the
   * sorted input, closing a bucket every `interval`; inputs before `first`
   * are consumed but not counted, and empty buckets are left out.
   */
  method Histogram(input: seq<real>, nBuckets: nat, first: real, last: real) returns (timestamps: seq<real>, values: seq<nat>)
    requires Ascending(input) && first <= last
    ensures (timestamps, values) == HistogramOf(input, first, BucketWidth(nBuckets, first, last), nBuckets)
    ensures |timestamps| == |values| <= nBuckets
    ensures forall p :: 0 <= p < |values| ==> values[p] >= 1
    ensures StrictlyAscending(timestamps)
    ensures forall p :: 0 <= p < |timestamps| ==> first < timestamps[p] < last
    ensures nBuckets > 0 ==> SumNat(values) == CountIn(input, first, last)
  {
    var interval := BucketWidth(nBuckets, first, last);
    LastEdge(nBuckets, first, last);
    timestamps, values := [], [];
    var j := 0;
    var time := first;
    for i := 0 to nBuckets
      invariant time == Edge(first, interval, i)
      invariant i == 0 ==> j == 0
      invariant i > 0 ==> j == CountBelow(input, time)
      invariant (timestamps, values) == HistogramOf(input, first, interval, i)
    {
      EdgeStep(first, interval, i);
      EdgeStep(first, interval, i + 1);
      ghost var lower := time;
      time := time + interval;
      CountBelowMonotone(input, lower, time);
      CountBelowMonotone(input, first, lower);
      var value;
      j, value := ScanBucket(input, j, first, time);
      CountInAscending(input, lower, time);
      assert value == Occupancy(input, first, interval, i);
      assert time - interval / 2.0 == Centre(first, interval, i);
      if value != 0 {
        timestamps := timestamps + [time - interval / 2.0];
        values := values + [value];
      }
    }
    HistogramShape(input, first, interval, nBuckets);
    LastEdge(nBuckets, first, last);
  }

  // ---------------------------------------------------------------------
  // reduceBetween
  // ---------------------------------------------------------------------

  /** The left fold of `f(acc, values[i], i)` over indices `lo <= i < hi`. */
  function FoldRange(f: (real, real, nat) -> real, values: seq<real>, lo: nat, hi: nat, acc: real): real
    requires hi <= |values|
    decreases hi
  {
    if hi <= lo then acc else f(FoldRange(f, values, lo, hi - 1, acc), values[hi - 1], hi - 1)
  }

  /** A fold whose every step can only add keeps at least its start value. */
  lemma {:induction false} FoldRangeGrows(f: (real, real, nat) -> real, values: seq<real>, lo: nat, hi: nat, acc: real)
    requires hi <= |values|
    requires forall a: real, i: nat :: lo <= i < hi ==> f(a, values[i], i) >= a
    ensures FoldRange(f, values, lo, hi, acc) >= acc
    decreases hi
  {
    if hi > lo {
      FoldRangeGrows(f, values, lo, hi - 1, acc);
    }
  }

  /**
   * src/getLines.js `reduceBetween`: fold `f` over the indices from the
   * search hit for `start` to the search hit for `end`, both included.
   */
  method ReduceBetween(f: (real, real, nat) -> real, values: seq<real>, start: real, end: real, startValue: real) returns (pv: real)
    requires |values| > 0 && Ascending(values)
    ensures pv == FoldRange(f, values, FloorIndex(values, start), FloorIndex(values, end) + 1, startValue)
  {
    pv := startValue;
    var startIndex := BinarySearch(values, start);
    var endIndex := BinarySearch(values, end);
    var i := startIndex;
    while i <= endIndex
      invariant startIndex <= i <= endIndex + 1 || i == startIndex > endIndex + 1
      invariant pv == FoldRange(f, values, startIndex, if i > endIndex + 1 then endIndex + 1 else i, startValue)
    {
      pv := f(pv, values[i], i);
      i := i + 1;
    }
  }

  // ---------------------------------------------------------------------
  // KDE
  // ---------------------------------------------------------------------

  /** `hValues[i] || 1`: the bucket count, or 1 where there is none. */
  function BucketWeight(hValues: seq<nat>, i: nat): real {
    if i < |hValues| && hValues[i] != 0 then hValues[i] as real else 1.0
  }

  /** One step of the KDE fold: add the kernel at the bucket's offset, weighted by its count. */
  function Contribution(kernel: real -> real, hValues: seq<nat>, sample: real, bandwidth: real): (real, real, nat) -> real
    requires bandwidth != 0.0
  {
    (avg: real, timestamp: real, i: nat) => avg + kernel((sample - timestamp) / bandwidth) * BucketWeight(hValues, i)
  }

  /**
   * The density at `sample`: the fold over the buckets within
   * `bandwidth * normalBandwidth` of it, or 0 when the histogram is empty
   * (the source's search yields -1 there, the sum NaN, and `|| 0` turns it to 0).
   */
  function DensityAt(kernel: real -> real, hTimestamps: seq<real>, hValues: seq<nat>, sample: real, bandwidth: real, normalBandwidth: real): real
    requires bandwidth != 0.0
  {
    if |hTimestamps| == 0 then 0.0
    else FoldRange(Contribution(kernel, hValues, sample, bandwidth), hTimestamps,
                   FloorIndex(hTimestamps, sample - bandwidth * normalBandwidth),
                   FloorIndex(hTimestamps, sample + bandwidth * normalBandwidth) + 1, 0.0)
  }

  /** The histogram `KDE` builds: `|samples| * histogramResolution` buckets over the samples' span. */
  function SampleHistogram(timestamps: seq<real>, samples: seq<real>, profile: Profile): (seq<real>, seq<nat>)
    requires |samples| > 0
  {
    var n := |samples| * profile.histogramResolution;
    HistogramOf(timestamps, samples[0], BucketWidth(n, samples[0], samples[|samples| - 1]), n)
  }

  /** The curve `KDE` returns: each sample paired with the density there. */
  function KdeOf(timestamps: seq<real>, samples: seq<real>, bandwidth: real, profile: Profile, kernel: real -> real): seq<Point>
    requires bandwidth > 0.0
  {
    if |samples| == 0 then []
    else DensityCurve(kernel, SampleHistogram(timestamps, samples, profile), samples, bandwidth, profile.normalBandwidth)
  }

  /** Each sample paired with the density of the histogram there. */
  function DensityCurve(kernel: real -> real, hist: (seq<real>, seq<nat>), samples: seq<real>, bandwidth: real, normalBandwidth: real): seq<Point>
    requires bandwidth != 0.0
  {
    seq(|samples|, i requires 0 <= i < |samples| =>
      Point(samples[i], DensityAt(kernel, hist.0, hist.1, samples[i], bandwidth, normalBandwidth)))
  }

  /** A KDE curve has one point per sample, and the samples are its timestamps. */
  lemma KdeOfShape(timestamps: seq<real>, samples: seq<real>, bandwidth: real, profile: Profile, kernel: real -> real)
    requires bandwidth > 0.0
    ensures |KdeOf(timestamps, samples, bandwidth, profile, kernel)| == |samples|
    ensures Times(KdeOf(timestamps, samples, bandwidth, profile, kernel)) == samples
  {
  }

  /** With a non-negative kernel the density at a sample is non-negative. */
  lemma DensityAtNonNegative(kernel: real -> real, hTimestamps: seq<real>, hValues: seq<nat>, sample: real, bandwidth: real, normalBandwidth: real)
    requires bandwidth != 0.0
    requires forall x :: kernel(x) >= 0.0
    ensures DensityAt(kernel, hTimestamps, hValues, sample, bandwidth, normalBandwidth) >= 0.0
  {
    if |hTimestamps| > 0 {
      var f := Contribution(kernel, hValues, sample, bandwidth);
      var lo := FloorIndex(hTimestamps, sample - bandwidth * normalBandwidth);
      var hi := FloorIndex(hTimestamps, sample + bandwidth * normalBandwidth) + 1;
      forall a: real, k: nat | lo <= k < hi
        ensures f(a, hTimestamps[k], k) >= a
      {
        var x := kernel((sample - hTimestamps[k]) / bandwidth);
        assert x * BucketWeight(hValues, k) >= 0.0;
      }
      FoldRangeGrows(f, hTimestamps, lo, hi, 0.0);
    }
  }

  /** With a non-negative kernel every density of a KDE curve is non-negative. */
  lemma KdeNonNegative(timestamps: seq<real>, samples: seq<real>, bandwidth: real, profile: Profile, kernel: real -> real)
    requires bandwidth > 0.0
    requires forall x :: kernel(x) >= 0.0
    ensures forall i :: 0 <= i < |samples| ==> KdeOf(timestamps, samples, bandwidth, profile, kernel)[i].v >= 0.0
  {
    if |samples| > 0 {
      var hist := SampleHistogram(timestamps, samples, profile);
      forall i | 0 <= i < |samples|
        ensures KdeOf(timestamps, samples, bandwidth, profile, kernel)[i].v >= 0.0
      {
        DensityAtNonNegative(kernel, hist.0, hist.1, samples[i], bandwidth, profile.normalBandwidth);
      }
    }
  }

  /**
   * src/getLines.js `KDE`: histogram the timestamps over the samples' span,
   * then, sample by sample, fold the kernel over the nearby buckets.
   */
  method Kde(timestamps: seq<real>, samples: seq<real>, bandwidth: real, profile: Profile, kernel: real -> real) returns (curve: seq<Point>)
    requires Ascending(timestamps) && Ascending(samples) && bandwidth > 0.0
    ensures curve == KdeOf(timestamps, samples, bandwidth, profile, kernel)
  {
    if |samples| == 0 {
      return [];
    }
    var n := |samples| * profile.histogramResolution;
    var hTimestamps, hValues := Histogram(timestamps, n, samples[0], samples[|samples| - 1]);
    ghost var hist := SampleHistogram(timestamps, samples, profile);
    assert (hTimestamps, hValues) == hist;
    curve := DensitiesAtSamples(kernel, hTimestamps, hValues, samples, bandwidth, profile.normalBandwidth);
  }

  /** `samples.map(...)` in `KDE`: the density at each sample in turn. */
  method DensitiesAtSamples(kernel: real -> real, hTimestamps: seq<real>, hValues: seq<nat>, samples: seq<real>,
                            bandwidth: real, normalBandwidth: real) returns (curve: seq<Point>)
    requires Ascending(hTimestamps) && bandwidth != 0.0
    ensures curve == DensityCurve(kernel, (hTimestamps, hValues), samples, bandwidth, normalBandwidth)
  {
    ghost var expected := DensityCurve(kernel, (hTimestamps, hValues), samples, bandwidth, normalBandwidth);
    curve := [];
    for i := 0 to |samples|
      invariant curve == expected[..i]
    {
      var density := DensityOfSample(kernel, hTimestamps, hValues, samples[i], bandwidth, normalBandwidth);
      assert expected[..i + 1] == expected[..i] + [Point(samples[i], density)];
      curve := curve + [Point(samples[i], density)];
    }
    assert expected[..|samples|] == expected;
  }

  /** Over a non-empty histogram the density is the fold over the buckets in reach. */
  lemma DensityAtFold(kernel: real -> real, hTimestamps: seq<real>, hValues: seq<nat>, sample: real, bandwidth: real, normalBandwidth: real)
    requires |hTimestamps| > 0 && bandwidth != 0.0
    ensures DensityAt(kernel, hTimestamps, hValues, sample, bandwidth, normalBandwidth)
      == FoldRange(Contribution(kernel, hValues, sample, bandwidth), hTimestamps,
                   FloorIndex(hTimestamps, sample - bandwidth * normalBandwidth),
                   FloorIndex(hTimestamps, sample + bandwidth * normalBandwidth) + 1, 0.0)
  {
  }

  /** The body of `KDE`'s map: the fold around one sample, 0 over an empty histogram. */
  method DensityOfSample(kernel: real -> real, hTimestamps: seq<real>, hValues: seq<nat>, sample: real, bandwidth: real, normalBandwidth: real)
    returns (density: real)
    requires Ascending(hTimestamps) && bandwidth != 0.0
    ensures density == DensityAt(kernel, hTimestamps, hValues, sample, bandwidth, normalBandwidth)
  {
    density := 0.0;
    if |hTimestamps| > 0 {
      var f := Contribution(kernel, hValues, sample, bandwidth);
      var lo := sample - bandwidth * normalBandwidth;
      var hi := sample + bandwidth * normalBandwidth;
      density := ReduceBetween(f, hTimestamps, lo, hi, 0.0);
      DensityAtFold(kernel, hTimestamps, hValues, sample, bandwidth, normalBandwidth);
    }
  }

  // ---------------------------------------------------------------------
  // The bandwidth mixture of getLines
  // ---------------------------------------------------------------------

  /** `bandwidthCount` in src/getLines.js. */
  const BandwidthCount: nat := 25

  /**
   * The mixture weight of each bandwidth: the normal density at
   * `(i / 24) * 2 - 1` with the settings' bias as mean and variance.
   */
  function MixtureWeights(normal: (real, real, real) -> real, bias: real, variance: real): (w: seq<real>)
    ensures |w| == BandwidthCount
  {
    seq(BandwidthCount, i requires 0 <= i < BandwidthCount =>
      normal((i as real / (BandwidthCount - 1) as real) * 2.0 - 1.0, bias, variance))
  }

  /** The KDE curves at the halving bandwidths, all over the same ticks. */
  function BandwidthCurves(timestamps: seq<real>, ticks: seq<real>, baseBandwidth: real, profile: Profile, kernel: real -> real): (curves: seq<seq<Point>>)
    requires baseBandwidth > 0.0
    ensures |curves| == BandwidthCount
  {
    seq(BandwidthCount, j requires 0 <= j < BandwidthCount =>
      KdeOf(timestamps, ticks, baseBandwidth / Pow2(j), profile, kernel))
  }

  /** The bandwidth curves of one sender all have the ticks' length, so they can be mixed. */
  lemma BandwidthCurvesMixable(timestamps: seq<real>, ticks: seq<real>, baseBandwidth: real, mixture: seq<real>, profile: Profile, kernel: real -> real)
    requires baseBandwidth > 0.0 && |mixture| == BandwidthCount
    ensures var curves := BandwidthCurves(timestamps, ticks, baseBandwidth, profile, kernel);
      && Mixable(curves, mixture)
      && forall j :: 0 <= j < BandwidthCount ==> |curves[j]| == |ticks| && Times(curves[j]) == ticks
  {
    var curves := BandwidthCurves(timestamps, ticks, baseBandwidth, profile, kernel);
    forall j | 0 <= j < BandwidthCount
      ensures |curves[j]| == |ticks| && Times(curves[j]) == ticks
    {
      LadderPositive(baseBandwidth, j);
      KdeOfShape(timestamps, ticks, baseBandwidth / Pow2(j), profile, kernel);
    }
  }

  /** A participant's density line: the KDEs at the halving bandwidths, mixed. */
  function MixedLine(timestamps: seq<real>, ticks: seq<real>, baseBandwidth: real, mixture: seq<real>,
                     profile: Profile, kernel: real -> real): (line: seq<Point>)
    requires baseBandwidth > 0.0 && |mixture| == BandwidthCount
    ensures |line| == |ticks| && Times(line) == ticks
  {
    var curves := BandwidthCurves(timestamps, ticks, baseBandwidth, profile, kernel);
    BandwidthCurvesMixable(timestamps, ticks, baseBandwidth, mixture, profile, kernel);
    MixLinesTimes(curves, mixture);
    MixLines(curves, mixture)
  }

  /** One element of `bandwidths.map(b => KDE(...))`: the KDE over freshly built ticks. */
  method BandwidthCurve(timestamps: seq<real>, start: real, end: real, bandwidth: real, profile: Profile, kernel: real -> real)
    returns (curve: seq<Point>)
    requires Ascending(timestamps) && start <= end && profile.numSamples >= 2 && bandwidth > 0.0
    ensures curve == KdeOf(timestamps, Ticks(start, end, profile.numSamples), bandwidth, profile, kernel)
  {
    var samples := TimeInterval(start, end, profile.numSamples);
    TicksAscending(start, end, profile.numSamples);
    curve := Kde(timestamps, samples, bandwidth, profile, kernel);
  }

  /**
   * One participant's line as src/getLines.js lines 142-163 compute it: a
   * KDE at each of the 25 halving bandwidths over the same ticks, mixed
   * under the mixture weights.
   */
  method MixedDensity(timestamps: seq<real>, start: real, end: real, baseBandwidth: real,
                      mixture: seq<real>, profile: Profile, kernel: real -> real) returns (line: seq<Point>)
    requires Ascending(timestamps) && start <= end && profile.numSamples >= 2
    requires baseBandwidth > 0.0 && |mixture| == BandwidthCount
    ensures line == MixedLine(timestamps, Ticks(start, end, profile.numSamples), baseBandwidth, mixture, profile, kernel)
  {
    var bandwidths := LogSequence(baseBandwidth, BandwidthCount);
    var curves := KdeAtEach(timestamps, start, end, bandwidths, profile, kernel);
    ghost var ticks := Ticks(start, end, profile.numSamples);
    assert curves == BandwidthCurves(timestamps, ticks, baseBandwidth, profile, kernel);
    BandwidthCurvesMixable(timestamps, ticks, baseBandwidth, mixture, profile, kernel);
    line := MixLines(curves, mixture);
  }

  /** `bandwidths.map((b) => KDE(timestamps, timeInterval(start, end, numSamples), b, ...))`. */
  method KdeAtEach(timestamps: seq<real>, start: real, end: real, bandwidths: seq<real>, profile: Profile, kernel: real -> real)
    returns (curves: seq<seq<Point>>)
    requires Ascending(timestamps) && start <= end && profile.numSamples >= 2
    requires forall j :: 0 <= j < |bandwidths| ==> bandwidths[j] > 0.0
    ensures |curves| == |bandwidths|
    ensures forall j :: 0 <= j < |bandwidths| ==>
      curves[j] == KdeOf(timestamps, Ticks(start, end, profile.numSamples), bandwidths[j], profile, kernel)
  {
    ghost var ticks := Ticks(start, end, profile.numSamples);
    ghost var expected := seq(|bandwidths|, j requires 0 <= j < |bandwidths| =>
      KdeOf(timestamps, ticks, bandwidths[j], profile, kernel));
    curves := [];
    for j := 0 to |bandwidths|
      invariant |curves| == j
      invariant forall k :: 0 <= k < j ==> curves[k] == expected[k]
    {
      var curve := BandwidthCurve(timestamps, start, end, bandwidths[j], profile, kernel);
      curves := curves + [curve];
    }
  }

  /**
   * With a non-negative kernel and non-negative mixture weights the mixed
   * line is non-negative everywhere.
   */
  lemma MixedDensityNonNegative(timestamps: seq<real>, ticks: seq<real>, baseBandwidth: real,
                                mixture: seq<real>, profile: Profile, kernel: real -> real)
    requires baseBandwidth > 0.0 && |mixture| == BandwidthCount
    requires forall x :: kernel(x) >= 0.0
    requires forall j :: 0 <= j < |mixture| ==> mixture[j] >= 0.0
    ensures forall i :: 0 <= i < |ticks| ==> MixedLine(timestamps, ticks, baseBandwidth, mixture, profile, kernel)[i].v >= 0.0
  {
    var curves: seq<seq<Point>> := BandwidthCurves(timestamps, ticks, baseBandwidth, profile, kernel);
    forall j: nat | j < BandwidthCount
      ensures forall i :: 0 <= i < |ticks| ==> curves[j][i].v >= 0.0
    {
      LadderPositive(baseBandwidth, j);
      KdeNonNegative(timestamps, ticks, baseBandwidth / Pow2(j), profile, kernel);
    }
    forall i | 0 <= i < |ticks|
      ensures MixLines(curves, mixture)[i].v >= 0.0
    {
      WeightedSumNonNegative(curves, mixture, i, BandwidthCount);
    }
  }

  // ---------------------------------------------------------------------
  // getLines up to the mixture
  // ---------------------------------------------------------------------

  /**
   * The time window `getLines` pads around the messages (lines 117-118).
   * The end is padded from the already padded start, so the padding after
   * the last message is 21/20 of the padding before the first.
   */
  function Window(first: real, last: real): (real, real) {
    var timeStart := first - (last - first) / 20.0;
    var timeEnd := last + (last - timeStart) / 20.0;
    (timeStart, timeEnd)
  }

  /** The window contains the span and is strictly wider than a non-empty one. */
  lemma WindowPadding(first: real, last: real)
    ensures var w := Window(first, last);
      && w.0 == first - (last - first) / 20.0
      && w.1 == last + (last - first) * 21.0 / 400.0
      && (first <= last ==> w.0 <= first && last <= w.1)
      && (first < last ==> w.1 - w.0 > last - first)
  {
  }

  /** The padded window around a chat's messages (src/getLines.js lines 114-118). */
  function ChatWindow(messages: seq<Message>): (w: (real, real))
    requires |messages| > 0
    ensures messages[0].datetime < messages[|messages| - 1].datetime ==> w.0 < w.1
  {
    Window(messages[0].datetime as real, messages[|messages| - 1].datetime as real)
  }

  /** The range the curves are sampled over: the one given, else the window (line 119). */
  function RangeOrWindow(sampleRange: Option<(real, real)>, messages: seq<Message>): (real, real)
    requires |messages| > 0
  {
    if sampleRange.Some? then sampleRange.value else ChatWindow(messages)
  }

  /** The sender plotted as line A (`index` 0) or line B (`index` 1) under `flipped`. */
  function SenderAt(chat: Chat, flipped: bool, index: nat): Option<string>
    requires index < 2
  {
    if (index == 0) != flipped then chat.participants.first else chat.participants.second
  }

  /** The timestamps of the messages `sender` sent (`undefined` matches nobody). */
  function SenderTimes(messages: seq<Message>, sender: Option<string>): (ts: seq<real>)
    ensures |ts| <= |messages|
  {
    if messages == [] then []
    else
      var rest := SenderTimes(messages[1..], sender);
      if sender == Some(messages[0].sender) then [messages[0].datetime as real] + rest else rest
  }

  /** A bound below every message time bounds every sender timestamp. */
  lemma {:induction false} SenderTimesAbove(messages: seq<Message>, sender: Option<string>, bound: int)
    requires forall k :: 0 <= k < |messages| ==> messages[k].datetime >= bound
    ensures forall p :: 0 <= p < |SenderTimes(messages, sender)| ==> SenderTimes(messages, sender)[p] >= bound as real
  {
    if messages != [] {
      SenderTimesAbove(messages[1..], sender, bound);
    }
  }

  /** A sender's timestamps of a chat sorted by time come out sorted. */
  lemma {:induction false} SenderTimesSorted(messages: seq<Message>, sender: Option<string>)
    requires SortedByTime(messages)
    ensures Ascending(SenderTimes(messages, sender))
  {
    if messages != [] {
      var rest := messages[1..];
      assert SortedByTime(rest);
      SenderTimesSorted(rest, sender);
      SenderTimesAbove(rest, sender, messages[0].datetime);
    }
  }

  /**
   * The line `getLines` draws for participant `index` (0 for line A, 1 for
   * line B, swapped under `flipped`): the sender's message times, a KDE at
   * each bandwidth halving from the window's width, sampled over the range
   * and mixed under the mixture weights.
   */
  function ParticipantLine(chat: Chat, flipped: bool, bias: real, variance: real, profile: Profile,
                           sampleRange: Option<(real, real)>, kernel: real -> real,
                           normal: (real, real, real) -> real, index: nat): (line: seq<Point>)
    requires |chat.messages| > 0 && profile.numSamples >= 2 && index < 2
    requires chat.messages[0].datetime < chat.messages[|chat.messages| - 1].datetime
  {
    MixedLine(SenderTimes(chat.messages, SenderAt(chat, flipped, index)),
              Ticks(RangeOrWindow(sampleRange, chat.messages).0, RangeOrWindow(sampleRange, chat.messages).1, profile.numSamples),
              ChatWindow(chat.messages).1 - ChatWindow(chat.messages).0, MixtureWeights(normal, bias, variance), profile, kernel)
  }

  /** One participant's line as src/getLines.js lines 114-163 compute it. */
  method DensityLine(chat: Chat, flipped: bool, bias: real, variance: real, profile: Profile,
                     sampleRange: Option<(real, real)>, kernel: real -> real,
                     normal: (real, real, real) -> real, index: nat) returns (line: seq<Point>)
    requires |chat.messages| > 0 && SortedByTime(chat.messages) && index < 2
    requires chat.messages[0].datetime < chat.messages[|chat.messages| - 1].datetime
    requires profile.numSamples >= 2
    requires sampleRange.Some? ==> sampleRange.value.0 <= sampleRange.value.1
    ensures line == ParticipantLine(chat, flipped, bias, variance, profile, sampleRange, kernel, normal, index)
  {
    var messages := chat.messages;
    var w := ChatWindow(messages);
    var range := RangeOrWindow(sampleRange, messages);
    var mixture := MixtureWeights(normal, bias, variance);
    var timestamps := SenderTimes(messages, SenderAt(chat, flipped, index));
    SenderTimesSorted(messages, SenderAt(chat, flipped, index));
    line := MixedDensity(timestamps, range.0, range.1, w.1 - w.0, mixture, profile, kernel);
  }

  /**
   * A non-negative kernel and a non-negative normal density make every
   * participant's mixed line non-negative.
   */
  lemma DensityLinesNonNegative(timestamps: seq<real>, ticks: seq<real>, baseBandwidth: real,
                                normal: (real, real, real) -> real, bias: real, variance: real,
                                profile: Profile, kernel: real -> real)
    requires baseBandwidth > 0.0
    requires forall x :: kernel(x) >= 0.0
    requires forall x, m, v :: normal(x, m, v) >= 0.0
    ensures forall i :: 0 <= i < |ticks| ==>
      MixedLine(timestamps, ticks, baseBandwidth, MixtureWeights(normal, bias, variance), profile, kernel)[i].v >= 0.0
  {
    MixedDensityNonNegative(timestamps, ticks, baseBandwidth, MixtureWeights(normal, bias, variance), profile, kernel);
  }

  /**
   * A participant's line has one point per sample, its timestamps are the
   * ticks over the sample range (the padded window when none is given), and
   * with a non-negative kernel and normal density it is non-negative.
   */
  lemma ParticipantLineShape(chat: Chat, flipped: bool, bias: real, variance: real, profile: Profile,
                             sampleRange: Option<(real, real)>, kernel: real -> real,
                             normal: (real, real, real) -> real, index: nat)
    requires |chat.messages| > 0 && profile.numSamples >= 2 && index < 2
    requires chat.messages[0].datetime < chat.messages[|chat.messages| - 1].datetime
    ensures var line := ParticipantLine(chat, flipped, bias, variance, profile, sampleRange, kernel, normal, index);
      var range := if sampleRange.Some? then sampleRange.value else ChatWindow(chat.messages);
      && |line| == profile.numSamples
      && Times(line) == Ticks(range.0, range.1, profile.numSamples)
      && ((forall x :: kernel(x) >= 0.0) && (forall x, m, v :: normal(x, m, v) >= 0.0) ==>
            forall i :: 0 <= i < |line| ==> line[i].v >= 0.0)
  {
    if (forall x :: kernel(x) >= 0.0) && (forall x, m, v :: normal(x, m, v) >= 0.0) {
      var range := RangeOrWindow(sampleRange, chat.messages);
      var w := ChatWindow(chat.messages);
      DensityLinesNonNegative(SenderTimes(chat.messages, SenderAt(chat, flipped, index)),
                              Ticks(range.0, range.1, profile.numSamples), w.1 - w.0,
                              normal, bias, variance, profile, kernel);
    }
  }

  /** Flipping swaps the two lines: line A of a flipped chat is line B of the unflipped one. */
  lemma FlipSwapsLines(chat: Chat, bias: real, variance: real, profile: Profile,
                       sampleRange: Option<(real, real)>, kernel: real -> real,
                       normal: (real, real, real) -> real, index: nat)
    requires |chat.messages| > 0 && profile.numSamples >= 2 && index < 2
    requires chat.messages[0].datetime < chat.messages[|chat.messages| - 1].datetime
    ensures ParticipantLine(chat, true, bias, variance, profile, sampleRange, kernel, normal, index)
         == ParticipantLine(chat, false, bias, variance, profile, sampleRange, kernel, normal, 1 - index)
  {
  }

  /**
   * src/getLines.js lines 101-163: pick the senders by `flipped`, pad the
   * window, default the sample range to it, and mix each sender's KDEs at
   * bandwidths halving from the window's width.
   */
  method GetDensityLines(chat: Chat, settings: Settings, profile: Profile, sampleRange: Option<(real, real)>,
                         kernel: real -> real, normal: (real, real, real) -> real)
    returns (lineA: seq<Point>, lineB: seq<Point>)
    requires |chat.messages| > 0 && SortedByTime(chat.messages)
    requires chat.messages[0].datetime < chat.messages[|chat.messages| - 1].datetime
    requires profile.numSamples >= 2
    requires sampleRange.Some? ==> sampleRange.value.0 <= sampleRange.value.1
    ensures lineA == ParticipantLine(chat, settings.flipped, settings.bandwidthBias, settings.bandwidthVariance,
                                     profile, sampleRange, kernel, normal, 0)
    ensures lineB == ParticipantLine(chat, settings.flipped, settings.bandwidthBias, settings.bandwidthVariance,
                                     profile, sampleRange, kernel, normal, 1)
  {
    lineA := DensityLine(chat, settings.flipped, settings.bandwidthBias, settings.bandwidthVariance,
                         profile, sampleRange, kernel, normal, 0);
    lineB := DensityLine(chat, settings.flipped, settings.bandwidthBias, settings.bandwidthVariance,
                         profile, sampleRange, kernel, normal, 1);
  }


}
