/**
 * Curves and their pointwise shaping (src/getLines.js): weighted mixing of
 * lines, `mapY`, the final min-max rescale of `getLines`, and the in-place
 * splice of `getLinesWithInsetRange`.
 */
module Lines {
  import opened Wrappers
  import opened Search

  /** One `[timestamp, value]` pair of a curve. */
  datatype Point = Point(t: real, v: real)

  function Times(line: seq<Point>): (ts: seq<real>)
    ensures |ts| == |line|
    ensures forall i :: 0 <= i < |line| ==> ts[i] == line[i].t
  {
    seq(|line|, i requires 0 <= i < |line| => line[i].t)
  }

  function Values(line: seq<Point>): (vs: seq<real>)
    ensures |vs| == |line|
    ensures forall i :: 0 <= i < |line| ==> vs[i] == line[i].v
  {
    seq(|line|, i requires 0 <= i < |line| => line[i].v)
  }

  // ---------------------------------------------------------------------
  // mixLines and mapY
  // ---------------------------------------------------------------------

  /** `mixLines` can index `lines[j][i]` for every weight `j` and point `i` of `lines[0]`. */
  predicate Mixable(lines: seq<seq<Point>>, weights: seq<real>) {
    && |lines| > 0
    && |weights| <= |lines|
    && forall j :: 0 <= j < |weights| ==> |lines[j]| >= |lines[0]|
  }

  /** The left fold `weights.reduce` runs at point `i` over the first `m` weights. */
  function WeightedSum(lines: seq<seq<Point>>, weights: seq<real>, i: nat, m: nat): real
    requires Mixable(lines, weights) && i < |lines[0]| && m <= |weights|
  {
    if m == 0 then 0.0
    else WeightedSum(lines, weights, i, m - 1) + lines[m - 1][i].v * weights[m - 1]
  }

  /**
   * src/getLines.js `mixLines`: the timestamps of `lines[0]`, each paired with
   * the weighted sum of the lines' values at that index.
   */
  function MixLines(lines: seq<seq<Point>>, weights: seq<real>): (mix: seq<Point>)
    requires Mixable(lines, weights)
    ensures |mix| == |lines[0]|
  {
    seq(|lines[0]|, i requires 0 <= i < |lines[0]| =>
      Point(lines[0][i].t, WeightedSum(lines, weights, i, |weights|)))
  }

  /** The mix keeps the first line's timestamps. */
  lemma MixLinesTimes(lines: seq<seq<Point>>, weights: seq<real>)
    requires Mixable(lines, weights)
    ensures Times(MixLines(lines, weights)) == Times(lines[0])
  {
  }

  function Sum(s: seq<real>): real {
    if s == [] then 0.0 else Sum(s[..|s| - 1]) + s[|s| - 1]
  }

  /** Mixing copies of one line weighs each value by the total weight. */
  lemma {:induction false} WeightedSumOfCopies(line: seq<Point>, lines: seq<seq<Point>>, weights: seq<real>, i: nat, m: nat)
    requires Mixable(lines, weights) && i < |lines[0]| && i < |line| && m <= |weights|
    requires forall j :: 0 <= j < |weights| ==> lines[j] == line
    ensures WeightedSum(lines, weights, i, m) == line[i].v * Sum(weights[..m])
  {
    if m > 0 {
      WeightedSumOfCopies(line, lines, weights, i, m - 1);
      assert weights[..m][..m - 1] == weights[..m - 1];
    }
  }

  /** Non-negative values under non-negative weights mix to a non-negative value. */
  lemma {:induction false} WeightedSumNonNegative(lines: seq<seq<Point>>, weights: seq<real>, i: nat, m: nat)
    requires Mixable(lines, weights) && i < |lines[0]| && m <= |weights|
    requires forall j :: 0 <= j < |weights| ==> weights[j] >= 0.0 && lines[j][i].v >= 0.0
    ensures WeightedSum(lines, weights, i, m) >= 0.0
  {
    if m > 0 {
      WeightedSumNonNegative(lines, weights, i, m - 1);
      assert lines[m - 1][i].v * weights[m - 1] >= 0.0;
    }
  }

  /** Mixing a line with itself under weights summing to 1 returns it unchanged. */
  lemma MixSelf(line: seq<Point>, lines: seq<seq<Point>>, weights: seq<real>)
    requires |lines| > 0 && |weights| == |lines| && Sum(weights) == 1.0
    requires forall j :: 0 <= j < |lines| ==> lines[j] == line
    ensures Mixable(lines, weights) && MixLines(lines, weights) == line
  {
    var mix := MixLines(lines, weights);
    forall i | 0 <= i < |line|
      ensures mix[i] == line[i]
    {
      WeightedSumOfCopies(line, lines, weights, i, |weights|);
      assert weights[..|weights|] == weights;
    }
  }

  /** A two-line mix is the pointwise weighted sum of the two values. */
  lemma MixPair(a: seq<Point>, b: seq<Point>, wa: real, wb: real, i: nat)
    requires |a| <= |b| && i < |a|
    ensures Mixable([a, b], [wa, wb])
    ensures MixLines([a, b], [wa, wb])[i] == Point(a[i].t, wa * a[i].v + wb * b[i].v)
  {
    assert WeightedSum([a, b], [wa, wb], i, 1) == a[i].v * wa;
  }

  /**
   * A mix of two lines under weights `w` and `1 - w`, with `w` in [0, 1],
   * lies between the two lines, and moves towards `a` as `w` grows.
   */
  lemma MixBetween(a: seq<Point>, b: seq<Point>, w: real, w': real, i: nat)
    requires |a| <= |b| && i < |a|
    requires 0.0 <= w <= w' <= 1.0
    ensures Mixable([a, b], [w, 1.0 - w]) && Mixable([a, b], [w', 1.0 - w'])
    ensures var m := MixLines([a, b], [w, 1.0 - w])[i].v;
      && (a[i].v <= m <= b[i].v || b[i].v <= m <= a[i].v)
      && (a[i].v >= b[i].v ==> m <= MixLines([a, b], [w', 1.0 - w'])[i].v)
      && (a[i].v <= b[i].v ==> m >= MixLines([a, b], [w', 1.0 - w'])[i].v)
  {
    MixPair(a, b, w, 1.0 - w, i);
    MixPair(a, b, w', 1.0 - w', i);
    BlendBetween(a[i].v, b[i].v, w, w');
    assert MixLines([a, b], [w, 1.0 - w])[i].v == w * a[i].v + (1.0 - w) * b[i].v;
    assert MixLines([a, b], [w', 1.0 - w'])[i].v == w' * a[i].v + (1.0 - w') * b[i].v;
  }

  /** The blend `w * x + (1 - w) * y` of two values lies between them and moves towards `x` as `w` grows. */
  lemma BlendBetween(x: real, y: real, w: real, w': real)
    requires 0.0 <= w <= w' <= 1.0
    ensures x <= w * x + (1.0 - w) * y <= y || y <= w * x + (1.0 - w) * y <= x
    ensures x >= y ==> w * x + (1.0 - w) * y <= w' * x + (1.0 - w') * y
    ensures x <= y ==> w * x + (1.0 - w) * y >= w' * x + (1.0 - w') * y
  {
    var d := x - y;
    Distribute(w, x, y);
    Distribute(w', x, y);
    ScaleWithin(w, w', d);
  }

  /** `w * x + (1 - w) * y` is `y` moved by `w` times the gap `x - y`. */
  lemma Distribute(w: real, x: real, y: real)
    ensures w * x + (1.0 - w) * y == y + w * (x - y)
  {
  }

  /** Scaling a gap by weights in [0, 1] keeps it between 0 and the gap, in weight order. */
  lemma ScaleWithin(w: real, w': real, d: real)
    requires 0.0 <= w <= w' <= 1.0
    ensures d >= 0.0 ==> 0.0 <= w * d <= w' * d <= d
    ensures d <= 0.0 ==> d <= w' * d <= w * d <= 0.0
  {
    if d >= 0.0 {
      ScaleGap(w, w', d);
    } else {
      ScaleGap(w, w', -d);
      assert w * -d == -(w * d);
      assert w' * -d == -(w' * d);
    }
  }

  lemma ScaleGap(w: real, w': real, d: real)
    requires 0.0 <= w <= w' <= 1.0 && d >= 0.0
    ensures 0.0 <= w * d <= w' * d <= d
  {
    assert w * d >= 0.0;
    assert (w' - w) * d >= 0.0;
    assert (1.0 - w') * d >= 0.0;
  }

  /** The even mix of a line and its mirror image `1 - value` is the flat 0.5 line. */
  lemma MixMirror(a: seq<Point>, b: seq<Point>)
    requires |a| == |b|
    requires forall i :: 0 <= i < |a| ==> b[i].v == 1.0 - a[i].v
    ensures Mixable([a, b], [0.5, 0.5])
    ensures Values(MixLines([a, b], [0.5, 0.5])) == seq(|a|, i => 0.5)
  {
    forall i | 0 <= i < |a|
      ensures MixLines([a, b], [0.5, 0.5])[i].v == 0.5
    {
      MixPair(a, b, 0.5, 0.5, i);
    }
  }

  /** src/getLines.js `mapY`: `f` applied to every value, with its index. */
  function MapY(line: seq<Point>, f: (real, nat) -> real): (r: seq<Point>)
    ensures |r| == |line| && Times(r) == Times(line)
    ensures forall i :: 0 <= i < |line| ==> r[i].v == f(line[i].v, i)
  {
    seq(|line|, i requires 0 <= i < |line| => Point(line[i].t, f(line[i].v, i)))
  }

  // ---------------------------------------------------------------------
  // The final rescale of getLines
  // ---------------------------------------------------------------------

  function MinOf(s: seq<real>): (m: real)
    requires |s| > 0
    ensures m in s && forall x :: x in s ==> m <= x
  {
    if |s| == 1 then s[0]
    else
      assert s == [s[0]] + s[1..];
      var m := MinOf(s[1..]); if s[0] <= m then s[0] else m
  }

  function MaxOf(s: seq<real>): (m: real)
    requires |s| > 0
    ensures m in s && forall x :: x in s ==> x <= m
  {
    if |s| == 1 then s[0]
    else
      assert s == [s[0]] + s[1..];
      var m := MaxOf(s[1..]); if s[0] >= m then s[0] else m
  }

  /** The values of both lines together, as `[].concat(lineA, lineB)` gathers them. */
  function Both(a: seq<Point>, b: seq<Point>): seq<real> {
    Values(a) + Values(b)
  }

  /** The two lines are not flat together: their joint minimum lies below their joint maximum. */
  predicate Spread(a: seq<Point>, b: seq<Point>) {
    |a| + |b| > 0 && MinOf(Both(a, b)) < MaxOf(Both(a, b))
  }

  /** `((v - lo) / (hi - lo)) * 0.98 + 0.01`. */
  function Margin(v: real, lo: real, hi: real): real
    requires lo < hi
  {
    ((v - lo) / (hi - lo)) * 0.98 + 0.01
  }

  /** The margin map is strictly increasing and sends [lo, hi] onto [0.01, 0.99]. */
  lemma MarginMonotone(v: real, v': real, lo: real, hi: real)
    requires lo < hi
    ensures v < v' <==> Margin(v, lo, hi) < Margin(v', lo, hi)
    ensures Margin(lo, lo, hi) == 0.01 && Margin(hi, lo, hi) == 0.99
    ensures lo <= v <= hi ==> 0.01 <= Margin(v, lo, hi) <= 0.99
  {
    var span := hi - lo;
    assert (v' - lo) / span - (v - lo) / span == (v' - v) / span;
    assert (hi - lo) / span == 1.0;
    if lo <= v <= hi {
      assert (v - lo) / span <= span / span;
    }
  }

  /**
   * src/getLines.js lines 189-199: map both lines by the same affine map that
   * sends their joint minimum to 0.01 and their joint maximum to 0.99.
   */
  function Rescale(a: seq<Point>, b: seq<Point>): (r: (seq<Point>, seq<Point>))
    requires Spread(a, b)
    ensures |r.0| == |a| && |r.1| == |b|
    ensures Times(r.0) == Times(a) && Times(r.1) == Times(b)
  {
    var lo, hi := MinOf(Both(a, b)), MaxOf(Both(a, b));
    (MapY(a, (v, i) => Margin(v, lo, hi)), MapY(b, (v, i) => Margin(v, lo, hi)))
  }

  /**
   * After the rescale every value of both lines lies in [0.01, 0.99]; a
   * value at the joint minimum becomes 0.01 and one at the joint maximum
   * 0.99; and the order of any two values, across both lines, is kept.
   */
  lemma RescaleBounds(a: seq<Point>, b: seq<Point>)
    requires Spread(a, b)
    ensures var (ra, rb) := Rescale(a, b);
      var lo, hi := MinOf(Both(a, b)), MaxOf(Both(a, b));
      && (forall i :: 0 <= i < |a| ==> 0.01 <= ra[i].v <= 0.99)
      && (forall i :: 0 <= i < |b| ==> 0.01 <= rb[i].v <= 0.99)
      && (forall i :: 0 <= i < |a| ==> (a[i].v == lo <==> ra[i].v == 0.01) && (a[i].v == hi <==> ra[i].v == 0.99))
      && (forall i :: 0 <= i < |b| ==> (b[i].v == lo <==> rb[i].v == 0.01) && (b[i].v == hi <==> rb[i].v == 0.99))
      && (forall i, j :: 0 <= i < |a| && 0 <= j < |b| ==> (a[i].v < b[j].v <==> ra[i].v < rb[j].v))
  {
    var (ra, rb) := Rescale(a, b);
    var both := Both(a, b);
    var lo, hi := MinOf(both), MaxOf(both);
    forall i | 0 <= i < |a|
      ensures 0.01 <= ra[i].v <= 0.99
      ensures (a[i].v == lo <==> ra[i].v == 0.01) && (a[i].v == hi <==> ra[i].v == 0.99)
    {
      assert both[i] == a[i].v && a[i].v in both;
      MarginMonotone(a[i].v, hi, lo, hi);
      MarginMonotone(lo, a[i].v, lo, hi);
    }
    forall i | 0 <= i < |b|
      ensures 0.01 <= rb[i].v <= 0.99
      ensures (b[i].v == lo <==> rb[i].v == 0.01) && (b[i].v == hi <==> rb[i].v == 0.99)
    {
      assert both[|a| + i] == b[i].v && b[i].v in both;
      MarginMonotone(b[i].v, hi, lo, hi);
      MarginMonotone(lo, b[i].v, lo, hi);
    }
    forall i, j | 0 <= i < |a| && 0 <= j < |b|
      ensures a[i].v < b[j].v <==> ra[i].v < rb[j].v
    {
      MarginMonotone(a[i].v, b[j].v, lo, hi);
    }
  }

  // ---------------------------------------------------------------------
  // getLinesWithInsetRange
  // ---------------------------------------------------------------------

  /** The mutable `data` array of a line object, which the inset splice rewrites in place. */
  class LineData {
    var points: seq<Point>

    constructor (points: seq<Point>)
      ensures this.points == points
    {
      this.points := points;
    }
  }

  /**
   * The inset: the selected range and the two lines `getLines` computed for
   * it (the caller's second `getLines` call).
   */
  datatype Inset = Inset(start: real, end: real, a: seq<Point>, b: seq<Point>)

  /** First index the splice replaces: one before the search hit for `start`, at least 0. */
  function SpliceLo(times: seq<real>, start: real): (lo: nat)
    requires |times| > 0
    ensures lo < |times|
  {
    var i := FloorIndex(times, start) - 1;
    if i > 0 then i else 0
  }

  /** Index after the last one the splice replaces: two past the hit for `end`, at most the length. */
  function SpliceHi(times: seq<real>, end: real): (hi: nat)
    requires |times| > 0
    ensures hi <= |times|
  {
    var i := FloorIndex(times, end) + 2;
    if i < |times| then i else |times|
  }

  /** `data.splice(lo, hi - lo, ...inset)`, with a negative delete count read as 0. */
  function Splice(data: seq<Point>, lo: nat, hi: nat, inset: seq<Point>): (r: seq<Point>)
    requires lo <= |data| && hi <= |data|
  {
    data[..lo] + inset + data[(if hi > lo then hi else lo)..]
  }

  /** The line `getLinesWithInsetRange` leaves behind for one full line and its inset. */
  function SplicedLine(data: seq<Point>, start: real, end: real, inset: seq<Point>): (r: seq<Point>)
    requires |data| > 0 && |inset| > 0
  {
    if inset[0].v == 0.0 then data
    else Splice(data, SpliceLo(Times(data), start), SpliceHi(Times(data), end), inset)
  }

  /**
   * On a line with strictly increasing timestamps the splice keeps a prefix
   * of points strictly before `start` and a suffix of points strictly after
   * `end`, with the whole inset in between; a zero first inset value leaves
   * the line untouched.
   */
  lemma SplicedLineShape(data: seq<Point>, start: real, end: real, inset: seq<Point>)
    requires |data| > 0 && |inset| > 0 && StrictlyAscending(Times(data))
    ensures var r := SplicedLine(data, start, end, inset);
      inset[0].v == 0.0 ==> r == data
    ensures inset[0].v != 0.0 ==>
      var r := SplicedLine(data, start, end, inset);
      exists lo, hi :: 0 <= lo <= hi <= |data|
        && r == data[..lo] + inset + data[hi..]
        && (forall p :: 0 <= p < lo ==> data[p].t < start)
        && (forall p :: hi <= p < |data| ==> data[p].t > end)
  {
    if inset[0].v != 0.0 {
      var times := Times(data);
      var lo := SpliceLo(times, start);
      var hi := SpliceHi(times, end);
      var hi' := if hi > lo then hi else lo;
      SpliceLoBefore(times, start);
      SpliceHiAfter(times, end);
      var r := SplicedLine(data, start, end, inset);
      assert r == data[..lo] + inset + data[hi'..];
      assert forall p :: 0 <= p < lo ==> data[p].t < start;
      assert forall p :: hi' <= p < |data| ==> data[p].t > end;
    }
  }

  /** Every timestamp before the first replaced index lies before `start`. */
  lemma SpliceLoBefore(times: seq<real>, start: real)
    requires |times| > 0 && StrictlyAscending(times)
    ensures forall p :: 0 <= p < SpliceLo(times, start) ==> times[p] < start
  {
    FloorIndexIsNearestFloor(times, start);
    var s := FloorIndex(times, start);
    forall p | 0 <= p < SpliceLo(times, start)
      ensures times[p] < start
    {
      assert p < s && times[p] < times[s];
    }
  }

  /** Every timestamp from the end of the replaced run on lies after `end`. */
  lemma SpliceHiAfter(times: seq<real>, end: real)
    requires |times| > 0 && StrictlyAscending(times)
    ensures forall p :: SpliceHi(times, end) <= p < |times| ==> times[p] > end
  {
    FloorIndexIsNearestFloor(times, end);
    var e := FloorIndex(times, end);
    forall p | SpliceHi(times, end) <= p < |times|
      ensures times[p] > end
    {
      assert p > e && times[e] < times[p];
      if times[0] > end {
        assert times[0] <= times[p];
      }
    }
  }

  /** The clamped splice bounds around `[start, end]`, found by binary search. */
  method SpliceBounds(times: seq<real>, start: real, end: real) returns (lo: nat, hi: nat)
    requires |times| > 0
    ensures lo < |times| && hi <= |times|
    ensures Ascending(times) ==> lo == SpliceLo(times, start) && hi == SpliceHi(times, end)
  {
    var s := BinarySearch(times, start);
    var e := BinarySearch(times, end);
    lo := if s > 1 then s - 1 else 0;
    hi := if e + 2 < |times| then e + 2 else |times|;
  }

  /**
   * src/getLines.js lines 213-231 (`getLinesWithInsetRange`): without an
   * inset the lines are returned as they are; with one, each line whose inset
   * starts with a non-zero value has the points around the range replaced by
   * the inset, in place.
   */
  method GetLinesWithInsetRange(lineA: LineData, lineB: LineData, inset: Option<Inset>)
    requires lineA != lineB
    requires |lineA.points| > 0 && |lineB.points| > 0
    requires inset.Some? ==> |inset.value.a| > 0 && |inset.value.b| > 0
    modifies lineA, lineB
    ensures inset.None? ==> lineA.points == old(lineA.points) && lineB.points == old(lineB.points)
    ensures inset.Some? && Ascending(Times(old(lineA.points))) ==>
      lineA.points == SplicedLine(old(lineA.points), inset.value.start, inset.value.end, inset.value.a)
    ensures inset.Some? && Ascending(Times(old(lineB.points))) ==>
      lineB.points == SplicedLine(old(lineB.points), inset.value.start, inset.value.end, inset.value.b)
  {
    if inset.None? {
      return;
    }
    var Inset(start, end, insetA, insetB) := inset.value;
    var dataA, dataB := lineA.points, lineB.points;
    var loA, hiA := SpliceBounds(Times(dataA), start, end);
    var loB, hiB := SpliceBounds(Times(dataB), start, end);
    if insetA[0].v != 0.0 {
      lineA.points := Splice(dataA, loA, hiA, insetA);
    }
    if insetB[0].v != 0.0 {
      lineB.points := Splice(dataB, loB, hiB, insetB);
    }
  }
}
