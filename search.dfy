/**
 * Ordered search: the floor-nearest binary search every range lookup of the
 * curve pipeline goes through (src/binarySearch.js).
 */
module Search {

  /** `s` is sorted in non-decreasing order. */
  predicate Ascending(s: seq<real>) {
    forall i, j :: 0 <= i < j < |s| ==> s[i] <= s[j]
  }

  /** `s` is sorted in strictly increasing order. */
  predicate StrictlyAscending(s: seq<real>) {
    forall i, j :: 0 <= i < j < |s| ==> s[i] < s[j]
  }

  /**
   * The length of the leading run of `s` whose elements lie below `t`.
   * On ascending input this is the number of elements below `t`.
   */
  function CountBelow(s: seq<real>, t: real): (k: nat)
    ensures k <= |s|
    ensures forall p :: 0 <= p < k ==> s[p] < t
    ensures k < |s| ==> s[k] >= t
  {
    if |s| == 0 || s[0] >= t then 0 else 1 + CountBelow(s[1..], t)
  }

  /** On ascending input every element from the run's end on is at least `t`. */
  lemma AtLeastFromCountBelow(s: seq<real>, t: real, p: int)
    requires Ascending(s)
    requires CountBelow(s, t) <= p < |s|
    ensures s[p] >= t
  {
    var k := CountBelow(s, t);
    assert s[k] <= s[p];
  }

  /** A larger bound never shortens the leading run. */
  lemma CountBelowMonotone(s: seq<real>, t1: real, t2: real)
    requires t1 <= t2
    ensures CountBelow(s, t1) <= CountBelow(s, t2)
  {
  }

  /**
   * The index the search returns on ascending, non-empty input, stated
   * through the number `k` of elements below `seek`: the index before the
   * first element above `seek`, or the first element equal to `seek`
   * (the second one when the first two both equal `seek`).
   */
  function FloorIndex(values: seq<real>, seek: real): (i: nat)
    requires |values| > 0
    ensures i < |values|
  {
    var n := |values|;
    var k := CountBelow(values, seek);
    if k == n then n - 1
    else if values[k] > seek then (if k > 0 then k - 1 else 0)
    else if k > 0 then k
    else if n >= 2 && values[1] == seek then 1
    else 0
  }

  /**
   * The search on ascending input finds "the value <= and closest to seek":
   * index 0 when `seek` lies below every value, the last index when it lies
   * above every value, and otherwise an element at most `seek` that no
   * element at most `seek` exceeds.
   */
  lemma FloorIndexIsNearestFloor(values: seq<real>, seek: real)
    requires |values| > 0 && Ascending(values)
    ensures seek < values[0] ==> FloorIndex(values, seek) == 0
    ensures seek > values[|values| - 1] ==> FloorIndex(values, seek) == |values| - 1
    ensures values[0] <= seek ==>
      var i := FloorIndex(values, seek);
      values[i] <= seek && forall j :: 0 <= j < |values| && values[j] <= seek ==> values[j] <= values[i]
  {
    var n := |values|;
    var k := CountBelow(values, seek);
    var i := FloorIndex(values, seek);
    if seek > values[n - 1] {
      assert forall p :: 0 <= p < n ==> values[p] <= values[n - 1];
      assert k == n;
    }
    if values[0] <= seek {
      forall j | 0 <= j < n && values[j] <= seek
        ensures values[j] <= values[i]
      {
        if k < n && values[k] == seek {
          if j > i {
            AtLeastFromCountBelow(values, seek, j);
            AtLeastFromCountBelow(values, seek, i);
          }
        }
      }
    }
  }

  /**
   * src/binarySearch.js: bisect while the bracket [lo, hi] is wider than one
   * step, then prefer `hi` unless it lies above `seek` or farther from it.
   */
  method BinarySearch(values: seq<real>, seek: real) returns (i: nat)
    requires |values| > 0
    ensures i < |values|
    ensures Ascending(values) ==> i == FloorIndex(values, seek)
  {
    var lo := 0;
    var hi := |values| - 1;
    while hi - lo > 1
      invariant 0 <= lo <= hi < |values|
      invariant |values| > 1 ==> lo < hi
      invariant lo == 0 || values[lo] < seek
      invariant hi == |values| - 1 || values[hi] >= seek
      decreases hi - lo
    {
      var test := (lo + hi) / 2;
      if values[test] < seek {
        lo := test;
      } else {
        hi := test;
      }
    }
    if values[hi] > seek {
      i := lo;
    } else if Abs(values[hi] - seek) > Abs(values[lo] - seek) {
      // on ascending input values[lo] <= values[hi] <= seek, so `hi` is never farther
      assert !Ascending(values);
      i := lo;
    } else {
      i := hi;
    }
    if Ascending(values) {
      var k := CountBelow(values, seek);
      if values[lo] < seek {
        assert forall p :: 0 <= p <= lo ==> values[p] <= values[lo];
        assert k > lo;
      }
      if hi < |values| - 1 {
        assert k <= hi;
      }
    }
  }

  function Abs(x: real): (r: real)
    ensures r >= 0.0 && (r == x || r == -x)
  {
    if x < 0.0 then -x else x
  }
}
