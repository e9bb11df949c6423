/**
 * Counting into a JavaScript object and ranking its keys: the `senders`
 * dictionary of `processChat` (src/ChatUploader.js) and the `pHashmap` of
 * `tidyChats` (src/useModel.js). An object is a map plus the order its keys
 * were first inserted in, which `Object.keys` returns.
 */
module Tally {
  import opened Sorting

  /** How many times `x` occurs in `xs`. */
  function Occurrences(xs: seq<string>, x: string): (n: nat)
    ensures n <= |xs|
    ensures n > 0 <==> x in xs
    decreases |xs|
  {
    if xs == [] then 0
    else
      var init := xs[..|xs| - 1];
      assert xs == init + [xs[|xs| - 1]];
      Occurrences(init, x) + (if xs[|xs| - 1] == x then 1 else 0)
  }

  /** The distinct elements of `xs` in the order of their first occurrence. */
  function FirstAppearance(xs: seq<string>): (keys: seq<string>)
    ensures forall x :: x in keys <==> x in xs
    decreases |xs|
  {
    if xs == [] then []
    else
      var init := xs[..|xs| - 1];
      var last := xs[|xs| - 1];
      assert xs == init + [last];
      var keys := FirstAppearance(init);
      if last in keys then keys else keys + [last]
  }

  /** Appending an element lists it last if it is new, and changes nothing otherwise. */
  lemma FirstAppearanceSnoc(xs: seq<string>, x: string)
    ensures FirstAppearance(xs + [x]) == if x in xs then FirstAppearance(xs) else FirstAppearance(xs) + [x]
  {
    assert (xs + [x])[..|xs|] == xs;
  }

  /** Every key is listed once. */
  lemma {:induction false} FirstAppearanceOnce(xs: seq<string>, x: string)
    ensures multiset(FirstAppearance(xs))[x] <= 1
    decreases |xs|
  {
    if xs != [] {
      FirstAppearanceOnce(xs[..|xs| - 1], x);
    }
  }

  /** A sequence without repeats is its own list of first appearances. */
  lemma {:induction false} FirstAppearanceOfDistinct(xs: seq<string>)
    requires forall i, j :: 0 <= i < j < |xs| ==> xs[i] != xs[j]
    ensures FirstAppearance(xs) == xs
    decreases |xs|
  {
    if xs != [] {
      var init := xs[..|xs| - 1];
      FirstAppearanceOfDistinct(init);
      assert xs[|xs| - 1] !in init;
      assert xs == init + [xs[|xs| - 1]];
    }
  }

  /** Repeating a repeat-free sequence adds no new first appearance. */
  lemma {:induction false} FirstAppearanceOfRepeat(s: seq<string>)
    requires FirstAppearance(s) == s
    ensures FirstAppearance(s + s) == s
  {
    FirstAppearanceAbsorbs(s, s);
  }

  lemma {:induction false} FirstAppearanceAbsorbs(s: seq<string>, t: seq<string>)
    requires FirstAppearance(s) == s
    requires forall x :: x in t ==> x in s
    ensures FirstAppearance(s + t) == s
    decreases |t|
  {
    if t == [] {
      assert s + t == s;
    } else {
      var init := t[..|t| - 1];
      assert (s + t)[..|s + t| - 1] == s + init;
      assert t[|t| - 1] in t;
      FirstAppearanceAbsorbs(s, init);
    }
  }

  /**
   * The counting `forEach`: `if (!h[x]) h[x] = 0; h[x]++` for each `x`,
   * returning the object's entries and its key order.
   */
  method CountKeys(xs: seq<string>) returns (counts: map<string, nat>, keys: seq<string>)
    ensures keys == FirstAppearance(xs)
    ensures forall x :: x in counts <==> x in xs
    ensures forall x :: x in counts ==> counts[x] == Occurrences(xs, x)
  {
    counts, keys := map[], [];
    for i := 0 to |xs|
      invariant keys == FirstAppearance(xs[..i])
      invariant forall x :: x in counts <==> x in xs[..i]
      invariant forall x :: x in counts ==> counts[x] == Occurrences(xs[..i], x)
    {
      var x := xs[i];
      assert xs[..i + 1][..i] == xs[..i];
      if x !in counts {
        counts := counts[x := 0];
        keys := keys + [x];
      }
      counts := counts[x := counts[x] + 1];
    }
    assert xs[..|xs|] == xs;
  }

  /** The sort key `(a, b) => h[b] - h[a]` orders by: the count, descending. */
  function ByCount(xs: seq<string>): string -> int {
    x => -(Occurrences(xs, x) as int)
  }

  /** `Object.keys(h).sort((a, b) => h[b] - h[a])`. */
  function Ranked(xs: seq<string>): seq<string> {
    SortBy(FirstAppearance(xs), ByCount(xs))
  }

  /** Two equal entries at distinct positions count twice in the multiset. */
  lemma RepeatCountsTwice(s: seq<string>, i: nat, j: nat)
    requires i < j < |s| && s[i] == s[j]
    ensures multiset(s)[s[i]] >= 2
  {
    assert s == s[..j] + [s[j]] + s[j + 1..];
    assert s[i] in multiset(s[..j]);
  }

  /**
   * The ranking lists every distinct element once, by non-increasing count;
   * an element not among the first `i` ranked ones occurs at most as often
   * as the `i`-th.
   */
  lemma RankedByOccurrences(xs: seq<string>)
    ensures var r := Ranked(xs);
      && (forall x :: x in r <==> x in xs)
      && (forall i, j :: 0 <= i < j < |r| ==> r[i] != r[j])
      && (forall i, j :: 0 <= i < j < |r| ==> Occurrences(xs, r[i]) >= Occurrences(xs, r[j]))
      && (forall i, x :: 0 <= i < |r| && x !in r[..i] ==> Occurrences(xs, r[i]) >= Occurrences(xs, x))
  {
    RankedMembers(xs);
    RankedDistinct(xs);
    RankedNonIncreasing(xs);
    RankedDominates(xs);
  }

  lemma RankedMembers(xs: seq<string>)
    ensures forall x :: x in Ranked(xs) <==> x in xs
  {
    SortBySorted(FirstAppearance(xs), ByCount(xs));
    assert forall x :: x in Ranked(xs) <==> x in multiset(FirstAppearance(xs));
  }

  lemma RankedDistinct(xs: seq<string>)
    ensures var r := Ranked(xs);
      forall i, j :: 0 <= i < j < |r| ==> r[i] != r[j]
  {
    var r := Ranked(xs);
    SortBySorted(FirstAppearance(xs), ByCount(xs));
    forall i, j | 0 <= i < j < |r|
      ensures r[i] != r[j]
    {
      if r[i] == r[j] {
        RepeatCountsTwice(r, i, j);
        FirstAppearanceOnce(xs, r[i]);
        assert false;
      }
    }
  }

  lemma RankedNonIncreasing(xs: seq<string>)
    ensures var r := Ranked(xs);
      forall i, j :: 0 <= i < j < |r| ==> Occurrences(xs, r[i]) >= Occurrences(xs, r[j])
  {
    var r := Ranked(xs);
    SortBySorted(FirstAppearance(xs), ByCount(xs));
    forall i, j | 0 <= i < j < |r|
      ensures Occurrences(xs, r[i]) >= Occurrences(xs, r[j])
    {
      assert ByCount(xs)(r[i]) <= ByCount(xs)(r[j]);
    }
  }

  lemma RankedDominates(xs: seq<string>)
    ensures var r := Ranked(xs);
      forall i, x :: 0 <= i < |r| && x !in r[..i] ==> Occurrences(xs, r[i]) >= Occurrences(xs, x)
  {
    var r := Ranked(xs);
    RankedMembers(xs);
    RankedNonIncreasing(xs);
    forall i, x | 0 <= i < |r| && x !in r[..i]
      ensures Occurrences(xs, r[i]) >= Occurrences(xs, x)
    {
      if x in xs {
        var j :| 0 <= j < |r| && r[j] == x;
        assert j >= i;
      }
    }
  }

  /**
   * The head of the ranking occurs most often; the runner-up is another
   * element, exists exactly when one does, and occurs most often among the
   * rest.
   */
  lemma RankedTopTwo(xs: seq<string>)
    ensures var r := Ranked(xs);
      && (|r| > 0 <==> |xs| > 0)
      && (|r| > 0 ==> r[0] in xs && forall s :: Occurrences(xs, r[0]) >= Occurrences(xs, s))
      && (|r| > 0 ==> (|r| > 1 <==> exists i :: 0 <= i < |xs| && xs[i] != r[0]))
      && (|r| > 1 ==> r[1] in xs && r[1] != r[0] &&
                      forall s :: s != r[0] ==> Occurrences(xs, r[1]) >= Occurrences(xs, s))
  {
    var r := Ranked(xs);
    RankedMembers(xs);
    RankedDistinct(xs);
    RankedDominates(xs);
    if |xs| > 0 {
      assert xs[0] in r;
    }
    if |r| > 0 {
      forall s
        ensures Occurrences(xs, r[0]) >= Occurrences(xs, s)
      {
        assert s !in r[..0];
      }
      if i :| 0 <= i < |xs| && xs[i] != r[0] {
        assert xs[i] in r;
      }
    }
    if |r| > 1 {
      forall s | s != r[0]
        ensures Occurrences(xs, r[1]) >= Occurrences(xs, s)
      {
        assert s !in r[..1];
      }
      assert r[1] in xs;
    }
  }

  /** A sort reads its key only at the elements it sorts. */
  lemma {:induction false} SortByCongruent(s: seq<string>, k1: string -> int, k2: string -> int)
    requires forall x :: x in s ==> k1(x) == k2(x)
    ensures SortBy(s, k1) == SortBy(s, k2)
    decreases |s|
  {
    if s != [] {
      var init := s[..|s| - 1];
      assert s == init + [s[|s| - 1]];
      SortByCongruent(init, k1, k2);
      var sorted := SortBy(init, k1);
      assert forall x :: x in sorted ==> x in multiset(init);
      InsertCongruent(s[|s| - 1], sorted, k1, k2);
    }
  }

  lemma {:induction false} InsertCongruent(x: string, s: seq<string>, k1: string -> int, k2: string -> int)
    requires k1(x) == k2(x)
    requires forall y :: y in s ==> k1(y) == k2(y)
    ensures Insert(x, s, k1) == Insert(x, s, k2)
    decreases |s|
  {
    if s != [] {
      assert s[|s| - 1] in s;
      InsertCongruent(x, s[..|s| - 1], k1, k2);
    }
  }

  /**
   * The ranking as the source computes it, with the comparator reading the
   * counting object, is `Ranked`.
   */
  method RankKeys(xs: seq<string>) returns (sorted: seq<string>)
    ensures sorted == Ranked(xs)
  {
    var counts, keys := CountKeys(xs);
    var byCount := (k: string) => if k in counts then -(counts[k] as int) else 0;
    sorted := SortBy(keys, byCount);
    SortByCongruent(keys, byCount, ByCount(xs));
  }
}
