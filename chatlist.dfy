/**
 * The chat-list bookkeeping of src/useModel.js: `unique` (lines 35-41), the
 * de-duplication by key where the last chat wins, and `tidyChats` (lines
 * 43-73), which promotes the most frequent participant to the first slot,
 * sorts by volume and drops short chats.
 */
module ChatList {
  import opened Wrappers
  import opened Sorting
  import opened Tally
  import opened Chats

  // ---------------------------------------------------------------------
  // unique
  // ---------------------------------------------------------------------

  /** `xs.map(getKey)`. */
  function KeysOf<T>(xs: seq<T>, key: T -> string): (ks: seq<string>)
    ensures |ks| == |xs| && forall i :: 0 <= i < |xs| ==> ks[i] == key(xs[i])
  {
    seq(|xs|, i requires 0 <= i < |xs| => key(xs[i]))
  }

  /** The position of the last occurrence of `k` in `ks`. */
  function LastIndex(ks: seq<string>, k: string): (i: nat)
    requires k in ks
    ensures i < |ks| && ks[i] == k
    ensures forall j :: i < j < |ks| ==> ks[j] != k
    decreases |ks|
  {
    var n := |ks| - 1;
    if ks[n] == k then n
    else
      assert ks == ks[..n] + [ks[n]];
      LastIndex(ks[..n], k)
  }

  /** Appending `x` makes it the last occurrence of itself and moves no other. */
  lemma LastIndexSnoc(ks: seq<string>, x: string)
    ensures LastIndex(ks + [x], x) == |ks|
    ensures forall k :: k in ks && k != x ==> LastIndex(ks + [x], k) == LastIndex(ks, k)
  {
    var ks' := ks + [x];
    assert ks'[..|ks|] == ks;
  }

  /**
   * What `unique(xs, getKey)` returns: one element per distinct key, in the
   * order the keys were first met (the order `Object.values` lists them),
   * each the last element with that key.
   */
  function Deduplicated<T>(xs: seq<T>, key: T -> string): (ys: seq<T>)
    ensures |ys| == |FirstAppearance(KeysOf(xs, key))|
  {
    var ks := KeysOf(xs, key);
    var order := FirstAppearance(ks);
    seq(|order|, j requires 0 <= j < |order| => xs[LastIndex(ks, order[j])])
  }

  /**
   * src/useModel.js `unique`: `hashmap[getKey(v)] = v` for every `v`, then
   * the object's values.
   */
  method Unique<T>(xs: seq<T>, key: T -> string) returns (ys: seq<T>)
    ensures ys == Deduplicated(xs, key)
  {
    var hashmap, order := Index(xs, key);
    ys := seq(|order|, j requires 0 <= j < |order| => hashmap[order[j]]);
  }

  /**
   * The `forEach` of `unique`: the object maps each key to the last element
   * with that key, and lists its keys in the order they were first met.
   */
  method Index<T>(xs: seq<T>, key: T -> string) returns (hashmap: map<string, T>, order: seq<string>)
    ensures Indexed(hashmap, order, KeysOf(xs, key), xs)
  {
    ghost var seen: seq<string> := [];
    hashmap, order := map[], [];
    for i := 0 to |xs|
      invariant seen == KeysOf(xs[..i], key)
      invariant Indexed(hashmap, order, seen, xs[..i])
    {
      var k := key(xs[i]);
      IndexedStep(hashmap, order, seen, xs[..i], k, xs[i]);
      if k !in hashmap {
        order := order + [k];
      }
      hashmap := hashmap[k := xs[i]];
      seen := seen + [k];
      KeysOfPrefix(xs, key, i);
    }
    assert xs[..|xs|] == xs;
  }

  /** The keys of one more element are the keys so far and its key. */
  lemma KeysOfPrefix<T>(xs: seq<T>, key: T -> string, i: nat)
    requires i < |xs|
    ensures xs[..i + 1] == xs[..i] + [xs[i]]
    ensures KeysOf(xs[..i + 1], key) == KeysOf(xs[..i], key) + [key(xs[i])]
  {
  }

  /**
   * The object after the keys `seen` and the values `vals` went in: its key
   * order, its keys, and for each key the last value stored under it.
   */
  ghost predicate Indexed<T>(hashmap: map<string, T>, order: seq<string>, seen: seq<string>, vals: seq<T>) {
    && |seen| == |vals|
    && order == FirstAppearance(seen)
    && (forall k :: k in hashmap <==> k in seen)
    && (forall k :: k in hashmap ==> hashmap[k] == vals[LastIndex(seen, k)])
  }

  /** One `hashmap[k] = v` step of the `forEach`. */
  lemma IndexedStep<T>(hashmap: map<string, T>, order: seq<string>, seen: seq<string>, vals: seq<T>, k: string, v: T)
    requires Indexed(hashmap, order, seen, vals)
    ensures Indexed(hashmap[k := v], if k in hashmap then order else order + [k], seen + [k], vals + [v])
  {
    LastIndexSnoc(seen, k);
    FirstAppearanceSnoc(seen, k);
  }

  /** No two elements of `xs` share a key. */
  predicate DistinctKeys<T>(xs: seq<T>, key: T -> string) {
    forall i, j :: 0 <= i < j < |xs| ==> key(xs[i]) != key(xs[j])
  }

  /**
   * `unique` keeps exactly one element per key of its input: the keys of the
   * result are distinct and are the input's keys, and the element kept for a
   * key is one with no later element of the same key.
   */
  lemma DeduplicatedLastWins<T>(xs: seq<T>, key: T -> string)
    ensures var ys := Deduplicated(xs, key);
      && DistinctKeys(ys, key)
      && (forall k :: k in KeysOf(ys, key) <==> k in KeysOf(xs, key))
      && (forall j :: 0 <= j < |ys| ==>
            exists i :: 0 <= i < |xs| && ys[j] == xs[i] && forall i' :: i < i' < |xs| ==> key(xs[i']) != key(ys[j]))
  {
    var ks := KeysOf(xs, key);
    var order := FirstAppearance(ks);
    var ys := Deduplicated(xs, key);
    assert KeysOf(ys, key) == order;
    forall i, j | 0 <= i < j < |ys|
      ensures key(ys[i]) != key(ys[j])
    {
      if order[i] == order[j] {
        RepeatCountsTwice(order, i, j);
        FirstAppearanceOnce(ks, order[i]);
        assert false;
      }
    }
    forall j | 0 <= j < |ys|
      ensures exists i :: 0 <= i < |xs| && ys[j] == xs[i] && forall i' :: i < i' < |xs| ==> key(xs[i']) != key(ys[j])
    {
      var i := LastIndex(ks, order[j]);
      assert ys[j] == xs[i];
    }
  }

  /** On a list whose keys are already distinct, `unique` changes nothing. */
  lemma DeduplicatedOfDistinct<T>(xs: seq<T>, key: T -> string)
    requires DistinctKeys(xs, key)
    ensures Deduplicated(xs, key) == xs
  {
    var ks := KeysOf(xs, key);
    FirstAppearanceOfDistinct(ks);
    var ys := Deduplicated(xs, key);
    forall j | 0 <= j < |xs|
      ensures ys[j] == xs[j]
    {
      assert LastIndex(ks, ks[j]) == j;
    }
  }

  /** `unique` is idempotent. */
  lemma DeduplicatedIdempotent<T>(xs: seq<T>, key: T -> string)
    ensures Deduplicated(Deduplicated(xs, key), key) == Deduplicated(xs, key)
  {
    DeduplicatedLastWins(xs, key);
    DeduplicatedOfDistinct(Deduplicated(xs, key), key);
  }

  /**
   * Adding a list with distinct keys to itself (the same chats uploaded
   * twice) gives back that list.
   */
  lemma DeduplicatedOfRepeat<T>(stored: seq<T>, key: T -> string)
    requires DistinctKeys(stored, key)
    ensures Deduplicated(stored + stored, key) == stored
  {
    var xs := stored + stored;
    var ks := KeysOf(xs, key);
    var n := |stored|;
    var sk := KeysOf(stored, key);
    assert ks == sk + sk;
    assert FirstAppearance(ks) == sk by {
      FirstAppearanceOfDistinct(sk);
      FirstAppearanceOfRepeat(sk);
    }
    forall j | 0 <= j < n
      ensures Deduplicated(xs, key)[j] == stored[j]
    {
      LastIndexOfRepeat(sk, j);
      assert Deduplicated(xs, key)[j] == xs[LastIndex(ks, sk[j])];
    }
  }

  /** In a repeat-free list written twice, the last occurrence of a key is in the second copy. */
  lemma LastIndexOfRepeat(sk: seq<string>, j: nat)
    requires forall a, b :: 0 <= a < b < |sk| ==> sk[a] != sk[b]
    requires j < |sk|
    ensures sk[j] in sk + sk && LastIndex(sk + sk, sk[j]) == |sk| + j
  {
    var ks := sk + sk;
    var n := |sk|;
    assert ks[n + j] == sk[j];
    var i := LastIndex(ks, sk[j]);
    assert i >= n + j;
    assert ks[i] == sk[i - n];
  }

  // ---------------------------------------------------------------------
  // tidyChats
  // ---------------------------------------------------------------------

  /**
   * The keys the `pHashmap` loop counts: both participants' names of every
   * chat, first then second, as strings (a missing name as `undefined`).
   */
  function ParticipantLabels(chats: seq<Chat>): (labels: seq<string>)
    ensures |labels| == 2 * |chats|
    ensures forall i :: 0 <= i < |chats| ==>
      labels[2 * i] == Label(chats[i].participants.first) && labels[2 * i + 1] == Label(chats[i].participants.second)
    decreases |chats|
  {
    if chats == [] then []
    else
      var n := |chats| - 1;
      var c := chats[n];
      ParticipantLabels(chats[..n]) + [Label(c.participants.first), Label(c.participants.second)]
  }

  /**
   * `pSorted.indexOf(name)`: the first position of the name, or -1. The keys
   * are strings, so `undefined` is never found.
   */
  function IndexOf(ranked: seq<string>, name: Option<string>): (r: int)
    ensures name.None? || name.value !in ranked ==> r == -1
    ensures name.Some? && name.value in ranked ==> 0 <= r < |ranked| && ranked[r] == name.value
    ensures 0 <= r ==> forall k :: 0 <= k < r ==> ranked[k] != name.value
    decreases |ranked|
  {
    if name.None? || ranked == [] then -1
    else if ranked[0] == name.value then 0
    else
      var r := IndexOf(ranked[1..], name);
      if r < 0 then -1 else r + 1
  }

  function Swapped(p: Participants): Participants {
    Participants(p.second, p.first)
  }

  /**
   * The `chats.map` step: swap the participants when the first one ranks
   * after the second. Nothing but the order of the two participants changes.
   */
  function Promote(ranked: seq<string>, c: Chat): (d: Chat)
    ensures d.provider == c.provider && d.key == c.key && d.messages == c.messages
    ensures d.participants == c.participants || d.participants == Swapped(c.participants)
    ensures IndexOf(ranked, d.participants.first) <= IndexOf(ranked, d.participants.second)
  {
    if IndexOf(ranked, c.participants.first) > IndexOf(ranked, c.participants.second)
    then c.(participants := Swapped(c.participants))
    else c
  }

  function PromoteAll(ranked: seq<string>, chats: seq<Chat>): (r: seq<Chat>)
    ensures |r| == |chats| && forall i :: 0 <= i < |chats| ==> r[i] == Promote(ranked, chats[i])
  {
    seq(|chats|, i requires 0 <= i < |chats| => Promote(ranked, chats[i]))
  }

  /** The sort key of `(a, b) => b.messages.length - a.messages.length`. */
  function ByVolume(): Chat -> int {
    (c: Chat) => -|c.messages|
  }

  /** `chats.filter((c) => c.messages.length >= 10)`. */
  function Voluminous(chats: seq<Chat>): (r: seq<Chat>)
    ensures forall c :: multiset(r)[c] == if |c.messages| >= 10 then multiset(chats)[c] else 0
    decreases |chats|
  {
    if chats == [] then []
    else
      var init := chats[..|chats| - 1];
      var last := chats[|chats| - 1];
      assert chats == init + [last];
      Voluminous(init) + (if |last.messages| >= 10 then [last] else [])
  }

  /** Filtering a sorted list keeps it sorted. */
  lemma {:induction false} VoluminousSorted(chats: seq<Chat>)
    requires SortedBy(chats, ByVolume())
    ensures SortedBy(Voluminous(chats), ByVolume())
    decreases |chats|
  {
    if chats != [] {
      var init := chats[..|chats| - 1];
      var last := chats[|chats| - 1];
      SortedInit(chats, init, ByVolume());
      VoluminousSorted(init);
      var r := Voluminous(init);
      if |last.messages| >= 10 {
        assert Voluminous(chats) == r + [last];
        VoluminousBelow(init, ByVolume()(last));
        SortedSnoc(r, last, ByVolume());
      } else {
        assert Voluminous(chats) == r;
      }
    }
  }

  /** A bound on the volume key of every chat bounds it on every kept chat. */
  lemma {:induction false} VoluminousBelow(chats: seq<Chat>, bound: int)
    requires forall q :: 0 <= q < |chats| ==> ByVolume()(chats[q]) <= bound
    ensures forall p :: 0 <= p < |Voluminous(chats)| ==> ByVolume()(Voluminous(chats)[p]) <= bound
    decreases |chats|
  {
    if chats != [] {
      var init := chats[..|chats| - 1];
      assert forall q :: 0 <= q < |init| ==> init[q] == chats[q];
      VoluminousBelow(init, bound);
    }
  }

  /** `d` is `c` with at most its two participants swapped. */
  predicate UpToSwap(c: Chat, d: Chat) {
    && c.provider == d.provider && c.key == d.key && c.messages == d.messages
    && (c.participants == d.participants || c.participants == Swapped(d.participants))
  }

  /** What `tidyChats(chats)` returns. */
  function Tidy(chats: seq<Chat>): seq<Chat> {
    var ranked := Ranked(ParticipantLabels(chats));
    Voluminous(SortBy(PromoteAll(ranked, chats), ByVolume()))
  }

  /**
   * src/useModel.js `tidyChats`: count participant appearances, rank them,
   * promote, sort by volume, filter.
   */
  method TidyChats(chats: seq<Chat>) returns (tidied: seq<Chat>)
    ensures tidied == Tidy(chats)
  {
    var pSorted := RankKeys(ParticipantLabels(chats));
    var promoted := PromoteAll(pSorted, chats);
    tidied := Voluminous(SortBy(promoted, ByVolume()));
  }

  /**
   * The tidied list holds exactly the promoted chats with at least ten
   * messages, each as often as in the input, by non-increasing volume; each
   * is an input chat with at most its two participants swapped.
   */
  lemma TidyVolume(chats: seq<Chat>)
    ensures var t := Tidy(chats);
      var promoted := PromoteAll(Ranked(ParticipantLabels(chats)), chats);
      && (forall c :: multiset(t)[c] == if |c.messages| >= 10 then multiset(promoted)[c] else 0)
      && (forall c :: c in t ==> |c.messages| >= 10)
      && (forall i, j :: 0 <= i < j < |t| ==> |t[i].messages| >= |t[j].messages|)
      && (forall c :: c in t ==> exists d :: d in chats && UpToSwap(c, d))
  {
    TidyCounts(chats);
    TidyByVolume(chats);
    TidyFromInput(chats);
  }

  lemma TidyCounts(chats: seq<Chat>)
    ensures var promoted := PromoteAll(Ranked(ParticipantLabels(chats)), chats);
      && (forall c :: multiset(Tidy(chats))[c] == if |c.messages| >= 10 then multiset(promoted)[c] else 0)
      && (forall c :: c in Tidy(chats) ==> |c.messages| >= 10)
  {
    var promoted := PromoteAll(Ranked(ParticipantLabels(chats)), chats);
    var sorted := SortBy(promoted, ByVolume());
    SortBySorted(promoted, ByVolume());
    assert multiset(sorted) == multiset(promoted);
    forall c | c in Tidy(chats)
      ensures |c.messages| >= 10
    {
      assert c in multiset(Tidy(chats));
    }
  }

  lemma TidyFromInput(chats: seq<Chat>)
    ensures forall c :: c in Tidy(chats) ==> exists d :: d in chats && UpToSwap(c, d)
  {
    var promoted := PromoteAll(Ranked(ParticipantLabels(chats)), chats);
    TidyFromPromoted(chats);
    forall c | c in Tidy(chats)
      ensures exists d :: d in chats && UpToSwap(c, d)
    {
      var i :| 0 <= i < |promoted| && promoted[i] == c;
      assert chats[i] in chats;
    }
  }

  /** Every tidied chat is one of the promoted chats. */
  lemma TidyFromPromoted(chats: seq<Chat>)
    ensures forall c :: c in Tidy(chats) ==> c in PromoteAll(Ranked(ParticipantLabels(chats)), chats)
  {
    var promoted := PromoteAll(Ranked(ParticipantLabels(chats)), chats);
    var sorted := SortBy(promoted, ByVolume());
    SortBySorted(promoted, ByVolume());
    forall c | c in Tidy(chats)
      ensures c in promoted
    {
      assert c in sorted;
      assert c in multiset(sorted);
    }
  }

  lemma TidyByVolume(chats: seq<Chat>)
    ensures var t := Tidy(chats);
      forall i, j :: 0 <= i < j < |t| ==> |t[i].messages| >= |t[j].messages|
  {
    var promoted := PromoteAll(Ranked(ParticipantLabels(chats)), chats);
    var sorted := SortBy(promoted, ByVolume());
    var t := Tidy(chats);
    SortBySorted(promoted, ByVolume());
    VoluminousSorted(sorted);
    forall i, j | 0 <= i < j < |t|
      ensures |t[i].messages| >= |t[j].messages|
    {
      assert ByVolume()(t[i]) <= ByVolume()(t[j]);
    }
  }

  /**
   * A promoted chat whose participants were counted puts first a participant
   * who appears at least as often as the second, unless the first is `undefined`.
   */
  lemma PromotedInOrder(labels: seq<string>, d: Chat)
    requires Label(d.participants.first) in labels && Label(d.participants.second) in labels
    ensures var c := Promote(Ranked(labels), d);
      c.participants.first.Some? ==>
        c.participants.second.Some? &&
        Occurrences(labels, c.participants.first.value) >= Occurrences(labels, c.participants.second.value)
  {
    var ranked := Ranked(labels);
    var c := Promote(ranked, d);
    RankedByOccurrences(labels);
    if c.participants.first.Some? {
      assert c.participants.first.value in labels;
      var x := IndexOf(ranked, c.participants.first);
      var y := IndexOf(ranked, c.participants.second);
      assert 0 <= x <= y;
      if x < y {
        assert Occurrences(labels, ranked[x]) >= Occurrences(labels, ranked[y]);
      }
    }
  }

  /**
   * After tidying, the first participant of every chat appears in at least
   * as many participant slots of the input as the second one. The exception
   * is a chat whose first participant is `undefined`: `indexOf(undefined)`
   * is -1, so such a participant is always moved to the first slot.
   */
  lemma TidyPromotes(chats: seq<Chat>)
    ensures var labels := ParticipantLabels(chats);
      forall c :: c in Tidy(chats) ==>
        c.participants.first.None? ||
        (c.participants.second.Some? &&
         Occurrences(labels, c.participants.first.value) >= Occurrences(labels, c.participants.second.value))
  {
    var labels := ParticipantLabels(chats);
    var promoted := PromoteAll(Ranked(labels), chats);
    TidyFromPromoted(chats);
    forall c | c in Tidy(chats)
      ensures c.participants.first.None? ||
        (c.participants.second.Some? &&
         Occurrences(labels, c.participants.first.value) >= Occurrences(labels, c.participants.second.value))
    {
      var i :| 0 <= i < |promoted| && promoted[i] == c;
      assert labels[2 * i] in labels && labels[2 * i + 1] in labels;
      PromotedInOrder(labels, chats[i]);
    }
  }
}
