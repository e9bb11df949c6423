/**
 * Chat cleaning (`processChat`, src/ChatUploader.js lines 103-123): drop
 * incomplete messages, keep the two most prolific senders, sort by time and
 * key the chat by its participants and size.
 */
module Uploader {
  import opened Wrappers
  import opened Sorting
  import opened Tally
  import opened Chats

  /** `m.datetime && m.sender && m.message`: a date is always truthy, an empty string is not. */
  predicate IsComplete(e: Entry) {
    e.datetime.Some? && e.sender != "" && e.message != ""
  }

  function ToMessage(e: Entry): Message
    requires e.datetime.Some?
  {
    Message(e.datetime.value, e.sender, e.message)
  }

  /** The entry a message was read from. */
  function EntryOf(m: Message): (e: Entry)
    ensures e.datetime.Some? && ToMessage(e) == m
  {
    Entry(Some(m.datetime), m.sender, m.text)
  }

  /** The complete entries, in input order. */
  function Completed(entries: seq<Entry>): (ms: seq<Message>)
    ensures |ms| <= |entries|
    ensures forall m :: m in ms ==> m.sender != "" && m.text != "" && Entry(Some(m.datetime), m.sender, m.text) in entries
    ensures forall e :: e in entries && IsComplete(e) ==> ToMessage(e) in ms
    ensures forall m :: multiset(ms)[m] == if IsComplete(EntryOf(m)) then multiset(entries)[EntryOf(m)] else 0
    decreases |entries|
  {
    if entries == [] then []
    else
      var init := entries[..|entries| - 1];
      var last := entries[|entries| - 1];
      assert entries == init + [last];
      Completed(init) + (if IsComplete(last) then [ToMessage(last)] else [])
  }

  /** The sender of every message, in order. */
  function SenderNames(ms: seq<Message>): (names: seq<string>)
    ensures |names| == |ms| && forall i :: 0 <= i < |ms| ==> names[i] == ms[i].sender
  {
    seq(|ms|, i requires 0 <= i < |ms| => ms[i].sender)
  }

  /** Element `i` of `xs`, or `undefined` past its end. */
  function Nth(xs: seq<string>, i: nat): (r: Option<string>)
    ensures r.Some? <==> i < |xs|
    ensures r.Some? ==> r.value == xs[i]
  {
    if i < |xs| then Some(xs[i]) else None
  }

  /** `m.sender === senderA || m.sender === senderB`. */
  predicate SentByEither(m: Message, a: Option<string>, b: Option<string>) {
    Some(m.sender) == a || Some(m.sender) == b
  }

  /** The messages sent by `a` or `b`, in order. */
  function FromEither(ms: seq<Message>, a: Option<string>, b: Option<string>): (r: seq<Message>)
    ensures forall m :: multiset(r)[m] == if SentByEither(m, a, b) then multiset(ms)[m] else 0
    decreases |ms|
  {
    if ms == [] then []
    else
      var init := ms[..|ms| - 1];
      var last := ms[|ms| - 1];
      assert ms == init + [last];
      FromEither(init, a, b) + (if SentByEither(last, a, b) then [last] else [])
  }

  /** The sort key of `(a, b) => +a.datetime - +b.datetime`. */
  function ByTime(): Message -> int {
    (m: Message) => m.datetime
  }

  // ---------------------------------------------------------------------
  // Decimal rendering of the message count in the key
  // ---------------------------------------------------------------------

  predicate IsDigits(s: string) {
    forall i :: 0 <= i < |s| ==> '0' <= s[i] <= '9'
  }

  /** `n` in decimal, as `'' + n` renders a non-negative integer. */
  function NatToString(n: nat): (s: string)
    ensures |s| >= 1 && IsDigits(s)
  {
    var d := ['0' + (n % 10) as char];
    if n < 10 then d else NatToString(n / 10) + d
  }

  /** The value of a string of decimal digits. */
  function DecimalValue(s: string): nat
    requires IsDigits(s)
    decreases |s|
  {
    if s == [] then 0
    else DecimalValue(s[..|s| - 1]) * 10 + (s[|s| - 1] - '0') as nat
  }

  /** Reading the rendering back gives the number. */
  lemma {:induction false} DecimalRoundTrip(n: nat)
    ensures DecimalValue(NatToString(n)) == n
  {
    var s := NatToString(n);
    if n >= 10 {
      DecimalRoundTrip(n / 10);
      assert s[..|s| - 1] == NatToString(n / 10);
    }
  }

  /** The text after the last `-` of `s` (all of `s` when there is none). */
  function LastField(s: string): (r: string)
    ensures |r| <= |s|
    decreases |s|
  {
    if s == [] || s[|s| - 1] == '-' then []
    else LastField(s[..|s| - 1]) + [s[|s| - 1]]
  }

  lemma {:induction false} LastFieldAfterDash(prefix: string, digits: string)
    requires IsDigits(digits)
    ensures LastField(prefix + "-" + digits) == digits
    decreases |digits|
  {
    var s := prefix + "-" + digits;
    if digits == [] {
      assert s[|s| - 1] == '-';
    } else {
      var init := digits[..|digits| - 1];
      assert s[..|s| - 1] == prefix + "-" + init;
      LastFieldAfterDash(prefix, init);
    }
  }

  // ---------------------------------------------------------------------
  // processChat
  // ---------------------------------------------------------------------

  /** `senderA + '-' + senderB + '-' + messages.length`. */
  function ChatKey(a: Option<string>, b: Option<string>, count: nat): string {
    Label(a) + "-" + Label(b) + "-" + NatToString(count)
  }

  /** The chat `processChat(entries, provider)` returns. */
  function Processed(entries: seq<Entry>, provider: string): Chat {
    var ms := Completed(entries);
    var ranked := Ranked(SenderNames(ms));
    var a := Nth(ranked, 0);
    var b := Nth(ranked, 1);
    var kept := SortBy(FromEither(ms, a, b), ByTime());
    Chat(provider, Participants(a, b), ChatKey(a, b, |kept|), kept)
  }

  /**
   * src/ChatUploader.js `processChat`: the filter, the counting `forEach`,
   * the ranking of its keys, the sender filter and the time sort.
   */
  method ProcessChat(entries: seq<Entry>, provider: string) returns (chat: Chat)
    ensures chat == Processed(entries, provider)
  {
    var messages := Completed(entries);
    var ranked := RankKeys(SenderNames(messages));
    var senderA := Nth(ranked, 0);
    var senderB := Nth(ranked, 1);
    messages := FromEither(messages, senderA, senderB);
    messages := SortBy(messages, ByTime());
    chat := Chat(provider, Participants(senderA, senderB), ChatKey(senderA, senderB, |messages|), messages);
  }

  /**
   * The participants are the two most prolific senders among the complete
   * messages: the first sent at least as many as anyone, the second at least
   * as many as anyone but the first, and they differ. A participant is
   * `undefined` only when there are not enough senders.
   */
  lemma ProcessedParticipants(entries: seq<Entry>, provider: string)
    ensures var c := Processed(entries, provider);
      var ms := Completed(entries);
      var names := SenderNames(ms);
      var a := c.participants.first;
      var b := c.participants.second;
      && (a.Some? <==> |ms| > 0)
      && (a.Some? ==> a.value in names && forall s :: Occurrences(names, a.value) >= Occurrences(names, s))
      && (b.Some? <==> exists m :: m in ms && Some(m.sender) != a)
      && (b.Some? ==> b.value in names && a.Some? && a.value != b.value &&
                      forall s :: s != a.value ==> Occurrences(names, b.value) >= Occurrences(names, s))
  {
    var ms := Completed(entries);
    assert Processed(entries, provider).participants ==
      Participants(Nth(Ranked(SenderNames(ms)), 0), Nth(Ranked(SenderNames(ms)), 1));
    TopSenders(ms);
  }

  /** The two most prolific senders of any list of messages. */
  lemma TopSenders(ms: seq<Message>)
    ensures var names := SenderNames(ms);
      var a := Nth(Ranked(names), 0);
      var b := Nth(Ranked(names), 1);
      && (a.Some? <==> |ms| > 0)
      && (a.Some? ==> a.value in names && forall s :: Occurrences(names, a.value) >= Occurrences(names, s))
      && (b.Some? <==> exists m :: m in ms && Some(m.sender) != a)
      && (b.Some? ==> b.value in names && a.Some? && a.value != b.value &&
                      forall s :: s != a.value ==> Occurrences(names, b.value) >= Occurrences(names, s))
  {
    var names := SenderNames(ms);
    var ranked := Ranked(names);
    var a := Nth(ranked, 0);
    RankedTopTwo(names);
    if |ranked| > 1 {
      var k :| 0 <= k < |names| && names[k] != ranked[0];
      assert ms[k] in ms && Some(ms[k].sender) != a;
    }
    if m :| m in ms && Some(m.sender) != a {
      var k :| 0 <= k < |ms| && ms[k] == m;
      assert names[k] == m.sender;
    }
  }

  /**
   * The messages of the cleaned chat are exactly the complete messages of
   * the two participants, each as often as in the input, sorted by time,
   * with messages of equal time in input order; the provider passes through.
   */
  lemma ProcessedMessages(entries: seq<Entry>, provider: string)
    ensures var c := Processed(entries, provider);
      var ms := Completed(entries);
      var a := c.participants.first;
      var b := c.participants.second;
      && c.provider == provider
      && (forall m :: m in c.messages ==> SentByEither(m, a, b))
      && (forall m :: multiset(c.messages)[m] == if SentByEither(m, a, b) then multiset(ms)[m] else 0)
      && SortedByTime(c.messages)
      && (forall t :: WithKey(c.messages, ByTime(), t) == WithKey(FromEither(ms, a, b), ByTime(), t))
  {
    var c := Processed(entries, provider);
    var ms := Completed(entries);
    var kept := FromEither(ms, c.participants.first, c.participants.second);
    SortBySorted(kept, ByTime());
    forall t {
      SortByStable(kept, ByTime(), t);
    }
    forall m | m in c.messages
      ensures SentByEither(m, c.participants.first, c.participants.second)
    {
      assert m in multiset(c.messages);
    }
    forall i, j | 0 <= i < j < |c.messages|
      ensures c.messages[i].datetime <= c.messages[j].datetime
    {
      assert ByTime()(c.messages[i]) <= ByTime()(c.messages[j]);
    }
  }

  /** The key ends in the number of messages kept, read back from its last field. */
  lemma ProcessedKeyCount(entries: seq<Entry>, provider: string)
    ensures var c := Processed(entries, provider);
      IsDigits(LastField(c.key)) && DecimalValue(LastField(c.key)) == |c.messages|
  {
    var c := Processed(entries, provider);
    var n := |c.messages|;
    LastFieldAfterDash(Label(c.participants.first) + "-" + Label(c.participants.second), NatToString(n));
    DecimalRoundTrip(n);
  }
}
