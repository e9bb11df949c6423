/**
 * The app state of src/useModel.js: the page, the uploaded chats, the
 * selected chat, the settings and the redraw nonces, and the transitions the
 * hook exposes. `Date.now()` is the parameter `now`.
 */
module AppModel {
  import opened Wrappers
  import opened Chats
  import opened ChatList

  /** `defaultPage`. */
  const DefaultPage: string := "tutorial"

  /** `defaultSettings`. */
  const DefaultSettings: Settings := Settings(false, 0.08, 0.95, 1.83, -0.28, 0.2, None, false)

  /** The redraw nonces: a plot redraws the lines or everything when its nonce changes. */
  datatype Nonce = Nonce(linesFast: int, linesSlow: int, full: int)

  /** `defaultNonce`. */
  const DefaultNonce: Nonce := Nonce(0, 0, 1)

  /** The `redrawMode` argument of `updateSettings`; it names the nonce to bump. */
  datatype RedrawMode = LinesFast | LinesSlow | Full

  /** `{...redrawNonce, [mode]: now}`. */
  function Bump(n: Nonce, mode: RedrawMode, now: int): Nonce {
    match mode
    case LinesFast => n.(linesFast := now)
    case LinesSlow => n.(linesSlow := now)
    case Full => n.(full := now)
  }

  /** The nonce a mode names. */
  function NonceOf(n: Nonce, mode: RedrawMode): int {
    match mode
    case LinesFast => n.linesFast
    case LinesSlow => n.linesSlow
    case Full => n.full
  }

  /** Bumping sets the named nonce and no other. */
  lemma BumpOnlyNamed(n: Nonce, mode: RedrawMode, now: int)
    ensures NonceOf(Bump(n, mode, now), mode) == now
    ensures forall other :: other != mode ==> NonceOf(Bump(n, mode, now), other) == NonceOf(n, other)
  {
  }

  /** A partial settings object: a key is present where the field is `Some`. */
  datatype SettingsUpdate = SettingsUpdate(
    flipped: Option<bool>,
    closenessDamping: Option<real>,
    scaling: Option<real>,
    logScaling: Option<real>,
    bandwidthBias: Option<real>,
    bandwidthVariance: Option<real>,
    selectedRange: Option<Option<(real, real)>>,
    contour: Option<bool>)

  /** `{...settings, ...update}`. */
  function Apply(s: Settings, u: SettingsUpdate): Settings {
    Settings(
      u.flipped.GetOr(s.flipped),
      u.closenessDamping.GetOr(s.closenessDamping),
      u.scaling.GetOr(s.scaling),
      u.logScaling.GetOr(s.logScaling),
      u.bandwidthBias.GetOr(s.bandwidthBias),
      u.bandwidthVariance.GetOr(s.bandwidthVariance),
      u.selectedRange.GetOr(s.selectedRange),
      u.contour.GetOr(s.contour))
  }

  /** `{...u1, ...u2}`: the later update wins on a key both carry. */
  function Merge(u1: SettingsUpdate, u2: SettingsUpdate): SettingsUpdate {
    SettingsUpdate(
      if u2.flipped.Some? then u2.flipped else u1.flipped,
      if u2.closenessDamping.Some? then u2.closenessDamping else u1.closenessDamping,
      if u2.scaling.Some? then u2.scaling else u1.scaling,
      if u2.logScaling.Some? then u2.logScaling else u1.logScaling,
      if u2.bandwidthBias.Some? then u2.bandwidthBias else u1.bandwidthBias,
      if u2.bandwidthVariance.Some? then u2.bandwidthVariance else u1.bandwidthVariance,
      if u2.selectedRange.Some? then u2.selectedRange else u1.selectedRange,
      if u2.contour.Some? then u2.contour else u1.contour)
  }

  /** An update overwrites exactly its keys: a present key wins, an absent one keeps the old value. */
  lemma ApplyOverwrites(s: Settings, u: SettingsUpdate)
    ensures var r := Apply(s, u);
      && (u.flipped.Some? ==> r.flipped == u.flipped.value) && (u.flipped.None? ==> r.flipped == s.flipped)
      && (u.selectedRange.Some? ==> r.selectedRange == u.selectedRange.value)
      && (u.selectedRange.None? ==> r.selectedRange == s.selectedRange)
      && (u.bandwidthBias.Some? ==> r.bandwidthBias == u.bandwidthBias.value)
      && (u.bandwidthBias.None? ==> r.bandwidthBias == s.bandwidthBias)
      && (u.closenessDamping.Some? ==> r.closenessDamping == u.closenessDamping.value)
      && (u.closenessDamping.None? ==> r.closenessDamping == s.closenessDamping)
      && (u.scaling.Some? ==> r.scaling == u.scaling.value) && (u.scaling.None? ==> r.scaling == s.scaling)
      && (u.logScaling.Some? ==> r.logScaling == u.logScaling.value)
      && (u.logScaling.None? ==> r.logScaling == s.logScaling)
      && (u.bandwidthVariance.Some? ==> r.bandwidthVariance == u.bandwidthVariance.value)
      && (u.bandwidthVariance.None? ==> r.bandwidthVariance == s.bandwidthVariance)
      && (u.contour.Some? ==> r.contour == u.contour.value) && (u.contour.None? ==> r.contour == s.contour)
  {
  }

  /** Two updates in a row are the one merged update, and repeating an update changes nothing more. */
  lemma ApplyMerges(s: Settings, u1: SettingsUpdate, u2: SettingsUpdate)
    ensures Apply(Apply(s, u1), u2) == Apply(s, Merge(u1, u2))
    ensures Apply(Apply(s, u1), u1) == Apply(s, u1)
  {
  }

  /** The key `unique` deduplicates chats by. */
  function KeyOf(): Chat -> string {
    (c: Chat) => c.key
  }

  /** Adding exactly the stored chats again to a list with distinct keys leaves it as it was. */
  lemma RepeatAdded(stored: seq<Chat>, newChats: seq<Chat>)
    requires DistinctKeys(stored, KeyOf())
    ensures newChats == stored ==> Deduplicated(stored + newChats, KeyOf()) == stored
  {
    if newChats == stored {
      DeduplicatedOfRepeat(stored, KeyOf());
    }
  }

  /** The state behind the `useModel` hook. */
  class Model {
    var page: string
    var chats: seq<Chat>
    var selectedChat: Option<Chat>
    var settings: Settings
    var redrawNonce: Nonce

    /** No two stored chats share a key: every transition keeps this. */
    ghost predicate Valid()
      reads this
    {
      DistinctKeys(chats, KeyOf())
    }

    /** The initial state of the hook's `useState` calls. */
    constructor()
      ensures Valid()
      ensures page == DefaultPage && chats == [] && selectedChat == None
      ensures settings == DefaultSettings && redrawNonce == DefaultNonce
    {
      page := DefaultPage;
      chats := [];
      selectedChat := None;
      settings := DefaultSettings;
      redrawNonce := DefaultNonce;
    }

    /**
     * The exposed `chats`: the stored list tidied, so every listed chat has
     * at least ten messages, the list runs by non-increasing volume, and
     * every listed chat is a stored one with at most its participants swapped.
     */
    function Chats(): (cs: seq<Chat>)
      reads this
      ensures forall c :: c in cs ==> |c.messages| >= 10 && exists d :: d in chats && UpToSwap(c, d)
      ensures forall i, j :: 0 <= i < j < |cs| ==> |cs[i].messages| >= |cs[j].messages|
    {
      TidyVolume(chats);
      Tidy(chats)
    }

    /** `navigate(page)`. */
    method Navigate(p: string)
      requires Valid()
      modifies this
      ensures Valid()
      ensures page == p
      ensures chats == old(chats) && selectedChat == old(selectedChat)
      ensures settings == old(settings) && redrawNonce == old(redrawNonce)
    {
      page := p;
    }

    /**
     * `addChats(newChats)`: merge the new chats into the stored ones by key,
     * the later chat winning, clear the range and the flip, select the new
     * chat when exactly one came, redraw fully and show the chat page.
     */
    method AddChats(newChats: seq<Chat>, now: int)
      requires Valid()
      modifies this
      ensures chats == Deduplicated(old(chats) + newChats, KeyOf())
      ensures Valid()
      ensures newChats == old(chats) ==> chats == old(chats)
      ensures settings == old(settings).(selectedRange := None, flipped := false)
      ensures selectedChat == if |newChats| == 1 then Some(newChats[0]) else None
      ensures redrawNonce == Bump(old(redrawNonce), Full, now)
      ensures page == "chat"
    {
      RepeatAdded(chats, newChats);
      chats := Unique(chats + newChats, KeyOf());
      DeduplicatedLastWins(old(chats) + newChats, KeyOf());
      settings := settings.(selectedRange := None, flipped := false);
      selectedChat := if |newChats| == 1 then Some(newChats[0]) else None;
      redrawNonce := redrawNonce.(full := now);
      page := "chat";
    }

    /** `selectChat(chat)`: select it, clear only the range, redraw fully. */
    method SelectChat(chat: Option<Chat>, now: int)
      requires Valid()
      modifies this
      ensures Valid()
      ensures selectedChat == chat
      ensures settings == old(settings).(selectedRange := None)
      ensures redrawNonce == Bump(old(redrawNonce), Full, now)
      ensures page == old(page) && chats == old(chats)
    {
      settings := settings.(selectedRange := None);
      redrawNonce := redrawNonce.(full := now);
      selectedChat := chat;
    }

    /** `updateSettings(update, redrawMode)`: overwrite the given keys, bump the named nonce. */
    method UpdateSettings(update: SettingsUpdate, mode: RedrawMode, now: int)
      requires Valid()
      modifies this
      ensures Valid()
      ensures settings == Apply(old(settings), update)
      ensures redrawNonce == Bump(old(redrawNonce), mode, now)
      ensures page == old(page) && chats == old(chats) && selectedChat == old(selectedChat)
    {
      settings := Apply(settings, update);
      redrawNonce := Bump(redrawNonce, mode, now);
    }
  }
}
