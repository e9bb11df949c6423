/**
 * The records the curve pipeline and the app state share: messages as a
 * parser yields them, cleaned chats, and the settings record
 * (src/ChatUploader.js, src/useModel.js).
 */
module Chats {
  import opened Wrappers

  /**
   * A message as a chat-export parser yields it. A missing `datetime` is
   * `None`; a missing or empty `sender` or `message` is the empty string
   * (both are falsy in JavaScript).
   */
  datatype Entry = Entry(datetime: Option<int>, sender: string, message: string)

  /** A message that survived cleaning: a millisecond timestamp, a sender, a text. */
  datatype Message = Message(datetime: int, sender: string, text: string)

  /**
   * The two participants of a chat, in plotting order. A name is `None` where
   * the source holds `undefined` (a chat with fewer than two senders).
   */
  datatype Participants = Participants(first: Option<string>, second: Option<string>)

  /** A name as JavaScript string concatenation renders it: `undefined` for a missing one. */
  function Label(name: Option<string>): string {
    if name.Some? then name.value else "undefined"
  }

  datatype Chat = Chat(provider: string, participants: Participants, key: string, messages: seq<Message>)

  /** The settings record of src/useModel.js lines 5-14. */
  datatype Settings = Settings(
    flipped: bool,
    closenessDamping: real,
    scaling: real,
    logScaling: real,
    bandwidthBias: real,
    bandwidthVariance: real,
    selectedRange: Option<(real, real)>,
    contour: bool)

  /** Message timestamps in non-decreasing order. */
  predicate SortedByTime(messages: seq<Message>) {
    forall i, j :: 0 <= i < j < |messages| ==> messages[i].datetime <= messages[j].datetime
  }
}
