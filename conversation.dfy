/** The values of the chat screen: messages, moods, the seeded thread, the
    synthetic counterpart's reply, and the pure rules the screen applies to
    them (who sent a message, whether it is "mine", which mood icon it gets,
    whether the input may be sent). */
module Conversation {
  import opened Text

  datatype Option<+T> = None | Some(value: T)

  /** Milliseconds since the epoch, as `Date.now()` reads them. */
  type Time = int

  datatype Mood = Positive | Neutral | Concerned

  /** Message ids, kept opaque: the seeded messages carry the fixed ids "1",
      "2" and "3"; every other message carries `Date.now().toString()` of its
      creation, which two messages of the same millisecond share. */
  datatype MessageId = SeedId(n: nat) | StampId(ms: Time)

  /** A message of the thread; `mood` is optional, as in the source's type. */
  datatype Message = Message(id: MessageId, sender: string, content: string, timestamp: Time, mood: Option<Mood>)

  /** The three icons the mood column can show. */
  datatype MoodIcon = Heart | AlertTriangle | Smile

  /** Sender label used when the session has no (non-empty) ephemeral handle. */
  const AnonymousSender: string := "Anonymous-User"

  /** The synthetic counterpart's fixed handle and reply. */
  const ReplySender: string := "Support-Friend-K3L8"
  const ReplyText: string := "I appreciate everyone sharing here. It really helps to know we're not going through this alone. \U{1F499}"

  /** The presence engine arms only while the thread is longer than this. */
  const TypingThreshold: nat := 3
  /** Delay of the outer timer (length change to typing). */
  const ArmDelay: nat := 3000
  /** Delay of the inner timer (typing to reply). */
  const TypingDelay: nat := 2000

  /** The guard of the presence effect: `messages.length > 3`. */
  predicate ArmsOn(length: nat) {
    length > TypingThreshold
  }

  /** The texts of the welcome thread. */
  const SeedText1: string := "Hi everyone, I've been feeling really overwhelmed with career anxiety lately. Anyone else dealing with this?"
  const SeedText2: string := "You're not alone! I went through similar feelings during placement season. What helps me is breaking things down into small steps."
  const SeedText3: string := "That's really good advice. I've found that talking to friends and taking breaks helps too. Remember to be kind to yourself."

  /** The welcome thread the screen is seeded with, 5, 4 and 3 minutes before
      the screen opened. */
  function SeedLog(openedAt: Time): (log: seq<Message>)
    ensures |log| == TypingThreshold && !ArmsOn(|log|)
    ensures log[0].timestamp < log[1].timestamp < log[2].timestamp < openedAt
  {
    [ Message(SeedId(1), "Kash-Guest-A12B", SeedText1, openedAt - 300000, Some(Concerned)),
      Message(SeedId(2), "Anon-Helper-X9Y2", SeedText2, openedAt - 240000, Some(Positive)),
      Message(SeedId(3), "Guest-Support-M7N4", SeedText3, openedAt - 180000, Some(Positive)) ]
  }

  /** `message.trim()` is truthy: the send guard and the send button's enable rule. */
  predicate IsSendable(input: string) {
    Trim(input) != []
  }

  /** The input may be sent exactly when it holds a non-whitespace character. */
  lemma SendableIff(input: string)
    ensures IsSendable(input) <==> exists k :: 0 <= k < |input| && !IsWhitespace(input[k])
  {
    TrimSpec(input);
  }

  /** The send button's `disabled` attribute: set exactly for blank input. */
  function SendButtonDisabled(input: string): (disabled: bool)
    ensures disabled <==> AllWhitespace(input)
  {
    TrimSpec(input);
    !IsSendable(input)
  }

  /** Enter without Shift submits; every other key press is left to the input box. */
  predicate IsSubmitKey(key: string, shift: bool) {
    key == "Enter" && !shift
  }

  /** `student?.ephemeralHandle || 'Anonymous-User'`: an absent or empty
      handle falls back to the anonymous label. */
  function SenderFor(handle: Option<string>): (sender: string)
    ensures sender != []
    ensures handle.Some? && handle.value != [] ==> sender == handle.value
    ensures handle.None? || handle.value == [] ==> sender == AnonymousSender
  {
    if handle.Some? && handle.value != "" then handle.value else AnonymousSender
  }

  /** `msg.sender === student?.ephemeralHandle`: the only rule for
      right-aligned ("mine") rendering. */
  predicate IsMine(m: Message, handle: Option<string>) {
    handle.Some? && m.sender == handle.value
  }

  /** `getMoodIcon`: Heart for positive, AlertTriangle for concerned, Smile otherwise. */
  function MoodIconFor(mood: Option<Mood>): (icon: MoodIcon)
    ensures icon == Heart <==> mood == Some(Positive)
    ensures icon == AlertTriangle <==> mood == Some(Concerned)
  {
    match mood
    case Some(Positive) => Heart
    case Some(Concerned) => AlertTriangle
    case _ => Smile
  }

  /** The message `handleSendMessage` builds from the input at time `now`. */
  function UserMessage(input: string, handle: Option<string>, now: Time): (m: Message) {
    Message(StampId(now), SenderFor(handle), Trim(input), now, Some(Neutral))
  }

  /** The synthetic counterpart's reply, created when the inner timer fires at `now`. */
  function SyntheticReply(now: Time): (m: Message) {
    Message(StampId(now), ReplySender, ReplyText, now, Some(Positive))
  }

  /** What every message the user can add looks like. */
  predicate IsUserMessage(m: Message, handle: Option<string>) {
    m.sender == SenderFor(handle) && m.mood == Some(Neutral) &&
    m.content != [] && !IsWhitespace(m.content[0]) && !IsWhitespace(m.content[|m.content| - 1]) &&
    m.id == StampId(m.timestamp)
  }

  /** What every message the presence engine adds looks like. */
  predicate IsSyntheticReply(m: Message) {
    m == SyntheticReply(m.timestamp)
  }

  /** A sendable input yields a message whose content is exactly the input's
      trimming, with the neutral mood and the session's sender label. */
  lemma UserMessageShape(input: string, handle: Option<string>, now: Time)
    requires IsSendable(input)
    ensures IsUserMessage(UserMessage(input, handle, now), handle)
    ensures IsTrimOf(UserMessage(input, handle, now).content, input)
    ensures UserMessage(input, handle, now).mood == Some(Neutral)
    ensures UserMessage(input, handle, now).sender ==
            if handle.Some? && handle.value != [] then handle.value else AnonymousSender
  {
    TrimSpec(input);
    TrimIsTrimOf(input);
  }

  /** The user's own messages are rendered as "mine" exactly when the session
      has a non-empty handle: without one they carry "Anonymous-User", which
      the mine rule never matches. */
  lemma OwnMessageMineIff(input: string, handle: Option<string>, now: Time)
    ensures IsMine(UserMessage(input, handle, now), handle) <==> handle.Some? && handle.value != []
  {
    if handle == Some([]) {
      assert UserMessage(input, handle, now).sender == AnonymousSender;
      assert AnonymousSender[0] == 'A';
    }
  }

  /** With no handle nothing is "mine", whoever sent it. */
  lemma NothingMineWithoutHandle(m: Message)
    ensures !IsMine(m, None)
  {
  }

  /** The synthetic reply is "mine" only for a session whose handle happens to
      be the counterpart's fixed handle: nothing keeps the two apart. */
  lemma ReplyMineIff(now: Time, handle: Option<string>)
    ensures IsMine(SyntheticReply(now), handle) <==> handle == Some(ReplySender)
  {
  }

  /** A user message and a reply created in the same millisecond share an id. */
  lemma SameMillisecondSameId(input: string, handle: Option<string>, now: Time)
    ensures UserMessage(input, handle, now).id == SyntheticReply(now).id
  {
  }

  /** Mood never changes how a message is classified as mine: the rule reads
      only the sender. */
  lemma MineIgnoresMood(m: Message, mood: Option<Mood>, handle: Option<string>)
    ensures IsMine(m.(mood := mood), handle) <==> IsMine(m, handle)
  {
  }
}
