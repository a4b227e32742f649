/** The chat screen's mutable state and the events that change it: the input
    box, the message log, the typing flag, and the two timers of the simulated
    presence effect. Time is a millisecond clock that advances only at events;
    timers fire in the order of their deadlines. */
module Screen {
  import opened Conversation

  /** Which of the presence engine's timers are pending. */
  datatype EnginePhase = Idle | Armed | Typing | TypingAndArmed

  /** Insertion order is display order: timestamps never decrease along the log. */
  ghost predicate Chronological(log: seq<Message>) {
    forall i, j :: 0 <= i < j < |log| ==> log[i].timestamp <= log[j].timestamp
  }

  /** A message the screen may add after the seeded thread. */
  predicate IsLaterMessage(m: Message, handle: Option<string>) {
    IsUserMessage(m, handle) || IsSyntheticReply(m)
  }

  /** The log grew from `seed` by appends only, each appended message being a
      user message or a synthetic reply no older than the message before it. */
  ghost predicate Grown(log: seq<Message>, seed: seq<Message>, handle: Option<string>)
    decreases |log|
  {
    if |log| <= |seed| then log == seed
    else
      var prev := log[..|log| - 1];
      var m := log[|log| - 1];
      Grown(prev, seed, handle) && IsLaterMessage(m, handle) &&
      (prev != [] ==> prev[|prev| - 1].timestamp <= m.timestamp)
  }

  /** What `handleSendMessage` appends is a well-formed user message. */
  lemma UserMessageIsLater(input: string, handle: Option<string>, now: Time)
    requires IsSendable(input)
    ensures IsLaterMessage(UserMessage(input, handle, now), handle)
  {
    UserMessageShape(input, handle, now);
  }

  /** Appending a later message stamped no earlier than the last one keeps the log grown. */
  lemma AppendGrows(log: seq<Message>, seed: seq<Message>, handle: Option<string>, m: Message)
    requires Grown(log, seed, handle) && IsLaterMessage(m, handle)
    requires log != [] ==> log[|log| - 1].timestamp <= m.timestamp
    ensures Grown(log + [m], seed, handle)
  {
    assert (log + [m])[..|log|] == log;
  }

  /** What growing by appends guarantees: the seeded thread stays in front,
      untouched; everything after it is a user message or a synthetic reply;
      and, the seed being in order, the whole log is in chronological order. */
  lemma {:induction false} GrownFacts(log: seq<Message>, seed: seq<Message>, handle: Option<string>)
    requires Grown(log, seed, handle)
    ensures |log| >= |seed| && log[..|seed|] == seed
    ensures forall i :: |seed| <= i < |log| ==> IsLaterMessage(log[i], handle)
    ensures Chronological(seed) ==> Chronological(log)
    decreases |log|
  {
    if |log| > |seed| {
      var prev := log[..|log| - 1];
      GrownFacts(prev, seed, handle);
      assert log == prev + [log[|log| - 1]];
      assert log[..|seed|] == prev[..|seed|];
      forall i | |seed| <= i < |log| ensures IsLaterMessage(log[i], handle) {
        if i < |prev| { assert log[i] == prev[i]; }
      }
      if Chronological(seed) {
        forall i, j | 0 <= i < j < |log| ensures log[i].timestamp <= log[j].timestamp {
          if j < |prev| {
            assert log[i] == prev[i] && log[j] == prev[j];
          } else if i < |prev| - 1 {
            assert log[i] == prev[i] && prev[|prev| - 1] == log[|prev| - 1];
          }
        }
      }
    }
  }

  class ChatPage {
    /** The session's ephemeral handle, if any; fixed for the screen's life. */
    const handle: Option<string>
    /** The clock reading when the screen was mounted and seeded. */
    const openedAt: Time
    /** The welcome thread installed at mount. */
    const seed: seq<Message>

    /** The text in the input box (`message`). */
    var input: string
    /** The thread (`messages`). */
    var log: seq<Message>
    /** `isTyping`. */
    var typing: bool
    /** The current clock reading. */
    var clock: Time
    /** The deadline of the pending outer (3000 ms) timer, if one is pending. */
    var outerDue: Option<Time>
    /** The deadline of the pending inner (2000 ms) timer, if one is pending. */
    var innerDue: Option<Time>
    /** False once the screen has been unmounted. */
    var mounted: bool

    ghost predicate Valid()
      reads this
    {
      // the log is the seeded thread grown by appends, none stamped after now
      |seed| == TypingThreshold && |log| >= |seed| && Grown(log, seed, handle) &&
      log[|log| - 1].timestamp <= clock &&
      // the typing indicator is shown exactly while the inner timer is pending
      (typing <==> innerDue.Some?) &&
      (outerDue.Some? ==> mounted && ArmsOn(|log|) && clock <= outerDue.value <= clock + ArmDelay) &&
      (innerDue.Some? ==> ArmsOn(|log|) && clock <= innerDue.value <= clock + TypingDelay) &&
      // a pending inner timer always falls due before a pending outer one
      (outerDue.Some? && innerDue.Some? ==> innerDue.value < outerDue.value)
    }

    /** What the screen shows is the welcome thread, untouched and in front,
        followed only by the user's messages and synthetic replies, the whole
        thread in chronological order. */
    lemma ThreadShape()
      requires Valid() && seed == SeedLog(openedAt)
      ensures log[..TypingThreshold] == SeedLog(openedAt)
      ensures forall i :: TypingThreshold <= i < |log| ==> IsLaterMessage(log[i], handle)
      ensures Chronological(log)
    {
      GrownFacts(log, seed, handle);
      assert Chronological(seed);
    }

    function Phase(): (phase: EnginePhase)
      reads this
    {
      if outerDue.None? && innerDue.None? then Idle
      else if innerDue.None? then Armed
      else if outerDue.None? then Typing
      else TypingAndArmed
    }

    /** No timer is due before time `t`, so a user event may happen at `t`. */
    predicate NotOverdue(t: Time)
      reads this
    {
      (outerDue.Some? ==> t <= outerDue.value) && (innerDue.Some? ==> t <= innerDue.value)
    }

    /** Mounting: the log starts empty, the seeding effect installs the three
        welcome messages, and the presence effect runs for both lengths
        without arming. */
    constructor (handle: Option<string>, now: Time)
      ensures Valid()
      ensures this.handle == handle && openedAt == now && seed == SeedLog(now) && clock == now && mounted
      ensures log == SeedLog(now) && input == [] && !typing && Phase() == Idle
    {
      this.handle := handle;
      openedAt := now;
      seed := SeedLog(now);
      clock := now;
      input := "";
      log := [];
      typing := false;
      outerDue := None;
      innerDue := None;
      mounted := true;
      new;
      LengthChanged();
      log := SeedLog(now);
      LengthChanged();
    }

    /** The presence effect, re-run whenever the log's length changes: its
        cleanup clears the pending outer timer (never the inner one), then a
        fresh outer timer is armed if the log is longer than the threshold. */
    method LengthChanged()
      requires mounted
      modifies this`outerDue
      ensures outerDue == if ArmsOn(|log|) then Some(clock + ArmDelay) else None
    {
      outerDue := None;
      if ArmsOn(|log|) {
        outerDue := Some(clock + ArmDelay);
      }
    }

    /** The input box's `onChange`. */
    method SetInput(text: string)
      requires Valid() && mounted
      modifies this`input
      ensures Valid() && input == text
    {
      input := text;
    }

    /** `handleSendMessage` at time `now`: a blank input changes nothing;
        otherwise the trimmed input is appended as a neutral message of the
        session's sender, the input is cleared, and the length change
        restarts the outer timer. */
    method Send(now: Time)
      requires Valid() && mounted && clock <= now && NotOverdue(now)
      modifies this`log, this`input, this`outerDue, this`clock
      ensures Valid() && clock == now && mounted
      ensures !IsSendable(old(input)) ==>
                log == old(log) && input == old(input) && outerDue == old(outerDue)
      ensures IsSendable(old(input)) ==>
                log == old(log) + [UserMessage(old(input), handle, now)] &&
                input == [] && outerDue == Some(now + ArmDelay)
      ensures typing == old(typing) && innerDue == old(innerDue)
    {
      clock := now;
      if IsSendable(input) {
        UserMessageIsLater(input, handle, now);
        AppendGrows(log, seed, handle, UserMessage(input, handle, now));
        log := log + [UserMessage(input, handle, now)];
        input := "";
        LengthChanged();
      }
    }

    /** `handleKeyPress`: Enter without Shift sends, any other key does nothing here. */
    method KeyPress(key: string, shift: bool, now: Time)
      requires Valid() && mounted && clock <= now && NotOverdue(now)
      modifies this`log, this`input, this`outerDue, this`clock
      ensures Valid() && mounted
      ensures !IsSubmitKey(key, shift) ==>
                log == old(log) && input == old(input) && outerDue == old(outerDue) && clock == old(clock)
      ensures IsSubmitKey(key, shift) && !IsSendable(old(input)) ==>
                log == old(log) && input == old(input) && outerDue == old(outerDue) && clock == now
      ensures IsSubmitKey(key, shift) && IsSendable(old(input)) ==>
                log == old(log) + [UserMessage(old(input), handle, now)] &&
                input == [] && outerDue == Some(now + ArmDelay) && clock == now
      ensures typing == old(typing) && innerDue == old(innerDue)
    {
      if IsSubmitKey(key, shift) {
        Send(now);
      }
    }

    /** The outer timer fires: the typing indicator comes on and the inner
        timer is scheduled; the log is untouched. */
    method FireOuter()
      requires Valid() && outerDue.Some? && (innerDue.None? || outerDue.value <= innerDue.value)
      modifies this`clock, this`typing, this`outerDue, this`innerDue
      ensures Valid()
      ensures old(Phase()) == Armed && Phase() == Typing
      ensures clock == old(outerDue).value && typing && innerDue == Some(clock + TypingDelay)
      ensures log == old(log) && input == old(input) && mounted
    {
      clock := outerDue.value;
      outerDue := None;
      typing := true;
      innerDue := Some(clock + TypingDelay);
    }

    /** The inner timer fires, mounted or not (nothing ever clears it): the
        typing indicator goes off and exactly one synthetic reply is appended.
        While mounted, that length change re-arms the outer timer; after
        unmounting no effect runs any more. */
    method FireInner()
      requires Valid() && innerDue.Some? && (outerDue.None? || innerDue.value <= outerDue.value)
      modifies this`clock, this`typing, this`innerDue, this`log, this`outerDue
      ensures Valid()
      ensures clock == old(innerDue).value && !typing
      ensures log == old(log) + [SyntheticReply(clock)]
      ensures outerDue == if mounted then Some(clock + ArmDelay) else None
      ensures Phase() == if mounted then Armed else Idle
      ensures input == old(input) && mounted == old(mounted)
    {
      clock := innerDue.value;
      innerDue := None;
      typing := false;
      AppendGrows(log, seed, handle, SyntheticReply(clock));
      log := log + [SyntheticReply(clock)];
      if mounted {
        LengthChanged();
      }
    }

    /** Unmounting runs the presence effect's cleanup, which clears only the
        outer timer: a pending inner timer stays pending. */
    method Unmount()
      requires Valid() && mounted
      modifies this`mounted, this`outerDue
      ensures Valid() && !mounted && outerDue.None?
      ensures innerDue == old(innerDue) && typing == old(typing) && log == old(log)
    {
      mounted := false;
      outerDue := None;
    }
  }
}
