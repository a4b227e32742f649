# Peer-support chat screen: a verified model

This model covers the conversation logic of the anonymous peer-support chat
screen. Nothing else in the screen is modelled.

When the screen mounts, it is seeded with a three-message welcome thread. The
user types into an input box and sends with the button or with Enter. A sent
message is appended to the thread; it carries the trimmed text, the session's
ephemeral handle (or `Anonymous-User`) and a neutral mood.

A simulated presence engine watches the thread's length. Once the thread is
longer than three messages, each length change arms a 3000 ms timer. When that
timer fires, "someone is typing" comes on and a 2000 ms timer is scheduled.
When the second timer fires, the indicator goes off and a fixed positive reply
from `Support-Friend-K3L8` is appended. That append changes the length again,
so the engine re-arms itself. The effect's cleanup clears only the first timer,
never the second.

The model has four modules:

- `Text` (`text.dfy`) is JavaScript's `String.prototype.trim`. It is computed
  by recursion, and it is proved equal to an independent characterisation: the
  unique slice between a whitespace-only prefix and a whitespace-only suffix
  that neither starts nor ends with whitespace.
- `Conversation` (`conversation.dfy`) holds the values: `Message`, `Mood`, the
  seeded thread, the synthetic reply, and the pure rules. Those rules are the
  sender fallback, the "mine" predicate, the mood icon, the send guard and the
  Enter-key rule.
- `Screen` (`chat_page.dfy`) is the component's mutable state as the class
  `ChatPage`: input text, log, typing flag, the two pending timers, and whether
  it is mounted. It has one method per event: typing, send, key press, outer
  timer, inner timer and unmount. The class invariant `Valid` has three parts:
  - the log is the seed grown by appends of well-formed messages in time order;
  - the typing flag is on exactly while the inner timer is pending;
  - a pending inner timer always falls due before a pending outer one. Because
    of this, at most one reply is ever in flight.
- `Scenarios` (`scenarios.dfy`) holds runs of the screen proved from the
  method contracts alone.

Time is a millisecond clock that advances only at events. The two timers are
deadlines, and they fire in deadline order. A user event at time `t` requires
that no timer is overdue at `t`.

## Model

| member | source | states |
|---|---|---|
| Text.Trim | src/pages/ChatPage.tsx:93-97 | `message.trim()`: the input without its leading and trailing ECMAScript whitespace and line terminators |
| Conversation.IsSendable | src/pages/ChatPage.tsx:93 | the send guard `if (message.trim())`: the trimmed input is non-empty |
| Conversation.IsSubmitKey | src/pages/ChatPage.tsx:108 | `e.key === 'Enter' && !e.shiftKey`: the key is Enter and Shift is not held |
| Conversation.IsMine | src/pages/ChatPage.tsx:204-221 | `msg.sender === student?.ephemeralHandle`, used for both the alignment (line 204) and the bubble colour (line 221): a handle is present and equals the sender |
| Conversation.ArmsOn | src/pages/ChatPage.tsx:74 | `messages.length > 3`: the length exceeds the threshold of three |
| Conversation.UserMessage | src/pages/ChatPage.tsx:94-100 | the message `handleSendMessage` builds at time `now`: id and timestamp from that clock reading, the sender label, the trimmed input, mood neutral |
| Conversation.SyntheticReply | src/pages/ChatPage.tsx:79-85 | the reply the inner timer appends at time `now`: id and timestamp from that clock reading, sender `Support-Friend-K3L8`, the fixed text, mood positive |
| Text.TrimStartSpec | src/pages/ChatPage.tsx:93 | stripping the start leaves a suffix of the input after a whitespace-only prefix, and that suffix is empty or starts with non-whitespace |
| Text.TrimEndSpec | src/pages/ChatPage.tsx:93 | stripping the end leaves a prefix of the input before a whitespace-only suffix, and that prefix is empty or ends with non-whitespace |
| Text.TrimSpec | src/pages/ChatPage.tsx:93 | `trim()` is no longer than its input, is empty exactly when the input is all whitespace, and otherwise neither starts nor ends with whitespace |
| Text.TrimIsTrimOf | src/pages/ChatPage.tsx:97 | the computed trim satisfies the reference definition of trimming |
| Text.TrimOfUnique | src/pages/ChatPage.tsx:97 | any two strings that satisfy the reference definition for the same input are equal |
| Text.TrimCharacterized | src/pages/ChatPage.tsx:97 | for every input, a string is the reference trimming exactly when it is `trim()`'s result (both directions) |
| Text.TrimIdempotent | src/pages/ChatPage.tsx:93-97 | trimming the trimmed content changes nothing |
| Conversation.SeedLog | src/pages/ChatPage.tsx:41-66 | the welcome thread has three messages in increasing time order, all before the screen opened, so it does not arm the engine |
| Conversation.SendableIff | src/pages/ChatPage.tsx:93 | the send guard passes exactly when the input contains a non-whitespace character |
| Conversation.SendButtonDisabled | src/pages/ChatPage.tsx:265 | the send button is disabled exactly when the input is all whitespace (including empty) |
| Conversation.SenderFor | src/pages/ChatPage.tsx:96 | the sender label is never empty; it is the handle when one is present and non-empty, and `Anonymous-User` otherwise |
| Conversation.MoodIconFor | src/pages/ChatPage.tsx:114-120 | Heart exactly for positive, AlertTriangle exactly for concerned, so Smile for neutral and for no mood |
| Conversation.UserMessageShape | src/pages/ChatPage.tsx:94-100 | for a sendable input, the new message's content is the reference trimming of the input (non-empty, no outer whitespace), its mood is neutral and its sender is the handle or the fallback |
| Conversation.OwnMessageMineIff | src/pages/ChatPage.tsx:204-207 | the user's own message (sender set at line 96) renders as "mine" exactly when the session has a non-empty handle |
| Conversation.NothingMineWithoutHandle | src/pages/ChatPage.tsx:204-207 | with no handle, no message is "mine", including the user's own `Anonymous-User` messages |
| Conversation.ReplyMineIff | src/pages/ChatPage.tsx:204-207 | the synthetic reply (sender fixed at line 81) is "mine" exactly when the session's handle is `Support-Friend-K3L8` |
| Conversation.SameMillisecondSameId | src/pages/ChatPage.tsx:80-95 | a user message and a reply created in the same millisecond get the same id, so ids are not unique |
| Conversation.MineIgnoresMood | src/pages/ChatPage.tsx:203-213 | changing a message's mood never changes whether it is "mine" |
| Screen.UserMessageIsLater | src/pages/ChatPage.tsx:94-100 | what a send builds from a sendable input is a well-formed user message |
| Screen.AppendGrows | src/pages/ChatPage.tsx:79-102 | appending a well-formed message, stamped no earlier than the last one, keeps the log the seed grown by appends |
| Screen.GrownFacts | src/pages/ChatPage.tsx:79-102 | a grown log keeps the seed untouched in front, holds only user messages and replies after it, and is chronological when the seed is |
| Screen.ChatPage.ThreadShape | src/pages/ChatPage.tsx:41-105 | on a valid screen the welcome thread is the log's untouched prefix, everything after it is a user message or a synthetic reply, and the log is in time order |
| Screen.ChatPage.constructor | src/pages/ChatPage.tsx:34-74 | mounting gives an empty input, the three seeded messages, typing off and no pending timer |
| Screen.ChatPage.LengthChanged | src/pages/ChatPage.tsx:73-90 | a length change clears the pending outer timer and arms a fresh 3000 ms one exactly when the log is longer than three |
| Screen.ChatPage.SetInput | src/pages/ChatPage.tsx:257-258 | typing replaces the input text and changes nothing else |
| Screen.ChatPage.Send | src/pages/ChatPage.tsx:92-105 | a blank input leaves the log, the input and the timers unchanged; otherwise exactly one user message is appended after the untouched old log, the input is cleared and the outer timer restarts; typing and the inner timer are untouched |
| Screen.ChatPage.KeyPress | src/pages/ChatPage.tsx:107-112 | Enter without Shift behaves as Send; every other key changes nothing |
| Screen.ChatPage.FireOuter | src/pages/ChatPage.tsx:75-87 | the outer timer fires only when no inner timer is pending; typing comes on, the 2000 ms inner timer is scheduled, and the log is untouched |
| Screen.ChatPage.FireInner | src/pages/ChatPage.tsx:77-90 | typing goes off and exactly one positive reply from `Support-Friend-K3L8` is appended; while mounted the append re-arms the outer timer, and after unmounting nothing is re-armed |
| Screen.ChatPage.Unmount | src/pages/ChatPage.tsx:88 | teardown clears the outer timer only; a pending inner timer, the typing flag and the log are kept |
| Scenarios.HelloTrims | src/pages/ChatPage.tsx:93-97 | `"  hello  "` trims to `"hello"` and may be sent |
| Scenarios.HiTrims | src/pages/ChatPage.tsx:93-97 | `"hi"` trims to itself and may be sent |
| Scenarios.ReplyCycle | src/pages/ChatPage.tsx:73-105 | one send makes the thread four long; at +3000 ms typing shows, at +5000 ms it stops and the thread is the send followed by exactly one reply, which is not "mine" |
| Scenarios.BlankSend | src/pages/ChatPage.tsx:92-112 | Enter on a whitespace-only input leaves the thread of three, keeps the text and arms nothing |
| Scenarios.TwoSends | src/pages/ChatPage.tsx:73-105 | of two anonymous sends a second apart, each restarts the outer timer (due at 4000 ms, then 5000 ms) |
| Scenarios.DelayedNotDuplicated | src/pages/ChatPage.tsx:73-105 | a second send while armed delays the reply to the later deadline and yields exactly one reply |
| Scenarios.TeardownWhileTyping | src/pages/ChatPage.tsx:77-88 | after unmounting while typing, the inner timer's callback still runs and the model records its append of the reply, after which no timer is pending |

## Left out

- JSX layout, styling, framer-motion animation and `AnimatePresence`: these
  are presentation only. The model keeps what the layout decides (the "mine"
  rule, the mood icon, the disabled flag) as functions.
- `formatTime`: locale-dependent formatting done by a library call.
- Automatic scrolling (`scrollIntoView`): a DOM side effect with no state.
- Translation lookups, navigation and the global store: the ephemeral handle
  is a constructor parameter that may be absent.
- `connectedUsers`: a constant that is never updated.
- The Report button and the "auto-delete after 30 days" text: no behaviour
  lies behind them.
- The input's 500-character `maxLength`: the widget enforces it, not this
  code.
- `preventDefault` on Enter: it only suppresses the browser's default action.
- Real timers, `Date.now()` and `new Date()`: the clock is an explicit
  integer, and the timers fire exactly at their deadlines in deadline order.
  Late or throttled timers are not modelled.
- Message ids are the opaque values `SeedId(n)` for the seeded thread and
  `StampId(ms)` for everything else. The decimal string of
  `Date.now().toString()` is not modelled. Ids are not claimed to be unique;
  `Conversation.SameMillisecondSameId` shows they are not.
- Each message's id and timestamp come from one clock reading. The source
  reads the clock twice per message (`Date.now()` at
  src/pages/ChatPage.tsx:80 and 95, `new Date()` at lines 83 and 98), and
  the two readings can fall in different milliseconds.
- Strings are sequences of Unicode scalar values, whereas JavaScript strings
  are UTF-16 code units. Trimming is unaffected, because every ECMAScript
  whitespace and line-terminator character lies in the Basic Multilingual
  Plane outside the surrogate range. Lengths can differ: the final emoji of
  the synthetic reply is one character here and two code units in
  JavaScript.
- React's scheduling (batched updates, re-render timing, development-mode
  double effects) is not modelled. Each setter takes effect at once, and the
  length effect runs within the event that changed the length.
- React discarding state updates on an unmounted component: after teardown
  the model still records what the inner timer's callback writes (typing
  off, reply appended), because that is what the callback does. It only
  stops running effects.
- The clock never moves backwards: events are given non-decreasing times.
- `getMoodIcon` is modelled on the three moods of the `Message` type plus
  "no mood". Its argument type also admits other strings, which would show
  Smile.

## Behaviour worth knowing

- Teardown. The effect's cleanup (`clearTimeout(timer)` at
  src/pages/ChatPage.tsx:88) clears only the outer timer. The inner timer is
  never cancelled: its callback still runs after unmount and calls both
  setters, and the model records those writes on the torn-down state.
- Sender fallback. `student?.ephemeralHandle || 'Anonymous-User'` falls back
  for an empty handle as well as for an absent one, so an empty handle yields
  the sender label `Anonymous-User`. The "mine" rule does not share this
  fallback: under an empty handle, a message is "mine" exactly when its
  sender is the empty string.
