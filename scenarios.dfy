/** Client runs of the chat screen, proved from the event methods' contracts
    alone: what a user sees across a typing cycle, a blank send, a restarted
    timer and a teardown while the counterpart is typing. */
module Scenarios {
  import opened Text
  import opened Conversation
  import opened Screen

  lemma HelloTrims()
    ensures Trim("  hello  ") == "hello" && IsSendable("  hello  ")
  {
    assert "  hello  "[..2] == "  " && "  hello  "[7..] == "  " && "  hello  "[2..7] == "hello";
    assert TrimAt("  hello  ", "hello", 2, 7);
    TrimCharacterized("  hello  ", "hello");
  }

  lemma HiTrims()
    ensures Trim("hi") == "hi" && IsSendable("hi")
  {
    assert !IsWhitespace('h') && !IsWhitespace('i');
  }

  /** Sending one message makes the thread four long, which arms the engine:
      3000 ms later the typing indicator comes on, 2000 ms after that it goes
      off and exactly one reply from the counterpart is appended. */
  method ReplyCycle() returns (sent: Message, typingMidway: bool, final: seq<Message>, typingAtEnd: bool)
    ensures sent.content == "hello" && sent.sender == "X" && sent.mood == Some(Neutral)
    ensures IsMine(sent, Some("X"))
    ensures typingMidway && !typingAtEnd
    ensures |final| == 5 && final[3] == sent
    ensures final[4] == SyntheticReply(6000) && !IsMine(final[4], Some("X"))
  {
    var page := new ChatPage(Some("X"), 0);
    page.SetInput("  hello  ");
    HelloTrims();
    page.Send(1000);
    sent := page.log[3];
    page.FireOuter();
    typingMidway := page.typing;
    page.FireInner();
    typingAtEnd := page.typing;
    final := page.log;
  }

  /** A whitespace-only input sends nothing, keeps its text and arms nothing. */
  method BlankSend() returns (before: seq<Message>, after: seq<Message>, kept: string, phase: EnginePhase)
    ensures after == before && |after| == 3
    ensures kept == " \t "
    ensures phase == Idle
  {
    var page := new ChatPage(None, 0);
    before := page.log;
    page.SetInput(" \t ");
    TrimSpec(" \t ");
    assert AllWhitespace(" \t ");
    page.KeyPress("Enter", false, 10);
    after := page.log;
    kept := page.input;
    phase := page.Phase();
  }

  /** Two anonymous sends, at 1000 ms and 2000 ms, on a screen opened at 0:
      each send restarts the outer timer. */
  method TwoSends() returns (page: ChatPage, dueAfterFirst: Option<Time>)
    ensures fresh(page) && page.Valid() && page.mounted
    ensures dueAfterFirst == Some(4000)
    ensures page.clock == 2000 && page.outerDue == Some(5000) && page.innerDue.None?
    ensures |page.log| == 5
    ensures page.log[3].sender == AnonymousSender && page.log[4].sender == AnonymousSender
  {
    page := new ChatPage(None, 0);
    page.SetInput("hi");
    HiTrims();
    page.Send(1000);
    dueAfterFirst := page.outerDue;
    page.SetInput("hi");
    page.Send(2000);
  }

  /** A second send while armed restarts the outer timer: the reply is
      delayed, not duplicated. */
  method DelayedNotDuplicated() returns (dueAfterFirst: Option<Time>, dueAfterSecond: Option<Time>, final: seq<Message>)
    ensures dueAfterFirst == Some(4000) && dueAfterSecond == Some(5000)
    ensures |final| == 6 && final[5] == SyntheticReply(7000)
    ensures final[3].sender == AnonymousSender && final[4].sender == AnonymousSender
  {
    var page;
    page, dueAfterFirst := TwoSends();
    dueAfterSecond := page.outerDue;
    page.FireOuter();
    page.FireInner();
    final := page.log;
  }

  /** Unmounting while the counterpart is typing clears only the outer timer:
      the inner one still fires, turns typing off and appends the reply to
      the torn-down state, and no timer is armed again. */
  method TeardownWhileTyping() returns (typingAtTeardown: bool, lengthAtTeardown: nat, final: seq<Message>, phase: EnginePhase)
    ensures typingAtTeardown && lengthAtTeardown == 4
    ensures |final| == 5 && final[4] == SyntheticReply(6000)
    ensures phase == Idle
  {
    var page := new ChatPage(Some("X"), 0);
    page.SetInput("hi");
    HiTrims();
    page.Send(1000);
    page.FireOuter();
    typingAtTeardown := page.typing;
    lengthAtTeardown := |page.log|;
    page.Unmount();
    page.FireInner();
    final := page.log;
    phase := page.Phase();
  }
}
