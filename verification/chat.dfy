/**
  The AI chat page: a transcript that only grows, an input box, and one canned reply per
  accepted message. The reply is a timer callback; `pending` counts the callbacks scheduled
  but not yet run, and `ReplyArrives` is one of them running.
 */
module Chat {
  import JsString

  datatype Sender = FromUser | FromAi

  /** A transcript entry. Ids are clock readings in the page, so they arrive as parameters. */
  datatype Message = Message(id: string, sender: Sender, content: string)

  datatype ChatState = ChatState(messages: seq<Message>, input: string, pending: nat)

  datatype Event = Typed(text: string) | Sent(id: string) | Replied(id: string)

  const GreetingText: string :=
    "Hello! I'm Quantiva's AI assistant. I can help you analyze stocks, sectors, market trends, and provide investment insights. What would you like to know?"

  const ReplyText: string :=
    "Based on current market analysis, I can provide insights on that topic. Let me analyze the latest data and trends for you..."

  const Greeting: Message := Message("1", FromAi, GreetingText)

  /** The page as it mounts: the greeting alone, an empty input, no reply on its way. */
  const Initial: ChatState := ChatState([Greeting], "", 0)

  /** The input box's change handler. */
  function Type(st: ChatState, text: string): (r: ChatState)
    ensures r.input == text
    ensures r.messages == st.messages && r.pending == st.pending
  {
    st.(input := text)
  }

  /** `handleSendMessage`: a blank input is ignored; otherwise the input goes into the
      transcript untrimmed, one reply is scheduled and the box is cleared. */
  function Send(st: ChatState, id: string): (r: ChatState)
    ensures JsString.IsBlank(st.input) ==> r == st
    ensures !JsString.IsBlank(st.input) ==>
      && r.messages == st.messages + [Message(id, FromUser, st.input)]
      && r.input == ""
      && r.pending == st.pending + 1
  {
    JsString.TrimEmptyIffBlank(st.input);
    if JsString.Trim(st.input) == "" then st
    else ChatState(st.messages + [Message(id, FromUser, st.input)], "", st.pending + 1)
  }

  /** One scheduled reply runs: the canned answer goes at the end of the transcript, whatever
      was appended since it was scheduled. */
  function ReplyArrives(st: ChatState, id: string): (r: ChatState)
    requires st.pending > 0
    ensures r.messages == st.messages + [Message(id, FromAi, ReplyText)]
    ensures r.input == st.input && r.pending == st.pending - 1
  {
    ChatState(st.messages + [Message(id, FromAi, ReplyText)], st.input, st.pending - 1)
  }

  /** An event applied to the page; a reply with no timer outstanding cannot happen, and
      is skipped. */
  function Step(st: ChatState, e: Event): ChatState {
    match e
    case Typed(text) => Type(st, text)
    case Sent(id) => Send(st, id)
    case Replied(id) => if st.pending > 0 then ReplyArrives(st, id) else st
  }

  function Run(st: ChatState, events: seq<Event>): ChatState
    decreases |events|
  {
    if events == [] then st else Run(Step(st, events[0]), events[1..])
  }

  /** How many messages of `ms` came from `who`. */
  function Count(ms: seq<Message>, who: Sender): nat
    decreases |ms|
  {
    if ms == [] then 0
    else Count(ms[..|ms| - 1], who) + (if ms[|ms| - 1].sender == who then 1 else 0)
  }

  /** The transcript invariant: it opens with the greeting, every user message is non-blank,
      every later AI message is the canned reply, and each accepted message has been answered
      or still has its reply pending. */
  predicate Valid(st: ChatState) {
    && |st.messages| >= 1
    && st.messages[0] == Greeting
    && (forall k :: 0 <= k < |st.messages| && st.messages[k].sender == FromUser ==>
          !JsString.IsBlank(st.messages[k].content))
    && (forall k :: 1 <= k < |st.messages| && st.messages[k].sender == FromAi ==>
          st.messages[k].content == ReplyText)
    && Count(st.messages, FromUser) == Count(st.messages, FromAi) - 1 + st.pending
  }

  lemma InitialIsValid()
    ensures Valid(Initial)
    ensures |Initial.messages| == 1 && Initial.messages[0].id == "1" && Initial.messages[0].sender == FromAi
  {
  }

  lemma CountAppend(ms: seq<Message>, m: Message, who: Sender)
    ensures Count(ms + [m], who) == Count(ms, who) + (if m.sender == who then 1 else 0)
  {
  }

  /** Every message is from the user or from the AI. */
  lemma {:induction false} CountsPartition(ms: seq<Message>)
    ensures Count(ms, FromUser) + Count(ms, FromAi) == |ms|
    decreases |ms|
  {
    if ms != [] {
      CountsPartition(ms[..|ms| - 1]);
    }
  }

  lemma StepPreservesValid(st: ChatState, e: Event)
    requires Valid(st)
    ensures Valid(Step(st, e))
  {
    match e
    case Typed(_) =>
    case Sent(id) =>
      if !JsString.IsBlank(st.input) {
        var m := Message(id, FromUser, st.input);
        CountAppend(st.messages, m, FromUser);
        CountAppend(st.messages, m, FromAi);
      }
    case Replied(id) =>
      if st.pending > 0 {
        var m := Message(id, FromAi, ReplyText);
        CountAppend(st.messages, m, FromUser);
        CountAppend(st.messages, m, FromAi);
      }
  }

  /** Every step keeps what was there: the old transcript is a prefix of the new one. */
  lemma StepAppendsOnly(st: ChatState, e: Event)
    ensures st.messages <= Step(st, e).messages
    ensures |Step(st, e).messages| <= |st.messages| + 1
  {
  }

  /** Over any run the transcript stays valid and is only ever extended. */
  lemma {:induction false} RunKeepsTranscript(st: ChatState, events: seq<Event>)
    requires Valid(st)
    ensures Valid(Run(st, events))
    ensures st.messages <= Run(st, events).messages
    decreases |events|
  {
    if events != [] {
      StepPreservesValid(st, events[0]);
      StepAppendsOnly(st, events[0]);
      RunKeepsTranscript(Step(st, events[0]), events[1..]);
    }
  }

  /** From the page's mount, the greeting stays first and the AI never answers more often than
      the user has sent something. */
  lemma RepliesNeverOutrunSends(events: seq<Event>)
    ensures |Run(Initial, events).messages| >= 1 && Run(Initial, events).messages[0] == Greeting
    ensures Count(Run(Initial, events).messages, FromAi) - 1 <= Count(Run(Initial, events).messages, FromUser)
  {
    InitialIsValid();
    RunKeepsTranscript(Initial, events);
  }

  /** Whitespace-only input leaves the page exactly as it was. */
  lemma BlankInputIgnored(st: ChatState, id: string)
    ensures Send(st.(input := " \t\n"), id) == st.(input := " \t\n")
    ensures Send(st.(input := ""), id) == st.(input := "")
  {
    assert JsString.IsBlank(" \t\n") by {
      assert forall k :: 0 <= k < 3 ==> JsString.IsWhitespace(" \t\n"[k]);
    }
  }
}
