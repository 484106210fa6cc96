/** Chatting with one GPT: a non-blank input is sent, and a reply appends
    the user's message and the GPT's answer. */
module Chat {
  import opened Wrappers
  import opened Net
  import Text

  datatype Sender = User | Assistant

  datatype Message = Message(text: string, sender: Sender)

  datatype ChatState = ChatState(messages: seq<Message>, inputText: string)

  const InitialChat := ChatState([], "")

  /** `response.data && response.data.response` is truthy: a non-empty answer arrived. */
  predicate Answered(reply: Reply<Option<string>>) {
    reply.Ok? && reply.body.Some? && reply.body.value != ""
  }

  /** `sendMessage`: a blank input sends nothing; otherwise the untrimmed
      input is posted, and only a non-empty answer appends the two messages
      and clears the input. */
  function SendMessage(s: ChatState, reply: Reply<Option<string>>): (r: Handled<ChatState, string>)
    ensures r.request.NoRequest? <==> Text.AllSpace(s.inputText)
    ensures r.request.Send? ==> r.request.payload == s.inputText
    ensures r.request.Send? && Answered(reply) ==>
              && r.next.messages == s.messages + [Message(s.inputText, User),
                                                  Message(reply.body.value, Assistant)]
              && r.next.inputText == ""
    ensures r.request.NoRequest? || !Answered(reply) ==> r.next == s
  {
    Text.TrimEmptyIffBlank(s.inputText);
    if Text.Trim(s.inputText) == "" then Handled(s, NoRequest)
    else if Answered(reply) then
      var userMessage := Message(s.inputText, User);
      var gptMessage := Message(reply.body.value, Assistant);
      Handled(ChatState(s.messages + [userMessage, gptMessage], ""), Send(s.inputText))
    else Handled(s, Send(s.inputText))
  }

  /** The transcript alternates user and GPT messages, starting with the
      user, and every GPT message is non-empty. */
  ghost predicate Alternating(ms: seq<Message>) {
    && |ms| % 2 == 0
    && (forall i | 0 <= i < |ms| :: ms[i].sender == if i % 2 == 0 then User else Assistant)
    && (forall i | 0 <= i < |ms| && ms[i].sender == Assistant :: ms[i].text != "")
  }

  /** Sending keeps the transcript alternating. */
  lemma SendKeepsAlternation(s: ChatState, reply: Reply<Option<string>>)
    requires Alternating(s.messages)
    ensures Alternating(SendMessage(s, reply).next.messages)
  {
    var r := SendMessage(s, reply);
    if r.request.Send? && Answered(reply) {
      var ms := r.next.messages;
      var n := |s.messages|;
      assert ms == s.messages + [Message(s.inputText, User), Message(reply.body.value, Assistant)];
      forall i | 0 <= i < |ms|
        ensures ms[i].sender == if i % 2 == 0 then User else Assistant
      {
        if i >= n {
          assert n % 2 == 0;
          assert ms[i] == if i == n then Message(s.inputText, User) else Message(reply.body.value, Assistant);
        }
      }
    }
  }

  /** Every user message in the transcript was a non-blank input. */
  ghost predicate UserMessagesNonBlank(ms: seq<Message>) {
    forall i | 0 <= i < |ms| && ms[i].sender == User :: !Text.AllSpace(ms[i].text)
  }

  lemma SendKeepsUserMessagesNonBlank(s: ChatState, reply: Reply<Option<string>>)
    requires UserMessagesNonBlank(s.messages)
    ensures UserMessagesNonBlank(SendMessage(s, reply).next.messages)
  {
  }

  /** What can happen on the screen: the user edits the input, or presses
      send and the backend answers with `reply`. */
  datatype ChatEvent = Typed(text: string) | Sent(reply: Reply<Option<string>>)

  function ApplyChat(s: ChatState, e: ChatEvent): ChatState {
    match e
    case Typed(text) => s.(inputText := text)
    case Sent(reply) => SendMessage(s, reply).next
  }

  function RunChat(s: ChatState, es: seq<ChatEvent>): ChatState
    decreases |es|
  {
    if |es| == 0 then s else RunChat(ApplyChat(s, es[0]), es[1..])
  }

  ghost predicate WellFormedTranscript(ms: seq<Message>) {
    Alternating(ms) && UserMessagesNonBlank(ms)
  }

  lemma {:induction false} RunChatKeepsTranscript(s: ChatState, es: seq<ChatEvent>)
    requires WellFormedTranscript(s.messages)
    ensures WellFormedTranscript(RunChat(s, es).messages)
    decreases |es|
  {
    if |es| > 0 {
      if es[0].Sent? {
        SendKeepsAlternation(s, es[0].reply);
        SendKeepsUserMessagesNonBlank(s, es[0].reply);
      }
      RunChatKeepsTranscript(ApplyChat(s, es[0]), es[1..]);
    }
  }

  /** From an empty chat, whatever is typed and answered, the transcript
      alternates user and GPT messages, every user message is non-blank and
      every GPT message non-empty. */
  lemma TranscriptAlwaysWellFormed(es: seq<ChatEvent>)
    ensures WellFormedTranscript(RunChat(InitialChat, es).messages)
  {
    RunChatKeepsTranscript(InitialChat, es);
  }
}
