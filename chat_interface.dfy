/**
 * The chat window (src/components/chatbot/chat-interface.tsx): a local
 * transcript and a loading flag, changed by one send handler. The chatbot
 * request is an abstract reply; the two `Date.now()` readings the handler
 * makes (one when the user message is built, one after the reply arrives)
 * are parameters.
 */
module ChatInterface {
  import opened Text
  import opened Decimal

  datatype Role = User | Assistant

  datatype Message = Message(id: string, role: Role, content: string)

  /** How the chatbot request settles: with a reply text, or by throwing. */
  datatype Reply = Insight(legalInsight: string) | Rejected

  /** The component's two pieces of state. */
  datatype ChatState = ChatState(messages: seq<Message>, isLoading: bool)

  const Initial := ChatState([], false)

  /** The handler's guard: a send goes ahead only for non-blank input while no request is in flight. */
  predicate Accepts(s: ChatState, input: string)
  {
    !IsBlank(input) && !s.isLoading
  }

  /** The optimistic user message: the raw input, keyed by the clock at send time. */
  function UserMessage(input: string, sentAt: nat): Message
  {
    Message(ToDecimal(sentAt), User, input)
  }

  /** The reply message, keyed by the clock after the reply plus one. */
  function AssistantMessage(text: string, repliedAt: nat): Message
  {
    Message(ToDecimal(repliedAt + 1), Assistant, text)
  }

  /** `array.slice(0, -1)`: everything but the last element, and `[]` for `[]`. */
  function SliceDropLast<T>(m: seq<T>): (r: seq<T>)
    ensures m != [] ==> m == r + [m[|m| - 1]]
    ensures m == [] ==> r == []
  {
    if m == [] then [] else m[..|m| - 1]
  }

  /** The state once the handler has reached its `await`. */
  function SendStarted(s: ChatState, input: string, sentAt: nat): (r: ChatState)
    ensures !Accepts(s, input) ==> r == s
    ensures Accepts(s, input) ==>
      r.isLoading && |r.messages| == |s.messages| + 1 && r.messages[..|s.messages|] == s.messages
      && r.messages[|s.messages|].role == User && r.messages[|s.messages|].content == input
      && r.messages[|s.messages|].id == ToDecimal(sentAt)
  {
    if !Accepts(s, input) then s
    else ChatState(s.messages + [UserMessage(input, sentAt)], true)
  }

  /** The state once the request has settled: the reply is appended, or the last entry is rolled back; loading ends either way. */
  function SendSettled(s: ChatState, reply: Reply, repliedAt: nat): (r: ChatState)
    ensures !r.isLoading
    ensures reply.Insight? ==>
      |r.messages| == |s.messages| + 1 && r.messages[..|s.messages|] == s.messages
      && r.messages[|s.messages|] == AssistantMessage(reply.legalInsight, repliedAt)
    ensures reply.Rejected? && s.messages != [] ==> r.messages + [s.messages[|s.messages| - 1]] == s.messages
    ensures reply.Rejected? && s.messages == [] ==> r.messages == []
  {
    match reply
    case Insight(text) => ChatState(s.messages + [AssistantMessage(text, repliedAt)], false)
    case Rejected => ChatState(SliceDropLast(s.messages), false)
  }

  /** A failed request leaves the transcript exactly as it was before the send. */
  lemma RejectedSendRestoresTranscript(s: ChatState, input: string, sentAt: nat, repliedAt: nat)
    requires Accepts(s, input)
    ensures SendSettled(SendStarted(s, input, sentAt), Rejected, repliedAt) == s
  {
  }

  /** A successful request leaves the old transcript, the user message, then the reply. */
  lemma AnsweredSendAppendsExchange(s: ChatState, input: string, sentAt: nat, text: string, repliedAt: nat)
    requires Accepts(s, input)
    ensures SendSettled(SendStarted(s, input, sentAt), Insight(text), repliedAt)
      == ChatState(s.messages + [UserMessage(input, sentAt), AssistantMessage(text, repliedAt)], false)
  {
  }

  /**
   * A user message and an assistant message share an id exactly when the
   * user message's clock reading is one more than the reading taken after
   * the reply. Within one exchange that needs the clock to run backwards;
   * across exchanges it happens when a send follows a reply by one
   * millisecond.
   */
  lemma MessageIdsCollide(input: string, sentAt: nat, text: string, repliedAt: nat)
    ensures UserMessage(input, sentAt).id == AssistantMessage(text, repliedAt).id <==> sentAt == repliedAt + 1
  {
    ToDecimalInjective(sentAt, repliedAt + 1);
  }

  /**
   * The shape every transcript the handler produces has: user and assistant
   * messages alternate starting with a user message, no user message is
   * blank, and a trailing unanswered user message exists exactly while loading.
   */
  predicate WellFormed(s: ChatState)
  {
    |s.messages| % 2 == (if s.isLoading then 1 else 0)
    && (forall i :: 0 <= i < |s.messages| ==> s.messages[i].role == (if i % 2 == 0 then User else Assistant))
    && (forall i :: 0 <= i < |s.messages| && s.messages[i].role == User ==> !IsBlank(s.messages[i].content))
  }

  lemma SendStartedPreservesWellFormed(s: ChatState, input: string, sentAt: nat)
    requires WellFormed(s)
    ensures WellFormed(SendStarted(s, input, sentAt))
  {
    if Accepts(s, input) {
      var m, n := s.messages, |s.messages|;
      var m' := SendStarted(s, input, sentAt).messages;
      assert n % 2 == 0;
      forall i | 0 <= i < n + 1
        ensures m'[i].role == (if i % 2 == 0 then User else Assistant)
        ensures m'[i].role == User ==> !IsBlank(m'[i].content)
      {
        if i < n { assert m'[i] == m[i]; }
      }
    }
  }

  lemma SendSettledPreservesWellFormed(s: ChatState, reply: Reply, repliedAt: nat)
    requires WellFormed(s) && s.isLoading
    ensures WellFormed(SendSettled(s, reply, repliedAt))
  {
    var m, n := s.messages, |s.messages|;
    var m' := SendSettled(s, reply, repliedAt).messages;
    assert n % 2 == 1;
    forall i | 0 <= i < |m'|
      ensures m'[i].role == (if i % 2 == 0 then User else Assistant)
      ensures m'[i].role == User ==> !IsBlank(m'[i].content)
    {
      if i < n { assert m'[i] == m[i]; }
    }
  }

  /** The component instance: `messages` and `isLoading` are its state hooks. */
  class ChatInterface {
    var messages: seq<Message>
    var isLoading: bool

    function State(): ChatState
      reads this
    {
      ChatState(messages, isLoading)
    }

    ghost predicate Valid()
      reads this
    {
      WellFormed(State())
    }

    constructor ()
      ensures Valid() && State() == Initial
    {
      messages := [];
      isLoading := false;
    }

    /** `handleSendMessage` up to its `await`: guard, optimistic user message, loading on. */
    method StartSend(input: string, sentAt: nat) returns (accepted: bool)
      requires Valid()
      modifies this
      ensures Valid()
      ensures accepted == Accepts(old(State()), input)
      ensures State() == SendStarted(old(State()), input, sentAt)
    {
      if IsBlank(input) || isLoading {
        return false;
      }
      SendStartedPreservesWellFormed(State(), input, sentAt);
      messages := messages + [UserMessage(input, sentAt)];
      isLoading := true;
      accepted := true;
    }

    /** `handleSendMessage` after its `await`: append the reply or roll back, then clear loading. */
    method SettleSend(reply: Reply, repliedAt: nat)
      requires Valid() && isLoading
      modifies this
      ensures Valid()
      ensures State() == SendSettled(old(State()), reply, repliedAt)
    {
      SendSettledPreservesWellFormed(State(), reply, repliedAt);
      match reply {
        case Insight(text) =>
          messages := messages + [AssistantMessage(text, repliedAt)];
        case Rejected =>
          messages := SliceDropLast(messages);
      }
      isLoading := false;
    }

    /** The whole handler, with the request settling as `reply`. */
    method HandleSendMessage(input: string, sentAt: nat, reply: Reply, repliedAt: nat) returns (requested: bool)
      requires Valid()
      modifies this
      ensures Valid()
      ensures requested == Accepts(old(State()), input)
      ensures !requested ==> State() == old(State())
      ensures requested ==> State() == SendSettled(SendStarted(old(State()), input, sentAt), reply, repliedAt)
    {
      requested := StartSend(input, sentAt);
      if requested {
        SettleSend(reply, repliedAt);
      }
    }
  }
}
