/**
 * How one transcript message is drawn (src/components/chatbot/chat-message.tsx):
 * which side it sits on, whether it has the assistant avatar, and whether its
 * body is plain text, the "thinking" notice or rendered markdown.
 */
module ChatMessage {
  import opened ChatInterface
  import Text

  const ThinkingNotice := "Intel.gpt is thinking..."

  datatype Alignment = Start | End

  datatype Body = PlainText(text: string) | Thinking(notice: string) | Markdown(source: string)

  datatype Rendered = Rendered(alignment: Alignment, avatar: bool, pulsing: bool, body: Body)

  predicate IsUser(m: Message)
  {
    m.role == User
  }

  /** An assistant message with no content yet; `!message.content` is true only for the empty string. */
  predicate IsThinking(m: Message)
  {
    m.role == Assistant && m.content == []
  }

  function Render(m: Message): (r: Rendered)
    ensures r.body.Thinking? <==> m.role == Assistant && m.content == []
    ensures r.body.PlainText? <==> m.role == User
    ensures r.body.Markdown? <==> m.role == Assistant && m.content != []
    ensures r.body.Thinking? ==> r.body.notice == ThinkingNotice
    ensures r.body.PlainText? ==> r.body.text == m.content
    ensures r.body.Markdown? ==> r.body.source == m.content
    ensures r.avatar <==> m.role != User
    ensures r.alignment == End <==> m.role == User
    ensures r.pulsing <==> r.body.Thinking?
  {
    var isUser := IsUser(m);
    var isThinking := IsThinking(m);
    Rendered(
      if isUser then End else Start,
      !isUser,
      isThinking,
      if isUser then PlainText(m.content)
      else if isThinking then Thinking(ThinkingNotice)
      else Markdown(m.content))
  }

  /** A user message is never thinking, and shows its text verbatim even when empty. */
  lemma UserMessageIsPlainText(m: Message)
    requires m.role == User
    ensures !IsThinking(m) && Render(m).body == PlainText(m.content)
  {
  }

  /** No message of a well-formed transcript is ever shown as a blank user bubble. */
  lemma WellFormedUserBubblesAreNonBlank(s: ChatState, i: nat)
    requires WellFormed(s) && i < |s.messages| && Render(s.messages[i]).body.PlainText?
    ensures Render(s.messages[i]).body.text != []
  {
    assert s.messages[i].role == User;
    assert !Text.IsBlank(s.messages[i].content);
  }
}
