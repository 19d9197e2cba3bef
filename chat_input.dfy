/**
 * The chat input box (src/components/chatbot/chat-input.tsx): a text buffer
 * that is handed to the chat window on submit and then cleared. The
 * `onSendMessage` callback is modelled by returning what it was called with.
 */
module ChatInput {
  import opened Wrappers
  import opened Text
  import ChatInterface

  /** What one submit does: the text handed to `onSendMessage` (if any) and the buffer afterwards. */
  datatype Submission = Submission(sent: Option<string>, buffer: string)

  /** `handleSubmit`: blank buffers are kept and nothing is sent; otherwise the exact buffer is sent and the buffer cleared. */
  function Submit(buffer: string): (r: Submission)
    ensures r.sent.Some? <==> !IsBlank(buffer)
    ensures r.sent.Some? ==> r.sent.value == buffer && r.buffer == []
    ensures r.sent.None? ==> r.buffer == buffer
  {
    if IsBlank(buffer) then Submission(None, buffer) else Submission(Some(buffer), [])
  }

  /** What one key press does: whether the default action (inserting a newline) is suppressed, and any submit it causes. */
  datatype KeyPress = KeyPress(defaultPrevented: bool, submission: Submission)

  /** `handleKeyDown`: Enter without Shift submits and never inserts a newline; every other key is left alone. */
  function KeyDown(buffer: string, key: string, shiftKey: bool): (r: KeyPress)
    ensures r.defaultPrevented <==> key == "Enter" && !shiftKey
    ensures r.defaultPrevented ==> r.submission == Submit(buffer)
    ensures !r.defaultPrevented ==> r.submission == Submission(None, buffer)
  {
    if key == "Enter" && !shiftKey then KeyPress(true, Submit(buffer))
    else KeyPress(false, Submission(None, buffer))
  }

  /** The `disabled` attributes of the textarea and the send button. */
  datatype Controls = Controls(textareaDisabled: bool, sendButtonDisabled: bool)

  /** The textarea follows the chat window's loading flag; the button is also off for an all-whitespace buffer. */
  function ControlsFor(isLoading: bool, buffer: string): (r: Controls)
    ensures r.textareaDisabled <==> isLoading
    ensures r.sendButtonDisabled <==> isLoading || AllWhitespace(buffer)
  {
    Controls(isLoading, isLoading || IsBlank(buffer))
  }

  /** When not loading, the button is enabled exactly when a submit would send something. */
  lemma SendButtonMatchesSubmit(buffer: string)
    ensures !ControlsFor(false, buffer).sendButtonDisabled <==> Submit(buffer).sent.Some?
  {
  }

  /**
   * Whatever the input box sends, the chat window accepts while it is idle:
   * both components apply the same blank test.
   */
  lemma SentInputIsAccepted(buffer: string, s: ChatInterface.ChatState)
    requires !s.isLoading && Submit(buffer).sent.Some?
    ensures ChatInterface.Accepts(s, Submit(buffer).sent.value)
  {
  }

  /**
   * `handleSubmit` itself does not consult the loading flag: a submit that
   * reached it while the chat window was loading would clear the buffer and
   * be ignored by the window. Both controls are disabled while loading,
   * which keeps the user from getting there.
   */
  lemma SubmitWhileLoadingDropsInput(buffer: string, s: ChatInterface.ChatState, sentAt: nat)
    requires s.isLoading && !IsBlank(buffer)
    ensures Submit(buffer).buffer == [] && Submit(buffer).sent == Some(buffer)
    ensures ChatInterface.SendStarted(s, buffer, sentAt) == s
    ensures ControlsFor(s.isLoading, buffer) == Controls(true, true)
  {
  }

  /** The component instance: `input` is its state hook. */
  class ChatInput {
    var input: string

    constructor ()
      ensures input == []
    {
      input := [];
    }

    /** The textarea's `onChange`. */
    method Change(value: string)
      modifies this
      ensures input == value
    {
      input := value;
    }

    /** `handleSubmit`; `sent` is the argument `onSendMessage` was called with, if it was called. */
    method HandleSubmit() returns (sent: Option<string>)
      modifies this
      ensures Submission(sent, input) == Submit(old(input))
    {
      if IsBlank(input) {
        return None;
      }
      sent := Some(input);
      input := [];
    }

    /** `handleKeyDown`. */
    method HandleKeyDown(key: string, shiftKey: bool) returns (defaultPrevented: bool, sent: Option<string>)
      modifies this
      ensures KeyPress(defaultPrevented, Submission(sent, input)) == KeyDown(old(input), key, shiftKey)
    {
      defaultPrevented := key == "Enter" && !shiftKey;
      sent := None;
      if defaultPrevented {
        sent := HandleSubmit();
      }
    }
  }
}
