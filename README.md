# Intel.gpt client logic, modelled in Dafny

Intel.gpt is a legal-assistant web app: a chat window that sends questions
to a hosted language model, a chat history page, a sign-up page and a form
that summarises a pasted legal document. Almost all of it is React views
over Firebase and Genkit. This project models the decision logic inside
those views and proves what it promises:

- the chat window's send handler: the blank and busy guards, the optimistic
  user message, the reply append, the rollback on failure, and the loading
  flag;
- the chat input box: the blank guard, clear-after-send, Enter versus
  Shift+Enter, and when the send button and textarea are disabled;
- how one chat message is drawn: user text, the "thinking" notice, or
  markdown;
- the history page: newest-first ordering of the stored messages, and the
  choice between the loading, error, empty and list screens;
- the sign-up form's length rules and its mapping from error codes to
  notices;
- the document-analysis form's length bounds and its loading/result state.

One module per source file (`ChatInterface`, `ChatInput`, `ChatMessage`,
`History`, `SignUp`, `AnalysisForm`) plus three helpers: `Wrappers`
(optional values), `Text` (the whitespace set and `String.prototype.trim`)
and `Decimal` (`Number.prototype.toString` on the millisecond clock values
used as message ids).

Where a component keeps state (`useState`), it is a class whose fields are
its state hooks. Each handler is a method whose `ensures` ties the new state
to a pure function of the old one. The handlers that `await` a request are
split in two: a method for the part before the `await` and one for the part
after it. A third method runs the two in sequence. The properties are proved
about the pure functions.

External calls are inputs:
- the chatbot request is a `Reply` (`Insight(text)` or `Rejected`);
- the summarisation request is an `AnalysisReply`;
- account creation is an `AccountCreation` (the returned uid, or the thrown
  error code);
- the two `Date.now()` readings of a send are natural-number parameters;
- the history subscription's `data`, `isLoading` and `error` are parameters;
- zod's e-mail check is a boolean parameter.

The chat window keeps its transcript locally, and each reply arrives whole,
as one message.

The chat window imports `interactWithLegalAIChatbot` and reads
`result.legalInsight` (`src/components/chatbot/chat-interface.tsx:4,44,48`).
But `src/ai/flows/legal-ai-chatbot.ts` exports only `streamLegalAIChatbot`
(line 22), which returns a stream of text chunks. Neither name exists there.
This mismatch is not resolved here. The reply is modelled abstractly, so
`Rejected` also covers a call that throws because the import is missing.

## Model

| member | source | states |
|---|---|---|
| Text.TrimStart | src/components/chatbot/chat-input.tsx:19 | the result is a suffix of the input; everything dropped is whitespace; the result does not start with whitespace |
| Text.TrimEnd | src/components/chatbot/chat-input.tsx:19 | the result is a prefix of the input; everything dropped is whitespace; the result does not end with whitespace |
| Text.Trim | src/components/chatbot/chat-input.tsx:19 | `trim()` is empty exactly when every character is whitespace; a non-empty result starts and ends with non-whitespace |
| Decimal.ToDecimal | src/components/chatbot/chat-interface.tsx:36 | `Date.now().toString()` is a non-empty string of digits without a leading zero; it is one digit exactly for values below 10 |
| Decimal.ParseToDecimal | src/components/chatbot/chat-interface.tsx:36 | reading the id string back gives the clock value (round trip) |
| Decimal.ToDecimalInjective | src/components/chatbot/chat-interface.tsx:36 | two clock values give the same id string exactly when they are equal |
| ChatInterface.SliceDropLast | src/components/chatbot/chat-interface.tsx:59 | `slice(0, -1)` removes exactly the last element, and maps `[]` to `[]` |
| ChatInterface.SendStarted | src/components/chatbot/chat-interface.tsx:33-41 | a blank input or a send while loading changes nothing; an accepted send keeps every earlier message, appends one user message holding the raw untrimmed input with the send-time id, and turns loading on |
| ChatInterface.SendSettled | src/components/chatbot/chat-interface.tsx:43-62 | on a reply, the old messages are kept and one assistant message with the reply text is appended; on failure, the last entry is removed; loading is off either way |
| ChatInterface.RejectedSendRestoresTranscript | src/components/chatbot/chat-interface.tsx:35-62 | an accepted send whose request fails leaves the transcript and loading flag exactly as before the send |
| ChatInterface.AnsweredSendAppendsExchange | src/components/chatbot/chat-interface.tsx:35-62 | an accepted send whose request succeeds leaves the old transcript, then the user message, then the assistant message, with loading off |
| ChatInterface.MessageIdsCollide | src/components/chatbot/chat-interface.tsx:36-46 | a user message and an assistant message share an id exactly when the send-time clock reading is one more than the reading taken after the reply: never within one exchange unless the clock runs backwards, but possible across exchanges |
| ChatInterface.SendStartedPreservesWellFormed | src/components/chatbot/chat-interface.tsx:33-41 | the start of a send keeps the transcript alternating user/assistant with no blank user message, and keeps an unanswered user message at the end exactly while loading |
| ChatInterface.SendSettledPreservesWellFormed | src/components/chatbot/chat-interface.tsx:43-62 | settling the request of a loading state keeps that shape and leaves no unanswered user message |
| ChatInterface.ChatInterface.constructor | src/components/chatbot/chat-interface.tsx:18-19 | the window starts with no messages and not loading |
| ChatInterface.ChatInterface.StartSend | src/components/chatbot/chat-interface.tsx:32-41 | the handler up to its `await` reports whether it went ahead, and leaves the state SendStarted describes |
| ChatInterface.ChatInterface.SettleSend | src/components/chatbot/chat-interface.tsx:43-62 | the handler after its `await` leaves the state SendSettled describes |
| ChatInterface.ChatInterface.HandleSendMessage | src/components/chatbot/chat-interface.tsx:32-63 | a rejected send changes nothing; an accepted one ends in SendSettled of SendStarted; the transcript keeps its shape |
| ChatInput.Submit | src/components/chatbot/chat-input.tsx:17-23 | something is sent exactly when the buffer is not blank; what is sent is the exact untrimmed buffer, which is then cleared; a blank buffer is kept |
| ChatInput.KeyDown | src/components/chatbot/chat-input.tsx:25-30 | Enter without Shift suppresses the newline and submits (even when the buffer is blank); any other key, Shift+Enter included, sends nothing and leaves the buffer alone |
| ChatInput.ControlsFor | src/components/chatbot/chat-input.tsx:45-52 | the textarea is disabled exactly while loading; the send button exactly while loading or when the buffer is all whitespace |
| ChatInput.SendButtonMatchesSubmit | src/components/chatbot/chat-input.tsx:19-52 | when not loading, the button is enabled exactly when a submit would send |
| ChatInput.SentInputIsAccepted | src/components/chatbot/chat-input.tsx:19-20 | whatever the input box sends is accepted by an idle chat window, since both use the same blank test |
| ChatInput.SubmitWhileLoadingDropsInput | src/components/chatbot/chat-input.tsx:17-23 | the submit handler does not check loading: a submit while loading clears the buffer and the window ignores it; both controls are disabled in that state |
| ChatInput.ChatInput.constructor | src/components/chatbot/chat-input.tsx:14 | the buffer starts empty |
| ChatInput.ChatInput.Change | src/components/chatbot/chat-input.tsx:40 | typing replaces the buffer |
| ChatInput.ChatInput.HandleSubmit | src/components/chatbot/chat-input.tsx:17-23 | the call made to `onSendMessage` and the new buffer are those Submit describes |
| ChatInput.ChatInput.HandleKeyDown | src/components/chatbot/chat-input.tsx:25-30 | the suppressed default, the call made and the new buffer are those KeyDown describes |
| ChatMessage.Render | src/components/chatbot/chat-message.tsx:9-46 | a message is "thinking" exactly when it is an assistant message with empty content; user messages are plain text, other assistant messages markdown, with their own content; the avatar shows exactly for non-user messages; user messages align to the end; only the thinking bubble pulses |
| ChatMessage.UserMessageIsPlainText | src/components/chatbot/chat-message.tsx:9-38 | a user message is never thinking and shows its content verbatim, even when empty |
| ChatMessage.WellFormedUserBubblesAreNonBlank | src/components/chatbot/chat-message.tsx:37-38 | in a transcript built by the send handler, no plain-text bubble is empty |
| History.Insert | src/app/history/page.tsx:66 | inserting into a newest-first list keeps it newest first and adds exactly the one message |
| History.SortNewestFirst | src/app/history/page.tsx:66 | the sorted copy is in non-increasing timestamp order and is a permutation of the fetched messages |
| History.InsertKeepsTies | src/app/history/page.tsx:66 | an inserted message goes in front of the messages with its own timestamp and keeps their order |
| History.SortIsStable | src/app/history/page.tsx:66 | messages with equal timestamps keep their fetched order |
| History.DisplayedMessages | src/app/history/page.tsx:66 | absent data shows as the empty list; present data as a newest-first permutation of itself |
| History.HistoryScreen | src/app/history/page.tsx:32-95 | loading wins over the error, the error wins over the list; the placeholder shows exactly when the sorted list is empty; otherwise one card per sorted message, in order |
| History.CardsFor | src/app/history/page.tsx:73-89 | one card per message, in list order, labelled "You" for user messages and "Assistant" otherwise |
| History.HistoryListIsComplete | src/app/history/page.tsx:66-95 | once loaded without error, the placeholder shows exactly when nothing (or absent data) was fetched; otherwise there is one card per fetched message, newest first |
| History.MessagesCollectionPath | src/app/history/page.tsx:19-22 | the page subscribes to `users/<uid>/chat_messages` exactly when Firestore and a user are available |
| History.RedirectTarget | src/app/history/page.tsx:26-30 | the page redirects to `/login` exactly when the user lookup has finished without a user |
| SignUp.FormErrors | src/app/signup/page.tsx:33-39 | usernames shorter than 2 and passwords shorter than 6 characters are rejected with their messages; the form passes exactly when no field has an error |
| SignUp.SignUpErrorMessage | src/app/signup/page.tsx:81-97 | each of the three known codes maps to its notice; any other non-empty code maps to the generic sign-up notice; no code or an empty code maps to "An unexpected error occurred." |
| SignUp.KnownCodesHaveOwnNotice | src/app/signup/page.tsx:83-95 | no error other than a known code gets that code's notice |
| SignUp.OnSubmit | src/app/signup/page.tsx:56-103 | the profile is written exactly when a user came back, at `users/<uid>` with the entered username and email and `id` equal to the uid; success navigates to `/`; only a failure shows a destructive notice, whose text is SignUpErrorMessage of the code |
| SignUp.HandleSubmit | src/app/signup/page.tsx:116 | the form is rejected with its field errors exactly when the username is under 2 characters, the email is malformed or the password is under 6 characters; only otherwise does `onSubmit` run, with its effects |
| SignUp.ShortCredentialsSubmitNothing | src/app/signup/page.tsx:33-39 | a too-short username or password creates no account, writes no profile and navigates nowhere; the field shows its message |
| AnalysisForm.DocumentTextError | src/components/document-analysis/analysis-form.tsx:27-33 | text is accepted exactly when its length is between 100 and 20000 inclusive; shorter and longer texts get their messages |
| AnalysisForm.AnalysisStarted | src/components/document-analysis/analysis-form.tsx:50-51 | starting a submission turns loading on and clears any earlier result |
| AnalysisForm.AnalysisSettled | src/components/document-analysis/analysis-form.tsx:52-64 | on success the result is the returned analysis; on failure the result is untouched; loading is off either way |
| AnalysisForm.FailedAnalysisShowsNoResult | src/components/document-analysis/analysis-form.tsx:50-117 | a failed submission leaves no result at all, not even an earlier one, and loading off: no progress card and no result card are shown |
| AnalysisForm.SucceededAnalysisShowsIt | src/components/document-analysis/analysis-form.tsx:50-117 | a successful submission shows exactly its own analysis in the result card, with loading off and the button enabled |
| AnalysisForm.ViewOf | src/components/document-analysis/analysis-form.tsx:93-117 | the submit button is disabled and the progress card shown exactly while loading; the result card shows exactly the current result |
| AnalysisForm.AnalysisInProgressView | src/components/document-analysis/analysis-form.tsx:50-117 | while a request is in flight the button is disabled, the progress card shows, and no earlier result card remains |
| AnalysisForm.AnalysisForm.constructor | src/components/document-analysis/analysis-form.tsx:36-39 | the form starts not loading and without a result |
| AnalysisForm.AnalysisForm.StartAnalysis | src/components/document-analysis/analysis-form.tsx:50-51 | the handler up to its `await` leaves the state AnalysisStarted describes |
| AnalysisForm.AnalysisForm.SettleAnalysis | src/components/document-analysis/analysis-form.tsx:52-64 | the handler after its `await` leaves the state AnalysisSettled describes |
| AnalysisForm.AnalysisForm.Submit | src/components/document-analysis/analysis-form.tsx:27-64 | a text failing the length rules is reported and changes nothing; a passing one runs the handler to AnalysisSettled of AnalysisStarted |

## Left out

- The chatbot and summarisation flows (`src/ai/flows/*.ts`): they call a hosted model. Their outcomes are inputs.
- Firebase: auth, Firestore reads and writes, and the subscription hook are SDK calls. Their results are inputs, and the profile write is returned as a value.
- Toasts other than sign-up's, `console.error`, the scroll-to-bottom effect, focusing the textarea and the loading skeletons are side effects without logic.
- React's batching of state updates and stale handler closures are not modelled. Each handler part is one sequential step.
- Overlapping analysis submissions: the form's handler has no re-entrancy guard. The model lets a second submission start, but it does not model two requests in flight that interleave.
- History timestamps are integers. Firestore `Timestamp` values compared by subtraction, null or absent timestamps (null coerces to 0 and sorts last; undefined gives NaN), and date formatting are not modelled.
- String lengths are sequence lengths. Zod counts UTF-16 code units, which differ for characters outside the Basic Multilingual Plane.
- Zod's e-mail regular expression is a library internal; its verdict is a parameter.
- Login, the lawyer directory (browser geolocation over a fixed list), the precedents list, navigation, the layout and the analysis result view (raw HTML injection) are static UI or I/O.
