# Medical chat bot: session store

This project models the session store of the single-page medical chat
interface: the state held by the `App` component and the event handlers that
change it. The state has five parts. The active session is an id plus an
ordered list of messages. The chat history is the list of archived sessions.
There is a typing-indicator flag, a flag for whether the history pane is
shown, and the text in the input box.

The model has four modules:

- `JsString` (`js_string.dfy`) models JavaScript's `String.prototype.trim`,
  as far as the blank-input test needs it. White space is the ECMAScript
  WhiteSpace and LineTerminator set. Its contracts show that `Trim` cuts a run
  of white space from each end and nothing more, and that an input is blank
  exactly when every character is white space.
- `Chat` (`chat.dfy`) holds the `Message` and `ChatSession` records and the
  `user`/`bot` sender.
- `SessionStore` (`session_store.dfy`) treats the whole state as a value. It
  has one function per handler, an `Event` type and `Run`, which applies a
  sequence of events in order. Each function keeps the invariant that no
  archived session is empty. The lemmas cover every event sequence: the
  invariant holds, history only grows by appending, and history grows by at
  most one session per new-chat event.
- `AppComponent` (`app.dfy`) holds the class `App`, with the five state
  fields and one `modifies this` method per handler. Each method spells out
  every field of its new state. It also states that its new `State()` equals
  the matching `SessionStore` function applied to the old state. So every
  `SessionStore` lemma holds of any sequence of method calls. The client
  method `ReloadScenario` proves one such sequence from the method
  contracts alone.

`handleSubmit` is split at its `await` into two methods. `SubmitUser(now)`
runs up to the advice call and returns the text to send, or `None` when the
input is blank. `RecordBotReply(text, now)` runs after the call, with the
advice text passed in. Each call to `Date.now()` is replaced by a `now`
parameter. The handlers run one at a time, and each one is a single atomic
update.

The bot's reply goes to whichever session is active when it arrives, because
the source updates the session through `prev =>`. So if a new chat is started
while a reply is pending, the reply lands in the new session. `Run` captures
this whenever a `NewChatClicked` event comes between `Submitted` and
`Replied`.

Loading an archived session leaves it in the history. Starting a new chat
afterwards archives it a second time. The model keeps this behaviour, and
`ReloadThenNewChatDuplicates` proves it.

## Model

| member | source | states |
|---|---|---|
| JsString.TrimStart | src/App.tsx:33 | the result is a suffix of the input, everything cut off is white space, and the result does not start with white space |
| JsString.TrimEnd | src/App.tsx:33 | the result is a prefix of the input, everything cut off is white space, and the result does not end with white space |
| JsString.Trim | src/App.tsx:33 | `input.trim()` is no longer than the input, and neither of its ends is white space |
| JsString.TrimIsSlice | src/App.tsx:33 | `Trim(s)` is a contiguous slice of `s`, and everything before and after it is white space |
| JsString.IsBlank | src/App.tsx:33 | `s.trim() === ''` holds exactly when every character of `s` is white space |
| Chat.IsArchivable | src/App.tsx:54 | the `currentSession.messages.length > 0` test: a session may be archived only when it holds a message |
| SessionStore.Valid | src/App.tsx:20 | the store invariant: every session in `chatHistory` holds at least one message |
| SessionStore.Initial | src/App.tsx:18-22 | the state at mount (empty input, empty session, empty history, both flags off) satisfies the invariant |
| SessionStore.SetInput | src/App.tsx:174 | typing keeps the invariant and leaves the history alone |
| SessionStore.SubmitUser | src/App.tsx:31-41 | submitting keeps the invariant and leaves the history alone |
| SessionStore.RecordBotReply | src/App.tsx:44-50 | recording the reply keeps the invariant and leaves the history alone |
| SessionStore.StartNewChat | src/App.tsx:53-58 | a new chat keeps the invariant; the old history is a prefix of the new one, which is at most one longer |
| SessionStore.LoadChatSession | src/App.tsx:60-63 | loading a session keeps the invariant and leaves the history exactly as it was, contents and order |
| SessionStore.ToggleHistory | src/App.tsx:87 | the toggle keeps the invariant and leaves the history alone |
| SessionStore.Step | src/App.tsx:31-63 | every handler keeps the invariant and only appends to the history; only a new chat changes it, by at most one session |
| SessionStore.Run | src/App.tsx:20 | for any sequence of handler calls, no empty session is ever archived, the history only grows by appending, and it grows by at most one per new chat |
| SessionStore.HistoryFixedWithoutNewChat | src/App.tsx:53-63 | a run of events with no new chat leaves the history exactly as it was |
| SessionStore.SubmitByContent | src/App.tsx:33-39 | an all-white-space (or empty) input leaves the whole state unchanged; any other input appends exactly one user message, with the raw untrimmed text and id `now` |
| SessionStore.FullTurn | src/App.tsx:31-51 | a non-blank submit followed by its reply appends the user message and then the bot message (id `later + 1`), keeps the session id, clears the input, ends with the typing indicator off, and leaves the history and the pane flag unchanged |
| SessionStore.HeadacheExample | src/App.tsx:31-51 | from a fresh store, submitting "I have a headache" and receiving "Take paracetamol" gives exactly those two messages: user first, then bot |
| SessionStore.ReloadThenNewChatDuplicates | src/App.tsx:53-63 | loading an archived session and then starting a new chat appends that session to the history again, so it appears there at least twice |
| SessionStore.NewChatTwiceArchivesOnce | src/App.tsx:53-58 | a second new chat right after the first archives nothing, because the fresh session is empty |
| AppComponent.App.constructor | src/App.tsx:18-22 | the initial fields: empty input, session `{id: now, messages: []}`, empty history, both flags off |
| AppComponent.App.SetInput | src/App.tsx:174 | the input becomes the typed text and nothing else changes |
| AppComponent.App.SubmitUser | src/App.tsx:31-43 | a blank input changes nothing and returns `None`; otherwise it appends exactly one message `{id: now, text: input, sender: user}` to the active session, keeps the session id and the earlier messages, clears the input, turns typing on, leaves history and pane flag alone, and returns the raw input as the advice request |
| AppComponent.App.RecordBotReply | src/App.tsx:44-50 | turns typing off and appends exactly one message `{id: now + 1, text, sender: bot}` to the active session; the session id, earlier messages, history, input and pane flag are unchanged |
| AppComponent.App.StartNewChat | src/App.tsx:53-58 | a non-empty active session is appended to the end of the history, while an empty one leaves the history unchanged; the new active session is `{id: now, messages: []}`; input and both flags are unchanged; the invariant is kept |
| AppComponent.App.LoadChatSession | src/App.tsx:60-63 | the given session becomes active and the pane closes; history, input and typing flag are unchanged |
| AppComponent.App.ToggleHistory | src/App.tsx:87 | `showHistory` is flipped and nothing else changes |
| AppComponent.ReloadScenario | src/App.tsx:31-63 | from the method contracts alone: after one full turn, a new chat, reloading the archived session and a second new chat, the history holds that session twice, and the submission sent the raw complaint to the advice service |

## Left out

- `ChatBot.getMedicalAdvice` (src/components/ChatBot.ts) is not part of this model. It is an HTTP call to an external text-generation service. Its reply is an opaque string argument of `RecordBotReply`. Trimming the generated text and the fixed fallback string for failed requests are therefore not modelled, and neither is the prompt text.
- The clock: each `Date.now()` is a `now` parameter. Ids are read from the clock and nothing makes them distinct, so the model proves nothing about ids being unique.
- Concurrency across the `await`: two submissions overlapping while their requests are pending, with replies arriving in any order. The model runs the handlers one after another.
- React's update scheduling: the difference between `prev =>` updates and the `currentSession` captured by `startNewChat`. Each handler is one atomic update of the current state.
- Rendering, animation, `scrollToBottom` with its `useEffect`, date formatting with `toLocaleString`, and `e.preventDefault()`. None of these changes the store.
- Strings are sequences of Unicode scalar values, not JavaScript's UTF-16 code units. This makes no difference to which characters `trim` removes: all of them lie in the Basic Multilingual Plane.
