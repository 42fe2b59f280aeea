# Voice tutor turn-taking, in Dafny

This project models the browser side of the AI voice tutor, `static/script.js`. That
script is one closure. It holds three flags (`isListening`, `isThinking`, `isSpeaking`), the
conversation log `chatHistory`, the message list on the page, the status indicator, the
record and clear buttons, and the log persisted in `localStorage`. The browser's speech
recognition, speech synthesis and `fetch` drive it through event handlers. The model covers:

- `updateUIState`, the single place where the state, the status text, both buttons and the
  three flags are set;
- the history functions `loadHistory`, `saveHistory`, `clearHistory` and `addMessage`;
- the recognition handlers `onstart`, `onresult`, `onerror` and `onend`;
- `speakText` / `proceedWithSpeech` and the utterance handlers;
- `sendToBackend`, with its context window (the last six entries, minus earlier failure
  texts, mapped to `user` / `model` roles) and its choice of error message;
- the record button's click handler.

The model has two layers:

- **Module `TurnTaking`** states each handler as a function from the page state (`View`)
  to the page state it leaves. The same module defines `Step` and `Run`, the event loop
  that delivers one event at a time. It also defines `Inv`:
  - the flags agree with the last state set and at most one of them holds;
  - the record button is disabled exactly while thinking, speaking, or when recognition is
    missing;
  - the clear button is enabled only for a non-empty log;
  - every log entry is on screen, in order, and the welcome message can only be the first
    bubble;
  - the stored log is nothing or a prefix of the in-memory log.

  `Step` and `Tutor.Session.RecordClick` run the corrected click handler `ClickAction`
  described under "## Findings", which checks that synthesis exists before reading
  `speechSynthesis.speaking`. The handler as written is `ClickActionAsWritten`.
  `ClickAsWrittenAgrees` shows that the two take the same action whenever synthesis exists.

  `TurnProperties` proves that every handler and every run of events preserves `Inv`. It
  also proves what whole turns do: a question turn records the trimmed question and the
  reply in that order, persists them, and returns to idle. `HandlerProperties` states the
  behaviour of each handler on its own.
- **Class `Tutor.Session`** keeps the closure's variables and the page's state as fields
  and updates them in place, one method per function or handler of the script. Each method
  is proved to leave exactly the state the matching `TurnTaking` function describes, and
  the handler methods keep `Valid()` (that is, `Inv`).

Small modules hold the rest:

- `Text`: JavaScript's `trim`, `startsWith` and decimal rendering;
- `Chat`: log entries and the context window;
- `Errors`: the recognition error messages and the backend error selection.

The following behaviours of the code are modelled as written:

- `onresult` appends the user's message before `sendToBackend` computes the context
  window. The window therefore includes the current question as its last entry, unless
  the question itself starts with the failure prefix below (`WindowEndsWithQuery`).
- `clearHistory` aborts a running capture, but a result that arrives afterwards is not
  suppressed. It is recorded and sent (`LateResultAfterClear`).
- The window filter drops entries starting with "Sorry, couldn't get a response.". The
  script's own failure text is "Sorry, an error occurred: ...", and failures never enter the
  log. So the filter drops only a question or reply that happens to start with that text.
- A failing utterance first shows "Speech error: X". The rejected promise then reaches the
  `catch` of the waiting `sendToBackend`, which adds an error bubble and shows "Error: X".
  The model takes both as one step.
- An utterance that ends without having started resolves the promise but leaves the state
  as it was, which can be Thinking.
- Saving the AI's reply enables the clear button while the page is still thinking. The
  button stays enabled until speech starts.
- Without recognition, start-up shows the "not supported" error, but the `loadHistory` call
  that follows overwrites it with Idle. The record button stays disabled.
- A stored empty string is falsy to `if (savedHistory)` and counts as no stored log.

## Model

The handler functions of `TurnTaking` (`Load`, `Save`, `AddMessage`, `AfterClear`,
`AfterClick`, `AfterResult`, `AfterRecError`, `AfterRecEnd`, `AfterSpeak`, `Fail`,
`AfterResponse`, `AfterSpeechStart`, `AfterSpeechEnd`, `AfterSpeechError`, `Step`,
`Initial`, `ClickActionAsWritten`) carry no contract of their own. They are covered by the
`Tutor.Session` row of the method that implements each one, and by the lemmas about them.

| member | source | states |
|---|---|---|
| `Text.Trim` | static/script.js:234 | the trimmed transcript is no longer than the input and neither starts nor ends with white space |
| `Text.TrimIsInfix` | static/script.js:234 | what `trim` keeps is a contiguous slice of the input with only white space before and after it |
| `Text.TrimEmptyIff` | static/script.js:235 | the trimmed transcript is empty (falsy) exactly when the transcript is all white space |
| `Text.TrimIdempotent` | static/script.js:234 | trimming an already trimmed text changes nothing |
| `Text.NatToDecimal` | static/script.js:358 | the rendered status code is a non-empty run of digits without a leading zero |
| `Text.DecimalRoundTrip` | static/script.js:358 | reading the rendered status code back gives the status |
| `Chat.Recent` | static/script.js:344 | `slice(-6)` keeps the last six entries, or all entries when there are fewer |
| `Chat.Kept` | static/script.js:345 | the filter keeps only entries not starting with the failure prefix, and never adds any |
| `Chat.ContextWindow` | static/script.js:343-346 | the window has at most six parts and no more than the log; no part starts with the failure prefix; every role is `user` or `model` |
| `Chat.KeptSpec` | static/script.js:345 | the filter result is an order-preserving subsequence of its input, and contains every entry that passes |
| `Chat.KeptAppend` | static/script.js:345 | filtering distributes over concatenation |
| `Chat.KeptClean` | static/script.js:345 | a slice with no failure entries passes the filter unchanged |
| `Chat.WindowOfCleanHistory` | static/script.js:343-346 | without failure entries, the window is exactly the last `min(6, n)` entries, in order, with `user` kept and every other sender sent as `model` |
| `Chat.WindowMembership` | static/script.js:343-346 | every recent entry that passes the filter is sent |
| `Chat.WindowFromRecent` | static/script.js:343-346 | the window is an order-preserving subsequence of the last six entries' parts, and each of its parts comes from a passing entry among them |
| `Chat.WindowEndsWithQuery` | static/script.js:343-346 | after a user message is appended, the window's last part is that message with role `user`, unless the message starts with "Sorry, couldn't get a response." |
| `Errors.RecErrorMessage` | static/script.js:247-256 | the three known codes get their fixed texts; any other code shows the event's message, or the code when the message is missing; a non-empty code never gives an empty message |
| `Errors.BackendError` | static/script.js:357-374 | no error exactly for an OK response with a non-empty reply; a network failure keeps its message; a non-OK status prefers the body's non-empty `error`, and its message is never empty; an OK response with no reply gives "Received empty reply from AI." |
| `Errors.ServerErrorNamesStatus` | static/script.js:358 | without a body error, the message is "Server error (" + the status in decimal + ")" |
| `TurnTaking.WithUi` | static/script.js:41-97 | `updateUIState`: the class is set; exactly the matching flag holds; the record button is disabled in thinking or speaking, or outside listening when recognition is missing; the clear button is disabled in the busy states or with an empty log; errors read "Error: ..."; a given message is shown as is; log, screen, store and utterance are untouched |
| `TurnTaking.ClickAction` | static/script.js:393-411 | stop exactly while listening; start exactly when recognition exists and no flag is set; a start that throws is a failed start; speech is cancelled exactly when synthesis exists and is speaking |
| `TurnTaking.SpeakOutcomeOf` | static/script.js:273-295 | empty text is rejected; playback starts exactly for non-empty text with synthesis present; the previous utterance is cancelled exactly when one was speaking |
| `TurnProperties.WithUiInv` | static/script.js:41-97 | any `updateUIState` call restores the flag and button invariant, whatever the state before |
| `TurnProperties.AddMessageInv` | static/script.js:184-195 | adding a non-welcome message keeps the invariant |
| `TurnProperties.SaveInv` | static/script.js:158-166 | saving a non-empty log, successfully or not, keeps the invariant |
| `TurnProperties.FailInv` | static/script.js:376-383 | the `catch` block of `sendToBackend` keeps the invariant |
| `TurnProperties.LoadInv` | static/script.js:113-156 | `loadHistory` establishes the invariant from any state and any stored payload |
| `TurnProperties.InitialInv` | static/script.js:425 | the page starts, with or without recognition, in a state satisfying the invariant |
| `TurnProperties.StepInv` | static/script.js:228-418 | every event the browser can deliver keeps the invariant |
| `TurnProperties.ClickInv` | static/script.js:393-411 | the record click keeps the invariant |
| `TurnProperties.ClearInv` | static/script.js:168-179 | a confirmed clear establishes the invariant |
| `TurnProperties.SpeechErrorInv` | static/script.js:320-324 | an utterance error, with the failure branch it triggers, keeps the invariant |
| `TurnProperties.ResponseInv` | static/script.js:339-387 | every outcome of the backend exchange keeps the invariant |
| `TurnProperties.RunInv` | static/script.js:228-418 | any sequence of events keeps the invariant |
| `TurnProperties.InitialNonEmpty` | static/script.js:113-156 | start-up from a stored log without empty texts gives a log and store without empty texts |
| `TurnProperties.AddMessageNonEmpty` | static/script.js:184-195 | adding and saving a message with non-empty text keeps the log and store free of empty entries |
| `TurnProperties.ResultNonEmpty` | static/script.js:233-243 | `onresult` keeps the log and store free of empty entries, since it records the trimmed transcript only when that is non-blank |
| `TurnProperties.ResponseNonEmpty` | static/script.js:366-374 | the end of the exchange keeps the log and store free of empty entries, since it records the reply only when that is non-empty |
| `TurnProperties.StepNonEmpty` | static/script.js:228-418 | every event keeps the log and store free of empty entries |
| `TurnProperties.RunNonEmpty` | static/script.js:228-418 | any sequence of events keeps the log and store free of empty entries |
| `TurnProperties.AtMostOneFlag` | static/script.js:49-95 | in every reachable state at most one of `isListening`, `isThinking` and `isSpeaking` holds, and none in idle or error |
| `TurnProperties.RunAppend` | static/script.js:228-418 | delivering two event sequences one after the other is delivering their concatenation |
| `TurnProperties.ClickFromRest` | static/script.js:397-404 | in idle or error with nothing speaking, a click starts capture and changes nothing until `onstart` |
| `TurnProperties.ResultStep` | static/script.js:233-243 | a non-blank result appends the trimmed question and leaves the page thinking |
| `TurnProperties.ReplyStep` | static/script.js:366-371 | a reply is recorded and stored before playback starts |
| `TurnProperties.RecEndStep` | static/script.js:260-267 | recognition ending outside listening changes nothing |
| `TurnProperties.SpeechStartStep` | static/script.js:305-309 | utterance start marks the utterance started, shows speaking and sets the speaking flag; the log and storage are unchanged |
| `TurnProperties.SpeechEndStep` | static/script.js:311-318 | the end of a started utterance returns to idle and settles the pending promise; the log and storage are unchanged |
| `TurnProperties.AskRun` | static/script.js:229-243 | click, capture start and a non-blank result, from idle or error, leave the trimmed question recorded and capture over |
| `TurnProperties.AnswerRun` | static/script.js:260-318 | recognition end, a reply and its playback leave the reply recorded and stored and the page idle |
| `TurnProperties.CompletedTurn` | static/script.js:228-387 | a full turn from idle or error records the trimmed question and then the reply, persists both, keeps the invariant and ends idle |
| `TurnProperties.CompletedTurns` | static/script.js:228-387 | any number of full turns append their exchanges to the log, in order, and keep the invariant |
| `TurnProperties.ExchangesAlternate` | static/script.js:233-371 | in the log of n turns, entry 2k is the k-th trimmed question from `user` and entry 2k+1 the k-th reply from `ai` |
| `TurnProperties.ExchangeAt` | static/script.js:233-371 | the k-th turn's question and reply sit at positions 2k and 2k+1 |
| `HandlerProperties.ClickAdmission` | static/script.js:393-411 | capture is started only from idle or error; stop and ignored clicks change no state; a start changes no log; a failed start shows "Error: Couldn't start microphone." |
| `HandlerProperties.ResultAppendsThenSends` | static/script.js:233-243 | a blank transcript changes nothing and sends nothing; otherwise the trimmed text is appended as a `user` entry, the page is thinking, and the request carries it with the window of the updated log |
| `HandlerProperties.ResultWindowEndsWithQuery` | static/script.js:233-243 | the request of a non-blank result carries the trimmed text as query and as the window's last `user` part, unless the trimmed text starts with "Sorry, couldn't get a response." |
| `HandlerProperties.RecErrorShowsMessage` | static/script.js:245-258 | a recognition error shows "Error: " + its mapped message, clears all flags and leaves log and screen alone |
| `HandlerProperties.RecEndNeverOverrides` | static/script.js:260-267 | recognition ending returns to idle only from listening, and otherwise changes nothing |
| `HandlerProperties.FailureNotRecorded` | static/script.js:376-383 | a failed exchange adds "Sorry, an error occurred: " + its message to the screen only, never to the log or the store, and shows "Error: " + the message |
| `HandlerProperties.ReplyRecordedBeforeSpeech` | static/script.js:366-371 | a reply is appended to the log as an `ai` entry and, when saved, stored before playback; with synthesis the state is unchanged until the utterance starts |
| `HandlerProperties.ReplyWithoutSynthesis` | static/script.js:279-283 | without synthesis a reply ends in "Error: Speech Synthesis not supported" |
| `HandlerProperties.ReplyUnfolds` | static/script.js:369-374 | unfolding of `AfterResponse` for a non-empty reply: the reply is added, then spoken, and a rejected playback goes to the failure branch |
| `HandlerProperties.ServerErrorWithBody` | static/script.js:357-364 | a non-OK response with a body error shows that error on screen and in the status, and records nothing |
| `HandlerProperties.SpeakRejectsEmpty` | static/script.js:275-278 | empty text is rejected with "Invalid text for speech" and changes nothing |
| `HandlerProperties.SpeechEndOnlyAfterStart` | static/script.js:311-318 | the end of an utterance settles the promise and returns to idle only if the utterance had started; otherwise it changes nothing else |
| `HandlerProperties.SpeechErrorEndsInError` | static/script.js:320-324 | an utterance error ends in error without touching the log; if `sendToBackend` was waiting, its failure bubble and message follow, otherwise "Error: Speech error: " + code stays |
| `HandlerProperties.LoadCases` | static/script.js:113-156 | a non-empty stored array is loaded with one non-welcome bubble per entry; an empty array, a missing entry, a parse error and a non-array all give an empty log and the welcome bubble; the last two remove the entry; the page ends idle, and clear is disabled exactly for an empty log |
| `HandlerProperties.ClearResets` | static/script.js:168-179 | a confirmed clear aborts capture and cancels speech only when they are running, empties log and store, shows only the welcome message and "History Cleared"; an unconfirmed clear does nothing |
| `HandlerProperties.ClearThenLoad` | static/script.js:168-179 | reloading after a clear still gives the empty log and the welcome message |
| `HandlerProperties.LateResultAfterClear` | static/script.js:170-171 | clearing while listening aborts capture, yet a late result is still recorded as the only log entry and sent |
| `HandlerProperties.StartupWithoutRecognition` | static/script.js:28-33 | without recognition the page ends start-up in Idle, the error text overwritten, with the record button disabled |
| `HandlerProperties.ClickAsWrittenAgrees` | static/script.js:399 | with synthesis present, the handler as written and the guarded one take the same action |
| `HandlerProperties.ClickAsWrittenNeverStarts` | static/script.js:399 | without synthesis, the handler as written throws before starting capture from a resting state; the guarded one starts (or fails to start) capture |
| `Tutor.Session.constructor` | static/script.js:20-33 | start-up leaves exactly `Initial`: the recognition check, then `loadHistory`, in a valid state |
| `Tutor.Session.UpdateUIState` | static/script.js:41-97 | the switch sets the fields to exactly `WithUi` of the old state |
| `Tutor.Session.LoadHistory` | static/script.js:113-156 | the fields become exactly `Load` of the old state |
| `Tutor.Session.DrawMessages` | static/script.js:128-129 | the `forEach` draws one non-welcome bubble per loaded entry, in order |
| `Tutor.Session.SaveHistory` | static/script.js:158-166 | exactly `Save`: on success the store holds the log and clear follows its emptiness; on failure nothing changes |
| `Tutor.Session.AddMessage` | static/script.js:184-195 | exactly `AddMessage`: the bubble is drawn, and a non-welcome message is logged and saved |
| `Tutor.Session.ClearHistory` | static/script.js:168-179 | exactly `AfterClear`, reporting what was aborted and cancelled; valid afterwards |
| `Tutor.Session.OnRecStart` | static/script.js:229-231 | exactly `AfterRecStart`; valid afterwards |
| `Tutor.Session.OnRecResult` | static/script.js:233-243 | exactly `AfterResult`, returning the request `ResultRequest` describes; valid afterwards |
| `Tutor.Session.SendToBackend` | static/script.js:339-354 | sets thinking and posts the query with the context window of the current log |
| `Tutor.Session.OnRecError` | static/script.js:245-258 | exactly `AfterRecError`; valid afterwards |
| `Tutor.Session.OnRecEnd` | static/script.js:260-267 | exactly `AfterRecEnd`; valid afterwards |
| `Tutor.Session.SpeakText` | static/script.js:273-333 | exactly `AfterSpeak`, returning `SpeakOutcomeOf` |
| `Tutor.Session.OnBackend` | static/script.js:350-383 | exactly `AfterResponse` for the outcome of the exchange; valid afterwards |
| `Tutor.Session.ShowFailure` | static/script.js:376-383 | exactly `Fail`: the error bubble is drawn and the error shown |
| `Tutor.Session.OnSpeechStart` | static/script.js:305-309 | exactly `AfterSpeechStart`; valid afterwards |
| `Tutor.Session.OnSpeechEnd` | static/script.js:311-318 | exactly `AfterSpeechEnd`; valid afterwards |
| `Tutor.Session.OnSpeechError` | static/script.js:320-324 | exactly `AfterSpeechError`; valid afterwards |
| `Tutor.Session.RecordClick` | static/script.js:393-411 | exactly `ClickAction` and `AfterClick`, with the synthesis guard; valid afterwards |
| `Tutor.Session.Handle` | static/script.js:228-418 | delivering an event is exactly `Step`; valid afterwards |

## Left out

- Page layout and rendering are abstracted: bubbles are `(sender, text, welcome)` triples.
  The `<br>` substitution, CSS classes other than the state, and scrolling (with its 50 ms
  timer) are not modelled.
- The guards against missing page elements (lines 42-45, 116-119, 200) are not modelled;
  the page is taken to be complete.
- `localStorage`, `JSON.parse` and `JSON.stringify` are abstracted to a `Payload`: absent,
  unparsable, not an array, or an array of entries. Whether `setItem` succeeds is a
  parameter. Array elements that are not `{sender, text}` objects are not modelled.
- `confirm` is a boolean parameter. `speechSynthesis.speaking` and whether
  `recognition.start()` throws are parameters too. The recognised transcript is a string
  parameter.
- `fetch` and `response.json()` are abstracted to an `Outcome`: a network or parse failure
  with a message, a non-OK status with an optional body error, or OK with an optional reply.
  A reply that is not a string is not modelled.
- The 50 ms delay before speaking after a cancel is taken as part of the same step. So is
  the rejection of the awaited promise reaching the `catch` of `sendToBackend`.
- Handlers of an utterance that a newer utterance superseded are not told apart from the
  current one's. The model keeps one utterance's `speechStarted`.
- Console logging and the recognition and utterance settings (language, rate, pitch) have
  no effect on the modelled state.
- `app.py` is not part of this model.

## Findings

| source | as written | input that shows it | evidently intended | confidence | as-written member | corrected member |
|---|---|---|---|---|---|---|
| static/script.js:399 | the record click reads `speechSynthesis.speaking` without checking that synthesis exists | a browser with recognition but without `speechSynthesis`, click from idle: the read throws a TypeError and capture never starts | check `speechSynthesis` first, as `clearHistory` does at line 172, so capture still starts | not executed | `TurnTaking.ClickActionAsWritten`, shown by `HandlerProperties.ClickAsWrittenNeverStarts` | `TurnTaking.ClickAction`, used by `Tutor.Session.RecordClick` |
