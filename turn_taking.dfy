/**
 * The turn-taking state of the voice tutor page, as values: everything the
 * page script's closure keeps, one function per handler saying what that
 * handler leaves behind, and the event loop that delivers one event at a time.
 * The `Session` class in module Tutor is proved against these functions.
 */
module TurnTaking {
  import opened Wrappers
  import opened Text
  import opened Seqs
  import opened Chat
  import opened Errors

  /** The five states `updateUIState` accepts; the status indicator's class names the last one set. */
  datatype UiState = Idle | Listening | Thinking | Speaking | Error

  /** One entry of the on-screen message list. */
  datatype Bubble = Bubble(sender: string, text: string, welcome: bool)

  /**
   * What reading the history key and `JSON.parse` give: nothing (no key, or
   * an empty string), a parse error, a value that is not an array, or an array.
   */
  datatype Payload = Absent | ParseError | NotArray | Array(msgs: seq<Msg>)

  /** Whether the browser offers speech recognition and speech synthesis. */
  datatype Env = Env(hasRecognition: bool, hasSynthesis: bool)

  /**
   * The page state. `speechStarted` is the `speechStarted` flag of the
   * current utterance; `speechPending` says that `sendToBackend` is still
   * awaiting the promise `speakText` returned.
   */
  datatype View = View(
    ui: UiState,
    status: string,
    isListening: bool,
    isThinking: bool,
    isSpeaking: bool,
    recordDisabled: bool,
    clearDisabled: bool,
    history: seq<Msg>,
    display: seq<Bubble>,
    stored: Payload,
    speechStarted: bool,
    speechPending: bool)

  const WelcomeText := "Hello! I'm ready to help. Click the microphone to ask a question."
  const Welcome := Bubble("ai", WelcomeText, true)

  /** What the failure branch of `sendToBackend` puts before the error's message on screen. */
  const DisplayErrorPrefix := "Sorry, an error occurred: "

  const StartFailedText := "Couldn't start microphone."
  const ClearedText := "History Cleared"

  // ---------------------------------------------------------------------
  //  updateUIState
  // ---------------------------------------------------------------------

  /** The status text; an empty `message` stands for a missing one. */
  function StatusText(s: UiState, message: string): string {
    match s
    case Idle => if message != "" then message else "Idle"
    case Listening => if message != "" then message else "Listening..."
    case Thinking => if message != "" then message else "Thinking..."
    case Speaking => if message != "" then message else "Speaking..."
    case Error => "Error: " + (if message != "" then message else "Unknown error")
  }

  /** `updateUIState(s, message)`. */
  function WithUi(v: View, env: Env, s: UiState, message: string): (w: View)
    ensures w.ui == s
    ensures w.isListening == (s == Listening) && w.isThinking == (s == Thinking) && w.isSpeaking == (s == Speaking)
    ensures w.recordDisabled <==> s == Thinking || s == Speaking || (s != Listening && !env.hasRecognition)
    ensures w.clearDisabled <==> s == Listening || s == Thinking || s == Speaking || v.history == []
    ensures s == Error ==> StartsWith(w.status, "Error: ")
    ensures s != Error && message != "" ==> w.status == message
    ensures w.history == v.history && w.display == v.display && w.stored == v.stored
    ensures w.speechStarted == v.speechStarted && w.speechPending == v.speechPending
  {
    var status := StatusText(s, message);
    match s
    case Idle =>
      v.(ui := s, status := status, recordDisabled := !env.hasRecognition, clearDisabled := |v.history| == 0,
         isListening := false, isThinking := false, isSpeaking := false)
    case Listening =>
      v.(ui := s, status := status, recordDisabled := false, clearDisabled := true,
         isListening := true, isThinking := false, isSpeaking := false)
    case Thinking =>
      v.(ui := s, status := status, recordDisabled := true, clearDisabled := true,
         isListening := false, isThinking := true, isSpeaking := false)
    case Speaking =>
      v.(ui := s, status := status, recordDisabled := true, clearDisabled := true,
         isListening := false, isThinking := false, isSpeaking := true)
    case Error =>
      v.(ui := s, status := status, recordDisabled := !env.hasRecognition, clearDisabled := |v.history| == 0,
         isListening := false, isThinking := false, isSpeaking := false)
  }

  // ---------------------------------------------------------------------
  //  History: loadHistory, saveHistory, addMessage, clearHistory
  // ---------------------------------------------------------------------

  /** The message list `loadHistory` draws for loaded entries. */
  function Bubbles(h: seq<Msg>): seq<Bubble> {
    seq(|h|, i requires 0 <= i < |h| => Bubble(h[i].sender, h[i].text, false))
  }

  /** `loadHistory()`. */
  function Load(v: View, env: Env): View {
    var historyLoaded := v.stored.Array? && |v.stored.msgs| > 0;
    var history := if historyLoaded then v.stored.msgs else [];
    var stored := if v.stored.ParseError? || v.stored.NotArray? then Absent else v.stored;
    var display := if historyLoaded then Bubbles(history) else [Welcome];
    var w := WithUi(v.(history := history, display := display, stored := stored), env, Idle, "");
    w.(clearDisabled := |w.history| == 0)
  }

  /** `saveHistory()`; `ok` says whether `setItem` succeeded. */
  function Save(v: View, ok: bool): View {
    if ok then v.(stored := Array(v.history), clearDisabled := |v.history| == 0) else v
  }

  /** `addMessage(sender, text, isWelcome)`; `saveOk` is passed on to the save. */
  function AddMessage(v: View, sender: string, text: string, isWelcome: bool, saveOk: bool): View {
    var shown := v.(display := v.display + [Bubble(sender, text, isWelcome)]);
    if isWelcome then shown else Save(shown.(history := v.history + [Msg(sender, text)]), saveOk)
  }

  /** What a confirmed clear stops: capture is aborted, playback cancelled. */
  datatype Cancellation = Cancellation(aborted: bool, cancelled: bool)

  function ClearEffects(v: View, env: Env, confirmed: bool): Cancellation {
    if confirmed then Cancellation(v.isListening && env.hasRecognition, v.isSpeaking && env.hasSynthesis)
    else Cancellation(false, false)
  }

  /** `clearHistory()`; `confirmed` is the answer to the confirmation dialog. */
  function AfterClear(v: View, env: Env, confirmed: bool): View {
    if confirmed then WithUi(Load(v.(stored := Absent), env), env, Idle, ClearedText) else v
  }

  // ---------------------------------------------------------------------
  //  The record button
  // ---------------------------------------------------------------------

  /** What a click on the record button does. */
  datatype Click =
    | StopCapture                         // recognition.stop()
    | StartCapture(cancelledSpeech: bool) // recognition.start(), after cancelling speech if it said so
    | StartFailed(cancelledSpeech: bool)  // recognition.start() threw
    | Ignored

  /**
   * The click handler. It is only installed when recognition exists.
   * `synthSpeaking` is `speechSynthesis.speaking`; `startFails` says whether
   * `recognition.start()` throws. Speech is cancelled only when synthesis
   * exists (the handler as written reads `speaking` unguarded; see
   * ClickActionAsWritten).
   */
  function ClickAction(v: View, env: Env, synthSpeaking: bool, startFails: bool): (c: Click)
    ensures c.StopCapture? <==> env.hasRecognition && v.isListening
    ensures c.StartCapture? || c.StartFailed? <==>
      env.hasRecognition && !v.isListening && !v.isThinking && !v.isSpeaking
    ensures c.StartFailed? ==> startFails
    ensures c.StartCapture? ==> !startFails
    ensures c.StartCapture? || c.StartFailed? ==> (c.cancelledSpeech <==> env.hasSynthesis && synthSpeaking)
  {
    if !env.hasRecognition then Ignored
    else if v.isListening then StopCapture
    else if !v.isThinking && !v.isSpeaking then
      var cancelled := env.hasSynthesis && synthSpeaking;
      if startFails then StartFailed(cancelled) else StartCapture(cancelled)
    else Ignored
  }

  /**
   * The click handler exactly as written: it reads `speechSynthesis.speaking`
   * before starting capture without checking that synthesis exists. None
   * stands for the TypeError that read throws, which ends the handler.
   */
  function ClickActionAsWritten(v: View, env: Env, synthSpeaking: bool, startFails: bool): Option<Click> {
    if !env.hasRecognition then Some(Ignored)
    else if v.isListening then Some(StopCapture)
    else if !v.isThinking && !v.isSpeaking then
      if !env.hasSynthesis then None
      else if startFails then Some(StartFailed(synthSpeaking))
      else Some(StartCapture(synthSpeaking))
    else Some(Ignored)
  }

  function AfterClick(v: View, env: Env, synthSpeaking: bool, startFails: bool): View {
    match ClickAction(v, env, synthSpeaking, startFails)
    case StartCapture(cancelled) => if cancelled then WithUi(v, env, Idle, "") else v
    case StartFailed(cancelled) =>
      WithUi(if cancelled then WithUi(v, env, Idle, "") else v, env, Error, StartFailedText)
    case _ => v
  }

  // ---------------------------------------------------------------------
  //  Recognition handlers and the start of sendToBackend
  // ---------------------------------------------------------------------

  /** The request body `sendToBackend` posts. */
  datatype Request = Request(query: string, history: seq<Part>)

  /** The synchronous part of `sendToBackend(query)`: the state it sets before `fetch`. */
  function SendView(v: View, env: Env): View {
    WithUi(v, env, Thinking, "")
  }

  /** The request `sendToBackend(query)` posts from state `v`. */
  function SendRequest(v: View, query: string): Request {
    Request(query, ContextWindow(v.history))
  }

  function AfterRecStart(v: View, env: Env): View {
    WithUi(v, env, Listening, "")
  }

  /** `onresult` with the first alternative's transcript. */
  function AfterResult(v: View, env: Env, transcript: string, saveOk: bool): View {
    var userText := Trim(transcript);
    if userText != "" then SendView(AddMessage(v, "user", userText, false, saveOk), env) else v
  }

  /** The request `onresult` starts, if any. */
  function ResultRequest(v: View, env: Env, transcript: string, saveOk: bool): Option<Request> {
    var userText := Trim(transcript);
    if userText != "" then
      Some(SendRequest(SendView(AddMessage(v, "user", userText, false, saveOk), env), userText))
    else None
  }

  function AfterRecError(v: View, env: Env, code: string, message: string): View {
    WithUi(v, env, Error, RecErrorMessage(code, message))
  }

  function AfterRecEnd(v: View, env: Env): View {
    if v.isListening then WithUi(v, env, Idle, "") else v
  }

  // ---------------------------------------------------------------------
  //  speakText / proceedWithSpeech and the utterance handlers
  // ---------------------------------------------------------------------

  /** How the promise of `speakText` ends up, as far as it is decided at the call. */
  datatype SpeakOutcome =
    | Rejected(reason: string)
    | Started(cancelledPrevious: bool)

  /** The reasons `speakText` rejects with. */
  const EmptySpeechReason := "Invalid text for speech"
  const NoSynthesisReason := "Speech Synthesis not supported"

  /** `speakText(text)`: `synthSpeaking` is `speechSynthesis.speaking` at the call. */
  function SpeakOutcomeOf(env: Env, text: string, synthSpeaking: bool): (r: SpeakOutcome)
    ensures text == "" ==> r.Rejected?
    ensures r.Started? <==> text != "" && env.hasSynthesis
    ensures r.Started? ==> r.cancelledPrevious == synthSpeaking
  {
    // The reasons are written out rather than named by `EmptySpeechReason` and
    // `NoSynthesisReason`: they are the same strings, and literals keep the
    // proofs that unfold this function cheap.
    if text == "" then Rejected("Invalid text for speech")
    else if !env.hasSynthesis then Rejected("Speech Synthesis not supported")
    else Started(synthSpeaking)
  }

  /**
   * The state `speakText(text)` leaves. A cancel of the previous utterance
   * and the settle delay before the new one are one step here.
   */
  function AfterSpeak(v: View, env: Env, text: string): View {
    if text == "" then v
    else if !env.hasSynthesis then WithUi(v, env, Error, "Speech synthesis not supported.")
    else v.(speechStarted := false, speechPending := true)
  }

  /** The `catch` block of `sendToBackend` for an error with message `m`. */
  function Fail(v: View, env: Env, m: string): View {
    WithUi(v.(display := v.display + [Bubble("ai", DisplayErrorPrefix + m, false)]), env, Error, m)
  }

  /** The rest of `sendToBackend` once the exchange has ended with `o`. */
  function AfterResponse(v: View, env: Env, o: Outcome, saveOk: bool, synthSpeaking: bool): View {
    match BackendError(o)
    case Some(m) => Fail(v, env, m)
    case None =>
      var reply := o.reply.value;
      var w := AddMessage(v, "ai", reply, false, saveOk);
      match SpeakOutcomeOf(env, reply, synthSpeaking)
      case Rejected(reason) => Fail(AfterSpeak(w, env, reply), env, reason)
      case Started(_) => AfterSpeak(w, env, reply)
  }

  function AfterSpeechStart(v: View, env: Env): View {
    WithUi(v.(speechStarted := true), env, Speaking, "")
  }

  /** Utterance `onend`: back to idle only if it had started; the promise resolves either way. */
  function AfterSpeechEnd(v: View, env: Env): View {
    (if v.speechStarted then WithUi(v, env, Idle, "") else v).(speechPending := false)
  }

  /**
   * Utterance `onerror`, followed by the `catch` of the awaiting
   * `sendToBackend` when the promise was still pending.
   */
  function AfterSpeechError(v: View, env: Env, code: string): View {
    var w := WithUi(v, env, Error, "Speech error: " + code);
    if v.speechPending then Fail(w.(speechPending := false), env, code) else w
  }

  // ---------------------------------------------------------------------
  //  Start-up and the event loop
  // ---------------------------------------------------------------------

  /**
   * The state before `loadHistory` runs at start-up. The page's own initial
   * status, buttons and class are not part of the script; they are all
   * overwritten by the load.
   */
  function Boot(env: Env, saved: Payload): View {
    var blank := View(Idle, "", false, false, false, false, false, [], [], saved, false, false);
    if env.hasRecognition then blank
    else WithUi(blank, env, Error, "Speech recognition not supported.").(recordDisabled := true, clearDisabled := true)
  }

  function Initial(env: Env, saved: Payload): View {
    Load(Boot(env, saved), env)
  }

  /** One event as the browser delivers it; clicks on a disabled button are not delivered. */
  datatype Event =
    | RecordClicked(synthSpeaking: bool, startFails: bool)
    | ClearClicked(confirmed: bool)
    | RecStart
    | RecResult(transcript: string, saveOk: bool)
    | RecError(code: string, message: string)
    | RecEnd
    | Response(outcome: Outcome, saveOk: bool, synthSpeaking: bool)
    | SpeechStart
    | SpeechEnd
    | SpeechError(code: string)

  function Step(v: View, env: Env, e: Event): View {
    match e
    case RecordClicked(synthSpeaking, startFails) =>
      if v.recordDisabled then v else AfterClick(v, env, synthSpeaking, startFails)
    case ClearClicked(confirmed) =>
      if v.clearDisabled then v else AfterClear(v, env, confirmed)
    case RecStart => if env.hasRecognition then AfterRecStart(v, env) else v
    case RecResult(transcript, saveOk) => if env.hasRecognition then AfterResult(v, env, transcript, saveOk) else v
    case RecError(code, message) => if env.hasRecognition then AfterRecError(v, env, code, message) else v
    case RecEnd => if env.hasRecognition then AfterRecEnd(v, env) else v
    case Response(o, saveOk, synthSpeaking) => AfterResponse(v, env, o, saveOk, synthSpeaking)
    case SpeechStart => AfterSpeechStart(v, env)
    case SpeechEnd => AfterSpeechEnd(v, env)
    case SpeechError(code) => AfterSpeechError(v, env, code)
  }

  function Run(v: View, env: Env, events: seq<Event>): View
    decreases |events|
  {
    if events == [] then v else Run(Step(v, env, events[0]), env, events[1..])
  }

  // ---------------------------------------------------------------------
  //  The invariant
  // ---------------------------------------------------------------------

  /** The three flags and the record button agree with the last state set. */
  ghost predicate UiConsistent(v: View, env: Env) {
    && v.isListening == (v.ui == Listening)
    && v.isThinking == (v.ui == Thinking)
    && v.isSpeaking == (v.ui == Speaking)
    && (v.recordDisabled <==> v.ui == Thinking || v.ui == Speaking || (v.ui != Listening && !env.hasRecognition))
  }

  /**
   * The log is consistent with the screen and the store: every history
   * entry is on screen, in order; the welcome message can only be the first
   * entry on screen; and what is stored is nothing or a prefix of the
   * history (a failed save leaves the store behind, never ahead).
   */
  ghost predicate LogConsistent(v: View) {
    && Subsequence(Bubbles(v.history), v.display)
    && (forall i :: 0 < i < |v.display| ==> !v.display[i].welcome)
    && (v.stored.Absent? || (v.stored.Array? && IsPrefix(v.stored.msgs, v.history)))
  }

  ghost predicate Inv(v: View, env: Env) {
    && UiConsistent(v, env)
    && (!v.clearDisabled ==> v.history != [])
    && LogConsistent(v)
  }
}
