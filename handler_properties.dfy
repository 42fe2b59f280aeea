/** What each handler of the page script promises on its own. */
module HandlerProperties {
  import opened Wrappers
  import opened Text
  import opened Chat
  import opened Errors
  import opened TurnTaking

  /**
   * The record button stops capture when listening, starts it only from idle
   * or error, and otherwise changes nothing; a start that throws ends in error.
   */
  lemma ClickAdmission(v: View, env: Env, synthSpeaking: bool, startFails: bool)
    requires UiConsistent(v, env)
    ensures var c := ClickAction(v, env, synthSpeaking, startFails);
      var w := AfterClick(v, env, synthSpeaking, startFails);
      && (c.StartCapture? || c.StartFailed? ==> v.ui == Idle || v.ui == Error)
      && (c.StopCapture? || c.Ignored? ==> w == v)
      && (c.StartCapture? ==> w.history == v.history && w.ui == (if c.cancelledSpeech then Idle else v.ui))
      && (c.StartFailed? ==> w.ui == Error && w.status == "Error: " + StartFailedText && w.history == v.history)
  {
  }

  /**
   * A non-blank transcript appends exactly one user entry, then sends it with
   * the window of the history that already holds it; a blank one does nothing.
   */
  lemma ResultAppendsThenSends(v: View, env: Env, transcript: string, saveOk: bool)
    ensures var t := Trim(transcript);
      var w := AfterResult(v, env, transcript, saveOk);
      var req := ResultRequest(v, env, transcript, saveOk);
      && (t == "" ==> w == v && req == None)
      && (t != "" ==> && w.history == v.history + [Msg("user", t)]
                      && w.ui == Thinking
                      && req == Some(Request(t, ContextWindow(w.history))))
  {
    var t := Trim(transcript);
    if t != "" {
      var added := AddMessage(v, "user", t, false, saveOk);
      assert added.history == v.history + [Msg("user", t)];
      assert AfterResult(v, env, transcript, saveOk) == SendView(added, env);
    }
  }

  /** Unless it looks like an old failure, the question itself is the last part of the window it is sent with. */
  lemma ResultWindowEndsWithQuery(v: View, env: Env, transcript: string, saveOk: bool)
    requires Trim(transcript) != "" && !StartsWith(Trim(transcript), FailurePrefix)
    ensures var req := ResultRequest(v, env, transcript, saveOk);
      && req.Some? && req.value.query == Trim(transcript)
      && var parts := req.value.history; |parts| >= 1 && parts[|parts| - 1] == Part("user", Trim(transcript))
  {
    var t := Trim(transcript);
    var h := v.history + [Msg("user", t)];
    assert AddMessage(v, "user", t, false, saveOk).history == h;
    assert ResultRequest(v, env, transcript, saveOk) == Some(Request(t, ContextWindow(h)));
    WindowEndsWithQuery(v.history, t);
  }

  /** A recognition error ends in the error state with the mapped message and leaves the log alone. */
  lemma RecErrorShowsMessage(v: View, env: Env, code: string, message: string)
    requires code != ""
    ensures var w := AfterRecError(v, env, code, message);
      && w.ui == Error && !w.isListening && !w.isThinking && !w.isSpeaking
      && w.status == "Error: " + RecErrorMessage(code, message)
      && w.history == v.history && w.display == v.display
  {
  }

  /** Recognition `onend` returns to idle from listening and leaves any other state as it is. */
  lemma RecEndNeverOverrides(v: View, env: Env)
    requires UiConsistent(v, env)
    ensures var w := AfterRecEnd(v, env);
      && (v.ui == Listening ==> w.ui == Idle && w.history == v.history)
      && (v.ui != Listening ==> w == v)
  {
  }

  /**
   * A failed exchange shows its message on screen and in the status, ends in
   * error, and records nothing.
   */
  lemma FailureNotRecorded(v: View, env: Env, o: Outcome, saveOk: bool, synthSpeaking: bool)
    requires BackendError(o).Some?
    ensures var m := BackendError(o).value;
      var w := AfterResponse(v, env, o, saveOk, synthSpeaking);
      && w.history == v.history && w.stored == v.stored
      && w.display == v.display + [Bubble("ai", DisplayErrorPrefix + m, false)]
      && w.ui == Error
      && w.status == "Error: " + (if m != "" then m else "Unknown error")
  {
  }

  /**
   * A reply is recorded (and saved) before it is spoken; with synthesis the
   * state stays as it was until the utterance starts.
   */
  lemma ReplyRecordedBeforeSpeech(v: View, env: Env, reply: string, saveOk: bool, synthSpeaking: bool)
    requires reply != ""
    ensures var w := AfterResponse(v, env, Ok(Some(reply)), saveOk, synthSpeaking);
      && w.history == v.history + [Msg("ai", reply)]
      && (saveOk ==> w.stored == Array(w.history) && !w.clearDisabled)
      && (env.hasSynthesis ==> w.ui == v.ui && w.speechPending && !w.speechStarted)
  {
    ReplyUnfolds(v, env, reply, saveOk, synthSpeaking);
    var added := AddMessage(v, "ai", reply, false, saveOk);
    assert added.history == v.history + [Msg("ai", reply)];
    assert saveOk ==> added.stored == Array(added.history) && !added.clearDisabled;
    var spoken := AfterSpeak(added, env, reply);
    if !env.hasSynthesis {
      var w := Fail(spoken, env, NoSynthesisReason);
      assert w.history == spoken.history == added.history;
      assert w.stored == spoken.stored == added.stored;
      assert !w.clearDisabled;
    }
  }

  /**
   * Without synthesis a reply is still recorded, and the rejected speech
   * promise sends the exchange to the error state with the rejection reason.
   */
  lemma ReplyWithoutSynthesis(v: View, env: Env, reply: string, saveOk: bool, synthSpeaking: bool)
    requires !env.hasSynthesis && reply != ""
    ensures var w := AfterResponse(v, env, Ok(Some(reply)), saveOk, synthSpeaking);
      && w.ui == Error && w.status == "Error: " + NoSynthesisReason
  {
    ReplyUnfolds(v, env, reply, saveOk, synthSpeaking);
    var spoken := AfterSpeak(AddMessage(v, "ai", reply, false, saveOk), env, reply);
    assert Fail(spoken, env, NoSynthesisReason).status == StatusText(Error, NoSynthesisReason);
  }

  /** A successful exchange records the reply, then asks for it to be spoken. */
  lemma ReplyUnfolds(v: View, env: Env, reply: string, saveOk: bool, synthSpeaking: bool)
    requires reply != ""
    ensures var spoken := AfterSpeak(AddMessage(v, "ai", reply, false, saveOk), env, reply);
      AfterResponse(v, env, Ok(Some(reply)), saveOk, synthSpeaking)
        == if env.hasSynthesis then spoken else Fail(spoken, env, NoSynthesisReason)
  {
  }

  /** A server error whose body names the error shows that name. */
  lemma ServerErrorWithBody(v: View, env: Env, status: nat, e: string)
    requires e != ""
    ensures var w := AfterResponse(v, env, NotOk(status, Some(e)), true, false);
      && w.status == "Error: " + e
      && w.display[|w.display| - 1].text == DisplayErrorPrefix + e
      && w.history == v.history && w.ui == Error
  {
  }

  /** `speakText("")` rejects without touching the page or the synthesiser. */
  lemma SpeakRejectsEmpty(v: View, env: Env, synthSpeaking: bool)
    ensures SpeakOutcomeOf(env, "", synthSpeaking) == Rejected(EmptySpeechReason)
    ensures AfterSpeak(v, env, "") == v
  {
  }

  /** Utterance `onend` returns to idle only after `onstart`; it settles the promise either way. */
  lemma SpeechEndOnlyAfterStart(v: View, env: Env)
    ensures var w := AfterSpeechEnd(v, env);
      && !w.speechPending
      && (v.speechStarted ==> w.ui == Idle && !w.isSpeaking)
      && (!v.speechStarted ==> w == v.(speechPending := false))
  {
  }

  /**
   * Utterance `onerror` ends in error. While `sendToBackend` still awaits the
   * promise, its failure branch then takes over the status and adds its text.
   */
  lemma SpeechErrorEndsInError(v: View, env: Env, code: string)
    requires code != ""
    ensures var w := AfterSpeechError(v, env, code);
      && w.ui == Error && w.history == v.history && !w.speechPending
      && (v.speechPending ==> w.status == "Error: " + code
                              && w.display == v.display + [Bubble("ai", DisplayErrorPrefix + code, false)])
      && (!v.speechPending ==> w.status == "Error: Speech error: " + code && w.display == v.display)
  {
    var w := WithUi(v, env, Error, "Speech error: " + code);
    if v.speechPending {
      var u := w.(speechPending := false);
      assert AfterSpeechError(v, env, code) == Fail(u, env, code);
      assert Fail(u, env, code).status == StatusText(Error, code);
    } else {
      assert AfterSpeechError(v, env, code) == w;
    }
  }

  /**
   * The four outcomes of loading: a non-empty array becomes the history with
   * no welcome; anything else gives an empty history and exactly one welcome;
   * a non-array or unparsable value is removed, an empty array is kept.
   */
  lemma LoadCases(v: View, env: Env)
    ensures var w := Load(v, env);
      && w.ui == Idle && w.status == "Idle"
      && !w.isListening && !w.isThinking && !w.isSpeaking
      && (w.clearDisabled <==> w.history == [])
      && (v.stored.Array? && |v.stored.msgs| > 0 ==>
            && w.history == v.stored.msgs && w.stored == v.stored
            && |w.display| == |w.history|
            && forall i :: 0 <= i < |w.display| ==> !w.display[i].welcome)
      && (v.stored.Array? && v.stored.msgs == [] ==> w.history == [] && w.stored == v.stored && w.display == [Welcome])
      && (v.stored.ParseError? || v.stored.NotArray? ==> w.history == [] && w.stored == Absent && w.display == [Welcome])
      && (v.stored.Absent? ==> w.history == [] && w.stored == Absent && w.display == [Welcome])
  {
  }

  /**
   * A confirmed clear aborts capture if listening, cancels speech if
   * speaking, removes the key and ends idle with an empty history and the
   * welcome shown once; an unconfirmed one does nothing.
   */
  lemma ClearResets(v: View, env: Env)
    ensures var c := ClearEffects(v, env, true);
      && c.aborted == (v.isListening && env.hasRecognition)
      && c.cancelled == (v.isSpeaking && env.hasSynthesis)
    ensures var w := AfterClear(v, env, true);
      && w.history == [] && w.stored == Absent && w.display == [Welcome]
      && w.ui == Idle && w.status == ClearedText && w.clearDisabled
    ensures AfterClear(v, env, false) == v && ClearEffects(v, env, false) == Cancellation(false, false)
  {
  }

  /** Loading again after a clear finds nothing and still shows the welcome exactly once. */
  lemma ClearThenLoad(v: View, env: Env)
    ensures var w := Load(AfterClear(v, env, true), env);
      w.history == [] && w.stored == Absent && w.display == [Welcome]
  {
  }

  /**
   * Aborting capture on clear does not stop a result that still arrives:
   * it is recorded and sent as the first entry of the fresh history.
   */
  lemma LateResultAfterClear(v: View, env: Env, transcript: string, saveOk: bool)
    requires v.isListening && env.hasRecognition && Trim(transcript) != ""
    ensures ClearEffects(v, env, true).aborted
    ensures var w := AfterResult(AfterClear(v, env, true), env, transcript, saveOk);
      w.history == [Msg("user", Trim(transcript))] && w.ui == Thinking
  {
  }

  /** Without recognition, start-up ends idle with the record button disabled; the load overwrites the error text. */
  lemma StartupWithoutRecognition(env: Env, saved: Payload)
    requires !env.hasRecognition
    ensures var w := Initial(env, saved);
      w.ui == Idle && w.status == "Idle" && w.recordDisabled
  {
  }

  /** With synthesis present, the handler as written and the guarded one agree. */
  lemma ClickAsWrittenAgrees(v: View, env: Env, synthSpeaking: bool, startFails: bool)
    requires env.hasSynthesis
    ensures ClickActionAsWritten(v, env, synthSpeaking, startFails) == Some(ClickAction(v, env, synthSpeaking, startFails))
  {
  }

  /**
   * With recognition but no synthesis, the handler as written throws before
   * `recognition.start()` from idle or error, so capture can never begin;
   * the guarded handler starts it.
   */
  lemma ClickAsWrittenNeverStarts(v: View, synthSpeaking: bool, startFails: bool)
    requires !v.isListening && !v.isThinking && !v.isSpeaking
    ensures ClickActionAsWritten(v, Env(true, false), synthSpeaking, startFails).None?
    ensures ClickAction(v, Env(true, false), synthSpeaking, startFails)
      == if startFails then StartFailed(false) else StartCapture(false)
  {
  }
}
