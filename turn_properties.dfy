/** What the turn-taking model promises, over single handlers and over whole runs of events. */
module TurnProperties {
  import opened Wrappers
  import opened Text
  import opened Seqs
  import opened Chat
  import opened Errors
  import opened TurnTaking
  import opened HandlerProperties

  // ---------------------------------------------------------------------
  //  The invariant holds from start-up on, whatever the events
  // ---------------------------------------------------------------------

  lemma BubblesAppend(h: seq<Msg>, m: Msg)
    ensures Bubbles(h + [m]) == Bubbles(h) + [Bubble(m.sender, m.text, false)]
  {
    assert forall i :: 0 <= i < |h| ==> (h + [m])[i] == h[i];
  }

  lemma WithUiInv(v: View, env: Env, s: UiState, message: string)
    requires LogConsistent(v)
    ensures Inv(WithUi(v, env, s, message), env)
  {
  }

  /** Recording a message keeps the log on screen and the store behind it. */
  lemma {:induction false} AddMessageInv(v: View, env: Env, sender: string, text: string, saveOk: bool)
    requires Inv(v, env)
    ensures Inv(AddMessage(v, sender, text, false, saveOk), env)
  {
    var m := Msg(sender, text);
    var b := Bubble(sender, text, false);
    var u := v.(display := v.display + [b], history := v.history + [m]);
    assert LogConsistent(u) by {
      BubblesAppend(v.history, m);
      SubsequenceAppend(Bubbles(v.history), v.display, b);
      assert forall i :: 0 < i < |u.display| ==> !u.display[i].welcome;
      if v.stored.Array? {
        assert u.history[..|v.stored.msgs|] == v.history[..|v.stored.msgs|];
      }
    }
    assert AddMessage(v, sender, text, false, saveOk) == Save(u, saveOk);
    SaveInv(u, env, saveOk);
  }

  /** Saving a consistent, non-empty log stores all of it. */
  lemma SaveInv(u: View, env: Env, ok: bool)
    requires UiConsistent(u, env) && LogConsistent(u) && u.history != []
    ensures Inv(Save(u, ok), env)
  {
    assert u.history[..|u.history|] == u.history;
  }

  /** The failure branch shows its text without touching the log. */
  lemma {:induction false} FailInv(v: View, env: Env, m: string)
    requires Inv(v, env)
    ensures Inv(Fail(v, env, m), env)
  {
    var b := Bubble("ai", DisplayErrorPrefix + m, false);
    SubsequenceExtend(Bubbles(v.history), v.display, b);
    var u := v.(display := v.display + [b]);
    assert forall i :: 0 < i < |u.display| ==> !u.display[i].welcome;
    WithUiInv(u, env, Error, m);
  }

  /** Whatever was stored, loading leaves a consistent page. */
  lemma {:induction false} LoadInv(v: View, env: Env)
    ensures Inv(Load(v, env), env)
  {
    var w := Load(v, env);
    if v.stored.Array? && |v.stored.msgs| > 0 {
      SubsequenceRefl(Bubbles(v.stored.msgs));
      assert v.stored.msgs[..|v.stored.msgs|] == v.stored.msgs;
    } else {
      assert w.display == [Welcome] && w.history == [];
      assert v.stored.Array? ==> v.stored.msgs == [];
    }
  }

  lemma InitialInv(env: Env, saved: Payload)
    ensures Inv(Initial(env, saved), env)
  {
    LoadInv(Boot(env, saved), env);
  }

  /** Every handler keeps the invariant. */
  lemma {:induction false} StepInv(v: View, env: Env, e: Event)
    requires Inv(v, env)
    ensures Inv(Step(v, env, e), env)
  {
    match e
    case RecordClicked(synthSpeaking, startFails) => ClickInv(v, env, synthSpeaking, startFails);
    case ClearClicked(confirmed) =>
      if !v.clearDisabled && confirmed {
        ClearInv(v, env);
      }
    case RecStart => WithUiInv(v, env, Listening, "");
    case RecResult(transcript, saveOk) =>
      if env.hasRecognition && Trim(transcript) != "" {
        AddMessageInv(v, env, "user", Trim(transcript), saveOk);
        var u := AddMessage(v, "user", Trim(transcript), false, saveOk);
        WithUiInv(u, env, Thinking, "");
      }
    case RecError(code, message) => WithUiInv(v, env, Error, RecErrorMessage(code, message));
    case RecEnd => WithUiInv(v, env, Idle, "");
    case Response(o, saveOk, synthSpeaking) => ResponseInv(v, env, o, saveOk, synthSpeaking);
    case SpeechStart => WithUiInv(v.(speechStarted := true), env, Speaking, "");
    case SpeechEnd => WithUiInv(v, env, Idle, "");
    case SpeechError(code) => SpeechErrorInv(v, env, code);
  }

  lemma {:induction false} ClickInv(v: View, env: Env, synthSpeaking: bool, startFails: bool)
    requires Inv(v, env)
    ensures Inv(AfterClick(v, env, synthSpeaking, startFails), env)
  {
    var c := ClickAction(v, env, synthSpeaking, startFails);
    if c.StartCapture? || c.StartFailed? {
      var u := if c.cancelledSpeech then WithUi(v, env, Idle, "") else v;
      assert Inv(u, env);
      WithUiInv(u, env, Error, StartFailedText);
    }
  }

  lemma {:induction false} ClearInv(v: View, env: Env)
    ensures Inv(AfterClear(v, env, true), env)
  {
    LoadInv(v.(stored := Absent), env);
    WithUiInv(Load(v.(stored := Absent), env), env, Idle, ClearedText);
  }

  lemma {:induction false} SpeechErrorInv(v: View, env: Env, code: string)
    requires Inv(v, env)
    ensures Inv(AfterSpeechError(v, env, code), env)
  {
    var u := WithUi(v, env, Error, "Speech error: " + code);
    if v.speechPending {
      FailInv(u.(speechPending := false), env, code);
    }
  }

  lemma {:induction false} ResponseInv(v: View, env: Env, o: Outcome, saveOk: bool, synthSpeaking: bool)
    requires Inv(v, env)
    ensures Inv(AfterResponse(v, env, o, saveOk, synthSpeaking), env)
  {
    match BackendError(o)
    case Some(m) => FailInv(v, env, m);
    case None =>
      var reply := o.reply.value;
      var w := AddMessage(v, "ai", reply, false, saveOk);
      AddMessageInv(v, env, "ai", reply, saveOk);
      var u := AfterSpeak(w, env, reply);
      assert Inv(u, env);
      if SpeakOutcomeOf(env, reply, synthSpeaking).Rejected? {
        FailInv(u, env, SpeakOutcomeOf(env, reply, synthSpeaking).reason);
      }
  }

  /** The invariant holds after any run of events from a state where it holds. */
  lemma {:induction false} RunInv(v: View, env: Env, events: seq<Event>)
    requires Inv(v, env)
    ensures Inv(Run(v, env, events), env)
    decreases |events|
  {
    if events != [] {
      StepInv(v, env, events[0]);
      RunInv(Step(v, env, events[0]), env, events[1..]);
    }
  }

  // ---------------------------------------------------------------------
  //  No empty entry is ever recorded
  // ---------------------------------------------------------------------

  /** Every entry of the log, and of the stored log, has non-empty text. */
  predicate NonEmptyLog(v: View) {
    && (forall m :: m in v.history ==> m.text != "")
    && (v.stored.Array? ==> forall m :: m in v.stored.msgs ==> m.text != "")
  }

  /** Start-up keeps every entry of a stored log whose texts are non-empty, and adds none. */
  lemma InitialNonEmpty(env: Env, saved: Payload)
    requires saved.Array? ==> forall m :: m in saved.msgs ==> m.text != ""
    ensures NonEmptyLog(Initial(env, saved))
  {
  }

  /** Appending a message with non-empty text, and saving, keeps the log free of empty entries. */
  lemma AddMessageNonEmpty(v: View, sender: string, text: string, saveOk: bool)
    requires NonEmptyLog(v) && text != ""
    ensures NonEmptyLog(AddMessage(v, sender, text, false, saveOk))
  {
  }

  /** A state with the same log and stored log has no empty entries either. */
  lemma SameLogNonEmpty(v: View, w: View)
    requires NonEmptyLog(v) && w.history == v.history && w.stored == v.stored
    ensures NonEmptyLog(w)
  {
  }

  /** A result records its trimmed text only when that text is non-blank. */
  lemma ResultNonEmpty(v: View, env: Env, transcript: string, saveOk: bool)
    requires NonEmptyLog(v)
    ensures NonEmptyLog(AfterResult(v, env, transcript, saveOk))
  {
    if Trim(transcript) != "" {
      AddMessageNonEmpty(v, "user", Trim(transcript), saveOk);
    }
  }

  /** A response records the reply only when it is non-empty; failures record nothing. */
  lemma ResponseNonEmpty(v: View, env: Env, o: Outcome, saveOk: bool, synthSpeaking: bool)
    requires NonEmptyLog(v)
    ensures NonEmptyLog(AfterResponse(v, env, o, saveOk, synthSpeaking))
  {
    var w := AfterResponse(v, env, o, saveOk, synthSpeaking);
    match BackendError(o) {
      case Some(m) =>
        SameLogNonEmpty(v, w);
      case None =>
        var u := AddMessage(v, "ai", o.reply.value, false, saveOk);
        AddMessageNonEmpty(v, "ai", o.reply.value, saveOk);
        SameLogNonEmpty(u, w);
    }
  }

  /**
   * No handler records an empty entry: a question is recorded only when its
   * trimmed text is non-blank, and a reply only when it is non-empty.
   */
  lemma {:induction false} StepNonEmpty(v: View, env: Env, e: Event)
    requires NonEmptyLog(v)
    ensures NonEmptyLog(Step(v, env, e))
  {
    match e
    case RecResult(transcript, saveOk) =>
      if env.hasRecognition {
        ResultNonEmpty(v, env, transcript, saveOk);
      }
    case Response(o, saveOk, synthSpeaking) => ResponseNonEmpty(v, env, o, saveOk, synthSpeaking);
    case ClearClicked(confirmed) =>
    case RecordClicked(_, _) => SameLogNonEmpty(v, Step(v, env, e));
    case RecStart => SameLogNonEmpty(v, Step(v, env, e));
    case RecError(_, _) => SameLogNonEmpty(v, Step(v, env, e));
    case RecEnd => SameLogNonEmpty(v, Step(v, env, e));
    case SpeechStart => SameLogNonEmpty(v, Step(v, env, e));
    case SpeechEnd => SameLogNonEmpty(v, Step(v, env, e));
    case SpeechError(_) => SameLogNonEmpty(v, Step(v, env, e));
  }

  /** Any run of events from a log without empty entries records none. */
  lemma {:induction false} RunNonEmpty(v: View, env: Env, events: seq<Event>)
    requires NonEmptyLog(v)
    ensures NonEmptyLog(Run(v, env, events))
    decreases |events|
  {
    if events != [] {
      StepNonEmpty(v, env, events[0]);
      RunNonEmpty(Step(v, env, events[0]), env, events[1..]);
    }
  }

  /** At most one of the three flags is set, and it is the one the state names. */
  lemma AtMostOneFlag(v: View, env: Env)
    requires Inv(v, env)
    ensures (v.isListening ==> !v.isThinking && !v.isSpeaking) && (v.isThinking ==> !v.isSpeaking)
    ensures v.ui == Idle || v.ui == Error ==> !v.isListening && !v.isThinking && !v.isSpeaking
  {
  }

  // ---------------------------------------------------------------------
  //  Whole turns
  // ---------------------------------------------------------------------

  lemma {:induction false} RunAppend(v: View, env: Env, a: seq<Event>, b: seq<Event>)
    ensures Run(v, env, a + b) == Run(Run(v, env, a), env, b)
    decreases |a|
  {
    if a != [] {
      assert (a + b)[0] == a[0] && (a + b)[1..] == a[1..] + b;
      RunAppend(Step(v, env, a[0]), env, a[1..], b);
    } else {
      assert a + b == b;
    }
  }

  /** A turn as the browser delivers it when nothing goes wrong: the question ... */
  function AskEvents(q: string): seq<Event> {
    [RecordClicked(false, false), RecStart, RecResult(q, true)]
  }

  /** ... and the answer. */
  function AnswerEvents(r: string): seq<Event> {
    [RecEnd, Response(Ok(Some(r)), true, false), SpeechStart, SpeechEnd]
  }

  function TurnEvents(q: string, r: string): seq<Event> {
    AskEvents(q) + AnswerEvents(r)
  }

  /** Running a sequence of events is applying the first, then the rest. */
  lemma RunCons(v: View, env: Env, e: Event, es: seq<Event>)
    ensures Run(v, env, [e] + es) == Run(Step(v, env, e), env, es)
  {
    assert ([e] + es)[0] == e && ([e] + es)[1..] == es;
  }

  /** A click in idle or error with nothing speaking starts capture and changes nothing yet. */
  lemma ClickFromRest(v: View, env: Env)
    requires UiConsistent(v, env) && env == Env(true, true)
    requires v.ui == Idle || v.ui == Error
    ensures ClickAction(v, env, false, false) == StartCapture(false)
    ensures Step(v, env, RecordClicked(false, false)) == v
  {
  }

  lemma ResultStep(v: View, env: Env, q: string)
    requires env == Env(true, true) && Trim(q) != ""
    ensures var w := Step(v, env, RecResult(q, true));
      && w.history == v.history + [Msg("user", Trim(q))]
      && w.ui == Thinking && !w.isListening
  {
    assert Step(v, env, RecResult(q, true)) == AfterResult(v, env, q, true);
    ResultAppendsThenSends(v, env, q, true);
  }

  lemma ReplyStep(v: View, env: Env, r: string)
    requires env == Env(true, true) && r != ""
    ensures var w := Step(v, env, Response(Ok(Some(r)), true, false));
      && w.history == v.history + [Msg("ai", r)]
      && w.stored == Array(w.history)
      && w.speechPending && !w.speechStarted
  {
    assert Step(v, env, Response(Ok(Some(r)), true, false)) == AfterResponse(v, env, Ok(Some(r)), true, false);
    ReplyRecordedBeforeSpeech(v, env, r, true, false);
  }

  /**
   * A completed turn from idle (or error) records the trimmed question, then
   * the reply, persists both and ends idle.
   */
  lemma CompletedTurn(v: View, env: Env, q: string, r: string)
    requires Inv(v, env) && env == Env(true, true)
    requires v.ui == Idle || v.ui == Error
    requires Trim(q) != "" && r != ""
    ensures var w := Run(v, env, TurnEvents(q, r));
      && Inv(w, env) && w.ui == Idle
      && w.history == v.history + [Msg("user", Trim(q)), Msg("ai", r)]
      && w.stored == Array(w.history)
  {
    AskRun(v, env, q);
    var asked := Run(v, env, AskEvents(q));
    AnswerRun(asked, env, r);
    RunAppend(v, env, AskEvents(q), AnswerEvents(r));
    RunInv(v, env, TurnEvents(q, r));
    var u, a := Msg("user", Trim(q)), Msg("ai", r);
    assert v.history + [u] + [a] == v.history + [u, a];
  }

  /** Click, capture start and a result: the question is recorded and the page is thinking. */
  lemma AskRun(v: View, env: Env, q: string)
    requires UiConsistent(v, env) && env == Env(true, true)
    requires v.ui == Idle || v.ui == Error
    requires Trim(q) != ""
    ensures var w := Run(v, env, AskEvents(q));
      w.history == v.history + [Msg("user", Trim(q))] && !w.isListening
  {
    var es := AskEvents(q);
    ClickFromRest(v, env);
    RunCons(v, env, es[0], es[1..]);
    assert es == [es[0]] + es[1..];
    var v2 := Step(v, env, RecStart);
    assert v2.history == v.history;
    RunCons(v, env, es[1], es[2..]);
    assert es[1..] == [es[1]] + es[2..];
    ResultStep(v2, env, q);
    RunCons(v2, env, es[2], []);
    assert es[2..] == [es[2]] + [];
  }

  /** Capture end, the reply and its utterance: the reply is recorded and saved, and the page is idle. */
  lemma AnswerRun(v: View, env: Env, r: string)
    requires env == Env(true, true) && !v.isListening && r != ""
    ensures var w := Run(v, env, AnswerEvents(r));
      && w.ui == Idle
      && w.history == v.history + [Msg("ai", r)]
      && w.stored == Array(w.history)
  {
    var es := AnswerEvents(r);
    RecEndStep(v, env);
    RunCons(v, env, es[0], es[1..]);
    assert es == [es[0]] + es[1..];
    ReplyStep(v, env, r);
    RunCons(v, env, es[1], es[2..]);
    assert es[1..] == [es[1]] + es[2..];
    var v5 := Step(v, env, es[1]);
    SpeechStartStep(v5, env);
    RunCons(v5, env, es[2], es[3..]);
    assert es[2..] == [es[2]] + es[3..];
    var v6 := Step(v5, env, es[2]);
    SpeechEndStep(v6, env);
    RunCons(v6, env, es[3], []);
    assert es[3..] == [es[3]] + [];
  }

  lemma RecEndStep(v: View, env: Env)
    requires !v.isListening
    ensures Step(v, env, RecEnd) == v
  {
  }

  lemma SpeechStartStep(v: View, env: Env)
    ensures var w := Step(v, env, SpeechStart);
      w.speechStarted && w.ui == Speaking && w.isSpeaking
      && w.history == v.history && w.stored == v.stored
  {
  }

  lemma SpeechEndStep(v: View, env: Env)
    requires v.speechStarted
    ensures var w := Step(v, env, SpeechEnd);
      w.ui == Idle && !w.speechPending && w.history == v.history && w.stored == v.stored
  {
  }

  /** The events of several completed turns, one after the other. */
  function TurnsEvents(qs: seq<string>, rs: seq<string>): seq<Event>
    requires |qs| == |rs|
  {
    if qs == [] then [] else TurnEvents(qs[0], rs[0]) + TurnsEvents(qs[1..], rs[1..])
  }

  /** The entries several completed turns record: question, reply, question, reply, ... */
  function Exchanges(qs: seq<string>, rs: seq<string>): (x: seq<Msg>)
    requires |qs| == |rs|
    ensures |x| == 2 * |qs|
  {
    if qs == [] then [] else [Msg("user", Trim(qs[0])), Msg("ai", rs[0])] + Exchanges(qs[1..], rs[1..])
  }

  /** After N completed turns the history has grown by 2N entries, in question/reply order. */
  lemma {:induction false} CompletedTurns(v: View, env: Env, qs: seq<string>, rs: seq<string>)
    requires Inv(v, env) && env == Env(true, true)
    requires v.ui == Idle || v.ui == Error
    requires |qs| == |rs| && forall i :: 0 <= i < |qs| ==> Trim(qs[i]) != "" && rs[i] != ""
    ensures var w := Run(v, env, TurnsEvents(qs, rs));
      && Inv(w, env) && (w.ui == Idle || w.ui == Error)
      && w.history == v.history + Exchanges(qs, rs)
    decreases |qs|
  {
    if qs == [] {
      assert v.history + [] == v.history;
    } else {
      var first := TurnEvents(qs[0], rs[0]);
      var rest := TurnsEvents(qs[1..], rs[1..]);
      CompletedTurn(v, env, qs[0], rs[0]);
      var v1 := Run(v, env, first);
      RunAppend(v, env, first, rest);
      assert forall i :: 0 <= i < |qs[1..]| ==> Trim(qs[1..][i]) != "" && rs[1..][i] != "" by {
        forall i | 0 <= i < |qs[1..]|
          ensures Trim(qs[1..][i]) != "" && rs[1..][i] != ""
        {
          assert qs[1..][i] == qs[i + 1] && rs[1..][i] == rs[i + 1];
        }
      }
      CompletedTurns(v1, env, qs[1..], rs[1..]);
      var w := Run(v1, env, rest);
      assert TurnsEvents(qs, rs) == first + rest;
      assert Run(v, env, TurnsEvents(qs, rs)) == w;
      var pair := [Msg("user", Trim(qs[0])), Msg("ai", rs[0])];
      assert Exchanges(qs, rs) == pair + Exchanges(qs[1..], rs[1..]);
      assert v1.history == v.history + pair;
      assert w.history == v.history + pair + Exchanges(qs[1..], rs[1..]);
      AppendAssoc(v.history, pair, Exchanges(qs[1..], rs[1..]));
    }
  }

  lemma AppendAssoc(a: seq<Msg>, b: seq<Msg>, c: seq<Msg>)
    ensures a + b + c == a + (b + c)
  {
  }

  /** The recorded exchanges alternate user/ai, starting with the user: turn k fills entries 2k and 2k+1. */
  lemma ExchangesAlternate(qs: seq<string>, rs: seq<string>)
    requires |qs| == |rs|
    ensures var x := Exchanges(qs, rs);
      forall k :: 0 <= k < |qs| ==> x[2 * k] == Msg("user", Trim(qs[k])) && x[2 * k + 1] == Msg("ai", rs[k])
  {
    forall k | 0 <= k < |qs|
      ensures Exchanges(qs, rs)[2 * k] == Msg("user", Trim(qs[k]))
      ensures Exchanges(qs, rs)[2 * k + 1] == Msg("ai", rs[k])
    {
      ExchangeAt(qs, rs, k);
    }
  }

  lemma {:induction false} ExchangeAt(qs: seq<string>, rs: seq<string>, k: nat)
    requires |qs| == |rs| && k < |qs|
    ensures var x := Exchanges(qs, rs);
      x[2 * k] == Msg("user", Trim(qs[k])) && x[2 * k + 1] == Msg("ai", rs[k])
    decreases k
  {
    var t := Exchanges(qs[1..], rs[1..]);
    assert Exchanges(qs, rs) == [Msg("user", Trim(qs[0])), Msg("ai", rs[0])] + t;
    if k > 0 {
      ExchangeAt(qs[1..], rs[1..], k - 1);
      assert qs[1..][k - 1] == qs[k] && rs[1..][k - 1] == rs[k];
    }
  }
}
