/**
 * The page script as it runs: the variables the script keeps and the parts
 * of the page and of `localStorage` it writes, updated in place by one method
 * per function or handler. Each method is proved to do what the matching
 * function of TurnTaking says, so everything proved there holds of it.
 */
module Tutor {
  import opened Wrappers
  import opened Text
  import opened Chat
  import opened Errors
  import opened TurnTaking
  import TurnProperties

  class Session {
    /** Whether the browser provides `SpeechRecognition` and `speechSynthesis`. */
    const hasRecognition: bool
    const hasSynthesis: bool

    /** The state named by the status indicator's class. */
    var state: UiState
    var statusText: string
    var isListening: bool
    var isThinking: bool
    var isSpeaking: bool
    var recordDisabled: bool
    var clearDisabled: bool
    var chatHistory: seq<Msg>
    /** The message list on the page. */
    var messageList: seq<Bubble>
    /** The value under the history key in `localStorage`. */
    var storage: Payload
    /** `speechStarted` of the current utterance, and whether its promise is still pending. */
    var speechStarted: bool
    var speechPending: bool

    function Platform(): Env
      reads this
    {
      Env(hasRecognition, hasSynthesis)
    }

    function View(): View
      reads this
    {
      TurnTaking.View(state, statusText, isListening, isThinking, isSpeaking, recordDisabled, clearDisabled,
                      chatHistory, messageList, storage, speechStarted, speechPending)
    }

    /** The page is consistent: see TurnTaking.Inv. */
    ghost predicate Valid()
      reads this
    {
      Inv(View(), Platform())
    }

    /**
     * Page start-up: report missing recognition, then `loadHistory()`.
     * `saved` is what `localStorage` holds under the history key.
     */
    constructor (recognition: bool, synthesis: bool, saved: Payload)
      ensures Platform() == Env(recognition, synthesis)
      ensures View() == Initial(Env(recognition, synthesis), saved)
      ensures Valid()
    {
      hasRecognition, hasSynthesis := recognition, synthesis;
      state, statusText := Idle, "";
      isListening, isThinking, isSpeaking := false, false, false;
      recordDisabled, clearDisabled := false, false;
      chatHistory, messageList := [], [];
      storage := saved;
      speechStarted, speechPending := false, false;
      new;
      if !recognition {
        UpdateUIState(Error, "Speech recognition not supported.");
        recordDisabled := true;
        clearDisabled := true;
      }
      assert View() == Boot(Platform(), saved);
      LoadHistory();
      TurnProperties.InitialInv(Platform(), saved);
    }

    /** `updateUIState(s, message)`; an empty `message` stands for a missing one. */
    method UpdateUIState(s: UiState, message: string)
      modifies this
      ensures View() == WithUi(old(View()), Platform(), s, message)
    {
      var record, clear, listening, thinking, speaking;
      match s {
        case Idle =>
          record, clear := !hasRecognition, |chatHistory| == 0;
          listening, thinking, speaking := false, false, false;
        case Listening =>
          record, clear := false, true;
          listening, thinking, speaking := true, false, false;
        case Thinking =>
          record, clear := true, true;
          listening, thinking, speaking := false, true, false;
        case Speaking =>
          record, clear := true, true;
          listening, thinking, speaking := false, false, true;
        case Error =>
          record, clear := !hasRecognition, |chatHistory| == 0;
          listening, thinking, speaking := false, false, false;
      }
      state, statusText, recordDisabled, clearDisabled := s, StatusText(s, message), record, clear;
      isListening, isThinking, isSpeaking := listening, thinking, speaking;
      assert View() == old(View()).(ui := s, status := StatusText(s, message), recordDisabled := record,
        clearDisabled := clear, isListening := listening, isThinking := thinking, isSpeaking := speaking);
    }

    /** `loadHistory()`: rebuild the history and the message list from `localStorage`. */
    method LoadHistory()
      modifies this
      ensures View() == Load(old(View()), Platform())
    {
      var saved := storage;
      var history: seq<Msg> := [];
      var list: seq<Bubble> := [];
      var historyLoaded := false;
      if saved.Array? && |saved.msgs| > 0 {
        history := saved.msgs;
        list := DrawMessages(history);
        historyLoaded := true;
      } else if saved.ParseError? || saved.NotArray? {
        saved := Absent;  // the entry is removed
      }
      if !historyLoaded {
        list := list + [Welcome];
      }
      assert list == (if historyLoaded then Bubbles(history) else [Welcome]);
      chatHistory, messageList, storage := history, list, saved;
      UpdateUIState(Idle, "");
      clearDisabled := |chatHistory| == 0;
    }

    /** The `forEach` of `loadHistory` that draws one bubble per loaded entry. */
    static method DrawMessages(msgs: seq<Msg>) returns (list: seq<Bubble>)
      ensures |list| == |msgs|
      ensures forall i :: 0 <= i < |msgs| ==> list[i] == Bubble(msgs[i].sender, msgs[i].text, false)
    {
      list := [];
      var i := 0;
      while i < |msgs|
        invariant 0 <= i <= |msgs|
        invariant list == Bubbles(msgs[..i])
      {
        TurnProperties.BubblesAppend(msgs[..i], msgs[i]);
        assert msgs[..i + 1] == msgs[..i] + [msgs[i]];
        list := list + [Bubble(msgs[i].sender, msgs[i].text, false)];
        i := i + 1;
      }
      assert msgs[..i] == msgs;
    }

    /** `saveHistory()`; `ok` says whether `setItem` succeeded. */
    method SaveHistory(ok: bool)
      modifies this
      ensures View() == Save(old(View()), ok)
    {
      if ok {
        storage := Array(chatHistory);
        clearDisabled := |chatHistory| == 0;
      }
    }

    /** `addMessage(sender, text, isWelcome)`; `saveOk` is passed on to the save. */
    method AddMessage(sender: string, text: string, isWelcome: bool, saveOk: bool)
      modifies this
      ensures View() == TurnTaking.AddMessage(old(View()), sender, text, isWelcome, saveOk)
    {
      messageList := messageList + [Bubble(sender, text, isWelcome)];
      if !isWelcome {
        chatHistory := chatHistory + [Msg(sender, text)];
        SaveHistory(saveOk);
      }
    }

    /** `clearHistory()`; `confirmed` is the answer to the dialog, `c` what was stopped. */
    method ClearHistory(confirmed: bool) returns (c: Cancellation)
      requires Valid()
      modifies this
      ensures c == ClearEffects(old(View()), Platform(), confirmed)
      ensures View() == AfterClear(old(View()), Platform(), confirmed)
      ensures Valid()
    {
      c := Cancellation(false, false);
      if confirmed {
        ghost var v := View();
        c := Cancellation(isListening && hasRecognition, isSpeaking && hasSynthesis);
        storage := Absent;
        LoadHistory();
        UpdateUIState(Idle, ClearedText);
        TurnProperties.ClearInv(v, Platform());
      }
    }

    /** Recognition `onstart`. */
    method OnRecStart()
      requires Valid()
      modifies this
      ensures View() == AfterRecStart(old(View()), Platform())
      ensures Valid()
    {
      ghost var v := View();
      UpdateUIState(Listening, "");
      TurnProperties.WithUiInv(v, Platform(), Listening, "");
    }

    /** Recognition `onresult`: the request it sends, if any. */
    method OnRecResult(transcript: string, saveOk: bool) returns (req: Option<Request>)
      requires Valid()
      modifies this
      ensures req == ResultRequest(old(View()), Platform(), transcript, saveOk)
      ensures View() == AfterResult(old(View()), Platform(), transcript, saveOk)
      ensures Valid()
    {
      ghost var v := View();
      var userText := Trim(transcript);
      req := None;
      if userText != "" {
        AddMessage("user", userText, false, saveOk);
        TurnProperties.AddMessageInv(v, Platform(), "user", userText, saveOk);
        ghost var u := View();
        var r := SendToBackend(userText);
        TurnProperties.WithUiInv(u, Platform(), Thinking, "");
        req := Some(r);
      }
    }

    /** The synchronous part of `sendToBackend(query)`: the request it posts. */
    method SendToBackend(query: string) returns (req: Request)
      modifies this
      ensures View() == SendView(old(View()), Platform())
      ensures req == SendRequest(View(), query)
    {
      UpdateUIState(Thinking, "");
      req := Request(query, ContextWindow(chatHistory));
    }

    /** Recognition `onerror`. */
    method OnRecError(code: string, message: string)
      requires Valid()
      modifies this
      ensures View() == AfterRecError(old(View()), Platform(), code, message)
      ensures Valid()
    {
      ghost var v := View();
      UpdateUIState(Error, RecErrorMessage(code, message));
      TurnProperties.WithUiInv(v, Platform(), Error, RecErrorMessage(code, message));
    }

    /** Recognition `onend`. */
    method OnRecEnd()
      requires Valid()
      modifies this
      ensures View() == AfterRecEnd(old(View()), Platform())
      ensures Valid()
    {
      if isListening {
        ghost var v := View();
        UpdateUIState(Idle, "");
        TurnProperties.WithUiInv(v, Platform(), Idle, "");
      }
    }

    /** `speakText(text)` together with `proceedWithSpeech`, up to `speak(utterance)`. */
    method SpeakText(text: string, synthSpeaking: bool) returns (outcome: SpeakOutcome)
      modifies this
      ensures outcome == SpeakOutcomeOf(Platform(), text, synthSpeaking)
      ensures View() == AfterSpeak(old(View()), Platform(), text)
    {
      // The literal reasons match `SpeakOutcomeOf`, which spells out
      // `EmptySpeechReason` and `NoSynthesisReason` the same way.
      if text == "" {
        outcome := Rejected("Invalid text for speech");
      } else if !hasSynthesis {
        UpdateUIState(Error, "Speech synthesis not supported.");
        outcome := Rejected("Speech Synthesis not supported");
      } else {
        outcome := Started(synthSpeaking);
        speechStarted := false;
        speechPending := true;
      }
    }

    /** The rest of `sendToBackend` once the exchange has ended with `o`. */
    method OnBackend(o: Outcome, saveOk: bool, synthSpeaking: bool)
      requires Valid()
      modifies this
      ensures View() == AfterResponse(old(View()), Platform(), o, saveOk, synthSpeaking)
      ensures Valid()
    {
      ghost var v := View();
      var error := BackendError(o);
      if error.Some? {
        ShowFailure(error.value);
      } else {
        var reply := o.reply.value;
        AddMessage("ai", reply, false, saveOk);
        var outcome := SpeakText(reply, synthSpeaking);
        if outcome.Rejected? {
          ShowFailure(outcome.reason);
        }
      }
      TurnProperties.ResponseInv(v, Platform(), o, saveOk, synthSpeaking);
    }

    /** The `catch` block of `sendToBackend` for an error with message `m`. */
    method ShowFailure(m: string)
      modifies this
      ensures View() == Fail(old(View()), Platform(), m)
    {
      messageList := messageList + [Bubble("ai", DisplayErrorPrefix + m, false)];
      UpdateUIState(Error, m);
    }

    /** Utterance `onstart`. */
    method OnSpeechStart()
      requires Valid()
      modifies this
      ensures View() == AfterSpeechStart(old(View()), Platform())
      ensures Valid()
    {
      ghost var v := View();
      speechStarted := true;
      UpdateUIState(Speaking, "");
      TurnProperties.WithUiInv(v.(speechStarted := true), Platform(), Speaking, "");
    }

    /** Utterance `onend`. */
    method OnSpeechEnd()
      requires Valid()
      modifies this
      ensures View() == AfterSpeechEnd(old(View()), Platform())
      ensures Valid()
    {
      ghost var v := View();
      if speechStarted {
        UpdateUIState(Idle, "");
        TurnProperties.WithUiInv(v, Platform(), Idle, "");
      }
      speechPending := false;
    }

    /** Utterance `onerror`, then the failure branch of `sendToBackend` if it was still waiting. */
    method OnSpeechError(code: string)
      requires Valid()
      modifies this
      ensures View() == AfterSpeechError(old(View()), Platform(), code)
      ensures Valid()
    {
      ghost var v := View();
      UpdateUIState(Error, "Speech error: " + code);
      if speechPending {
        speechPending := false;
        ShowFailure(code);
      }
      TurnProperties.SpeechErrorInv(v, Platform(), code);
    }

    /**
     * The record button's click handler, with the read of
     * `speechSynthesis.speaking` guarded by the presence of synthesis.
     */
    method RecordClick(synthSpeaking: bool, startFails: bool) returns (c: Click)
      requires Valid()
      modifies this
      ensures c == ClickAction(old(View()), Platform(), synthSpeaking, startFails)
      ensures View() == AfterClick(old(View()), Platform(), synthSpeaking, startFails)
      ensures Valid()
    {
      ghost var v := View();
      c := Ignored;
      if !hasRecognition {
      } else if isListening {
        c := StopCapture;
      } else if !isThinking && !isSpeaking {
        var cancelled := hasSynthesis && synthSpeaking;
        if cancelled {
          UpdateUIState(Idle, "");
        }
        if startFails {
          UpdateUIState(Error, StartFailedText);
          c := StartFailed(cancelled);
        } else {
          c := StartCapture(cancelled);
        }
      }
      TurnProperties.ClickInv(v, Platform(), synthSpeaking, startFails);
    }

    /** Delivers one event; clicks on a disabled button and recognition events without recognition are dropped. */
    method Handle(e: Event)
      requires Valid()
      modifies this
      ensures View() == Step(old(View()), Platform(), e)
      ensures Valid()
    {
      match e {
        case RecordClicked(synthSpeaking, startFails) =>
          if !recordDisabled {
            var _ := RecordClick(synthSpeaking, startFails);
          }
        case ClearClicked(confirmed) =>
          if !clearDisabled {
            var _ := ClearHistory(confirmed);
          }
        case RecStart =>
          if hasRecognition {
            OnRecStart();
          }
        case RecResult(transcript, saveOk) =>
          if hasRecognition {
            var _ := OnRecResult(transcript, saveOk);
          }
        case RecError(code, message) =>
          if hasRecognition {
            OnRecError(code, message);
          }
        case RecEnd =>
          if hasRecognition {
            OnRecEnd();
          }
        case Response(o, saveOk, synthSpeaking) => OnBackend(o, saveOk, synthSpeaking);
        case SpeechStart => OnSpeechStart();
        case SpeechEnd => OnSpeechEnd();
        case SpeechError(code) => OnSpeechError(code);
      }
    }
  }
}
