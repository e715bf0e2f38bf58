/** The "listen" button: a module-level `isSpeaking` flag and the button's
    text, changed by clicks and by the speech engine's events. The engine
    itself is outside the model; each handler returns the call it makes on it. */
module SpeechToggle {
  import opened Wrappers
  import opened JsText

  const ListenLabel: string := "Listen to Summary"
  const StopLabel: string := "Stop Listening"

  /** The utterance handed to the engine: its text, rate, pitch and language. */
  datatype Utterance = Utterance(text: string, rate: int, pitch: int, lang: string)

  /** What a handler asks of `window.speechSynthesis`. */
  datatype EngineCall = NoCall | Cancel | Speak(utterance: Utterance)

  class SpeechButton {
    var isSpeaking: bool
    var buttonText: string
    /** The most recently created utterance (`null` until the first one). */
    var utterance: Option<Utterance>

    /** The button text always shows what a click would do next. */
    ghost predicate Valid()
      reads this
    {
      (isSpeaking ==> buttonText == StopLabel) && (!isSpeaking ==> buttonText == ListenLabel)
    }

    /** The popup opens not speaking, with the "listen" text. */
    constructor ()
      ensures Valid()
      ensures !isSpeaking && buttonText == ListenLabel && utterance == None
    {
      isSpeaking := false;
      buttonText := ListenLabel;
      utterance := None;
    }

    /** Sets the "not speaking" state, as every reset handler does. */
    method Reset()
      modifies this
      ensures Valid()
      ensures !isSpeaking && buttonText == ListenLabel && utterance == old(utterance)
    {
      isSpeaking := false;
      buttonText := ListenLabel;
    }

    /** A click on the button with the result pane's current text. Blank text
        is ignored; while speaking, the click only cancels (the flag and text
        wait for the end or error event); otherwise speech starts. */
    method Click(summaryText: string) returns (call: EngineCall)
      requires Valid()
      modifies this
      ensures Valid()
      ensures IsBlank(summaryText) ==> call == NoCall && unchanged(this)
      ensures !IsBlank(summaryText) && old(isSpeaking) ==> call == Cancel && unchanged(this)
      ensures !IsBlank(summaryText) && !old(isSpeaking) ==>
                var u := Utterance(summaryText, 1, 1, "en-US");
                call == Speak(u) && isSpeaking && buttonText == StopLabel && utterance == Some(u)
    {
      if IsBlank(summaryText) {
        return NoCall;
      }
      if isSpeaking {
        return Cancel;
      }
      var u := Utterance(summaryText, 1, 1, "en-US");
      utterance := Some(u);
      isSpeaking := true;
      buttonText := StopLabel;
      call := Speak(u);
    }

    /** The utterance's `onend` handler. */
    method UtteranceEnded()
      modifies this
      ensures Valid()
      ensures !isSpeaking && buttonText == ListenLabel && utterance == old(utterance)
    {
      Reset();
    }

    /** The utterance's `onerror` handler (fired, among others, by a cancel). */
    method UtteranceFailed()
      modifies this
      ensures Valid()
      ensures !isSpeaking && buttonText == ListenLabel && utterance == old(utterance)
    {
      Reset();
    }

    /** The engine's own `end` event, for speech stopped by other means. */
    method EngineEnded()
      modifies this
      ensures Valid()
      ensures !isSpeaking && buttonText == ListenLabel && utterance == old(utterance)
    {
      Reset();
    }

    /** The engine's `voiceschanged` event: resets only when the engine
        reports that it is not speaking. */
    method VoicesChanged(engineSpeaking: bool)
      requires Valid()
      modifies this
      ensures Valid()
      ensures engineSpeaking ==> unchanged(this)
      ensures !engineSpeaking ==> !isSpeaking && buttonText == ListenLabel && utterance == old(utterance)
    {
      if !engineSpeaking {
        Reset();
      }
    }
  }

  /** A click, a second click that only cancels, then the error event the
      cancel provokes: the button is back where it started. */
  method ToggleScenario()
  {
    var button := new SpeechButton();
    var first := button.Click("A short summary.");
    assert first.Speak? && button.isSpeaking && button.buttonText == StopLabel;
    var second := button.Click("A short summary.");
    assert second == Cancel && button.isSpeaking;
    button.UtteranceFailed();
    assert !button.isSpeaking && button.buttonText == ListenLabel;
    var third := button.Click(" \n\t");
    assert third == NoCall && !button.isSpeaking;
  }
}
