/** The widget as the object it is: the three state fields its handlers
    update through setters, one method per handler, each proved to move the
    state exactly as the transition of the same name in EditorModel does. */
module Component {

  import opened Wrappers
  import opened PredictionRules
  import opened EditorModel

  class AITextInterpolation {
    var inputText: string
    var predictedText: string
    var loading: bool
    /** Whether the effect's debounce timer is scheduled (held by the runtime). */
    ghost var debouncePending: bool
    /** The texts of the backend calls whose completion is still awaited. */
    ghost var inFlight: seq<string>

    ghost function State(): Editor
      reads this
    {
      Editor(inputText, predictedText, loading, debouncePending, inFlight)
    }

    ghost predicate Valid()
      reads this
    {
      Inv(State())
    }

    /** Mounting: empty fields, and the effect schedules its first timer. */
    constructor ()
      ensures Valid() && State() == Mounted
    {
      inputText, predictedText, loading := "", "", false;
      debouncePending, inFlight := true, [];
    }

    /** The effect keyed on the text: a different text re-schedules the timer. */
    method SetInputText(text: string)
      modifies this
      ensures State() == SetInput(old(State()), text)
    {
      debouncePending := debouncePending || text != inputText;
      inputText := text;
    }

    /** The text area's change handler. */
    method OnChange(value: string)
      requires Valid()
      modifies this
      ensures Valid() && State() == Step(old(State()), Edit(value))
    {
      StepPreservesInv(State(), Edit(value));
      SetInputText(value);
    }

    /** The body of the debounce timer; `sent` is the text handed to the
        backend, if a call was made. */
    method FireDebounce() returns (sent: Option<string>)
      requires Valid() && debouncePending
      modifies this
      ensures Valid() && State() == Step(old(State()), DebounceExpired)
      ensures sent.Some? <==> |old(inputText)| > DebounceMinLength
      ensures sent.Some? ==> sent.value == DebouncePayload(old(inputText))
      ensures sent.Some? ==> inFlight == old(inFlight) + [sent.value] && loading
      ensures sent.None? ==> predictedText == "" && inFlight == old(inFlight)
    {
      StepPreservesInv(State(), DebounceExpired);
      debouncePending := false;
      if |inputText| > DebounceMinLength {
        loading := true;
        var textToSend := if |inputText| <= DebounceWindow then inputText
                          else inputText[|inputText| - DebounceWindow..];
        inFlight := inFlight + [textToSend];
        sent := Some(textToSend);
      } else {
        predictedText := "";
        sent := None;
      }
    }

    /** The continuation of awaited call number `request`, resumed with what
        the backend call resolved to. */
    method CompleteFetch(ghost request: nat, reply: Reply)
      requires Valid() && request < |inFlight|
      modifies this
      ensures Valid() && State() == Step(old(State()), FetchCompleted(request, reply))
    {
      StepPreservesInv(State(), FetchCompleted(request, reply));
      var prediction := match reply case Answered(p) => p case Failed => "";
      predictedText := prediction;
      loading := false;
      inFlight := inFlight[..request] + inFlight[request + 1..];
    }

    /** Accepting the suggestion, by click or by Tab. */
    method ApplyPrediction()
      requires Valid()
      modifies this
      ensures Valid() && State() == EditorModel.ApplyPrediction(old(State()))
      ensures inputText == old(inputText) + old(predictedText) && predictedText == ""
    {
      StepPreservesInv(State(), KeyDown("Tab", false));
      SetInputText(inputText + predictedText);
      predictedText := "";
    }

    /** A click on the suggestion, which is on screen only while nothing
        loads and the suggestion is not empty. */
    method ClickSuggestion()
      requires Valid() && !loading && predictedText != ""
      modifies this
      ensures Valid() && State() == Step(old(State()), SuggestionClicked)
    {
      ApplyPrediction();
    }

    /** A retry, by button or by Ctrl+R; `sent` is the text handed to the
        backend, if a call was made. */
    method RetryPrediction() returns (sent: Option<string>)
      requires Valid()
      modifies this
      ensures Valid() && State() == Step(old(State()), RetryClicked)
      ensures sent.Some? <==> |old(inputText)| > RetryMinLength
      ensures sent.Some? ==> sent.value == RetryPayload(old(inputText))
      ensures sent.Some? ==> inFlight == old(inFlight) + [sent.value] && loading
      ensures sent.None? ==> State() == old(State())
      ensures inputText == old(inputText)
    {
      StepPreservesInv(State(), RetryClicked);
      if |inputText| > RetryMinLength {
        loading := true;
        var textToSend := if |inputText| <= RetryWindow then inputText
                          else inputText[|inputText| - RetryWindow..];
        inFlight := inFlight + [textToSend];
        sent := Some(textToSend);
      } else {
        sent := None;
      }
    }

    /** The key handler; `prevented` says whether the browser's default
        action was suppressed. */
    method HandleKeyDown(key: string, ctrlKey: bool) returns (prevented: bool, sent: Option<string>)
      requires Valid()
      modifies this
      ensures Valid() && State() == Step(old(State()), KeyDown(key, ctrlKey))
      ensures prevented <==> key == "Tab" || (ctrlKey && (key == "r" || key == "R"))
      ensures sent.Some? <==>
        key != "Tab" && ctrlKey && (key == "r" || key == "R") && |old(inputText)| > RetryMinLength
      ensures sent.Some? ==> sent.value == RetryPayload(old(inputText))
      ensures sent.Some? ==> inFlight == old(inFlight) + [sent.value]
    {
      if key == "Tab" {
        ApplyPrediction();
        prevented, sent := true, None;
      } else if ctrlKey && (key == "r" || key == "R") {
        sent := RetryPrediction();
        prevented := true;
      } else {
        prevented, sent := false, None;
      }
    }
  }
}
