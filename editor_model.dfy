/** The suggestion state machine of the autocomplete widget as values: the
    component state, the events that change it, one transition function per
    handler, and what the handlers promise, alone and over whole traces. */
module EditorModel {

  import opened Wrappers
  import opened PredictionRules

  /** The component state `inputText`, `predictedText` and `loading`, plus
      what the runtime holds on the component's behalf: whether a debounce
      timer is scheduled, and the texts of the backend calls still awaited
      (oldest first). */
  datatype Editor = Editor(
    inputText: string,
    predictedText: string,
    loading: bool,
    debouncePending: bool,
    inFlight: seq<string>)

  /** Right after mounting: empty text, nothing suggested, and the effect has
      already scheduled its first debounce timer. */
  const Mounted: Editor := Editor("", "", false, true, [])

  /** Everything that can change the state. A fetch completion names the
      awaited call it finishes, so completions may arrive in any order. */
  datatype Event =
    | Edit(value: string)
    | DebounceExpired
    | FetchCompleted(request: nat, reply: Reply)
    | SuggestionClicked
    | RetryClicked
    | KeyDown(key: string, ctrlKey: bool)

  /** An expiry needs a scheduled timer, a completion an awaited call, and a
      click a suggestion on screen: it is shown only while nothing loads and
      the suggestion is not empty. */
  predicate Enabled(s: Editor, e: Event) {
    match e
    case DebounceExpired => s.debouncePending
    case FetchCompleted(i, _) => i < |s.inFlight|
    case SuggestionClicked => !s.loading && s.predictedText != ""
    case _ => true
  }

  /** Replaces the text. The effect depends on the text, so a new value
      cancels the pending timer and schedules a fresh one; the same value
      leaves the timer as it was. */
  function SetInput(s: Editor, text: string): Editor {
    s.(inputText := text, debouncePending := s.debouncePending || text != s.inputText)
  }

  /** Raises the loading flag and hands `payload` to the backend. */
  function StartFetch(s: Editor, payload: string): Editor {
    s.(loading := true, inFlight := s.inFlight + [payload])
  }

  /** The text area's change handler. */
  function OnChange(s: Editor, value: string): Editor {
    SetInput(s, value)
  }

  /** The body of the debounce timer. */
  function Expire(s: Editor): Editor
    requires s.debouncePending
  {
    var fired := s.(debouncePending := false);
    if DebounceStartsFetch(s.inputText) then StartFetch(fired, DebouncePayload(s.inputText))
    else fired.(predictedText := "")
  }

  /** The continuation of the awaited call number `i`: its reply becomes the
      suggestion and the loading flag drops, whatever else is still awaited. */
  function Complete(s: Editor, i: nat, reply: Reply): Editor
    requires i < |s.inFlight|
  {
    s.(predictedText := PredictionOf(reply), loading := false,
       inFlight := s.inFlight[..i] + s.inFlight[i + 1..])
  }

  /** Accepting the suggestion appends it to the text and clears it. */
  function ApplyPrediction(s: Editor): Editor {
    SetInput(s, s.inputText + s.predictedText).(predictedText := "")
  }

  /** A retry, from the button or from the keyboard. */
  function RetryPrediction(s: Editor): Editor {
    if RetryStartsFetch(s.inputText) then StartFetch(s, RetryPayload(s.inputText)) else s
  }

  /** The key handler of the text area. */
  function HandleKeyDown(s: Editor, key: string, ctrlKey: bool): Editor {
    match Dispatch(key, ctrlKey)
    case Accept => ApplyPrediction(s)
    case Retry => RetryPrediction(s)
    case Ignore => s
  }

  /** One event. Only an edit can take text away, and every change of the
      text schedules a debounce timer. */
  function Step(s: Editor, e: Event): (r: Editor)
    requires Enabled(s, e)
    ensures !e.Edit? ==> s.inputText <= r.inputText
    ensures r.inputText != s.inputText ==> r.debouncePending
  {
    match e
    case Edit(value) => OnChange(s, value)
    case DebounceExpired => Expire(s)
    case FetchCompleted(i, reply) => Complete(s, i, reply)
    case SuggestionClicked => ApplyPrediction(s)
    case RetryClicked => RetryPrediction(s)
    case KeyDown(key, ctrlKey) => HandleKeyDown(s, key, ctrlKey)
  }

  /** Replays a trace; `None` when some event in it cannot happen at its turn. */
  function Run(s: Editor, es: seq<Event>): Option<Editor>
    decreases |es|
  {
    if es == [] then Some(s)
    else if Enabled(s, es[0]) then Run(Step(s, es[0]), es[1..])
    else None
  }

  // ---------------------------------------------------------------------
  // One event at a time

  /** An edit replaces the text and nothing else: the suggestion and the
      loading flag survive it. */
  lemma EditKeepsSuggestion(s: Editor, value: string)
    ensures var r := Step(s, Edit(value));
      r.inputText == value && r.predictedText == s.predictedText &&
      r.loading == s.loading && r.inFlight == s.inFlight
  {
  }

  /** On expiry with a text of at most three characters no call is made, the
      suggestion is cleared, and the text and loading flag are kept. */
  lemma ShortTextExpiryClearsSuggestion(s: Editor)
    requires s.debouncePending && |s.inputText| <= DebounceMinLength
    ensures var r := Step(s, DebounceExpired);
      r.predictedText == "" && r.loading == s.loading &&
      r.inputText == s.inputText && r.inFlight == s.inFlight && !r.debouncePending
  {
  }

  /** On expiry with a longer text, loading is raised and the backend gets
      the last (at most) 200 characters, which is the whole text when it is
      no longer than that. */
  lemma LongTextExpirySendsSuffix(s: Editor)
    requires s.debouncePending && |s.inputText| > DebounceMinLength
    ensures var r := Step(s, DebounceExpired);
      var sent := DebouncePayload(s.inputText);
      r.loading && r.inFlight == s.inFlight + [sent] &&
      |sent| == Min(|s.inputText|, DebounceWindow) && IsSuffix(sent, s.inputText) &&
      (|s.inputText| <= DebounceWindow ==> sent == s.inputText) &&
      r.inputText == s.inputText && r.predictedText == s.predictedText
  {
  }

  /** A completion stores the reply (or "" for a failure) as the suggestion,
      drops the loading flag and retires exactly the call it finishes. */
  lemma CompletionStoresReply(s: Editor, i: nat, reply: Reply)
    requires i < |s.inFlight|
    ensures var r := Step(s, FetchCompleted(i, reply));
      r.predictedText == (if reply.Answered? then reply.prediction else "") &&
      !r.loading && r.inputText == s.inputText &&
      multiset(r.inFlight) + multiset{s.inFlight[i]} == multiset(s.inFlight)
  {
    assert s.inFlight == s.inFlight[..i] + [s.inFlight[i]] + s.inFlight[i + 1..];
  }

  /** A retry on a text of at most five characters changes nothing. */
  lemma ShortTextRetryIsNoOp(s: Editor)
    requires |s.inputText| <= RetryMinLength
    ensures Step(s, RetryClicked) == s
  {
  }

  /** A retry on a longer text raises loading and sends the last (at most)
      300 characters; the text itself is never touched. */
  lemma LongTextRetrySendsSuffix(s: Editor)
    requires |s.inputText| > RetryMinLength
    ensures var r := Step(s, RetryClicked);
      var sent := RetryPayload(s.inputText);
      r.loading && r.inFlight == s.inFlight + [sent] &&
      |sent| == Min(|s.inputText|, RetryWindow) && IsSuffix(sent, s.inputText) &&
      (|s.inputText| <= RetryWindow ==> sent == s.inputText) &&
      r.inputText == s.inputText && r.predictedText == s.predictedText
  {
  }

  /** Accepting appends the suggestion to the text and clears it; the
      loading flag is kept. */
  lemma AcceptAppendsSuggestion(s: Editor)
    ensures var r := ApplyPrediction(s);
      r.inputText == s.inputText + s.predictedText && r.predictedText == "" &&
      r.loading == s.loading && r.inFlight == s.inFlight
  {
  }

  /** Tab accepts even with Ctrl held; Ctrl with `r` or `R` retries; every
      other key leaves the state as it was. */
  lemma KeyDownRoutes(s: Editor, key: string, ctrlKey: bool)
    ensures key == "Tab" ==> Step(s, KeyDown(key, ctrlKey)) == ApplyPrediction(s)
    ensures key != "Tab" && ctrlKey && (key == "r" || key == "R") ==>
      Step(s, KeyDown(key, ctrlKey)) == Step(s, RetryClicked)
    ensures key != "Tab" && !(ctrlKey && (key == "r" || key == "R")) ==>
      Step(s, KeyDown(key, ctrlKey)) == s
  {
  }

  // ---------------------------------------------------------------------
  // Whole traces

  /** What holds in every reachable state: the loading flag is up only while
      some call is awaited, and every call carries more than three and at
      most 300 characters. */
  ghost predicate Inv(s: Editor) {
    && (s.loading ==> |s.inFlight| > 0)
    && forall p :: p in s.inFlight ==> DebounceMinLength < |p| <= RetryWindow
  }

  lemma MountedSatisfiesInv()
    ensures Inv(Mounted)
  {
  }

  lemma StepPreservesInv(s: Editor, e: Event)
    requires Enabled(s, e) && Inv(s)
    ensures Inv(Step(s, e))
  {
  }

  lemma {:induction false} RunPreservesInv(s: Editor, es: seq<Event>, t: Editor)
    requires Inv(s) && Run(s, es) == Some(t)
    ensures Inv(t)
    decreases |es|
  {
    if es != [] {
      StepPreservesInv(s, es[0]);
      RunPreservesInv(Step(s, es[0]), es[1..], t);
    }
  }

  /** Every state reached from mounting satisfies the invariant. */
  lemma ReachableSatisfiesInv(es: seq<Event>, t: Editor)
    requires Run(Mounted, es) == Some(t)
    ensures Inv(t)
  {
    MountedSatisfiesInv();
    RunPreservesInv(Mounted, es, t);
  }

  /** Without a user edit the text only grows: timers, completions, retries
      and key presses can append to it but never remove from it. */
  lemma {:induction false} InputGrowsWithoutEdits(s: Editor, es: seq<Event>, t: Editor)
    requires Run(s, es) == Some(t)
    requires forall k :: 0 <= k < |es| ==> !es[k].Edit?
    ensures s.inputText <= t.inputText
    decreases |es|
  {
    if es != [] {
      var s' := Step(s, es[0]);
      InputGrowsWithoutEdits(s', es[1..], t);
    }
  }

  /** Nothing fences a reply to its request: two retries whose replies come
      back newest first leave the older reply as the suggestion, and the
      first completion already drops the loading flag while the other call
      is still awaited. */
  lemma OlderReplyOverwritesNewer(text: string, older: string, newer: string)
    requires |text| > RetryMinLength
    ensures var s := Editor(text, "", false, false, []);
      var sent := RetryPayload(text);
      && Run(s, [RetryClicked, RetryClicked, FetchCompleted(1, Answered(newer))])
         == Some(Editor(text, newer, false, false, [sent]))
      && Run(s, [RetryClicked, RetryClicked, FetchCompleted(1, Answered(newer)),
                 FetchCompleted(0, Answered(older))])
         == Some(Editor(text, older, false, false, []))
  {
    var s := Editor(text, "", false, false, []);
    var sent := RetryPayload(text);
    var s1 := Step(s, RetryClicked);
    assert s1 == Editor(text, "", true, false, [sent]);
    var s2 := Step(s1, RetryClicked);
    assert s2 == Editor(text, "", true, false, [sent, sent]);
    var s3 := Step(s2, FetchCompleted(1, Answered(newer)));
    assert s3 == Editor(text, newer, false, false, [sent]);
    var s4 := Step(s3, FetchCompleted(0, Answered(older)));
    assert s4 == Editor(text, older, false, false, []);
    var done0 := FetchCompleted(0, Answered(older));
    var done1 := FetchCompleted(1, Answered(newer));
    assert Run(s3, [done0]) == Run(s4, []) == Some(s4);
    assert Run(s2, [done1, done0]) == Run(s3, [done0]);
    assert Run(s1, [RetryClicked, done1, done0]) == Run(s2, [done1, done0]);
    assert Run(s, [RetryClicked, RetryClicked, done1, done0]) == Run(s1, [RetryClicked, done1, done0]);
    assert Run(s2, [done1]) == Run(s3, []) == Some(s3);
    assert Run(s1, [RetryClicked, done1]) == Run(s2, [done1]);
    assert Run(s, [RetryClicked, RetryClicked, done1]) == Run(s1, [RetryClicked, done1]);
  }
}
