/** The pure rules of the autocomplete widget: how much trailing text is sent
    to the prediction backend, how long the text must be before a request
    starts, what a backend reply turns into, and how a key press is routed. */
module PredictionRules {

  /** The debounced request sends at most this many trailing characters. */
  const DebounceWindow: nat := 200
  /** A retry sends at most this many trailing characters. */
  const RetryWindow: nat := 300
  /** The debounced request starts only for a text longer than this. */
  const DebounceMinLength: nat := 3
  /** A retry starts only for a text longer than this. */
  const RetryMinLength: nat := 5

  function Min(a: nat, b: nat): nat {
    if a <= b then a else b
  }

  /** `suffix` is what remains of `text` after dropping some leading characters. */
  predicate IsSuffix(suffix: string, text: string) {
    |suffix| <= |text| && text[|text| - |suffix|..] == suffix
  }

  /** The last `window` characters of `text`, or all of it when it is no
      longer than that. For the positive windows used here the long case is
      a JavaScript `slice(-window)`. */
  function TextToSend(text: string, window: nat): (r: string)
    ensures |r| == Min(|text|, window)
    ensures IsSuffix(r, text)
  {
    if |text| <= window then text else text[|text| - window..]
  }

  /** Whether the expiry of the debounce timer starts a request. */
  predicate DebounceStartsFetch(text: string) {
    |text| > DebounceMinLength
  }

  /** Whether a retry starts a request. */
  predicate RetryStartsFetch(text: string) {
    |text| > RetryMinLength
  }

  /** The text handed to the backend when the debounce timer expires. */
  function DebouncePayload(text: string): string {
    TextToSend(text, DebounceWindow)
  }

  /** The text handed to the backend on a retry. */
  function RetryPayload(text: string): string {
    TextToSend(text, RetryWindow)
  }

  /** A text no longer than the window is sent whole. */
  lemma ShortTextSentWhole(text: string, window: nat)
    requires |text| <= window
    ensures TextToSend(text, window) == text
  {
  }

  /** A retry never sends less context than the debounced request: the
      debounced payload is the tail of the retry payload. */
  lemma RetryPayloadExtendsDebouncePayload(text: string)
    ensures IsSuffix(DebouncePayload(text), RetryPayload(text))
    ensures |text| <= DebounceWindow ==> DebouncePayload(text) == RetryPayload(text)
  {
  }

  /** Once its length gate is passed, a request carries more characters than
      the gate and no more than its window. */
  lemma PayloadWithinBounds(text: string)
    ensures DebounceStartsFetch(text) ==>
      DebounceMinLength < |DebouncePayload(text)| <= DebounceWindow
    ensures RetryStartsFetch(text) ==>
      RetryMinLength < |RetryPayload(text)| <= RetryWindow
  {
  }

  /** What a call of the prediction backend came back with: the `prediction`
      field of the answer, or a failure of the transport or of the parse. */
  datatype Reply = Answered(prediction: string) | Failed

  /** The string the backend call resolves to; a failure is swallowed into "". */
  function PredictionOf(reply: Reply): string {
    match reply
    case Answered(p) => p
    case Failed => ""
  }

  /** What a key press on the text area asks for. */
  datatype KeyAction = Accept | Retry | Ignore

  /** Tab accepts whatever the modifiers, because it is tested first; Ctrl
      with `r` or `R` retries; every other key is left to the browser. */
  function Dispatch(key: string, ctrlKey: bool): (a: KeyAction)
    ensures a == Accept <==> key == "Tab"
    ensures a == Retry <==> key != "Tab" && ctrlKey && (key == "r" || key == "R")
  {
    if key == "Tab" then Accept
    else if ctrlKey && (key == "r" || key == "R") then Retry
    else Ignore
  }
}
