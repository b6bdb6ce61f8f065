# AI text interpolation: the suggestion state machine

This project models the logic inside the `AITextInterpolation` React component of the
AICompletion front end. The component is a text area that shows a suggested continuation
from a remote prediction backend. It has three pieces of state: `inputText`,
`predictedText` and `loading`. They change on six kinds of event:

- the user edits the text;
- a 500 ms debounce timer expires after the text stops changing, and a request starts if
  the text has more than 3 characters (the last 200 characters are sent);
- an awaited backend call completes, and its reply, or `""` on failure, becomes the
  suggestion;
- the suggestion is accepted by a click or by Tab, which appends it to the text;
- the user retries with the button or Ctrl+R. A request starts if the text has more than
  5 characters, and the last 300 characters are sent;
- any other key is pressed, which changes nothing.

The project has four modules:

- `PredictionRules` (`prediction_rules.dfy`): the pure rules. These are the two suffix
  windows, the two length gates, how a backend reply becomes a string, and how a key press
  is routed.
- `EditorModel` (`editor_model.dfy`): the state machine as values. There is one transition
  function per handler, a `Step` over events and a `Run` over traces. The module also holds
  the lemmas for each rule, an invariant kept on every reachable state, and a concrete
  trace showing that there is no stale-response fencing.
- `Component` (`component.dfy`): the component as a class. Its fields are `inputText`,
  `predictedText` and `loading`, and it has one method per handler. Each method is proved
  to move the state exactly as `EditorModel.Step` does for the matching event. Each method
  also keeps the invariant.
- `Wrappers` (`wrappers.dfy`): `Option`.

Two things the component does not own are modelled as ghost state:

- whether a debounce timer is scheduled;
- which backend calls are still awaited.

The timer is scheduled on mount. It is scheduled again whenever `inputText` takes a
different value, because the effect depends on `[inputText]`. Timer expiry is an explicit
event, allowed only while a timer is scheduled. A completion names the awaited call it
finishes, so completions can arrive in any order.

The backend (`getAIPrediction`) is not modelled as code. A completion event carries its
outcome as a `Reply`: either `Answered(prediction)` or `Failed`. Any string can be the
answer.

A few behaviours of the code worth stating plainly:

- No request id guards a reply. Any completion overwrites `predictedText` and clears
  `loading`, even while another call is still awaited. `OlderReplyOverwritesNewer` shows
  this with a concrete trace.
- An edit keeps `predictedText`.
- A retry sends the last 300 characters of the text.
- The debounce delay is 500 ms.
- Only the Ctrl key is tested for a retry; Cmd (the meta key) is not.
- The suggestion can be clicked only while it is on screen: `loading` is false and the
  suggestion is not empty. Tab accepts in every state, even an empty suggestion.

## Model

| member | source | states |
|---|---|---|
| `PredictionRules.TextToSend` | src/components/AITextInterpolation.tsx:32 | the text sent has length min(text length, window) and is a suffix of the text |
| `PredictionRules.ShortTextSentWhole` | src/components/AITextInterpolation.tsx:64 | a text no longer than the window is sent whole |
| `PredictionRules.RetryPayloadExtendsDebouncePayload` | src/components/AITextInterpolation.tsx:62-64 | the 200-character debounce payload is a suffix of the 300-character retry payload, and the two are equal for a text of at most 200 characters |
| `PredictionRules.PayloadWithinBounds` | src/components/AITextInterpolation.tsx:30-32 | after its gate passes, a debounce request carries 4 to 200 characters and a retry carries 6 to 300 |
| `PredictionRules.Dispatch` | src/components/AITextInterpolation.tsx:80-90 | the result is Accept exactly when the key is Tab; it is Retry exactly when the key is not Tab, Ctrl is held and the key is `r` or `R`; otherwise it is Ignore |
| `EditorModel.Step` | src/components/AITextInterpolation.tsx:27-51 | only an edit can remove text, and any change of the text leaves a debounce timer scheduled |
| `EditorModel.EditKeepsSuggestion` | src/components/AITextInterpolation.tsx:98 | an edit replaces `inputText` only; `predictedText`, `loading` and the awaited calls are unchanged |
| `EditorModel.ShortTextExpiryClearsSuggestion` | src/components/AITextInterpolation.tsx:30-38 | on expiry with at most 3 characters, no call is made, `predictedText` becomes `""`, and `loading` and `inputText` are unchanged |
| `EditorModel.LongTextExpirySendsSuffix` | src/components/AITextInterpolation.tsx:30-33 | on expiry with more than 3 characters, `loading` is set and one call is added. It carries the last min(text length, 200) characters, which is the whole text when the text is at most 200 long. The text and the suggestion are unchanged |
| `EditorModel.CompletionStoresReply` | src/components/AITextInterpolation.tsx:33-35 | a completion sets `predictedText` to the reply, or `""` on a failure (lines 12-14). It clears `loading`, keeps the text, and retires exactly the call it completes |
| `EditorModel.ShortTextRetryIsNoOp` | src/components/AITextInterpolation.tsx:61-69 | a retry with at most 5 characters leaves the whole state unchanged |
| `EditorModel.LongTextRetrySendsSuffix` | src/components/AITextInterpolation.tsx:62-67 | a retry with more than 5 characters sets `loading` and sends the last min(text length, 300) characters. It never changes `inputText` or `predictedText` |
| `EditorModel.AcceptAppendsSuggestion` | src/components/AITextInterpolation.tsx:50-52 | the accept handler gives `inputText' = inputText + predictedText` and `predictedText' = ""`; `loading` is unchanged |
| `EditorModel.KeyDownRoutes` | src/components/AITextInterpolation.tsx:80-90 | Tab runs the accept handler even when Ctrl is held. Ctrl with `r` or `R` retries. Any other key leaves the state unchanged |
| `EditorModel.MountedSatisfiesInv` | src/components/AITextInterpolation.tsx:19-21 | the state after mounting satisfies the invariant |
| `EditorModel.StepPreservesInv` | src/components/AITextInterpolation.tsx:28-69 | every event keeps the invariant. `loading` is set only while some call is awaited, and every awaited call carries 4 to 300 characters |
| `EditorModel.RunPreservesInv` | src/components/AITextInterpolation.tsx:28-69 | a replayed trace keeps the invariant |
| `EditorModel.ReachableSatisfiesInv` | src/components/AITextInterpolation.tsx:19-69 | every state reachable from mounting satisfies the invariant |
| `EditorModel.InputGrowsWithoutEdits` | src/components/AITextInterpolation.tsx:50-98 | in a trace without user edits, the starting text is a prefix of the final text |
| `EditorModel.OlderReplyOverwritesNewer` | src/components/AITextInterpolation.tsx:61-67 | start two retries and complete the newer call first. The older reply still becomes the suggestion. The first completion already clears `loading` while the other call is awaited |
| `Component.AITextInterpolation.constructor` | src/components/AITextInterpolation.tsx:19-21 | the fields start empty and false, and the first debounce timer is scheduled |
| `Component.AITextInterpolation.SetInputText` | src/components/AITextInterpolation.tsx:44-47 | setting the text schedules a new timer exactly when the value changes |
| `Component.AITextInterpolation.OnChange` | src/components/AITextInterpolation.tsx:98 | the new state is `Step` of the old state on an edit, and the invariant is kept |
| `Component.AITextInterpolation.FireDebounce` | src/components/AITextInterpolation.tsx:28-42 | the new state is `Step` on expiry. A call is made exactly when the text is longer than 3 characters; it carries the debounce payload and becomes the newest awaited call. Otherwise the suggestion is cleared |
| `Component.AITextInterpolation.CompleteFetch` | src/components/AITextInterpolation.tsx:33-35 | the new state is `Step` on that completion, and the invariant is kept |
| `Component.AITextInterpolation.ApplyPrediction` | src/components/AITextInterpolation.tsx:50-58 | the new state is the accept handler applied to the old state: the suggestion is appended to the text and then cleared |
| `Component.AITextInterpolation.ClickSuggestion` | src/components/AITextInterpolation.tsx:104-106 | callable only while the suggestion is shown (not loading, suggestion not empty); the new state is `Step` on the click |
| `Component.AITextInterpolation.RetryPrediction` | src/components/AITextInterpolation.tsx:61-69 | the new state is `Step` on retry. A call is made exactly when the text is longer than 5 characters, and it carries the retry payload; otherwise the state is unchanged. The text is never modified |
| `Component.AITextInterpolation.HandleKeyDown` | src/components/AITextInterpolation.tsx:80-90 | the new state is `Step` on the key. The default action is prevented exactly for Tab and for Ctrl with `r` or `R`. A call is made exactly for Ctrl with `r` or `R` (not Tab) on a text longer than 5 characters, and it carries the retry payload |

## Left out

- The HTTP POST in `getAIPrediction` (src/components/AITextInterpolation.tsx:10) is network I/O. Its outcome is a parameter of the completion event: an arbitrary string, or a failure that becomes `""`. The console logging of a failure is also left out.
- An answer whose JSON has no `prediction` field would store `undefined` rather than a string. The model's backend always answers with a string or fails.
- Timers are not modelled as time. The 500 ms delay and its `clearTimeout` are left out; the model keeps only whether a timer is scheduled and an explicit expiry event. The 2 s reset of the `copied` flag is also left out.
- `copyToClipboard` and the `copied` flag (lines 72-77) use the browser clipboard API.
- Refocusing the text area through `textareaRef` (lines 55-57), `preventDefault` beyond its yes/no outcome, and all rendering (lines 92-137) are UI.
- React's render batching is not modelled. Each handler runs to its first `await` as one atomic event and sees the state of the latest render.
- String lengths are counted in characters of `seq<char>`. JavaScript counts UTF-16 code units, so a `slice(-200)` can split a surrogate pair in a way the model does not show.
- src/App.js (a mount-time GET that only logs) and the presentational wrappers src/components/ui/button.tsx and src/components/ui/textarea.tsx are not part of this model.
