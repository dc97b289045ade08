# AI summarizer client: job lifecycle and error mapping

A model of the browser client of an asynchronous summarization service. The
page takes an API key and a text, starts a summarization job, polls the job
every two seconds until it completes or fails, and shows the result or an
error. Two pieces of logic are modelled:

- **The job lifecycle of the `App` component** (`src/App.tsx`). The
  component's state is `prompt`, `apiKey`, `jobId`, `result`, `loading` and
  `error`. It changes on six events: typing in either field, submitting,
  the start request resolving or rejecting, and one tick of the polling
  interval together with what its request settled to.
  - Module `Lifecycle` gives each event as a function on a state value (`Ui`)
    and proves what runs of events keep true. Every reachable state satisfies
    the invariant `Inv`: a tracked job id means the spinner is on. A terminal
    poll answer clears the job id, which stops polling until a new start
    succeeds.
  - Module `AppComponent` holds the same component as a class `App` with one
    mutable field per `useState` and one method per event. Each method
    ensures that it performs `Lifecycle.Step` for its event in place.
  - The ghost field `startPending` stands for the suspended
    `await startSummarization(...)` inside `handleSubmit`. The component has
    no such field.
- **Error normalisation in the API client** (`src/api.ts`). Module `Api`
  models `handleApiError`, which always throws an `Error` whose message is
  never empty. The message is chosen in order: a 401 gives the invalid-key
  message, then the server's `data.message`, then the client's own
  `message`, then a generic default. Any error that the HTTP client did not
  raise gets a fixed message. Both API calls route their failures through it.

Module `Js` holds the JavaScript semantics the two files rely on. It covers
`undefined`, thrown values (`Error` instances or anything else), settled
promises, `||` on strings (so an empty string counts as absent), and
`String.prototype.trim` over ECMAScript's whitespace set.

One consequence of the code is proved rather than assumed: a start request
that resolves with an empty job id leaves the page stuck. After it the
spinner stays on, nothing is polled, and the submit button stays disabled
(`Lifecycle.EmptyJobIdStalls`). In JavaScript this also covers a missing
`job_id`, since `undefined` is falsy like `''`.

Three behaviours of the code worth stating:
- Polling uses `setInterval`, which does not wait for the previous poll's
  answer. Here each tick is one atomic request-and-answer event.
- A non-401 failure falls back to the HTTP client's own error message
  before the generic default.
- In the model, where each tick is atomic, starting a new job while one is
  polled cannot happen: the submit button is disabled while `loading`, and a
  tracked job id implies `loading`. In the code this holds only as long as no
  poll answers late (see "Overlapping polls" under "Left out").

## Model

| member | source | states |
|---|---|---|
| `Js.Trim` | src/App.tsx:102 | `trim()` is empty exactly when the string is all whitespace; a non-empty result has no whitespace at either end |
| `Api.HandleApiError` | src/api.ts:5-13 | always throws an `Error` with a non-empty message; a 401 maps to the invalid-key message whatever else the error holds; otherwise the server message wins, then the client message, then the generic default; a non-client error maps to the fixed unexpected-error message |
| `Api.Rethrow` | src/api.ts:15-36 | a resolved call passes its body through unchanged; a rejected call rejects again with exactly the `Error` that `handleApiError` throws for its error, whose message is non-empty and the invalid-key message on a 401 |
| `Api.StartSummarization` | src/api.ts:15-25 | a successful start hands on the service's job id unchanged; a failed one rejects with the `Error` `handleApiError` throws for it, never with an empty message |
| `Api.GetSummarizationResult` | src/api.ts:27-36 | a successful poll hands on the reported status and text unchanged; a failed one rejects with the `Error` `handleApiError` throws for it, never with an empty message |
| `Js.MessageOr` | src/App.tsx:27 | `err instanceof Error ? err.message : fallback`: an `Error`'s own message, the fallback for any other thrown value |
| `Api.BothCallsShareErrorMapping` | src/api.ts:22-35 | the start and poll calls turn the same request error into the same thrown error, so a 401 reads alike on both |
| `Lifecycle.SubmitEnabled` | src/App.tsx:102 | the submit button's enabled test: not loading and both inputs hold a non-whitespace character; `SubmitEnabledIsTrimTest` proves this equals the page's `trim()` test in both directions |
| `Lifecycle.SubmitEnabledIsTrimTest` | src/App.tsx:102 | the button is enabled exactly when not loading and neither trimmed input is empty, i.e. both inputs hold a non-whitespace character |
| `Lifecycle.Initial` | src/App.tsx:7-12 | the mounted page satisfies the invariant, shows nothing, has the spinner off and does not poll |
| `Lifecycle.OnEditPrompt` | src/App.tsx:93-96 | typing changes only the prompt, and nothing while loading (the textarea is disabled) |
| `Lifecycle.OnEditApiKey` | src/App.tsx:81-82 | typing in the key field changes only the key |
| `Lifecycle.OnSubmit` | src/App.tsx:15-19 | submit turns the spinner on and clears error and result; from an invariant state no job is tracked or being started, so none is abandoned, and the invariant holds after |
| `Lifecycle.OnStartSucceeded` | src/App.tsx:22-24 | the returned job id is recorded, the spinner stays on, and polling starts exactly when the id is non-empty |
| `Lifecycle.OnStartFailed` | src/App.tsx:25-28 | the thrown message (or the fixed fallback for a non-`Error`) is shown, the spinner goes off, and no job id is recorded; prompt, key and result are unchanged |
| `Lifecycle.OnPollTick` | src/App.tsx:35-53 | polling continues exactly when the answer is not terminal; a non-terminal status changes nothing; completed shows exactly the reported text, failed shows the fixed job-failed message, a rejected poll shows its message; each terminal answer turns the spinner off and clears the job id |
| `Lifecycle.Step` | src/App.tsx:15-58 | every enabled event preserves the invariant |
| `Lifecycle.RunKeepsInvariant` | src/App.tsx:15-58 | any admissible run of events from an invariant state ends in an invariant state |
| `Lifecycle.ReachableStatesKeepInvariant` | src/App.tsx:7-58 | every state reachable from the mounted page satisfies the invariant, so a tracked job id implies `loading` |
| `Lifecycle.NoPollWithoutNewJob` | src/App.tsx:32-33 | with no job tracked, no tick happens in any run until a start request succeeds again |
| `Lifecycle.TerminalAnswerStopsPolling` | src/App.tsx:39-53 | after a completed, failed or rejected poll, no further tick happens until a new job is started |
| `Lifecycle.EmptyJobIdStalls` | src/App.tsx:24 | a start answer with an empty job id leaves the spinner on forever with nothing polled; only typing can follow |
| `Lifecycle.OnlyTypingWhileStalled` | src/App.tsx:33 | from a state with the spinner on, no job and no pending start, every run consists only of typing and keeps that state shape |
| `Lifecycle.RequestFailuresShowApiMessage` | src/App.tsx:25-53 | a failed start or poll request shows the message of the error thrown by the API client, not the page's own fallback, and it is never empty; a 401 shows the invalid-key message; polling is stopped afterwards |
| `Lifecycle.ScenarioPendingThenCompleted` | src/App.tsx:15-53 | submit, start succeeds, one pending poll, then completed: the page shows exactly the reported text, spinner off, polling stopped |
| `Lifecycle.ScenarioInvalidApiKey` | src/App.tsx:15-28 | a start rejected with a 401 shows the invalid-key message, turns the spinner off and records no job id |
| `Lifecycle.ScenarioJobFailed` | src/App.tsx:15-46 | a job whose first poll reports failed shows the fixed job-failed message and polling stops |
| `AppComponent.App.constructor` | src/App.tsx:7-12 | the fields hold their initial values, which satisfy the invariant |
| `AppComponent.App.EditPrompt` | src/App.tsx:93-96 | performs `OnEditPrompt` in place and keeps the invariant |
| `AppComponent.App.EditApiKey` | src/App.tsx:81-82 | performs `OnEditApiKey` in place and keeps the invariant |
| `AppComponent.App.Submit` | src/App.tsx:15-22 | callable only while the button is enabled; performs `OnSubmit` in place, keeps the invariant, and sends the current prompt and key; no job id was tracked |
| `AppComponent.App.StartSucceeded` | src/App.tsx:22-24 | records the returned job id with the spinner still on, in place, keeping the invariant |
| `AppComponent.App.StartFailed` | src/App.tsx:25-28 | shows the thrown message or fallback, turns the spinner off, leaves no job id, in place, keeping the invariant |
| `AppComponent.App.PollTick` | src/App.tsx:32-53 | polls the tracked job with the current key; the job id survives exactly when the answer is not terminal; shows the text, the job-failed message or the request's message accordingly; keeps the invariant |
| `AppComponent.SummarizeOnce` | src/App.tsx:15-53 | a session on a fresh page through the class's methods ends showing exactly the reported text, spinner off, not polling |

## Left out

- The HTTP requests, the base URL and the `X-API-Key` header (src/api.ts:3, 17-20, 29-31) are network I/O. What each request settles to is a parameter.
- The real-time `setInterval(..., 2000)` and its cleanup (src/App.tsx:56-57). Each tick is one atomic event: the request and the handling of its answer happen together.
- Overlapping polls and late answers. `setInterval` (src/App.tsx:56) does not wait for the previous poll, and `clearInterval` (src/App.tsx:57) does not cancel a poll already in flight, including when an `apiKey` edit re-runs the effect (src/App.tsx:58). So two answers for one job can be handled in either order, and an answer can arrive after its job ended, even after a new job started. Such a late answer can clear the new job's id, turn `loading` off while a job is tracked, show the old job's text, or show an error beside a result; it can also change the state after a terminal answer. The invariant `Lifecycle.Inv` (`jobId != ""` implies `loading`, never both a result and an error) and the polling lemmas therefore describe only runs without late answers. This asynchronous interleaving is not modelled.
- Re-running the polling effect when `apiKey` changes (src/App.tsx:58). Its only effect kept here is that each tick uses the current key.
- Markup, Markdown rendering, the textarea auto-resize effect (src/App.tsx:60-126) and `console` logging are presentation or side output.
- Response bodies whose fields are not strings. A missing `job_id` behaves like the empty id, which is modelled. A missing `text` on a completed job, or a non-string `data.message`, is not modelled.
- Form validation beyond the button's enabled state. The `required` attribute on the key input blocks a submit with an empty key, which the enabled condition already excludes.
