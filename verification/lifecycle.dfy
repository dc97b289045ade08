/** The job lifecycle of the summarizer page (src/App.tsx) as a value: the
    component's state, the events that change it, one transition per event, and
    what runs of events keep true. The class in AppComponent performs the same
    transitions in place and is proved against `Step`.

    A poll tick is one atomic event: the GET request and the handling of its
    answer happen together. The `startPending` flag stands for the suspended
    `await startSummarization(…)` inside the submit handler; the page itself
    keeps no such field. */
module Lifecycle {
  import opened Js
  import Api

  const JobFailedMessage := "Summarization failed. Please try again."
  const StartFallbackMessage := "Failed to start summarization. Please try again."
  const PollFallbackMessage := "Error polling result. Please try again."

  /** The component's state: the two inputs, the tracked job, the shown result and
      error, the spinner flag, and whether a start request is awaiting its answer. */
  datatype Ui = Ui(
    prompt: string,
    apiKey: string,
    jobId: string,
    result: string,
    loading: bool,
    error: string,
    startPending: bool)

  /** Typing in either field, pressing submit, the start request settling either
      way, and one tick of the polling interval with what its GET request settled to. */
  datatype Event =
    | EditPrompt(text: string)
    | EditApiKey(key: string)
    | Submit
    | StartSucceeded(response: Api.StartResponse)
    | StartFailed(reason: Thrown)
    | PollTick(outcome: Settled<Api.PollResponse, Thrown>)

  /** The submit button is enabled: not loading, and both inputs hold a
      character that is not whitespace (see `SubmitEnabledIsTrimTest`). */
  predicate SubmitEnabled(loading: bool, prompt: string, apiKey: string) {
    !loading && !AllWhitespace(prompt) && !AllWhitespace(apiKey)
  }

  /** The enabled condition is the page's own test, `!(loading || !prompt.trim() || !apiKey.trim())`. */
  lemma SubmitEnabledIsTrimTest(loading: bool, prompt: string, apiKey: string)
    ensures SubmitEnabled(loading, prompt, apiKey) <==> !(loading || Trim(prompt) == "" || Trim(apiKey) == "")
  {
  }

  /** The polling effect arms its interval only while a job id is tracked (`if (!jobId) return`). */
  predicate PollingActive(s: Ui) {
    s.jobId != ""
  }

  /** A poll answer that ends the job: completed, failed, or the request itself failed. */
  predicate IsTerminal(outcome: Settled<Api.PollResponse, Thrown>) {
    outcome.Rejected? || outcome.value.status == "completed" || outcome.value.status == "failed"
  }

  /** Which events can happen in a state: submit only through the enabled button,
      a start answer only while a start is awaited, a tick only while polling. */
  predicate Enabled(s: Ui, e: Event) {
    match e
    case EditPrompt(_) => true
    case EditApiKey(_) => true
    case Submit => SubmitEnabled(s.loading, s.prompt, s.apiKey)
    case StartSucceeded(_) => s.startPending
    case StartFailed(_) => s.startPending
    case PollTick(_) => PollingActive(s)
  }

  /** What every reachable state satisfies: a tracked job means the spinner is on
      and nothing is shown yet; an awaited start means the same with no job
      tracked; a result and an error are never shown together. */
  predicate Inv(s: Ui) {
    && (PollingActive(s) ==> s.loading && s.result == "" && s.error == "")
    && (s.startPending ==> s.loading && !PollingActive(s) && s.result == "" && s.error == "")
    && (s.result == "" || s.error == "")
  }

  /** The state after the page mounts: every `useState` initial value. */
  function Initial(): (s: Ui)
    ensures Inv(s) && !s.loading && !PollingActive(s) && !s.startPending
    ensures s.result == "" && s.error == ""
  {
    Ui("", "", "", "", false, "", false)
  }

  /** Typing in the textarea; it is disabled while loading, so typing then changes nothing. */
  function OnEditPrompt(s: Ui, text: string): (t: Ui)
    ensures s.loading ==> t == s
    ensures !s.loading ==> t.prompt == text
    ensures t.(prompt := s.prompt) == s
  {
    if s.loading then s else s.(prompt := text)
  }

  /** Typing in the API key field, which is never disabled. */
  function OnEditApiKey(s: Ui, key: string): (t: Ui)
    ensures t.apiKey == key && t.(apiKey := s.apiKey) == s
  {
    s.(apiKey := key)
  }

  /** `handleSubmit` up to its `await`: the spinner goes on, the previous error
      and result are cleared, and the start request is sent with the current
      inputs. From a state satisfying the invariant, no job is being polled, so
      none is abandoned. */
  function OnSubmit(s: Ui): (t: Ui)
    requires SubmitEnabled(s.loading, s.prompt, s.apiKey)
    ensures t.loading && t.error == "" && t.result == "" && t.startPending
    ensures t.prompt == s.prompt && t.apiKey == s.apiKey && t.jobId == s.jobId
    ensures Inv(s) ==> !PollingActive(s) && !s.startPending && Inv(t)
  {
    s.(loading := true, error := "", result := "", startPending := true)
  }

  /** `setJobId(response.job_id)`: the returned id is tracked and polling starts
      exactly when it is non-empty; the spinner stays on. */
  function OnStartSucceeded(s: Ui, response: Api.StartResponse): (t: Ui)
    requires s.startPending
    ensures t.jobId == response.jobId && t.loading == s.loading && !t.startPending
    ensures PollingActive(t) <==> response.jobId != ""
    ensures t.(jobId := s.jobId, startPending := true) == s
  {
    s.(jobId := response.jobId, startPending := false)
  }

  /** The submit handler's `catch`: the thrown message (or a fixed fallback for a
      non-`Error`) is shown, the spinner goes off, and no job id is recorded. */
  function OnStartFailed(s: Ui, reason: Thrown): (t: Ui)
    requires s.startPending
    ensures t.error == MessageOr(reason, StartFallbackMessage) && !t.loading && !t.startPending
    ensures t == s.(error := MessageOr(reason, StartFallbackMessage), loading := false, startPending := false)
    ensures t.jobId == s.jobId && t.result == s.result && t.prompt == s.prompt && t.apiKey == s.apiKey
    ensures Inv(s) ==> !PollingActive(t)
  {
    s.(error := MessageOr(reason, StartFallbackMessage), loading := false, startPending := false)
  }

  /** `pollResult`: a completed job shows exactly the reported text, a failed job
      shows a fixed message, a failed request shows its message; each of these
      turns the spinner off and clears the job id. Any other status changes
      nothing. So polling goes on exactly when the answer is not terminal. */
  function OnPollTick(s: Ui, outcome: Settled<Api.PollResponse, Thrown>): (t: Ui)
    requires PollingActive(s)
    ensures PollingActive(t) <==> !IsTerminal(outcome)
    ensures !IsTerminal(outcome) ==> t == s
    ensures IsTerminal(outcome) ==> !t.loading && t.jobId == ""
    ensures outcome.Resolved? && outcome.value.status == "completed" ==>
              t == s.(result := outcome.value.text, loading := false, jobId := "")
    ensures outcome.Resolved? && outcome.value.status == "failed" ==>
              t == s.(error := JobFailedMessage, loading := false, jobId := "")
    ensures outcome.Rejected? ==>
              t == s.(error := MessageOr(outcome.reason, PollFallbackMessage), loading := false, jobId := "")
  {
    match outcome
    case Resolved(response) =>
      if response.status == "completed" then
        s.(result := response.text, loading := false, jobId := "")
      else if response.status == "failed" then
        s.(error := JobFailedMessage, loading := false, jobId := "")
      else
        s
    case Rejected(reason) =>
      s.(error := MessageOr(reason, PollFallbackMessage), loading := false, jobId := "")
  }

  /** One event. Every enabled event keeps the invariant. */
  function Step(s: Ui, e: Event): (t: Ui)
    requires Enabled(s, e)
    ensures Inv(s) ==> Inv(t)
  {
    match e
    case EditPrompt(text) => OnEditPrompt(s, text)
    case EditApiKey(key) => OnEditApiKey(s, key)
    case Submit => OnSubmit(s)
    case StartSucceeded(response) => OnStartSucceeded(s, response)
    case StartFailed(reason) => OnStartFailed(s, reason)
    case PollTick(outcome) => OnPollTick(s, outcome)
  }

  /** Every event of `evs` is enabled in the state the earlier ones lead to. */
  predicate Admissible(s: Ui, evs: seq<Event>)
    decreases |evs|
  {
    evs == [] || (Enabled(s, evs[0]) && Admissible(Step(s, evs[0]), evs[1..]))
  }

  /** The state an admissible run of events leads to. */
  function Run(s: Ui, evs: seq<Event>): Ui
    requires Admissible(s, evs)
    decreases |evs|
  {
    if evs == [] then s else Run(Step(s, evs[0]), evs[1..])
  }

  /** A run of events from a state that satisfies the invariant ends in one that does. */
  lemma {:induction false} RunKeepsInvariant(s: Ui, evs: seq<Event>)
    requires Inv(s) && Admissible(s, evs)
    ensures Inv(Run(s, evs))
    decreases |evs|
  {
    if evs != [] {
      RunKeepsInvariant(Step(s, evs[0]), evs[1..]);
    }
  }

  /** Every state the page can reach from its initial one satisfies the invariant;
      in particular a tracked job id always comes with the spinner on. */
  lemma ReachableStatesKeepInvariant(evs: seq<Event>)
    requires Admissible(Initial(), evs)
    ensures Inv(Run(Initial(), evs))
    ensures PollingActive(Run(Initial(), evs)) ==> Run(Initial(), evs).loading
  {
    RunKeepsInvariant(Initial(), evs);
  }

  /** With no job tracked, an event other than a successful start is not a tick
      and leaves no job tracked. */
  lemma StepKeepsNoJob(s: Ui, e: Event)
    requires !PollingActive(s) && Enabled(s, e) && !e.StartSucceeded?
    ensures !e.PollTick? && !PollingActive(Step(s, e))
  {
  }

  /** Once no job is tracked, no tick happens until a start request succeeds
      again: every run without a successful start contains no poll. */
  lemma {:induction false} NoPollWithoutNewJob(s: Ui, evs: seq<Event>)
    requires !PollingActive(s) && Admissible(s, evs)
    requires forall i :: 0 <= i < |evs| ==> !evs[i].StartSucceeded?
    ensures forall i :: 0 <= i < |evs| ==> !evs[i].PollTick?
    ensures !PollingActive(Run(s, evs))
    decreases |evs|
  {
    if evs != [] {
      var e, rest := evs[0], evs[1..];
      assert !e.StartSucceeded?;
      StepKeepsNoJob(s, e);
      forall i | 0 <= i < |rest| ensures !rest[i].StartSucceeded? {
        assert rest[i] == evs[i + 1];
      }
      NoPollWithoutNewJob(Step(s, e), rest);
      forall i | 0 <= i < |evs| ensures !evs[i].PollTick? {
        if i > 0 { assert evs[i] == rest[i - 1]; }
      }
    }
  }

  /** A completed or failed job, or a failed poll request, stops polling for good:
      after it, no further tick happens until a new start request succeeds. */
  lemma TerminalAnswerStopsPolling(s: Ui, outcome: Settled<Api.PollResponse, Thrown>, evs: seq<Event>)
    requires PollingActive(s) && IsTerminal(outcome)
    requires Admissible(OnPollTick(s, outcome), evs)
    requires forall i :: 0 <= i < |evs| ==> !evs[i].StartSucceeded?
    ensures forall i :: 0 <= i < |evs| ==> !evs[i].PollTick?
  {
    NoPollWithoutNewJob(OnPollTick(s, outcome), evs);
  }

  /** A start answer whose job id is empty (or missing) leaves the page stuck:
      the spinner stays on, nothing is polled, and no event but typing is
      possible, so every later state still shows the spinner. */
  lemma EmptyJobIdStalls(s: Ui, evs: seq<Event>)
    requires Inv(s) && s.startPending
    requires Admissible(OnStartSucceeded(s, Api.StartResponse("")), evs)
    ensures var t := OnStartSucceeded(s, Api.StartResponse(""));
            Run(t, evs).loading && !PollingActive(Run(t, evs))
    ensures forall i :: 0 <= i < |evs| ==> evs[i].EditPrompt? || evs[i].EditApiKey?
  {
    OnlyTypingWhileStalled(OnStartSucceeded(s, Api.StartResponse("")), evs);
  }

  /** From a state with the spinner on, no job and no awaited start, only typing can happen. */
  lemma {:induction false} OnlyTypingWhileStalled(s: Ui, evs: seq<Event>)
    requires s.loading && !PollingActive(s) && !s.startPending && Admissible(s, evs)
    ensures Run(s, evs).loading && !PollingActive(Run(s, evs)) && !Run(s, evs).startPending
    ensures forall i :: 0 <= i < |evs| ==> evs[i].EditPrompt? || evs[i].EditApiKey?
    decreases |evs|
  {
    if evs != [] {
      OnlyTypingWhileStalled(Step(s, evs[0]), evs[1..]);
      forall i | 0 <= i < |evs| ensures evs[i].EditPrompt? || evs[i].EditApiKey? {
        if i > 0 { assert evs[i] == evs[1..][i - 1]; }
      }
    }
  }

  /** A failed start or poll request reaches the page as the `Error` thrown by the
      API client, so the page shows that error's message rather than its own
      fallback: never empty, and for a 401 the invalid-key message. No job id is
      recorded by a failed start; a failed poll clears the tracked one. */
  lemma RequestFailuresShowApiMessage(s: Ui, e: Api.RequestError)
    ensures s.startPending ==>
              var t := OnStartFailed(s, Api.StartSummarization(Rejected(e)).reason);
              && t.error == Api.HandleApiError(e).message && t.error != ""
              && (Api.IsUnauthorized(e) ==> t.error == Api.InvalidApiKeyMessage)
              && (Inv(s) ==> !PollingActive(t))
    ensures PollingActive(s) ==>
              var t := OnPollTick(s, Api.GetSummarizationResult(Rejected(e)));
              && t.error == Api.HandleApiError(e).message && t.error != ""
              && (Api.IsUnauthorized(e) ==> t.error == Api.InvalidApiKeyMessage)
              && !PollingActive(t)
  {
  }

  /** Running one enabled event and then a run is running the longer run. */
  lemma RunFirst(s: Ui, e: Event, rest: seq<Event>)
    requires Enabled(s, e) && Admissible(Step(s, e), rest)
    ensures Admissible(s, [e] + rest) && Run(s, [e] + rest) == Run(Step(s, e), rest)
  {
    assert ([e] + rest)[0] == e && ([e] + rest)[1..] == rest;
  }

  /** A run that submits, gets a job id, sees "pending" once and then
      "completed": the page ends showing exactly the reported text, spinner off,
      polling stopped. (For instance prompt "The quick brown fox...", key "k1",
      job "abc123" and text "# Summary\nFox jumps.".) */
  lemma ScenarioPendingThenCompleted(prompt: string, key: string, jobId: string, text: string)
    requires !AllWhitespace(prompt) && !AllWhitespace(key) && jobId != ""
    ensures var evs := [
              EditApiKey(key), EditPrompt(prompt), Submit,
              StartSucceeded(Api.StartResponse(jobId)),
              PollTick(Resolved(Api.PollResponse("pending", ""))),
              PollTick(Resolved(Api.PollResponse("completed", text)))];
            && Admissible(Initial(), evs)
            && Run(Initial(), evs).result == text
            && !Run(Initial(), evs).loading && !PollingActive(Run(Initial(), evs))
  {
    var e0, e1, e2 := EditApiKey(key), EditPrompt(prompt), Submit;
    var e3 := StartSucceeded(Api.StartResponse(jobId));
    var e4 := PollTick(Resolved(Api.PollResponse("pending", "")));
    var e5 := PollTick(Resolved(Api.PollResponse("completed", text)));
    var s1 := Step(Initial(), e0);
    var s2 := Step(s1, e1);
    var s3 := Step(s2, e2);
    var s4 := Step(s3, e3);
    var s5 := Step(s4, e4);
    var s6 := Step(s5, e5);
    RunFirst(s5, e5, []);
    RunFirst(s4, e4, [e5]);
    RunFirst(s3, e3, [e4, e5]);
    RunFirst(s2, e2, [e3, e4, e5]);
    RunFirst(s1, e1, [e2, e3, e4, e5]);
    RunFirst(Initial(), e0, [e1, e2, e3, e4, e5]);
    assert [e0] + [e1, e2, e3, e4, e5] == [e0, e1, e2, e3, e4, e5];
  }

  /** A start request rejected with a 401, whatever else the error carries: the
      page shows the invalid-key message, the spinner goes off, and no job id is
      ever recorded. */
  lemma ScenarioInvalidApiKey(prompt: string, key: string, message: Option<string>, dataMessage: Option<string>)
    requires !AllWhitespace(prompt) && !AllWhitespace(key)
    ensures var e := Api.ClientError(Some(Api.HttpResponse(401, dataMessage)), message);
            var evs := [
              EditApiKey(key), EditPrompt(prompt), Submit,
              StartFailed(Api.StartSummarization(Rejected(e)).reason)];
            && Admissible(Initial(), evs)
            && Run(Initial(), evs).error == Api.InvalidApiKeyMessage
            && !Run(Initial(), evs).loading && !PollingActive(Run(Initial(), evs))
  {
    var e := Api.ClientError(Some(Api.HttpResponse(401, dataMessage)), message);
    var e0, e1, e2 := EditApiKey(key), EditPrompt(prompt), Submit;
    var e3 := StartFailed(Api.StartSummarization(Rejected(e)).reason);
    var s1 := Step(Initial(), e0);
    var s2 := Step(s1, e1);
    var s3 := Step(s2, e2);
    RunFirst(s3, e3, []);
    RunFirst(s2, e2, [e3]);
    RunFirst(s1, e1, [e2, e3]);
    RunFirst(Initial(), e0, [e1, e2, e3]);
    assert [e0] + [e1, e2, e3] == [e0, e1, e2, e3];
  }

  /** A job whose first poll reports "failed": the page shows the fixed
      job-failed message and polling stops. */
  lemma ScenarioJobFailed(prompt: string, key: string, jobId: string)
    requires !AllWhitespace(prompt) && !AllWhitespace(key) && jobId != ""
    ensures var evs := [
              EditApiKey(key), EditPrompt(prompt), Submit,
              StartSucceeded(Api.StartResponse(jobId)),
              PollTick(Resolved(Api.PollResponse("failed", "")))];
            && Admissible(Initial(), evs)
            && Run(Initial(), evs).error == JobFailedMessage
            && !Run(Initial(), evs).loading && !PollingActive(Run(Initial(), evs))
  {
    var e0, e1, e2 := EditApiKey(key), EditPrompt(prompt), Submit;
    var e3 := StartSucceeded(Api.StartResponse(jobId));
    var e4 := PollTick(Resolved(Api.PollResponse("failed", "")));
    var s1 := Step(Initial(), e0);
    var s2 := Step(s1, e1);
    var s3 := Step(s2, e2);
    var s4 := Step(s3, e3);
    RunFirst(s4, e4, []);
    RunFirst(s3, e3, [e4]);
    RunFirst(s2, e2, [e3, e4]);
    RunFirst(s1, e1, [e2, e3, e4]);
    RunFirst(Initial(), e0, [e1, e2, e3, e4]);
    assert [e0] + [e1, e2, e3, e4] == [e0, e1, e2, e3, e4];
  }
}
