/** The `App` component of src/App.tsx as an object: each `useState` pair is a
    mutable field, and each handler is a method that assigns the fields the way
    the handler calls the setters. Every method performs, in place, the
    transition that `Lifecycle.Step` gives for its event, and so keeps
    `Lifecycle.Inv`. Network answers arrive as method arguments. */
module AppComponent {
  import opened Js
  import Api
  import Lifecycle

  class App {
    var prompt: string
    var apiKey: string
    var jobId: string
    var result: string
    var loading: bool
    var error: string
    /** A start request sent by `handleSubmit` has not settled yet. */
    ghost var startPending: bool

    /** The component's state as a value. */
    ghost function View(): Lifecycle.Ui
      reads this
    {
      Lifecycle.Ui(prompt, apiKey, jobId, result, loading, error, startPending)
    }

    ghost predicate Valid()
      reads this
    {
      Lifecycle.Inv(View())
    }

    /** Whether the submit button is enabled. */
    predicate CanSubmit()
      reads this
    {
      Lifecycle.SubmitEnabled(loading, prompt, apiKey)
    }

    /** Mounting: every field holds its `useState` initial value. */
    constructor ()
      ensures View() == Lifecycle.Initial() && Valid()
    {
      prompt, apiKey, jobId, result := "", "", "", "";
      loading, error := false, "";
      startPending := false;
    }

    /** The textarea's `onChange`; the textarea is disabled while loading. */
    method EditPrompt(text: string)
      requires Valid()
      modifies this
      ensures Valid() && View() == Lifecycle.Step(old(View()), Lifecycle.EditPrompt(text))
      ensures prompt == (if old(loading) then old(prompt) else text)
    {
      if !loading {
        prompt := text;
      }
    }

    /** The API key input's `onChange`. */
    method EditApiKey(key: string)
      requires Valid()
      modifies this
      ensures Valid() && View() == Lifecycle.Step(old(View()), Lifecycle.EditApiKey(key))
      ensures apiKey == key
    {
      apiKey := key;
    }

    /** `handleSubmit` up to `await startSummarization(prompt, apiKey)`, which the
        form fires only while the button is enabled. Returns the arguments of
        the start request. No job was being polled, so none is abandoned. */
    method Submit() returns (sentPrompt: string, sentKey: string)
      requires Valid() && CanSubmit()
      modifies this
      ensures Valid() && View() == Lifecycle.Step(old(View()), Lifecycle.Submit)
      ensures loading && error == "" && result == "" && startPending
      ensures old(jobId) == "" && jobId == ""
      ensures sentPrompt == prompt && sentKey == apiKey
    {
      loading := true;
      error := "";
      result := "";
      startPending := true;
      sentPrompt, sentKey := prompt, apiKey;
    }

    /** The start request resolved: `setJobId(response.job_id)`. Polling starts
        exactly when the id is non-empty; the spinner stays on. */
    method StartSucceeded(response: Api.StartResponse)
      requires Valid() && startPending
      modifies this
      ensures Valid() && View() == Lifecycle.Step(old(View()), Lifecycle.StartSucceeded(response))
      ensures jobId == response.jobId && loading && !startPending
    {
      jobId := response.jobId;
      startPending := false;
    }

    /** The start request rejected: the thrown message (or the fallback for a
        non-`Error`) is shown and the spinner goes off; no job id is recorded. */
    method StartFailed(reason: Thrown)
      requires Valid() && startPending
      modifies this
      ensures Valid() && View() == Lifecycle.Step(old(View()), Lifecycle.StartFailed(reason))
      ensures error == MessageOr(reason, Lifecycle.StartFallbackMessage) && !loading && jobId == ""
    {
      error := MessageOr(reason, Lifecycle.StartFallbackMessage);
      loading := false;
      startPending := false;
    }

    /** One tick of the polling interval, armed only while a job id is tracked,
        given what `getSummarizationResult(jobId, apiKey)` settled to. Returns the
        arguments of that request. A terminal answer turns the spinner off and
        clears the job id, which disarms the interval; any other status changes
        nothing, so polling goes on. */
    method PollTick(outcome: Settled<Api.PollResponse, Thrown>) returns (polledJobId: string, sentKey: string)
      requires Valid() && jobId != ""
      modifies this
      ensures Valid() && View() == Lifecycle.Step(old(View()), Lifecycle.PollTick(outcome))
      ensures polledJobId == old(jobId) && sentKey == apiKey
      ensures jobId != "" <==> !Lifecycle.IsTerminal(outcome)
      ensures !Lifecycle.IsTerminal(outcome) ==> View() == old(View())
      ensures outcome.Resolved? && outcome.value.status == "completed" ==> result == outcome.value.text
      ensures outcome.Resolved? && outcome.value.status == "failed" ==> error == Lifecycle.JobFailedMessage
      ensures outcome.Rejected? ==> error == MessageOr(outcome.reason, Lifecycle.PollFallbackMessage)
      ensures Lifecycle.IsTerminal(outcome) ==> !loading
    {
      polledJobId, sentKey := jobId, apiKey;
      match outcome
      case Resolved(response) =>
        if response.status == "completed" {
          result := response.text;
          loading := false;
          jobId := "";
        } else if response.status == "failed" {
          error := Lifecycle.JobFailedMessage;
          loading := false;
          jobId := "";
        }
      case Rejected(reason) =>
        error := MessageOr(reason, Lifecycle.PollFallbackMessage);
        loading := false;
        jobId := "";
    }
  }

  /** A user session on a fresh page: type a key and a prompt, submit, the job
      is accepted, one poll reports "pending", the next "completed". The page
      ends showing exactly the reported text with the spinner off and polling
      stopped. */
  method SummarizeOnce(prompt: string, key: string, jobId: string, text: string) returns (shown: string, spinning: bool, polling: bool)
    requires !AllWhitespace(prompt) && !AllWhitespace(key) && jobId != ""
    ensures shown == text && !spinning && !polling
  {
    var app := new App();
    app.EditApiKey(key);
    app.EditPrompt(prompt);
    var sentPrompt, sentKey := app.Submit();
    assert sentPrompt == prompt && sentKey == key;
    app.StartSucceeded(Api.StartResponse(jobId));
    var polled, polledKey := app.PollTick(Resolved(Api.PollResponse("pending", "")));
    assert polled == jobId && polledKey == key;
    polled, polledKey := app.PollTick(Resolved(Api.PollResponse("completed", text)));
    shown, spinning, polling := app.result, app.loading, app.jobId != "";
  }
}
