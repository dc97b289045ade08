/** The client of the asynchronous summarizer service (src/api.ts): the mapping
    of request failures to user-facing messages, and the two calls that route
    their failures through it. The HTTP requests themselves are not modelled;
    what they settle to is a parameter. */
module Api {
  import opened Js

  const InvalidApiKeyMessage := "Invalid API key. Please check your API key and try again."
  const RequestFailedMessage := "An error occurred while processing your request."
  const UnexpectedMessage := "An unexpected error occurred."

  /** The HTTP response attached to a failed request: its status code and the
      `message` field of its JSON body, if the body has one. */
  datatype HttpResponse = HttpResponse(status: int, dataMessage: Option<string>)

  /** What a failed request rejects with: an error raised by the HTTP client
      (with the server's response when one arrived, and the client's own message),
      or any other value. */
  datatype RequestError =
    | ClientError(response: Option<HttpResponse>, message: Option<string>)
    | OtherError

  /** The body of a successful start request. */
  datatype StartResponse = StartResponse(jobId: string)

  /** The body of a successful poll request. */
  datatype PollResponse = PollResponse(status: string, text: string)

  /** `error.response?.status === 401` on a client error. */
  predicate IsUnauthorized(e: RequestError) {
    e.ClientError? && e.response.Some? && e.response.value.status == 401
  }

  /** `error.response?.data?.message` on a client error. */
  function ServerMessage(e: RequestError): Option<string>
    requires e.ClientError?
  {
    if e.response.Some? then e.response.value.dataMessage else None
  }

  /** `handleApiError`: never returns, always throws an `Error`. The thrown
      message is never empty, and is chosen by precedence: a 401 first, then the
      server's message, then the client's message, then a generic default; any
      error not raised by the HTTP client gets a fixed message. */
  function HandleApiError(e: RequestError): (thrown: Thrown)
    ensures thrown.ErrorInstance? && thrown.message != ""
    ensures IsUnauthorized(e) ==> thrown.message == InvalidApiKeyMessage
    ensures e.ClientError? && !IsUnauthorized(e) && Truthy(ServerMessage(e)) ==>
              thrown.message == ServerMessage(e).value
    ensures e.ClientError? && !IsUnauthorized(e) && !Truthy(ServerMessage(e)) && Truthy(e.message) ==>
              thrown.message == e.message.value
    ensures e.ClientError? && !IsUnauthorized(e) && !Truthy(ServerMessage(e)) && !Truthy(e.message) ==>
              thrown.message == RequestFailedMessage
    ensures e.OtherError? ==> thrown.message == UnexpectedMessage
  {
    match e
    case ClientError(_, clientMessage) =>
      if IsUnauthorized(e) then
        ErrorInstance(InvalidApiKeyMessage)
      else
        ErrorInstance(Or(Or(ServerMessage(e), clientMessage), Some(RequestFailedMessage)).value)
    case OtherError =>
      ErrorInstance(UnexpectedMessage)
  }

  /** The `try { … return response.data } catch (error) { handleApiError(error) }`
      shape shared by both calls: a resolved request passes its body through
      untouched, a rejected one rejects again with an `Error` whose message is
      never empty and, on a 401, names the invalid API key. */
  function Rethrow<T>(call: Settled<T, RequestError>): (r: Settled<T, Thrown>)
    ensures r.Resolved? <==> call.Resolved?
    ensures r.Resolved? ==> r.value == call.value
    ensures r.Rejected? ==> r.reason == HandleApiError(call.reason)
    ensures r.Rejected? ==> r.reason.ErrorInstance? && r.reason.message != ""
    ensures r.Rejected? && IsUnauthorized(call.reason) ==> r.reason.message == InvalidApiKeyMessage
  {
    match call
    case Resolved(data) => Resolved(data)
    case Rejected(e) => Rejected(HandleApiError(e))
  }

  /** `startSummarization(prompt, apiKey)`, given what its POST request settled
      to: the job id of a successful start is handed on as it came; a failure
      rejects with the `Error` that `handleApiError` throws for it. */
  function StartSummarization(post: Settled<StartResponse, RequestError>): (r: Settled<StartResponse, Thrown>)
    ensures r.Resolved? <==> post.Resolved?
    ensures r.Resolved? ==> r.value.jobId == post.value.jobId
    ensures r.Rejected? ==> r.reason == HandleApiError(post.reason) && r.reason.message != ""
  {
    Rethrow(post)
  }

  /** `getSummarizationResult(jobId, apiKey)`, given what its GET request settled
      to: the reported status and text are handed on as they came; a failure
      rejects with the `Error` that `handleApiError` throws for it. */
  function GetSummarizationResult(get: Settled<PollResponse, RequestError>): (r: Settled<PollResponse, Thrown>)
    ensures r.Resolved? <==> get.Resolved?
    ensures r.Resolved? ==> r.value.status == get.value.status && r.value.text == get.value.text
    ensures r.Rejected? ==> r.reason == HandleApiError(get.reason) && r.reason.message != ""
  {
    Rethrow(get)
  }

  /** Both calls map a failure through the same function: the same request error
      yields the same thrown message on either, so a 401 reads alike on both. */
  lemma BothCallsShareErrorMapping(e: RequestError)
    ensures StartSummarization(Rejected(e)).reason == GetSummarizationResult(Rejected(e)).reason
    ensures IsUnauthorized(e) ==>
              StartSummarization(Rejected(e)).reason == ErrorInstance(InvalidApiKeyMessage)
  {
  }
}
