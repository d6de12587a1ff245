/**
 * The exception hierarchy of exceptions.py as a datatype, the HTTP reply
 * the transports receive, and the conversion to `ToolError` that every tool
 * performs at its boundary.
 */
module Errors {
  import opened Json

  /**
   * `ProviderError` and its subclass `MeetupGraphQLError` (here
   * `GraphQLError`, carrying the structured list) are the only kinds the
   * tools convert. `ValueError` is raised by the adapters' dispatch tables
   * and by JSON decoding. `HttpStatusError` is httpx's `raise_for_status`.
   * `Fault` is any other Python exception the core never catches
   * (TypeError, AttributeError, KeyError).
   */
  datatype Error =
    | AuthenticationError(message: string)
    | ProviderError(message: string)
    | GraphQLError(message: string, errors: Value)
    | ValueError(message: string)
    | HttpStatusError(status: int)
    | Fault(message: string)
    | ToolError(message: string)

  datatype Result<+T> = Ok(value: T) | Err(error: Error)

  /** `isinstance(exc, ProviderError)`. */
  predicate IsProviderError(e: Error) {
    e.ProviderError? || e.GraphQLError?
  }

  /** An HTTP response as the core reads it: `body` is `resp.json()`, `None` when the text is not JSON. */
  datatype HttpReply = HttpReply(status: int, text: string, body: Option<Value>)

  /** httpx's `is_success`, which `raise_for_status` tests. */
  predicate IsSuccess(status: int) {
    200 <= status < 300
  }

  const JsonDecodeMessage := "Expecting value: response body is not JSON"

  /** `resp.raise_for_status()` followed by `resp.json()`. */
  function CheckedJson(reply: HttpReply): (r: Result<Value>)
    ensures r.Ok? <==> IsSuccess(reply.status) && reply.body.Some?
    ensures r.Ok? ==> r.value == reply.body.value
    ensures !IsSuccess(reply.status) ==> r == Err(HttpStatusError(reply.status))
    ensures IsSuccess(reply.status) && reply.body.None? ==> r == Err(ValueError(JsonDecodeMessage))
  {
    if !IsSuccess(reply.status) then Err(HttpStatusError(reply.status))
    else if reply.body.None? then Err(ValueError(JsonDecodeMessage))
    else Ok(reply.body.value)
  }

  /**
   * `except ProviderError as exc: raise ToolError(str(exc)) from exc`:
   * provider errors become tool errors with the same message; everything
   * else propagates unchanged.
   */
  function ToolBoundary<T>(r: Result<T>): (t: Result<T>)
    ensures r.Ok? ==> t == r
    ensures r.Err? && IsProviderError(r.error) ==> t == Err(ToolError(r.error.message))
    ensures r.Err? && !IsProviderError(r.error) ==> t == r
  {
    match r
    case Ok(_) => r
    case Err(e) => if IsProviderError(e) then Err(ToolError(e.message)) else r
  }

  /** `except (ProviderError, ValueError) as exc`, the wider boundary of `meetup_event_action`. */
  function ActionToolBoundary<T>(r: Result<T>): (t: Result<T>)
    ensures r.Ok? ==> t == r
    ensures r.Err? && (IsProviderError(r.error) || r.error.ValueError?) ==> t == Err(ToolError(r.error.message))
    ensures r.Err? && !IsProviderError(r.error) && !r.error.ValueError? ==> t == r
  {
    match r
    case Ok(_) => r
    case Err(e) => if IsProviderError(e) || e.ValueError? then Err(ToolError(e.message)) else r
  }

  /** A `ValueError` crosses the create/edit boundary untouched but not the action boundary. */
  lemma ValueErrorOnlyCaughtByAction<T>(msg: string)
    ensures ToolBoundary<T>(Err(ValueError(msg))) == Err(ValueError(msg))
    ensures ActionToolBoundary<T>(Err(ValueError(msg))) == Err(ToolError(msg))
  {
  }

  /** Both boundaries agree on everything except `ValueError`. */
  lemma BoundariesAgreeOffValueError<T>(r: Result<T>)
    requires !(r.Err? && r.error.ValueError?)
    ensures ToolBoundary(r) == ActionToolBoundary(r)
  {
  }
}
