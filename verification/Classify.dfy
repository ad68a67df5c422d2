/** Classification of one delivery attempt (packages/common/eventmesh_common/classify.py). */
module Classify {
  import opened Common

  const PERMANENT_4XX: set<int> := {400, 401, 403, 422}
  const RETRYABLE_4XX: set<int> := {408, 409, 425, 429}

  datatype Outcome = Success | Retry | PermanentFailure

  datatype Reason =
    | RequestTimedOut
    | ConnectionFailed
    | NoResponse
    | HttpStatus(code: int)
    | RedirectNotFollowed(code: int)
    | RetryableStatus(code: int)
    | PermanentStatus(code: int)
    | UndeclaredStatus(code: int)
    | ServerError(code: int)
    | UnexpectedStatus(code: int)

  datatype Classification = Classification(outcome: Outcome, reason: Reason)

  function ClassifyResponse(status: Option<int>, timedOut: bool, connectionError: bool): (r: Classification) {
    if timedOut then Classification(Retry, RequestTimedOut)
    else if connectionError then Classification(Retry, ConnectionFailed)
    else if status.None? then Classification(Retry, NoResponse)
    else
      var code := status.value;
      if 200 <= code < 300 then Classification(Success, HttpStatus(code))
      else if 300 <= code < 400 then Classification(PermanentFailure, RedirectNotFollowed(code))
      else if 400 <= code < 500 then
        if code in RETRYABLE_4XX then Classification(Retry, RetryableStatus(code))
        else if code in PERMANENT_4XX then Classification(PermanentFailure, PermanentStatus(code))
        else Classification(PermanentFailure, UndeclaredStatus(code))
      else if 500 <= code < 600 then Classification(Retry, ServerError(code))
      else Classification(Retry, UnexpectedStatus(code))
  }

  /** The status ranges a webhook consumer is told about, stated without the order of the tests. */
  lemma OutcomeByStatus(status: Option<int>, timedOut: bool, connectionError: bool)
    ensures var outcome := ClassifyResponse(status, timedOut, connectionError).outcome;
            var answered := !timedOut && !connectionError && status.Some?;
            && (outcome == Success <==> answered && 200 <= status.value <= 299)
            && (outcome == PermanentFailure <==>
                answered && 300 <= status.value <= 499 && status.value !in {408, 409, 425, 429})
            && (outcome == Retry <==>
                !answered || status.value in {408, 409, 425, 429} || status.value <= 199 || status.value >= 500)
  {
  }

  /** What each recorded reason says about the attempt. */
  ghost predicate Explains(reason: Reason, status: Option<int>, timedOut: bool, connectionError: bool) {
    var answered := !timedOut && !connectionError && status.Some?;
    match reason
    case RequestTimedOut => timedOut
    case ConnectionFailed => !timedOut && connectionError
    case NoResponse => !timedOut && !connectionError && status.None?
    case HttpStatus(code) => answered && status.value == code && 200 <= code <= 299
    case RedirectNotFollowed(code) => answered && status.value == code && 300 <= code <= 399
    case RetryableStatus(code) => answered && status.value == code && code in {408, 409, 425, 429}
    case PermanentStatus(code) => answered && status.value == code && code in {400, 401, 403, 422}
    case UndeclaredStatus(code) =>
      answered && status.value == code && 400 <= code <= 499 && code !in {400, 401, 403, 408, 409, 422, 425, 429}
    case ServerError(code) => answered && status.value == code && 500 <= code <= 599
    case UnexpectedStatus(code) => answered && status.value == code && (code <= 199 || code >= 600)
  }

  /** The reason is true of the attempt, and no other would be. */
  lemma ReasonIsTrue(status: Option<int>, timedOut: bool, connectionError: bool, reason: Reason)
    ensures Explains(reason, status, timedOut, connectionError)
       <==> reason == ClassifyResponse(status, timedOut, connectionError).reason
  {
  }
}
