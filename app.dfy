/**
 * The HTTP side of actions/app.go that carries decisions: `handleError`, which turns an API error
 * kind into an HTTP status, and the missing-token branch of the `sharedTokenAuth` middleware.
 * A handler's answer is an `Outcome`: a rendered body, an HTTP error with its status, or an error
 * returned as-is to the framework (whose default error handler is not part of this model).
 */
module App {
  import opened Wrappers
  import opened ErrorValues
  import Errors

  datatype Outcome<B> =
    | Render(status: nat, body: B)
    | HttpError(status: nat, err: Error)
    | Returned(err: Error)

  /** The HTTP status `handleError` uses for an API error code. */
  function StatusOf(code: ApiCode): (status: nat)
    ensures code == Forbidden ==> status == 403
    ensures code == NotFound ==> status == 404
    ensures code == Conflict ==> status == 409
    ensures code == BadRequest ==> status == 400
    ensures code == LimitExceeded ==> status == 429
    ensures code !in {Forbidden, NotFound, Conflict, BadRequest, LimitExceeded} ==> status == 500
  {
    match code
    case Forbidden => 403
    case NotFound => 404
    case Conflict => 409
    case BadRequest => 400
    case LimitExceeded => 429
    case _ => 500
  }

  /**
   * `handleError`: the cause of `err` is unwrapped; an API error is answered with its code's status
   * and the unwrapped error, anything else with 500 and the original error.
   */
  function HandleError<B>(err: Error): (r: Outcome<B>)
    ensures r.HttpError?
    ensures Cause(err).Api? ==> r == HttpError(StatusOf(Cause(err).apiCode), Cause(err))
    ensures !Cause(err).Api? ==> r == HttpError(500, err)
    ensures r.status in {400, 403, 404, 409, 429, 500}
  {
    var c := Cause(err);
    if c.Api? then HttpError(StatusOf(c.apiCode), c) else HttpError(500, err)
  }

  /**
   * Classifying a provider error and then handling it gives the status of its kind: internal
   * faults and errors without a provider code 500, conflicts 409, not-found 404, quota 429,
   * unknown codes 400; a classified error never reads as 403.
   */
  lemma HandleClassifiedError<B>(msg: string, err: Error)
    ensures var s := HandleError<B>(Errors.ErrCode(msg, err)).status;
      s != 403 &&
      (var c := Cause(err);
        (!c.Provider? ==> s == 500) &&
        (c.Provider? && c.code in Errors.InternalCodes ==> s == 500) &&
        (c.Provider? && c.code in Errors.ConflictCodes ==> s == 409) &&
        (c.Provider? && c.code in Errors.NotFoundCodes ==> s == 404) &&
        (c.Provider? && c.code in Errors.LimitCodes ==> s == 429) &&
        (c.Provider? && c.code !in Errors.KnownCodes() ==> s == 400))
  {
    var r := Errors.ErrCode(msg, err);
    assert Cause(r) == r;
  }

  /** The error every failed token check answers with. */
  const ForbiddenError: Error := Plain("Forbidden")

  /**
   * `sharedTokenAuth` around a handler whose own outcome is `next`. `header` holds the values of
   * the `X-Auth-Token` header when it is present; `tokenMatches` stands for the bcrypt comparison of
   * the first value against the configured token.
   */
  function SharedTokenAuth<B>(header: Option<seq<string>>, tokenMatches: string -> bool, next: Outcome<B>)
    : (r: Outcome<B>)
    ensures (header.None? || header.value == []) ==> r == HttpError(403, ForbiddenError)
    ensures r == next || r == HttpError(403, ForbiddenError)
    ensures r != HttpError(403, ForbiddenError) ==> header.Some? && |header.value| > 0 && tokenMatches(header.value[0])
    ensures header.Some? && |header.value| > 0 && tokenMatches(header.value[0]) ==> r == next
  {
    if header.None? || |header.value| == 0 then HttpError(403, ForbiddenError)
    else if !tokenMatches(header.value[0]) then HttpError(403, ForbiddenError)
    else next
  }
}
