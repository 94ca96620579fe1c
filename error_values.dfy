/**
 * The shapes of Go error values the core distinguishes:
 *  - a provider (AWS SDK) error, which carries a service code and a message (`awserr.Error`);
 *  - an API error built with `apierror.New(code, message, cause)`;
 *  - a plain error built with `errors.New` or `fmt`;
 *  - an error wrapped with context by `errors.Wrap`, which `errors.Cause` removes.
 */
module ErrorValues {
  import opened Wrappers

  /** The codes of the api error library; any code outside the six named ones is `OtherApiCode`. */
  datatype ApiCode =
    | Forbidden
    | NotFound
    | Conflict
    | BadRequest
    | LimitExceeded
    | InternalError
    | OtherApiCode(name: string)

  datatype Error =
    | Provider(code: string, providerMessage: string)
    | Api(apiCode: ApiCode, message: string, cause: Option<Error>)
    | Plain(text: string)
    | Wrapped(context: string, inner: Error)

  /** `errors.Cause`: strips every layer of wrapping. */
  function Cause(err: Error): (r: Error)
    ensures !r.Wrapped?
  {
    match err
    case Wrapped(_, inner) => Cause(inner)
    case _ => err
  }

  /** `aws.StringValue`: a nil string pointer reads as the empty string. */
  function StringValue(s: Option<string>): (r: string)
    ensures s.Some? ==> r == s.value
    ensures s.None? ==> r == ""
  {
    s.GetOr("")
  }

  // Provider error codes the core compares against, as the SDK spells them.
  const DBInstanceNotFoundCode: string := "DBInstanceNotFound"
  const DBClusterNotFoundCode: string := "DBClusterNotFoundFault"
  const DBClusterSnapshotNotFoundCode: string := "DBClusterSnapshotNotFoundFault"
  const DBSnapshotNotFoundCode: string := "DBSnapshotNotFound"

  /** True when `err` is itself a provider error with the given code (a direct type assertion, no unwrapping). */
  predicate IsProviderCode(err: Error, code: string) {
    err.Provider? && err.code == code
  }
}
