/**
 * The client's exception taxonomy: the error messages, the ApiException the
 * generated client throws, the PassageException every public operation
 * surfaces, and the outcome of a call before and after classification.
 */
module Errors {
  import opened Wrappers

  const CannotDownloadJwks: string := "Unable to download JWKS due to a network error or incorrect endpoint."
  const VerificationFailed: string := "JWT verification has failed because of incorrect signature or payload data."
  const ApiExceptionMessage: string := "Unexpected exception occured during Api Call"
  const UnexpectedError: string := "An unexpected error occurred."
  const IdentifierNotFound: string := "The user with the specified identifier could not be found in the system."
  const MissingAppId: string := "Your configuration is missing an Application ID (AppID). Include it in the following format: {AppID: YOUR_APP_ID}."
  const MissingApiKey: string := "Your configuration is missing an ApiKey. Please include it in the following format: {ApiKey: YOUR_API_KEY}."

  /** The status a PassageException carries unless an ApiException supplies one. */
  const DefaultStatusCode: int := 500

  /** The generated client's error for a non-success HTTP status. */
  datatype ApiException = ApiException(message: string, statusCode: int)

  /** The client's own exception: a message, an HTTP status and the wrapped cause, if any. */
  datatype PassageException = PassageException(message: string, statusCode: int, inner: Option<Fault>)

  /** Anything a call can throw: the client's own exception, an ApiException, or any other exception. */
  datatype Fault =
    | Raised(passage: PassageException)
    | Api(api: ApiException)
    | Other(kind: string)

  /** How a call ended before classification: a value, or an exception. */
  datatype Outcome<+T> = Returned(value: T) | Threw(fault: Fault)

  /** How a classified call ended: a value, or a PassageException. */
  datatype Result<+T> = Ok(value: T) | Err(error: PassageException) {

    /** The same outcome with the success value transformed. */
    function Map<U>(f: T -> U): (r: Result<U>)
      ensures r.Ok? <==> Ok?
      ensures r.Ok? ==> r.value == f(value)
      ensures r.Err? ==> r.error == error
    {
      match this
      case Ok(v) => Ok(f(v))
      case Err(e) => Err(e)
    }

    /** The same outcome seen as something thrown again by a caller. */
    function Rethrown(): (o: Outcome<T>)
      ensures o.Returned? <==> Ok?
      ensures o.Returned? ==> o.value == value
      ensures o.Threw? ==> o.fault == Raised(error)
    {
      match this
      case Ok(v) => Returned(v)
      case Err(e) => Threw(Raised(e))
    }
  }

  /** `new PassageException(message)`: no cause, default status. */
  function FromMessage(message: string): (e: PassageException)
    ensures e.message == message && e.statusCode == DefaultStatusCode && e.inner == None
  {
    PassageException(message, DefaultStatusCode, None)
  }

  /** `new PassageException(message, ApiException)`: the status is copied from the cause. */
  function FromApiException(message: string, ex: ApiException): (e: PassageException)
    ensures e.message == message && e.statusCode == ex.statusCode && e.inner == Some(Api(ex))
  {
    PassageException(message, ex.statusCode, Some(Api(ex)))
  }

  /**
   * `new PassageException(message, Exception)`: the overload chosen whenever
   * the cause is statically an Exception, so the status stays at the default
   * even when the cause happens to be an ApiException.
   */
  function FromFault(message: string, cause: Fault): (e: PassageException)
    ensures e.message == message && e.statusCode == DefaultStatusCode && e.inner == Some(cause)
  {
    PassageException(message, DefaultStatusCode, Some(cause))
  }
}
