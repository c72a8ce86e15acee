/**
 * The error taxonomy of lib/utils/http_errors.js and the values handed to
 * Express's `next`.
 */
module HttpErrors {
  import opened Wrappers

  /**
   * `new HttpError(status, error, message, details)`. The class stores its
   * arguments once and exposes them through getters, so the value is a record
   * whose fields are those getters; `details` is `None` when left undefined.
   */
  datatype HttpError = HttpError(status: int, error: string, message: string, details: Option<string>)

  /** `new InsufficientPermissions()`, the subclass of HttpError used for every denial. */
  function InsufficientPermissions(): (e: HttpError)
    ensures e.status == 403
    ensures e.error == "permissions_insufficient"
    ensures e.message == "Insufficient permissions"
    ensures e.details.None?
  {
    HttpError(403, "permissions_insufficient", "Insufficient permissions", None)
  }

  /**
   * A thrown JavaScript value as the global error handler sees it: an
   * instance of HttpError, or any other error with its optional `message`,
   * `status` and `errors` properties.
   */
  datatype Thrown =
    | Http(http: HttpError)
    | Plain(message: Option<string>, status: Option<int>, errors: Option<string>)

  /**
   * What a middleware passes to `next(err)`: a thrown value, or one of the two
   * error classes that are imported from http_errors.js but not defined by it
   * (kept abstract).
   */
  datatype Raised = Thrown(thrown: Thrown) | InvalidOrMissingToken | InvalidOrMissingScope

  /** The argument of one call of `next`: none (`next()`) or an error. */
  datatype NextArg = Proceed | Raise(raised: Raised)

  /** `next(new InsufficientPermissions())`. */
  function Deny(): (n: NextArg)
    ensures n.Raise? && n.raised.Thrown? && n.raised.thrown.Http?
    ensures n.raised.thrown.http.status == 403
  {
    Raise(Thrown(Http(InsufficientPermissions())))
  }
}
