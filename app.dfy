/**
 * The two decisions of index.js that are not plumbing: the OpenAPI security
 * handler `auth` (scope check) and the global error handler installed by
 * `installErrorHandler`.
 */
module App {
  import opened Wrappers
  import opened Text
  import opened HttpErrors
  import opened Express

  /** `required.every(r => granted.includes(r))`. */
  function Every(required: seq<string>, granted: seq<string>): (b: bool)
    ensures b <==> forall i :: 0 <= i < |required| ==> required[i] in granted
  {
    if |required| == 0 then true
    else required[0] in granted && Every(required[1..], granted)
  }

  /**
   * `securityHandlers.auth(req, scopes)`: without a Keycloak grant the request
   * is refused with InvalidOrMissingScope; with one, it is accepted (`true`)
   * exactly when every required scope is among the space-separated scopes of
   * the grant's access token.
   */
  function ScopeCheck(grant: Option<AccessToken>, scopes: seq<string>): (r: Result<bool, Raised>)
    ensures r.Ok? ==> r.value
    ensures r.Err? ==> r.error == InvalidOrMissingScope
    ensures grant.None? ==> r.Err?
    ensures grant.Some? && scopes == [] ==> r.Ok?
  {
    match grant
    case None => Err(InvalidOrMissingScope)
    case Some(token) =>
      var tokenScopes := Split(token.content.scope, ' ');
      if Every(scopes, tokenScopes) then Ok(true) else Err(InvalidOrMissingScope)
  }

  /**
   * When the grant's scope string is the space-join of `granted` (scope names
   * without spaces), the request is accepted exactly when every required scope
   * is one of them.
   */
  lemma ScopeCheckAgainstGranted(token: AccessToken, granted: seq<string>, scopes: seq<string>)
    requires |granted| >= 1 && forall i :: 0 <= i < |granted| ==> ' ' !in granted[i]
    requires token.content.scope == Join(granted, " ")
    ensures ScopeCheck(Some(token), scopes).Ok? <==> forall i :: 0 <= i < |scopes| ==> scopes[i] in granted
  {
    SplitJoin(granted, ' ');
  }

  /** The answer the error handler sends: a JSON body or a plain text body. */
  datatype ErrorResponse =
    | JsonError(status: int, body: ErrorBody)
    | TextError(status: int, text: string)

  /** The JSON error body; `None` members are undefined and left out when serialised. */
  datatype ErrorBody = ErrorBody(status: int, error: Option<string>, message: Option<string>, details: Option<string>)

  /**
   * The global error handler: an HttpError answers with its own status and a
   * body of its status, error, message and details; any other error without a
   * status, or with status 0, is a 500 `Internal server error`; any other
   * status is kept, with its message and `details: errors`.
   */
  function HandleError(e: Thrown): (r: ErrorResponse)
    ensures e.Http? ==> r == JsonError(e.http.status, ErrorBody(e.http.status, Some(e.http.error), Some(e.http.message), e.http.details))
    ensures e.Plain? && (e.status.None? || e.status == Some(0)) ==> r == TextError(500, "Internal server error")
    ensures e.Plain? && e.status.Some? && e.status.value != 0 ==> r == JsonError(e.status.value, ErrorBody(e.status.value, None, e.message, e.errors))
  {
    match e
    case Http(h) =>
      JsonError(h.status, ErrorBody(h.status, Some(h.error), Some(h.message), h.details))
    case Plain(message, status, errors) =>
      if status.None? || status.value == 0 then TextError(500, "Internal server error")
      else JsonError(status.value, ErrorBody(status.value, None, message, errors))
  }

  /** The status of the answer is the error's own, except that a missing or zero status becomes 500. */
  lemma HandleErrorStatus(e: Thrown)
    ensures var s := match HandleError(e) case JsonError(s, _) => s case TextError(s, _) => s;
      s == (match e
            case Http(h) => h.status
            case Plain(_, status, _) => if status.None? || status.value == 0 then 500 else status.value)
  {
  }

  /**
   * The handler loses nothing of an HttpError: the answer carries the four
   * values given to its constructor, read back through its getters, and two
   * HttpErrors that answer alike are the same error.
   */
  lemma HttpErrorEchoed(status: int, error: string, message: string, details: Option<string>, other: HttpError)
    ensures HandleError(Http(HttpError(status, error, message, details))) ==
      JsonError(status, ErrorBody(status, Some(error), Some(message), details))
    ensures HandleError(Http(other)) == HandleError(Http(HttpError(status, error, message, details))) ==>
      other == HttpError(status, error, message, details)
  {
  }

  /** A denial reaches the client as 403 `permissions_insufficient` with no details. */
  lemma InsufficientPermissionsResponse()
    ensures HandleError(Http(InsufficientPermissions())) ==
      JsonError(403, ErrorBody(403, Some("permissions_insufficient"), Some("Insufficient permissions"), None))
  {
  }
}
