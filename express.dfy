/**
 * The part of an Express request the middlewares read and change, and the
 * shapes of the tokens they attach to it.
 */
module Express {
  import opened Wrappers
  import opened HttpErrors

  /** The claims of a decoded JWT that the gateway reads: `scope` and `exp` (seconds). */
  datatype Claims = Claims(scope: string, exp: Option<int>)

  /** `{ token, content }`, as stored in `req.auth.access_token` or `req.kauth.grant.access_token`. */
  datatype AccessToken = AccessToken(token: string, content: Claims)

  /** A rejected promise of an outbound call (network, database or library). */
  datatype Rejection = Rejection(reason: string)

  /** An incoming request together with the `next` callback of its middleware chain. */
  class Request {
    /** `req.params`. */
    var params: map<string, string>
    /** `req.headers.authorization`. */
    var authorization: Option<string>
    /** `req.auth.access_token`, set by the authentication middleware. */
    var auth: Option<AccessToken>
    /** The arguments of every call of `next` so far, in order. */
    var nexts: seq<NextArg>

    constructor (params: map<string, string>, authorization: Option<string>)
      ensures this.params == params && this.authorization == authorization
      ensures auth.None? && nexts == []
    {
      this.params := params;
      this.authorization := authorization;
      auth := None;
      nexts := [];
    }
  }
}
