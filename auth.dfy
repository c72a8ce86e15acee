/**
 * Bearer-token authentication: lib/middlewares/auth.js. Signature and issuer
 * checks (`jwtVerify` against the Keycloak key set) are an oracle `verify`
 * that yields the payload, or `None` when it rejects.
 */
module Auth {
  import opened Wrappers
  import opened Text
  import opened HttpErrors
  import opened Express

  /**
   * `extractTokenFromHeader(req)`: the header split on spaces; the second
   * piece when the first is exactly `Bearer`. A one-piece `Bearer` header
   * yields `undefined` like a missing one.
   */
  function ExtractTokenFromHeader(authorization: Option<string>): (token: Option<string>)
    ensures authorization.None? ==> token.None?
    ensures token.Some? ==> ' ' !in token.value
  {
    match authorization
    case None => None
    case Some(header) =>
      var parts := Split(header, ' ');
      if parts[0] == "Bearer" && |parts| >= 2 then Some(parts[1]) else None
  }

  /** The header layout that yields token `t`: `Bearer `, `t`, then the end or a space. */
  predicate BearerLayout(header: string, t: string) {
    ' ' !in t && |header| >= 7 + |t| && header[..7 + |t|] == "Bearer " + t &&
    (|header| == 7 + |t| || header[7 + |t|] == ' ')
  }

  lemma {:induction false} ExtractTokenSound(header: string, t: string)
    requires ExtractTokenFromHeader(Some(header)) == Some(t)
    ensures BearerLayout(header, t)
  {
    var parts := Split(header, ' ');
    assert parts[0] == "Bearer" && parts[1] == t;
    JoinSplit(header, ' ');
    assert parts == [parts[0]] + parts[1..];
    JoinCons("Bearer", parts[1..], " ");
    var tail := Join(parts[1..], " ");
    assert header == "Bearer " + tail;
    if |parts| == 2 {
      assert parts[1..] == [t];
      assert tail == t;
    } else {
      assert parts[1..] == [t] + parts[2..];
      JoinCons(t, parts[2..], " ");
      var more := " " + Join(parts[2..], " ");
      Assoc(t, " ", Join(parts[2..], " "));
      Assoc("Bearer ", t, more);
      assert header == ("Bearer " + t) + more;
      assert header[7 + |t|] == more[0];
    }
  }

  lemma {:induction false} ExtractTokenComplete(header: string, t: string)
    requires BearerLayout(header, t)
    ensures ExtractTokenFromHeader(Some(header)) == Some(t)
  {
    var n := 7 + |t|;
    var rest := header[n..];
    assert header == header[..n] + rest;
    Assoc("Bearer ", t, rest);
    assert header == "Bearer" + [' '] + (t + rest);
    SplitAfterFirst("Bearer", ' ', t + rest);
    if |header| == n {
      assert t + rest == t;
      SplitWhole(t, ' ');
    } else {
      assert rest == [' '] + rest[1..];
      Assoc(t, [' '], rest[1..]);
      SplitAfterFirst(t, ' ', rest[1..]);
    }
  }

  /**
   * The token found is `t` exactly when the header reads `Bearer `, then `t`,
   * then nothing or a space (anything after that is ignored), and `t` holds
   * no space.
   */
  lemma ExtractTokenIff(header: string, t: string)
    ensures ExtractTokenFromHeader(Some(header)) == Some(t) <==> BearerLayout(header, t)
  {
    if ExtractTokenFromHeader(Some(header)) == Some(t) {
      ExtractTokenSound(header, t);
    }
    if BearerLayout(header, t) {
      ExtractTokenComplete(header, t);
    }
  }

  /**
   * The authentication middleware. A missing or empty token goes to
   * `next(InvalidOrMissingToken)` without calling `verify`; a rejected
   * verification too. A verified token is stored with its payload in
   * `req.auth` and `next()` is called. Returns the token handed to `verify`,
   * if it was called.
   */
  method Authenticate(req: Request, verify: string -> Option<Claims>) returns (verified: Option<string>)
    modifies req`auth, req`nexts
    ensures var token := ExtractTokenFromHeader(req.authorization);
      if token.None? || token.value == "" then
        verified.None? && req.auth == old(req.auth) &&
        req.nexts == old(req.nexts) + [Raise(InvalidOrMissingToken)]
      else
        verified == token &&
        match verify(token.value)
        case None =>
          req.auth == old(req.auth) && req.nexts == old(req.nexts) + [Raise(InvalidOrMissingToken)]
        case Some(payload) =>
          req.auth == Some(AccessToken(token.value, payload)) && req.nexts == old(req.nexts) + [Proceed]
  {
    var token := ExtractTokenFromHeader(req.authorization);
    if token.None? || token.value == "" {
      req.nexts := req.nexts + [Raise(InvalidOrMissingToken)];
      return None;
    }
    verified := token;
    var decoded := verify(token.value);
    if decoded.None? {
      req.nexts := req.nexts + [Raise(InvalidOrMissingToken)];
      return;
    }
    req.auth := Some(AccessToken(token.value, decoded.value));
    req.nexts := req.nexts + [Proceed];
  }
}
