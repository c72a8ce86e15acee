/**
 * The PAT cache of the resource model (lib/models/resource.js): two module
 * slots, the access token and the refresh token, each stored with its
 * decoded claims; an expiry test against the clock; a partial overwrite from
 * a token response; and the choice between the cached token, the refresh
 * grant and client-credentials authentication. The token endpoint and
 * `jwt.decode` are parameters, and so is the clock.
 */
module Resource {
  import opened Wrappers
  import opened Express

  /**
   * `isExpired(token)` at instant `now` (milliseconds). An absent token is
   * expired; otherwise the token is expired from `exp * 1000` on. Without an
   * `exp` claim the comparison is with `NaN`, which never holds.
   */
  function IsExpired(token: Option<AccessToken>, now: int): (e: bool)
    ensures token.None? ==> e
    ensures token.Some? && token.value.content.exp.Some? ==> (e <==> now >= token.value.content.exp.value * 1000)
    ensures token.Some? && token.value.content.exp.None? ==> !e
  {
    match token
    case None => true
    case Some(t) =>
      match t.content.exp
      case None => false
      case Some(exp) => now >= exp * 1000
  }

  /** Once expired, a token stays expired, and the instant `exp * 1000` itself already counts. */
  lemma ExpiryIsFinal(token: Option<AccessToken>, now: int, later: int)
    requires IsExpired(token, now) && now <= later
    ensures IsExpired(token, later)
  {
  }

  /** The fields of the token response that are read; `None` is an absent field. */
  datatype TokenJson = TokenJson(accessToken: Option<string>, refreshToken: Option<string>)

  /** The two slots. */
  datatype Slots = Slots(access: Option<AccessToken>, refresh: Option<AccessToken>)

  /** The slot a present field writes: the token with its decoded claims, or the old slot. */
  function Overwrite(slot: Option<AccessToken>, field: Option<string>, decode: string -> Claims): (r: Option<AccessToken>)
    ensures field.None? ==> r == slot
    ensures field.Some? ==> r == Some(AccessToken(field.value, decode(field.value)))
  {
    match field
    case None => slot
    case Some(t) => Some(AccessToken(t, decode(t)))
  }

  /** What `storeTokens(json)` leaves in the slots. */
  function Stored(s: Slots, json: TokenJson, decode: string -> Claims): Slots {
    Slots(Overwrite(s.access, json.accessToken, decode), Overwrite(s.refresh, json.refreshToken, decode))
  }

  /**
   * Storing overwrites only the slots whose field is present; storing the
   * same answer twice changes nothing more; an answer with neither field
   * leaves both slots as they were.
   */
  lemma StoredPartialOverwrite(s: Slots, json: TokenJson, decode: string -> Claims)
    ensures json.accessToken.None? ==> Stored(s, json, decode).access == s.access
    ensures json.refreshToken.None? ==> Stored(s, json, decode).refresh == s.refresh
    ensures json.accessToken.Some? ==> Stored(s, json, decode).access.value.token == json.accessToken.value
    ensures json.refreshToken.Some? ==> Stored(s, json, decode).refresh.value.token == json.refreshToken.value
    ensures Stored(Stored(s, json, decode), json, decode) == Stored(s, json, decode)
  {
  }

  /** The two token requests the cache can send. */
  datatype GrantRequest = ClientCredentials | RefreshGrant(refreshToken: string)

  /**
   * The choice of `getAccessToken`: no request while the access token is
   * unexpired; the refresh grant while only the refresh token is unexpired;
   * client credentials when both are expired.
   */
  function Plan(s: Slots, now: int): (p: Option<GrantRequest>)
    ensures p.None? <==> !IsExpired(s.access, now)
    ensures p == Some(ClientCredentials) <==> IsExpired(s.access, now) && IsExpired(s.refresh, now)
    ensures p.Some? && p.value.RefreshGrant? ==>
      IsExpired(s.access, now) && !IsExpired(s.refresh, now) && s.refresh.Some? && p.value.refreshToken == s.refresh.value.token
  {
    if !IsExpired(s.access, now) then None
    else if IsExpired(s.refresh, now) then Some(ClientCredentials)
    else Some(RefreshGrant(s.refresh.value.token))
  }

  /** A defined access token without an expiry claim is always served from the cache. */
  lemma NoExpiryClaimIsCached(s: Slots, now: int)
    requires s.access.Some? && s.access.value.content.exp.None?
    ensures Plan(s, now).None?
  {
  }

  /** Whatever the token endpoint answers: a rejected `fetch`, or a response with its `ok` flag. */
  datatype TokenAnswer = FetchRejected(reason: Rejection) | Response(ok: bool, json: TokenJson)

  /** Why `getAccessToken` rejects. */
  datatype TokenFailure =
    | Rejected(reason: Rejection)
    /** `Error('Unable to generate pat token')` on a response that is not ok. */
    | UnableToGeneratePat
    /** Reading `.token` of an access slot that is still undefined. */
    | NoAccessToken

  /** The PAT cache: the two module slots and every token request sent. */
  class TokenCache {
    var accessToken: Option<AccessToken>
    var refreshToken: Option<AccessToken>
    /** The requests sent to the token endpoint, in order. */
    var requests: seq<GrantRequest>

    /** The slots as a value. */
    function Contents(): Slots
      reads this
    {
      Slots(accessToken, refreshToken)
    }

    /** Both slots start undefined. */
    constructor ()
      ensures accessToken.None? && refreshToken.None? && requests == []
    {
      accessToken := None;
      refreshToken := None;
      requests := [];
    }

    /** `storeTokens(json)`. */
    method StoreTokens(json: TokenJson, decode: string -> Claims)
      modifies this`accessToken, this`refreshToken
      ensures Contents() == Stored(old(Contents()), json, decode)
    {
      if json.accessToken.Some? {
        accessToken := Some(AccessToken(json.accessToken.value, decode(json.accessToken.value)));
      }
      if json.refreshToken.Some? {
        refreshToken := Some(AccessToken(json.refreshToken.value, decode(json.refreshToken.value)));
      }
    }

    /**
     * `authenticate()` and `fetchAccessToken()`: one request to the token
     * endpoint; the answer is stored only when the response is ok.
     */
    method Request(grant: GrantRequest, endpoint: GrantRequest -> TokenAnswer, decode: string -> Claims)
      returns (failure: Option<TokenFailure>)
      modifies this
      ensures requests == old(requests) + [grant]
      ensures endpoint(grant).FetchRejected? ==>
        failure == Some(Rejected(endpoint(grant).reason)) && Contents() == old(Contents())
      ensures endpoint(grant).Response? && !endpoint(grant).ok ==>
        failure == Some(UnableToGeneratePat) && Contents() == old(Contents())
      ensures endpoint(grant).Response? && endpoint(grant).ok ==>
        failure.None? && Contents() == Stored(old(Contents()), endpoint(grant).json, decode)
    {
      requests := requests + [grant];
      var answer := endpoint(grant);
      match answer
      case FetchRejected(e) =>
        failure := Some(Rejected(e));
      case Response(ok, json) =>
        if !ok {
          failure := Some(UnableToGeneratePat);
        } else {
          StoreTokens(json, decode);
          failure := None;
        }
    }

    /**
     * `getAccessToken()` at instant `now`: the cached token with no request
     * while it is unexpired, otherwise the request `Plan` chooses and then
     * whatever access token is stored.
     */
    method GetAccessToken(now: int, endpoint: GrantRequest -> TokenAnswer, decode: string -> Claims)
      returns (r: Result<string, TokenFailure>)
      modifies this
      ensures Plan(old(Contents()), now).None? ==>
        r == Ok(old(accessToken).value.token) && Contents() == old(Contents()) && requests == old(requests)
      ensures Plan(old(Contents()), now).Some? ==>
        var grant := Plan(old(Contents()), now).value;
        var answer := endpoint(grant);
        requests == old(requests) + [grant] &&
        (answer.FetchRejected? ==> r == Err(Rejected(answer.reason)) && Contents() == old(Contents())) &&
        (answer.Response? && !answer.ok ==> r == Err(UnableToGeneratePat) && Contents() == old(Contents())) &&
        (answer.Response? && answer.ok ==>
          Contents() == Stored(old(Contents()), answer.json, decode) &&
          r == (if accessToken.Some? then Ok(accessToken.value.token) else Err(NoAccessToken)))
    {
      var plan := Plan(Contents(), now);
      if plan.Some? {
        var failure := Request(plan.value, endpoint, decode);
        if failure.Some? {
          return Err(failure.value);
        }
      }
      if accessToken.None? {
        return Err(NoAccessToken);
      }
      return Ok(accessToken.value.token);
    }
  }

  /**
   * A successful answer that carries an access token is what the next call
   * serves, without a request, as long as that token is unexpired.
   */
  lemma FreshTokenIsServed(s: Slots, json: TokenJson, decode: string -> Claims, now: int)
    requires json.accessToken.Some?
    requires !IsExpired(Some(AccessToken(json.accessToken.value, decode(json.accessToken.value))), now)
    ensures Plan(Stored(s, json, decode), now).None?
    ensures Stored(s, json, decode).access.value.token == json.accessToken.value
  {
  }
}
