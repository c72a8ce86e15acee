/**
 * `POST /properties/query` (lib/routes/properties/query.js): the permission
 * check for the requested properties, then the multi-property query handed
 * to the encoder. Every exception inside the `try`, whether from the check,
 * from reading the grant or from building the query, becomes
 * `next(InsufficientPermissions)`.
 */
module PropertiesRoute {
  import opened Wrappers
  import opened HttpErrors
  import opened Express
  import Authz
  import opened Flux

  /**
   * Why `checkPermissionsForProperties` rejects. On an `undefined` grant the
   * message of the intended error reads the undeclared `id`, so what is thrown
   * is that reference error; the decision point's own rejection passes through.
   */
  datatype CheckFailure = UndeclaredId | CheckRejected(reason: Rejection)

  /** The check of the route: the requested properties as the resource, scopes exactly `['GET']`. */
  function PropertiesCheck(ids: seq<string>, token: string): Authz.CheckQuery {
    Authz.CheckQuery(ids, token, ["GET"])
  }

  /** `checkPermissionsForProperties(ids, token)`: resolves unless the grant is undefined or the check rejects. */
  function CheckPermissionsForProperties(ids: seq<string>, token: string,
    check: Authz.CheckQuery -> Result<Option<Authz.Grant>, Rejection>): (r: Result<Authz.Grant, CheckFailure>)
    ensures r.Ok? <==> check(PropertiesCheck(ids, token)).Ok? && check(PropertiesCheck(ids, token)).value.Some?
    ensures r == Err(UndeclaredId) <==> check(PropertiesCheck(ids, token)) == Ok(None)
    ensures r.Ok? ==> check(PropertiesCheck(ids, token)) == Ok(Some(r.value))
  {
    match check(Authz.CheckQuery(ids, token, ["GET"]))
    case Err(e) => Err(CheckRejected(e))
    case Ok(None) => Err(UndeclaredId)
    case Ok(Some(g)) => Ok(g)
  }

  /** How `post` ends: the query is run by the encoder, or `next` is called. */
  datatype PostOutcome = Queried(query: Query) | Next(arg: NextArg)

  /**
   * `post(req, res, next)`. `body` is `req.body`, `grantToken` is
   * `req.kauth.grant.access_token.token` (`None` when that path is missing,
   * which throws inside the `try`), and `bucket` is the configured bucket.
   */
  function Post(bucket: string, body: QueryOptions, grantToken: Option<string>,
    check: Authz.CheckQuery -> Result<Option<Authz.Grant>, Rejection>): (o: PostOutcome)
    // the query runs only after a defined grant, built from the body as it arrived
    ensures o.Queried? <==>
      && grantToken.Some?
      && CheckPermissionsForProperties(body.properties, grantToken.value, check).Ok?
      && CreatePropertiesQuery(bucket, body).Ok?
    ensures o.Queried? ==> o.query == CreatePropertiesQuery(bucket, body).value
    // every other path is a denial
    ensures o.Next? ==> o.arg == Deny()
  {
    match grantToken
    case None => Next(Deny())
    case Some(token) =>
      match CheckPermissionsForProperties(body.properties, token, check)
      case Err(_) => Next(Deny())
      case Ok(_) =>
        match CreatePropertiesQuery(bucket, body)
        case Err(_) => Next(Deny())
        case Ok(q) => Queried(q)
  }

  /** An `undefined` grant is a denial, even though the error meant for it is never built. */
  lemma UndefinedGrantDenies(bucket: string, body: QueryOptions, token: string,
    check: Authz.CheckQuery -> Result<Option<Authz.Grant>, Rejection>)
    requires check(PropertiesCheck(body.properties, token)) == Ok(None)
    ensures Post(bucket, body, Some(token), check) == Next(Deny())
  {
    assert CheckPermissionsForProperties(body.properties, token, check) == Err(UndeclaredId);
  }

  /**
   * A property without `/properties/` is a denial too: building the query
   * throws inside the `try`, after the check has granted.
   */
  lemma MalformedPropertyDenies(bucket: string, body: QueryOptions, p: string, token: string,
    check: Authz.CheckQuery -> Result<Option<Authz.Grant>, Rejection>)
    requires p in body.properties && SplitProperty(p).None?
    ensures Post(bucket, body, Some(token), check) == Next(Deny())
  {
    var i :| 0 <= i < |body.properties| && body.properties[i] == p;
    assert !PropertyClauses(body.properties).Ok?;
  }
}
