/**
 * Per-property authorisation: `checkPermissionsForProperty` of
 * lib/middlewares/authz.js. The resource lookup (`req.models.resource.find`)
 * and the decision point (`req.models.access.check`) are oracles; a rejection
 * of either is not caught, so `next` is then never called.
 */
module Authz {
  import opened Wrappers
  import opened Text
  import opened HttpErrors
  import opened Express

  /** One resource returned by the lookup; only its `_id` is used. */
  datatype Affordance = Affordance(id: string)

  /** The arguments of `find({ name, exactName, deep })`. */
  datatype FindQuery = FindQuery(name: string, exactName: bool, deep: bool)

  /** The arguments of `check({ resource, token, scopes })`. */
  datatype CheckQuery = CheckQuery(resource: seq<string>, token: string, scopes: seq<string>)

  /** The decision point's answer: a grant, or `undefined` (`None`). */
  type Grant = string

  /** How the middleware ends: with one call of `next`, or with a rejected promise and no call. */
  datatype GateOutcome = Next(arg: NextArg) | Unhandled

  /** The resource name a property is looked up by. */
  function PropertyResource(thingId: string, propertyName: string): string {
    thingId + "/properties/" + propertyName
  }

  /** A property name holding no `/properties/` splits back into the thing id and the name. */
  lemma PropertyResourceSplits(thingId: string, propertyName: string)
    requires forall j: nat :: |thingId| < j ==> !OccursAt(PropertyResource(thingId, propertyName), "/properties/", j)
    ensures SplitLast(PropertyResource(thingId, propertyName), "/properties/") == Some((thingId, propertyName))
  {
    assert PropertyResource(thingId, propertyName) == thingId + "/properties/" + propertyName;
    SplitLastOf(thingId, "/properties/", propertyName);
  }

  /** `affordances.map(a => a._id)`. */
  function Ids(affordances: seq<Affordance>): (ids: seq<string>)
    ensures |ids| == |affordances|
    ensures forall i :: 0 <= i < |affordances| ==> ids[i] == affordances[i].id
  {
    if |affordances| == 0 then [] else [affordances[0].id] + Ids(affordances[1..])
  }

  /** The lookup the middleware performs. */
  function AuthzFind(thingId: string, propertyName: string): FindQuery {
    FindQuery(PropertyResource(thingId, propertyName), false, true)
  }

  /** The check the middleware asks for: the found ids, in order, with scopes exactly `['GET']`. */
  function AuthzCheck(affordances: seq<Affordance>, token: string): CheckQuery {
    CheckQuery(Ids(affordances), token, ["GET"])
  }

  /**
   * `checkPermissionsForProperty(req, res, next)`. `grantToken` is
   * `req.kauth.grant.access_token.token` (`None` when that path is missing,
   * which throws inside the async function).
   */
  function CheckPermissionsForProperty(
    thingId: string, propertyName: string, grantToken: Option<string>,
    find: FindQuery -> Result<seq<Affordance>, Rejection>,
    check: CheckQuery -> Result<Option<Grant>, Rejection>): (g: GateOutcome)
    // next() is called only when the check for the found ids and ['GET'] returns a grant
    ensures g == Next(Proceed) <==>
      && find(AuthzFind(thingId, propertyName)).Ok?
      && grantToken.Some?
      && check(AuthzCheck(find(AuthzFind(thingId, propertyName)).value, grantToken.value)).Ok?
      && check(AuthzCheck(find(AuthzFind(thingId, propertyName)).value, grantToken.value)).value.Some?
    // an undefined grant is a denial, never a pass
    ensures g == Next(Deny()) <==>
      && find(AuthzFind(thingId, propertyName)).Ok?
      && grantToken.Some?
      && check(AuthzCheck(find(AuthzFind(thingId, propertyName)).value, grantToken.value)) == Ok(None)
    ensures g.Next? ==> g.arg == Proceed || g.arg == Deny()
  {
    match find(AuthzFind(thingId, propertyName))
    case Err(_) => Unhandled
    case Ok(affordances) =>
      match grantToken
      case None => Unhandled
      case Some(token) =>
        match check(AuthzCheck(affordances, token))
        case Err(_) => Unhandled
        case Ok(None) => Next(Deny())
        case Ok(Some(_)) => Next(Proceed)
  }
}
