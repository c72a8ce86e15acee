/**
 * Thing-id normalisation: lib/middlewares/fix_ids.js and the identical helper
 * `fixThingId` of lib/middlewares/influxdb.js. Two `replace` calls with string
 * patterns, so each prefix is removed once, at its FIRST occurrence, wherever
 * that occurrence is.
 */
module FixIds {
  import opened Wrappers
  import opened Text
  import opened HttpErrors
  import opened Express

  const UriUrnPrefix: string := "uri:urn:"
  const ThingsUrlPrefix: string := "https://zuse.icas.fh-dortmund.de/ict-gw/v1/things/"

  /** `fixThingId(thingId)`: drops the first `uri:urn:`, then the first gateway things URL. */
  function FixThingId(id: string): (r: string)
    ensures |r| <= |id|
    ensures !Contains(id, UriUrnPrefix) && !Contains(id, ThingsUrlPrefix) ==> r == id
  {
    RemoveFirst(RemoveFirst(id, UriUrnPrefix), ThingsUrlPrefix)
  }

  /** The first `uri:urn:` is removed wherever it stands, not only at the start. */
  lemma FixThingIdRemovesFirstUriUrn(a: string, b: string)
    requires forall j: nat :: j < |a| ==> !OccursAt(a + UriUrnPrefix + b, UriUrnPrefix, j)
    requires !Contains(a + b, ThingsUrlPrefix)
    ensures FixThingId(a + UriUrnPrefix + b) == a + b
  {
    RemoveFirstOf(a, UriUrnPrefix, b);
  }

  /** The gateway things URL in front of an id is removed. */
  lemma FixThingIdRemovesThingsUrl(t: string)
    requires !Contains(ThingsUrlPrefix + t, UriUrnPrefix)
    ensures FixThingId(ThingsUrlPrefix + t) == t
  {
    assert ThingsUrlPrefix + t == "" + ThingsUrlPrefix + t;
    RemoveFirstOf("", ThingsUrlPrefix, t);
  }

  /**
   * The first gateway things URL is removed wherever it stands, once no
   * `uri:urn:` is left to remove before it.
   */
  lemma FixThingIdRemovesFirstThingsUrl(a: string, b: string)
    requires forall j: nat :: j < |a| ==> !OccursAt(a + ThingsUrlPrefix + b, ThingsUrlPrefix, j)
    requires !Contains(a + ThingsUrlPrefix + b, UriUrnPrefix)
    ensures FixThingId(a + ThingsUrlPrefix + b) == a + b
  {
    assert RemoveFirst(a + ThingsUrlPrefix + b, UriUrnPrefix) == a + ThingsUrlPrefix + b;
    RemoveFirstOf(a, ThingsUrlPrefix, b);
  }

  /**
   * The id as a client writes it, `uri:urn:` in front of the things URL in
   * front of the id, comes out as the bare id, whatever the id holds.
   */
  lemma FixThingIdRemovesBothPrefixes(t: string)
    ensures FixThingId(UriUrnPrefix + ThingsUrlPrefix + t) == t
  {
    var u := ThingsUrlPrefix + t;
    assert UriUrnPrefix + ThingsUrlPrefix + t == "" + UriUrnPrefix + u;
    RemoveFirstOf("", UriUrnPrefix, u);
    assert u == "" + ThingsUrlPrefix + t;
    RemoveFirstOf("", ThingsUrlPrefix, t);
  }

  /** Each prefix goes at most once per call: a doubled `uri:urn:` keeps one copy. */
  lemma FixThingIdKeepsOneOfDoubledPrefix(t: string)
    requires !Contains(UriUrnPrefix + t, ThingsUrlPrefix)
    ensures FixThingId(UriUrnPrefix + UriUrnPrefix + t) == UriUrnPrefix + t
  {
    var u := UriUrnPrefix + t;
    assert UriUrnPrefix + UriUrnPrefix + t == "" + UriUrnPrefix + u;
    RemoveFirstOf("", UriUrnPrefix, u);
    assert RemoveFirst(UriUrnPrefix + UriUrnPrefix + t, UriUrnPrefix) == u;
    assert RemoveFirst(u, ThingsUrlPrefix) == u;
  }

  /** Hence normalisation is not idempotent. */
  lemma FixThingIdNotIdempotent(t: string)
    requires !Contains(UriUrnPrefix + t, ThingsUrlPrefix)
    ensures FixThingId(FixThingId(UriUrnPrefix + UriUrnPrefix + t)) != FixThingId(UriUrnPrefix + UriUrnPrefix + t)
  {
    FixThingIdKeepsOneOfDoubledPrefix(t);
    if Contains(t, ThingsUrlPrefix) {
      ContainsInSuffix(UriUrnPrefix, t, ThingsUrlPrefix);
    }
    assert UriUrnPrefix + t == "" + UriUrnPrefix + t;
    RemoveFirstOf("", UriUrnPrefix, t);
  }

  /**
   * The `fixThingId` middleware: rewrites `req.params.thingId` in place (two
   * assignments) and calls `next()` once. Nothing else in the request changes.
   */
  method FixThingIdMiddleware(req: Request)
    requires "thingId" in req.params
    modifies req`params, req`nexts
    ensures req.params == old(req.params)["thingId" := FixThingId(old(req.params)["thingId"])]
    ensures req.nexts == old(req.nexts) + [Proceed]
  {
    req.params := req.params["thingId" := RemoveFirst(req.params["thingId"], UriUrnPrefix)];
    req.params := req.params["thingId" := RemoveFirst(req.params["thingId"], ThingsUrlPrefix)];
    req.nexts := req.nexts + [Proceed];
  }
}
