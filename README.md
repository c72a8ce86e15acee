# thing-history gateway — a Dafny model

This project models the request-handling core of the thing-history gateway.
The gateway serves historical values of thing properties. It builds Flux
queries for InfluxDB and streams their rows back as JSON or CSV. It reads the
ThingsBoard key/value tables of Cassandra and Postgres. It normalises thing
ids, authenticates bearer tokens, and asks the authorisation service and the
registry before it answers. It also caches a personal access token (PAT)
obtained from Keycloak.

The modules follow the source files:

| module | source |
|---|---|
| `Flux` | the query builders of `lib/middlewares/influxdb.js` |
| `QueryRunner` | the streaming encoder `runQuery` of the same file, as class `Encoder` |
| `KvRows` | the typed-column row shared by both key/value readers |
| `History` | `lib/routes/query.js`, the Cassandra history route; the response is class `HistoryResponse` |
| `Timeseries` | `lib/models/timeseries.js`, the Postgres model |
| `FixIds` | `lib/middlewares/fix_ids.js` and the `fixThingId` helper of influxdb.js |
| `Auth` | `lib/middlewares/auth.js` |
| `Authz` | `lib/middlewares/authz.js` |
| `PropertiesRoute` | `lib/routes/properties/query.js` |
| `Resource` | `lib/models/resource.js`, the PAT cache, as class `TokenCache` |
| `HttpErrors` | `lib/utils/http_errors.js` and the values passed to Express's `next` |
| `App` | the scope check and the global error handler of `index.js` |
| `Express` | the request fields the middlewares read and write, as class `Request` |
| `Text`, `Wrappers` | stand-ins for the JavaScript string built-ins (`indexOf`, `lastIndexOf`, `replace`, `split`, `join`) and Option/Result |

Every outbound call is a function parameter (an oracle). This covers InfluxDB,
Cassandra, the pg pool, the registry `fetch`, the authorisation service's
`find` and `check`, `jwtVerify` and `jwt.decode`, the Keycloak token endpoint
and content negotiation. The clock is a parameter too. A rejected promise is
an `Err(Rejection(...))` answer of the oracle.

The Flux escaping helpers (`fluxString`, `fluxDateTime`, `fluxDuration`,
`fluxBool`, `fluxInteger`, `fluxFloat`, `fluxExpression`) are the constructors
of the datatype `Flux.FluxParam`. A query is the sequence of its template
lines, so a contract says which helper wraps which input on which line.

The code is modelled as written, quirks included:

- `fixThingId` removes the first occurrence of each prefix wherever it stands.
  It is not idempotent (`FixIds.FixThingIdNotIdempotent`).
- There is no allow-list for comparison operators or aggregate functions. An
  unknown operator name is interpolated as `fluxExpression(undefined)`.
- The aggregate stage is built only when `every === 0`. With `every === 0` and
  no `func`, `createAggregateWindowQuery` returns `undefined`.
- `createPropertiesQuery` interpolates the thing id and key without escaping
  (`Flux.PropertyKeyInterpolatedRaw`). It accepts an empty property list and
  yields an empty selection.
- The JSON content type is written `appplication/json`, as the source spells it.
- A CSV answer with no rows has no header line. The history route's CSV header
  is written even when no property is queried.
- In the properties route, an `undefined` grant makes the code build a message
  from the undeclared variable `id`. What is thrown is therefore a
  `ReferenceError`, not the intended error. It is caught by the same `try`, so
  the outcome is still `next(InsufficientPermissions)` (`PropertiesRoute.UndefinedGrantDenies`).
- In the history route, a non-ok registry answer throws `InternalServerError()`.
  That name is not among the exports of `lib/utils/http_errors.js`, so the call
  itself throws. Either way the `catch` turns it into `next(InsufficientPermissions)`,
  and the model states only that outcome.
- A token without an `exp` claim is compared with `NaN`, so it is never
  expired (`Resource.NoExpiryClaimIsCached`).

## Model

| member | source | states |
|---|---|---|
| `FixIds.FixThingId` | lib/middlewares/fix_ids.js:4-5 | the result is never longer than the id, and an id holding neither prefix is returned unchanged |
| `FixIds.FixThingIdRemovesFirstUriUrn` | lib/middlewares/fix_ids.js:4 | the first `uri:urn:` is removed wherever it stands in the id, not only at the start |
| `FixIds.FixThingIdRemovesThingsUrl` | lib/middlewares/fix_ids.js:5 | the gateway things URL in front of an id is removed |
| `FixIds.FixThingIdRemovesFirstThingsUrl` | lib/middlewares/fix_ids.js:5 | once no `uri:urn:` is left, the first things URL is removed wherever it stands in the id |
| `FixIds.FixThingIdRemovesBothPrefixes` | lib/middlewares/fix_ids.js:4-5 | `uri:urn:` followed by the things URL and an id gives back exactly that id, whatever it holds |
| `FixIds.FixThingIdKeepsOneOfDoubledPrefix` | lib/middlewares/fix_ids.js:4-5 | each prefix is removed at most once per call, so a doubled `uri:urn:` keeps one copy |
| `FixIds.FixThingIdNotIdempotent` | lib/middlewares/fix_ids.js:4-5 | normalising twice differs from normalising once on a doubled prefix |
| `FixIds.FixThingIdMiddleware` | lib/middlewares/fix_ids.js:3-7 | only `params.thingId` changes, to its normalised value, and `next()` is called exactly once |
| `Flux.ToFluxComparisonOperator` | lib/middlewares/influxdb.js:35-50 | an operator exists exactly for the six names eq, ne, gt, lt, ge and le, and each maps to its symbol `==`, `!=`, `>`, `<`, `>=` or `<=` |
| `Flux.ToFluxComparisonOperatorInjective` | lib/middlewares/influxdb.js:35-50 | two names that give the same operator are the same name |
| `Flux.OperatorParam` | lib/middlewares/influxdb.js:146-152 | an unknown name is interpolated as `fluxExpression(undefined)` rather than rejected; a known one as its operator |
| `Flux.GetFluxValue` | lib/middlewares/influxdb.js:54-65 | a decimal whose exact value is whole gives an integer (double rounding and overflow are left out), any other numeric text (the empty text included) a float, exactly `true`/`false` a boolean, and anything else a string; the text is passed on unchanged |
| `Flux.GetFluxValueTrailingZeros` | lib/middlewares/influxdb.js:55-58 | digits followed by a point and only zeros are sent as an integer |
| `Flux.GetFluxValueOnePointZero` | lib/middlewares/influxdb.js:55-58 | `1.0` is sent as an integer |
| `Flux.GetFluxValueEmpty` | lib/middlewares/influxdb.js:55-59 | the empty text passes the `isNaN` test but parses to NaN, so it is sent as a float |
| `Flux.LetterWordNotNumeric` | lib/middlewares/influxdb.js:55 | a word that starts with a letter and has no point is not numeric |
| `Flux.GetFluxValueBooleans` | lib/middlewares/influxdb.js:60-61 | only the exact lower-case words are booleans; `True` is a string |
| `Flux.StopParam` | lib/middlewares/influxdb.js:69-74 | a given stop becomes a date-time; an absent one becomes the expression `now()` |
| `Flux.CreateEmptyParam` | lib/middlewares/influxdb.js:78-83 | the `createEmpty` fragment is present exactly when the flag is defined, and holds it as a boolean |
| `Flux.CreateAggregateWindowQuery` | lib/middlewares/influxdb.js:87-98 | the stage is built exactly when `every === 0` and `func` is defined; any other or missing `every` gives the empty fragment; `every === 0` without `func` gives `undefined`; the stage holds `every`, `func` and the `createEmpty` fragment |
| `Flux.CreateCountWindow` | lib/middlewares/influxdb.js:136-142 | a window stage exists exactly when `every` is defined; `createEmpty` goes to `fluxBool` even when undefined |
| `Flux.FilterLines` | lib/middlewares/influxdb.js:146-152 | one `_value` filter line per filter, in input order |
| `Flux.CreateFilterQuery` | lib/middlewares/influxdb.js:146-152 | no line when the filters are absent; otherwise exactly one line per filter, in order, with the filter's operator and value |
| `Flux.CreateFilterQueryAppend` | lib/middlewares/influxdb.js:146-152 | the lines of two concatenated filter lists are the lines of each list, one after the other |
| `Flux.CreateQuery` | lib/middlewares/influxdb.js:104-114 | exactly seven stages in a fixed order: from(bucket), the range (start as a date-time; stop as a date-time when given, `now()` exactly when absent), the `property_raw` measurement, the thing, the property, the value filters, the aggregate stage |
| `Flux.CreateCountQuery` | lib/middlewares/influxdb.js:158-168 | eight stages ending in `count()`, preceded by the window stage, which is non-empty exactly when `window.every` is defined |
| `Flux.CountQuerySharesSelection` | lib/middlewares/influxdb.js:104-114 | a count query selects the same rows as the history query, because their first six stages agree |
| `Flux.CreateQueryAggregateOnlyLast` | lib/middlewares/influxdb.js:104-114 | the aggregate options change only the last stage of a history query |
| `Flux.SplitProperty` | lib/middlewares/influxdb.js:122 | the capture succeeds exactly when the property has no line terminator and holds `/properties/`; the parts rebuild the property, and the split falls at the last separator |
| `Flux.SplitPropertyOf` | lib/middlewares/influxdb.js:122 | a property built as thing id, separator and key is split back into that thing id and key |
| `Flux.PropertyClause` | lib/middlewares/influxdb.js:120-124 | a property has a clause exactly when its capture succeeds |
| `Flux.Captured` | lib/middlewares/influxdb.js:120-125 | the map succeeds exactly when every property has a clause, and then gives one clause per property in order; otherwise it fails at the first property without one |
| `Flux.CreatePropertiesQuery` | lib/middlewares/influxdb.js:119-131 | fails exactly when some property has no capture; otherwise five stages: from, range, one measurement filter whose selection is the clauses joined by ` or `, the value filters, the aggregate stage |
| `Flux.PropertiesQueryEmptyList` | lib/middlewares/influxdb.js:119-131 | an empty property list is accepted and gives an empty selection |
| `Flux.CapturedSnoc` | lib/middlewares/influxdb.js:120-125 | one more property with a clause adds that clause at the end |
| `Flux.PropertyClausesSnoc` | lib/middlewares/influxdb.js:120-126 | one more property adds ` or ` and its clause at the end of the selection, so the clauses stay in input order |
| `Flux.PropertyKeyInterpolatedRaw` | lib/middlewares/influxdb.js:122-124 | the thing part goes through `fixThingId` and the key reaches the query text verbatim |
| `QueryRunner.ConcatSingle` | lib/middlewares/influxdb.js:175-216 | a single written chunk is the response text |
| `QueryRunner.Jsons` | lib/middlewares/influxdb.js:188-196 | one JSON text per row, in order |
| `QueryRunner.CsvLines` | lib/middlewares/influxdb.js:192-201 | one CSV line per row, in order |
| `QueryRunner.JsonChunksSnoc` | lib/middlewares/influxdb.js:188-196 | every row after the first is written after a comma |
| `QueryRunner.JsonsSnoc` | lib/middlewares/influxdb.js:188-196 | one more row adds its JSON text at the end |
| `QueryRunner.JsonChunksJoin` | lib/middlewares/influxdb.js:188-196 | the JSON row chunks spell the rows' JSON texts joined by commas |
| `QueryRunner.JsonBody` | lib/middlewares/influxdb.js:178-214 | a completed JSON answer is `[`, the rows joined by commas, `]`; no rows give `[]` |
| `QueryRunner.CsvChunksShape` | lib/middlewares/influxdb.js:197-203 | the CSV chunks are the first table's header, once, followed by one line per row; no rows give no header and no body |
| `QueryRunner.CsvChunksAreLines` | lib/middlewares/influxdb.js:197-203 | every CSV chunk ends with a newline |
| `QueryRunner.Encoder.constructor` | lib/middlewares/influxdb.js:176-183 | JSON mode is chosen exactly when `accepts('json') === 'json'`; in JSON mode `[` is written before any row; the first-row flag is set |
| `QueryRunner.Encoder.Next` | lib/middlewares/influxdb.js:186-204 | each row appends exactly its chunk (the header and line on the first CSV row, a comma and JSON after the first JSON row) and clears the first-row flag |
| `QueryRunner.Encoder.Complete` | lib/middlewares/influxdb.js:209-214 | appends `]` in JSON mode only, then sets status 200 and ends the response |
| `QueryRunner.Encoder.Error` | lib/middlewares/influxdb.js:205-208 | nothing more is written; status 500 with `Internal server Error`, and the response ends |
| `QueryRunner.EncodeRun` | lib/middlewares/influxdb.js:175-216 | a whole run answers the chosen content type, with the JSON array or the CSV header and lines, and an empty CSV body for no rows |
| `KvRows.FirstNonNullUnique` | lib/routes/query.js:75-81 | at most one column is the first non-null one, and when one is, not all columns are null |
| `History.GetValueFromRow` | lib/routes/query.js:75-81 | the result is undefined exactly when every column is null; otherwise it is the first non-null column in the order bool_v, dbl_v, json_v, long_v, str_v |
| `History.FirstNonNull` | lib/routes/query.js:75-81 | the same first-match search as a function, with the same contract |
| `History.GetValueFromRowIsFirstNonNull` | lib/routes/query.js:75-81 | any value meeting that contract is the first-match value, so the loop and the function agree |
| `History.MatchProperty` | lib/routes/query.js:110-113 | a match has no line terminator and a valid 1-to-32-character namespace id, its groups rebuild the text, and no separator follows the thing id |
| `History.MatchedParts` | lib/routes/query.js:110-113 | the groups read off a `urn:` text rebuild it, and no separator follows the thing id |
| `History.LaterOccurrences` | lib/routes/query.js:112 | a separator past the thing id lies in the text after `urn:<nid>:` |
| `History.MatchPropertyComplete` | lib/routes/query.js:110-113 | every id of the form `urn:<nid>:<rest>/properties/<key>` is matched with the groups it was built from, so the greedy group splits at the last separator |
| `History.FirstColon` | lib/routes/query.js:112 | a namespace id holds no `:`, so the first `:` after it is the one that ends it |
| `History.RestHasNoLaterSep` | lib/routes/query.js:112 | no separator follows the entity id in the text after `urn:<nid>:` |
| `History.Kept` | lib/routes/query.js:110-114 | `map(...).filter(Boolean)` keeps at most as many results as there are ids |
| `History.KeptMembers` | lib/routes/query.js:110-114 | a result is kept exactly when some id yields it; ids that yield nothing are dropped without an error |
| `History.KeptAppend` | lib/routes/query.js:110-114 | the results of two id lists in a row are those of the first followed by those of the second, so input order is kept |
| `History.KeptOne` | lib/routes/query.js:110-114 | one id contributes its own result, or nothing when it does not match |
| `History.MatchAllMembers` | lib/routes/query.js:110-114 | the kept property refs are exactly those of the ids that match the pattern |
| `History.ThingIds` | lib/routes/query.js:115-116 | the registry receives one captured thing id per kept property, in order |
| `History.Permitted` | lib/routes/query.js:126-127 | a property is queried exactly when it was kept and its thing id is in the registry's answer |
| `History.QueryData` | lib/routes/query.js:83-88 | the entity id and the key are the bound parameters, in that order, for the configured partition |
| `History.QueryTextIndependentOfInput` | lib/routes/query.js:85-88 | the statement text depends only on the partition, never on the entity id or the key |
| `History.HistoryLineFields` | lib/routes/query.js:90-94 | when no field holds a comma, a line splits into the timestamp, `urn:uri:<entity_id>/properties/<key>`, and the value with a newline |
| `History.HistoryLinesSnoc` | lib/routes/query.js:90-94 | each row adds its line at the end, in delivery order |
| `History.Answers` | lib/routes/query.js:125-128 | one client answer per permitted property |
| `History.AnswersAt` | lib/routes/query.js:125-128 | the i-th answer is the client's answer to the i-th property's query |
| `History.CollectedOk` | lib/routes/query.js:125-134 | all lines are collected exactly when every query succeeds |
| `History.CollectedLines` | lib/routes/query.js:125-129 | on success the lines of every property's rows are among the collected lines |
| `History.CollectedStops` | lib/routes/query.js:132-134 | one rejected query makes the whole collection fail |
| `History.CollectedStep` | lib/routes/query.js:125-129 | one more successful query adds its lines at the end |
| `History.HistoryResponse.constructor` | lib/routes/query.js:107-135 | a fresh response has no header, no output, no status, and has not ended |
| `History.WriteLines` | lib/routes/query.js:90-94 | the row callback appends exactly the rows' lines |
| `History.QueryAll` | lib/routes/query.js:125-129 | on success exactly the collected lines are appended; the failure flag is returned exactly when some query is rejected; output is only ever appended |
| `History.Serve` | lib/routes/query.js:122-134 | the CSV type and header come first; on success the collected lines, status 200 and the end; on a rejection `next(InsufficientPermissions)` |
| `History.Respond` | lib/routes/query.js:122-134 | the header, then the lines of every permitted property's answer, with the same success and failure outcomes |
| `History.Get` | lib/routes/query.js:107-135 | a missing `property` parameter or a missing `req.auth` writes nothing and calls `next(InsufficientPermissions)`, as does a failed registry call and calls `next(InsufficientPermissions)`; otherwise the header comes first, followed on success by exactly the lines of the permitted properties' rows (as a multiset) and status 200, or on a query failure by the denial |
| `Timeseries.ResolveValue` | lib/models/timeseries.js:44-60 | undefined exactly when every column is null; otherwise the first non-null column in priority order, converted by its type |
| `Timeseries.ResolversAgree` | lib/models/timeseries.js:44-60 | the Postgres and Cassandra resolvers pick the same column; apart from booleans, the value is made from the text the Cassandra one returns |
| `Timeseries.BoolOnlyTrueText` | lib/models/timeseries.js:45-46 | a non-null `bool_v` is true exactly when it is the text `true` |
| `Timeseries.JsonStringifiedByFlag` | lib/models/timeseries.js:49-54 | `json_v` is stringified when the flag is set, which is the default, and returned as it is otherwise |
| `Timeseries.GetDeviceIdFromToken` | lib/models/timeseries.js:62-72 | no credential row throws InsufficientPermissions; otherwise the first row's device id; a pool rejection passes through |
| `Timeseries.DeviceLookupOnlyByAccessToken` | lib/models/timeseries.js:7 | the lookup depends only on the pool's answer to the `ACCESS_TOKEN` credentials query of the token |
| `Timeseries.GetTimeseries` | lib/models/timeseries.js:74-82 | the token lookup is the first call; an unknown or failing token takes no connection and streams nothing; the stream is the device's time-series query, run only after `connect` |
| `Timeseries.LatestOf` | lib/models/timeseries.js:88-95 | `{}` for no row; otherwise exactly the keys `name` and `ts`, with `ts` the parsed timestamp and `name` the resolved value |
| `Timeseries.GetLatest` | lib/models/timeseries.js:84-96 | the device lookup comes first and its failure is returned; then the latest-row query's rejection, or the shaped object |
| `Timeseries.LatestShape` | lib/models/timeseries.js:84-96 | with a known token the answer is `{}` exactly when there is no row, and otherwise has the keys `name` and `ts` |
| `Auth.ExtractTokenFromHeader` | lib/middlewares/auth.js:16-21 | a missing header yields no token, and a token never holds a space |
| `Auth.ExtractTokenSound` | lib/middlewares/auth.js:18-19 | a token found is the text after `Bearer `, up to the end or a space |
| `Auth.ExtractTokenComplete` | lib/middlewares/auth.js:18-19 | a header that reads `Bearer `, the token, then the end or a space yields that token; extra parts are ignored |
| `Auth.ExtractTokenIff` | lib/middlewares/auth.js:18-19 | both directions together: the case-sensitive `Bearer` split yields `t` exactly for that layout |
| `Auth.Authenticate` | lib/middlewares/auth.js:23-43 | a missing or empty token goes to `next(InvalidOrMissingToken)` without verification; a failed verification too; a verified token is stored with its payload and `next()` is called |
| `Authz.PropertyResourceSplits` | lib/middlewares/authz.js:6 | the checked resource name splits back into the thing id and the property name |
| `Authz.Ids` | lib/middlewares/authz.js:10 | the `_id` values of the affordances, in order |
| `Authz.CheckPermissionsForProperty` | lib/middlewares/authz.js:5-19 | `next()` exactly when the found ids with scopes `['GET']` get a grant, `next(InsufficientPermissions)` exactly when the grant is undefined, and no call of `next` on a rejection |
| `PropertiesRoute.CheckPermissionsForProperties` | lib/routes/properties/query.js:6-16 | succeeds exactly when the check of the body's properties with `['GET']` gives a grant; an undefined grant fails |
| `PropertiesRoute.Post` | lib/routes/properties/query.js:18-25 | the query runs exactly when the grant is defined, the check grants and the query can be built, and then on the body unchanged; every other path is `next(InsufficientPermissions)` |
| `PropertiesRoute.UndefinedGrantDenies` | lib/routes/properties/query.js:14 | an undefined grant ends in the denial, although the intended error is never built |
| `PropertiesRoute.MalformedPropertyDenies` | lib/routes/properties/query.js:22-24 | a property without `/properties/` ends in the denial after the check has granted |
| `Resource.IsExpired` | lib/models/resource.js:21-26 | an absent token is expired; otherwise expired exactly from `exp * 1000` on, the boundary included; no `exp` claim is never expired |
| `Resource.ExpiryIsFinal` | lib/models/resource.js:21-26 | once expired, a token stays expired at every later instant |
| `Resource.Overwrite` | lib/models/resource.js:32-45 | a present field overwrites the slot with the token and its decoded claims; an absent one keeps the slot |
| `Resource.StoredPartialOverwrite` | lib/models/resource.js:32-45 | only the slots whose field is present change, and storing the same answer twice equals storing it once |
| `Resource.Plan` | lib/models/resource.js:103-112 | no request exactly while the access token is unexpired; the refresh grant, with the refresh token, when only the refresh token is unexpired; client credentials exactly when both are expired |
| `Resource.NoExpiryClaimIsCached` | lib/models/resource.js:21-26 | a defined access token without an `exp` claim is always served from the cache |
| `Resource.TokenCache.constructor` | lib/models/resource.js:14-15 | both slots start undefined |
| `Resource.TokenCache.StoreTokens` | lib/models/resource.js:32-45 | the slots become the partial overwrite of the old slots by the answer |
| `Resource.TokenCache.Request` | lib/models/resource.js:50-98 | one request is recorded; a rejected fetch or a non-ok response leaves the slots unchanged and fails; an ok response stores the answer |
| `Resource.TokenCache.GetAccessToken` | lib/models/resource.js:103-112 | an unexpired cached token is returned with no request; otherwise the planned request is sent, its failure returned with the slots unchanged, or its answer stored and the stored access token returned |
| `Resource.FreshTokenIsServed` | lib/models/resource.js:32-45 | an ok answer carrying an unexpired access token is what the next call serves, without a request |
| `HttpErrors.InsufficientPermissions` | lib/utils/http_errors.js:45-49 | status 403, error `permissions_insufficient`, message `Insufficient permissions`, no details |
| `App.HttpErrorEchoed` | lib/utils/http_errors.js:9-38 | the error handler's answer carries the status, error, message and details given to the HttpError constructor, read through its getters; two HttpErrors that answer alike are the same |
| `HttpErrors.Deny` | lib/utils/http_errors.js:45 | the denial passed to `next` is an HttpError with status 403 |
| `App.Every` | index.js:105 | `every`/`includes`: holds exactly when each required scope is granted |
| `App.ScopeCheck` | index.js:100-113 | without a grant, InvalidOrMissingScope; an accepted request is `true`; an empty scope list is accepted |
| `App.ScopeCheckAgainstGranted` | index.js:102-109 | with a grant, access is accepted exactly when every required scope is among the space-split scopes of the token |
| `App.HandleError` | index.js:56-81 | an HttpError answers with its own status and a body of status, error, message and details; another error without a status or with status 0 gets 500 `Internal server error`; any other status is kept with message and `details: errors` |
| `App.HandleErrorStatus` | index.js:60-79 | the answer's status is the error's own, except that a missing or zero status becomes 500 |
| `App.InsufficientPermissionsResponse` | index.js:60-67 | a denial reaches the client as 403 `permissions_insufficient` with no details |
| `Express.Request.constructor` | lib/middlewares/auth.js:23-43 | a new request carries its parameters and header, no authentication, and no calls of `next` |

## Left out

- The InfluxDB client, the Cassandra client and the pg pool are foreign I/O. Their rows are input sequences or answers of oracle functions. The import at lib/models/timeseries.js:5 takes `{ pool }` from lib/utils/pool.js, which exports only `sql`; that is wiring, not logic, and the model behaves as if the pool were there.
- Flux escaping (`flux`, `fluxString` and the other helpers), `JSON.stringify` and `tableMeta.toObject` are library internals. They stay symbolic, as constructors or as a row's given JSON text.
- `parseFloat` and `parseInt` are kept symbolic (`VFloat(text)`, `VInt(text)`), and `dbl_v`/`long_v` stay text.
- Flux.GetFluxValue: numeric text is recognised by a decimal grammar (sign, digits, one point) plus the empty text. Whitespace, hexadecimal, exponent and `Infinity` forms, which `isNaN` also accepts, are not modelled. Whether the value is whole is decided on the exact decimal, not on the double `parseFloat` gives. Double rounding is therefore not modelled: `1.00000000000000001`, more than about 17 significant digits, parses to 1 and the source sends an integer, where the model sends a float. Overflow is not modelled either: a text with 309 or more integer digits parses to `Infinity`, which is not an integer, so the source sends a float, where the model sends an integer.
- Flux.GetFluxValueTrailingZeros: holds for the source only while `d` has fewer than 309 digits, for the overflow reason above.
- History.Get: the queries of `Promise.all` run concurrently, so their lines may interleave. The model writes them one property after another and states the lines after the header only as a multiset.
- What the transport does once bytes are sent is not modelled. That covers `res.status(500)` in the encoder's error callback and `next(err)` after the CSV header; only the recorded status, end and `next` calls are.
- `req.models.resource.find` and `req.models.access.check` are oracles. How the resource model's `find` uses `getAccessToken` is not modelled.
- `InvalidOrMissingToken` and `InvalidOrMissingScope` are imported but not defined by the shown http_errors.js. They are abstract error kinds, and their translation by the error handler is not modelled.
- `console.log`, environment-variable loading, the Express and OpenAPI bootstrap, CORS and the middleware list are plumbing.
- Resource.TokenCache.GetAccessToken reads the clock once per call. The source's `isExpired` calls `Date.now()` at each test, so the two tests could see different instants.
- `jwt.decode` is a total oracle `decode`. Its `null` answer for a malformed token, which makes `content.exp` throw, is not modelled.
- A rejection of `response.json()` on the token endpoint or the registry is not separated from a rejected fetch.
- History.Get takes the `property` query parameter as an optional list. A parameter given once arrives as a single string, on which `.map` would throw and be caught as a denial; that case is not modelled.
- FixIds.FixThingIdMiddleware requires `thingId` among the route parameters. Every route that mounts it declares one; without it the call would throw a `TypeError`.
- The key/value columns are modelled as text (`Option<string>`). The table schema is not part of this model, and node-postgres hands `boolean` and numeric columns over as JavaScript booleans and numbers. The conversions of lib/models/timeseries.js:44-60 are therefore modelled on text.
- Timeseries.BoolOnlyTrueText: states the `bool_v === 'true'` test of lib/models/timeseries.js:46 on text. If the driver delivers `bool_v` as a JavaScript boolean, that test is false for every stored value, true or not.
- Text and Wrappers model the JavaScript string built-ins and have no source lines of their own.
