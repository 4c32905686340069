# Calendar-sync event cache in Dafny

This project models the core of a small Express service. The service answers
`GET /calendar-events?startDate=…&endDate=…` with the signed-in user's Google
Calendar events and caches each answer in MongoDB.

- A **Query** document caches the Events for one exact (user, startDate,
  endDate) tuple, together with the time it was last `updated`.
- An **Event** document holds one provider event, keyed by its Google id.

`getEvents` looks the request up in the Query cache, with three outcomes:

- A **fresh hit** is served from the stored Events, without calling Google.
- A **stale hit** refreshes from Google and rewrites the same Query row in place.
- A **miss** refreshes from Google and inserts one new Query row.

`getEventsFromCalendar` builds the `events.list` request from whichever bounds
are present. It then upserts every returned event into the Event collection
with one ordered bulk operation. All upserts share one `lastQueried` time, and
the matching Events are then read back.

On the route side, the model covers three more pieces:

- `handleError`, which turns errors into responses.
- The normalisation of the optional `startDate`/`endDate` query parameters.
- The path the OAuth callback redirects back to.

Layout, one module per file:

| file | module | what it holds |
|---|---|---|
| `schema.dfy` | `Schema` | record shapes: `Event`, `Query`, `ProviderEvent`, `Error`, `Option`, `Result` |
| `freshness.dfy` | `Freshness` | the staleness test |
| `calendar_request.dfy` | `CalendarRequest` | the `events.list` request window, as intended and as written |
| `reconciliation.dfy` | `Reconciliation` | the bulk upsert stated on values (`UpsertOne`, `UpsertAll`) and its properties |
| `query_cache.dfy` | `QueryCache` | cache keys, lookup, staleness classification, `populate`, and the lookup filter as written |
| `event_controller.dfy` | `EventController` | class `Store`, whose Event and Query maps the operations update in place, and `getEvents`/`getEventsFromCalendar` as methods proved against the value-level specification |
| `routes.dfy` | `Routes` | `handleError`, parameter normalisation, and the redirect path built by successive appends |

Modelling choices:

- Dates are integer milliseconds since the epoch.
- `_id`s are natural numbers handed out in increasing order by the store.
- `TIMEOUT` is a parameter `timeoutMinutes`.
- One request sees one clock value `now`.
- The Google Calendar call is a function `Request -> ListReply` inside an
  `Environment`.
- The environment also says whether the initial Query lookup and the read-back
  of the Events report an error.
- `GetEvents` returns the request the provider received, or `None` when the
  provider was not asked.

Two points where the code and the service's description differ:

- `handleError` answers status 500 even for an unreadable date (a
  `CastError`). The model follows the code.
- `errorCallback` is called without `return` (controllers/event.js:115 and
  :143), so the source would go on into `result.data` or into
  `successCallback`. The model departs from this and treats the reported
  error as the outcome. In the source, the code after both calls throws
  before it writes anything. At :116 `result` is undefined, so `result.data`
  throws. After :143, `successCallback(undefined)` throws at `events.map`
  (:35 and :60). The store is therefore left as the model leaves it, and
  only the thrown TypeError is not modelled.

The operational model (`Store`) uses the corrected request window and the
corrected keyed lookup from "## Findings". The as-written versions are
modelled beside them. `QueryCache.MatchesAsWrittenWhenBounded` shows that the
two lookups agree whenever both bounds are present.

## Model

| member | source | states |
|---|---|---|
| Freshness.IsStale | controllers/event.js:29 | a cached Query is stale exactly when the elapsed minutes (elapsed milliseconds divided by 60000, as a real) are strictly greater than the timeout |
| Freshness.StalenessBoundary | controllers/event.js:29 | an elapsed time of exactly the timeout is still fresh; one millisecond more is stale |
| Freshness.StalenessIsMonotone | controllers/event.js:29 | once stale, a Query stays stale as the clock advances |
| CalendarRequest.RequestWindow | controllers/event.js:83-112 | the intended request: `timeMin` is the start bound and `timeMax` the end bound exactly when present, and every request names calendar `primary`, `singleEvents` true and `orderBy` `startTime` |
| CalendarRequest.RequestWindowAsWritten | controllers/event.js:83-112 | the request as written: with only an end bound it is the empty object `{}`; in every other case it equals the intended request |
| CalendarRequest.EndOnlyRequestIsEmpty | controllers/event.js:90-96 | with only an end bound, the request as written names no calendar and no `timeMax`, while the intended one carries the end bound |
| Reconciliation.UpsertOne | controllers/event.js:131-137 | one `find({googleEventId}).upsert().updateOne({$set})`: no document is removed, `_id`s only grow, and the only document it can add is the one under the next unused `_id` |
| Reconciliation.UpsertAll | controllers/event.js:123-139 | the ordered bulk operation, the upserts of the reply applied first to last: no document is removed and `_id`s only grow |
| Reconciliation.FindByGoogleId | controllers/event.js:131-133 | the filter `{googleEventId: gid}` finds a stored document with that Google id, or reports that none exists |
| Reconciliation.LastOccurrence | controllers/event.js:123-138 | for a Google id in the reply, the provider event at its last position in the reply, with no later event carrying that id |
| Reconciliation.UpsertOneEffect | controllers/event.js:125-137 | one upsert keeps at most one Event per Google id, removes and renumbers nothing, writes the provider event and `now` into the document with its id, leaves every other document unchanged, and adds a document only when none had the id |
| Reconciliation.UpsertAllValid | controllers/event.js:123-139 | the whole ordered bulk operation keeps at most one Event per Google id, removes and renumbers nothing, stores every Google id of the reply, and adds nothing when all were stored already |
| Reconciliation.UpsertAllWritesLast | controllers/event.js:118-138 | after the bulk operation, each document whose id the reply mentions holds the last provider event with that id, its start and end, and the shared `lastQueried = now` |
| Reconciliation.UpsertAllKeepsOthers | controllers/event.js:123-138 | every document whose Google id the reply does not mention existed before and is unchanged |
| Reconciliation.UpsertAllLeavesOthers | controllers/event.js:123-138 | every stored Event whose Google id the reply does not mention is still stored, unchanged |
| Reconciliation.ReconcileTwice | controllers/event.js:123-138 | applying the same reply again adds and removes no document and changes only `lastQueried` of the reply's documents |
| Reconciliation.ReconcileIsIdempotent | controllers/event.js:123-138 | applying the same reply twice at the same time equals applying it once |
| QueryCache.CachedQuery | controllers/event.js:22-27 | the lookup by exact (user, startDate, endDate) key finds a Query with that key, or reports that none exists |
| QueryCache.Classify | controllers/event.js:27-29 | the decision of `getEvents`: a miss exactly when no Query has the key; otherwise a hit on a Query with the key, stale exactly when `IsStale` holds for its `updated` |
| QueryCache.Populate | controllers/event.js:49-53 | resolving a Query's references yields stored Events only; when every reference resolves it yields exactly the referenced Events in reference order |
| QueryCache.PopulateConcatenates | controllers/event.js:49-53 | populating a list of references is populating each part in order and concatenating the results |
| QueryCache.PopulateOne | controllers/event.js:49-53 | a resolving reference populates to its document and a dangling one to nothing, so dangling references are dropped and the rest keep their order |
| QueryCache.PopulateReRead | controllers/event.js:40-44 | resolving the `_id`s of a read-back batch gives back that same batch |
| QueryCache.InsertedQueryIsCached | controllers/event.js:58-64 | inserting a row for an uncached key keeps one row per key, adds exactly one row, and makes that key a hit on the new row |
| QueryCache.RewrittenQueryIsCached | controllers/event.js:34-39 | rewriting the found row under its key keeps one row per key, adds no row, and the key still finds the same row |
| QueryCache.RefreshedQueryIsFresh | controllers/event.js:29 | a row updated at `now` is a fresh hit for its key until the timeout has elapsed |
| QueryCache.MatchesAsWritten | controllers/event.js:22-26 | the lookup filter as written can only match rows that store both bounds |
| QueryCache.LookupDate | controllers/event.js:24-25 | `new Date(bound)`: a present bound is its own date and `null` is the epoch |
| QueryCache.MatchesAsWrittenWhenBounded | controllers/event.js:22-26 | with both bounds present, the lookup filter as written selects exactly the Queries with the requested key |
| QueryCache.AbsentBoundMissesAsWritten | controllers/event.js:22-26 | with an absent bound, the filter as written never matches the row an identical request stored, while the keyed lookup finds it |
| QueryCache.EpochRowMatchesAbsentBoundAsWritten | controllers/event.js:22-26 | with the filter as written, a request without a start bound matches a row cached for an explicit epoch start, which has a different key |
| EventController.EventsGrowKeepConsistent | controllers/event.js:123-139 | reconciling Events removes no Event a Query refers to and keeps the store consistent |
| EventController.InsertKeepsConsistent | controllers/event.js:58-64 | inserting a Query under the next `_id` for an uncached key, with resolving references, keeps the store consistent and makes the key a hit |
| EventController.RewriteKeepsConsistent | controllers/event.js:34-39 | rewriting a cached Query under its own `_id` and key, with resolving references, keeps the store consistent |
| EventController.Store.FindEvent | controllers/event.js:131-133 | `bulk.find({googleEventId})` on the live collection returns what `FindByGoogleId` specifies |
| EventController.Store.FindQuery | controllers/event.js:22-26 | `Query.findOne` on the live collection returns what `CachedQuery` specifies |
| EventController.Store.BulkUpsert | controllers/event.js:123-139 | the loop over the reply leaves the Event collection equal to `UpsertAll` of the old one, and the store consistent |
| EventController.Store.ReadByGoogleIds | controllers/event.js:140-145 | the read-back returns every stored Event whose Google id is asked for, each once, and nothing else |
| EventController.Store.FetchFromCalendar | controllers/event.js:80-148 | sends the intended request window; a provider error is returned and changes nothing; otherwise the Events become `UpsertAll` of the reply, and the result is the read-back error or the read-back batch |
| EventController.Store.RefreshQuery | controllers/event.js:32-46 | stale hit: on success the same Query row gets the reconciled Events' `_id`s, the requested bounds and `updated = now`, and the answer is that row's populated Events; on failure no Query changes |
| EventController.Store.InsertQuery | controllers/event.js:57-66 | miss: on success exactly one new Query is inserted under a fresh `_id`, with the user, the reconciled Events' `_id`s, the requested bounds and `now`, and the answer is the reconciled batch; on failure no Query is inserted |
| EventController.Store.GetEvents | controllers/event.js:20-71 | a lookup error is reported and changes nothing; a fresh hit asks no provider, changes nothing and answers the populated Events; a stale hit rewrites its row in place; a miss inserts one row; a provider error leaves the store unchanged |
| Routes.HandleError | routes.js:7-13 | always status 500; the body is the fixed invalid-date message exactly for a `CastError`, otherwise the error itself |
| Routes.NormaliseParam | routes.js:29-41 | a missing or empty parameter becomes `null`; any other value is passed through unchanged |
| Routes.NormaliseParamIsIdempotent | routes.js:29-41 | normalising an already-normalised parameter changes nothing |
| Routes.RedirectTarget | routes.js:92-102 | the redirect path starts with `/calendar-events` and is exactly `/calendar-events` when neither bound is present |
| Routes.RedirectPath | routes.js:92-102 | the path built by successive appends equals the redirect target: `/calendar-events`, then each truthy bound as a parameter, start first |
| Routes.RedirectTargetCases | routes.js:92-102 | the four shapes: `/calendar-events?startDate=S&endDate=E`, `/calendar-events?startDate=S`, `/calendar-events?endDate=E` and `/calendar-events` |
| Routes.AppendParamsKeepsPath | routes.js:92-102 | appending parameters keeps the starting path as a prefix |
| Routes.RedirectTargetQuestionMarks | routes.js:92-102 | the path starts with `/calendar-events` and contains one `?` of its own exactly when a bound is present, plus any `?` inside the (unencoded) values |
| Routes.RedirectCarriesNormalisedBounds | routes.js:43-48 | the parameters the redirect carries, read back and normalised again, are the normalised bounds of the original request |

## Left out

- controllers/google_authentication.js is not part of this model. It covers OAuth2 token exchange, the shared client and the auth URL, all network I/O. Being authorised is taken as given.
- controllers/user.js and app.js are not part of this model. They hold user lookup, the Google+ call and Express/MongoDB bootstrap.
- JavaScript `Date` parsing and `toISOString` are not modelled. Bounds are already timestamps, and a request field holds the timestamp that would be rendered.
- An unparsable date, which surfaces as a `CastError` from the lookup, is modelled only as the lookup error of the `Environment`.
- Floating-point division at controllers/event.js:29 is replaced by the equivalent exact comparison. `IsStale` states the real-number form.
- The three clock readings of one request (controllers/event.js:29, 38, 63 and 118) are one `now`. The model does not capture a request that straddles the timeout.
- Callback and promise sequencing, the unawaited `save()` at controllers/event.js:64, and two concurrent requests refreshing the same Query are not modelled. Requests run one at a time.
- Store.BulkUpsert: the source ignores the error of `bulk.execute` (controllers/event.js:139). An ordered bulk that fails part-way applies only a prefix of the upserts, and the read-back still runs. The model's upsert cannot fail, so that partial outcome is not modelled.
- Store.GetEvents / Store.FetchFromCalendar: both use the corrected request window (`RequestWindow`) and the corrected keyed lookup (`CachedQuery`) from "## Findings". The as-written end-only request and the as-written lookup of absent bounds are not what the Store does.
- Store.GetEvents: the source ignores the `err` of the populate read (controllers/event.js:42-43 and 51-52). On such an error `populatedQuery.events` throws and no answer is sent. The model's fresh and stale hits always answer, and that failure is not modelled.
- Store.RefreshQuery: `existingQuery.update` (controllers/event.js:34-39) has no rejection handler. If it fails, the row is not rewritten and no answer is sent. The model's rewrite cannot fail.
- Freshness.IsStale: the timeout is a whole, non-negative number of minutes (`timeoutMinutes: nat`). The source compares a float quotient with whatever number the config holds, so a fractional timeout such as 0.5 is not modelled.
- Store.ReadByGoogleIds: the order of the read-back documents (MongoDB natural order) is left open. The model picks them in any order, and the contract fixes only which documents come back.
- The `_id` returned by `event.id` (controllers/event.js:35) and by `event._id` (controllers/event.js:60) is the same value in the model.
- Provider events without `start.dateTime`/`end.dateTime` (all-day events) store absent dates. The other fields of a provider event are an uninterpreted payload.
- The Base64/JSON encoding of the OAuth `state` (routes.js:50-52, 85-87) and Express request, response and session handling are not modelled.
- Routes.RedirectCarriesNormalisedBounds states the round trip on the parameter list, not on the path text. The path does not URL-encode values, and parsing a query string back is not modelled.
- Express may deliver a repeated query parameter as an array. Only missing, empty and plain string values are modelled.

## Findings

| source | as written | input that shows it | evidently intended | confidence | as-written member | corrected member |
|---|---|---|---|---|---|---|
| controllers/event.js:90-96 | the end-only branch declares a new block-scoped `let query`, so the outer `query` stays `{}` and the provider receives an empty request | `startDate == null`, `endDate` = any date: the request has no `calendarId` and no `timeMax` | list the primary calendar up to `timeMax = endDate`, like the other three branches | high (reading of JavaScript scoping; not executed) | CalendarRequest.EndOnlyRequestIsEmpty | CalendarRequest.RequestWindow |
| controllers/event.js:22-26 | the lookup compares stored bounds with `new Date(startDate)`/`new Date(endDate)`, while rows store the raw bound (controllers/event.js:61-62); `new Date(null)` is the epoch, so a stored `null` never matches | two identical requests without a start bound: the second misses and inserts a second row for the same tuple; a request without a start bound matches a row cached with start = epoch | exact-tuple cache in which an absent bound is its own key | medium (relies on Mongoose casting and `new Date(null)`; not executed) | QueryCache.AbsentBoundMissesAsWritten | QueryCache.InsertedQueryIsCached |
