/**
 * The event controller: `getEvents` answers a user's request for a date
 * range from the Query cache or refreshes it from Google Calendar, and
 * `getEventsFromCalendar` fetches a reply and reconciles it into the Event
 * collection. The two collections live in one `Store` object that the
 * operations update in place; MongoDB's calls become operations on its maps.
 */
module EventController {
  import opened Schema
  import opened Freshness
  import opened CalendarRequest
  import opened Reconciliation
  import opened QueryCache

  /**
   * How the collaborators outside the model answer during one request: the
   * Query lookup may reject (a CastError for an unreadable date, say), the
   * provider answers each request object, and reading back the reconciled
   * Events may report an error.
   */
  datatype Environment = Environment(
    lookupFault: Option<Error>,
    listEvents: Request -> ListReply,
    rereadFault: Option<Error>)

  /** The provider's answer to the request built for a range. */
  function ReplyFor(env: Environment, startDate: Bound, endDate: Bound): ListReply
  {
    env.listEvents(RequestWindow(startDate, endDate))
  }

  /**
   * The Event collection is valid (one Event per Google id), every Query
   * sits under its own `_id`, there is at most one Query per cache key,
   * and every reference of a Query resolves to a stored Event.
   */
  ghost predicate Consistent(events: map<ObjectId, Event>, queries: map<ObjectId, Query>, nextId: ObjectId)
  {
    && TableValid(Table(events, nextId))
    && (forall id :: id in queries ==> queries[id].id == id && id < nextId)
    && UniqueKeys(queries)
    && (forall id, r :: id in queries && r in queries[id].events ==> r in events)
  }

  /**
   * Reconciling Events keeps the collections consistent: it keeps the Event
   * collection valid and removes no Event a Query may refer to.
   */
  lemma EventsGrowKeepConsistent(events: map<ObjectId, Event>, queries: map<ObjectId, Query>, nextId: ObjectId, t': Table)
    requires Consistent(events, queries, nextId)
    requires TableValid(t') && events.Keys <= t'.rows.Keys && nextId <= t'.nextId
    ensures Consistent(t'.rows, queries, t'.nextId)
  {
  }

  /**
   * Inserting a Query for an uncached key under the next `_id`, with
   * references that resolve, keeps the collections consistent and makes
   * that key a hit.
   */
  lemma InsertKeepsConsistent(events: map<ObjectId, Event>, queries: map<ObjectId, Query>, nextId: ObjectId, row: Query)
    requires Consistent(events, queries, nextId)
    requires row.id == nextId && CachedQuery(queries, KeyOf(row)).None?
    requires forall r :: r in row.events ==> r in events
    ensures nextId !in queries
    ensures Consistent(events, queries[nextId := row], nextId + 1)
    ensures CachedQuery(queries[nextId := row], KeyOf(row)) == Some(nextId)
  {
    InsertedQueryIsCached(queries, nextId, row);
    var t := Table(events, nextId);
    assert TableValid(t);
    assert TableValid(Table(events, nextId + 1));
  }

  /**
   * Rewriting a cached Query under its own `_id` and key, with references
   * that resolve, keeps the collections consistent.
   */
  lemma RewriteKeepsConsistent(events: map<ObjectId, Event>, queries: map<ObjectId, Query>, nextId: ObjectId, id: ObjectId, row: Query)
    requires Consistent(events, queries, nextId)
    requires id in queries && row.id == id && KeyOf(queries[id]) == KeyOf(row)
    requires forall r :: r in row.events ==> r in events
    ensures Consistent(events, queries[id := row], nextId)
    ensures CachedQuery(queries[id := row], KeyOf(row)) == Some(id)
  {
    RewrittenQueryIsCached(queries, id, row);
  }

  /** The Event and Query collections. */
  class Store {
    var events: map<ObjectId, Event>
    var queries: map<ObjectId, Query>
    var nextId: ObjectId

    /** The store's collections are consistent. */
    ghost predicate Valid()
      reads this
    {
      Consistent(events, queries, nextId)
    }

    /** The outcome of looking up a request in the cache at time `now`. */
    ghost function Lookup(user: UserId, startDate: Bound, endDate: Bound, now: Timestamp, timeoutMinutes: nat): CacheLookup
      reads this
    {
      Classify(queries, CacheKey(user, startDate, endDate), now, timeoutMinutes)
    }

    constructor ()
      ensures Valid()
      ensures events == map[] && queries == map[] && nextId == 0
    {
      events, queries, nextId := map[], map[], 0;
    }

    /** `bulk.find({googleEventId: gid})`: the stored Event with that Google id. */
    method FindEvent(gid: GoogleId) returns (found: Option<ObjectId>)
      requires TableValid(Table(events, nextId))
      ensures found == FindByGoogleId(events, gid)
    {
      var hits := set k | k in events && events[k].googleEventId == gid;
      if hits == {} {
        found := None;
        assert forall k :: k in events ==> k !in hits;
      } else {
        var k :| k in hits;
        found := Some(k);
        assert FindByGoogleId(events, gid).Some?;
      }
    }

    /** `Query.findOne` on the cache key. */
    method FindQuery(key: CacheKey) returns (found: Option<ObjectId>)
      requires Valid()
      ensures found == CachedQuery(queries, key)
    {
      var hits := set id | id in queries && KeyOf(queries[id]) == key;
      if hits == {} {
        found := None;
        assert forall id :: id in queries ==> id !in hits;
      } else {
        var id :| id in hits;
        found := Some(id);
        assert CachedQuery(queries, key).Some?;
      }
    }

    /**
     * The ordered bulk operation: one upsert per provider event, keyed by
     * Google id, all with the same `lastQueried`.
     */
    method BulkUpsert(batch: seq<ProviderEvent>, now: Timestamp)
      requires Valid()
      modifies this`events, this`nextId
      ensures Valid()
      ensures Table(events, nextId) == UpsertAll(Table(old(events), old(nextId)), batch, now)
    {
      ghost var t0 := Table(events, nextId);
      var i := 0;
      while i < |batch|
        invariant 0 <= i <= |batch|
        invariant Table(events, nextId) == UpsertAll(t0, batch[..i], now)
        decreases |batch| - i
      {
        ghost var before := Table(events, nextId);
        UpsertAllValid(t0, batch[..i], now);
        UpsertAllStep(t0, batch, i, now);
        var pe := batch[i];
        var found := FindEvent(pe.id);
        match found {
          case Some(k) =>
            events := events[k := Refreshed(events[k], pe, now)];
          case None =>
            events := events[nextId := FromProvider(nextId, pe, now)];
            nextId := nextId + 1;
        }
        assert Table(events, nextId) == UpsertOne(before, pe, now);
        i := i + 1;
      }
      assert batch[..i] == batch;
      UpsertAllValid(t0, batch, now);
      EventsGrowKeepConsistent(t0.rows, queries, t0.nextId, Table(events, nextId));
    }

    /**
     * `Event.find({googleEventId: {$in: gids}})`: every stored Event with one
     * of those Google ids, each once, in whatever order the store yields them.
     */
    method ReadByGoogleIds(gids: set<GoogleId>) returns (docs: seq<Event>)
      requires TableValid(Table(events, nextId))
      ensures ReReadOf(events, gids, docs)
    {
      var remaining := set k | k in events && events[k].googleEventId in gids;
      docs := [];
      while remaining != {}
        invariant remaining <= events.Keys
        invariant forall k :: k in remaining ==> events[k].googleEventId in gids
        invariant forall i :: 0 <= i < |docs| ==>
          docs[i].id in events && events[docs[i].id] == docs[i] && docs[i].googleEventId in gids && docs[i].id !in remaining
        invariant forall k :: k in events && events[k].googleEventId in gids ==> k in remaining || k in Ids(docs)
        invariant forall i, j :: 0 <= i < j < |docs| ==> docs[i].id != docs[j].id
        decreases remaining
      {
        var k :| k in remaining;
        assert Ids(docs + [events[k]]) == Ids(docs) + [k];
        docs := docs + [events[k]];
        remaining := remaining - {k};
      }
    }

    /**
     * `getEventsFromCalendar`: ask the provider for the requested window; on
     * success reconcile the reply and read the reconciled Events back. A
     * provider error changes nothing; a read-back error comes after the
     * Events were written.
     */
    method FetchFromCalendar(startDate: Bound, endDate: Bound, now: Timestamp, env: Environment)
      returns (r: Result<seq<Event>>, sent: Request)
      requires Valid()
      modifies this`events, this`nextId
      ensures Valid()
      ensures sent == RequestWindow(startDate, endDate)
      ensures env.listEvents(sent).Failed? ==>
        r == Err(env.listEvents(sent).error) && events == old(events) && nextId == old(nextId)
      ensures env.listEvents(sent).Items? ==>
        && Table(events, nextId) == UpsertAll(Table(old(events), old(nextId)), env.listEvents(sent).items, now)
        && (env.rereadFault.Some? ==> r == Err(env.rereadFault.value))
        && (env.rereadFault.None? ==> r.Ok? && ReReadOf(events, GoogleIds(env.listEvents(sent).items), r.value))
    {
      sent := RequestWindow(startDate, endDate);
      var reply := env.listEvents(sent);
      match reply
      case Failed(e) =>
        r := Err(e);
      case Items(batch) =>
        BulkUpsert(batch, now);
        if env.rereadFault.Some? {
          r := Err(env.rereadFault.value);
        } else {
          var docs := ReadByGoogleIds(GoogleIds(batch));
          r := Ok(docs);
        }
    }

    /**
     * The stale-hit continuation of `getEvents`: refresh from the provider,
     * then rewrite the cached row in place with the reconciled Events'
     * `_id`s, the requested bounds and `now`, and answer with that row's
     * Events. A failure leaves every Query as it was.
     */
    method RefreshQuery(id: ObjectId, startDate: Bound, endDate: Bound, now: Timestamp, env: Environment)
      returns (r: Result<seq<Event>>, sent: Request)
      requires Valid()
      requires id in queries && KeyOf(queries[id]) == CacheKey(queries[id].user, startDate, endDate)
      modifies this
      ensures Valid()
      ensures sent == RequestWindow(startDate, endDate)
      ensures ReplyFor(env, startDate, endDate).Failed? ==>
        r == Err(ReplyFor(env, startDate, endDate).error) && unchanged(this)
      ensures ReplyFor(env, startDate, endDate).Items? ==>
        Table(events, nextId) == UpsertAll(Table(old(events), old(nextId)), ReplyFor(env, startDate, endDate).items, now)
      ensures ReplyFor(env, startDate, endDate).Items? && env.rereadFault.Some? ==>
        r == Err(env.rereadFault.value) && queries == old(queries)
      ensures ReplyFor(env, startDate, endDate).Items? && env.rereadFault.None? ==>
        && r.Ok? && ReReadOf(events, GoogleIds(ReplyFor(env, startDate, endDate).items), r.value)
        && queries == old(queries)[id := old(queries)[id].(events := Ids(r.value), startDate := startDate,
                                                            endDate := endDate, updated := now)]
    {
      var fetched;
      fetched, sent := FetchFromCalendar(startDate, endDate, now, env);
      match fetched
      case Err(e) =>
        r := Err(e);
      case Ok(docs) =>
        var row := queries[id].(events := Ids(docs), startDate := startDate, endDate := endDate, updated := now);
        assert forall k :: k in Ids(docs) ==> k in events;
        RewriteKeepsConsistent(events, queries, nextId, id, row);
        queries := queries[id := row];
        PopulateReRead(events, GoogleIds(ReplyFor(env, startDate, endDate).items), docs);
        r := Ok(Populate(events, row.events));
    }

    /**
     * The miss continuation of `getEvents`: fetch from the provider, then
     * insert exactly one new Query for the request with the reconciled
     * Events' `_id`s and `now`, and answer with the reconciled Events. A
     * failure inserts nothing.
     */
    method InsertQuery(user: UserId, startDate: Bound, endDate: Bound, now: Timestamp, env: Environment)
      returns (r: Result<seq<Event>>, sent: Request)
      requires Valid()
      requires CachedQuery(queries, CacheKey(user, startDate, endDate)).None?
      modifies this
      ensures Valid()
      ensures sent == RequestWindow(startDate, endDate)
      ensures ReplyFor(env, startDate, endDate).Failed? ==>
        r == Err(ReplyFor(env, startDate, endDate).error) && unchanged(this)
      ensures ReplyFor(env, startDate, endDate).Items? ==>
        events == UpsertAll(Table(old(events), old(nextId)), ReplyFor(env, startDate, endDate).items, now).rows
      ensures ReplyFor(env, startDate, endDate).Items? && env.rereadFault.Some? ==>
        && r == Err(env.rereadFault.value) && queries == old(queries)
        && nextId == UpsertAll(Table(old(events), old(nextId)), ReplyFor(env, startDate, endDate).items, now).nextId
      ensures ReplyFor(env, startDate, endDate).Items? && env.rereadFault.None? ==>
        var n := UpsertAll(Table(old(events), old(nextId)), ReplyFor(env, startDate, endDate).items, now).nextId;
        && r.Ok? && ReReadOf(events, GoogleIds(ReplyFor(env, startDate, endDate).items), r.value)
        && n !in old(queries)
        && queries == old(queries)[n := Query(n, user, Ids(r.value), startDate, endDate, now)]
        && nextId == n + 1
    {
      var fetched;
      fetched, sent := FetchFromCalendar(startDate, endDate, now, env);
      match fetched
      case Err(e) =>
        r := Err(e);
      case Ok(docs) =>
        assert forall k :: k in Ids(docs) ==> k in events;
        var row := Query(nextId, user, Ids(docs), startDate, endDate, now);
        InsertKeepsConsistent(events, queries, nextId, row);
        queries := queries[nextId := row];
        nextId := nextId + 1;
        r := Ok(docs);
    }

    /**
     * `getEvents`: look the request up by its exact cache key; serve a fresh
     * hit without asking the provider, refresh a stale hit in place, and on
     * a miss fetch and insert one new Query. `sent` is the request the
     * provider received, if it was asked at all. A failed lookup is reported
     * and changes nothing.
     */
    method GetEvents(user: UserId, startDate: Bound, endDate: Bound, now: Timestamp, timeoutMinutes: nat, env: Environment)
      returns (r: Result<seq<Event>>, sent: Option<Request>)
      requires Valid()
      modifies this
      ensures Valid()
      ensures env.lookupFault.Some? ==> r == Err(env.lookupFault.value) && sent == None && unchanged(this)
      ensures env.lookupFault.None? ==>
        match old(Lookup(user, startDate, endDate, now, timeoutMinutes))
        case FreshHit(id) =>
          && sent == None && unchanged(this)
          && r == Ok(Populate(events, queries[id].events))
        case StaleHit(id) =>
          && sent == Some(RequestWindow(startDate, endDate))
          && (r.Err? ==> queries == old(queries))
          && (r.Ok? ==> queries == old(queries)[id := old(queries)[id].(events := Ids(r.value), startDate := startDate,
                                                                         endDate := endDate, updated := now)])
        case Miss =>
          && sent == Some(RequestWindow(startDate, endDate))
          && (r.Err? ==> queries == old(queries))
          && (r.Ok? ==> exists n :: n !in old(queries) &&
                          queries == old(queries)[n := Query(n, user, Ids(r.value), startDate, endDate, now)])
      ensures env.lookupFault.None? && !old(Lookup(user, startDate, endDate, now, timeoutMinutes)).FreshHit? ==>
        && (ReplyFor(env, startDate, endDate).Failed? ==>
              r == Err(ReplyFor(env, startDate, endDate).error) && unchanged(this))
        && (ReplyFor(env, startDate, endDate).Items? ==>
              events == UpsertAll(Table(old(events), old(nextId)), ReplyFor(env, startDate, endDate).items, now).rows)
        && (ReplyFor(env, startDate, endDate).Items? && env.rereadFault.Some? ==> r == Err(env.rereadFault.value))
        && (ReplyFor(env, startDate, endDate).Items? && env.rereadFault.None? ==>
              r.Ok? && ReReadOf(events, GoogleIds(ReplyFor(env, startDate, endDate).items), r.value))
    {
      if env.lookupFault.Some? {
        return Err(env.lookupFault.value), None;
      }
      var existing := FindQuery(CacheKey(user, startDate, endDate));
      match existing
      case Some(id) =>
        if IsStale(queries[id].updated, now, timeoutMinutes) {
          var request;
          r, request := RefreshQuery(id, startDate, endDate, now, env);
          sent := Some(request);
        } else {
          sent := None;
          r := Ok(Populate(events, queries[id].events));
        }
      case None =>
        var request;
        r, request := InsertQuery(user, startDate, endDate, now, env);
        sent := Some(request);
    }
  }
}
