/**
 * The Query cache: Queries are keyed by the exact (user, startDate,
 * endDate) tuple, with an absent bound a key of its own, and a cached Query
 * is served as long as it is not stale.
 */
module QueryCache {
  import opened Schema
  import opened Freshness
  import opened Reconciliation

  datatype CacheKey = CacheKey(user: UserId, startDate: Bound, endDate: Bound)

  function KeyOf(q: Query): CacheKey
  {
    CacheKey(q.user, q.startDate, q.endDate)
  }

  /** At most one Query per cache key. */
  ghost predicate UniqueKeys(queries: map<ObjectId, Query>)
  {
    forall a, b :: a in queries && b in queries && KeyOf(queries[a]) == KeyOf(queries[b]) ==> a == b
  }

  /** The cached Query for a key, if there is one. */
  ghost function CachedQuery(queries: map<ObjectId, Query>, key: CacheKey): (found: Option<ObjectId>)
    ensures found.Some? ==> found.value in queries && KeyOf(queries[found.value]) == key
    ensures found.None? ==> forall id :: id in queries ==> KeyOf(queries[id]) != key
  {
    if exists id :: id in queries && KeyOf(queries[id]) == key then
      var id :| id in queries && KeyOf(queries[id]) == key; Some(id)
    else
      None
  }

  /** The three outcomes of a cache lookup. */
  datatype CacheLookup = Miss | FreshHit(id: ObjectId) | StaleHit(id: ObjectId)

  /**
   * The decision of `getEvents`: a miss when no Query has the key,
   * otherwise a hit on the Query with the key, stale exactly when the
   * timeout has passed since it was updated.
   */
  ghost function Classify(queries: map<ObjectId, Query>, key: CacheKey, now: Timestamp, timeoutMinutes: nat): (outcome: CacheLookup)
    ensures outcome.Miss? <==> forall id :: id in queries ==> KeyOf(queries[id]) != key
    ensures !outcome.Miss? ==>
      && outcome.id in queries && KeyOf(queries[outcome.id]) == key
      && (outcome.StaleHit? <==> IsStale(queries[outcome.id].updated, now, timeoutMinutes))
  {
    match CachedQuery(queries, key)
    case None => Miss
    case Some(id) =>
      if IsStale(queries[id].updated, now, timeoutMinutes) then StaleHit(id) else FreshHit(id)
  }

  /**
   * Resolving a Query's event references: the stored document of each
   * reference, in reference order; a reference to no stored document is
   * dropped.
   */
  function Populate(rows: map<ObjectId, Event>, refs: seq<ObjectId>): (docs: seq<Event>)
    ensures |docs| <= |refs|
    ensures forall i :: 0 <= i < |docs| ==> docs[i] in rows.Values
    ensures (forall r :: r in refs ==> r in rows) ==>
      |docs| == |refs| && forall i :: 0 <= i < |refs| ==> docs[i] == rows[refs[i]]
  {
    if refs == [] then []
    else (if refs[0] in rows then [rows[refs[0]]] else []) + Populate(rows, refs[1..])
  }

  /**
   * Populating is determined reference by reference: the results of
   * consecutive references are concatenated in order ...
   */
  lemma {:induction false} PopulateConcatenates(rows: map<ObjectId, Event>, refs1: seq<ObjectId>, refs2: seq<ObjectId>)
    ensures Populate(rows, refs1 + refs2) == Populate(rows, refs1) + Populate(rows, refs2)
    decreases |refs1|
  {
    if refs1 == [] {
      assert refs1 + refs2 == refs2;
    } else {
      assert (refs1 + refs2)[1..] == refs1[1..] + refs2;
      PopulateConcatenates(rows, refs1[1..], refs2);
    }
  }

  /** ... a resolving reference yields its document and a dangling one yields nothing. */
  lemma PopulateOne(rows: map<ObjectId, Event>, r: ObjectId)
    ensures r in rows ==> Populate(rows, [r]) == [rows[r]]
    ensures r !in rows ==> Populate(rows, [r]) == []
  {
    assert [r][1..] == [];
  }

  /** Resolving the `_id`s of a read-back batch gives that batch again. */
  lemma PopulateReRead(rows: map<ObjectId, Event>, gids: set<GoogleId>, docs: seq<Event>)
    requires ReReadOf(rows, gids, docs)
    ensures Populate(rows, Ids(docs)) == docs
  {
    var refs := Ids(docs);
    forall r | r in refs ensures r in rows {
      var i :| 0 <= i < |refs| && refs[i] == r;
      assert docs[i].id == r;
    }
  }

  /**
   * A miss inserts a row for a key no row has: keys stay unique, the table
   * grows by exactly one row, and the next lookup of that key finds it.
   */
  lemma InsertedQueryIsCached(queries: map<ObjectId, Query>, id: ObjectId, row: Query)
    requires UniqueKeys(queries)
    requires id !in queries
    requires CachedQuery(queries, KeyOf(row)).None?
    ensures UniqueKeys(queries[id := row])
    ensures |queries[id := row]| == |queries| + 1
    ensures CachedQuery(queries[id := row], KeyOf(row)) == Some(id)
  {
    var q' := queries[id := row];
    assert forall x :: x in queries ==> KeyOf(queries[x]) != KeyOf(row);
    assert UniqueKeys(q');
    assert q'.Keys == queries.Keys + {id};
    var found := CachedQuery(q', KeyOf(row));
    assert found.Some?;
  }

  /**
   * A stale refresh rewrites the row it found under the same key: keys stay
   * unique, no row is added, and the next lookup of that key finds it again.
   */
  lemma RewrittenQueryIsCached(queries: map<ObjectId, Query>, id: ObjectId, row: Query)
    requires UniqueKeys(queries)
    requires id in queries && KeyOf(queries[id]) == KeyOf(row)
    ensures UniqueKeys(queries[id := row])
    ensures queries[id := row].Keys == queries.Keys
    ensures CachedQuery(queries[id := row], KeyOf(row)) == Some(id)
  {
    var q' := queries[id := row];
    forall x | x in q' ensures KeyOf(q'[x]) == KeyOf(queries[x]) {
    }
    assert UniqueKeys(q');
    var found := CachedQuery(q', KeyOf(row));
    assert found.Some?;
  }

  /**
   * A row written at `now` answers its own key without a refresh until the
   * timeout has elapsed.
   */
  lemma RefreshedQueryIsFresh(queries: map<ObjectId, Query>, id: ObjectId, now: Timestamp, later: Timestamp, timeoutMinutes: nat)
    requires UniqueKeys(queries)
    requires id in queries && queries[id].updated == now
    requires later <= now + timeoutMinutes * MillisPerMinute
    ensures Classify(queries, KeyOf(queries[id]), later, timeoutMinutes) == FreshHit(id)
  {
    var found := CachedQuery(queries, KeyOf(queries[id]));
    assert found.Some?;
    assert found.value == id;
  }

  /** The date `new Date(b)` gives for a bound: `null` is read as the epoch. */
  function LookupDate(b: Bound): (date: Timestamp)
    ensures b.Some? ==> date == b.value
    ensures b.None? ==> date == 0
  {
    match b
    case None => 0
    case Some(t) => t
  }

  /**
   * The lookup filter as written: it compares the stored bounds with
   * `new Date(startDate)` and `new Date(endDate)`, while rows store the raw
   * bounds, so a stored `null` is compared with the epoch.
   */
  function MatchesAsWritten(q: Query, user: UserId, startDate: Bound, endDate: Bound): (hit: bool)
    ensures hit ==> q.startDate.Some? && q.endDate.Some?
  {
    q.user == user && q.startDate == Some(LookupDate(startDate)) && q.endDate == Some(LookupDate(endDate))
  }

  /**
   * With the lookup as written, a request with an absent bound never finds
   * the row an identical earlier request stored, so every such request
   * inserts another row for the same tuple; the keyed lookup finds it.
   */
  lemma AbsentBoundMissesAsWritten(queries: map<ObjectId, Query>, id: ObjectId, user: UserId, startDate: Bound, endDate: Bound)
    requires UniqueKeys(queries)
    requires id in queries && KeyOf(queries[id]) == CacheKey(user, startDate, endDate)
    requires startDate.None? || endDate.None?
    ensures !MatchesAsWritten(queries[id], user, startDate, endDate)
    ensures CachedQuery(queries, CacheKey(user, startDate, endDate)) == Some(id)
  {
  }

  /** With the lookup as written, an absent start bound is served the row cached for an explicit epoch start. */
  lemma EpochRowMatchesAbsentBoundAsWritten(q: Query, endDate: Timestamp)
    requires q.startDate == Some(0) && q.endDate == Some(endDate)
    ensures MatchesAsWritten(q, q.user, None, Some(endDate))
    ensures KeyOf(q) != CacheKey(q.user, None, Some(endDate))
  {
  }

  /**
   * With both bounds present, the lookup filter as written selects exactly
   * the Queries with the requested key.
   */
  lemma MatchesAsWrittenWhenBounded(q: Query, user: UserId, startDate: Timestamp, endDate: Timestamp)
    ensures MatchesAsWritten(q, user, Some(startDate), Some(endDate)) <==>
      KeyOf(q) == CacheKey(user, Some(startDate), Some(endDate))
  {
  }
}
