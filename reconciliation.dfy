/**
 * Reconciliation of a provider reply into the Event collection, stated on
 * values: one upsert per provider event, keyed by its Google identifier,
 * applied in the order of the reply, all with the same `lastQueried` time.
 * The class in event_controller.dfy performs it in place and is proved
 * equal to `UpsertAll`.
 */
module Reconciliation {
  import opened Schema

  /** The Event collection: documents by `_id`, and the next unused `_id`. */
  datatype Table = Table(rows: map<ObjectId, Event>, nextId: ObjectId)

  /** At most one stored Event per Google identifier. */
  ghost predicate UniqueGoogleIds(rows: map<ObjectId, Event>)
  {
    forall a, b :: a in rows && b in rows && rows[a].googleEventId == rows[b].googleEventId ==> a == b
  }

  /**
   * Every document sits under its own `_id`, below the next unused one,
   * and keeps as `data` the provider event that carries its Google id.
   */
  ghost predicate TableValid(t: Table)
  {
    && (forall k :: k in t.rows ==> t.rows[k].id == k && k < t.nextId)
    && (forall k :: k in t.rows ==> t.rows[k].data.id == t.rows[k].googleEventId)
    && UniqueGoogleIds(t.rows)
  }

  /** The Google identifiers a provider reply mentions. */
  function GoogleIds(batch: seq<ProviderEvent>): set<GoogleId>
  {
    set pe | pe in batch :: pe.id
  }

  /** The `_id`s of a sequence of documents, in order. */
  function Ids(docs: seq<Event>): seq<ObjectId>
  {
    seq(|docs|, i requires 0 <= i < |docs| => docs[i].id)
  }

  /**
   * `docs` is what reading back `{googleEventId: {$in: gids}}` may return:
   * stored documents with one of those Google ids, each of them once, and
   * all of them.
   */
  ghost predicate ReReadOf(rows: map<ObjectId, Event>, gids: set<GoogleId>, docs: seq<Event>)
  {
    && (forall i :: 0 <= i < |docs| ==> docs[i].id in rows && rows[docs[i].id] == docs[i] && docs[i].googleEventId in gids)
    && (forall k :: k in rows && rows[k].googleEventId in gids ==> k in Ids(docs))
    && (forall i, j :: 0 <= i < j < |docs| ==> docs[i].id != docs[j].id)
  }

  /** The stored document with the given Google identifier, if any. */
  ghost function FindByGoogleId(rows: map<ObjectId, Event>, gid: GoogleId): (found: Option<ObjectId>)
    ensures found.Some? ==> found.value in rows && rows[found.value].googleEventId == gid
    ensures found.None? ==> forall k :: k in rows ==> rows[k].googleEventId != gid
  {
    if exists k :: k in rows && rows[k].googleEventId == gid then
      var k :| k in rows && rows[k].googleEventId == gid; Some(k)
    else
      None
  }

  /** The `$set` of one upsert applied to an existing document. */
  function Refreshed(e: Event, pe: ProviderEvent, now: Timestamp): Event
  {
    e.(startDate := pe.start, endDate := pe.end, lastQueried := now, data := pe)
  }

  /** The document one upsert produces under `_id` `id`. */
  function FromProvider(id: ObjectId, pe: ProviderEvent, now: Timestamp): Event
  {
    Event(id, pe.id, pe.start, pe.end, now, pe)
  }

  /** One upsert: overwrite the fields of the document with that Google id, or insert one. */
  ghost function UpsertOne(t: Table, pe: ProviderEvent, now: Timestamp): (t': Table)
    ensures t.rows.Keys <= t'.rows.Keys && t.nextId <= t'.nextId
    ensures t'.rows.Keys - t.rows.Keys <= {t.nextId}
  {
    match FindByGoogleId(t.rows, pe.id)
    case Some(k) => Table(t.rows[k := Refreshed(t.rows[k], pe, now)], t.nextId)
    case None => Table(t.rows[t.nextId := FromProvider(t.nextId, pe, now)], t.nextId + 1)
  }

  /** The ordered bulk operation: the upserts of the whole reply, first to last. */
  ghost function UpsertAll(t: Table, batch: seq<ProviderEvent>, now: Timestamp): (t': Table)
    ensures t.rows.Keys <= t'.rows.Keys && t.nextId <= t'.nextId
    decreases |batch|
  {
    if batch == [] then t
    else UpsertOne(UpsertAll(t, batch[..|batch| - 1], now), batch[|batch| - 1], now)
  }

  /** The bulk operation over one more provider event is one more upsert. */
  lemma UpsertAllStep(t: Table, batch: seq<ProviderEvent>, i: nat, now: Timestamp)
    requires i < |batch|
    ensures UpsertAll(t, batch[..i + 1], now) == UpsertOne(UpsertAll(t, batch[..i], now), batch[i], now)
  {
    assert batch[..i + 1][..i] == batch[..i];
  }

  /** The last provider event of the reply with the given Google identifier. */
  function LastOccurrence(batch: seq<ProviderEvent>, gid: GoogleId): (pe: ProviderEvent)
    requires gid in GoogleIds(batch)
    ensures pe in batch && pe.id == gid
    ensures exists i :: 0 <= i < |batch| && batch[i] == pe && forall j :: i < j < |batch| ==> batch[j].id != gid
    decreases |batch|
  {
    var n := |batch| - 1;
    if batch[n].id == gid then batch[n]
    else
      assert batch == batch[..n] + [batch[n]];
      LastOccurrence(batch[..n], gid)
  }

  /** Nothing is removed, renumbered or moved to another Google id, and `_id`s only grow. */
  ghost predicate Grows(t: Table, t': Table)
  {
    && t.rows.Keys <= t'.rows.Keys && t.nextId <= t'.nextId
    && forall k :: k in t.rows ==> t'.rows[k].googleEventId == t.rows[k].googleEventId
  }

  /** Every Google id of the reply is stored. */
  ghost predicate Covers(t: Table, batch: seq<ProviderEvent>)
  {
    forall gid :: gid in GoogleIds(batch) ==> FindByGoogleId(t.rows, gid).Some?
  }

  /** Each document of the reply holds the last provider event with its Google id and the shared `now`. */
  ghost predicate WritesLast(t': Table, batch: seq<ProviderEvent>, now: Timestamp)
  {
    forall k :: k in t'.rows && t'.rows[k].googleEventId in GoogleIds(batch) ==>
      t'.rows[k] == FromProvider(k, LastOccurrence(batch, t'.rows[k].googleEventId), now)
  }

  /** Every document whose Google id the reply does not mention was there before, unchanged. */
  ghost predicate KeepsOthers(t: Table, t': Table, batch: seq<ProviderEvent>)
  {
    forall k :: k in t'.rows && t'.rows[k].googleEventId !in GoogleIds(batch) ==>
      k in t.rows && t'.rows[k] == t.rows[k]
  }

  /**
   * One upsert keeps the collection valid, removes and renumbers nothing,
   * writes the provider event into the one document with its Google id and
   * leaves every other document as it was.
   */
  lemma UpsertOneEffect(t: Table, pe: ProviderEvent, now: Timestamp)
    requires TableValid(t)
    ensures var t' := UpsertOne(t, pe, now);
      && TableValid(t') && Grows(t, t')
      && (forall k :: k in t'.rows && t'.rows[k].googleEventId == pe.id ==> t'.rows[k] == FromProvider(k, pe, now))
      && (forall k :: k in t'.rows && t'.rows[k].googleEventId != pe.id ==> k in t.rows && t'.rows[k] == t.rows[k])
      && FindByGoogleId(t'.rows, pe.id).Some?
      && (FindByGoogleId(t.rows, pe.id).Some? ==> t'.rows.Keys == t.rows.Keys && t'.nextId == t.nextId)
  {
    var t' := UpsertOne(t, pe, now);
    match FindByGoogleId(t.rows, pe.id)
    case Some(k) =>
      assert t'.rows[k].googleEventId == pe.id;
    case None =>
      assert t'.rows[t.nextId].googleEventId == pe.id;
  }

  /**
   * The whole reply keeps the collection valid (in particular at most one
   * Event per Google id), removes and renumbers nothing and leaves every
   * Google id of the reply stored; when all of them were stored already,
   * it adds no document.
   */
  lemma {:induction false} UpsertAllValid(t: Table, batch: seq<ProviderEvent>, now: Timestamp)
    requires TableValid(t)
    ensures var t' := UpsertAll(t, batch, now);
      && TableValid(t') && Grows(t, t') && Covers(t', batch)
      && (Covers(t, batch) ==> t'.rows.Keys == t.rows.Keys && t'.nextId == t.nextId)
    decreases |batch|
  {
    if batch != [] {
      var n := |batch| - 1;
      var prefix, last := batch[..n], batch[n];
      assert batch == prefix + [last];
      assert GoogleIds(batch) == GoogleIds(prefix) + {last.id};
      UpsertAllValid(t, prefix, now);
      var tm := UpsertAll(t, prefix, now);
      UpsertOneEffect(tm, last, now);
      var t' := UpsertAll(t, batch, now);
      assert t' == UpsertOne(tm, last, now);
      forall gid | gid in GoogleIds(batch)
        ensures FindByGoogleId(t'.rows, gid).Some?
      {
        if gid != last.id {
          var k := FindByGoogleId(tm.rows, gid).value;
          assert t'.rows[k].googleEventId == gid;
        }
      }
      if Covers(t, batch) {
        assert Covers(t, prefix);
        var k := FindByGoogleId(t.rows, last.id).value;
        assert tm.rows[k].googleEventId == last.id;
      }
    }
  }

  /** The last occurrence in a reply is its last event, or else the last occurrence before it. */
  lemma LastOccurrenceOfPrefix(batch: seq<ProviderEvent>, gid: GoogleId)
    requires gid in GoogleIds(batch)
    ensures var n := |batch| - 1;
      LastOccurrence(batch, gid) == if batch[n].id == gid then batch[n] else LastOccurrence(batch[..n], gid)
  {
    var n := |batch| - 1;
    if batch[n].id != gid {
      assert batch == batch[..n] + [batch[n]];
      assert gid in GoogleIds(batch[..n]);
    }
  }

  /**
   * What the whole reply writes: each of its Google ids ends up in one
   * document holding the last provider event with that id and the shared
   * `now`.
   */
  lemma {:induction false} UpsertAllWritesLast(t: Table, batch: seq<ProviderEvent>, now: Timestamp)
    requires TableValid(t)
    ensures WritesLast(UpsertAll(t, batch, now), batch, now)
    decreases |batch|
  {
    if batch != [] {
      var n := |batch| - 1;
      var prefix, last := batch[..n], batch[n];
      assert batch == prefix + [last];
      assert GoogleIds(batch) == GoogleIds(prefix) + {last.id};
      UpsertAllValid(t, prefix, now);
      UpsertAllWritesLast(t, prefix, now);
      var tm := UpsertAll(t, prefix, now);
      UpsertOneEffect(tm, last, now);
      var t' := UpsertAll(t, batch, now);
      assert t' == UpsertOne(tm, last, now);
      forall k | k in t'.rows && t'.rows[k].googleEventId in GoogleIds(batch)
        ensures t'.rows[k] == FromProvider(k, LastOccurrence(batch, t'.rows[k].googleEventId), now)
      {
        LastOccurrenceOfPrefix(batch, t'.rows[k].googleEventId);
      }
    }
  }

  /**
   * Every document whose Google id the reply does not mention was there
   * before the reply and is unchanged by it.
   */
  lemma {:induction false} UpsertAllKeepsOthers(t: Table, batch: seq<ProviderEvent>, now: Timestamp)
    requires TableValid(t)
    ensures KeepsOthers(t, UpsertAll(t, batch, now), batch)
    decreases |batch|
  {
    if batch != [] {
      var n := |batch| - 1;
      var prefix, last := batch[..n], batch[n];
      assert batch == prefix + [last];
      assert GoogleIds(batch) == GoogleIds(prefix) + {last.id};
      UpsertAllValid(t, prefix, now);
      UpsertAllKeepsOthers(t, prefix, now);
      var tm := UpsertAll(t, prefix, now);
      UpsertOneEffect(tm, last, now);
      var t' := UpsertAll(t, batch, now);
      assert t' == UpsertOne(tm, last, now);
      forall k | k in t'.rows && t'.rows[k].googleEventId !in GoogleIds(batch)
        ensures k in t.rows && t'.rows[k] == t.rows[k]
      {
        assert k in tm.rows && t'.rows[k] == tm.rows[k];
        assert tm.rows[k].googleEventId !in GoogleIds(prefix);
      }
    }
  }

  /** Every stored Event whose Google id the reply does not mention is still there, unchanged. */
  lemma UpsertAllLeavesOthers(t: Table, batch: seq<ProviderEvent>, now: Timestamp)
    requires TableValid(t)
    ensures forall k :: k in t.rows && t.rows[k].googleEventId !in GoogleIds(batch) ==>
      k in UpsertAll(t, batch, now).rows && UpsertAll(t, batch, now).rows[k] == t.rows[k]
  {
    var t' := UpsertAll(t, batch, now);
    UpsertAllValid(t, batch, now);
    UpsertAllKeepsOthers(t, batch, now);
    forall k | k in t.rows && t.rows[k].googleEventId !in GoogleIds(batch)
      ensures k in t'.rows && t'.rows[k] == t.rows[k]
    {
      assert k in t'.rows && t'.rows[k].googleEventId == t.rows[k].googleEventId;
    }
  }

  /**
   * Reconciling the same reply again adds and removes nothing: it only moves
   * `lastQueried` of the reply's documents to the new time.
   */
  lemma ReconcileTwice(t: Table, batch: seq<ProviderEvent>, now1: Timestamp, now2: Timestamp)
    requires TableValid(t)
    ensures var once := UpsertAll(t, batch, now1);
      var twice := UpsertAll(once, batch, now2);
      && twice.rows.Keys == once.rows.Keys && twice.nextId == once.nextId
      && forall k :: k in once.rows ==>
           twice.rows[k] == if once.rows[k].googleEventId in GoogleIds(batch)
                            then once.rows[k].(lastQueried := now2)
                            else once.rows[k]
  {
    var once := UpsertAll(t, batch, now1);
    UpsertAllValid(t, batch, now1);
    UpsertAllWritesLast(t, batch, now1);
    UpsertAllValid(once, batch, now2);
    UpsertAllWritesLast(once, batch, now2);
    UpsertAllLeavesOthers(once, batch, now2);
  }

  /** Reconciling the same reply twice at the same time is the same as once. */
  lemma ReconcileIsIdempotent(t: Table, batch: seq<ProviderEvent>, now: Timestamp)
    requires TableValid(t)
    ensures UpsertAll(UpsertAll(t, batch, now), batch, now) == UpsertAll(t, batch, now)
  {
    var once := UpsertAll(t, batch, now);
    var twice := UpsertAll(once, batch, now);
    ReconcileTwice(t, batch, now, now);
    UpsertAllWritesLast(t, batch, now);
    forall k | k in once.rows ensures twice.rows[k] == once.rows[k] {
    }
    assert twice.rows == once.rows;
  }
}
