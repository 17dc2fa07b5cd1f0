/** What holds of the store in every reachable state. */
module Invariants {
  import opened Contracts
  import opened Counting
  import opened OutboxKeys
  import opened Db
  import opened Tallies

  /** How many status changes a job may have made, beyond three for every
      acceptance, by the status it is in. */
  function Base(s: JobStatus): nat {
    match s
    case Draft => 0
    case Triaged => 1
    case Quoted => 2
    case Assigned => 0
    case InProgress => 1
    case Completed => 2
    case Cancelled => 3
  }

  /** The state of one job, its quotes, offers, assignments and history agree. */
  predicate Good(t: Tally) {
    // the history is faithful
    && t.replay == Some(t.status)
    && t.completed == One(t.status.Completed?) && t.cancelled == One(t.status.Cancelled?)
    && t.approvals == t.approved && t.rejections == t.rejected
    // acceptances minus fall-throughs is the number of active assignments
    && t.accepted == t.fell + t.active
    && t.active <= 1
    && (t.status.Assigned? || t.status.InProgress? || t.status.Completed? ==> t.active == 1)
    && (t.status.Draft? || t.status.Triaged? || t.status.Quoted? ==> t.active == 0)
    // each acceptance uses up an offer for good
    && t.engagements == t.accepted && t.accepted <= t.spent <= t.offers
    && t.moves <= 3 * t.accepted + Base(t.status)
    // one quote, approved before anything is offered
    && t.approved + t.rejected <= t.quotes <= 1
    && (t.status.Draft? || t.status.Triaged? ==> t.quotes == 0)
    && (t.status.Quoted? || t.active == 1 ==> t.quotes == 1)
    && (t.offers > 0 ==> t.approved == 1)
  }

  ghost predicate JobsGood(db: Db) {
    forall j :: j in db.jobs ==> Good(TallyOf(db, j))
  }

  /** Every record names a job that exists, and amounts are what the schemas allow. */
  ghost predicate Refs(db: Db) {
    && (forall j :: j in db.jobs ==> IsUuid(j))
    && (forall q :: q in db.quotes ==>
          && IsUuid(q.id)
          && q.jobId in db.jobs && q.organizationId == db.jobs[q.jobId].organizationId
          && 0 < q.netCents <= q.grossCents)
    && (forall o :: o in db.offers ==> IsUuid(o.id) && o.jobId in db.jobs && o.payoutNetCents > 0)
    && (forall a :: a in db.assignments ==> a.jobId in db.jobs && a.payoutNetCents > 0)
    && (forall e :: e in db.events ==> e.jobId in db.jobs && WellKeyed(e.jobId, e.kind, e.fields))
  }

  predicate SameTarget(o: Offer, p: Offer) {
    o.jobId == p.jobId && o.providerId == p.providerId
  }

  /** A provider is asked about a job at most once. */
  ghost predicate AskedOnce(offers: seq<Offer>) {
    forall a, b :: 0 <= a < b < |offers| ==> !SameTarget(offers[a], offers[b])
  }

  /** The row is what its event implies, and the event did happen. */
  ghost predicate Projected(events: seq<Event>, r: Row) {
    && OutboxForEvent(r.jobId, r.event, r.fields) == Some(DraftRow(r.topic, r.key))
    && exists e :: e in events && e.jobId == r.jobId && e.kind == r.event && e.fields == r.fields
  }

  ghost predicate RowsIndexed(outbox: seq<Row>, keys: map<Key, nat>, nextRow: nat) {
    && (forall i :: 0 <= i < |outbox| ==>
          outbox[i].id < nextRow && outbox[i].key in keys && keys[outbox[i].key] == outbox[i].id)
    && (forall i, j :: 0 <= i < j < |outbox| ==> outbox[i].id < outbox[j].id)
    && (forall k :: k in keys ==> exists i :: 0 <= i < |outbox| && outbox[i].key == k)
  }

  /** Key index and outbox are inverse to each other, and every row has its event. */
  ghost predicate OutboxOk(db: Db) {
    && RowsIndexed(db.outbox, db.keys, db.nextRow)
    && forall r :: r in db.outbox ==> Projected(db.events, r)
  }

  /** Everything but the per-job tallies. */
  ghost predicate Core(db: Db) {
    Refs(db) && AskedOnce(db.offers) && OutboxOk(db)
  }

  ghost predicate Inv(db: Db) {
    JobsGood(db) && Core(db)
  }

  lemma EmptyInv()
    ensures Inv(EMPTY)
  {
  }

  // -------------------------------------------------------------- consequences

  /** There is at most one row per key. */
  lemma OneRowPerKey(db: Db, i: nat, j: nat)
    requires OutboxOk(db)
    requires i < |db.outbox| && j < |db.outbox| && db.outbox[i].key == db.outbox[j].key
    ensures i == j
  {
  }

  lemma IndexRow(outbox: seq<Row>, keys: map<Key, nat>, nextRow: nat, row: Row)
    requires RowsIndexed(outbox, keys, nextRow)
    requires row.id == nextRow && row.key !in keys
    ensures RowsIndexed(outbox + [row], keys[row.key := row.id], nextRow + 1)
  {
    var o, ks := outbox + [row], keys[row.key := row.id];
    forall k | k in ks ensures exists i :: 0 <= i < |o| && o[i].key == k {
      if k == row.key {
        assert o[|outbox|].key == k;
      } else {
        var i :| 0 <= i < |outbox| && outbox[i].key == k;
        assert o[i].key == k;
      }
    }
  }

  lemma ProjectedStays(events: seq<Event>, e: Event, r: Row)
    requires Projected(events, r)
    ensures Projected(events + [e], r)
  {
    var x :| x in events && x.jobId == r.jobId && x.kind == r.event && x.fields == r.fields;
    assert x in events + [e];
  }

  /** Recording keeps the outbox in step; a published event has its row from then on. */
  lemma RecordKeepsOutbox(db: Db, e: Event, now: int)
    requires OutboxOk(db)
    ensures OutboxOk(RecordEvent(db, e, now))
  {
    var db' := RecordEvent(db, e, now);
    var draft := OutboxForEvent(e.jobId, e.kind, e.fields);
    forall r | r in db.outbox ensures Projected(db'.events, r) {
      ProjectedStays(db.events, e, r);
    }
    if draft.Some? && draft.value.key !in db.keys {
      var row := NewRow(db, draft.value, e.jobId, e.kind, e.fields, now);
      IndexRow(db.outbox, db.keys, db.nextRow, row);
      assert Projected(db'.events, row) by { assert e in db'.events; }
    }
  }

  /** A published event has a row of its own topic and job from the moment it is recorded. */
  lemma RecordedRow(db: Db, e: Event, now: int)
    requires OutboxOk(db) && Refs(db)
    requires TopicByEvent(e.kind).Some? && WellKeyed(e.jobId, e.kind, e.fields)
    ensures exists r :: r in RecordEvent(db, e, now).outbox && r.jobId == e.jobId
                        && r.topic == TopicByEvent(e.kind).value
                        && r.key == OutboxForEvent(e.jobId, e.kind, e.fields).value.key
  {
    var db', draft := RecordEvent(db, e, now), OutboxForEvent(e.jobId, e.kind, e.fields).value;
    if draft.key in db.keys {
      var i :| 0 <= i < |db.outbox| && db.outbox[i].key == draft.key;
      var r := db.outbox[i];
      assert Projected(db.events, r) && r in db'.outbox;
      SameKeySameJob(e.jobId, e.kind, e.fields, r.jobId, r.event, r.fields);
    } else {
      assert NewRow(db, draft, e.jobId, e.kind, e.fields, now) in db'.outbox;
    }
  }

  /** Every key in the table is readable text of at most 180 characters. */
  lemma RowKeysReadable(db: Db, r: Row)
    requires OutboxOk(db) && Refs(db) && r in db.outbox
    ensures r.key.Plain? && KeyLength(r.key) <= 180
  {
    assert Projected(db.events, r);
    WellKeyedIsReadable(r.jobId, r.event, r.fields);
  }
}
