/** How API steps and retention change the outbox. */
module Outbox {
  import opened Contracts
  import opened OutboxKeys
  import opened Db
  import opened Dispatch
  import opened Machine

  function StepTime(s: Step): int
    requires !s.Retain?
  {
    s.now
  }

  /** A row as it is first written. */
  predicate NewlyWritten(r: Row, now: int) {
    r.status.RowPending? && r.attempts == 0 && r.availableAt == 0 && r.createdAt == now
  }

  /** Nothing but newly written rows at the end. */
  ghost predicate Appends(a: Db, b: Db, now: int) {
    && a.outbox <= b.outbox && a.nextRow <= b.nextRow
    && forall i :: |a.outbox| <= i < |b.outbox| ==> NewlyWritten(b.outbox[i], now) && b.outbox[i].id >= a.nextRow
  }

  /** The same history, outbox and key index. */
  ghost predicate SameLog(a: Db, b: Db) {
    a.events == b.events && a.outbox == b.outbox && a.keys == b.keys && a.nextRow == b.nextRow
  }

  function RecordAll(db: Db, es: seq<Event>, now: int): Db
    decreases |es|
  {
    if es == [] then db else RecordAll(RecordEvent(db, es[0], now), es[1..], now)
  }

  /** As far as the log goes, the step recorded some events one after the other, no more. */
  ghost predicate Records(a: Db, b: Db, now: int) {
    a.events <= b.events && SameLog(b, RecordAll(a, b.events[|a.events|..], now))
  }

  lemma SameLogRecord(a: Db, b: Db, e: Event, now: int)
    requires SameLog(a, b)
    ensures SameLog(RecordEvent(a, e, now), RecordEvent(b, e, now))
  {
    hide OutboxForEvent;
  }

  lemma {:induction false} SameLogRecordAll(a: Db, b: Db, es: seq<Event>, now: int)
    requires SameLog(a, b)
    ensures SameLog(RecordAll(a, es, now), RecordAll(b, es, now))
    decreases |es|
  {
    hide RecordEvent;
    if es != [] {
      SameLogRecord(a, b, es[0], now);
      SameLogRecordAll(RecordEvent(a, es[0], now), RecordEvent(b, es[0], now), es[1..], now);
    }
  }

  lemma {:induction false} RecordAllEvents(db: Db, es: seq<Event>, now: int)
    ensures RecordAll(db, es, now).events == db.events + es
    decreases |es|
  {
    hide OutboxForEvent;
    if es != [] { RecordAllEvents(RecordEvent(db, es[0], now), es[1..], now); }
  }

  lemma {:induction false} RecordAllConcat(db: Db, es: seq<Event>, fs: seq<Event>, now: int)
    ensures RecordAll(db, es + fs, now) == RecordAll(RecordAll(db, es, now), fs, now)
    decreases |es|
  {
    hide RecordEvent;
    if es == [] {
      assert es + fs == fs;
    } else {
      assert (es + fs)[1..] == es[1..] + fs;
      RecordAllConcat(RecordEvent(db, es[0], now), es[1..], fs, now);
    }
  }

  lemma RecordsNothing(db: Db, db1: Db, now: int)
    requires SameLog(db, db1)
    ensures Records(db, db1, now)
  {
  }

  /** A change that leaves the log alone, then one event. */
  lemma RecordsOne(db: Db, db1: Db, e: Event, now: int)
    requires SameLog(db, db1)
    ensures Records(db, RecordEvent(db1, e, now), now)
  {
    var es := RecordEvent(db1, e, now).events[|db.events|..];
    assert es == [e] && es[1..] == [];
    SameLogRecord(db, db1, e, now);
    hide RecordEvent;
    assert RecordAll(db, [e], now) == RecordAll(RecordEvent(db, e, now), [e][1..], now) == RecordEvent(db, e, now);
  }

  lemma RecordsTransitive(a: Db, b: Db, c: Db, now: int)
    requires Records(a, b, now) && Records(b, c, now)
    ensures Records(a, c, now)
  {
    hide RecordAll;
    var es, fs := b.events[|a.events|..], c.events[|b.events|..];
    assert c.events[|a.events|..] == es + fs;
    RecordAllConcat(a, es, fs, now);
    SameLogRecordAll(b, RecordAll(a, es, now), fs, now);
  }

  lemma RecordAppends(db: Db, e: Event, now: int)
    ensures Appends(db, RecordEvent(db, e, now), now)
  {
    hide OutboxForEvent;
  }

  lemma {:induction false} RecordAllAppends(db: Db, es: seq<Event>, now: int)
    ensures Appends(db, RecordAll(db, es, now), now)
    decreases |es|
  {
    if es != [] {
      RecordAppends(db, es[0], now);
      hide RecordEvent;
      RecordAllAppends(RecordEvent(db, es[0], now), es[1..], now);
    }
  }

  lemma MoveRecords(db: Db, db1: Db, j: Id, to: JobStatus, kind: EventType, fields: map<string, Part>, now: int)
    requires SameLog(db, db1) && j in db1.jobs
    ensures Records(db, MoveJob(db1, j, to, kind, fields, now), now)
  {
    hide RecordEvent, Records;
    var job := db1.jobs[j];
    RecordsOne(db, db1.(jobs := db1.jobs[j := job.(status := to)]), Event(j, kind, Some(Move(job.status, to)), fields),
               now);
  }

  lemma {:induction false} ExpireRecords(db: Db, k: nat, now: int)
    requires k <= |db.offers|
    ensures Records(db, ExpireFrom(db, k, now), now)
    decreases |db.offers| - k
  {
    hide Records, RecordEvent;
    if k == |db.offers| {
      RecordsNothing(db, db, now);
    } else {
      var offer, db1 := db.offers[k], ExpireOne(db, k, now);
      RecordsNothing(db, db, now);
      RecordsOne(db, db.(offers := db.offers[k := offer.(status := Expired)]),
                 Event(offer.jobId, OfferExpired, None, map["offerId" := Text(offer.id)]), now);
      assert Records(db, db1, now);
      hide ExpireOne;
      ExpireRecords(db1, k + 1, now);
      RecordsTransitive(db, db1, ExpireFrom(db1, k + 1, now), now);
    }
  }

  lemma TransitionRecords(db: Db, j: Id, scope: Scope, to: JobStatus, kind: EventType, fields: map<string, Part>,
                          now: int)
    ensures Records(db, TransitionJob(db, j, scope, to, kind, fields, now).db, now)
  {
    hide MoveJob, Records, Visible;
    RecordsNothing(db, db, now);
    if TransitionJob(db, j, scope, to, kind, fields, now).reply.Done? { MoveRecords(db, db, j, to, kind, fields, now); }
  }

  lemma PriceRecords(db: Db, q: Quote, scope: Scope, now: int)
    ensures Records(db, Price(db, q, scope, now).db, now)
  {
    hide RecordEvent, TransitionJob, Visible, Records;
    RecordsNothing(db, db, now);
    RecordsOne(db, db.(quotes := db.quotes + [q]),
               Event(q.jobId, QuoteSent, None,
                     map["quoteId" := Text(q.id), "grossCents" := Number(q.grossCents)]), now);
    var fields := map["quoteId" := Text(q.id), "grossCents" := Number(q.grossCents)];
    TransitionRecords(CreateQuote(db, q, now), q.jobId, scope, Quoted, JobQuoted, fields, now);
    RecordsTransitive(db, CreateQuote(db, q, now),
                      TransitionJob(CreateQuote(db, q, now), q.jobId, scope, Quoted, JobQuoted, fields, now).db, now);
  }

  lemma DecideRecords(db: Db, id: Id, scope: Scope, approve: bool, now: int)
    ensures Records(db, DecideQuote(db, id, scope, approve, now).db, now)
  {
    hide RecordEvent, Visible, Records;
    RecordsNothing(db, db, now);
    var k := QuoteIndex(db.quotes, id);
    if k < |db.quotes| {
      var quote := db.quotes[k];
      var db1 := db.(quotes := db.quotes[k := quote.(status := if approve then Approved else Rejected)]);
      RecordsNothing(db, db1, now);
      RecordsNothing(db, db.(quotes := db.quotes[k := quote.(status := Lapsed)]), now);
      RecordsOne(db, db1,
                 Event(quote.jobId, if approve then QuoteApproved else QuoteRejected, None,
                       map["quoteId" := Text(quote.id)]), now);
    }
  }

  lemma CreateOffersRecords(db: Db, j: Id, providers: seq<Id>, ids: seq<Id>, payout: int, expiresAt: int, now: int)
    requires |ids| == |providers|
    ensures Records(db, CreateOffers(db, j, providers, ids, payout, expiresAt, now), now)
  {
    hide RecordEvent, Records;
    var offers := AddOffers(db.offers, j, providers, ids, payout, expiresAt);
    RecordsOne(db, db.(offers := offers),
               Event(j, OffersSent, None,
                     map["providerCount" := Number(|offers| - |db.offers|), "payoutNetCents" := Number(payout)]), now);
  }

  lemma AcceptRecords(db: Db, id: Id, p: Id, now: int)
    ensures Records(db, AcceptOffer(db, id, p, now).db, now)
  {
    hide MoveJob, Records;
    var e := AcceptOffer(db, id, p, now);
    var k := OfferIndex(db.offers, id);
    if e.reply.Done? {
      var offer := db.offers[k];
      var db1 := db.(
        offers := Withdraw(db.offers[k := offer.(status := Accepted)], offer.jobId, offer.id),
        assignments := db.assignments + [Assignment(offer.jobId, offer.providerId, Active, offer.payoutNetCents)]);
      MoveRecords(db, db1, offer.jobId, Assigned, OfferAccepted,
                  map["offerId" := Text(offer.id), "providerId" := Text(offer.providerId)], now);
    } else {
      RecordsNothing(db, e.db, now);
    }
  }

  lemma DeclineRecords(db: Db, id: Id, p: Id, now: int)
    ensures Records(db, DeclineOffer(db, id, p, now).db, now)
  {
    hide RecordEvent, Records;
    RecordsNothing(db, db, now);
    var k := OfferIndex(db.offers, id);
    if k < |db.offers| {
      var offer := db.offers[k];
      RecordsOne(db, db.(offers := db.offers[k := offer.(status := Declined)]),
                 Event(offer.jobId, OfferDeclined, None,
                       map["offerId" := Text(offer.id), "providerId" := Text(offer.providerId)]), now);
    }
  }

  lemma FallbackRecords(db: Db, j: Id, now: int)
    ensures Records(db, Fallback(db, j, now).db, now)
  {
    hide MoveJob, Records;
    RecordsNothing(db, db, now);
    if Fallback(db, j, now).reply.Done? {
      var k := ActiveIndex(db.assignments, j);
      var a := db.assignments[k];
      MoveRecords(db, db.(assignments := db.assignments[k := a.(status := FellThrough)]), j, Quoted,
                  AssignmentFellThrough, map["providerId" := Text(a.providerId)], now);
    }
  }

  lemma CoverRecords(db: Db, j: Id, eligible: seq<Id>, ids: seq<Id>, config: SweepConfig, now: int)
    requires config.providersPerRound > 0 && |ids| >= config.providersPerRound
    ensures Records(db, Cover(db, j, eligible, ids, config, now).0, now)
  {
    hide AutomaticRounds, OffersFor, NextRound, CreateOffers, CarriedPayout, ApprovedNet, ActiveIndex, RecordEvent,
      Records;
    RecordsNothing(db, db, now);
    var (db', c) := Cover(db, j, eligible, ids, config, now);
    if c.Reoffered? {
      var next := NextRound(eligible, db.offers, j, config);
      CreateOffersRecords(db, j, next, ids[..|next|],
                          CarriedPayout(OffersFor(db.offers, j), ApprovedNet(db.quotes, j).value),
                          now + config.offerTtlMinutes * MINUTE_MS, now);
    } else if c.Escalated? {
      RecordsOne(db, db, Event(j, DispatchEscalated, None, map["reason" := Text(c.reason)]), now);
    }
  }

  lemma CreateJobRecords(db: Db, id: Id, org: Id, now: int)
    ensures Records(db, CreateJob(db, id, org, now).db, now)
  {
    hide RecordEvent, Records;
    RecordsOne(db, db.(jobs := db.jobs[id := Job(org, Draft, now)]), Event(id, JobCreated, None, map[]), now);
  }

  lemma RecordJobEventRecords(db: Db, e: Event, now: int)
    ensures Records(db, RecordJobEvent(db, e, now).db, now)
  {
    hide RecordEvent, Records;
    RecordsNothing(db, db, now);
    RecordsOne(db, db, e, now);
  }

  lemma RouteRecords(policy: Policy, db: Db, s: Step)
    requires s.StartWork? || s.CompleteJob? || s.CancelJob? || s.ApproveTriage? || s.FallThrough?
    ensures Records(db, Apply(policy, db, s), StepTime(s))
  {
    RecordsNothing(db, db, StepTime(s));
    hide Records, TransitionJob, Fallback, Holds, Visible;
    match s
    case FallThrough(j, _, now) => FallbackRecords(db, j, now);
    case ApproveTriage(j, scope, now) => TransitionRecords(db, j, scope, Triaged, TriageApproved, map[], now);
    case StartWork(j, scope, now) => TransitionRecords(db, j, scope, InProgress, WorkStarted, map[], now);
    case CancelJob(j, scope, now) => TransitionRecords(db, j, scope, Cancelled, JobCancelled, map[], now);
    case CompleteJob(j, scope, uploaded, now) =>
      TransitionRecords(db, j, scope, Completed, JobCompleted, map["evidenceCount" := Number(uploaded)], now);
  }

  lemma FanRecords(db: Db, j: Id, scope: Scope, eligible: seq<Id>, ids: seq<Id>, payout: int, expiresAt: int, now: int)
    requires |ids| == |eligible|
    ensures Records(db, Fan(db, j, scope, eligible, ids, payout, expiresAt, now).db, now)
  {
    RecordsNothing(db, db, now);
    CreateOffersRecords(db, j, eligible, ids, payout, expiresAt, now);
    hide Records, CreateOffers, Visible, HasApprovedQuote;
  }

  /** To history and outbox, every API step but retention only records events. */
  lemma StepRecords(policy: Policy, db: Db, s: Step)
    requires Admissible(db, s) && !s.Retain?
    ensures Records(db, Apply(policy, db, s), StepTime(s))
  {
    RecordsNothing(db, db, StepTime(s));
    hide Records, CreateJob, Price, DecideQuote, Fan, AcceptOffer, DeclineOffer, Cover, RecordJobEvent, ExpireFrom,
      FreshOfferIds;
    match s
    case SubmitJob(id, org, now) => CreateJobRecords(db, id, org, now);
    case AnswerQuote(id, scope, approve, now) => DecideRecords(db, id, scope, approve, now);
    case Accept(id, p, now) => AcceptRecords(db, id, p, now);
    case Decline(id, p, now) => DeclineRecords(db, id, p, now);
    case PriceJob(q, scope, now) => PriceRecords(db, q, scope, now);
    case Expire(now) => ExpireRecords(db, 0, now);
    case CoverJob(j, eligible, ids, config, now) => CoverRecords(db, j, eligible, ids, config, now);
    case FanOut(j, scope, eligible, ids, payout, expiresAt, now) =>
      FanRecords(db, j, scope, eligible, ids, payout, expiresAt, now);
    case UploadEvidence(j, now) => RecordJobEventRecords(db, Event(j, EvidenceUploaded, None, map[]), now);
    case _ => hide Perform; RouteRecords(policy, db, s);
  }

  /** So it only appends newly written rows under new ids. */
  lemma StepAppends(policy: Policy, db: Db, s: Step)
    requires Admissible(db, s) && !s.Retain?
    ensures Appends(db, Apply(policy, db, s), StepTime(s))
  {
    hide Apply, Admissible, RecordAll;
    StepRecords(policy, db, s);
    RecordAllAppends(db, Apply(policy, db, s).events[|db.events|..], StepTime(s));
  }

  // --------------------------------------------------------------- retention

  /** What retention is for: everything but the rows sent long enough ago, in order. */
  function Retained(outbox: seq<Row>, olderThan: int): seq<Row> {
    if outbox == [] then []
    else (if Removable(outbox[0], olderThan) then [] else [outbox[0]]) + Retained(outbox[1..], olderThan)
  }

  lemma SplitAt(outbox: seq<Row>, k: nat)
    requires k < |outbox|
    ensures var o := outbox[..k] + outbox[k + 1..]; o[..k] == outbox[..k] && o[k..] == outbox[k + 1..]
  {
  }

  lemma RetainedHead(outbox: seq<Row>, k: nat, olderThan: int)
    requires k < |outbox|
    ensures outbox[..k] + Retained(outbox[k..], olderThan) ==
            outbox[..if Removable(outbox[k], olderThan) then k else k + 1] + Retained(outbox[k + 1..], olderThan)
  {
    assert outbox[k..][1..] == outbox[k + 1..] && outbox[..k + 1] == outbox[..k] + [outbox[k]];
    hide Removable;
  }

  /** The removing loop computes exactly the retained rows. */
  lemma {:induction false} RetentionKeepsTheRest(db: Db, k: nat, olderThan: int)
    requires k <= |db.outbox|
    ensures RetainFrom(db, k, olderThan).outbox == db.outbox[..k] + Retained(db.outbox[k..], olderThan)
    decreases |db.outbox| - k
  {
    if k == |db.outbox| {
      assert db.outbox[..k] == db.outbox && db.outbox[k..] == [];
    } else {
      hide Retained, Removable;
      SplitAt(db.outbox, k);
      RetainedHead(db.outbox, k, olderThan);
      if Removable(db.outbox[k], olderThan) {
        RetentionKeepsTheRest(db.(outbox := db.outbox[..k] + db.outbox[k + 1..], keys := db.keys - {db.outbox[k].key}),
                              k, olderThan);
      } else {
        RetentionKeepsTheRest(db, k + 1, olderThan);
      }
    }
  }

  /** Retention removes sent rows that are old enough and no others: a pending,
      failed or dead row always survives. */
  lemma RetentionRemovesOnlySent(db: Db, olderThan: int, r: Row)
    ensures r in RunRetention(db, olderThan).outbox <==> r in db.outbox && !Removable(r, olderThan)
    ensures r in db.outbox && !r.status.RowSent? ==> r in RunRetention(db, olderThan).outbox
    ensures r in db.outbox && r.status.RowSent? ==>
      var since := if r.deliveredAt.Some? then r.deliveredAt.value else r.createdAt;
      r in RunRetention(db, olderThan).outbox <==> since >= olderThan
  {
    RetentionKeepsTheRest(db, 0, olderThan);
    assert db.outbox[0..] == db.outbox;
    RetainedElements(db.outbox, olderThan, r);
  }

  lemma {:induction false} RetainedElements(outbox: seq<Row>, olderThan: int, r: Row)
    ensures r in Retained(outbox, olderThan) <==> r in outbox && !Removable(r, olderThan)
  {
    if outbox != [] {
      RetainedElements(outbox[1..], olderThan, r);
      assert outbox == [outbox[0]] + outbox[1..];
    }
  }
}
