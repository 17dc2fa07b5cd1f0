/** What a step never undoes: history, answers, terminal statuses. */
module Evolution {
  import opened Contracts
  import opened OutboxKeys
  import opened Db
  import opened Dispatch
  import opened Machine

  predicate Terminal(s: JobStatus) { s.Completed? || s.Cancelled? }

  /** Jobs stay, and a finished job stays finished. */
  ghost predicate JobsEvolve(a: map<Id, Job>, b: map<Id, Job>) {
    forall j :: j in a ==>
      && j in b && b[j] == a[j].(status := b[j].status)
      && (Terminal(a[j].status) ==> b[j] == a[j])
  }

  /** Quotes stay, and a decided one keeps its answer. */
  ghost predicate QuotesEvolve(a: seq<Quote>, b: seq<Quote>) {
    && |a| <= |b|
    && forall i :: 0 <= i < |a| ==>
         b[i] == a[i].(status := b[i].status) && (!a[i].status.Sent? ==> b[i] == a[i])
  }

  /** Offers stay and never reopen; where a refusal rolls back, an answer is final. */
  ghost predicate OffersEvolve(policy: Policy, a: seq<Offer>, b: seq<Offer>) {
    && |a| <= |b|
    && forall i :: 0 <= i < |a| ==>
         && b[i] == a[i].(status := b[i].status)
         && (!a[i].status.Pending? ==> !b[i].status.Pending?)
         && (!a[i].status.Pending? && policy.RollsBack? ==> b[i] == a[i])
  }

  ghost predicate AssignmentsEvolve(a: seq<Assignment>, b: seq<Assignment>) {
    && |a| <= |b|
    && forall i :: 0 <= i < |a| ==>
         b[i] == a[i].(status := b[i].status) && (a[i].status.FellThrough? ==> b[i] == a[i])
  }

  ghost predicate Evolves(policy: Policy, a: Db, b: Db) {
    && a.events <= b.events
    && JobsEvolve(a.jobs, b.jobs) && QuotesEvolve(a.quotes, b.quotes)
    && OffersEvolve(policy, a.offers, b.offers) && AssignmentsEvolve(a.assignments, b.assignments)
    && a.ledger == b.ledger
  }

  lemma EvolvesTransitive(policy: Policy, a: Db, b: Db, c: Db)
    requires Evolves(policy, a, b) && Evolves(policy, b, c)
    ensures Evolves(policy, a, c)
  {
  }

  lemma MoveEvolves(policy: Policy, db: Db, db1: Db, j: Id, to: JobStatus, kind: EventType, fields: map<string, Part>,
                    now: int)
    requires Evolves(policy, db, db1) && j in db1.jobs && db.jobs == db1.jobs && !Terminal(db1.jobs[j].status)
    ensures Evolves(policy, db, MoveJob(db1, j, to, kind, fields, now))
  {
    hide OutboxForEvent, RecordEvent;
  }

  lemma {:induction false} ExpireEvolves(policy: Policy, db: Db, k: nat, now: int)
    requires k <= |db.offers|
    ensures Evolves(policy, db, ExpireFrom(db, k, now))
    decreases |db.offers| - k
  {
    if k < |db.offers| {
      var db1 := ExpireOne(db, k, now);
      assert Evolves(policy, db, db1) by { hide OutboxForEvent; }
      hide ExpireOne, Evolves;
      ExpireEvolves(policy, db1, k + 1, now);
      EvolvesTransitive(policy, db, db1, ExpireFrom(db1, k + 1, now));
    }
  }

  lemma {:induction false} RetainEvolves(policy: Policy, db: Db, k: nat, olderThan: int)
    requires k <= |db.outbox|
    ensures RetainFrom(db, k, olderThan) ==
            db.(outbox := RetainFrom(db, k, olderThan).outbox, keys := RetainFrom(db, k, olderThan).keys)
    decreases |db.outbox| - k
  {
    if k == |db.outbox| {
    } else if Removable(db.outbox[k], olderThan) {
      RetainEvolves(policy, db.(outbox := db.outbox[..k] + db.outbox[k + 1..], keys := db.keys - {db.outbox[k].key}),
                    k, olderThan);
    } else {
      RetainEvolves(policy, db, k + 1, olderThan);
    }
  }

  lemma TransitionEvolves(policy: Policy, db: Db, j: Id, scope: Scope, to: JobStatus, kind: EventType,
                          fields: map<string, Part>, now: int)
    ensures Evolves(policy, db, TransitionJob(db, j, scope, to, kind, fields, now).db)
  {
    hide RecordEvent, MoveJob;
    if TransitionJob(db, j, scope, to, kind, fields, now).reply.Done? {
      MoveEvolves(policy, db, db, j, to, kind, fields, now);
    }
  }

  lemma CommitEvolves(policy: Policy, db: Db, k: nat, now: int)
    requires k < |db.offers| && db.offers[k].jobId in db.jobs && db.offers[k].status.Pending?
    requires db.jobs[db.offers[k].jobId].status.Quoted?
    ensures Evolves(policy, db, Commit(db, k, now))
  {
    var offer := db.offers[k];
    var db1 := db.(
      offers := Withdraw(db.offers[k := offer.(status := Accepted)], offer.jobId, offer.id),
      assignments := db.assignments + [Assignment(offer.jobId, offer.providerId, Active, offer.payoutNetCents)]);
    assert Evolves(policy, db, db1);
    hide MoveJob, Evolves;
    MoveEvolves(policy, db, db1, offer.jobId, Assigned, OfferAccepted,
                map["offerId" := Text(offer.id), "providerId" := Text(offer.providerId)], now);
  }

  lemma AcceptEvolves(policy: Policy, db: Db, id: Id, p: Id, now: int)
    ensures Evolves(policy, db, Apply(policy, db, Accept(id, p, now)))
  {
    hide Commit;
    var e := AcceptOffer(db, id, p, now);
    if e.reply.Done? { CommitEvolves(policy, db, OfferIndex(db.offers, id), now); }
  }

  lemma PriceEvolves(policy: Policy, db: Db, q: Quote, scope: Scope, now: int)
    ensures Evolves(policy, db, Price(db, q, scope, now).db)
  {
    hide RecordEvent, MoveJob;
    if q.jobId in db.jobs && Visible(db, q.jobId, scope) && db.jobs[q.jobId].status.Triaged? {
      var db1 := CreateQuote(db, q, now);
      assert Evolves(policy, db, db1);
      var fields := map["quoteId" := Text(q.id), "grossCents" := Number(q.grossCents)];
      if TransitionJob(db1, q.jobId, scope, Quoted, JobQuoted, fields, now).reply.Done? {
        MoveEvolves(policy, db, db1, q.jobId, Quoted, JobQuoted, fields, now);
      }
    }
  }

  lemma FallbackEvolves(policy: Policy, db: Db, j: Id, now: int)
    ensures Evolves(policy, db, Fallback(db, j, now).db)
  {
    hide RecordEvent, MoveJob;
    if Fallback(db, j, now).reply.Done? {
      var k := ActiveIndex(db.assignments, j);
      var a := db.assignments[k];
      MoveEvolves(policy, db, db.(assignments := db.assignments[k := a.(status := FellThrough)]), j, Quoted,
                  AssignmentFellThrough, map["providerId" := Text(a.providerId)], now);
    }
  }

  lemma CreateOffersEvolves(policy: Policy, db: Db, j: Id, providers: seq<Id>, ids: seq<Id>, payout: int,
                            expiresAt: int, now: int)
    requires |ids| == |providers|
    ensures Evolves(policy, db, CreateOffers(db, j, providers, ids, payout, expiresAt, now))
  {
    hide RecordEvent;
    var r := AddOffers(db.offers, j, providers, ids, payout, expiresAt);
    assert forall i :: 0 <= i < |db.offers| ==> r[i] == r[..|db.offers|][i] == db.offers[i];
  }

  lemma CoverEvolves(policy: Policy, db: Db, j: Id, eligible: seq<Id>, ids: seq<Id>, config: SweepConfig, now: int)
    requires config.providersPerRound > 0 && |ids| >= config.providersPerRound
    ensures Evolves(policy, db, Cover(db, j, eligible, ids, config, now).0)
  {
    hide AutomaticRounds, OffersFor, NextRound, CreateOffers, CarriedPayout, ApprovedNet, ActiveIndex, RecordEvent;
    var (db', c) := Cover(db, j, eligible, ids, config, now);
    if c.Reoffered? {
      var next := NextRound(eligible, db.offers, j, config);
      CreateOffersEvolves(policy, db, j, next, ids[..|next|],
                          CarriedPayout(OffersFor(db.offers, j), ApprovedNet(db.quotes, j).value),
                          now + config.offerTtlMinutes * MINUTE_MS, now);
    }
  }

  lemma CreateJobEvolves(policy: Policy, db: Db, id: Id, org: Id, now: int)
    requires id !in db.jobs
    ensures Evolves(policy, db, CreateJob(db, id, org, now).db)
  {
    hide RecordEvent;
  }

  lemma DecideEvolves(policy: Policy, db: Db, id: Id, scope: Scope, approve: bool, now: int)
    ensures Evolves(policy, db, DecideQuote(db, id, scope, approve, now).db)
  {
    hide RecordEvent;
  }

  lemma DeclineEvolves(policy: Policy, db: Db, id: Id, p: Id, now: int)
    ensures Evolves(policy, db, DeclineOffer(db, id, p, now).db)
  {
    hide RecordEvent;
  }

  lemma EvolvesReflexive(policy: Policy, db: Db)
    ensures Evolves(policy, db, db)
  {
  }

  lemma RecordJobEventEvolves(policy: Policy, db: Db, e: Event, now: int)
    ensures Evolves(policy, db, RecordJobEvent(db, e, now).db)
  {
    hide RecordEvent;
  }

  lemma StepEvolves(policy: Policy, db: Db, s: Step)
    requires Admissible(db, s)
    ensures Evolves(policy, db, Apply(policy, db, s))
  {
    EvolvesReflexive(policy, db);
    hide Evolves, TransitionJob, CreateJob, Price, DecideQuote, CreateOffers, AcceptOffer, DeclineOffer, Cover,
      Fallback,
      RecordJobEvent, Holds, Visible, HasApprovedQuote, ExpireFrom, RetainFrom, FreshOfferIds;
    match s
    case SubmitJob(id, org, now) => CreateJobEvolves(policy, db, id, org, now);
    case AnswerQuote(id, scope, approve, now) => DecideEvolves(policy, db, id, scope, approve, now);
    case Accept(id, p, now) => AcceptEvolves(policy, db, id, p, now);
    case Decline(id, p, now) => DeclineEvolves(policy, db, id, p, now);
    case PriceJob(q, scope, now) => PriceEvolves(policy, db, q, scope, now);
    case Expire(now) => ExpireEvolves(policy, db, 0, now);
    case Retain(olderThan) => RetentionEvolves(policy, db, olderThan);
    case CoverJob(j, eligible, ids, config, now) => CoverEvolves(policy, db, j, eligible, ids, config, now);
    case FallThrough(j, _, now) => FallbackEvolves(policy, db, j, now);
    case ApproveTriage(j, scope, now) => TransitionEvolves(policy, db, j, scope, Triaged, TriageApproved, map[], now);
    case StartWork(j, scope, now) => TransitionEvolves(policy, db, j, scope, InProgress, WorkStarted, map[], now);
    case CancelJob(j, scope, now) => TransitionEvolves(policy, db, j, scope, Cancelled, JobCancelled, map[], now);
    case CompleteJob(j, scope, uploaded, now) =>
      TransitionEvolves(policy, db, j, scope, Completed, JobCompleted, map["evidenceCount" := Number(uploaded)], now);
    case FanOut(j, scope, eligible, ids, payout, expiresAt, now) =>
      CreateOffersEvolves(policy, db, j, eligible, ids, payout, expiresAt, now);
    case UploadEvidence(j, now) => RecordJobEventEvolves(policy, db, Event(j, EvidenceUploaded, None, map[]), now);
  }

  lemma RetentionEvolves(policy: Policy, db: Db, olderThan: int)
    ensures Evolves(policy, db, RunRetention(db, olderThan))
  {
    hide RetainFrom;
    RetainEvolves(policy, db, 0, olderThan);
  }
}
