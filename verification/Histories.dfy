/** What the events in the history look like: every payload is one the system writes. */
module Histories {
  import opened Contracts
  import opened OutboxKeys
  import opened Db
  import opened Dispatch
  import opened Machine
  import opened Invariants
  import opened Preservation
  import opened Evolution
  import opened Runs

  /** The number of proofs a completion was recorded with. */
  predicate HasEvidence(e: Event) {
    "evidenceCount" in e.fields && e.fields["evidenceCount"].Number? && e.fields["evidenceCount"].number >= 1
  }

  predicate NamesOffer(e: Event) {
    "offerId" in e.fields && e.fields["offerId"].Text? && IsUuid(e.fields["offerId"].text)
  }

  predicate NamesQuote(e: Event) {
    "quoteId" in e.fields && e.fields["quoteId"].Text? && IsUuid(e.fields["quoteId"].text)
  }

  predicate NamesReason(e: Event) {
    "reason" in e.fields && e.fields["reason"] in {Text(MAX_ROUNDS_REACHED), Text(NO_PROVIDER_LEFT)}
  }

  /** The payload of an event of each kind, as far as anything depends on it. */
  predicate Shape(e: Event) {
    match e.kind
    case JobCompleted => HasEvidence(e)
    case OfferAccepted => NamesOffer(e)
    case OfferDeclined => NamesOffer(e)
    case OfferExpired => NamesOffer(e)
    case QuoteApproved => NamesQuote(e)
    case QuoteRejected => NamesQuote(e)
    case DispatchEscalated => NamesReason(e)
    case OffersSent => e.fields.Keys == {"providerCount", "payoutNetCents"}
    case AssignmentFellThrough => e.fields.Keys == {"providerId"}
    case _ => true
  }

  ghost predicate Shaped(events: seq<Event>) {
    forall e :: e in events ==> Shape(e)
  }

  lemma OneMore(events: seq<Event>, e: Event)
    requires Shaped(events) && Shape(e)
    ensures Shaped(events + [e])
  {
  }

  // ------------------------------------------------------------------ step by step

  lemma OfferUuid(db: Db, k: nat)
    requires Refs(db) && k < |db.offers|
    ensures IsUuid(db.offers[k].id)
  {
    assert db.offers[k] in db.offers;
  }

  lemma {:induction false} ExpireShapes(db: Db, k: nat, now: int)
    requires k <= |db.offers| && Shaped(db.events) && forall i :: 0 <= i < |db.offers| ==> IsUuid(db.offers[i].id)
    ensures Shaped(ExpireFrom(db, k, now).events)
    decreases |db.offers| - k
  {
    hide RecordEvent, IsUuid;
    if k < |db.offers| {
      var e := Event(db.offers[k].jobId, OfferExpired, None, map["offerId" := Text(db.offers[k].id)]);
      OneMore(db.events, e);
      hide Shaped;
      ExpireShapes(ExpireOne(db, k, now), k + 1, now);
    }
  }

  lemma DecideShapes(db: Db, id: Id, scope: Scope, approve: bool, now: int)
    requires Refs(db) && Shaped(db.events)
    ensures Shaped(DecideQuote(db, id, scope, approve, now).db.events)
  {
    var k := QuoteIndex(db.quotes, id);
    hide RecordEvent, Visible, IsUuid, WellKeyed;
    if k < |db.quotes| {
      assert db.quotes[k] in db.quotes;
      OneMore(db.events, Event(db.quotes[k].jobId, if approve then QuoteApproved else QuoteRejected, None,
                               map["quoteId" := Text(db.quotes[k].id)]));
    }
    hide Refs, Shaped, QuoteIndex;
  }

  lemma AcceptShapes(db: Db, id: Id, p: Id, now: int)
    requires Refs(db) && Shaped(db.events)
    ensures Shaped(AcceptOffer(db, id, p, now).db.events)
  {
    var k := OfferIndex(db.offers, id);
    hide RecordEvent, ActiveIndex, IsUuid, Withdraw, CanTransition;
    if k < |db.offers| {
      var o := db.offers[k];
      OfferUuid(db, k);
      if o.jobId in db.jobs {
        OneMore(db.events,
                Event(o.jobId, OfferAccepted, Some(Move(db.jobs[o.jobId].status, Assigned)), CommitFields(o)));
      }
    }
    hide Refs, Shaped, OfferIndex;
  }

  lemma DeclineShapes(db: Db, id: Id, p: Id, now: int)
    requires Refs(db) && Shaped(db.events)
    ensures Shaped(DeclineOffer(db, id, p, now).db.events)
  {
    var k := OfferIndex(db.offers, id);
    hide RecordEvent, IsUuid;
    if k < |db.offers| {
      var o := db.offers[k];
      OfferUuid(db, k);
      OneMore(db.events,
              Event(o.jobId, OfferDeclined, None, map["offerId" := Text(o.id), "providerId" := Text(o.providerId)]));
    }
    hide Refs, Shaped, OfferIndex;
  }

  lemma CoverShapes(db: Db, j: Id, eligible: seq<Id>, ids: seq<Id>, config: SweepConfig, now: int)
    requires config.providersPerRound > 0 && |ids| >= config.providersPerRound && Shaped(db.events)
    ensures Shaped(Cover(db, j, eligible, ids, config, now).0.events)
  {
    hide RecordEvent, AutomaticRounds, OffersFor, NextRound, CarriedPayout, ApprovedNet, ActiveIndex, AddOffers;
  }

  lemma MoveShapes(db: Db, j: Id, scope: Scope, to: JobStatus, kind: EventType, fields: map<string, Part>, now: int)
    requires Shaped(db.events) && forall m :: Shape(Event(j, kind, m, fields))
    ensures Shaped(TransitionJob(db, j, scope, to, kind, fields, now).db.events)
  {
    hide RecordEvent, Visible, CanTransition;
    if j in db.jobs {
      OneMore(db.events, Event(j, kind, Some(Move(db.jobs[j].status, to)), fields));
    }
    hide Shaped;
  }

  lemma FallbackShapes(db: Db, j: Id, now: int)
    requires Shaped(db.events)
    ensures Shaped(Fallback(db, j, now).db.events)
  {
    hide RecordEvent, CanTransition;
  }

  lemma PriceShapes(db: Db, q: Quote, scope: Scope, now: int)
    requires Shaped(db.events)
    ensures Shaped(Price(db, q, scope, now).db.events)
  {
    hide RecordEvent, Visible, CanTransition;
  }

  lemma FanShapes(db: Db, j: Id, scope: Scope, eligible: seq<Id>, ids: seq<Id>, payout: int, expiresAt: int, now: int)
    requires |ids| == |eligible| && Shaped(db.events)
    ensures Shaped(Fan(db, j, scope, eligible, ids, payout, expiresAt, now).db.events)
  {
    hide RecordEvent, Visible, HasApprovedQuote, AddOffers;
  }

  lemma StepShapes(policy: Policy, db: Db, s: Step)
    requires Refs(db) && Shaped(db.events) && Admissible(db, s)
    ensures Shaped(Apply(policy, db, s).events)
  {
    hide Refs, Shaped, RecordEvent, ExpireFrom, DecideQuote, AcceptOffer, DeclineOffer, Cover, TransitionJob, Fallback,
      Price, Fan, Holds, Visible, FreshOfferIds, RetainFrom;
    match s
    case SubmitJob(id, org, now) => OneMore(db.events, Event(id, JobCreated, None, map[]));
    case ApproveTriage(j, scope, now) => MoveShapes(db, j, scope, Triaged, TriageApproved, map[], now);
    case PriceJob(q, scope, now) => PriceShapes(db, q, scope, now);
    case AnswerQuote(id, scope, approve, now) => DecideShapes(db, id, scope, approve, now);
    case FanOut(j, scope, eligible, ids, payout, expiresAt, now) =>
      FanShapes(db, j, scope, eligible, ids, payout, expiresAt, now);
    case Accept(id, p, now) => AcceptShapes(db, id, p, now);
    case Decline(id, p, now) => DeclineShapes(db, id, p, now);
    case Expire(now) =>
      forall i | 0 <= i < |db.offers| ensures IsUuid(db.offers[i].id) { OfferUuid(db, i); }
      ExpireShapes(db, 0, now);
    case CoverJob(j, eligible, ids, config, now) => CoverShapes(db, j, eligible, ids, config, now);
    case FallThrough(j, _, now) => FallbackShapes(db, j, now);
    case StartWork(j, scope, now) => MoveShapes(db, j, scope, InProgress, WorkStarted, map[], now);
    case UploadEvidence(j, now) => OneMore(db.events, Event(j, EvidenceUploaded, None, map[]));
    case CompleteJob(j, scope, uploaded, now) =>
      if uploaded > 0 {
        MoveShapes(db, j, scope, Completed, JobCompleted, map["evidenceCount" := Number(uploaded)], now);
      }
    case CancelJob(j, scope, now) => MoveShapes(db, j, scope, Cancelled, JobCancelled, map[], now);
    case Retain(olderThan) => RetainEvolves(policy, db, 0, olderThan);
  }

  lemma {:induction false} RunShapes(policy: Policy, db: Db, steps: seq<Step>)
    requires Inv(db) && Shaped(db.events) && Lawful(policy, db, steps)
    ensures Shaped(Run(policy, db, steps).events)
    decreases |steps|
  {
    if steps != [] {
      assert Refs(db);
      hide Inv, Apply, Admissible, Shaped, Refs;
      StepShapes(policy, db, steps[0]);
      StepKeeps(policy, db, steps[0]);
      RunShapes(policy, Apply(policy, db, steps[0]), steps[1..]);
    }
  }

  // -------------------------------------------------------------- main result

  /** In every reachable state a completion was recorded with at least one proof. */
  lemma CompletedWithEvidence(policy: Policy, steps: seq<Step>, e: Event)
    requires Lawful(policy, EMPTY, steps)
    requires e in Run(policy, EMPTY, steps).events && e.kind.JobCompleted?
    ensures HasEvidence(e)
  {
    EmptyInv();
    hide Inv, Run, Lawful, HasEvidence;
    RunShapes(policy, EMPTY, steps);
    assert Shape(e);
  }
}
