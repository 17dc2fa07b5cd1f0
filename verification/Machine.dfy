/** The whole protocol as a state machine: one step per API request or sweep
    action, and what every step keeps. */
module Machine {
  import opened Contracts
  import opened Counting
  import opened OutboxKeys
  import opened Db
  import opened Dispatch

  /** Does a refused request keep what it wrote before it was refused?  The
      in-memory store does; the transactional one rolls back. */
  datatype Policy = KeepsWrites | RollsBack

  datatype Step =
    | SubmitJob(id: Id, organizationId: Id, now: int)
    | ApproveTriage(jobId: Id, scope: Scope, now: int)
    | PriceJob(quote: Quote, scope: Scope, now: int)
    | AnswerQuote(quoteId: Id, scope: Scope, approve: bool, now: int)
    | FanOut(jobId: Id, scope: Scope, eligible: seq<Id>, ids: seq<Id>, payout: int, expiresAt: int, now: int)
    | Accept(offerId: Id, providerId: Id, now: int)
    | Decline(offerId: Id, providerId: Id, now: int)
    | Expire(now: int)
    | CoverJob(jobId: Id, eligible: seq<Id>, ids: seq<Id>, config: SweepConfig, now: int)
    | FallThrough(jobId: Id, scope: Scope, now: int)
    | StartWork(jobId: Id, scope: Scope, now: int)
    | UploadEvidence(jobId: Id, now: int)
    | CompleteJob(jobId: Id, scope: Scope, uploaded: nat, now: int)
    | CancelJob(jobId: Id, scope: Scope, now: int)
    | Retain(olderThan: int)

  predicate FreshOfferIds(db: Db, ids: seq<Id>) {
    && (forall i :: 0 <= i < |ids| ==> IsUuid(ids[i]))
    && (forall i, j :: 0 <= i < j < |ids| ==> ids[i] != ids[j])
    && (forall o :: o in db.offers ==> o.id !in ids)
  }

  /** What the request schemas and the id generator guarantee of a step. */
  predicate Admissible(db: Db, s: Step) {
    match s
    case SubmitJob(id, _, _) => IsUuid(id) && id !in db.jobs
    case PriceJob(q, _, _) =>
      && IsUuid(q.id) && (forall x :: x in db.quotes ==> x.id != q.id)
      && q.status.Sent? && 0 < q.netCents <= q.grossCents
      && (q.jobId in db.jobs ==> q.organizationId == db.jobs[q.jobId].organizationId)
    case FanOut(_, _, eligible, ids, payout, _, _) =>
      |ids| == |eligible| && FreshOfferIds(db, ids) && payout > 0
    case CoverJob(_, _, ids, config, _) =>
      config.providersPerRound > 0 && |ids| >= config.providersPerRound && FreshOfferIds(db, ids)
    case _ => true
  }

  /** Staff act on any job, a provider only on the one it currently holds. */
  predicate Holds(db: Db, jobId: Id, scope: Scope) {
    var k := ActiveIndex(db.assignments, jobId);
    scope.Staff? || (k < |db.assignments| && scope == Provider(db.assignments[k].providerId))
  }

  function Perform(db: Db, s: Step): Effect
    requires Admissible(db, s)
  {
    match s
    case SubmitJob(id, org, now) => CreateJob(db, id, org, now)
    case ApproveTriage(j, scope, now) => TransitionJob(db, j, scope, Triaged, TriageApproved, map[], now)
    case PriceJob(q, scope, now) => Price(db, q, scope, now)
    case AnswerQuote(id, scope, approve, now) => DecideQuote(db, id, scope, approve, now)
    case FanOut(j, scope, eligible, ids, payout, expiresAt, now) =>
      Fan(db, j, scope, eligible, ids, payout, expiresAt, now)
    case Accept(id, p, now) => AcceptOffer(db, id, p, now)
    case Decline(id, p, now) => DeclineOffer(db, id, p, now)
    case Expire(now) => Effect(ExpireOffers(db, now), Done)
    case CoverJob(j, eligible, ids, config, now) => Effect(Cover(db, j, eligible, ids, config, now).0, Done)
    case FallThrough(j, scope, now) =>
      if Holds(db, j, scope) then Fallback(db, j, now) else Effect(db, Refused(NotFound))
    case StartWork(j, scope, now) =>
      if !Holds(db, j, scope) then Effect(db, Refused(NotFound))
      else TransitionJob(db, j, scope, InProgress, WorkStarted, map[], now)
    case UploadEvidence(j, now) => RecordJobEvent(db, Event(j, EvidenceUploaded, None, map[]), now)
    case CompleteJob(j, scope, uploaded, now) =>
      if !Holds(db, j, scope) then Effect(db, Refused(NotFound))
      else if j !in db.jobs || !Visible(db, j, scope) then Effect(db, Refused(NotFound))
      else if uploaded == 0 then Effect(db, Refused(Conflict))
      else TransitionJob(db, j, scope, Completed, JobCompleted, map["evidenceCount" := Number(uploaded)], now)
    case CancelJob(j, scope, now) => TransitionJob(db, j, scope, Cancelled, JobCancelled, map[], now)
    case Retain(olderThan) => Effect(RunRetention(db, olderThan), Done)
  }

  /** The quote route: status check, quote and move in one step. */
  function Price(db: Db, q: Quote, scope: Scope, now: int): Effect {
    if q.jobId !in db.jobs || !Visible(db, q.jobId, scope) then Effect(db, Refused(NotFound))
    else if !db.jobs[q.jobId].status.Triaged? then Effect(db, Refused(InvalidStateTransition))
    else
      TransitionJob(CreateQuote(db, q, now), q.jobId, scope, Quoted, JobQuoted,
                    map["quoteId" := Text(q.id), "grossCents" := Number(q.grossCents)], now)
  }

  /** The offers route: status and price checks, then the fan-out. */
  function Fan(db: Db, j: Id, scope: Scope, eligible: seq<Id>, ids: seq<Id>, payout: int,
                  expiresAt: int, now: int): Effect
    requires |ids| == |eligible|
  {
    if j !in db.jobs || !Visible(db, j, scope) then Effect(db, Refused(NotFound))
    else if !db.jobs[j].status.Quoted? then Effect(db, Refused(InvalidStateTransition))
    else if !HasApprovedQuote(db.quotes, j) then Effect(db, Refused(InvalidStateTransition))
    else if eligible == [] then Effect(db, Refused(NoEligibleProvider))
    else Effect(CreateOffers(db, j, eligible, ids, payout, expiresAt, now), Done)
  }

  function Apply(policy: Policy, db: Db, s: Step): Db
    requires Admissible(db, s)
  {
    var e := Perform(db, s);
    if policy.RollsBack? && e.reply.Refused? then db else e.db
  }
}
