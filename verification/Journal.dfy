/** What the history says: of each request, and of how each offer was answered. */
module Journal {
  import opened Contracts
  import opened Counting
  import opened OutboxKeys
  import opened Db
  import opened Dispatch
  import opened Machine
  import opened Tallies
  import opened Invariants
  import opened Preservation
  import opened Evolution
  import opened Runs
  import opened Sweep
  import opened Answers
  import opened Requests

  // -------------------------------------------------------------------- requests

  /** One event joins the history. */
  predicate Notes(db: Db, db': Db, j: Id, kind: EventType, move: Option<Move>, fields: map<string, Part>) {
    db'.events == db.events + [Event(j, kind, move, fields)]
  }

  function PriceOf(q: Quote): map<string, Part> {
    map["quoteId" := Text(q.id), "grossCents" := Number(q.grossCents)]
  }

  function AnswerOf(offerId: Id, p: Id): map<string, Part> {
    map["offerId" := Text(offerId), "providerId" := Text(p)]
  }

  /** What each granted request leaves in the history. */
  ghost predicate Tells(db: Db, s: Step, db': Db)
    requires Granted(db, s)
  {
    match s
    case SubmitJob(id, _, _) => Notes(db, db', id, JobCreated, None, map[])
    case ApproveTriage(j, _, _) => Notes(db, db', j, TriageApproved, Some(Move(Draft, Triaged)), map[])
    case PriceJob(q, _, _) =>
      db'.events == db.events + [Event(q.jobId, QuoteSent, None, PriceOf(q)),
                                 Event(q.jobId, JobQuoted, Some(Move(Triaged, Quoted)), PriceOf(q))]
    case AnswerQuote(id, _, approve, _) =>
      exists k :: FirstQuote(db.quotes, id, k)
                  && Notes(db, db', db.quotes[k].jobId, if approve then QuoteApproved else QuoteRejected, None,
                           map["quoteId" := Text(id)])
    case FanOut(j, _, _, _, payout, _, _) =>
      Notes(db, db', j, OffersSent, None,
            map["providerCount" := Number(|db'.offers| - |db.offers|), "payoutNetCents" := Number(payout)])
    case Accept(id, p, _) =>
      exists k :: FirstOffer(db.offers, id, k)
                  && Notes(db, db', db.offers[k].jobId, OfferAccepted, Some(Move(Quoted, Assigned)), AnswerOf(id, p))
    case Decline(id, p, _) =>
      exists k :: FirstOffer(db.offers, id, k)
                  && Notes(db, db', db.offers[k].jobId, OfferDeclined, None, AnswerOf(id, p))
    case FallThrough(j, _, _) =>
      exists a :: a in db.assignments && a.jobId == j && a.status.Active?
                  && Notes(db, db', j, AssignmentFellThrough, Some(Move(db.jobs[j].status, Quoted)),
                           map["providerId" := Text(a.providerId)])
    case StartWork(j, _, _) => Notes(db, db', j, WorkStarted, Some(Move(Assigned, InProgress)), map[])
    case UploadEvidence(j, _) => Notes(db, db', j, EvidenceUploaded, None, map[])
    case CompleteJob(j, _, uploaded, _) =>
      Notes(db, db', j, JobCompleted, Some(Move(InProgress, Completed)), map["evidenceCount" := Number(uploaded)])
    case CancelJob(j, _, _) => Notes(db, db', j, JobCancelled, Some(Move(db.jobs[j].status, Cancelled)), map[])
    case Retain(_) => db'.events == db.events
    case _ => true
  }

  lemma QuoteTells(policy: Policy, db: Db, s: Step)
    requires s.AnswerQuote? && Granted(db, s) && DecideQuote(db, s.quoteId, s.scope, s.approve, s.now).reply.Done?
    ensures Tells(db, s, Apply(policy, db, s))
  {
    var k := QuoteIndex(db.quotes, s.quoteId);
    assert FirstQuote(db.quotes, s.quoteId, k);
    hide RecordEvent, QuoteIndex, FirstQuote, Visible;
  }

  lemma AcceptTells(policy: Policy, db: Db, s: Step)
    requires s.Accept? && Granted(db, s) && AcceptOffer(db, s.offerId, s.providerId, s.now).reply.Done?
    ensures Tells(db, s, Apply(policy, db, s))
  {
    var k := OfferIndex(db.offers, s.offerId);
    assert FirstOffer(db.offers, s.offerId, k);
    assert forall i :: FirstOffer(db.offers, s.offerId, i) ==> i == k;
    hide RecordEvent, OfferIndex, FirstOffer, Withdraw, CanTransition, ActiveIndex;
    assert Notes(db, Commit(db, k, s.now), db.offers[k].jobId, OfferAccepted, Some(Move(Quoted, Assigned)),
                 AnswerOf(s.offerId, s.providerId));
  }

  lemma DeclineTells(policy: Policy, db: Db, s: Step)
    requires s.Decline? && Granted(db, s) && DeclineOffer(db, s.offerId, s.providerId, s.now).reply.Done?
    ensures Tells(db, s, Apply(policy, db, s))
  {
    var k := OfferIndex(db.offers, s.offerId);
    assert FirstOffer(db.offers, s.offerId, k);
    hide RecordEvent, OfferIndex, FirstOffer;
  }

  lemma FallTells(policy: Policy, db: Db, s: Step)
    requires s.FallThrough? && Granted(db, s) && Perform(db, s).reply.Done?
    ensures Tells(db, s, Apply(policy, db, s))
  {
    hide RecordEvent, CanTransition, Holds, Holder;
    var a := db.assignments[ActiveIndex(db.assignments, s.jobId)];
    assert a in db.assignments;
    hide ActiveIndex;
  }

  lemma PriceTells(policy: Policy, db: Db, s: Step)
    requires s.PriceJob? && Admissible(db, s) && Granted(db, s) && Perform(db, s).reply.Done?
    ensures Tells(db, s, Apply(policy, db, s))
  {
    hide RecordEvent, Visible, Sees, CanTransition;
  }

  lemma PlainTells(policy: Policy, db: Db, s: Step)
    requires Admissible(db, s) && Granted(db, s) && Perform(db, s).reply.Done?
    requires s.SubmitJob? || s.ApproveTriage? || s.StartWork? || s.UploadEvidence? || s.CompleteJob? || s.CancelJob?
             || s.FanOut?
    ensures Tells(db, s, Apply(policy, db, s))
  {
    hide RecordEvent, Visible, Holds, CanTransition, Sees, Holder, AddOffers, FreshOfferIds, HasApprovedQuote;
  }

  /** A granted request leaves exactly this in the history. */
  lemma GrantedTells(policy: Policy, db: Db, s: Step)
    requires Inv(db) && Admissible(db, s) && Granted(db, s)
    ensures Tells(db, s, Apply(policy, db, s))
  {
    GrantedIff(db, s);
    DoneParts(db, s);
    hide Inv, Granted, Tells, AcceptOffer, DeclineOffer, DecideQuote, Perform, Apply, Admissible;
    match s
    case AnswerQuote(_, _, _, _) => QuoteTells(policy, db, s);
    case Accept(_, _, _) => AcceptTells(policy, db, s);
    case Decline(_, _, _) => DeclineTells(policy, db, s);
    case FallThrough(_, _, _) => FallTells(policy, db, s);
    case PriceJob(_, _, _) => PriceTells(policy, db, s);
    case Expire(_) => OtherTells(policy, db, s);
    case CoverJob(_, _, _, _, _) => OtherTells(policy, db, s);
    case Retain(_) => OtherTells(policy, db, s);
    case _ => PlainTells(policy, db, s);
  }

  lemma OtherTells(policy: Policy, db: Db, s: Step)
    requires Admissible(db, s) && Granted(db, s) && (s.Expire? || s.CoverJob? || s.Retain?)
    ensures Tells(db, s, Apply(policy, db, s))
  {
    hide ExpireFrom, Cover, RetainFrom;
    if s.Retain? { RetainEvolves(policy, db, 0, s.olderThan); }
  }

  /** In every reachable state: a granted request adds exactly its own events to the history, and a
      refused one none. */
  lemma RequestsTold(policy: Policy, before: seq<Step>, s: Step)
    requires Lawful(policy, EMPTY, before) && Admissible(Run(policy, EMPTY, before), s)
    ensures var db := Run(policy, EMPTY, before);
      if Granted(db, s) then Tells(db, s, Apply(policy, db, s)) else Apply(policy, db, s).events == db.events
  {
    var db := Run(policy, EMPTY, before);
    ReachableInv(policy, before);
    RequestsDecided(policy, before, s);
    hide Run, Lawful, Inv, Granted, Tells, Does, Perform, Apply, Admissible;
    if Granted(db, s) { GrantedTells(policy, db, s); }
  }

  // ---------------------------------------------------------------------- offers

  predicate Answered(kind: EventType, e: Event, o: Offer) { e.kind == kind && AnswersTo(e, o) }

  ghost predicate Has(events: seq<Event>, kind: EventType, o: Offer) {
    exists e :: e in events && Answered(kind, e, o)
  }

  ghost predicate Unanswered(events: seq<Event>, o: Offer) {
    forall e :: e in events ==> !AnswersTo(e, o)
  }

  /** The history holds the answer that the offer's status speaks of.  Only where refusals keep their
      writes may an offer be marked expired without one. */
  ghost predicate ToldOf(policy: Policy, events: seq<Event>, o: Offer) {
    match o.status
    case Pending => Unanswered(events, o)
    case Withdrawn => Unanswered(events, o)
    case Accepted => Has(events, OfferAccepted, o)
    case Declined => Has(events, OfferDeclined, o)
    case Expired => policy.KeepsWrites? || Has(events, OfferExpired, o)
  }

  ghost predicate AllTold(policy: Policy, db: Db) {
    forall o :: o in db.offers ==> ToldOf(policy, db.events, o)
  }

  function StatusBy(kind: EventType): OfferStatus {
    match kind
    case OfferAccepted => Accepted
    case OfferDeclined => Declined
    case _ => Expired
  }

  lemma ToldStays(policy: Policy, events: seq<Event>, e: Event, o: Offer)
    requires ToldOf(policy, events, o) && !AnswersTo(e, o)
    ensures ToldOf(policy, events + [e], o)
  {
    hide AnswersTo;
    assert forall x :: x in events ==> x in events + [e];
  }

  /** An event that answers nothing. */
  lemma OtherTold(policy: Policy, events: seq<Event>, e: Event, offers: seq<Offer>)
    requires (forall o :: o in offers ==> ToldOf(policy, events, o)) && !IsAnswer(e.kind)
    ensures forall o :: o in offers ==> ToldOf(policy, events + [e], o)
  {
    hide ToldOf;
    forall o | o in offers ensures ToldOf(policy, events + [e], o) {
      ToldStays(policy, events, e, o);
    }
  }

  /** A new open offer has no answer yet, for no answer is to an offer that is not there. */
  lemma NewUnanswered(db: Db, o: Offer)
    requires OffersGood(db) && o in db.offers && o.status.Pending?
    ensures Unanswered(db.events, o)
  {
    hide NoRivals, SameAnswer;
    forall e | e in db.events && IsAnswer(e.kind) ensures !AnswersTo(e, o) {
      var x :| x in db.offers && AnswersTo(e, x) && !x.status.Pending?;
      OwnId(db.offers, x, o);
    }
  }

  lemma OwnId(offers: seq<Offer>, a: Offer, b: Offer)
    requires IdsOnce(offers) && a in offers && b in offers && a != b
    ensures a.id != b.id
  {
    var i :| 0 <= i < |offers| && offers[i] == a;
    var k :| 0 <= k < |offers| && offers[k] == b;
    assert i < k || k < i;
  }

  /** One open offer is answered; the others stay or are withdrawn unanswered. */
  lemma AnswerTold(policy: Policy, db: Db, db': Db, k: nat, e: Event)
    requires AllTold(policy, db) && OffersGood(db) && k < |db.offers| && |db'.offers| == |db.offers|
    requires db.offers[k].status.Pending? && AnswersTo(e, db.offers[k]) && db'.events == db.events + [e]
    requires db'.offers[k] == db.offers[k].(status := StatusBy(e.kind))
    requires forall i :: 0 <= i < |db.offers| && i != k ==>
      db'.offers[i] == db.offers[i]
      || (db.offers[i].status.Pending? && db'.offers[i] == db.offers[i].(status := Withdrawn))
    ensures AllTold(policy, db')
  {
    IdsOf(db);
    hide OffersGood;
    forall i | 0 <= i < |db'.offers| ensures ToldOf(policy, db'.events, db'.offers[i]) {
      assert db.offers[i] in db.offers;
      if i == k {
        assert e in db'.events && Answered(e.kind, e, db'.offers[i]);
      } else {
        assert db.offers[i].id != db.offers[k].id by { assert i < k || k < i; }
        WithdrawnTold(policy, db.events, db.offers[i], db'.offers[i]);
        ToldStays(policy, db.events, e, db'.offers[i]);
      }
    }
  }

  lemma WithdrawnTold(policy: Policy, events: seq<Event>, o: Offer, o': Offer)
    requires ToldOf(policy, events, o)
    requires o' == o || (o.status.Pending? && o' == o.(status := Withdrawn))
    ensures ToldOf(policy, events, o')
  {
    assert forall e :: AnswersTo(e, o') <==> AnswersTo(e, o);
    hide AnswersTo;
  }

  /** No answer, and new offers only. */
  lemma QuietTold(policy: Policy, db: Db, db': Db)
    requires AllTold(policy, db) && OffersGood(db') && db.offers <= db'.offers
    requires forall i :: |db.offers| <= i < |db'.offers| ==> db'.offers[i].status.Pending?
    requires db'.events == db.events || exists e :: db'.events == db.events + [e] && !IsAnswer(e.kind)
    ensures AllTold(policy, db')
  {
    hide ToldOf, OffersGood;
    if db'.events != db.events {
      var e :| db'.events == db.events + [e] && !IsAnswer(e.kind);
      OtherTold(policy, db.events, e, db.offers);
    }
    forall i | 0 <= i < |db'.offers| ensures ToldOf(policy, db'.events, db'.offers[i]) {
      if i < |db.offers| { assert db.offers[i] in db.offers; }
      else { NewTold(policy, db', db'.offers[i]); }
    }
  }

  lemma NewTold(policy: Policy, db: Db, o: Offer)
    requires OffersGood(db) && o in db.offers && o.status.Pending?
    ensures ToldOf(policy, db.events, o)
  {
    NewUnanswered(db, o);
  }

  lemma {:induction false} ExpireTold(policy: Policy, db: Db, k: nat, now: int)
    requires AllTold(policy, db) && OffersGood(db) && k <= |db.offers|
    ensures AllTold(policy, ExpireFrom(db, k, now))
    decreases |db.offers| - k
  {
    if k < |db.offers| {
      ExpireOneGood(db, k, now);
      ExpireOneTold(policy, db, k, now);
      hide OffersGood, AllTold, ExpireOne;
      ExpireTold(policy, ExpireOne(db, k, now), k + 1, now);
    }
  }

  lemma ExpireOneTold(policy: Policy, db: Db, k: nat, now: int)
    requires AllTold(policy, db) && OffersGood(db) && k < |db.offers|
    ensures AllTold(policy, ExpireOne(db, k, now))
  {
    hide RecordEvent, OffersGood, AllTold;
    if Due(db.offers[k], now) {
      var o, db' := db.offers[k], ExpireOne(db, k, now);
      var e := Event(o.jobId, OfferExpired, None, map["offerId" := Text(o.id)]);
      assert db'.offers == db.offers[k := o.(status := Expired)] && db'.events == db.events + [e];
      AnswerTold(policy, db, db', k, e);
    }
  }

  lemma AcceptTold(policy: Policy, db: Db, s: Step, db': Db)
    requires AllTold(policy, db) && OffersGood(db) && s.Accept? && Granted(db, s) && Does(db, s, db')
      && Tells(db, s, db')
    ensures AllTold(policy, db')
  {
    hide AllTold, OffersGood;
    var k :| FirstOffer(db.offers, s.offerId, k) && Acceptable(db, k, s.providerId, s.now) && Won(db, db', k);
    assert forall i :: FirstOffer(db.offers, s.offerId, i) ==> i == k;
    AnswerTold(policy, db, db', k, db'.events[|db.events|]);
  }

  lemma DeclineTold(policy: Policy, db: Db, s: Step, db': Db)
    requires AllTold(policy, db) && OffersGood(db) && s.Decline? && Granted(db, s) && Does(db, s, db')
      && Tells(db, s, db')
    ensures AllTold(policy, db')
  {
    hide AllTold, OffersGood;
    var k :| FirstOffer(db.offers, s.offerId, k) && db'.offers == db.offers[k := db.offers[k].(status := Declined)];
    assert forall i :: FirstOffer(db.offers, s.offerId, i) ==> i == k;
    AnswerTold(policy, db, db', k, db'.events[|db.events|]);
  }

  lemma PriceTold(policy: Policy, db: Db, s: Step, db': Db)
    requires AllTold(policy, db) && s.PriceJob? && Granted(db, s) && Tells(db, s, db') && db'.offers == db.offers
    ensures AllTold(policy, db')
  {
    hide ToldOf;
    var e, f := db'.events[|db.events|], db'.events[|db.events| + 1];
    OtherTold(policy, db.events, e, db.offers);
    OtherTold(policy, db.events + [e], f, db.offers);
    assert db'.events == db.events + [e] + [f];
  }

  lemma PlainTold(policy: Policy, db: Db, s: Step, db': Db)
    requires AllTold(policy, db) && OffersGood(db') && Granted(db, s) && Does(db, s, db') && Tells(db, s, db')
    requires !s.Accept? && !s.Decline? && !s.PriceJob? && !s.Expire? && !s.CoverJob? && !s.Retain?
    ensures AllTold(policy, db')
  {
    assert db.offers <= db'.offers && (forall i :: |db.offers| <= i < |db'.offers| ==> db'.offers[i].status.Pending?);
    assert db'.events == db.events + [db'.events[|db.events|]] && !IsAnswer(db'.events[|db.events|].kind);
    hide AllTold, OffersGood, Granted, Does, Tells;
    QuietTold(policy, db, db');
  }

  lemma CoverTold(policy: Policy, db: Db, s: Step)
    requires AllTold(policy, db) && s.CoverJob? && Admissible(db, s) && OffersGood(Apply(policy, db, s))
    ensures AllTold(policy, Apply(policy, db, s))
  {
    hide AllTold, OffersGood;
    CoverEffect(db, s.jobId, s.eligible, s.ids, s.config, s.now);
    CoverNotes(db, s.jobId, s.eligible, s.ids, s.config, s.now);
    hide Cover, EscalatedOn, NewRound, FreshOfferIds;
    QuietTold(policy, db, Apply(policy, db, s));
  }

  /** Covering a job records the new round or the escalation, if anything. */
  lemma CoverNotes(db: Db, j: Id, eligible: seq<Id>, ids: seq<Id>, config: SweepConfig, now: int)
    requires config.providersPerRound > 0 && |ids| >= config.providersPerRound
    ensures var (db', c) := Cover(db, j, eligible, ids, config, now);
      if c.Skipped? then db'.events == db.events
      else exists e :: db'.events == db.events + [e] && e.jobId == j && e.move.None?
                       && e.kind == if c.Reoffered? then OffersSent else DispatchEscalated
  {
    hide RecordEvent, AutomaticRounds, OffersFor, NextRound, CarriedPayout, ApprovedNet, ActiveIndex, AddOffers;
  }

  lemma MarkTold(policy: Policy, db: Db, s: Step, db': Db)
    requires AllTold(policy, db) && policy.KeepsWrites? && Marks(db, s, db')
    ensures AllTold(policy, db')
  {
    if s.Accept? {
      var k :| FirstOffer(db.offers, s.offerId, k)
               && db' == db.(offers := db.offers[k := db.offers[k].(status := Expired)]);
      hide Marks, FirstOffer;
      forall i | 0 <= i < |db'.offers| ensures ToldOf(policy, db'.events, db'.offers[i]) {
        if i != k { assert db.offers[i] in db.offers; }
      }
    }
  }

  lemma StepTold(policy: Policy, db: Db, s: Step)
    requires Inv(db) && OffersGood(db) && AllTold(policy, db) && Admissible(db, s)
    ensures AllTold(policy, Apply(policy, db, s))
  {
    hide Inv, OffersGood, AllTold, Granted, Marks, Apply, Admissible, Perform;
    var db' := Apply(policy, db, s);
    if Granted(db, s) {
      StepOffers(policy, db, s);
      GrantedTold(policy, db, s);
    } else {
      RefusedDoes(policy, db, s);
      if db' != db { MarkTold(policy, db, s, db'); }
    }
  }

  lemma GrantedTold(policy: Policy, db: Db, s: Step)
    requires Inv(db) && OffersGood(db) && AllTold(policy, db) && Admissible(db, s) && Granted(db, s)
    requires OffersGood(Apply(policy, db, s))
    ensures AllTold(policy, Apply(policy, db, s))
  {
    hide Inv, OffersGood, AllTold, Granted, Does, Tells, Apply, Admissible, ExpireFrom;
    var db' := Apply(policy, db, s);
    GrantedDoes(policy, db, s);
    GrantedTells(policy, db, s);
    match s
    case Accept(_, _, _) => AcceptTold(policy, db, s, db');
    case Decline(_, _, _) => DeclineTold(policy, db, s, db');
    case PriceJob(_, _, _) => PriceSame(db, s, db'); PriceTold(policy, db, s, db');
    case Expire(now) => ExpireIs(policy, db, s); ExpireTold(policy, db, 0, now);
    case CoverJob(_, _, _, _, _) => CoverTold(policy, db, s);
    case Retain(_) => RetainTold(policy, db, s);
    case _ => PlainTold(policy, db, s, db');
  }

  lemma PriceSame(db: Db, s: Step, db': Db)
    requires s.PriceJob? && Granted(db, s) && Does(db, s, db')
    ensures db'.offers == db.offers
  {
    hide Granted;
  }

  lemma ExpireIs(policy: Policy, db: Db, s: Step)
    requires s.Expire?
    ensures Apply(policy, db, s) == ExpireFrom(db, 0, s.now)
  {
    hide ExpireFrom;
  }

  lemma RetainTold(policy: Policy, db: Db, s: Step)
    requires AllTold(policy, db) && s.Retain?
    ensures AllTold(policy, Apply(policy, db, s))
  {
    hide ToldOf;
    RetainEvolves(policy, db, 0, s.olderThan);
    hide RetainFrom;
  }

  lemma {:induction false} RunTold(policy: Policy, db: Db, steps: seq<Step>)
    requires Inv(db) && OffersGood(db) && AllTold(policy, db) && Lawful(policy, db, steps)
    ensures AllTold(policy, Run(policy, db, steps))
    decreases |steps|
  {
    hide Inv, OffersGood, AllTold, Apply, Admissible;
    if steps != [] {
      StepOffers(policy, db, steps[0]);
      StepKeeps(policy, db, steps[0]);
      StepTold(policy, db, steps[0]);
      RunTold(policy, Apply(policy, db, steps[0]), steps[1..]);
    }
  }

  // ---------------------------------------------------------------- main result

  /** In every run the history and the offers agree: an offer stands as accepted, declined or expired
      exactly if that answer was recorded; only where refusals keep their writes may it stand as expired
      instead. */
  lemma OffersAsRecorded(policy: Policy, steps: seq<Step>, o: Offer, kind: EventType)
    requires Lawful(policy, EMPTY, steps) && o in Run(policy, EMPTY, steps).offers && IsAnswer(kind)
    ensures var told := Has(Run(policy, EMPTY, steps).events, kind, o);
      && (o.status == StatusBy(kind) && !(policy.KeepsWrites? && o.status.Expired?) ==> told)
      && (told ==> o.status == StatusBy(kind) || (policy.KeepsWrites? && o.status.Expired?))
  {
    EmptyInv();
    assert OffersGood(EMPTY) && AllTold(policy, EMPTY);
    hide Inv, Run, Lawful, OffersGood, ToldOf, Has;
    RunTold(policy, EMPTY, steps);
    ReachableOffers(policy, steps);
    RecordedOnce(policy, Run(policy, EMPTY, steps), o, kind);
  }

  lemma RecordedOnce(policy: Policy, db: Db, o: Offer, kind: EventType)
    requires OffersGood(db) && ToldOf(policy, db.events, o) && IsAnswer(kind)
    ensures var told := Has(db.events, kind, o);
      && (o.status == StatusBy(kind) && !(policy.KeepsWrites? && o.status.Expired?) ==> told)
      && (told ==> o.status == StatusBy(kind) || (policy.KeepsWrites? && o.status.Expired?))
  {
    hide OffersGood;
    if Has(db.events, kind, o) {
      var e :| e in db.events && Answered(kind, e, o);
      hide AnswersTo;
      forall k | Has(db.events, k, o) ensures k == kind { OneKind(db, o, kind, k); }
    }
  }

  lemma OneKind(db: Db, o: Offer, a: EventType, b: EventType)
    requires OffersGood(db) && Has(db.events, a, o) && Has(db.events, b, o)
    ensures a == b
  {
    hide IdsOnce, NoRivals;
    var e :| e in db.events && Answered(a, e, o);
    var f :| f in db.events && Answered(b, f, o);
    var p :| 0 <= p < |db.events| && db.events[p] == e;
    var q :| 0 <= q < |db.events| && db.events[q] == f;
    assert SameAnswer(db.events[p], db.events[q]) && SameAnswer(db.events[q], db.events[p]);
  }
}
