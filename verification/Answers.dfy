/** The offers of a job while and after one of them is accepted: no rival stays open, and each
    offer is answered at most once. */
module Answers {
  import opened Contracts
  import opened Counting
  import opened OutboxKeys
  import opened Db
  import opened Dispatch
  import opened Machine
  import opened Tallies
  import opened Invariants
  import opened Preservation
  import opened Evolution
  import opened Runs
  import opened Deals

  ghost predicate IdsOnce(offers: seq<Offer>) {
    forall i, k :: 0 <= i < k < |offers| ==> offers[i].id != offers[k].id
  }

  /** Whoever works on a job has no rival left. */
  ghost predicate NoRivals(assignments: seq<Assignment>, offers: seq<Offer>) {
    forall a, o :: a in assignments && a.status.Active? && o in offers && o.jobId == a.jobId ==> !o.status.Pending?
  }

  predicate IsAnswer(kind: EventType) { kind.OfferAccepted? || kind.OfferDeclined? || kind.OfferExpired? }

  /** The event is the answer to this offer. */
  predicate AnswersTo(e: Event, o: Offer) {
    IsAnswer(e.kind) && e.jobId == o.jobId && "offerId" in e.fields && e.fields["offerId"] == Text(o.id)
  }

  predicate SameAnswer(e: Event, f: Event) {
    && IsAnswer(e.kind) && IsAnswer(f.kind)
    && "offerId" in e.fields && "offerId" in f.fields && e.fields["offerId"] == f.fields["offerId"]
  }

  /** Every answer is to an offer that is closed, and no offer has two. */
  ghost predicate AnsweredOnce(events: seq<Event>, offers: seq<Offer>) {
    && (forall e :: e in events && IsAnswer(e.kind) ==> exists o :: o in offers && AnswersTo(e, o)
                                                          && !o.status.Pending?)
    && (forall p, q :: 0 <= p < q < |events| ==> !SameAnswer(events[p], events[q]))
  }

  ghost predicate OffersGood(db: Db) {
    IdsOnce(db.offers) && NoRivals(db.assignments, db.offers) && AnsweredOnce(db.events, db.offers)
  }

  // ------------------------------------------------------------ what changes keep

  /** The old offers are the same but for closing, and so stay closed. */
  ghost predicate Closing(a: seq<Offer>, b: seq<Offer>) {
    && |a| <= |b|
    && forall i :: 0 <= i < |a| ==>
         && b[i] == a[i].(status := b[i].status)
         && (b[i].status.Pending? ==> a[i].status.Pending?)
  }

  lemma ClosedStays(events: seq<Event>, a: seq<Offer>, b: seq<Offer>)
    requires AnsweredOnce(events, a) && Closing(a, b)
    ensures AnsweredOnce(events, b)
  {
    hide AnswersTo, SameAnswer;
    forall e | e in events && IsAnswer(e.kind) ensures exists o :: o in b && AnswersTo(e, o) && !o.status.Pending? {
      var o :| o in a && AnswersTo(e, o) && !o.status.Pending?;
      var i :| 0 <= i < |a| && a[i] == o;
      AnswersStatus(e, a[i], b[i]);
      assert b[i] in b;
    }
  }

  lemma AnswersStatus(e: Event, o: Offer, o': Offer)
    requires AnswersTo(e, o) && o' == o.(status := o'.status)
    ensures AnswersTo(e, o')
  {
  }

  /** An event that answers nothing. */
  lemma OtherEvent(events: seq<Event>, offers: seq<Offer>, e: Event)
    requires AnsweredOnce(events, offers) && !IsAnswer(e.kind)
    ensures AnsweredOnce(events + [e], offers)
  {
    hide AnswersTo;
  }

  /** The first answer to an offer that was open until now. */
  lemma NewAnswer(events: seq<Event>, a: seq<Offer>, b: seq<Offer>, k: nat, e: Event)
    requires AnsweredOnce(events, a) && IdsOnce(a) && Closing(a, b)
    requires k < |a| && a[k].status.Pending? && !b[k].status.Pending? && AnswersTo(e, a[k])
    ensures AnsweredOnce(events + [e], b)
  {
    ClosedStays(events, a, b);
    forall p | 0 <= p < |events| ensures !SameAnswer(events[p], e) { assert events[p] in events; }
    AnswersStatus(e, a[k], b[k]);
    assert b[k] in b;
    hide AnswersTo, SameAnswer;
  }

  lemma ClosingKeepsIds(a: seq<Offer>, b: seq<Offer>)
    requires IdsOnce(a) && Closing(a, b) && |a| == |b|
    ensures IdsOnce(b)
  {
  }

  lemma ClosingKeepsRivals(assignments: seq<Assignment>, a: seq<Offer>, b: seq<Offer>)
    requires NoRivals(assignments, a) && Closing(a, b) && |a| == |b|
    ensures NoRivals(assignments, b)
  {
    forall o | o in b
      ensures exists x :: x in a && o == x.(status := o.status) && (o.status.Pending? ==> x.status.Pending?)
    {
      var i :| 0 <= i < |b| && b[i] == o;
      assert a[i] in a;
    }
  }

  // ------------------------------------------------------------------ new offers

  /** New offers are open and on one job, under new ids. */
  ghost predicate Adds(a: seq<Offer>, b: seq<Offer>, j: Id) {
    && a <= b
    && (forall i :: |a| <= i < |b| ==> b[i].jobId == j && b[i].status.Pending?)
  }

  lemma {:induction false} AddedIds(offers: seq<Offer>, j: Id, providers: seq<Id>, ids: seq<Id>, payout: int,
                                    expiresAt: int)
    requires |ids| == |providers| && IdsOnce(offers)
    requires forall i, k :: 0 <= i < k < |ids| ==> ids[i] != ids[k]
    requires forall o :: o in offers ==> o.id !in ids
    ensures var r := AddOffers(offers, j, providers, ids, payout, expiresAt); IdsOnce(r) && Adds(offers, r, j)
    decreases |providers|
  {
    hide HasOffer;
    if providers == [] {
    } else if HasOffer(offers, j, providers[0]) {
      AddedIds(offers, j, providers[1..], ids[1..], payout, expiresAt);
    } else {
      var o := Offer(ids[0], j, providers[0], Pending, payout, expiresAt);
      assert IdsOnce(offers + [o]) by {
        forall i | 0 <= i < |offers| ensures offers[i].id != o.id { assert offers[i] in offers; }
      }
      AddedIds(offers + [o], j, providers[1..], ids[1..], payout, expiresAt);
      hide IdsOnce, AddOffers;
      var r := AddOffers(offers + [o], j, providers[1..], ids[1..], payout, expiresAt);
      assert offers <= offers + [o] && (offers + [o])[|offers|] == o;
    }
  }

  lemma AddsRivals(assignments: seq<Assignment>, a: seq<Offer>, b: seq<Offer>, j: Id)
    requires NoRivals(assignments, a) && Adds(a, b, j)
    requires forall x :: x in assignments && x.jobId == j ==> !x.status.Active?
    ensures NoRivals(assignments, b)
  {
    forall o | o in b && o.jobId != j ensures o in a {
      var i :| 0 <= i < |b| && b[i] == o;
      assert i < |a| && a[i] == o;
    }
  }

  lemma AddsGood(db: Db, db': Db, j: Id)
    requires OffersGood(db) && Adds(db.offers, db'.offers, j) && IdsOnce(db'.offers)
    requires db'.assignments == db.assignments && forall x :: x in db.assignments && x.jobId == j ==> !x.status.Active?
    requires db'.events == db.events || exists e :: db'.events == db.events + [e] && !IsAnswer(e.kind)
    ensures OffersGood(db')
  {
    hide IdsOnce, NoRivals, AnsweredOnce;
    AddsRivals(db.assignments, db.offers, db'.offers, j);
    ClosedStays(db.events, db.offers, db'.offers);
    if db'.events != db.events {
      var e :| db'.events == db.events + [e] && !IsAnswer(e.kind);
      OtherEvent(db.events, db'.offers, e);
    }
  }

  /** A quoted job has nobody at work. */
  lemma QuotedIsFree(db: Db, j: Id)
    requires Inv(db) && j in db.jobs && db.jobs[j].status.Quoted?
    ensures forall x :: x in db.assignments && x.jobId == j ==> !x.status.Active?
  {
    assert Good(TallyOf(db, j));
    hide Core, Good, TallyOf;
    ActiveAgrees(db, j);
    forall x | x in db.assignments && x.jobId == j ensures !x.status.Active? {
      var i :| 0 <= i < |db.assignments| && db.assignments[i] == x;
      assert !IsActive(db, j, i);
    }
  }

  lemma FanGood(db: Db, j: Id, scope: Scope, eligible: seq<Id>, ids: seq<Id>, payout: int, expiresAt: int, now: int)
    requires Inv(db) && OffersGood(db) && |ids| == |eligible| && FreshOfferIds(db, ids)
    ensures OffersGood(Fan(db, j, scope, eligible, ids, payout, expiresAt, now).db)
  {
    hide Inv, RecordEvent, IsUuid, Visible, HasApprovedQuote, OffersGood, AddOffers;
    var e := Fan(db, j, scope, eligible, ids, payout, expiresAt, now);
    if e.reply.Done? {
      QuotedIsFree(db, j);
      assert IdsOnce(db.offers) by { IdsOf(db); }
      AddedIds(db.offers, j, eligible, ids, payout, expiresAt);
      hide IdsOnce, Adds;
      AddsGood(db, e.db, j);
    }
  }

  lemma IdsOf(db: Db)
    requires OffersGood(db)
    ensures IdsOnce(db.offers)
  {
  }

  lemma CoverGood(db: Db, j: Id, eligible: seq<Id>, ids: seq<Id>, config: SweepConfig, now: int)
    requires config.providersPerRound > 0 && |ids| >= config.providersPerRound
    requires Inv(db) && OffersGood(db) && FreshOfferIds(db, ids)
    ensures OffersGood(Cover(db, j, eligible, ids, config, now).0)
  {
    hide Inv, RecordEvent, IsUuid, OffersGood, AddOffers, AutomaticRounds, OffersFor, NextRound, CarriedPayout,
      ApprovedNet,
      ActiveIndex, AnsweredOnce, NoRivals;
    var (db', c) := Cover(db, j, eligible, ids, config, now);
    if c.Skipped? {
    } else if c.Escalated? {
      QuietGood(db, db');
    } else {
      QuotedIsFree(db, j);
      var next := NextRound(eligible, db.offers, j, config);
      IdsOf(db);
      AddedIds(db.offers, j, next, ids[..|next|],
               CarriedPayout(OffersFor(db.offers, j), ApprovedNet(db.quotes, j).value),
               now + config.offerTtlMinutes * MINUTE_MS);
      hide IdsOnce, Adds;
      AddsGood(db, db', j);
    }
  }

  /** Steps that leave offers and assignments alone and answer nothing. */
  lemma QuietGood(db: Db, db': Db)
    requires OffersGood(db) && db'.offers == db.offers && db'.assignments == db.assignments
    requires db'.events == db.events || exists e :: db'.events == db.events + [e] && !IsAnswer(e.kind)
    ensures OffersGood(db')
  {
    hide IdsOnce, NoRivals, AnsweredOnce;
    if db'.events != db.events {
      var e :| db'.events == db.events + [e] && !IsAnswer(e.kind);
      OtherEvent(db.events, db.offers, e);
    }
  }

  // --------------------------------------------------------------------- answers

  lemma DeclineGood(db: Db, id: Id, p: Id, now: int)
    requires OffersGood(db)
    ensures OffersGood(DeclineOffer(db, id, p, now).db)
  {
    var k, db' := OfferIndex(db.offers, id), DeclineOffer(db, id, p, now).db;
    hide RecordEvent, OfferIndex;
    if DeclineOffer(db, id, p, now).reply.Done? {
      var o := db.offers[k];
      var e := Event(o.jobId, OfferDeclined, None, map["offerId" := Text(o.id), "providerId" := Text(o.providerId)]);
      assert db'.offers == db.offers[k := o.(status := Declined)] && db'.events == db.events + [e];
      assert db'.assignments == db.assignments;
      hide DeclineOffer;
      AnsweredGood(db, db', k, e);
    }
  }

  /** One open offer is answered, and nobody starts to work. */
  lemma AnsweredGood(db: Db, db': Db, k: nat, e: Event)
    requires OffersGood(db) && k < |db.offers| && db.offers[k].status.Pending? && AnswersTo(e, db.offers[k])
    requires |db'.offers| == |db.offers| && !db'.offers[k].status.Pending?
    requires db'.offers == db.offers[k := db.offers[k].(status := db'.offers[k].status)]
    requires db'.events == db.events + [e] && db'.assignments == db.assignments
    ensures OffersGood(db')
  {
    assert Closing(db.offers, db'.offers);
    hide AnswersTo, AnsweredOnce, IdsOnce, NoRivals;
    ClosingKeepsIds(db.offers, db'.offers);
    ClosingKeepsRivals(db.assignments, db.offers, db'.offers);
    NewAnswer(db.events, db.offers, db'.offers, k, e);
  }

  lemma {:induction false} ExpireGood(db: Db, k: nat, now: int)
    requires OffersGood(db) && k <= |db.offers|
    ensures OffersGood(ExpireFrom(db, k, now))
    decreases |db.offers| - k
  {
    if k < |db.offers| {
      ExpireOneGood(db, k, now);
      hide OffersGood, ExpireOne;
      ExpireGood(ExpireOne(db, k, now), k + 1, now);
    }
  }

  lemma ExpireOneGood(db: Db, k: nat, now: int)
    requires OffersGood(db) && k < |db.offers|
    ensures OffersGood(ExpireOne(db, k, now))
  {
    hide RecordEvent, OffersGood;
    if Due(db.offers[k], now) {
      var o, db' := db.offers[k], ExpireOne(db, k, now);
      var e := Event(o.jobId, OfferExpired, None, map["offerId" := Text(o.id)]);
      assert db'.offers == db.offers[k := o.(status := Expired)] && db'.events == db.events + [e];
      AnsweredGood(db, db', k, e);
    }
  }

  /** An acceptance leaves no other offer of the job open. */
  lemma CommitCloses(offers: seq<Offer>, k: nat)
    requires k < |offers| && IdsOnce(offers)
    ensures var o, b := offers[k], Withdraw(offers[k := offers[k].(status := Accepted)], offers[k].jobId, offers[k].id);
      && |b| == |offers| && Closing(offers, b) && b[k] == o.(status := Accepted)
      && (forall i :: 0 <= i < |offers| && i != k ==>
            b[i] == if offers[i].jobId == o.jobId && offers[i].status.Pending? then offers[i].(status := Withdrawn)
                    else offers[i])
  {
    forall i | 0 <= i < |offers| && i != k ensures offers[i].id != offers[k].id {
      assert i < k || k < i;
    }
  }

  lemma CommitRivals(assignments: seq<Assignment>, a: Assignment, offers: seq<Offer>, b: seq<Offer>)
    requires NoRivals(assignments, offers) && Closing(offers, b) && |b| == |offers|
    requires forall i :: 0 <= i < |b| && b[i].jobId == a.jobId ==> !b[i].status.Pending?
    ensures NoRivals(assignments + [a], b)
  {
    ClosingKeepsRivals(assignments, offers, b);
    forall o | o in b && o.jobId == a.jobId ensures !o.status.Pending? {
      var i :| 0 <= i < |b| && b[i] == o;
    }
  }

  lemma CommitGoodOffers(db: Db, k: nat, now: int)
    requires OffersGood(db) && k < |db.offers| && db.offers[k].status.Pending? && db.offers[k].jobId in db.jobs
    ensures OffersGood(Commit(db, k, now))
  {
    var o, db' := db.offers[k], Commit(db, k, now);
    var a := Assignment(o.jobId, o.providerId, Active, o.payoutNetCents);
    var e := Event(o.jobId, OfferAccepted, Some(Move(db.jobs[o.jobId].status, Assigned)), CommitFields(o));
    assert db'.offers == Withdraw(db.offers[k := o.(status := Accepted)], o.jobId, o.id)
      && db'.assignments == db.assignments + [a] && db'.events == db.events + [e] by {
      hide RecordEvent, Withdraw, OffersGood;
    }
    CommitCloses(db.offers, k);
    hide Commit, Withdraw, IdsOnce, NoRivals, AnsweredOnce;
    CommitRivals(db.assignments, a, db.offers, db'.offers);
    ClosingKeepsIds(db.offers, db'.offers);
    NewAnswer(db.events, db.offers, db'.offers, k, e);
  }

  lemma RefusedGood(policy: Policy, db: Db, s: Step)
    requires OffersGood(db) && s.Accept? && AcceptOffer(db, s.offerId, s.providerId, s.now).reply.Refused?
    ensures OffersGood(Apply(policy, db, s))
  {
    var db' := Apply(policy, db, s);
    RefusedCloses(policy, db, s);
    assert db'.events == db.events by { hide Commit, ActiveIndex, OfferIndex, OneClosed; }
    hide Apply, AcceptOffer, OfferIndex, IdsOnce, NoRivals, AnsweredOnce;
    assert Closing(db.offers, db'.offers) by {
      RefusedClosing(policy, db.offers, db'.offers, OfferIndex(db.offers, s.offerId), Reaccepts(db, s));
    }
    hide OneClosed;
    ClosingKeepsIds(db.offers, db'.offers) by { SameLength(policy, db, s); }
    SameLength(policy, db, s);
    ClosingKeepsRivals(db.assignments, db.offers, db'.offers);
    ClosedStays(db.events, db.offers, db'.offers);
  }

  lemma SameLength(policy: Policy, db: Db, s: Step)
    requires s.Accept? && AcceptOffer(db, s.offerId, s.providerId, s.now).reply.Refused?
    ensures |Apply(policy, db, s).offers| == |db.offers|
  {
    hide Commit, ActiveIndex;
  }

  lemma RefusedClosing(policy: Policy, a: seq<Offer>, b: seq<Offer>, k: nat, late: bool)
    requires OneClosed(policy, a, b, k, late)
    requires k < |a| && b[k] != a[k] ==> !b[k].status.Pending?
    ensures Closing(a, b)
  {
  }

  lemma FallbackGoodOffers(db: Db, j: Id, now: int)
    requires OffersGood(db)
    ensures OffersGood(Fallback(db, j, now).db)
  {
    var e := Fallback(db, j, now);
    hide RecordEvent, CanTransition, AnsweredOnce, IdsOnce;
    if e.reply.Done? {
      var x := Event(j, AssignmentFellThrough, Some(Move(db.jobs[j].status, Quoted)),
                     map["providerId" := Text(db.assignments[ActiveIndex(db.assignments, j)].providerId)]);
      assert e.db.events == db.events + [x] && e.db.offers == db.offers;
      OtherEvent(db.events, db.offers, x);
      forall a | a in e.db.assignments && a.status.Active? ensures a in db.assignments {
        var i :| 0 <= i < |e.db.assignments| && e.db.assignments[i] == a;
        assert i < |db.assignments| && db.assignments[i] == a;
      }
    }
  }

  /** Requests that concern no offer. */
  lemma PlainGood(policy: Policy, db: Db, s: Step)
    requires OffersGood(db) && Admissible(db, s)
    requires s.SubmitJob? || s.ApproveTriage? || s.StartWork? || s.UploadEvidence? || s.CompleteJob? || s.CancelJob?
             || s.AnswerQuote?
    ensures OffersGood(Apply(policy, db, s))
  {
    hide OffersGood, RecordEvent, Visible, Holds, CanTransition, QuoteIndex;
    QuietGood(db, Apply(policy, db, s));
  }

  lemma PriceGoodOffers(db: Db, q: Quote, scope: Scope, now: int)
    requires OffersGood(db)
    ensures OffersGood(Price(db, q, scope, now).db)
  {
    hide OffersGood, RecordEvent, Visible, CanTransition;
    var mid := CreateQuote(db, q, now);
    QuietGood(db, mid);
    QuietGood(mid, TransitionJob(mid, q.jobId, scope, Quoted, JobQuoted,
                                 map["quoteId" := Text(q.id), "grossCents" := Number(q.grossCents)], now).db);
  }

  lemma StepOffers(policy: Policy, db: Db, s: Step)
    requires Inv(db) && OffersGood(db) && Admissible(db, s)
    ensures OffersGood(Apply(policy, db, s))
  {
    hide Inv, OffersGood, RecordEvent, Commit, AcceptOffer, DeclineOffer, Cover, Fan, Fallback, Price, ExpireFrom,
      RetainFrom,
      Holds, OfferIndex;
    match s
    case PriceJob(q, scope, now) => PriceGoodOffers(db, q, scope, now);
    case FanOut(j, scope, eligible, ids, payout, expiresAt, now) =>
      FanGood(db, j, scope, eligible, ids, payout, expiresAt, now);
    case Accept(id, p, now) => AcceptGood(policy, db, s);
    case Decline(id, p, now) => DeclineGood(db, id, p, now);
    case Expire(now) => ExpireGood(db, 0, now);
    case CoverJob(j, eligible, ids, config, now) => CoverGood(db, j, eligible, ids, config, now);
    case FallThrough(j, _, now) => FallbackGoodOffers(db, j, now);
    case Retain(olderThan) =>
      RetainEvolves(policy, db, 0, olderThan);
      QuietGood(db, Apply(policy, db, s));
    case _ => hide Apply, Admissible; PlainGood(policy, db, s);
  }

  lemma AcceptGood(policy: Policy, db: Db, s: Step)
    requires OffersGood(db) && s.Accept?
    ensures OffersGood(Apply(policy, db, s))
  {
    hide OffersGood, Commit;
    if AcceptOffer(db, s.offerId, s.providerId, s.now).reply.Done? {
      CommitGoodOffers(db, OfferIndex(db.offers, s.offerId), s.now);
    } else {
      hide AcceptOffer, Apply;
      RefusedGood(policy, db, s);
    }
  }

  lemma {:induction false} RunOffers(policy: Policy, db: Db, steps: seq<Step>)
    requires Inv(db) && OffersGood(db) && Lawful(policy, db, steps)
    ensures OffersGood(Run(policy, db, steps))
    decreases |steps|
  {
    hide Inv, OffersGood, Apply, Admissible;
    if steps != [] {
      StepOffers(policy, db, steps[0]);
      StepKeeps(policy, db, steps[0]);
      RunOffers(policy, Apply(policy, db, steps[0]), steps[1..]);
    }
  }

  lemma ReachableOffers(policy: Policy, steps: seq<Step>)
    requires Lawful(policy, EMPTY, steps)
    ensures OffersGood(Run(policy, EMPTY, steps))
  {
    EmptyInv();
    hide Inv, Run, Lawful;
    RunOffers(policy, EMPTY, steps);
  }

  // ---------------------------------------------------------------- main results

  /** However requests interleave, a job somebody works on has no open offer, so nobody can ever
      accept it a second time; and no two offers share an id. */
  lemma NobodyElseIsAsked(policy: Policy, steps: seq<Step>, a: Assignment, o: Offer)
    requires Lawful(policy, EMPTY, steps)
    requires var db := Run(policy, EMPTY, steps);
      a in db.assignments && a.status.Active? && o in db.offers && o.jobId == a.jobId
    ensures !o.status.Pending?
  {
    hide Run, Lawful, IdsOnce, AnsweredOnce;
    ReachableOffers(policy, steps);
  }

  /** In every run each offer is answered at most once, by an acceptance, a decline or its
      expiry, and an answered offer is closed. */
  lemma OneAnswerPerOffer(policy: Policy, steps: seq<Step>, p: nat, q: nat)
    requires Lawful(policy, EMPTY, steps)
    requires var events := Run(policy, EMPTY, steps).events;
      p < q < |events| && IsAnswer(events[p].kind) && IsAnswer(events[q].kind)
    ensures var events, offers := Run(policy, EMPTY, steps).events, Run(policy, EMPTY, steps).offers;
      && !SameAnswer(events[p], events[q])
      && exists o :: o in offers && AnswersTo(events[p], o) && !o.status.Pending?
  {
    hide Run, Lawful, IdsOnce, NoRivals, AnswersTo, SameAnswer;
    ReachableOffers(policy, steps);
    assert Run(policy, EMPTY, steps).events[p] in Run(policy, EMPTY, steps).events;
  }
}
