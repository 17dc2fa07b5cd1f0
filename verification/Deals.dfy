/** Which offers became agreements, and how a late second acceptance undoes the record of one. */
module Deals {
  import opened Contracts
  import opened Counting
  import opened OutboxKeys
  import opened Db
  import opened Dispatch
  import opened Machine
  import opened Tallies
  import opened Invariants
  import opened Preservation
  import opened Evolution
  import opened Sweep

  predicate Matches(o: Offer, a: Assignment) {
    o.jobId == a.jobId && o.providerId == a.providerId && o.payoutNetCents == a.payoutNetCents
  }

  ghost predicate Offered(offers: seq<Offer>, a: Assignment) {
    exists i :: 0 <= i < |offers| && Matches(offers[i], a)
  }

  /** The offer was accepted once. */
  ghost predicate Engaged(assignments: seq<Assignment>, o: Offer) {
    exists k :: 0 <= k < |assignments| && Matches(o, assignments[k])
  }

  /** The request that overwrites an agreement: its own provider accepts an accepted offer
      again after the deadline.  It is refused, but where refusals keep their
      writes the offer is marked expired first. */
  predicate Reaccepts(db: Db, s: Step) {
    s.Accept? &&
    var k := OfferIndex(db.offers, s.offerId);
    k < |db.offers| && db.offers[k].providerId == s.providerId
    && db.offers[k].status.Accepted? && db.offers[k].expiresAt <= s.now
  }

  predicate LateReaccept(policy: Policy, db: Db, s: Step) {
    policy.KeepsWrites? && Reaccepts(db, s)
  }

  /** The positions of the offers that were accepted again too late. */
  function LateAfter(policy: Policy, db: Db, s: Step, late: set<nat>): set<nat> {
    if LateReaccept(policy, db, s) then late + {OfferIndex(db.offers, s.offerId)} else late
  }

  /** Every assignment has its offer, and an offer reads accepted exactly if it became an
      assignment and was not accepted again too late. */
  ghost predicate Agreed(db: Db, late: set<nat>) {
    && (forall a :: a in db.assignments ==> Offered(db.offers, a))
    && (forall i :: 0 <= i < |db.offers| ==>
          (db.offers[i].status.Accepted? <==> Engaged(db.assignments, db.offers[i]) && i !in late))
    && (forall i :: i in late ==> i < |db.offers| && db.offers[i].status.Expired?
                                  && Engaged(db.assignments, db.offers[i]))
  }

  // ------------------------------------------------- steps that accept nothing

  /** Nobody's acceptance was given or taken away on the jobs in question. */
  ghost predicate SameAccepted(a: seq<Offer>, b: seq<Offer>) {
    && |a| <= |b|
    && (forall i :: 0 <= i < |a| ==>
          && b[i] == a[i].(status := b[i].status)
          && (a[i].status.Accepted? <==> b[i].status.Accepted?)
          && (a[i].status.Expired? ==> b[i].status.Expired?))
    && (forall i :: |a| <= i < |b| ==> b[i].status.Pending?)
  }

  ghost predicate SameAssigned(a: seq<Assignment>, b: seq<Assignment>) {
    |a| == |b| && forall i :: 0 <= i < |a| ==> b[i] == a[i].(status := b[i].status)
  }

  lemma {:induction false} ExpireAccepts(db: Db, k: nat, now: int)
    requires k <= |db.offers|
    ensures SameAccepted(db.offers, ExpireFrom(db, k, now).offers)
      && ExpireFrom(db, k, now).assignments == db.assignments
    decreases |db.offers| - k
  {
    if k < |db.offers| { ExpireAccepts(ExpireOne(db, k, now), k + 1, now); }
  }

  lemma {:induction false} AddedPending(offers: seq<Offer>, j: Id, providers: seq<Id>, ids: seq<Id>, payout: int,
                                        expiresAt: int)
    requires |ids| == |providers|
    ensures SameAccepted(offers, AddOffers(offers, j, providers, ids, payout, expiresAt))
    decreases |providers|
  {
    if providers == [] {
    } else if HasOffer(offers, j, providers[0]) {
      AddedPending(offers, j, providers[1..], ids[1..], payout, expiresAt);
    } else {
      AddedPending(offers + [Offer(ids[0], j, providers[0], Pending, payout, expiresAt)], j, providers[1..], ids[1..],
                   payout, expiresAt);
    }
  }

  lemma CoverAccepts(db: Db, j: Id, eligible: seq<Id>, ids: seq<Id>, config: SweepConfig, now: int)
    requires config.providersPerRound > 0 && |ids| >= config.providersPerRound
    ensures var db' := Cover(db, j, eligible, ids, config, now).0;
      SameAccepted(db.offers, db'.offers) && db'.assignments == db.assignments
  {
    hide CarriedPayout, ApprovedNet, OffersFor;
    CoverEffect(db, j, eligible, ids, config, now);
    hide Cover;
  }

  ghost predicate SameDeal(a: Db, b: Db) {
    SameAccepted(a.offers, b.offers) && SameAssigned(a.assignments, b.assignments)
  }

  lemma UntouchedDeal(a: Db, b: Db)
    requires a.offers == b.offers && a.assignments == b.assignments
    ensures SameDeal(a, b)
  {
  }

  lemma DeclineDeal(db: Db, id: Id, p: Id, now: int)
    ensures SameDeal(db, DeclineOffer(db, id, p, now).db)
  {
    hide RecordEvent;
  }

  lemma FallbackDeal(db: Db, j: Id, now: int)
    ensures SameDeal(db, Fallback(db, j, now).db)
  {
    hide RecordEvent, CanTransition;
  }

  lemma FanDeal(db: Db, j: Id, scope: Scope, eligible: seq<Id>, ids: seq<Id>, payout: int, expiresAt: int, now: int)
    requires |ids| == |eligible|
    ensures SameDeal(db, Fan(db, j, scope, eligible, ids, payout, expiresAt, now).db)
  {
    UntouchedDeal(db, db);
    AddedPending(db.offers, j, eligible, ids, payout, expiresAt);
    hide RecordEvent, AddOffers, Visible, HasApprovedQuote, SameAccepted;
  }

  lemma DecideDeal(db: Db, id: Id, scope: Scope, approve: bool, now: int)
    ensures SameDeal(db, DecideQuote(db, id, scope, approve, now).db)
  {
    hide RecordEvent, SameDeal, Visible;
    UntouchedDeal(db, DecideQuote(db, id, scope, approve, now).db);
  }

  /** Moving a job, pricing it and noting something leave offers and assignments alone. */
  lemma OtherDeal(policy: Policy, db: Db, s: Step)
    requires Admissible(db, s)
    requires s.SubmitJob? || s.ApproveTriage? || s.PriceJob? || s.StartWork? || s.UploadEvidence? || s.CompleteJob?
             || s.CancelJob?
    ensures SameDeal(db, Apply(policy, db, s))
  {
    hide RecordEvent, SameDeal, Visible, Holds, CanTransition;
    UntouchedDeal(db, Apply(policy, db, s));
  }

  /** No step but an acceptance changes what is accepted. */
  lemma OnlyAcceptAccepts(policy: Policy, db: Db, s: Step)
    requires Admissible(db, s) && !s.Accept?
    ensures SameDeal(db, Apply(policy, db, s))
  {
    UntouchedDeal(db, db);
    match s
    case Expire(now) => ExpireAccepts(db, 0, now); hide ExpireFrom;
    case Retain(olderThan) =>
      RetainEvolves(policy, db, 0, olderThan);
      UntouchedDeal(db, RunRetention(db, olderThan));
      hide SameDeal, RetainFrom;
    case FanOut(j, scope, eligible, ids, payout, expiresAt, now) =>
      hide Fan, SameDeal;
      FanDeal(db, j, scope, eligible, ids, payout, expiresAt, now);
    case CoverJob(j, eligible, ids, config, now) => CoverAccepts(db, j, eligible, ids, config, now); hide Cover;
    case Decline(id, p, now) => hide SameDeal, DeclineOffer; DeclineDeal(db, id, p, now);
    case FallThrough(j, _, now) => hide SameDeal, Fallback, Holds; FallbackDeal(db, j, now);
    case AnswerQuote(id, scope, approve, now) => hide SameDeal, DecideQuote; DecideDeal(db, id, scope, approve, now);
    case _ => hide SameDeal, Apply, Admissible; OtherDeal(policy, db, s);
  }

  // ------------------------------------------------------------ what steps keep

  /** An offer that has just been made was not accepted yet. */
  lemma NewIsNotEngaged(db: Db, db': Db, i: nat)
    requires forall a :: a in db.assignments ==> Offered(db.offers, a)
    requires SameDeal(db, db') && AskedOnce(db'.offers) && |db.offers| <= i < |db'.offers|
    ensures !Engaged(db'.assignments, db'.offers[i])
  {
    forall k | 0 <= k < |db'.assignments| ensures !Matches(db'.offers[i], db'.assignments[k]) {
      assert db.assignments[k] in db.assignments;
      var n :| 0 <= n < |db.offers| && Matches(db.offers[n], db.assignments[k]);
      assert !SameTarget(db'.offers[n], db'.offers[i]);
    }
  }

  lemma SameEngaged(db: Db, db': Db, i: nat)
    requires SameAssigned(db.assignments, db'.assignments) && i < |db.offers| <= |db'.offers|
    requires db'.offers[i] == db.offers[i].(status := db'.offers[i].status)
    ensures Engaged(db'.assignments, db'.offers[i]) <==> Engaged(db.assignments, db.offers[i])
  {
    if Engaged(db.assignments, db.offers[i]) {
      var k :| 0 <= k < |db.assignments| && Matches(db.offers[i], db.assignments[k]);
      assert Matches(db'.offers[i], db'.assignments[k]);
    }
    if Engaged(db'.assignments, db'.offers[i]) {
      var k :| 0 <= k < |db'.assignments| && Matches(db'.offers[i], db'.assignments[k]);
      assert Matches(db.offers[i], db.assignments[k]);
    }
  }

  lemma SameOffered(db: Db, db': Db)
    requires forall a :: a in db.assignments ==> Offered(db.offers, a)
    requires SameAssigned(db.assignments, db'.assignments) && |db.offers| <= |db'.offers|
    requires forall i :: 0 <= i < |db.offers| ==> db'.offers[i] == db.offers[i].(status := db'.offers[i].status)
    ensures forall a :: a in db'.assignments ==> Offered(db'.offers, a)
  {
    forall a | a in db'.assignments ensures Offered(db'.offers, a) {
      var k :| 0 <= k < |db'.assignments| && db'.assignments[k] == a;
      assert db.assignments[k] in db.assignments;
      var i :| 0 <= i < |db.offers| && Matches(db.offers[i], db.assignments[k]);
      assert Matches(db'.offers[i], a);
    }
  }

  lemma SameAgreed(db: Db, db': Db, late: set<nat>)
    requires Agreed(db, late) && SameDeal(db, db') && AskedOnce(db'.offers)
    ensures Agreed(db', late)
  {
    SameOffered(db, db');
    hide Offered, Engaged, AskedOnce;
    forall i | 0 <= i < |db'.offers|
      ensures db'.offers[i].status.Accepted? <==> Engaged(db'.assignments, db'.offers[i]) && i !in late
    {
      if i < |db.offers| { SameEngaged(db, db', i); } else { NewIsNotEngaged(db, db', i); }
    }
  }

  /** What a refused acceptance does to the offers: at most one is closed. */
  ghost predicate OneClosed(policy: Policy, a: seq<Offer>, b: seq<Offer>, k: nat, lateOne: bool) {
    && |a| == |b| && (b != a ==> policy.KeepsWrites? && k < |a|)
    && (forall i :: 0 <= i < |a| && i != k ==> b[i] == a[i])
    && (k < |a| ==>
          && b[k] == a[k].(status := b[k].status) && !(b[k].status.Accepted? && b[k] != a[k])
          && (a[k].status.Accepted? && b[k] != a[k] ==> lateOne && b[k].status.Expired?)
          && (lateOne && policy.KeepsWrites? ==> b[k].status.Expired?)
          && (a[k].status.Expired? ==> b[k].status.Expired?))
  }

  lemma RefusedCloses(policy: Policy, db: Db, s: Step)
    requires s.Accept? && AcceptOffer(db, s.offerId, s.providerId, s.now).reply.Refused?
    ensures var db' := Apply(policy, db, s);
      && db'.assignments == db.assignments
      && OneClosed(policy, db.offers, db'.offers, OfferIndex(db.offers, s.offerId), Reaccepts(db, s))
  {
    hide Commit, ActiveIndex, OfferIndex;
  }

  lemma RefusedAgreed(policy: Policy, db: Db, s: Step, late: set<nat>)
    requires Agreed(db, late) && s.Accept? && AcceptOffer(db, s.offerId, s.providerId, s.now).reply.Refused?
    ensures Agreed(Apply(policy, db, s), LateAfter(policy, db, s, late))
  {
    var db' := Apply(policy, db, s);
    var k, late' := OfferIndex(db.offers, s.offerId), LateAfter(policy, db, s, late);
    RefusedCloses(policy, db, s);
    hide Apply, AcceptOffer;
    SameOffered(db, db');
    hide Offered, Engaged, OfferIndex;
    forall i | 0 <= i < |db'.offers|
      ensures db'.offers[i].status.Accepted? <==> Engaged(db'.assignments, db'.offers[i]) && i !in late'
    {
      SameEngaged(db, db', i);
    }
  }

  lemma CommitAgreed(db: Db, k: nat, now: int, late: set<nat>)
    requires Agreed(db, late) && k < |db.offers| && db.offers[k].jobId in db.jobs && db.offers[k].status.Pending?
    requires AskedOnce(db.offers)
    ensures Agreed(Commit(db, k, now), late)
  {
    var offer, db' := db.offers[k], Commit(db, k, now);
    var a := Assignment(offer.jobId, offer.providerId, Active, offer.payoutNetCents);
    var won := db.offers[k := offer.(status := Accepted)];
    assert db'.assignments == db.assignments + [a] && db'.offers == Withdraw(won, offer.jobId, offer.id) by {
      hide RecordEvent;
    }
    hide Commit;
    forall x | x in db'.assignments ensures Offered(db'.offers, x) {
      if x == a {
        assert Matches(db'.offers[k], a);
      } else {
        var i :| 0 <= i < |db.offers| && Matches(db.offers[i], x);
        assert Matches(db'.offers[i], x);
      }
    }
    forall i | 0 <= i < |db'.offers|
      ensures db'.offers[i].status.Accepted? <==> Engaged(db'.assignments, db'.offers[i]) && i !in late
    {
      NewlyEngaged(db.offers, db.assignments, k, a, db'.offers[i], i);
    }
    forall i | i in late ensures db'.offers[i].status.Expired? && Engaged(db'.assignments, db'.offers[i]) {
      NewlyEngaged(db.offers, db.assignments, k, a, db'.offers[i], i);
    }
  }

  /** Adding the assignment of offer k engages that offer and no other. */
  lemma NewlyEngaged(offers: seq<Offer>, assignments: seq<Assignment>, k: nat, a: Assignment, o: Offer, i: nat)
    requires AskedOnce(offers) && k < |offers| && i < |offers| && Matches(offers[k], a)
    requires o == offers[i].(status := o.status)
    ensures Engaged(assignments + [a], o) <==> i == k || Engaged(assignments, offers[i])
  {
    var all := assignments + [a];
    if i == k {
      assert Matches(o, all[|assignments|]);
    } else {
      assert !SameTarget(offers[if i < k then i else k], offers[if i < k then k else i]);
      assert !Matches(o, a);
      if Engaged(assignments, offers[i]) {
        var n :| 0 <= n < |assignments| && Matches(offers[i], assignments[n]);
        assert Matches(o, all[n]);
      }
      if Engaged(all, o) {
        var n :| 0 <= n < |all| && Matches(o, all[n]);
        assert Matches(offers[i], assignments[n]);
      }
    }
  }

  lemma StepAgreed(policy: Policy, db: Db, s: Step, late: set<nat>)
    requires Agreed(db, late) && Admissible(db, s) && AskedOnce(db.offers) && AskedOnce(Apply(policy, db, s).offers)
    ensures Agreed(Apply(policy, db, s), LateAfter(policy, db, s, late))
  {
    hide Agreed, AskedOnce;
    if s.Accept? {
      if AcceptOffer(db, s.offerId, s.providerId, s.now).reply.Done? {
        CommitAgreed(db, OfferIndex(db.offers, s.offerId), s.now, late) by { hide Commit; }
        hide Commit;
      } else {
        hide AcceptOffer, Apply, LateAfter;
        RefusedAgreed(policy, db, s, late);
      }
    } else {
      hide Apply, Admissible;
      OnlyAcceptAccepts(policy, db, s);
      SameAgreed(db, Apply(policy, db, s), late);
    }
  }
}
