/** Which requests are granted, what a granted one does, and that a refused one does next to nothing. */
module Requests {
  import opened Contracts
  import opened Counting
  import opened OutboxKeys
  import opened Db
  import opened Dispatch
  import opened Machine
  import opened Tallies
  import opened Invariants
  import opened Preservation
  import opened Evolution
  import opened Runs
  import opened Sweep
  import opened Answers

  // -------------------------------------------------------------------- who may ask

  /** Staff see every job, a customer those of its organisation, a provider those it was ever
      assigned to. */
  ghost predicate Sees(db: Db, j: Id, scope: Scope) {
    && j in db.jobs
    && match scope
       case Staff => true
       case Organization(o) => db.jobs[j].organizationId == o
       case Provider(p) => exists a :: a in db.assignments && a.jobId == j && a.providerId == p
  }

  /** Staff, or the provider at work on the job now. */
  ghost predicate Holder(db: Db, j: Id, scope: Scope) {
    match scope
    case Staff => true
    case Organization(_) => false
    case Provider(p) => exists a :: a in db.assignments && a.jobId == j && a.status.Active? && a.providerId == p
  }

  ghost predicate FirstQuote(quotes: seq<Quote>, id: Id, k: int) {
    0 <= k < |quotes| && quotes[k].id == id && forall i :: 0 <= i < k ==> quotes[i].id != id
  }

  ghost predicate FirstOffer(offers: seq<Offer>, id: Id, k: int) {
    0 <= k < |offers| && offers[k].id == id && forall i :: 0 <= i < k ==> offers[i].id != id
  }

  ghost predicate Decidable(q: Quote, scope: Scope) {
    q.status.Sent? && (scope.Staff? || scope == Organization(q.organizationId))
  }

  ghost predicate Acceptable(db: Db, k: int, p: Id, now: int)
    requires 0 <= k < |db.offers|
  {
    var o := db.offers[k];
    && o.providerId == p && o.status.Pending? && now < o.expiresAt
    && o.jobId in db.jobs && db.jobs[o.jobId].status.Quoted?
  }

  predicate Cancellable(status: JobStatus) {
    status.Draft? || status.Triaged? || status.Quoted? || status.Assigned?
  }

  /** What every request demands. */
  ghost predicate Granted(db: Db, s: Step) {
    match s
    case ApproveTriage(j, scope, _) => Sees(db, j, scope) && db.jobs[j].status.Draft?
    case PriceJob(q, scope, _) => Sees(db, q.jobId, scope) && db.jobs[q.jobId].status.Triaged?
    case AnswerQuote(id, scope, _, now) =>
      exists k :: FirstQuote(db.quotes, id, k) && Decidable(db.quotes[k], scope) && now < db.quotes[k].validUntil
    case FanOut(j, scope, eligible, _, _, _, _) =>
      && Sees(db, j, scope) && db.jobs[j].status.Quoted? && eligible != []
      && exists q :: q in db.quotes && q.jobId == j && q.status.Approved?
    case Accept(id, p, now) => exists k :: FirstOffer(db.offers, id, k) && Acceptable(db, k, p, now)
    case Decline(id, p, _) =>
      exists k :: FirstOffer(db.offers, id, k) && db.offers[k].providerId == p && db.offers[k].status.Pending?
    case FallThrough(j, scope, _) =>
      j in db.jobs && Holder(db, j, scope) && (db.jobs[j].status.Assigned? || db.jobs[j].status.InProgress?)
    case StartWork(j, scope, _) => j in db.jobs && Holder(db, j, scope) && db.jobs[j].status.Assigned?
    case UploadEvidence(j, _) => j in db.jobs
    case CompleteJob(j, scope, uploaded, _) =>
      j in db.jobs && Holder(db, j, scope) && db.jobs[j].status.InProgress? && uploaded >= 1
    case CancelJob(j, scope, _) =>
      Sees(db, j, scope) && Cancellable(db.jobs[j].status)
    case _ => true
  }

  // ------------------------------------------------------- granted means answered Done

  lemma SeesVisible(db: Db, j: Id, scope: Scope)
    ensures Sees(db, j, scope) <==> j in db.jobs && Visible(db, j, scope)
  {
  }

  /** The first active assignment is the only one. */
  lemma HolderHolds(db: Db, j: Id, scope: Scope)
    requires Inv(db) && j in db.jobs
    ensures Holder(db, j, scope) <==> Holds(db, j, scope)
  {
    hide Inv, ActiveIndex;
    if scope.Provider? {
      var k := ActiveIndex(db.assignments, j);
      if Holder(db, j, scope) { OnlyHolder(db, j, scope.providerId); }
      if k < |db.assignments| { assert db.assignments[k] in db.assignments; }
    }
  }

  lemma OnlyHolder(db: Db, j: Id, p: Id)
    requires Inv(db) && j in db.jobs
    requires exists a :: a in db.assignments && a.jobId == j && a.status.Active? && a.providerId == p
    ensures var k := ActiveIndex(db.assignments, j); k < |db.assignments| && db.assignments[k].providerId == p
  {
    var a :| a in db.assignments && a.jobId == j && a.status.Active? && a.providerId == p;
    var i :| 0 <= i < |db.assignments| && db.assignments[i] == a;
    var k := ActiveIndex(db.assignments, j);
    assert k <= i;
    OneAtWork(db, j);
    hide Inv;
    assert IsActive(db, j, i) && IsActive(db, j, k);
  }

  lemma OneAtWork(db: Db, j: Id)
    requires Inv(db) && j in db.jobs
    ensures forall a, b :: IsActive(db, j, a) && IsActive(db, j, b) ==> a == b
    ensures Underway(db.jobs[j].status) ==> exists a :: IsActive(db, j, a)
    ensures Unassigned(db.jobs[j].status) ==> !exists a :: IsActive(db, j, a)
  {
    assert Good(TallyOf(db, j));
    hide Core, Good, TallyOf, IsActive;
    ActiveAgrees(db, j);
  }

  /** Who is at work on a job sees it. */
  lemma HolderSees(db: Db, j: Id, scope: Scope)
    requires j in db.jobs && Holder(db, j, scope)
    ensures Sees(db, j, scope)
  {
  }

  lemma AtWork(db: Db, j: Id)
    requires Inv(db) && j in db.jobs
    ensures Underway(db.jobs[j].status) ==> ActiveIndex(db.assignments, j) < |db.assignments|
    ensures Unassigned(db.jobs[j].status) ==> ActiveIndex(db.assignments, j) == |db.assignments|
  {
    OneAtWork(db, j);
    hide Inv, Underway, Unassigned;
    var k := ActiveIndex(db.assignments, j);
    if k < |db.assignments| { assert IsActive(db, j, k); }
  }

  lemma DecideIff(db: Db, id: Id, scope: Scope, approve: bool, now: int)
    requires Refs(db)
    ensures DecideQuote(db, id, scope, approve, now).reply.Done? <==> Granted(db, AnswerQuote(id, scope, approve, now))
  {
    hide RecordEvent, IsUuid, WellKeyed;
    var k := QuoteIndex(db.quotes, id);
    if k < |db.quotes| {
      assert db.quotes[k] in db.quotes && FirstQuote(db.quotes, id, k);
      assert forall i :: FirstQuote(db.quotes, id, i) ==> i == k;
    }
    hide Refs, FirstQuote, QuoteIndex;
  }

  lemma AcceptIff(db: Db, id: Id, p: Id, now: int)
    requires var k := OfferIndex(db.offers, id);
      k < |db.offers| && db.offers[k].jobId in db.jobs && db.jobs[db.offers[k].jobId].status.Quoted? ==>
        ActiveIndex(db.assignments, db.offers[k].jobId) == |db.assignments|
    ensures AcceptOffer(db, id, p, now).reply.Done? <==> Granted(db, Accept(id, p, now))
  {
    var k := OfferIndex(db.offers, id);
    hide Commit, ActiveIndex, CanTransition;
    if k < |db.offers| {
      assert FirstOffer(db.offers, id, k);
      assert forall i :: FirstOffer(db.offers, id, i) ==> i == k;
      if db.offers[k].jobId in db.jobs { Edges(db.jobs[db.offers[k].jobId].status); }
    }
    hide FirstOffer, OfferIndex;
  }

  lemma DeclineIff(db: Db, id: Id, p: Id, now: int)
    ensures DeclineOffer(db, id, p, now).reply.Done? <==> Granted(db, Decline(id, p, now))
  {
    var k := OfferIndex(db.offers, id);
    hide RecordEvent;
    if k < |db.offers| {
      assert FirstOffer(db.offers, id, k);
      assert forall i :: FirstOffer(db.offers, id, i) ==> i == k;
    }
    hide FirstOffer, OfferIndex;
  }

  lemma OfferedFree(db: Db, id: Id)
    requires Inv(db)
    ensures var k := OfferIndex(db.offers, id);
      k < |db.offers| && db.offers[k].jobId in db.jobs && db.jobs[db.offers[k].jobId].status.Quoted? ==>
        ActiveIndex(db.assignments, db.offers[k].jobId) == |db.assignments|
  {
    var k := OfferIndex(db.offers, id);
    hide Inv, ActiveIndex;
    if k < |db.offers| && db.offers[k].jobId in db.jobs { AtWork(db, db.offers[k].jobId); }
  }

  lemma MoveIff(db: Db, j: Id, scope: Scope, to: JobStatus, kind: EventType, fields: map<string, Part>, now: int)
    ensures TransitionJob(db, j, scope, to, kind, fields, now).reply.Done? <==>
            Sees(db, j, scope) && CanTransition(db.jobs[j].status, to)
    ensures Sees(db, j, scope) ==> j in db.jobs
  {
    SeesVisible(db, j, scope);
    hide MoveJob, Visible, Sees;
  }

  /** What the legal edges come to, status by status. */
  lemma Edges(from: JobStatus)
    ensures CanTransition(from, Triaged) <==> from.Draft?
    ensures CanTransition(from, Quoted) <==> from.Triaged? || from.Assigned? || from.InProgress?
    ensures CanTransition(from, Assigned) <==> from.Quoted?
    ensures CanTransition(from, InProgress) <==> from.Assigned?
    ensures CanTransition(from, Completed) <==> from.InProgress?
    ensures CanTransition(from, Cancelled) <==> Cancellable(from)
    ensures !CanTransition(from, Draft)
  {
  }

  /** The holder's requests, given who holds the job. */
  lemma HeldIff(db: Db, s: Step)
    requires s.FallThrough? || s.StartWork? || s.CompleteJob?
    requires s.jobId in db.jobs ==>
      && (Holder(db, s.jobId, s.scope) <==> Holds(db, s.jobId, s.scope))
      && (Holder(db, s.jobId, s.scope) ==> Visible(db, s.jobId, s.scope))
      && (Underway(db.jobs[s.jobId].status) ==> ActiveIndex(db.assignments, s.jobId) < |db.assignments|)
      && (Unassigned(db.jobs[s.jobId].status) ==> ActiveIndex(db.assignments, s.jobId) == |db.assignments|)
    ensures Perform(db, s).reply.Done? <==> Granted(db, s)
  {
    if s.jobId in db.jobs { Edges(db.jobs[s.jobId].status); }
    hide CanTransition, MoveJob, ActiveIndex, Holds, Holder, Sees, Visible;
  }

  lemma HolderMovesIff(db: Db, s: Step)
    requires Inv(db) && (s.FallThrough? || s.StartWork? || s.CompleteJob?)
    ensures Perform(db, s).reply.Done? <==> Granted(db, s)
  {
    var j := s.jobId;
    hide Inv, CanTransition, ActiveIndex, Holds, Holder, Sees, Visible, Perform, Granted, Underway, Unassigned;
    SeesVisible(db, j, s.scope);
    if j in db.jobs {
      HolderHolds(db, j, s.scope);
      AtWork(db, j);
      if Holder(db, j, s.scope) { HolderSees(db, j, s.scope); }
    }
    HeldIff(db, s);
  }

  /** A request is answered Done exactly if it is granted. */
  lemma GrantedIff(db: Db, s: Step)
    requires Inv(db) && Admissible(db, s)
    ensures Perform(db, s).reply.Done? <==> Granted(db, s)
  {
    hide Inv, Visible, Sees, Holder, Holds, CanTransition, RecordEvent, FreshOfferIds, AddOffers, MoveJob, DecideQuote,
      AcceptOffer, DeclineOffer, Fallback, Cover;
    match s
    case ApproveTriage(j, scope, now) =>
      MoveIff(db, j, scope, Triaged, TriageApproved, map[], now);
      if j in db.jobs { Edges(db.jobs[j].status); }
    case CancelJob(j, scope, now) =>
      MoveIff(db, j, scope, Cancelled, JobCancelled, map[], now);
      if j in db.jobs { Edges(db.jobs[j].status); }
    case PriceJob(q, scope, now) => PriceIff(db, q, scope, now);
    case AnswerQuote(id, scope, approve, now) => RefsIn(db); DecideIff(db, id, scope, approve, now);
    case FanOut(j, scope, _, _, _, _, _) => SeesVisible(db, j, scope);
    case Accept(id, p, now) => OfferedFree(db, id); AcceptIff(db, id, p, now);
    case Decline(id, p, now) => DeclineIff(db, id, p, now);
    case FallThrough(_, _, _) => HolderMovesIff(db, s);
    case StartWork(_, _, _) => HolderMovesIff(db, s);
    case CompleteJob(_, _, _, _) => HolderMovesIff(db, s);
    case _ =>
  }

  lemma RefsIn(db: Db)
    requires Inv(db)
    ensures Refs(db)
  {
  }

  lemma PriceIff(db: Db, q: Quote, scope: Scope, now: int)
    ensures Price(db, q, scope, now).reply.Done? <==> Sees(db, q.jobId, scope) && db.jobs[q.jobId].status.Triaged?
  {
    SeesVisible(db, q.jobId, scope);
    hide MoveJob, RecordEvent;
  }

  // ----------------------------------------------------------- what a granted one does

  /** The job changes its status and nothing else, and no other job changes. */
  predicate Moved(db: Db, db': Db, j: Id, to: JobStatus)
    requires j in db.jobs
  {
    db'.jobs == db.jobs[j := db.jobs[j].(status := to)]
  }

  /** The offer at k is won: its provider is at work at its payout, and every other open offer of the
      job is withdrawn. */
  ghost predicate Won(db: Db, db': Db, k: int)
    requires 0 <= k < |db.offers| && db.offers[k].jobId in db.jobs
  {
    var o := db.offers[k];
    && Moved(db, db', o.jobId, Assigned) && db'.quotes == db.quotes
    && db'.assignments == db.assignments + [Assignment(o.jobId, o.providerId, Active, o.payoutNetCents)]
    && |db'.offers| == |db.offers| && db'.offers[k] == o.(status := Accepted)
    && (forall i :: 0 <= i < |db.offers| && i != k ==>
          db'.offers[i] == if db.offers[i].jobId == o.jobId && db.offers[i].status.Pending?
                           then db.offers[i].(status := Withdrawn) else db.offers[i])
  }

  /** The provider at work drops out. */
  ghost predicate Released(db: Db, db': Db, j: Id) {
    exists k :: 0 <= k < |db.assignments| && db.assignments[k].jobId == j && db.assignments[k].status.Active?
                && db'.assignments == db.assignments[k := db.assignments[k].(status := FellThrough)]
  }

  predicate SameDeals(db: Db, db': Db) { db'.offers == db.offers && db'.assignments == db.assignments }

  /** What each request does to jobs, quotes, offers and assignments. */
  ghost predicate Does(db: Db, s: Step, db': Db)
    requires Granted(db, s)
  {
    match s
    case SubmitJob(id, org, now) =>
      db'.jobs == db.jobs[id := Job(org, Draft, now)] && db'.quotes == db.quotes && SameDeals(db, db')
    case ApproveTriage(j, _, _) => Moved(db, db', j, Triaged) && db'.quotes == db.quotes && SameDeals(db, db')
    case PriceJob(q, _, _) => Moved(db, db', q.jobId, Quoted) && db'.quotes == db.quotes + [q] && SameDeals(db, db')
    case AnswerQuote(id, _, approve, _) =>
      && db'.jobs == db.jobs && SameDeals(db, db')
      && exists k :: FirstQuote(db.quotes, id, k) &&
           db'.quotes == db.quotes[k := db.quotes[k].(status := if approve then Approved else Rejected)]
    case FanOut(j, _, _, _, _, _, _) =>
      && db'.jobs == db.jobs && db'.quotes == db.quotes && db'.assignments == db.assignments
      && Adds(db.offers, db'.offers, j)
    case Accept(id, p, now) =>
      exists k :: FirstOffer(db.offers, id, k) && Acceptable(db, k, p, now) && Won(db, db', k)
    case Decline(id, _, _) =>
      && db'.jobs == db.jobs && db'.quotes == db.quotes && db'.assignments == db.assignments
      && exists k :: FirstOffer(db.offers, id, k) && db'.offers == db.offers[k := db.offers[k].(status := Declined)]
    case FallThrough(j, _, _) =>
      Moved(db, db', j, Quoted) && db'.quotes == db.quotes && db'.offers == db.offers && Released(db, db', j)
    case StartWork(j, _, _) => Moved(db, db', j, InProgress) && db'.quotes == db.quotes && SameDeals(db, db')
    case UploadEvidence(_, _) => db'.jobs == db.jobs && db'.quotes == db.quotes && SameDeals(db, db')
    case CompleteJob(j, _, _, _) => Moved(db, db', j, Completed) && db'.quotes == db.quotes && SameDeals(db, db')
    case CancelJob(j, _, _) => Moved(db, db', j, Cancelled) && db'.quotes == db.quotes && SameDeals(db, db')
    case Expire(now) =>
      && db'.jobs == db.jobs && db'.quotes == db.quotes && db'.assignments == db.assignments
      && TimesOut(db.offers, db'.offers, now)
    case CoverJob(j, _, _, _, _) =>
      && db'.jobs == db.jobs && db'.quotes == db.quotes && db'.assignments == db.assignments
      && Adds(db.offers, db'.offers, j)
    case Retain(_) => db'.jobs == db.jobs && db'.quotes == db.quotes && SameDeals(db, db')
  }

  /** The open offers whose deadline has come are expired, the others as they were. */
  ghost predicate TimesOut(a: seq<Offer>, b: seq<Offer>, now: int) {
    && |b| == |a|
    && forall i :: 0 <= i < |a| ==>
         b[i] == if a[i].status.Pending? && a[i].expiresAt <= now then a[i].(status := Expired) else a[i]
  }

  lemma AcceptDoes(policy: Policy, db: Db, id: Id, p: Id, now: int)
    requires OffersGood(db) && Granted(db, Accept(id, p, now)) && AcceptOffer(db, id, p, now).reply.Done?
    ensures Does(db, Accept(id, p, now), Apply(policy, db, Accept(id, p, now)))
  {
    var k, db' := OfferIndex(db.offers, id), AcceptOffer(db, id, p, now).db;
    assert FirstOffer(db.offers, id, k);
    assert forall i :: FirstOffer(db.offers, id, i) ==> i == k;
    IdsOf(db);
    hide OffersGood, IdsOnce, OfferIndex, FirstOffer, CanTransition;
    CommitCloses(db.offers, k);
    CommitDoes(db, k, now) by { hide Closing; }
    hide Commit, Withdraw, Closing, ActiveIndex;
    assert Won(db, db', k);
  }

  lemma CommitDoes(db: Db, k: nat, now: int)
    requires k < |db.offers| && db.offers[k].jobId in db.jobs
    ensures var o, db' := db.offers[k], Commit(db, k, now);
      && Moved(db, db', o.jobId, Assigned) && db'.quotes == db.quotes
      && db'.assignments == db.assignments + [Assignment(o.jobId, o.providerId, Active, o.payoutNetCents)]
      && db'.offers == Withdraw(db.offers[k := o.(status := Accepted)], o.jobId, o.id)
  {
    hide RecordEvent, Withdraw;
  }

  lemma DeclineDoes(policy: Policy, db: Db, id: Id, p: Id, now: int)
    requires Granted(db, Decline(id, p, now)) && DeclineOffer(db, id, p, now).reply.Done?
    ensures Does(db, Decline(id, p, now), Apply(policy, db, Decline(id, p, now)))
  {
    var k := OfferIndex(db.offers, id);
    assert FirstOffer(db.offers, id, k);
    hide RecordEvent, OfferIndex, FirstOffer;
  }

  lemma DecideDoes(policy: Policy, db: Db, id: Id, scope: Scope, approve: bool, now: int)
    requires Granted(db, AnswerQuote(id, scope, approve, now)) && DecideQuote(db, id, scope, approve, now).reply.Done?
    ensures Does(db, AnswerQuote(id, scope, approve, now), Apply(policy, db, AnswerQuote(id, scope, approve, now)))
  {
    var k := QuoteIndex(db.quotes, id);
    assert FirstQuote(db.quotes, id, k);
    hide RecordEvent, QuoteIndex, FirstQuote, Visible;
  }

  lemma FallDoes(policy: Policy, db: Db, j: Id, scope: Scope, now: int)
    requires Granted(db, FallThrough(j, scope, now)) && Perform(db, FallThrough(j, scope, now)).reply.Done?
    ensures Does(db, FallThrough(j, scope, now), Apply(policy, db, FallThrough(j, scope, now)))
  {
    hide RecordEvent, CanTransition, Holds;
    var k := ActiveIndex(db.assignments, j);
    assert Fallback(db, j, now).db.assignments == db.assignments[k := db.assignments[k].(status := FellThrough)];
  }

  lemma PlainDoes(policy: Policy, db: Db, s: Step)
    requires Admissible(db, s) && Granted(db, s) && Perform(db, s).reply.Done?
    requires s.SubmitJob? || s.ApproveTriage? || s.PriceJob? || s.StartWork? || s.UploadEvidence? || s.CompleteJob?
             || s.CancelJob?
    ensures Does(db, s, Apply(policy, db, s))
  {
    hide RecordEvent, Visible, Holds, CanTransition, Sees, Holder;
  }

  lemma FanDoes(policy: Policy, db: Db, s: Step)
    requires s.FanOut? && Admissible(db, s) && Granted(db, s) && Perform(db, s).reply.Done?
    ensures Does(db, s, Apply(policy, db, s))
  {
    AddedRound(db.offers, s.jobId, s.eligible, s.ids, s.payout, s.expiresAt);
    hide RecordEvent, Visible, AddOffers, HasApprovedQuote, FreshOfferIds, Sees;
    var r := AddOffers(db.offers, s.jobId, s.eligible, s.ids, s.payout, s.expiresAt);
    assert db.offers <= r by { assert r[..|db.offers|] == db.offers; }
  }

  /** A granted request does exactly this to jobs, quotes, offers and assignments. */
  lemma GrantedDoes(policy: Policy, db: Db, s: Step)
    requires Inv(db) && OffersGood(db) && Admissible(db, s) && Granted(db, s)
    ensures Does(db, s, Apply(policy, db, s))
  {
    GrantedIff(db, s);
    DoneParts(db, s);
    hide Inv, OffersGood, Granted, Does, AcceptOffer, DeclineOffer, DecideQuote, Perform, Apply, Admissible;
    match s
    case AnswerQuote(id, scope, approve, now) => DecideDoes(policy, db, id, scope, approve, now);
    case Accept(id, p, now) => AcceptDoes(policy, db, id, p, now);
    case Decline(id, p, now) => DeclineDoes(policy, db, id, p, now);
    case FanOut(_, _, _, _, _, _, _) => FanDoes(policy, db, s);
    case FallThrough(j, scope, now) => FallDoes(policy, db, j, scope, now);
    case Expire(_) => OtherDoes(policy, db, s);
    case CoverJob(_, _, _, _, _) => OtherDoes(policy, db, s);
    case Retain(_) => OtherDoes(policy, db, s);
    case _ => PlainDoes(policy, db, s);
  }

  lemma DoneParts(db: Db, s: Step)
    requires Admissible(db, s)
    ensures s.Accept? ==> Perform(db, s) == AcceptOffer(db, s.offerId, s.providerId, s.now)
    ensures s.Decline? ==> Perform(db, s) == DeclineOffer(db, s.offerId, s.providerId, s.now)
    ensures s.AnswerQuote? ==> Perform(db, s) == DecideQuote(db, s.quoteId, s.scope, s.approve, s.now)
  {
    hide AcceptOffer, DeclineOffer, DecideQuote;
  }

  lemma OtherDoes(policy: Policy, db: Db, s: Step)
    requires Admissible(db, s) && (s.Expire? || s.CoverJob? || s.Retain?)
    ensures Granted(db, s) && Does(db, s, Apply(policy, db, s))
  {
    hide ExpireFrom, Cover, RetainFrom, FreshOfferIds;
    match s
    case Expire(now) => ExpiryEffect(db, 0, now);
    case Retain(olderThan) => RetainEvolves(policy, db, 0, olderThan);
    case CoverJob(j, eligible, ids, config, now) => CoverEffect(db, j, eligible, ids, config, now);
  }

  // ------------------------------------------------------------ what a refused one does

  /** The one thing a refused request can leave behind, and only where refusals keep their
      writes: a quote or an offer whose time is over is marked so. */
  ghost predicate Marks(db: Db, s: Step, db': Db) {
    match s
    case AnswerQuote(id, scope, _, now) =>
      exists k :: FirstQuote(db.quotes, id, k) && Decidable(db.quotes[k], scope) && db.quotes[k].validUntil <= now
                  && db' == db.(quotes := db.quotes[k := db.quotes[k].(status := Lapsed)])
    case Accept(id, p, now) =>
      exists k :: FirstOffer(db.offers, id, k) && db.offers[k].providerId == p && db.offers[k].expiresAt <= now
                  && db' == db.(offers := db.offers[k := db.offers[k].(status := Expired)])
    case _ => false
  }

  lemma DecideRefused(db: Db, id: Id, scope: Scope, approve: bool, now: int)
    requires Refs(db) && !Granted(db, AnswerQuote(id, scope, approve, now))
    ensures var db' := DecideQuote(db, id, scope, approve, now).db;
      db' == db || Marks(db, AnswerQuote(id, scope, approve, now), db')
  {
    DecideIff(db, id, scope, approve, now);
    hide RecordEvent, IsUuid, WellKeyed;
    var k := QuoteIndex(db.quotes, id);
    if k < |db.quotes| { assert db.quotes[k] in db.quotes && FirstQuote(db.quotes, id, k); }
    hide Refs, FirstQuote, QuoteIndex, Granted;
  }

  /** An open offer has nobody at work on its job. */
  lemma OpenIsFree(db: Db, id: Id)
    requires OffersGood(db)
    ensures var k := OfferIndex(db.offers, id);
      k < |db.offers| && db.offers[k].status.Pending? ==>
        ActiveIndex(db.assignments, db.offers[k].jobId) == |db.assignments|
  {
    hide IdsOnce, AnsweredOnce;
    var k := OfferIndex(db.offers, id);
    if k < |db.offers| {
      var i := ActiveIndex(db.assignments, db.offers[k].jobId);
      assert db.offers[k] in db.offers;
      if i < |db.assignments| { assert db.assignments[i] in db.assignments; }
    }
  }

  lemma LateOrNothing(db: Db, id: Id, p: Id, now: int)
    requires AcceptOffer(db, id, p, now).reply.Refused?
    requires var k := OfferIndex(db.offers, id);
      k < |db.offers| && db.offers[k].status.Pending? ==>
        ActiveIndex(db.assignments, db.offers[k].jobId) == |db.assignments|
    ensures var db' := AcceptOffer(db, id, p, now).db; db' == db || Marks(db, Accept(id, p, now), db')
  {
    var k := OfferIndex(db.offers, id);
    hide ActiveIndex, Commit, CanTransition;
    if k < |db.offers| {
      assert FirstOffer(db.offers, id, k);
      if db.offers[k].status.Expired? {
        assert db.offers[k := db.offers[k].(status := Expired)] == db.offers;
      }
    }
    hide FirstOffer, OfferIndex;
  }

  lemma AcceptRefused(db: Db, id: Id, p: Id, now: int)
    requires Inv(db) && OffersGood(db) && !Granted(db, Accept(id, p, now))
    ensures var db' := AcceptOffer(db, id, p, now).db; db' == db || Marks(db, Accept(id, p, now), db')
  {
    hide Inv, OffersGood, Granted, Marks, AcceptOffer, OfferIndex, ActiveIndex;
    OfferedFree(db, id);
    AcceptIff(db, id, p, now);
    OpenIsFree(db, id);
    LateOrNothing(db, id, p, now);
  }

  /** The holder's and the plain requests refuse without a trace. */
  lemma PlainRefused(db: Db, s: Step)
    requires Admissible(db, s) && Perform(db, s).reply.Refused? && !s.Accept? && !s.AnswerQuote? && !s.PriceJob?
    ensures Perform(db, s).db == db
  {
    hide RecordEvent, Visible, Holds, CanTransition, AddOffers, HasApprovedQuote, FreshOfferIds, Sees, ActiveIndex,
      OfferIndex;
  }

  /** A request that is not granted is refused and, but for such a mark, changes nothing at all. */
  lemma RefusedDoes(policy: Policy, db: Db, s: Step)
    requires Inv(db) && OffersGood(db) && Admissible(db, s) && !Granted(db, s)
    ensures Perform(db, s).reply.Refused?
    ensures Apply(policy, db, s) == db || (policy.KeepsWrites? && Marks(db, s, Apply(policy, db, s)))
  {
    GrantedIff(db, s);
    RefsIn(db);
    DoneParts(db, s);
    hide Inv, Refs, OffersGood, Granted, Marks, AcceptOffer, DecideQuote, Perform, Admissible;
    match s
    case AnswerQuote(id, scope, approve, now) => DecideRefused(db, id, scope, approve, now);
    case Accept(id, p, now) => AcceptRefused(db, id, p, now);
    case PriceJob(q, scope, now) => PriceRefused(db, q, scope, now);
    case _ => PlainRefused(db, s);
  }

  lemma PriceRefused(db: Db, q: Quote, scope: Scope, now: int)
    requires Admissible(db, PriceJob(q, scope, now)) && !Granted(db, PriceJob(q, scope, now))
    ensures Perform(db, PriceJob(q, scope, now)).db == db
  {
    SeesVisible(db, q.jobId, scope);
    hide RecordEvent, Visible, Sees;
  }

  /** So completing a job without evidence is refused, whoever asks, and changes nothing. */
  lemma NoEvidenceNoCompletion(policy: Policy, db: Db, j: Id, scope: Scope, now: int)
    requires Inv(db) && OffersGood(db)
    ensures Perform(db, CompleteJob(j, scope, 0, now)).reply.Refused?
    ensures Apply(policy, db, CompleteJob(j, scope, 0, now)) == db
  {
    hide Inv, OffersGood, Perform, Apply;
    RefusedDoes(policy, db, CompleteJob(j, scope, 0, now));
  }

  // ---------------------------------------------------------------- main results

  /** In every reachable state: a request is answered Done exactly if it is granted, then does exactly
      what it should to jobs, quotes, offers and assignments, and otherwise changes nothing
      but perhaps a mark that a quote's or an offer's time is over. */
  lemma RequestsDecided(policy: Policy, before: seq<Step>, s: Step)
    requires Lawful(policy, EMPTY, before) && Admissible(Run(policy, EMPTY, before), s)
    ensures var db := Run(policy, EMPTY, before);
      && (Perform(db, s).reply.Done? <==> Granted(db, s))
      && (Granted(db, s) ==> Does(db, s, Apply(policy, db, s)))
      && (!Granted(db, s) ==>
            Apply(policy, db, s) == db || (policy.KeepsWrites? && Marks(db, s, Apply(policy, db, s))))
  {
    var db := Run(policy, EMPTY, before);
    ReachableInv(policy, before);
    ReachableOffers(policy, before);
    hide Run, Lawful, Inv, OffersGood, Granted, Does, Marks, Perform, Apply, Admissible;
    GrantedIff(db, s);
    if Granted(db, s) { GrantedDoes(policy, db, s); } else { RefusedDoes(policy, db, s); }
  }

  /** Nothing about this job has changed, and nothing was added to it. */
  ghost predicate LeftAlone(db: Db, db': Db, j: Id) {
    && (j in db.jobs ==> j in db'.jobs && db'.jobs[j] == db.jobs[j])
    && |db.quotes| <= |db'.quotes| && |db.offers| <= |db'.offers| && |db.assignments| <= |db'.assignments|
    && (forall i :: 0 <= i < |db.quotes| && db.quotes[i].jobId == j ==> db'.quotes[i] == db.quotes[i])
    && (forall i :: |db.quotes| <= i < |db'.quotes| ==> db'.quotes[i].jobId != j)
    && (forall i :: 0 <= i < |db.offers| && db.offers[i].jobId == j ==> db'.offers[i] == db.offers[i])
    && (forall i :: |db.offers| <= i < |db'.offers| ==> db'.offers[i].jobId != j)
    && (forall i :: 0 <= i < |db.assignments| && db.assignments[i].jobId == j ==>
          db'.assignments[i] == db.assignments[i])
    && (forall i :: |db.assignments| <= i < |db'.assignments| ==> db'.assignments[i].jobId != j)
  }

  /** Is this job none of the caller's business? */
  ghost predicate Foreign(db: Db, s: Step, j: Id) {
    match s
    case ApproveTriage(_, scope, _) => !Sees(db, j, scope)
    case PriceJob(_, scope, _) => !Sees(db, j, scope)
    case AnswerQuote(_, scope, _, _) => !Sees(db, j, scope)
    case FanOut(_, scope, _, _, _, _, _) => !Sees(db, j, scope)
    case FallThrough(_, scope, _) => !Holder(db, j, scope)
    case StartWork(_, scope, _) => !Holder(db, j, scope)
    case CompleteJob(_, scope, _, _) => !Holder(db, j, scope)
    case CancelJob(_, scope, _) => !Sees(db, j, scope)
    case Accept(_, p, _) => forall o :: o in db.offers && o.jobId == j ==> o.providerId != p
    case Decline(_, p, _) => forall o :: o in db.offers && o.jobId == j ==> o.providerId != p
    case _ => false
  }

  lemma OfferForeign(db: Db, s: Step, j: Id, db': Db)
    requires (s.Accept? || s.Decline?) && Granted(db, s) && Does(db, s, db') && j in db.jobs && Foreign(db, s, j)
    ensures LeftAlone(db, db', j)
  {
    if s.Accept? {
      var k :| FirstOffer(db.offers, s.offerId, k) && Acceptable(db, k, s.providerId, s.now) && Won(db, db', k);
      assert db.offers[k] in db.offers;
    } else {
      var k :| FirstOffer(db.offers, s.offerId, k) && db.offers[k].providerId == s.providerId
               && db.offers[k].status.Pending?;
      assert db.offers[k] in db.offers;
    }
  }

  lemma QuoteForeign(db: Db, s: Step, j: Id, db': Db)
    requires Refs(db) && s.AnswerQuote? && Granted(db, s) && Does(db, s, db') && j in db.jobs && Foreign(db, s, j)
    ensures LeftAlone(db, db', j)
  {
    var k :| FirstQuote(db.quotes, s.quoteId, k) && Decidable(db.quotes[k], s.scope) && s.now < db.quotes[k].validUntil;
    OwnQuote(db, k, s.scope);
    hide Refs, Sees;
  }

  lemma DoneForeign(db: Db, s: Step, j: Id, db': Db)
    requires Refs(db) && Granted(db, s) && Does(db, s, db') && j in db.jobs && Foreign(db, s, j)
    ensures LeftAlone(db, db', j)
  {
    hide Refs, Sees, Holder;
    if s.AnswerQuote? {
      hide Granted, Does, Foreign, LeftAlone;
      QuoteForeign(db, s, j, db');
    } else if s.Accept? || s.Decline? {
      hide Granted, Does, Foreign, LeftAlone;
      OfferForeign(db, s, j, db');
    }
  }

  lemma OwnQuote(db: Db, k: nat, scope: Scope)
    requires Refs(db) && k < |db.quotes| && Decidable(db.quotes[k], scope)
    ensures Sees(db, db.quotes[k].jobId, scope)
  {
    assert db.quotes[k] in db.quotes;
    hide IsUuid, WellKeyed;
  }

  lemma MarkForeign(db: Db, s: Step, j: Id, db': Db)
    requires Refs(db) && Marks(db, s, db') && j in db.jobs && Foreign(db, s, j)
    ensures LeftAlone(db, db', j)
  {
    match s
    case AnswerQuote(id, scope, approve, now) =>
      var k :| FirstQuote(db.quotes, id, k) && Decidable(db.quotes[k], scope) && db.quotes[k].validUntil <= now
               && db' == db.(quotes := db.quotes[k := db.quotes[k].(status := Lapsed)]);
      OwnQuote(db, k, scope);
      hide Refs, Sees;
    case Accept(id, p, now) =>
      var k :| FirstOffer(db.offers, id, k) && db.offers[k].providerId == p && db.offers[k].expiresAt <= now
               && db' == db.(offers := db.offers[k := db.offers[k].(status := Expired)]);
      assert db.offers[k] in db.offers;
      hide Refs;
  }

  /** In every reachable state a request leaves alone every job that is none of its caller's business:
      a customer touches jobs of its own organisation only, a provider works on, completes and
      gives back only the job it holds now and answers only its own offers. */
  lemma StaysInScope(policy: Policy, before: seq<Step>, s: Step, j: Id)
    requires Lawful(policy, EMPTY, before) && Admissible(Run(policy, EMPTY, before), s)
    requires j in Run(policy, EMPTY, before).jobs && Foreign(Run(policy, EMPTY, before), s, j)
    ensures LeftAlone(Run(policy, EMPTY, before), Apply(policy, Run(policy, EMPTY, before), s), j)
  {
    var db := Run(policy, EMPTY, before);
    RequestsDecided(policy, before, s);
    ReachableInv(policy, before);
    RefsIn(db);
    hide Run, Lawful, Inv, Granted, Does, Marks, Perform, Apply, Admissible, Foreign, Refs;
    var db' := Apply(policy, db, s);
    if Granted(db, s) { DoneForeign(db, s, j, db'); }
    else if db' != db { MarkForeign(db, s, j, db'); }
  }
}
