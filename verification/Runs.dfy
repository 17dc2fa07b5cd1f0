/** The protocol over whole runs: any interleaving of any number of steps. */
module Runs {
  import opened Contracts
  import opened Counting
  import opened OutboxKeys
  import opened Db
  import opened Dispatch
  import opened Machine
  import opened Tallies
  import opened Invariants
  import opened Preservation
  import opened Evolution

  predicate Lawful(policy: Policy, db: Db, steps: seq<Step>)
    decreases |steps|
  {
    steps == [] ||
    (Admissible(db, steps[0]) && Lawful(policy, Apply(policy, db, steps[0]), steps[1..]))
  }

  function Run(policy: Policy, db: Db, steps: seq<Step>): Db
    requires Lawful(policy, db, steps)
    decreases |steps|
  {
    if steps == [] then db else Run(policy, Apply(policy, db, steps[0]), steps[1..])
  }

  lemma {:induction false} RunKeeps(policy: Policy, db: Db, steps: seq<Step>)
    requires Inv(db) && Lawful(policy, db, steps)
    ensures Inv(Run(policy, db, steps))
    decreases |steps|
  {
    hide Inv, Apply, Admissible;
    if steps != [] {
      StepKeeps(policy, db, steps[0]);
      RunKeeps(policy, Apply(policy, db, steps[0]), steps[1..]);
    }
  }

  lemma {:induction false} RunEvolves(policy: Policy, db: Db, steps: seq<Step>)
    requires Lawful(policy, db, steps)
    ensures Evolves(policy, db, Run(policy, db, steps))
    decreases |steps|
  {
    hide Apply, Admissible, Evolves;
    if steps == [] {
      EvolvesReflexive(policy, db);
    } else {
      var db1 := Apply(policy, db, steps[0]);
      StepEvolves(policy, db, steps[0]);
      RunEvolves(policy, db1, steps[1..]);
      EvolvesTransitive(policy, db, db1, Run(policy, db1, steps[1..]));
    }
  }

  lemma ReachableInv(policy: Policy, steps: seq<Step>)
    requires Lawful(policy, EMPTY, steps)
    ensures Inv(Run(policy, EMPTY, steps))
  {
    EmptyInv();
    hide Inv;
    RunKeeps(policy, EMPTY, steps);
  }

  // ------------------------------------------------------------------ history

  /** The event log is a faithful history: it replays without gaps, along legal
      edges, to the stored status, and acceptances minus fall-throughs is the
      number of active assignments, which is 0 or 1. */
  lemma FaithfulHistory(policy: Policy, steps: seq<Step>, j: Id)
    requires Lawful(policy, EMPTY, steps)
    requires j in Run(policy, EMPTY, steps).jobs
    ensures var db := Run(policy, EMPTY, steps);
      && Replay(db.events, j) == Some(db.jobs[j].status)
      && Count(db.events, KindOf(j, OfferAccepted)) - Count(db.events, KindOf(j, AssignmentFellThrough))
         == Count(db.assignments, ActiveOn(j)) <= 1
  {
    ReachableInv(policy, steps);
    var db := Run(policy, EMPTY, steps);
    hide Core, Run;
    assert Good(TallyOf(db, j));
  }

  /** Nothing that was recorded is ever rewritten, reopened or undone. */
  lemma HistoryIsAppendOnly(policy: Policy, before: seq<Step>, after: seq<Step>)
    requires Lawful(policy, EMPTY, before)
    requires Lawful(policy, Run(policy, EMPTY, before), after)
    ensures Evolves(policy, Run(policy, EMPTY, before), Run(policy, Run(policy, EMPTY, before), after))
  {
    hide Evolves;
    RunEvolves(policy, Run(policy, EMPTY, before), after);
  }

  // -------------------------------------------------------------- assignments

  predicate Underway(s: JobStatus) { s.Assigned? || s.InProgress? || s.Completed? }
  predicate Unassigned(s: JobStatus) { s.Draft? || s.Triaged? || s.Quoted? }

  predicate IsActive(db: Db, j: Id, a: int) {
    0 <= a < |db.assignments| && db.assignments[a].jobId == j && db.assignments[a].status.Active?
  }

  lemma ActiveAgrees(db: Db, j: Id)
    requires j in db.jobs && Good(TallyOf(db, j))
    ensures forall a, b :: IsActive(db, j, a) && IsActive(db, j, b) ==> a == b
    ensures Underway(db.jobs[j].status) ==> exists a :: IsActive(db, j, a)
    ensures Unassigned(db.jobs[j].status) ==> !exists a :: IsActive(db, j, a)
  {
    var t := TallyOf(db, j);
    assert t.status == db.jobs[j].status by { StatusOf(db, j); }
    assert t.active == Count(db.assignments, ActiveOn(j)) && t.active <= 1;
    assert Underway(t.status) ==> t.active == 1;
    assert Unassigned(t.status) ==> t.active == 0;
    hide TallyOf, Good, Count, Underway, Unassigned;
    forall a, b | IsActive(db, j, a) && IsActive(db, j, b) ensures a == b {
      CountUnique(db.assignments, a, b, ActiveOn(j));
    }
    if t.active >= 1 {
      var a := CountWitness(db.assignments, ActiveOn(j));
      assert IsActive(db, j, a);
    } else { CountNone(db.assignments, ActiveOn(j)); }
  }

  /** However accepts, declines, expiries, sweeps and fall-throughs interleave, a
      job never has two active assignments, and its status says whether it has one. */
  lemma OneActiveAssignment(policy: Policy, steps: seq<Step>, j: Id)
    requires Lawful(policy, EMPTY, steps)
    requires j in Run(policy, EMPTY, steps).jobs
    ensures var db := Run(policy, EMPTY, steps);
      && (forall a, b :: IsActive(db, j, a) && IsActive(db, j, b) ==> a == b)
      && (Underway(db.jobs[j].status) ==> exists a :: IsActive(db, j, a))
      && (Unassigned(db.jobs[j].status) ==> !exists a :: IsActive(db, j, a))
  {
    ReachableInv(policy, steps);
    hide Core, Run, Lawful, IsActive, Good, TallyOf;
    ActiveAgrees(Run(policy, EMPTY, steps), j);
  }

  // ------------------------------------------------------------------- finite

  function AskedProviders(offers: seq<Offer>, j: Id): set<Id> {
    set o | o in offers && o.jobId == j :: o.providerId
  }

  lemma {:induction false} DistinctProviders(offers: seq<Offer>, j: Id)
    requires AskedOnce(offers)
    ensures Count(offers, OfferedOn(j)) == |AskedProviders(offers, j)|
  {
    if offers != [] {
      var n := |offers| - 1;
      var o, init := offers[n], offers[..n];
      assert AskedOnce(init) by {
        forall a, b | 0 <= a < b < |init| ensures !SameTarget(init[a], init[b]) {
          assert !SameTarget(offers[a], offers[b]);
        }
      }
      DistinctProviders(init, j);
      assert offers == init + [o];
      if o.jobId == j {
        assert AskedProviders(offers, j) == AskedProviders(init, j) + {o.providerId};
        assert o.providerId !in AskedProviders(init, j) by {
          forall i | 0 <= i < n ensures !(init[i].jobId == j && init[i].providerId == o.providerId) {
            assert !SameTarget(offers[i], offers[n]);
          }
        }
      } else {
        assert AskedProviders(offers, j) == AskedProviders(init, j);
      }
    }
  }

  /** A job's life is finite although its states form a cycle: asked of P
      distinct providers, it changes status at most 3 + 3P times. */
  lemma FiniteLife(policy: Policy, steps: seq<Step>, j: Id)
    requires Lawful(policy, EMPTY, steps)
    requires j in Run(policy, EMPTY, steps).jobs
    ensures var db := Run(policy, EMPTY, steps);
      Count(db.events, MovesOf(j)) <= 3 + 3 * |AskedProviders(db.offers, j)|
  {
    ReachableInv(policy, steps);
    var db := Run(policy, EMPTY, steps);
    hide Run, OutboxOk, Refs;
    assert Good(TallyOf(db, j));
    hide JobsGood;
    DistinctProviders(db.offers, j);
  }

  /** A provider is never asked twice about the same job, however many rounds there are. */
  lemma OneOfferPerProvider(policy: Policy, steps: seq<Step>, a: nat, b: nat)
    requires Lawful(policy, EMPTY, steps)
    requires var os := Run(policy, EMPTY, steps).offers; a < |os| && b < |os| && SameTarget(os[a], os[b])
    ensures a == b
  {
    ReachableInv(policy, steps);
    hide Run, OutboxOk, Refs, JobsGood;
    assert AskedOnce(Run(policy, EMPTY, steps).offers);
  }

  // ------------------------------------------------------------------- pricing

  /** Something was offered or assigned on the job, or it is at Assigned or beyond. */
  ghost predicate Dispatched(db: Db, j: Id)
    requires j in db.jobs
  {
    || Underway(db.jobs[j].status)
    || (exists i :: 0 <= i < |db.offers| && db.offers[i].jobId == j)
    || (exists i :: 0 <= i < |db.assignments| && db.assignments[i].jobId == j)
  }

  /** Exactly one quote is on the job, and it is approved. */
  ghost predicate Priced(db: Db, j: Id) {
    exists k :: 0 <= k < |db.quotes| && db.quotes[k].jobId == j && db.quotes[k].status.Approved?
             && forall i :: 0 <= i < |db.quotes| && db.quotes[i].jobId == j ==> i == k
  }

  lemma DispatchedIsPriced(db: Db, j: Id)
    requires j in db.jobs && Good(TallyOf(db, j)) && Dispatched(db, j)
    ensures Priced(db, j)
  {
    var t := TallyOf(db, j);
    StatusOf(db, j);
    if i :| 0 <= i < |db.offers| && db.offers[i].jobId == j { CountSome(db.offers, i, OfferedOn(j)); }
    if i :| 0 <= i < |db.assignments| && db.assignments[i].jobId == j { CountSome(db.assignments, i, EngagedOn(j)); }
    assert t.approved == Count(db.quotes, ApprovedFor(j)) == 1 && t.quotes == Count(db.quotes, QuotedFor(j)) <= 1;
    hide TallyOf, Good, Count, Dispatched;
    var k := CountWitness(db.quotes, ApprovedFor(j));
    forall i | 0 <= i < |db.quotes| && db.quotes[i].jobId == j ensures i == k {
      CountUnique(db.quotes, i, k, QuotedFor(j));
    }
  }

  /** No job is dispatched without a price the customer agreed to. */
  lemma PricedBeforeDispatch(policy: Policy, steps: seq<Step>, j: Id)
    requires Lawful(policy, EMPTY, steps)
    requires j in Run(policy, EMPTY, steps).jobs && Dispatched(Run(policy, EMPTY, steps), j)
    ensures Priced(Run(policy, EMPTY, steps), j)
  {
    ReachableInv(policy, steps);
    hide Core, Run, Lawful, Good, TallyOf, Dispatched, Priced;
    DispatchedIsPriced(Run(policy, EMPTY, steps), j);
  }

  lemma QuoteHasJob(db: Db, i: nat)
    requires Inv(db) && i < |db.quotes|
    ensures db.quotes[i].jobId in db.jobs
  {
    assert db.quotes[i] in db.quotes;
  }

  predicate Unapproved(q: Quote, j: Id) {
    q.jobId == j && !q.status.Approved?
  }

  /** A job with an unapproved quote is stuck: it can only be Quoted or Cancelled. */
  lemma Stuck(db: Db, i: nat, j: Id)
    requires Inv(db) && j in db.jobs && i < |db.quotes| && Unapproved(db.quotes[i], j)
    ensures db.jobs[j].status.Quoted? || db.jobs[j].status.Cancelled?
  {
    hide Core;
    assert Good(TallyOf(db, j));
    hide JobsGood, Inv;
    CountSome(db.quotes, i, QuotedFor(j));
    if Count(db.quotes, ApprovedFor(j)) >= 1 {
      var k := CountWitness(db.quotes, ApprovedFor(j));
      CountUnique(db.quotes, i, k, QuotedFor(j));
    }
  }

  /** A job whose quote was rejected, or found lapsed, never gets past Quoted,
      whatever happens afterwards. */
  lemma RefusedQuoteStopsJob(policy: Policy, before: seq<Step>, after: seq<Step>, i: nat)
    requires Lawful(policy, EMPTY, before) && Lawful(policy, Run(policy, EMPTY, before), after)
    requires var db := Run(policy, EMPTY, before);
      i < |db.quotes| && (db.quotes[i].status.Rejected? || db.quotes[i].status.Lapsed?)
    ensures var j, db := Run(policy, EMPTY, before).quotes[i].jobId, Run(policy, Run(policy, EMPTY, before), after);
      j in db.jobs && (db.jobs[j].status.Quoted? || db.jobs[j].status.Cancelled?)
  {
    var db := Run(policy, EMPTY, before);
    ReachableInv(policy, before);
    assert db.quotes[i] in db.quotes;
    var j := db.quotes[i].jobId;
    assert j in db.jobs;
    hide Inv;
    RunKeeps(policy, db, after);
    RunEvolves(policy, db, after);
    Stuck(Run(policy, db, after), i, j);
  }

  lemma {:induction false} ExpireLeavesQuotes(db: Db, k: nat, now: int)
    requires k <= |db.offers|
    ensures ExpireFrom(db, k, now).quotes == db.quotes
    decreases |db.offers| - k
  {
    if k < |db.offers| { ExpireLeavesQuotes(ExpireOne(db, k, now), k + 1, now); }
  }

  lemma CoverLeavesQuotes(db: Db, j: Id, eligible: seq<Id>, ids: seq<Id>, config: SweepConfig, now: int)
    requires config.providersPerRound > 0 && |ids| >= config.providersPerRound
    ensures Cover(db, j, eligible, ids, config, now).0.quotes == db.quotes
  {
    hide RecordEvent, AutomaticRounds, NextRound, OffersFor, CarriedPayout, ApprovedNet, ActiveIndex, AddOffers;
  }

  lemma AcceptLeavesQuotes(db: Db, id: Id, p: Id, now: int)
    ensures AcceptOffer(db, id, p, now).db.quotes == db.quotes
  {
    hide RecordEvent, ActiveIndex, OfferIndex, Withdraw;
  }

  /** Quotes are written by pricing and by answering alone. */
  lemma OthersLeaveQuotes(policy: Policy, db: Db, s: Step)
    requires Admissible(db, s) && !s.PriceJob? && !s.AnswerQuote?
    ensures Apply(policy, db, s).quotes == db.quotes
  {
    hide RecordEvent, Visible, RetainFrom, ExpireFrom, FreshOfferIds, Cover, Holds, AddOffers, ActiveIndex, OfferIndex,
      AcceptOffer,
      HasApprovedQuote;
    match s
    case Expire(now) => ExpireLeavesQuotes(db, 0, now);
    case Retain(olderThan) => RetainEvolves(policy, db, 0, olderThan);
    case CoverJob(j, eligible, ids, config, now) => CoverLeavesQuotes(db, j, eligible, ids, config, now);
    case Accept(id, p, now) => AcceptLeavesQuotes(db, id, p, now);
    case _ =>
  }

  /** Only an answer changes a quote, and only before the quote lapses can it be approved. */
  lemma OnlyAnsweredInTime(policy: Policy, db: Db, s: Step, i: nat)
    requires Admissible(db, s) && i < |db.quotes| && !db.quotes[i].status.Approved?
    requires s.AnswerQuote? ==> db.quotes[i].validUntil <= s.now
    ensures i < |Apply(policy, db, s).quotes|
      && Apply(policy, db, s).quotes[i] == db.quotes[i].(status := Apply(policy, db, s).quotes[i].status)
    ensures !Apply(policy, db, s).quotes[i].status.Approved?
  {
    if s.PriceJob? || s.AnswerQuote? {
      hide RecordEvent, Visible, CanTransition;
    } else {
      hide Apply, Admissible;
      OthersLeaveQuotes(policy, db, s);
    }
  }

  lemma {:induction false} LapsedRun(policy: Policy, db: Db, steps: seq<Step>, i: nat)
    requires Inv(db) && Lawful(policy, db, steps)
    requires i < |db.quotes| && !db.quotes[i].status.Approved?
    requires forall s :: s in steps && s.AnswerQuote? ==> db.quotes[i].validUntil <= s.now
    ensures var j, end := db.quotes[i].jobId, Run(policy, db, steps);
      j in end.jobs && (end.jobs[j].status.Quoted? || end.jobs[j].status.Cancelled?)
    decreases |steps|
  {
    hide Inv, Apply, Admissible;
    if steps == [] {
      QuoteHasJob(db, i);
      Stuck(db, i, db.quotes[i].jobId);
    } else {
      StepKeeps(policy, db, steps[0]);
      OnlyAnsweredInTime(policy, db, steps[0], i);
      LapsedRun(policy, Apply(policy, db, steps[0]), steps[1..], i);
    }
  }

  /** The same for a quote that lapsed undecided: once its time is over, no continuation in
      which every answer comes at or after that time moves the job past Quoted. */
  lemma LapsedQuoteStopsJob(policy: Policy, before: seq<Step>, after: seq<Step>, i: nat)
    requires Lawful(policy, EMPTY, before) && Lawful(policy, Run(policy, EMPTY, before), after)
    requires var db := Run(policy, EMPTY, before); i < |db.quotes| && !db.quotes[i].status.Approved?
    requires forall s :: s in after && s.AnswerQuote? ==> Run(policy, EMPTY, before).quotes[i].validUntil <= s.now
    ensures var j, end := Run(policy, EMPTY, before).quotes[i].jobId, Run(policy, Run(policy, EMPTY, before), after);
      j in end.jobs && (end.jobs[j].status.Quoted? || end.jobs[j].status.Cancelled?)
  {
    hide Inv, Run, Lawful;
    ReachableInv(policy, before);
    LapsedRun(policy, Run(policy, EMPTY, before), after, i);
  }
}
