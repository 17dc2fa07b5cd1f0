/** The dispatch sweep: expire what nobody answered, then cover what that left uncovered. */
module Sweep {
  import opened Contracts
  import opened Counting
  import opened OutboxKeys
  import opened Db
  import opened Dispatch
  import opened Machine
  import opened Tallies
  import opened Invariants
  import opened Preservation
  import opened Evolution
  import opened Runs

  /** What a sweep is given from outside: who is eligible for a job, best first, and new ids. */
  datatype Supply = Supply(ranked: Id -> seq<Id>, ids: Id -> seq<Id>)

  ghost predicate Enough(supply: Supply, config: SweepConfig) {
    config.providersPerRound > 0 && forall j :: |supply.ids(j)| >= config.providersPerRound
  }

  datatype Outcome = Outcome(jobId: Id, coverage: Coverage)

  /** One job after the other. */
  function CoverAll(db: Db, jobs: seq<Id>, supply: Supply, config: SweepConfig, now: int): (Db, seq<Outcome>)
    requires Enough(supply, config)
    decreases |jobs|
  {
    if jobs == [] then (db, [])
    else
      var j := jobs[0];
      var (db1, c) := Cover(db, j, supply.ranked(j), supply.ids(j), config, now);
      var (db2, rest) := CoverAll(db1, jobs[1..], supply, config, now);
      (db2, [Outcome(j, c)] + rest)
  }

  function SweepAt(db: Db, supply: Supply, config: SweepConfig, now: int): (Db, seq<Outcome>)
    requires Enough(supply, config)
  {
    CoverAll(ExpireOffers(db, now), Uncovered(db.offers, now), supply, config, now)
  }

  // ------------------------------------------------------------------- expiry

  function Lapse(o: Offer, now: int): Offer {
    if Due(o, now) then o.(status := Expired) else o
  }

  /** Expiry closes exactly the offers that are due and touches nothing else but the history. */
  lemma {:induction false} ExpiryEffect(db: Db, k: nat, now: int)
    requires k <= |db.offers|
    ensures var db' := ExpireFrom(db, k, now);
      && db'.jobs == db.jobs && db'.quotes == db.quotes && db'.assignments == db.assignments && db'.ledger == db.ledger
      && |db'.offers| == |db.offers| && db.events <= db'.events
      && forall i :: 0 <= i < |db.offers| ==> db'.offers[i] == if i < k then db.offers[i] else Lapse(db.offers[i], now)
    decreases |db.offers| - k
  {
    if k < |db.offers| {
      var db1 := ExpireOne(db, k, now);
      assert db1.offers == db.offers[k := Lapse(db.offers[k], now)] by {
        assert !Due(db.offers[k], now) ==> db.offers[k := db.offers[k]] == db.offers;
      }
      hide ExpireOne, RecordEvent;
      assert db.events <= db1.events && db1.jobs == db.jobs && db1.quotes == db.quotes
             && db1.assignments == db.assignments && db1.ledger == db.ledger by { ExpireOneRest(db, k, now); }
      ExpiryEffect(db1, k + 1, now);
    }
  }

  lemma ExpireOneRest(db: Db, k: nat, now: int)
    requires k < |db.offers|
    ensures var db1 := ExpireOne(db, k, now);
      && db.events <= db1.events && db1.jobs == db.jobs && db1.quotes == db.quotes
      && db1.assignments == db.assignments && db1.ledger == db.ledger
  {
    hide OutboxForEvent;
  }

  // ----------------------------------------------------------------- coverage

  /** What a round of offers adds: between one and all of the providers asked,
      all pending, at the same payout and deadline. */
  lemma {:induction false} AddedRound(offers: seq<Offer>, j: Id, providers: seq<Id>, ids: seq<Id>, payout: int,
                                      expiresAt: int)
    requires |ids| == |providers|
    ensures var r := AddOffers(offers, j, providers, ids, payout, expiresAt);
      && |r| <= |offers| + |providers|
      && (providers != [] && !HasOffer(offers, j, providers[0]) ==> |r| > |offers|)
      && forall i :: |offers| <= i < |r| ==>
           r[i].jobId == j && r[i].status.Pending? && r[i].payoutNetCents == payout && r[i].expiresAt == expiresAt
    decreases |providers|
  {
    if providers == [] {
    } else if HasOffer(offers, j, providers[0]) {
      AddedRound(offers, j, providers[1..], ids[1..], payout, expiresAt);
    } else {
      var o := Offer(ids[0], j, providers[0], Pending, payout, expiresAt);
      AddedRound(offers + [o], j, providers[1..], ids[1..], payout, expiresAt);
      var r := AddOffers(offers + [o], j, providers[1..], ids[1..], payout, expiresAt);
      assert r[|offers|] == r[..|offers| + 1][|offers|] == o;
    }
  }

  lemma OffersForLast(offers: seq<Offer>, o: Offer, j: Id)
    ensures OffersFor(offers + [o], j) == OffersFor(offers, j) + if o.jobId == j then [o] else []
  {
    assert (offers + [o])[..|offers|] == offers;
  }

  lemma {:induction false} OffersForConcat(a: seq<Offer>, b: seq<Offer>, j: Id)
    ensures OffersFor(a + b, j) == OffersFor(a, j) + OffersFor(b, j)
  {
    hide OffersFor;
    if b == [] {
      assert a + b == a && OffersFor(b, j) == [] by { OffersForAll(b, j); }
    } else {
      var n := |b| - 1;
      assert a + b == (a + b[..n]) + [b[n]] && b == b[..n] + [b[n]];
      OffersForConcat(a, b[..n], j);
      OffersForLast(a + b[..n], b[n], j);
      OffersForLast(b[..n], b[n], j);
    }
  }

  lemma {:induction false} OffersForAll(b: seq<Offer>, j: Id)
    ensures (forall o :: o in b ==> o.jobId == j) ==> OffersFor(b, j) == b
    ensures (forall o :: o in b ==> o.jobId != j) ==> OffersFor(b, j) == []
  {
    if b != [] {
      var n := |b| - 1;
      assert b == b[..n] + [b[n]];
      OffersForAll(b[..n], j);
    }
  }

  /** New offers on the job covered, a history that only grows, and nothing else. */
  ghost predicate CoverFrame(db: Db, db': Db, j: Id) {
    && db'.jobs == db.jobs && db'.quotes == db.quotes && db'.assignments == db.assignments && db'.ledger == db.ledger
    && db.events <= db'.events && db.offers <= db'.offers
    && forall i :: |db.offers| <= i < |db'.offers| ==> db'.offers[i].jobId == j && db'.offers[i].status.Pending?
  }

  ghost predicate NewRound(db: Db, db': Db, payout: int, expiresAt: int) {
    && |db.offers| < |db'.offers|
    && forall i :: |db.offers| <= i < |db'.offers| ==>
         db'.offers[i].payoutNetCents == payout && db'.offers[i].expiresAt == expiresAt
  }

  predicate EscalatedOn(events: seq<Event>, j: Id, reason: string) {
    Event(j, DispatchEscalated, None, map["reason" := Text(reason)]) in events
  }

  /** What covering one job does, outcome by outcome. */
  lemma CoverEffect(db: Db, j: Id, eligible: seq<Id>, ids: seq<Id>, config: SweepConfig, now: int)
    requires config.providersPerRound > 0 && |ids| >= config.providersPerRound
    ensures var (db', c) := Cover(db, j, eligible, ids, config, now);
      && CoverFrame(db, db', j)
      && |db'.offers| <= |db.offers| + config.providersPerRound
      && (c.Skipped? ==> db' == db)
      && (c.Escalated? ==> db'.offers == db.offers && EscalatedOn(db'.events[|db.events|..], j, c.reason))
      && (c.Reoffered? ==> ApprovedNet(db.quotes, j).Some?)
      && (c.Reoffered? ==> NewRound(db, db', CarriedPayout(OffersFor(db.offers, j), ApprovedNet(db.quotes, j).value),
                                    now + config.offerTtlMinutes * MINUTE_MS))
  {
    hide AutomaticRounds, OffersFor, CarriedPayout, ApprovedNet, ActiveIndex, NotAsked, AddOffers;
    var (db', c) := Cover(db, j, eligible, ids, config, now);
    if c.Reoffered? {
      var next := NextRound(eligible, db.offers, j, config);
      var payout, expiresAt := CarriedPayout(OffersFor(db.offers, j),
                                             ApprovedNet(db.quotes, j).value), now + config.offerTtlMinutes * MINUTE_MS;
      assert next[0] in NotAsked(eligible, db.offers, j);
      AddedRound(db.offers, j, next, ids[..|next|], payout, expiresAt);
      hide NextRound, RecordEvent;
      var r := AddOffers(db.offers, j, next, ids[..|next|], payout, expiresAt);
      assert db'.offers == r && db.offers <= r by { assert r[..|db.offers|] == db.offers; }
    }
    hide RecordEvent, NextRound;
  }

  /** A quoted, priced, unassigned job on which nobody is still thinking is not skipped. */
  lemma CoverActs(db: Db, j: Id, eligible: seq<Id>, ids: seq<Id>, config: SweepConfig, now: int)
    requires config.providersPerRound > 0 && |ids| >= config.providersPerRound
    ensures Cover(db, j, eligible, ids, config, now).1.Skipped? <==>
      !(j in db.jobs && db.jobs[j].status.Quoted? && ActiveIndex(db.assignments, j) == |db.assignments|
        && ApprovedNet(db.quotes, j).Some?
        && forall o :: o in db.offers && o.jobId == j ==> !o.status.Pending?)
  {
    hide AutomaticRounds, CarriedPayout, ApprovedNet, ActiveIndex, NextRound, CreateOffers, RecordEvent;
  }

  // ------------------------------------------------------------ bounded rounds

  /** The allowance left of automatic rounds, in offers. */
  function Allowance(offerCount: nat, config: SweepConfig): int {
    config.maxRounds * config.providersPerRound + 1 - offerCount
  }

  lemma Times(p: nat, a: int, b: int)
    requires a <= b
    ensures p * a <= p * b && p * (a + 1) == p * a + p
  {
  }

  lemma RoundsLeft(n: nat, config: SweepConfig)
    requires config.providersPerRound > 0
    ensures AutomaticRounds(n, config) < config.maxRounds <==> config.maxRounds > 0
                                                               && n <= config.maxRounds * config.providersPerRound
  {
    var p, m := config.providersPerRound, config.maxRounds;
    var c := CeilDiv(n, p);
    assert (n + p - 1) == p * c + (n + p - 1) % p;
    if n <= m * p {
      assert c <= m by {
        if c >= m + 1 { Times(p, m + 1, c); }
      }
    } else {
      assert c > m by {
        if c <= m { Times(p, c, m); }
      }
    }
  }

  /** Right after an automatic round a job has at most (maxRounds + 1) x providersPerRound
      offers, all to different providers, and the allowance, positive before it, has
      gone down: automation must stop. */
  lemma RoundIsBounded(db: Db, j: Id, eligible: seq<Id>, ids: seq<Id>, config: SweepConfig, now: int)
    requires config.providersPerRound > 0 && |ids| >= config.providersPerRound && AskedOnce(db.offers)
    requires Cover(db, j, eligible, ids, config, now).1.Reoffered?
    ensures var db' := Cover(db, j, eligible, ids, config, now).0;
      var before, after := OffersFor(db.offers, j), OffersFor(db'.offers, j);
      && |after| <= (config.maxRounds + 1) * config.providersPerRound
      && |AskedProviders(db'.offers, j)| == |after|
      && Allowance(|before|, config) > 0 && Allowance(|after|, config) < Allowance(|before|, config)
  {
    var db' := Cover(db, j, eligible, ids, config, now).0;
    RoundsUsed(db, j, eligible, ids, config, now);
    CoverEffect(db, j, eligible, ids, config, now);
    CoverAsksOnce(db, j, eligible, ids, config, now);
    hide Cover, AutomaticRounds, OffersFor, AskedOnce, AskedProviders, Allowance, Count;
    GrownOffers(db.offers, db'.offers, j);
    CountedOffers(db'.offers, j);
    DistinctProviders(db'.offers, j);
    AllowanceFalls(|OffersFor(db.offers, j)|, |OffersFor(db'.offers, j)|, config);
  }

  lemma AllowanceFalls(before: nat, after: nat, config: SweepConfig)
    requires config.providersPerRound > 0 && AutomaticRounds(before, config) < config.maxRounds
    requires before < after <= before + config.providersPerRound
    ensures after <= (config.maxRounds + 1) * config.providersPerRound
    ensures Allowance(before, config) > 0 && Allowance(after, config) < Allowance(before, config)
  {
    RoundsLeft(before, config);
    Times(config.providersPerRound, config.maxRounds, config.maxRounds);
    hide AutomaticRounds;
  }

  lemma RoundsUsed(db: Db, j: Id, eligible: seq<Id>, ids: seq<Id>, config: SweepConfig, now: int)
    requires config.providersPerRound > 0 && |ids| >= config.providersPerRound
    requires Cover(db, j, eligible, ids, config, now).1.Reoffered?
    ensures AutomaticRounds(|OffersFor(db.offers, j)|, config) < config.maxRounds
  {
    hide CreateOffers, RecordEvent, NextRound, OffersFor, ApprovedNet, AutomaticRounds;
  }

  lemma GrownOffers(a: seq<Offer>, b: seq<Offer>, j: Id)
    requires a <= b && forall i :: |a| <= i < |b| ==> b[i].jobId == j
    ensures |OffersFor(b, j)| == |OffersFor(a, j)| + |b| - |a|
  {
    var added := b[|a|..];
    assert b == a + added;
    OffersForConcat(a, added, j);
    OffersForAll(added, j);
  }

  lemma {:induction false} CountedOffers(offers: seq<Offer>, j: Id)
    ensures |OffersFor(offers, j)| == Count(offers, OfferedOn(j))
  {
    if offers != [] { CountedOffers(offers[..|offers| - 1], j); }
  }

  lemma {:induction false} AddOffersAsksOnce(offers: seq<Offer>, j: Id, providers: seq<Id>, ids: seq<Id>, payout: int,
                                             expiresAt: int)
    requires |ids| == |providers| && AskedOnce(offers)
    ensures AskedOnce(AddOffers(offers, j, providers, ids, payout, expiresAt))
    decreases |providers|
  {
    if providers == [] {
    } else if HasOffer(offers, j, providers[0]) {
      AddOffersAsksOnce(offers, j, providers[1..], ids[1..], payout, expiresAt);
    } else {
      var o := Offer(ids[0], j, providers[0], Pending, payout, expiresAt);
      assert AskedOnce(offers + [o]) by {
        forall a, b | 0 <= a < b < |offers| + 1 ensures !SameTarget((offers + [o])[a], (offers + [o])[b]) {
          if b == |offers| { assert offers[a] in offers; }
        }
      }
      AddOffersAsksOnce(offers + [o], j, providers[1..], ids[1..], payout, expiresAt);
    }
  }

  lemma CoverAsksOnce(db: Db, j: Id, eligible: seq<Id>, ids: seq<Id>, config: SweepConfig, now: int)
    requires config.providersPerRound > 0 && |ids| >= config.providersPerRound && AskedOnce(db.offers)
    ensures AskedOnce(Cover(db, j, eligible, ids, config, now).0.offers)
  {
    hide AutomaticRounds, OffersFor, CarriedPayout, ApprovedNet, ActiveIndex, NextRound, RecordEvent, AddOffers,
      AskedOnce;
    if Cover(db, j, eligible, ids, config, now).1.Reoffered? {
      var next := NextRound(eligible, db.offers, j, config);
      AddOffersAsksOnce(db.offers, j, next, ids[..|next|],
                        CarriedPayout(OffersFor(db.offers, j), ApprovedNet(db.quotes, j).value),
                        now + config.offerTtlMinutes * MINUTE_MS);
    }
  }

  // --------------------------------------------------------- rounds over a run

  predicate IsRound(db: Db, s: Step, j: Id)
    requires Admissible(db, s)
  {
    s.CoverJob? && s.jobId == j && Cover(db, j, s.eligible, s.ids, s.config, s.now).1.Reoffered?
  }

  /** How often a run offers the job again automatically. */
  function RoundsOn(policy: Policy, db: Db, steps: seq<Step>, j: Id): nat
    requires Lawful(policy, db, steps)
    decreases |steps|
  {
    if steps == [] then 0
    else (if IsRound(db, steps[0], j) then 1 else 0) + RoundsOn(policy, Apply(policy, db, steps[0]), steps[1..], j)
  }

  /** No dispatcher fans the job out by hand, and the sweeps share one configuration. */
  predicate Unattended(s: Step, j: Id, config: SweepConfig) {
    && (s.FanOut? ==> s.jobId != j)
    && (s.CoverJob? && s.jobId == j ==> s.config == config)
  }

  lemma {:induction false} AddedElsewhere(offers: seq<Offer>, j: Id, providers: seq<Id>, ids: seq<Id>, payout: int,
                                          expiresAt: int, i: Id)
    requires |ids| == |providers| && i != j
    ensures |OffersFor(AddOffers(offers, j, providers, ids, payout, expiresAt), i)| == |OffersFor(offers, i)|
  {
    var r := AddOffers(offers, j, providers, ids, payout, expiresAt);
    AddedRound(offers, j, providers, ids, payout, expiresAt);
    var added := r[|offers|..];
    hide AddOffers, OffersFor;
    assert r == offers + added by { assert r[..|offers|] == offers; }
    OffersForConcat(offers, added, i);
    OffersForAll(added, i);
  }

  ghost predicate SameTargets(a: seq<Offer>, b: seq<Offer>) {
    |a| == |b| && forall k :: 0 <= k < |a| ==> b[k].jobId == a[k].jobId
  }

  lemma SameNumber(a: seq<Offer>, b: seq<Offer>, j: Id)
    requires SameTargets(a, b)
    ensures |OffersFor(a, j)| == |OffersFor(b, j)|
  {
    CountedOffers(a, j);
    CountedOffers(b, j);
    hide OffersFor;
    CountSame(a, b, OfferedOn(j));
  }

  lemma AcceptTargets(db: Db, id: Id, p: Id, now: int)
    ensures SameTargets(db.offers, AcceptOffer(db, id, p, now).db.offers)
  {
    hide RecordEvent, ActiveIndex;
  }

  lemma OtherStepsAddNone(policy: Policy, db: Db, s: Step)
    requires Admissible(db, s) && !s.FanOut? && !s.CoverJob?
    ensures SameTargets(db.offers, Apply(policy, db, s).offers)
  {
    hide RecordEvent, Visible, RetainFrom, ExpireFrom, FreshOfferIds, Holds, QuoteIndex, HasApprovedQuote, ActiveIndex,
      OfferIndex,
      AcceptOffer;
    match s
    case Accept(id, p, now) => AcceptTargets(db, id, p, now);
    case Expire(now) => ExpiryEffect(db, 0, now);
    case Retain(olderThan) => RetainEvolves(policy, db, 0, olderThan);
    case _ =>
  }

  lemma FanElsewhere(db: Db, j: Id, scope: Scope, eligible: seq<Id>, ids: seq<Id>, payout: int, expiresAt: int,
                     now: int, i: Id)
    requires |ids| == |eligible| && i != j
    ensures |OffersFor(Fan(db, j, scope, eligible, ids, payout, expiresAt, now).db.offers, i)| ==
            |OffersFor(db.offers, i)|
  {
    hide AddOffers, RecordEvent, Visible, HasApprovedQuote, OffersFor;
    AddedElsewhere(db.offers, j, eligible, ids, payout, expiresAt, i);
  }

  lemma CoverElsewhere(db: Db, j: Id, eligible: seq<Id>, ids: seq<Id>, config: SweepConfig, now: int, i: Id)
    requires config.providersPerRound > 0 && |ids| >= config.providersPerRound && i != j
    ensures |OffersFor(Cover(db, j, eligible, ids, config, now).0.offers, i)| == |OffersFor(db.offers, i)|
  {
    CoverEffect(db, j, eligible, ids, config, now);
    var r := Cover(db, j, eligible, ids, config, now).0.offers;
    hide Cover, OffersFor;
    var added := r[|db.offers|..];
    assert r == db.offers + added;
    OffersForConcat(db.offers, added, i);
    OffersForAll(added, i);
  }

  lemma StepAllowance(policy: Policy, db: Db, s: Step, j: Id, config: SweepConfig)
    requires Admissible(db, s) && AskedOnce(db.offers) && Unattended(s, j, config) && config.providersPerRound > 0
    ensures var a, b := |OffersFor(db.offers, j)|, |OffersFor(Apply(policy, db, s).offers, j)|;
      if IsRound(db, s, j) then Allowance(a, config) > 0 && Allowance(b, config) < Allowance(a, config) else a == b
  {
    if IsRound(db, s, j) {
      hide FreshOfferIds, Cover, OffersFor, Allowance;
      RoundIsBounded(db, j, s.eligible, s.ids, config, s.now);
    } else if s.CoverJob? {
      if s.jobId != j {
        hide FreshOfferIds, Cover, OffersFor;
        CoverElsewhere(db, s.jobId, s.eligible, s.ids, s.config, s.now, j);
      } else {
        CoverEffect(db, j, s.eligible, s.ids, s.config, s.now);
        hide FreshOfferIds, Cover, OffersFor;
      }
    } else if s.FanOut? {
      hide FreshOfferIds, Fan, OffersFor;
      FanElsewhere(db, s.jobId, s.scope, s.eligible, s.ids, s.payout, s.expiresAt, s.now, j);
    } else {
      hide Admissible, Apply, OffersFor;
      OtherStepsAddNone(policy, db, s);
      SameNumber(db.offers, Apply(policy, db, s).offers, j);
    }
  }

  lemma {:induction false} RoundsRun(policy: Policy, db: Db, steps: seq<Step>, j: Id, config: SweepConfig)
    requires Inv(db) && Lawful(policy, db, steps) && config.providersPerRound > 0
    requires forall s :: s in steps ==> Unattended(s, j, config)
    ensures RoundsOn(policy, db, steps, j) <= Max(0, Allowance(|OffersFor(db.offers, j)|, config))
    decreases |steps|
  {
    if steps != [] {
      var s := steps[0];
      assert AskedOnce(db.offers);
      hide Inv, Admissible, Apply, Unattended, OffersFor, AskedOnce, IsRound, Allowance;
      StepKeeps(policy, db, s);
      StepAllowance(policy, db, s, j, config);
      RoundsRun(policy, Apply(policy, db, s), steps[1..], j, config);
    }
  }

  /** However sweeps interleave with everything else: from any reachable state on, without new
      human action a job is offered again automatically at most as often as its
      allowance says. */
  lemma AutomationStops(policy: Policy, before: seq<Step>, after: seq<Step>, j: Id, config: SweepConfig)
    requires Lawful(policy, EMPTY, before) && Lawful(policy, Run(policy, EMPTY, before), after)
    requires config.providersPerRound > 0 && forall s :: s in after ==> Unattended(s, j, config)
    ensures var db := Run(policy, EMPTY, before);
      RoundsOn(policy, db, after, j) <= Max(0, Allowance(|OffersFor(db.offers, j)|, config))
  {
    hide Inv, Run, Lawful, RoundsOn, OffersFor, Allowance, Unattended;
    ReachableInv(policy, before);
    RoundsRun(policy, Run(policy, EMPTY, before), after, j, config);
  }

  // ------------------------------------------------------- a sweep is a run

  function CoverSteps(jobs: seq<Id>, supply: Supply, config: SweepConfig, now: int): seq<Step> {
    if jobs == [] then []
    else
      [CoverJob(jobs[0], supply.ranked(jobs[0]), supply.ids(jobs[0]), config, now)]
      + CoverSteps(jobs[1..], supply, config, now)
  }

  lemma {:induction false} CoveringIsRun(policy: Policy, db: Db, jobs: seq<Id>, supply: Supply, config: SweepConfig,
                                         now: int)
    requires Enough(supply, config) && Lawful(policy, db, CoverSteps(jobs, supply, config, now))
    ensures Run(policy, db, CoverSteps(jobs, supply, config, now)) == CoverAll(db, jobs, supply, config, now).0
    decreases |jobs|
  {
    hide Cover, Admissible;
    if jobs != [] {
      var s := CoverJob(jobs[0], supply.ranked(jobs[0]), supply.ids(jobs[0]), config, now);
      var rest := CoverSteps(jobs[1..], supply, config, now);
      assert CoverSteps(jobs, supply, config, now)[1..] == rest;
      var db1 := Apply(policy, db, s);
      assert db1 == Cover(db, jobs[0], supply.ranked(jobs[0]), supply.ids(jobs[0]), config, now).0;
      CoveringIsRun(policy, db1, jobs[1..], supply, config, now);
    }
  }

  /** A whole sweep is an expiry step and one covering step per uncovered job, so what holds of
      every run holds of sweeps: as long as the ids supplied are new. */
  lemma SweepIsRun(policy: Policy, db: Db, supply: Supply, config: SweepConfig, now: int)
    requires Enough(supply, config)
    requires Lawful(policy, ExpireOffers(db, now), CoverSteps(Uncovered(db.offers, now), supply, config, now))
    ensures var steps := [Expire(now)] + CoverSteps(Uncovered(db.offers, now), supply, config, now);
      Lawful(policy, db, steps) && Run(policy, db, steps) == SweepAt(db, supply, config, now).0
  {
    var rest := CoverSteps(Uncovered(db.offers, now), supply, config, now);
    var steps := [Expire(now)] + rest;
    assert steps[0] == Expire(now) && steps[1..] == rest;
    hide CoverSteps, ExpireOffers, CoverAll;
    assert Apply(policy, db, Expire(now)) == ExpireOffers(db, now);
    CoveringIsRun(policy, ExpireOffers(db, now), Uncovered(db.offers, now), supply, config, now);
  }

  // --------------------------------------------------------- after the sweep

  ghost predicate NoneDue(offers: seq<Offer>, now: int) {
    forall o :: o in offers ==> !Due(o, now)
  }

  ghost predicate Live(offers: seq<Offer>, j: Id, now: int) {
    exists o :: o in offers && o.jobId == j && o.status.Pending? && o.expiresAt > now
  }

  /** Somebody is still asked, or a person has been alerted in the events given. */
  ghost predicate Covered(offers: seq<Offer>, since: seq<Event>, j: Id, now: int) {
    Live(offers, j, now) || exists reason :: EscalatedOn(since, j, reason)
  }

  /** Everything a sweep leaves alone, and what its new offers look like. */
  ghost predicate SweepFrame(db: Db, db': Db) {
    && db'.jobs == db.jobs && db'.quotes == db.quotes && db'.assignments == db.assignments && db'.ledger == db.ledger
    && db.events <= db'.events && db.offers <= db'.offers
  }

  lemma {:induction false} CoverAllFrame(db: Db, jobs: seq<Id>, supply: Supply, config: SweepConfig, now: int)
    requires Enough(supply, config) && config.offerTtlMinutes > 0 && NoneDue(db.offers, now)
    ensures var db' := CoverAll(db, jobs, supply, config, now).0; SweepFrame(db, db') && NoneDue(db'.offers, now)
    decreases |jobs|
  {
    if jobs != [] {
      var j := jobs[0];
      var db1 := Cover(db, j, supply.ranked(j), supply.ids(j), config, now).0;
      CoverKeepsNoneDue(db, j, supply.ranked(j), supply.ids(j), config, now);
      hide Cover, NoneDue;
      CoverAllFrame(db1, jobs[1..], supply, config, now);
    }
  }

  lemma CoverKeepsNoneDue(db: Db, j: Id, eligible: seq<Id>, ids: seq<Id>, config: SweepConfig, now: int)
    requires config.providersPerRound > 0 && |ids| >= config.providersPerRound
    requires config.offerTtlMinutes > 0 && NoneDue(db.offers, now)
    ensures var db1 := Cover(db, j, eligible, ids, config, now).0; SweepFrame(db, db1) && NoneDue(db1.offers, now)
  {
    var db1 := Cover(db, j, eligible, ids, config, now).0;
    CoverEffect(db, j, eligible, ids, config, now);
    hide Cover, CarriedPayout, ApprovedNet, OffersFor;
    forall o | o in db1.offers ensures !Due(o, now) {
      var i :| 0 <= i < |db1.offers| && db1.offers[i] == o;
      if i < |db.offers| { assert db.offers[i] in db.offers && db.offers[i] == o; }
    }
  }

  lemma CoveredStays(offers: seq<Offer>, since: seq<Event>, offers': seq<Offer>, since': seq<Event>, j: Id, now: int)
    requires Covered(offers, since, j, now) && offers <= offers' && forall e :: e in since ==> e in since'
    ensures Covered(offers', since', j, now)
  {
    if Live(offers, j, now) {
      var o :| o in offers && o.jobId == j && o.status.Pending? && o.expiresAt > now;
      var i :| 0 <= i < |offers| && offers[i] == o;
      assert offers'[i] in offers';
    } else {
      var reason :| EscalatedOn(since, j, reason);
      assert EscalatedOn(since', j, reason);
    }
  }

  /** Covering the job itself leaves it covered. */
  lemma CoverCovers(db: Db, j: Id, eligible: seq<Id>, ids: seq<Id>, config: SweepConfig, now: int)
    requires config.providersPerRound > 0 && |ids| >= config.providersPerRound
    requires config.offerTtlMinutes > 0 && NoneDue(db.offers, now)
    requires j in db.jobs && db.jobs[j].status.Quoted? && ActiveIndex(db.assignments, j) == |db.assignments|
    requires ApprovedNet(db.quotes, j).Some?
    ensures var db1 := Cover(db, j, eligible, ids, config, now).0;
      Covered(db1.offers, db1.events[|db.events|..], j, now)
  {
    var (db1, c) := Cover(db, j, eligible, ids, config, now);
    CoverEffect(db, j, eligible, ids, config, now);
    CoverActs(db, j, eligible, ids, config, now);
    hide Cover, CarriedPayout, ApprovedNet, OffersFor, ActiveIndex, EscalatedOn;
    if c.Skipped? {
      var o :| o in db.offers && o.jobId == j && o.status.Pending?;
      assert !Due(o, now);
      assert Live(db1.offers, j, now);
    } else if c.Reoffered? {
      var o := db1.offers[|db.offers|];
      assert o in db1.offers && o.jobId == j;
      assert Live(db1.offers, j, now);
    }
  }

  lemma {:induction false} CoverAllCovers(db: Db, jobs: seq<Id>, supply: Supply, config: SweepConfig, now: int, j: Id)
    requires Enough(supply, config) && config.offerTtlMinutes > 0 && NoneDue(db.offers, now)
    requires j in jobs && j in db.jobs && db.jobs[j].status.Quoted?
      && ActiveIndex(db.assignments, j) == |db.assignments|
    requires ApprovedNet(db.quotes, j).Some?
    ensures var db' := CoverAll(db, jobs, supply, config, now).0;
      db.events <= db'.events && Covered(db'.offers, db'.events[|db.events|..], j, now)
    decreases |jobs|
  {
    var i := jobs[0];
    var db1 := Cover(db, i, supply.ranked(i), supply.ids(i), config, now).0;
    CoverKeepsNoneDue(db, i, supply.ranked(i), supply.ids(i), config, now);
    if i == j { CoverCovers(db, j, supply.ranked(j), supply.ids(j), config, now); }
    hide Cover, NoneDue, Covered, ApprovedNet, ActiveIndex;
    CoverAllFrame(db1, jobs[1..], supply, config, now);
    var db' := CoverAll(db1, jobs[1..], supply, config, now).0;
    EventsSince(db.events, db1.events, db'.events);
    if i == j {
      CoveredStays(db1.offers, db1.events[|db.events|..], db'.offers, db'.events[|db.events|..], j, now);
    } else {
      CoverAllCovers(db1, jobs[1..], supply, config, now, j);
      CoveredStays(db'.offers, db'.events[|db1.events|..], db'.offers, db'.events[|db.events|..], j, now);
    }
  }

  lemma EventsSince(a: seq<Event>, b: seq<Event>, c: seq<Event>)
    requires a <= b <= c
    ensures forall e :: e in b[|a|..] || e in c[|b|..] ==> e in c[|a|..]
  {
    var x, y, z := b[|a|..], c[|b|..], c[|a|..];
    forall e | e in x ensures e in z {
      var i :| 0 <= i < |x| && x[i] == e;
      assert z[i] == e;
    }
    forall e | e in y ensures e in z {
      var i :| 0 <= i < |y| && y[i] == e;
      assert z[i + |b| - |a|] == e;
    }
  }

  lemma OfferedIsPriced(db: Db, j: Id)
    requires Inv(db) && (exists o :: o in db.offers && o.jobId == j)
    ensures j in db.jobs && ApprovedNet(db.quotes, j).Some?
  {
    var o :| o in db.offers && o.jobId == j;
    assert Good(TallyOf(db, j));
    hide Inv;
    var i :| 0 <= i < |db.offers| && db.offers[i] == o;
    CountSome(db.offers, i, OfferedOn(j));
    var k := CountWitness(db.quotes, ApprovedFor(j));
    ApprovedNetFound(db.quotes, j);
  }

  lemma SweptIsCovered(db: Db, supply: Supply, config: SweepConfig, now: int, j: Id)
    requires Inv(db) && Enough(supply, config) && config.offerTtlMinutes > 0
    requires j in Uncovered(db.offers, now)
    ensures var db' := SweepAt(db, supply, config, now).0;
      && db'.jobs == db.jobs && db'.assignments == db.assignments && db.events <= db'.events
      && j in db.jobs
      && (db'.jobs[j].status.Quoted? && ActiveIndex(db'.assignments, j) == |db'.assignments| ==>
            Covered(db'.offers, db'.events[|db.events|..], j, now))
  {
    var db1 := ExpireOffers(db, now);
    OfferedIsPriced(db, j);
    AfterExpiry(db, now);
    hide Inv, ExpireOffers, ActiveIndex, ApprovedNet, NoneDue, Covered, CoverAll;
    var db' := SweepAt(db, supply, config, now).0;
    CoverAllFrame(db1, Uncovered(db.offers, now), supply, config, now);
    EventsSince(db.events, db1.events, db'.events);
    if db.jobs[j].status.Quoted? && ActiveIndex(db.assignments, j) == |db.assignments| {
      CoverAllCovers(db1, Uncovered(db.offers, now), supply, config, now, j);
      CoveredStays(db'.offers, db'.events[|db1.events|..], db'.offers, db'.events[|db.events|..], j, now);
    }
  }

  lemma AfterExpiry(db: Db, now: int)
    ensures var db1 := ExpireOffers(db, now);
      && NoneDue(db1.offers, now) && db.events <= db1.events
      && db1.jobs == db.jobs && db1.quotes == db.quotes && db1.assignments == db.assignments
  {
    ExpiryEffect(db, 0, now);
  }

  /** For a fixed clock and a positive offer lifetime, in every reachable state: every job the
      sweep found uncovered that is still quoted and unassigned ends the sweep with
      somebody still asked or with an escalation recorded in it; no job changes status. */
  lemma SweepCovers(policy: Policy, before: seq<Step>, supply: Supply, config: SweepConfig, now: int, j: Id)
    requires Lawful(policy, EMPTY, before) && Enough(supply, config) && config.offerTtlMinutes > 0
    requires j in Uncovered(Run(policy, EMPTY, before).offers, now)
    ensures var db := Run(policy, EMPTY, before);
      var db' := SweepAt(db, supply, config, now).0;
      && db'.jobs == db.jobs && db'.assignments == db.assignments && db.events <= db'.events
      && j in db.jobs
      && (db'.jobs[j].status.Quoted? && ActiveIndex(db'.assignments, j) == |db'.assignments| ==>
            Covered(db'.offers, db'.events[|db.events|..], j, now))
  {
    hide Inv, Run, Lawful, SweepAt, Covered, ActiveIndex;
    ReachableInv(policy, before);
    SweptIsCovered(Run(policy, EMPTY, before), supply, config, now, j);
  }

  // -------------------------------------------------------------- idempotence

  lemma {:induction false} NothingExpires(db: Db, k: nat, now: int)
    requires k <= |db.offers| && NoneDue(db.offers, now)
    ensures ExpireFrom(db, k, now) == db
    decreases |db.offers| - k
  {
    if k < |db.offers| {
      assert db.offers[k] in db.offers;
      NothingExpires(db, k + 1, now);
    }
  }

  /** A second sweep at the same instant, by whatever configuration, changes nothing. */
  lemma SecondSweepIsIdle(db: Db, supply: Supply, config: SweepConfig, now: int, supply': Supply, config': SweepConfig)
    requires Enough(supply, config) && config.offerTtlMinutes > 0 && Enough(supply', config')
    ensures var db' := SweepAt(db, supply, config, now).0; SweepAt(db', supply', config', now) == (db', [])
  {
    var db1 := ExpireOffers(db, now);
    ExpiryEffect(db, 0, now);
    assert NoneDue(db1.offers, now);
    hide ExpireFrom;
    CoverAllFrame(db1, Uncovered(db.offers, now), supply, config, now);
    var db' := SweepAt(db, supply, config, now).0;
    NothingExpires(db', 0, now);
    var u := Uncovered(db'.offers, now);
    assert forall j :: j !in u;
    if |u| > 0 { SomeId(u); }
  }

  lemma SomeId(ids: seq<Id>)
    requires |ids| > 0
    ensures exists j :: j in ids
  {
    assert ids[0] in ids;
  }

  // ------------------------------------------------------------------ payouts

  /** The payout of the last offer made on the job. */
  function LastPayout(offers: seq<Offer>, j: Id): Option<int> {
    if offers == [] then None
    else
      var n := |offers| - 1;
      if offers[n].jobId == j then Some(offers[n].payoutNetCents) else LastPayout(offers[..n], j)
  }

  lemma {:induction false} CarriedIsLast(offers: seq<Offer>, j: Id, net: int)
    ensures LastPayout(offers, j).Some? ==> CarriedPayout(OffersFor(offers, j), net) == LastPayout(offers, j).value
  {
    if offers != [] {
      var n := |offers| - 1;
      CarriedIsLast(offers[..n], j, net);
    }
  }

  lemma {:induction false} LastPayoutLapsed(a: seq<Offer>, b: seq<Offer>, j: Id)
    requires |a| == |b|
    requires forall i :: 0 <= i < |a| ==> b[i].jobId == a[i].jobId && b[i].payoutNetCents == a[i].payoutNetCents
    ensures LastPayout(a, j) == LastPayout(b, j)
  {
    if a != [] { LastPayoutLapsed(a[..|a| - 1], b[..|b| - 1], j); }
  }

  lemma {:induction false} LastPayoutAdded(a: seq<Offer>, b: seq<Offer>, j: Id)
    requires a <= b
    requires forall i :: |a| <= i < |b| && b[i].jobId == j ==> LastPayout(a, j) == Some(b[i].payoutNetCents)
    ensures LastPayout(b, j) == LastPayout(a, j)
    decreases |b|
  {
    if |a| < |b| {
      var n := |b| - 1;
      LastPayoutAdded(a, b[..n], j);
    } else {
      assert a == b;
    }
  }

  /** Each offer a sweep makes carries over the payout last offered on its job. */
  lemma {:induction false} CoverAllCarries(db: Db, jobs: seq<Id>, supply: Supply, config: SweepConfig, now: int, i: nat)
    requires Enough(supply, config) && config.offerTtlMinutes > 0 && NoneDue(db.offers, now)
    requires forall j :: j in jobs ==> LastPayout(db.offers, j).Some?
    ensures var os := CoverAll(db, jobs, supply, config, now).0.offers;
      |db.offers| <= i < |os| ==>
        && os[i].jobId in jobs && LastPayout(db.offers, os[i].jobId) == Some(os[i].payoutNetCents)
        && os[i].expiresAt == now + config.offerTtlMinutes * 60_000
    decreases |jobs|
  {
    if jobs != [] {
      var j := jobs[0];
      var db1 := Cover(db, j, supply.ranked(j), supply.ids(j), config, now).0;
      RoundCarries(db, j, supply.ranked(j), supply.ids(j), config, now);
      CoverKeepsNoneDue(db, j, supply.ranked(j), supply.ids(j), config, now);
      hide Cover, NoneDue, LastPayout;
      CoverAllFrame(db1, jobs[1..], supply, config, now);
      CoverAllCarries(db1, jobs[1..], supply, config, now, i);
    }
  }

  lemma RoundCarries(db: Db, j: Id, eligible: seq<Id>, ids: seq<Id>, config: SweepConfig, now: int)
    requires config.providersPerRound > 0 && |ids| >= config.providersPerRound && LastPayout(db.offers, j).Some?
    ensures var db1 := Cover(db, j, eligible, ids, config, now).0;
      && CoverFrame(db, db1, j)
      && (forall i :: |db.offers| <= i < |db1.offers| ==>
            LastPayout(db.offers, j) == Some(db1.offers[i].payoutNetCents)
            && db1.offers[i].expiresAt == now + config.offerTtlMinutes * 60_000)
      && forall x :: LastPayout(db1.offers, x) == LastPayout(db.offers, x)
  {
    var (db1, c) := Cover(db, j, eligible, ids, config, now);
    CoverEffect(db, j, eligible, ids, config, now);
    if c.Reoffered? { CarriedIsLast(db.offers, j, ApprovedNet(db.quotes, j).value); }
    hide Cover, CarriedPayout, ApprovedNet, OffersFor, LastPayout;
    forall x
      ensures LastPayout(db1.offers, x) == LastPayout(db.offers, x)
    {
      LastPayoutAdded(db.offers, db1.offers, x);
    }
  }

  lemma {:induction false} LastPayoutKnown(offers: seq<Offer>, j: Id)
    requires exists o :: o in offers && o.jobId == j
    ensures LastPayout(offers, j).Some?
  {
    var n := |offers| - 1;
    assert offers == offers[..n] + [offers[n]];
    if offers[n].jobId != j { LastPayoutKnown(offers[..n], j); }
  }

  /** The sweep never prices anything: each offer it makes pays what was last offered on that job, and
      lives for the minutes configured. */
  lemma SweepCarriesPayout(db: Db, supply: Supply, config: SweepConfig, now: int, i: nat)
    requires Enough(supply, config) && config.offerTtlMinutes > 0
    requires |db.offers| <= i < |SweepAt(db, supply, config, now).0.offers|
    ensures var o := SweepAt(db, supply, config, now).0.offers[i];
      && o.jobId in Uncovered(db.offers, now) && LastPayout(db.offers, o.jobId) == Some(o.payoutNetCents)
      && o.expiresAt == now + config.offerTtlMinutes * 60_000
  {
    var db1 := ExpireOffers(db, now);
    ExpiryEffect(db, 0, now);
    assert NoneDue(db1.offers, now);
    hide ExpireFrom, CoverAll, NoneDue;
    forall j
      ensures LastPayout(db1.offers, j) == LastPayout(db.offers, j)
    {
      LastPayoutLapsed(db.offers, db1.offers, j);
    }
    forall j | j in Uncovered(db.offers, now) ensures LastPayout(db.offers, j).Some? { LastPayoutKnown(db.offers, j); }
    hide LastPayout;
    CoverAllCarries(db1, Uncovered(db.offers, now), supply, config, now, i);
  }
}
