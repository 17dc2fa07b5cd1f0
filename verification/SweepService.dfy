/** The periodic sweep as the object that runs it against the store. */
module SweepService {
  import opened Contracts
  import opened Counting
  import opened OutboxKeys
  import opened Db
  import Spec = Db
  import opened Dispatch
  import opened Machine
  import opened Invariants
  import opened Runs
  import opened Store
  import opened Sweep
  import opened RankedDispatch
  import E = Eligibility

  datatype Escalation = Escalation(jobId: Id, reason: string)
  datatype SweepResult = SweepResult(expired: nat, reoffered: seq<Id>, escalated: seq<Escalation>)

  /** The ids supplied for each round are new when the round comes. */
  ghost predicate NewIds(db: Db, supply: Supply, config: SweepConfig, now: int) {
    Lawful(KeepsWrites, Spec.ExpireOffers(db, now), CoverSteps(Uncovered(db.offers, now), supply, config, now))
  }

  /** The jobs of the outcomes that were offered again, and those handed to a person, in order. */
  function ReofferedJobs(outcomes: seq<Outcome>): seq<Id> {
    if outcomes == [] then []
    else (if outcomes[0].coverage.Reoffered? then [outcomes[0].jobId] else []) + ReofferedJobs(outcomes[1..])
  }

  function EscalatedJobs(outcomes: seq<Outcome>): seq<Escalation> {
    if outcomes == [] then []
    else (if outcomes[0].coverage.Escalated? then [Escalation(outcomes[0].jobId, outcomes[0].coverage.reason)] else [])
         + EscalatedJobs(outcomes[1..])
  }

  class DispatchSweep {
    const store: MemoryStore
    const config: SweepConfig

    constructor (store: MemoryStore, config: SweepConfig)
      ensures this.store == store && this.config == config
    {
      this.store := store;
      this.config := config;
    }

    method Escalate(jobId: Id, reason: string, now: int) returns (c: Coverage)
      requires jobId in store.jobs
      modifies store
      ensures store.State() == Dispatch.Escalate(old(store.State()), jobId, reason, now) && c == Escalated(reason)
    {
      var reply := store.RecordJobEvent(Event(jobId, DispatchEscalated, None, map["reason" := Text(reason)]), now);
      return Escalated(reason);
    }

    method CoverJob(jobId: Id, providers: seq<E.Provider>, demand: E.Demand, ids: seq<Id>, now: int)
      returns (c: Coverage)
      requires config.providersPerRound > 0 && |ids| >= config.providersPerRound
      modifies store
      ensures (store.State(), c) ==
              Cover(old(store.State()), jobId, EligibleIds(providers, demand, now), ids, config, now)
    {
      hide OffersFor, ApprovedNet, AutomaticRounds, NextRound, ActiveIndex, CarriedPayout, Dispatch.Escalate,
        CreateOffers,
        EligibleIds;
      if jobId !in store.jobs || !store.jobs[jobId].status.Quoted? { return Skipped; }
      if ActiveIndex(store.assignments, jobId) < |store.assignments| { return Skipped; }
      var offers := OffersFor(store.offers, jobId);
      if exists o :: o in offers && o.status.Pending? { return Skipped; }
      var approved := ApprovedNet(store.quotes, jobId);
      if approved.None? { return Skipped; }
      if AutomaticRounds(|offers|, config) >= config.maxRounds {
        c := Escalate(jobId, MAX_ROUNDS_REACHED, now);
        return;
      }
      var next := NextRound(EligibleIds(providers, demand, now), store.offers, jobId, config);
      if |next| == 0 {
        c := Escalate(jobId, NO_PROVIDER_LEFT, now);
        return;
      }
      var payoutNetCents := CarriedPayout(offers, approved.value);
      var created := store.CreateOffers(jobId, next, ids[..|next|], payoutNetCents,
                                        now + config.offerTtlMinutes * MINUTE_MS, now);
      return Reoffered;
    }

    /** One pass: expire, then cover every job that left uncovered. */
    method Run(facts: Facts, ids: Id -> seq<Id>, now: int) returns (result: SweepResult)
      requires Enough(RankedSupply(facts, ids, now), config)
      modifies store
      ensures var (db, outcomes) := SweepAt(old(store.State()), RankedSupply(facts, ids, now), config, now);
        && store.State() == db
        && result.reoffered == ReofferedJobs(outcomes) && result.escalated == EscalatedJobs(outcomes)
      ensures result.expired == Count(old(store.offers), DueAt(now))
      ensures Inv(old(store.State())) && NewIds(old(store.State()), RankedSupply(facts, ids, now), config, now) ==>
        Inv(store.State())
    {
      hide Cover, Uncovered, Spec.ExpireOffers, EligibleIds, Count, Inv, NewIds;
      if Inv(store.State()) && NewIds(store.State(), RankedSupply(facts, ids, now), config, now) {
        SweepKeeps(store.State(), RankedSupply(facts, ids, now), config, now);
      }
      ghost var supply := RankedSupply(facts, ids, now);
      assert forall j :: supply.ids(j) == ids(j)
               && supply.ranked(j) == EligibleIds(facts.providers(j), facts.demand(j), now);
      hide RankedSupply, ReofferedJobs, EscalatedJobs;
      var expired, jobIds := store.ExpireOffers(now);
      result := SweepResult(expired, [], []);
      ghost var (db, outcomes) := CoverAll(store.State(), jobIds, supply, config, now);
      assert |outcomes| == |jobIds| by { OneOutcomeEach(store.State(), jobIds, supply, config, now); }
      var i := 0;
      while i < |jobIds|
        invariant i <= |jobIds| == |outcomes| && result.expired == expired
        invariant CoverAll(store.State(), jobIds[i..], supply, config, now) == (db, outcomes[i..])
        invariant result.reoffered + ReofferedJobs(outcomes[i..]) == ReofferedJobs(outcomes)
        invariant result.escalated + EscalatedJobs(outcomes[i..]) == EscalatedJobs(outcomes)
      {
        var jobId := jobIds[i];
        NextCovered(store.State(), jobIds, outcomes, i, supply, config, now);
        var outcome := CoverJob(jobId, facts.providers(jobId), facts.demand(jobId), ids(jobId), now);
        Regroup(result.reoffered, if outcome.Reoffered? then [jobId] else [], ReofferedJobs(outcomes[i + 1..]));
        Regroup(result.escalated, if outcome.Escalated? then [Escalation(jobId, outcome.reason)] else [],
                EscalatedJobs(outcomes[i + 1..]));
        if outcome.Reoffered? { result := result.(reoffered := result.reoffered + [jobId]); }
        if outcome.Escalated? {
          result := result.(escalated := result.escalated + [Escalation(jobId, outcome.reason)]);
        }
        i := i + 1;
      }
    }
  }

  lemma Regroup<T>(a: seq<T>, b: seq<T>, c: seq<T>)
    ensures a + (b + c) == (a + b) + c && a + [] == a
  {
  }

  /** The next job to cover, and what its outcome adds to the lists. */
  lemma NextCovered(db: Db, jobIds: seq<Id>, outcomes: seq<Outcome>, i: nat, supply: Supply, config: SweepConfig,
                    now: int)
    requires Enough(supply, config) && i < |jobIds| == |outcomes|
    requires CoverAll(db, jobIds[i..], supply, config, now).1 == outcomes[i..]
    ensures var (db1, c) := Cover(db, jobIds[i], supply.ranked(jobIds[i]), supply.ids(jobIds[i]), config, now);
      && CoverAll(db, jobIds[i..], supply, config, now).0 == CoverAll(db1, jobIds[i + 1..], supply, config, now).0
      && CoverAll(db1, jobIds[i + 1..], supply, config, now).1 == outcomes[i + 1..]
      && ReofferedJobs(outcomes[i..]) == (if c.Reoffered? then [jobIds[i]] else []) + ReofferedJobs(outcomes[i + 1..])
      && EscalatedJobs(outcomes[i..]) ==
         (if c.Escalated? then [Escalation(jobIds[i], c.reason)] else []) + EscalatedJobs(outcomes[i + 1..])
  {
    assert jobIds[i..][1..] == jobIds[i + 1..] && outcomes[i..][1..] == outcomes[i + 1..];
    var (db1, c) := Cover(db, jobIds[i], supply.ranked(jobIds[i]), supply.ids(jobIds[i]), config, now);
    assert outcomes[i..] == [Outcome(jobIds[i], c)] + CoverAll(db1, jobIds[i + 1..], supply, config, now).1;
    hide Cover;
  }

  lemma {:induction false} OneOutcomeEach(db: Db, jobs: seq<Id>, supply: Supply, config: SweepConfig, now: int)
    requires Enough(supply, config)
    ensures |CoverAll(db, jobs, supply, config, now).1| == |jobs|
    decreases |jobs|
  {
    if jobs != [] {
      OneOutcomeEach(Cover(db, jobs[0], supply.ranked(jobs[0]), supply.ids(jobs[0]), config, now).0, jobs[1..], supply,
                     config, now);
    }
  }

  /** A sweep with new ids is a run of the protocol, so it keeps what every run keeps. */
  lemma SweepKeeps(db: Db, supply: Supply, config: SweepConfig, now: int)
    requires Enough(supply, config) && Inv(db) && NewIds(db, supply, config, now)
    ensures Inv(SweepAt(db, supply, config, now).0)
  {
    hide Inv, Lawful, CoverSteps, SweepAt, Spec.ExpireOffers;
    SweepIsRun(KeepsWrites, db, supply, config, now);
    RunKeeps(KeepsWrites, db, [Expire(now)] + CoverSteps(Uncovered(db.offers, now), supply, config, now));
  }
}
