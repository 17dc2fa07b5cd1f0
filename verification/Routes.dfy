/** The request handlers that move jobs: guards first, then the store. */
module Routes {
  import opened Contracts
  import opened OutboxKeys
  import opened Ordering
  import opened Db
  import opened Machine
  import opened Invariants
  import opened Preservation
  import opened Evolution
  import opened RankedDispatch
  import opened Store
  import E = Eligibility

  /** What a dispatcher enters for a quote; `breakdown` is the net of each line, if there are any. */
  datatype QuoteInput = QuoteInput(netCents: int, vatRateBasisPoints: int, validForHours: int, breakdown: seq<int>)
  {
    /** What the request schema lets through. */
    predicate WellFormed() {
      netCents > 0 && 0 <= vatRateBasisPoints <= 10_000 && 1 <= validForHours <= 720
    }
  }

  /** Value added tax, rounded half up to the cent. */
  function VatCents(netCents: int, rateBasisPoints: int): int {
    (netCents * rateBasisPoints + 5_000) / 10_000
  }

  function Total(lines: seq<int>): int {
    if lines == [] then 0 else Total(lines[..|lines| - 1]) + lines[|lines| - 1]
  }

  predicate AddsUp(input: QuoteInput) {
    input.breakdown == [] || Total(input.breakdown) == input.netCents
  }

  function QuoteOf(db: Db, id: Id, jobId: Id, input: QuoteInput, now: int): Quote {
    Quote(id, jobId, if jobId in db.jobs then db.jobs[jobId].organizationId else "", Sent, input.netCents,
          input.netCents + VatCents(input.netCents, input.vatRateBasisPoints), now + input.validForHours * HOUR_MS)
  }

  predicate Quotable(db: Db, jobId: Id, scope: Scope) {
    jobId in db.jobs && Visible(db, jobId, scope) && db.jobs[jobId].status.Triaged?
  }

  /** The tax is the nearest whole cent, halves upwards, and never negative. */
  lemma VatIsRounded(netCents: int, rateBasisPoints: int)
    requires netCents >= 0 && rateBasisPoints >= 0
    ensures var exact, vat := netCents * rateBasisPoints, VatCents(netCents, rateBasisPoints);
      vat >= 0 && 10_000 * vat - 5_000 <= exact < 10_000 * vat + 5_000
  {
    assert netCents * rateBasisPoints >= 0;
  }

  /** A request keeps the invariant of all runs and undoes nothing. */
  lemma RequestKeeps(db: Db, s: Step)
    requires Inv(db) && Admissible(db, s)
    ensures Inv(Perform(db, s).db) && Evolves(KeepsWrites, db, Perform(db, s).db)
  {
    hide Inv, Admissible, Evolves, Perform;
    StepKeeps(KeepsWrites, db, s);
    StepEvolves(KeepsWrites, db, s);
  }

  class Handlers {
    const store: MemoryStore

    constructor (store: MemoryStore)
      ensures this.store == store
    {
      this.store := store;
    }

    /** What holds of the store in every run of the protocol holds of this one. */
    ghost predicate Valid()
      reads store
    {
      Inv(store.State())
    }

    /** Staff pass; a provider must hold the job now. */
    method RequireHolder(jobId: Id, scope: Scope) returns (holds: bool)
      ensures holds == Machine.Holds(store.State(), jobId, scope)
    {
      if scope.Staff? { return true; }
      var k := ActiveIndex(store.assignments, jobId);
      return k < |store.assignments| && scope == Provider(store.assignments[k].providerId);
    }

    // -------------------------------------------------------------------- jobs

    method CreateJob(id: Id, organizationId: Id, now: int) returns (reply: Reply)
      requires Valid() && IsUuid(id) && id !in store.jobs
      modifies store
      ensures Effect(store.State(), reply) == Perform(old(store.State()), SubmitJob(id, organizationId, now))
      ensures Valid() && Evolves(KeepsWrites, old(store.State()), store.State())
    {
      hide Inv, Evolves;
      RequestKeeps(store.State(), SubmitJob(id, organizationId, now));
      store.CreateJob(id, organizationId, now);
      return Done;
    }

    method ApproveTriage(jobId: Id, scope: Scope, now: int) returns (reply: Reply)
      requires Valid()
      modifies store
      ensures Effect(store.State(), reply) == Perform(old(store.State()), Step.ApproveTriage(jobId, scope, now))
      ensures Valid() && Evolves(KeepsWrites, old(store.State()), store.State())
    {
      hide Inv, Evolves;
      RequestKeeps(store.State(), Step.ApproveTriage(jobId, scope, now));
      reply := store.TransitionJob(jobId, scope, Triaged, TriageApproved, map[], now);
    }

    method StartWork(jobId: Id, scope: Scope, now: int) returns (reply: Reply)
      requires Valid()
      modifies store
      ensures Effect(store.State(), reply) == Perform(old(store.State()), Step.StartWork(jobId, scope, now))
      ensures Valid() && Evolves(KeepsWrites, old(store.State()), store.State())
    {
      hide Inv, Evolves;
      RequestKeeps(store.State(), Step.StartWork(jobId, scope, now));
      var holds := RequireHolder(jobId, scope);
      if !holds { return Refused(NotFound); }
      reply := store.TransitionJob(jobId, scope, InProgress, WorkStarted, map[], now);
    }

    method CompleteJob(jobId: Id, scope: Scope, uploaded: nat, now: int) returns (reply: Reply)
      requires Valid()
      modifies store
      ensures Effect(store.State(), reply) == Perform(old(store.State()), Step.CompleteJob(jobId, scope, uploaded, now))
      ensures Valid() && Evolves(KeepsWrites, old(store.State()), store.State())
    {
      hide Inv, Evolves;
      RequestKeeps(store.State(), Step.CompleteJob(jobId, scope, uploaded, now));
      var holds := RequireHolder(jobId, scope);
      if !holds { return Refused(NotFound); }
      if jobId !in store.jobs || !Visible(store.State(), jobId, scope) { return Refused(NotFound); }
      if uploaded == 0 { return Refused(Conflict); }
      reply := store.TransitionJob(jobId, scope, Completed, JobCompleted, map["evidenceCount" := Number(uploaded)],
                                   now);
    }

    method CancelJob(jobId: Id, scope: Scope, now: int) returns (reply: Reply)
      requires Valid()
      modifies store
      ensures Effect(store.State(), reply) == Perform(old(store.State()), Step.CancelJob(jobId, scope, now))
      ensures Valid() && Evolves(KeepsWrites, old(store.State()), store.State())
    {
      hide Inv, Evolves;
      RequestKeeps(store.State(), Step.CancelJob(jobId, scope, now));
      reply := store.TransitionJob(jobId, scope, Cancelled, JobCancelled, map[], now);
    }

    // ------------------------------------------------------------------ quotes

    /** The lines of a breakdown, if there are any, must come to the net. */
    static method CheckBreakdown(input: QuoteInput) returns (addsUp: bool)
      ensures addsUp == AddsUp(input)
    {
      if |input.breakdown| == 0 { return true; }
      var total, i := 0, 0;
      while i < |input.breakdown|
        invariant i <= |input.breakdown| && total == Total(input.breakdown[..i])
      {
        assert input.breakdown[..i + 1][..i] == input.breakdown[..i];
        total, i := total + input.breakdown[i], i + 1;
      }
      assert input.breakdown[..i] == input.breakdown;
      return total == input.netCents;
    }

    /** A breakdown that does not add up is refused, but only once the job is found to be triaged. */
    method PriceJob(id: Id, jobId: Id, scope: Scope, input: QuoteInput, now: int) returns (reply: Reply)
      requires Valid() && IsUuid(id) && (forall q :: q in store.quotes ==> q.id != id) && input.WellFormed()
      modifies store
      ensures var before := old(store.State());
        Effect(store.State(), reply) ==
        if Quotable(before, jobId, scope) && !AddsUp(input) then Effect(before, Refused(ValidationError))
        else Price(before, QuoteOf(before, id, jobId, input, now), scope, now)
      ensures Valid() && Evolves(KeepsWrites, old(store.State()), store.State())
    {
      hide Inv, Evolves, VatCents, AddsUp;
      ghost var asked := Step.PriceJob(QuoteOf(store.State(), id, jobId, input, now), scope, now);
      VatIsRounded(input.netCents, input.vatRateBasisPoints);
      RequestKeeps(store.State(), asked);
      EvolvesReflexive(KeepsWrites, store.State());
      if jobId !in store.jobs || !Visible(store.State(), jobId, scope) { return Refused(NotFound); }
      if !store.jobs[jobId].status.Triaged? { return Refused(InvalidStateTransition); }
      var addsUp := CheckBreakdown(input);
      if !addsUp { return Refused(ValidationError); }
      var vat := VatCents(input.netCents, input.vatRateBasisPoints);
      var quote := Quote(id, jobId, store.jobs[jobId].organizationId, Sent, input.netCents, input.netCents + vat,
                         now + input.validForHours * HOUR_MS);
      store.CreateQuote(quote, now);
      reply := store.TransitionJob(jobId, scope, Quoted, JobQuoted,
                                   map["quoteId" := Text(quote.id), "grossCents" := Number(quote.grossCents)], now);
    }

    method AnswerQuote(quoteId: Id, scope: Scope, approve: bool, now: int) returns (reply: Reply)
      requires Valid()
      modifies store
      ensures Effect(store.State(), reply) ==
              Perform(old(store.State()), Step.AnswerQuote(quoteId, scope, approve, now))
      ensures Valid() && Evolves(KeepsWrites, old(store.State()), store.State())
    {
      hide Inv, Evolves;
      RequestKeeps(store.State(), Step.AnswerQuote(quoteId, scope, approve, now));
      reply := store.DecideQuote(quoteId, scope, approve, now);
    }

    // ------------------------------------------------------------------ offers

    /** Eligibility is computed here, from the providers as they are now. */
    method FanOut(jobId: Id, scope: Scope, providers: seq<E.Provider>, demand: E.Demand, maxProviders: nat,
                  ids: seq<Id>,
                  payout: int, expiresInMinutes: int, now: int)
      returns (reply: Reply)
      requires Valid() && |ids| >= maxProviders && FreshOfferIds(store.State(), ids) && payout > 0
      modifies store
      ensures Effect(store.State(), reply) ==
              FanRanked(old(store.State()), jobId, scope, providers, demand, maxProviders, ids, payout,
                        now + expiresInMinutes * MINUTE_MS, now)
      ensures Valid() && Evolves(KeepsWrites, old(store.State()), store.State())
    {
      hide Inv, Evolves, E.RankProviders;
      var expiresAt := now + expiresInMinutes * MINUTE_MS;
      ghost var eligibleIds := FirstIds(EligibleIds(providers, demand, now), maxProviders);
      RequestKeeps(store.State(), Step.FanOut(jobId, scope, eligibleIds, ids[..|eligibleIds|], payout, expiresAt, now));
      EvolvesReflexive(KeepsWrites, store.State());
      if jobId !in store.jobs || !Visible(store.State(), jobId, scope) { return Refused(NotFound); }
      if !store.jobs[jobId].status.Quoted? { return Refused(InvalidStateTransition); }
      if !HasApprovedQuote(store.quotes, jobId) { return Refused(InvalidStateTransition); }
      var ranked := E.RankProviders(providers, demand, now);
      var eligible := Map(Filter(ranked, (r: E.Result) => r.eligible), (r: E.Result) => r.providerId);
      var chosen := FirstIds(eligible, maxProviders);
      if |chosen| == 0 { return Refused(NoEligibleProvider); }
      var created := store.CreateOffers(jobId, chosen, ids[..|chosen|], payout, expiresAt, now);
      return Done;
    }

    method Respond(offerId: Id, providerId: Id, accept: bool, now: int) returns (reply: Reply)
      requires Valid()
      modifies store
      ensures Effect(store.State(), reply) ==
              Perform(old(store.State()),
                      if accept then Accept(offerId, providerId, now) else Decline(offerId, providerId, now))
      ensures Valid() && Evolves(KeepsWrites, old(store.State()), store.State())
    {
      hide Inv, Evolves;
      RequestKeeps(store.State(),
                   if accept then Accept(offerId, providerId, now) else Decline(offerId, providerId, now));
      if accept {
        reply := store.AcceptOffer(offerId, providerId, now);
      } else {
        reply := store.DeclineOffer(offerId, providerId, now);
      }
    }

    method FallThrough(jobId: Id, scope: Scope, now: int) returns (reply: Reply)
      requires Valid()
      modifies store
      ensures Effect(store.State(), reply) == Perform(old(store.State()), Step.FallThrough(jobId, scope, now))
      ensures Valid() && Evolves(KeepsWrites, old(store.State()), store.State())
    {
      hide Inv, Evolves;
      RequestKeeps(store.State(), Step.FallThrough(jobId, scope, now));
      var holds := RequireHolder(jobId, scope);
      if !holds { return Refused(NotFound); }
      reply := store.FallbackAssignment(jobId, now);
    }
  }
}
