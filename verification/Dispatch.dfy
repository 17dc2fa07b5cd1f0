/** Covering an uncovered job again (apps/api/src/lib/dispatch.ts), as functions. */
module Dispatch {
  import opened Contracts
  import opened OutboxKeys
  import opened Db

  datatype SweepConfig = SweepConfig(providersPerRound: nat, offerTtlMinutes: int, maxRounds: nat)

  datatype Coverage = Skipped | Reoffered | Escalated(reason: string)

  const MAX_ROUNDS_REACHED := "MAX_ROUNDS_REACHED"
  const NO_PROVIDER_LEFT := "NO_ELIGIBLE_PROVIDER_LEFT"

  function CeilDiv(a: nat, b: nat): nat
    requires b > 0
  {
    (a + b - 1) / b
  }

  /** The dispatcher's own first round is not an automatic one. */
  function AutomaticRounds(offerCount: nat, config: SweepConfig): nat
    requires config.providersPerRound > 0
  {
    Max(0, CeilDiv(offerCount, config.providersPerRound) - 1)
  }

  function OffersFor(offers: seq<Offer>, jobId: Id): (r: seq<Offer>)
    ensures forall o :: o in r <==> o in offers && o.jobId == jobId
  {
    if offers == [] then []
    else
      var n := |offers| - 1;
      assert offers == offers[..n] + [offers[n]];
      OffersFor(offers[..n], jobId) + if offers[n].jobId == jobId then [offers[n]] else []
  }

  /** Candidates in rank order, without those already asked. */
  function NotAsked(eligible: seq<Id>, offers: seq<Offer>, jobId: Id): (r: seq<Id>)
    ensures forall p :: p in r <==> p in eligible && !HasOffer(offers, jobId, p)
  {
    if eligible == [] then []
    else
      var n := |eligible| - 1;
      assert eligible == eligible[..n] + [eligible[n]];
      NotAsked(eligible[..n], offers, jobId) +
      if HasOffer(offers, jobId, eligible[n]) then [] else [eligible[n]]
  }

  function NextRound(eligible: seq<Id>, offers: seq<Offer>, jobId: Id, config: SweepConfig): (r: seq<Id>)
    ensures |r| <= config.providersPerRound
  {
    var unasked := NotAsked(eligible, offers, jobId);
    if |unasked| <= config.providersPerRound then unasked else unasked[..config.providersPerRound]
  }

  function ApprovedNet(quotes: seq<Quote>, jobId: Id): Option<int> {
    if quotes == [] then None
    else if quotes[0].jobId == jobId && quotes[0].status.Approved? then Some(quotes[0].netCents)
    else ApprovedNet(quotes[1..], jobId)
  }

  /** Rounds half up, as Math.round does, on a share of 72 percent. */
  function ProviderShare(cents: int): int {
    (cents * 72 + 50) / 100
  }

  /** The share is the cent nearest to 72 percent, halves upwards. */
  lemma ShareIsRounded(cents: int)
    ensures 100 * ProviderShare(cents) - 50 <= 72 * cents < 100 * ProviderShare(cents) + 50
  {
  }

  /** The payout carries over from the last round. */
  function CarriedPayout(offers: seq<Offer>, net: int): int {
    if offers == [] then ProviderShare(net) else offers[|offers| - 1].payoutNetCents
  }

  function Escalate(db: Db, jobId: Id, reason: string, now: int): Db {
    RecordEvent(db, Event(jobId, DispatchEscalated, None, map["reason" := Text(reason)]), now)
  }

  /** One attempt to put a fresh round of offers on an uncovered job. */
  function Cover(db: Db, jobId: Id, eligible: seq<Id>, ids: seq<Id>, config: SweepConfig, now: int): (Db, Coverage)
    requires config.providersPerRound > 0
    requires |ids| >= config.providersPerRound
  {
    var offers := OffersFor(db.offers, jobId);
    if jobId !in db.jobs || !db.jobs[jobId].status.Quoted? then (db, Skipped)
    else if ActiveIndex(db.assignments, jobId) < |db.assignments| then (db, Skipped)
    else if exists o :: o in offers && o.status.Pending? then (db, Skipped)
    else if ApprovedNet(db.quotes, jobId).None? then (db, Skipped)
    else if AutomaticRounds(|offers|, config) >= config.maxRounds then
      (Escalate(db, jobId, MAX_ROUNDS_REACHED, now), Escalated(MAX_ROUNDS_REACHED))
    else
      var next := NextRound(eligible, db.offers, jobId, config);
      if next == [] then (Escalate(db, jobId, NO_PROVIDER_LEFT, now), Escalated(NO_PROVIDER_LEFT))
      else
        (CreateOffers(db, jobId, next, ids[..|next|],
                      CarriedPayout(offers, ApprovedNet(db.quotes, jobId).value),
                      now + config.offerTtlMinutes * MINUTE_MS, now), Reoffered)
  }
}
