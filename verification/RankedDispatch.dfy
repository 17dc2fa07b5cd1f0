/** Whom dispatch asks: the ranking put to work by a fan-out, a round and a sweep. */
module RankedDispatch {
  import opened Contracts
  import opened Counting
  import opened Ordering
  import opened Db
  import opened Dispatch
  import opened Sweep
  import opened Tallies
  import opened Machine
  import E = Eligibility

  /** The providers that pass every gate, best first. */
  function EligibleIds(providers: seq<E.Provider>, demand: E.Demand, now: int): seq<Id> {
    Map(Filter(E.RankProviders(providers, demand, now), (r: E.Result) => r.eligible), (r: E.Result) => r.providerId)
  }

  ghost predicate Names(ids: seq<Id>, providers: seq<E.Provider>) {
    |ids| == |providers| && forall i :: 0 <= i < |ids| ==> ids[i] == providers[i].id
  }

  ghost predicate Distinct(ids: seq<Id>) {
    forall i, k :: 0 <= i < k < |ids| ==> ids[i] != ids[k]
  }

  ghost predicate InRankOrder(providers: seq<E.Provider>, demand: E.Demand) {
    forall i, k :: 0 <= i < k < |providers| ==> E.RankedBefore(providers[i], providers[k], demand)
  }

  lemma {:induction false} FilterPrefix<T(!new)>(s: seq<T>, p: T -> bool, k: nat)
    requires k <= |s| && forall i :: 0 <= i < |s| ==> (p(s[i]) <==> i < k)
    ensures Filter(s, p) == s[..k]
  {
    if s != [] {
      FilterPrefix(s[1..], p, if k > 0 then k - 1 else 0);
      assert k > 0 ==> s[..k] == [s[0]] + s[1..][..k - 1];
    }
  }

  lemma RankedIsIrreflexive(p: E.Provider, demand: E.Demand)
    ensures !E.RankedBefore(p, p, demand)
  {
    if StrLess(p.id, p.id) { StrLessAsymmetric(p.id, p.id); }
  }

  /** The eligible ids are those of exactly the providers that pass every gate, in rank order. */
  lemma EligibleInOrder(providers: seq<E.Provider>, demand: E.Demand, now: int) returns (best: seq<E.Provider>)
    requires E.DistinctProviders(providers)
    ensures Names(EligibleIds(providers, demand, now), best) && InRankOrder(best, demand)
    ensures forall p :: p in best <==> p in providers && E.Gates(p, demand, now)
    ensures forall i, k :: 0 <= i < k < |best| ==> best[i].id != best[k].id
  {
    var r := E.RankProviders(providers, demand, now);
    hide E.RankProviders, E.Evaluation, E.RankedBefore, E.Gates, StrLess;
    var order, k := E.RankingIsOrdered(providers, demand, now);
    best := order[..k];
    FilterPrefix(r, (x: E.Result) => x.eligible, k);
    forall i | 0 <= i < |order| ensures r[i].providerId == order[i].id { EvaluatedId(order[i], demand, now); }
    forall i | 0 <= i < |order| ensures i < k <==> E.Gates(order[i], demand, now) {
      assert order[i] in providers;
      E.EligibleIffGates(order[i], demand, now);
    }
    forall p ensures p in best <==> p in providers && E.Gates(p, demand, now) {
      if p in providers && E.Gates(p, demand, now) {
        var i :| 0 <= i < |order| && order[i] == p;
        assert best[i] == p;
      }
    }
    BestDiffer(best, providers, demand);
  }

  lemma EvaluatedId(p: E.Provider, demand: E.Demand, now: int)
    ensures E.Evaluation(p, demand, now).providerId == p.id
  {
  }

  lemma BestDiffer(best: seq<E.Provider>, providers: seq<E.Provider>, demand: E.Demand)
    requires E.DistinctProviders(providers) && InRankOrder(best, demand) && forall p :: p in best ==> p in providers
    ensures forall i, k :: 0 <= i < k < |best| ==> best[i].id != best[k].id
  {
    hide E.RankedBefore;
    forall i, k | 0 <= i < k < |best| ensures best[i].id != best[k].id {
      assert best[i] in best && best[k] in best;
      var a :| 0 <= a < |providers| && providers[a] == best[i];
      var b :| 0 <= b < |providers| && providers[b] == best[k];
      RankedIsIrreflexive(best[i], demand);
    }
  }

  // ------------------------------------------------------- who was not asked yet

  ghost predicate AreUnasked(left: seq<E.Provider>, best: seq<E.Provider>, offers: seq<Offer>, j: Id) {
    forall p :: p in left <==> p in best && !HasOffer(offers, j, p.id)
  }

  /** The providers not asked before, in the same order. */
  lemma {:induction false} UnaskedInOrder(best: seq<E.Provider>, ids: seq<Id>, demand: E.Demand, offers: seq<Offer>,
                                          j: Id)
    returns (left: seq<E.Provider>)
    requires Names(ids, best) && InRankOrder(best, demand)
    ensures Names(NotAsked(ids, offers, j), left) && InRankOrder(left, demand) && AreUnasked(left, best, offers, j)
  {
    hide E.RankedBefore, HasOffer;
    if best == [] {
      left := [];
    } else {
      var init, last, rest := best[..|best| - 1], best[|best| - 1], ids[..|best| - 1];
      SplitLast(best, ids, init, last, rest, demand);
      hide InRankOrder, NotAsked, Names, AreUnasked;
      var before := UnaskedInOrder(init, rest, demand, offers, j);
      left := if HasOffer(offers, j, last.id) then before else before + [last];
      OneMoreUnasked(init, last, rest, before, demand, offers, j);
    }
  }

  lemma SplitLast(best: seq<E.Provider>, ids: seq<Id>, init: seq<E.Provider>, last: E.Provider, rest: seq<Id>,
                  demand: E.Demand)
    requires Names(ids, best) && InRankOrder(best, demand) && best != []
    requires init == best[..|best| - 1] && last == best[|best| - 1] && rest == ids[..|best| - 1]
    ensures best == init + [last] && ids == rest + [last.id] && Names(rest, init) && InRankOrder(init, demand)
  {
    hide E.RankedBefore;
  }

  lemma OneMoreUnasked(init: seq<E.Provider>, last: E.Provider, ids: seq<Id>, before: seq<E.Provider>,
                       demand: E.Demand, offers: seq<Offer>, j: Id)
    requires InRankOrder(init + [last], demand) && InRankOrder(before, demand)
    requires Names(NotAsked(ids, offers, j), before) && AreUnasked(before, init, offers, j)
    ensures var left := if HasOffer(offers, j, last.id) then before else before + [last];
      && Names(NotAsked(ids + [last.id], offers, j), left) && InRankOrder(left, demand)
      && AreUnasked(left, init + [last], offers, j)
  {
    hide InRankOrder, NotAsked, Names, AreUnasked, HasOffer;
    MemberOf(before, init, offers, j);
    LastInOrder(init, last, before, demand);
    NamesLast(ids, before, last, offers, j);
    MembersLast(init, last, before, offers, j);
  }

  lemma MemberOf(left: seq<E.Provider>, best: seq<E.Provider>, offers: seq<Offer>, j: Id)
    requires AreUnasked(left, best, offers, j)
    ensures forall p :: p in left ==> p in best && !HasOffer(offers, j, p.id)
    ensures forall p :: p in best && !HasOffer(offers, j, p.id) ==> p in left
  {
    hide HasOffer;
  }

  lemma NamesLast(ids: seq<Id>, before: seq<E.Provider>, p: E.Provider, offers: seq<Offer>, j: Id)
    requires Names(NotAsked(ids, offers, j), before)
    ensures Names(NotAsked(ids + [p.id], offers, j), if HasOffer(offers, j, p.id) then before else before + [p])
  {
    hide HasOffer;
    var all := ids + [p.id];
    assert all[..|ids|] == ids && all[|ids|] == p.id;
    assert NotAsked(all, offers, j) == NotAsked(ids, offers, j) + if HasOffer(offers, j, p.id) then [] else [p.id];
    hide NotAsked;
  }

  lemma MembersLast(init: seq<E.Provider>, last: E.Provider, before: seq<E.Provider>, offers: seq<Offer>, j: Id)
    requires AreUnasked(before, init, offers, j)
    ensures AreUnasked(if HasOffer(offers, j, last.id) then before else before + [last], init + [last], offers, j)
  {
    hide HasOffer;
  }

  lemma LastInOrder(init: seq<E.Provider>, last: E.Provider, before: seq<E.Provider>, demand: E.Demand)
    requires InRankOrder(init + [last], demand) && InRankOrder(before, demand) && forall p :: p in before ==> p in init
    ensures InRankOrder(before + [last], demand)
  {
    hide E.RankedBefore;
    var best := init + [last];
    forall i | 0 <= i < |before| ensures E.RankedBefore(before[i], last, demand) {
      assert before[i] in before;
      var k :| 0 <= k < |init| && init[k] == before[i];
      assert best[k] == before[i] && best[|init|] == last;
    }
  }

  lemma {:induction false} NotAskedFront(ids: seq<Id>, offers: seq<Offer>, j: Id)
    requires ids != []
    ensures NotAsked(ids, offers, j) ==
            if HasOffer(offers, j, ids[0]) then NotAsked(ids[1..], offers, j)
            else [ids[0]] + NotAsked(ids[1..], offers, j)
  {
    var n := |ids| - 1;
    if n > 0 {
      NotAskedFront(ids[..n], offers, j);
      assert ids[..n][1..] == ids[1..][..n - 1] && ids[1..][n - 1] == ids[n] && ids[..n][0] == ids[0];
    }
  }

  lemma {:induction false} NotAskedSame(ids: seq<Id>, a: seq<Offer>, b: seq<Offer>, j: Id)
    requires forall p :: p in ids ==> (HasOffer(a, j, p) <==> HasOffer(b, j, p))
    ensures NotAsked(ids, a, j) == NotAsked(ids, b, j)
  {
    if ids != [] {
      hide HasOffer;
      NotAskedSame(ids[..|ids| - 1], a, b, j);
    }
  }

  /** The offers added are one for each provider not asked before, in the order given. */
  ghost predicate Asks(added: seq<Offer>, j: Id, ids: seq<Id>) {
    |added| == |ids| && forall i :: 0 <= i < |added| ==> added[i].jobId == j && added[i].providerId == ids[i]
  }

  lemma {:induction false} AddsUnasked(offers: seq<Offer>, j: Id, providers: seq<Id>, ids: seq<Id>, payout: int,
                                       expiresAt: int)
    requires |ids| == |providers| && Distinct(providers)
    ensures Asks(AddOffers(offers, j, providers, ids, payout, expiresAt)[|offers|..], j, NotAsked(providers, offers, j))
    decreases |providers|
  {
    hide HasOffer, Distinct, Asks;
    if providers == [] {
      NoneAsked(offers, j);
    } else {
      DistinctTail(providers);
      NotAskedFront(providers, offers, j);
      hide NotAsked;
      if HasOffer(offers, j, providers[0]) {
        AddsUnasked(offers, j, providers[1..], ids[1..], payout, expiresAt);
      } else {
        var o := Offer(ids[0], j, providers[0], Pending, payout, expiresAt);
        AddsUnasked(offers + [o], j, providers[1..], ids[1..], payout, expiresAt);
        AskedNext(offers, o, j, providers[1..]);
        OneAsked(offers, o, AddOffers(offers + [o], j, providers[1..], ids[1..], payout, expiresAt), j,
                 NotAsked(providers[1..], offers, j));
      }
    }
  }

  lemma NoneAsked(offers: seq<Offer>, j: Id)
    ensures Asks(offers[|offers|..], j, [])
  {
  }

  lemma DistinctTail(ids: seq<Id>)
    requires Distinct(ids) && ids != []
    ensures Distinct(ids[1..]) && ids[0] !in ids[1..]
  {
  }

  lemma AskedNext(offers: seq<Offer>, o: Offer, j: Id, providers: seq<Id>)
    requires o.providerId !in providers
    ensures NotAsked(providers, offers + [o], j) == NotAsked(providers, offers, j)
  {
    hide HasOffer;
    forall p | p in providers
      ensures HasOffer(offers + [o], j, p) <==> HasOffer(offers, j, p)
    {
      AskedElse(offers, o, j, p);
    }
    NotAskedSame(providers, offers + [o], offers, j);
  }

  lemma OneAsked(offers: seq<Offer>, o: Offer, r: seq<Offer>, j: Id, rest: seq<Id>)
    requires |offers| < |r| && r[..|offers| + 1] == offers + [o] && o.jobId == j && Asks(r[|offers| + 1..], j, rest)
    ensures Asks(r[|offers|..], j, [o.providerId] + rest)
  {
    var n := |offers|;
    assert r[n] == r[..n + 1][n] == o;
    assert r[n..] == [o] + r[n + 1..];
  }

  lemma AskedElse(offers: seq<Offer>, o: Offer, j: Id, p: Id)
    requires o.providerId != p
    ensures HasOffer(offers + [o], j, p) <==> HasOffer(offers, j, p)
  {
    if HasOffer(offers, j, p) {
      var x :| x in offers && x.jobId == j && x.providerId == p;
      assert x in offers + [o];
    }
  }

  // -------------------------------------------------------------- main results

  /** In rank order, providers that pass every gate and were not asked before; and nobody like
      that is left out who is not ranked after a full round. */
  ghost predicate BestUnasked(chosen: seq<E.Provider>, before: seq<Offer>, j: Id, providers: seq<E.Provider>,
                              demand: E.Demand, now: int, limit: nat) {
    && |chosen| <= limit && InRankOrder(chosen, demand)
    && (forall p :: p in chosen ==> p in providers && E.Gates(p, demand, now) && !HasOffer(before, j, p.id))
    && (forall p :: p in providers && E.Gates(p, demand, now) && !HasOffer(before, j, p.id) && p !in chosen ==>
          |chosen| == limit && forall i :: 0 <= i < |chosen| ==> E.RankedBefore(chosen[i], p, demand))
  }

  /** One new offer on the job for each of these providers. */
  ghost predicate Goes(added: seq<Offer>, j: Id, chosen: seq<E.Provider>) {
    |added| == |chosen| && forall i :: 0 <= i < |added| ==> added[i].jobId == j && added[i].providerId == chosen[i].id
  }

  lemma {:induction false} AllUnasked(ids: seq<Id>, offers: seq<Offer>, j: Id)
    requires forall p :: p in ids ==> !HasOffer(offers, j, p)
    ensures NotAsked(ids, offers, j) == ids
  {
    hide HasOffer;
    if ids != [] {
      var n := |ids| - 1;
      assert ids == ids[..n] + [ids[n]];
      AllUnasked(ids[..n], offers, j);
    }
  }

  lemma FirstOfOrder(left: seq<E.Provider>, demand: E.Demand, limit: nat) returns (chosen: seq<E.Provider>)
    requires InRankOrder(left, demand)
    ensures chosen == if |left| <= limit then left else left[..limit]
    ensures InRankOrder(chosen, demand)
    ensures forall p :: p in left && p !in chosen ==> |chosen| == limit && forall i :: 0 <= i < |chosen| ==>
                                                                             E.RankedBefore(chosen[i], p, demand)
  {
    hide E.RankedBefore;
    chosen := if |left| <= limit then left else left[..limit];
    forall p | p in left && p !in chosen
      ensures |chosen| == limit && forall i :: 0 <= i < |chosen| ==> E.RankedBefore(chosen[i], p, demand)
    {
      var k :| 0 <= k < |left| && left[k] == p;
      assert k >= |chosen|;
    }
  }

  /** Whom a round asks, as a list of providers. */
  lemma NextInOrder(providers: seq<E.Provider>, demand: E.Demand, now: int, offers: seq<Offer>, j: Id,
                    config: SweepConfig)
    returns (chosen: seq<E.Provider>)
    requires E.DistinctProviders(providers)
    ensures var next := NextRound(EligibleIds(providers, demand, now), offers, j, config);
      Names(next, chosen) && Distinct(next) && NotAsked(next, offers, j) == next
    ensures BestUnasked(chosen, offers, j, providers, demand, now, config.providersPerRound)
  {
    hide E.Gates, E.RankedBefore, E.DistinctProviders, EligibleIds, HasOffer, InRankOrder, NotAsked;
    var best := EligibleInOrder(providers, demand, now);
    var ids := EligibleIds(providers, demand, now);
    var left := UnaskedInOrder(best, ids, demand, offers, j);
    MemberOf(left, best, offers, j) by { hide NextRound; }
    hide AreUnasked;
    chosen := FirstOfOrder(left, demand, config.providersPerRound);
    forall p | p in chosen ensures p in left {
      var i :| 0 <= i < |chosen| && chosen[i] == p;
      assert left[i] == p;
    }
    BestDiffer(chosen, providers, demand);
    ChosenUnasked(NextRound(ids, offers, j, config), chosen, offers, j);
  }

  lemma ChosenUnasked(next: seq<Id>, chosen: seq<E.Provider>, offers: seq<Offer>, j: Id)
    requires Names(next, chosen) && forall p :: p in chosen ==> !HasOffer(offers, j, p.id)
    ensures NotAsked(next, offers, j) == next
  {
    hide HasOffer;
    forall q | q in next ensures !HasOffer(offers, j, q) {
      var i :| 0 <= i < |next| && next[i] == q;
      assert chosen[i] in chosen;
    }
    AllUnasked(next, offers, j);
  }

  /** A sweep's round on one job asks the best providers not asked before, and gives up for want
      of providers only when every one that passes the gates has been asked. */
  lemma RoundAsksBest(db: Db, j: Id, providers: seq<E.Provider>, demand: E.Demand, ids: seq<Id>, config: SweepConfig,
                      now: int)
    returns (chosen: seq<E.Provider>)
    requires E.DistinctProviders(providers) && config.providersPerRound > 0 && |ids| >= config.providersPerRound
    ensures BestUnasked(chosen, db.offers, j, providers, demand, now, config.providersPerRound)
    ensures var (db', c) := Cover(db, j, EligibleIds(providers, demand, now), ids, config, now);
      && |db.offers| <= |db'.offers|
      && (if c.Reoffered? then chosen != [] && Goes(db'.offers[|db.offers|..], j, chosen) else db'.offers == db.offers)
      && (c == Escalated(NO_PROVIDER_LEFT) ==> forall p :: p in providers && E.Gates(p, demand, now) ==>
                                                 HasOffer(db.offers, j, p.id))
  {
    hide Cover, NextRound, E.Gates, E.RankedBefore, EligibleIds, HasOffer, InRankOrder, NotAsked, E.DistinctProviders;
    chosen := NextInOrder(providers, demand, now, db.offers, j, config);
    RoundAsks(db, j, EligibleIds(providers, demand, now), ids, config, now);
  }

  lemma RoundAsks(db: Db, j: Id, eligible: seq<Id>, ids: seq<Id>, config: SweepConfig, now: int)
    requires config.providersPerRound > 0 && |ids| >= config.providersPerRound
    requires var next := NextRound(eligible, db.offers, j, config);
      NotAsked(next, db.offers, j) == next && Distinct(next)
    ensures var (db', c) := Cover(db, j, eligible, ids, config, now);
      var next := NextRound(eligible, db.offers, j, config);
      && |db.offers| <= |db'.offers| && (!c.Reoffered? ==> db'.offers == db.offers)
      && (c.Reoffered? ==> next != [] && Asks(db'.offers[|db.offers|..], j, next))
      && (c == Escalated(NO_PROVIDER_LEFT) ==> next == [])
  {
    var next := NextRound(eligible, db.offers, j, config);
    hide NextRound, Cover;
    var payout, expiresAt := CoverAdds(db, j, eligible, ids, config, now);
    AddsUnasked(db.offers, j, next, ids[..|next|], payout, expiresAt);
  }

  lemma CoverAdds(db: Db, j: Id, eligible: seq<Id>, ids: seq<Id>, config: SweepConfig, now: int)
    returns (payout: int, expiresAt: int)
    requires config.providersPerRound > 0 && |ids| >= config.providersPerRound
    ensures var (db', c) := Cover(db, j, eligible, ids, config, now);
      var next := NextRound(eligible, db.offers, j, config);
      && (!c.Reoffered? ==> db'.offers == db.offers)
      && (c.Reoffered? ==> next != [] && db'.offers == AddOffers(db.offers, j, next, ids[..|next|], payout, expiresAt))
      && (c == Escalated(NO_PROVIDER_LEFT) ==> next == [])
  {
    hide NextRound, NotAsked, RecordEvent, AutomaticRounds, OffersFor, CarriedPayout, ApprovedNet, ActiveIndex,
      AddOffers;
    assert MAX_ROUNDS_REACHED != NO_PROVIDER_LEFT by {
      assert MAX_ROUNDS_REACHED[0] == 'M' && NO_PROVIDER_LEFT[0] == 'N';
    }
    expiresAt := now + config.offerTtlMinutes * MINUTE_MS;
    var net := ApprovedNet(db.quotes, j);
    payout := if net.Some? then CarriedPayout(OffersFor(db.offers, j), net.value) else 0;
  }

  /** A sweep that does not skip a job escalates it exactly when its offers outnumber the rounds
      allowed, or none are; otherwise it escalates it exactly when every provider that
      passes the gates was asked; in every remaining case it offers again. */
  lemma CoverDecides(db: Db, j: Id, providers: seq<E.Provider>, demand: E.Demand, ids: seq<Id>, config: SweepConfig,
                     now: int)
    requires E.DistinctProviders(providers) && config.providersPerRound > 0 && |ids| >= config.providersPerRound
    requires !Cover(db, j, EligibleIds(providers, demand, now), ids, config, now).1.Skipped?
    ensures Cover(db, j, EligibleIds(providers, demand, now), ids, config, now).1 ==
            if config.maxRounds == 0 || Count(db.offers, OfferedOn(j)) > config.maxRounds * config.providersPerRound
            then Escalated(MAX_ROUNDS_REACHED)
            else if forall p :: p in providers && E.Gates(p, demand, now) ==> HasOffer(db.offers, j, p.id)
            then Escalated(NO_PROVIDER_LEFT)
            else Reoffered
  {
    hide Cover, NextRound, E.Gates, E.RankedBefore, EligibleIds, HasOffer, InRankOrder, NotAsked, E.DistinctProviders,
      Count,
      AutomaticRounds;
    var chosen := NextInOrder(providers, demand, now, db.offers, j, config);
    CoverBranches(db, j, EligibleIds(providers, demand, now), ids, config, now);
    CountedOffers(db.offers, j);
    RoundsLeft(Count(db.offers, OfferedOn(j)), config);
    if chosen != [] { assert chosen[0] in chosen; }
  }

  lemma CoverBranches(db: Db, j: Id, eligible: seq<Id>, ids: seq<Id>, config: SweepConfig, now: int)
    requires config.providersPerRound > 0 && |ids| >= config.providersPerRound
    requires !Cover(db, j, eligible, ids, config, now).1.Skipped?
    ensures Cover(db, j, eligible, ids, config, now).1 ==
            if AutomaticRounds(|OffersFor(db.offers, j)|, config) >= config.maxRounds then Escalated(MAX_ROUNDS_REACHED)
            else if NextRound(eligible, db.offers, j, config) == [] then Escalated(NO_PROVIDER_LEFT)
            else Reoffered
  {
    hide NextRound, CreateOffers, AutomaticRounds, OffersFor, CarriedPayout, ApprovedNet, ActiveIndex, Escalate;
  }

  // ------------------------------------------------------------------- fan-outs

  function FirstIds(ids: seq<Id>, limit: nat): (r: seq<Id>)
    ensures |r| <= limit
  {
    if |ids| <= limit then ids else ids[..limit]
  }

  /** The fan-out of a request: the first so many eligible providers. */
  function FanRanked(db: Db, j: Id, scope: Scope, providers: seq<E.Provider>, demand: E.Demand, limit: nat,
                     ids: seq<Id>,
                     payout: int, expiresAt: int, now: int): Effect
    requires |ids| >= limit
  {
    var eligible := FirstIds(EligibleIds(providers, demand, now), limit);
    Fan(db, j, scope, eligible, ids[..|eligible|], payout, expiresAt, now)
  }

  /** Open offers at this payout, until this time. */
  ghost predicate OnTerms(offers: seq<Offer>, payout: int, expiresAt: int) {
    forall o :: o in offers ==> o.status.Pending? && o.payoutNetCents == payout && o.expiresAt == expiresAt
  }

  /** The best providers of all, and those of them not asked before. */
  lemma TopInOrder(providers: seq<E.Provider>, demand: E.Demand, now: int, offers: seq<Offer>, j: Id, limit: nat)
    returns (top: seq<E.Provider>, asked: seq<E.Provider>)
    requires E.DistinctProviders(providers)
    ensures var eligible := FirstIds(EligibleIds(providers, demand, now), limit);
      Names(eligible, top) && Distinct(eligible) && Names(NotAsked(eligible, offers, j), asked)
    ensures BestUnasked(top, [], j, providers, demand, now, limit)
    ensures InRankOrder(asked, demand) && AreUnasked(asked, top, offers, j)
  {
    hide E.Gates, E.RankedBefore, E.DistinctProviders, EligibleIds, InRankOrder, NotAsked, AreUnasked;
    var best := EligibleInOrder(providers, demand, now);
    top := FirstOfOrder(best, demand, limit);
    var eligible := FirstIds(EligibleIds(providers, demand, now), limit);
    forall p | p in top ensures p in best {
      var i :| 0 <= i < |top| && top[i] == p;
      assert best[i] == p;
    }
    BestDiffer(top, providers, demand);
    asked := UnaskedInOrder(top, eligible, demand, offers, j);
  }

  /** A fan-out asks, in rank order, those of the best providers that were not asked before,
      and is refused for want of providers only when none passes the gates. */
  lemma FanOutAsksBest(db: Db, j: Id, scope: Scope, providers: seq<E.Provider>, demand: E.Demand, limit: nat,
                       ids: seq<Id>,
                       payout: int, expiresAt: int, now: int)
    returns (top: seq<E.Provider>, asked: seq<E.Provider>)
    requires E.DistinctProviders(providers) && |ids| >= limit > 0
    ensures BestUnasked(top, [], j, providers, demand, now, limit)
    ensures InRankOrder(asked, demand) && AreUnasked(asked, top, db.offers, j)
    ensures var e := FanRanked(db, j, scope, providers, demand, limit, ids, payout, expiresAt, now);
      && |db.offers| <= |e.db.offers|
      && (if e.reply.Done?
          then Goes(e.db.offers[|db.offers|..], j, asked) && OnTerms(e.db.offers[|db.offers|..], payout, expiresAt)
          else e.db == db)
      && (e.reply == Refused(NoEligibleProvider) ==> forall p :: p in providers ==> !E.Gates(p, demand, now))
  {
    top, asked := TopInOrder(providers, demand, now, db.offers, j, limit);
    hide E.Gates, E.RankedBefore, E.DistinctProviders, EligibleIds, InRankOrder, NotAsked, AreUnasked, HasOffer;
    var eligible := FirstIds(EligibleIds(providers, demand, now), limit);
    FanAsks(db, j, scope, eligible, ids[..|eligible|], payout, expiresAt, now);
    if eligible == [] {
      forall p | p in providers ensures !E.Gates(p, demand, now) { NoOfferYet(j, p.id); }
    }
  }

  lemma NoOfferYet(j: Id, p: Id)
    ensures !HasOffer([], j, p)
  {
  }

  lemma FanAsks(db: Db, j: Id, scope: Scope, eligible: seq<Id>, ids: seq<Id>, payout: int, expiresAt: int, now: int)
    requires |ids| == |eligible| && Distinct(eligible)
    ensures var e := Fan(db, j, scope, eligible, ids, payout, expiresAt, now);
      && |db.offers| <= |e.db.offers| && (e.reply == Refused(NoEligibleProvider) ==> eligible == [])
      && (if e.reply.Done?
          then Asks(e.db.offers[|db.offers|..], j, NotAsked(eligible, db.offers, j))
               && OnTerms(e.db.offers[|db.offers|..], payout, expiresAt)
          else e.db == db)
  {
    AddsUnasked(db.offers, j, eligible, ids, payout, expiresAt);
    AddedRound(db.offers, j, eligible, ids, payout, expiresAt);
    hide RecordEvent, AddOffers, NotAsked, Asks, Visible, HasApprovedQuote;
  }

  // --------------------------------------------------------------------- sweeps

  /** What a sweep finds out about a job: its providers, with distances, and its demand. */
  datatype Facts = Facts(providers: Id -> seq<E.Provider>, demand: Id -> E.Demand)

  function RankedSupply(facts: Facts, ids: Id -> seq<Id>, now: int): Supply {
    Supply((j: Id) => EligibleIds(facts.providers(j), facts.demand(j), now), ids)
  }

  ghost predicate Known(facts: Facts) {
    forall j :: E.DistinctProviders(facts.providers(j))
  }

  /** The offer goes to a provider that passes every gate and was not asked before. */
  ghost predicate GoesRightly(o: Offer, before: seq<Offer>, facts: Facts, now: int) {
    exists p :: p in facts.providers(o.jobId) && p.id == o.providerId
                && E.Gates(p, facts.demand(o.jobId), now) && !HasOffer(before, o.jobId, p.id)
  }

  ghost predicate BetterRanked(o: Offer, x: Offer, facts: Facts) {
    exists p, q :: p in facts.providers(o.jobId) && q in facts.providers(o.jobId)
                   && p.id == o.providerId && q.id == x.providerId
                   && E.RankedBefore(p, q, facts.demand(o.jobId))
  }

  /** All new offers go rightly, and those on one job in rank order. */
  ghost predicate AddedRightly(added: seq<Offer>, before: seq<Offer>, jobs: seq<Id>, facts: Facts, now: int) {
    && (forall i :: 0 <= i < |added| ==> added[i].jobId in jobs && GoesRightly(added[i], before, facts, now))
    && (forall i, k :: 0 <= i < k < |added| && added[i].jobId == added[k].jobId ==>
          BetterRanked(added[i], added[k], facts))
  }

  lemma OneRoundRightly(added: seq<Offer>, chosen: seq<E.Provider>, before: seq<Offer>, j: Id, facts: Facts, now: int,
                        limit: nat)
    requires Goes(added, j, chosen) && BestUnasked(chosen, before, j, facts.providers(j), facts.demand(j), now, limit)
    ensures AddedRightly(added, before, [j], facts, now)
  {
    hide E.Gates, E.RankedBefore, HasOffer;
    forall i | 0 <= i < |added| ensures GoesRightly(added[i], before, facts, now) { assert chosen[i] in chosen; }
    forall i, k | 0 <= i < k < |added| ensures BetterRanked(added[i], added[k], facts) {
      assert chosen[i] in chosen && chosen[k] in chosen;
    }
  }

  lemma CoverRightly(db: Db, j: Id, facts: Facts, ids: Id -> seq<Id>, config: SweepConfig, now: int)
    requires Known(facts) && Enough(RankedSupply(facts, ids, now), config)
    ensures var supply := RankedSupply(facts, ids, now);
      var db' := Cover(db, j, supply.ranked(j), supply.ids(j), config, now).0;
      db.offers <= db'.offers && AddedRightly(db'.offers[|db.offers|..], db.offers, [j], facts, now)
  {
    var supply := RankedSupply(facts, ids, now);
    assert supply.ids(j) == ids(j) && |ids(j)| >= config.providersPerRound;
    assert E.DistinctProviders(facts.providers(j));
    hide Cover, EligibleIds, AddedRightly, BestUnasked, E.DistinctProviders;
    CoverEffect(db, j, supply.ranked(j), supply.ids(j), config, now);
    var chosen := RoundAsksBest(db, j, facts.providers(j), facts.demand(j), ids(j), config, now);
    var (db', c) := Cover(db, j, supply.ranked(j), supply.ids(j), config, now);
    if c.Reoffered? {
      OneRoundRightly(db'.offers[|db.offers|..], chosen, db.offers, j, facts, now, config.providersPerRound);
    } else {
      NothingAdded(db.offers, [j], facts, now);
    }
  }

  lemma NothingAdded(offers: seq<Offer>, jobs: seq<Id>, facts: Facts, now: int)
    ensures offers[|offers|..] == [] && AddedRightly([], offers, jobs, facts, now)
  {
  }

  /** Rounds on different jobs do not get into each other's way. */
  lemma RightlyConcat(a: seq<Offer>, b: seq<Offer>, before: seq<Offer>, j: Id, jobs: seq<Id>, facts: Facts, now: int)
    requires AddedRightly(a, before, [j], facts, now) && AddedRightly(b, before + a, jobs, facts, now) && j !in jobs
    ensures AddedRightly(a + b, before, [j] + jobs, facts, now)
  {
    hide E.Gates, BetterRanked;
    forall i | 0 <= i < |b| ensures GoesRightly(b[i], before, facts, now) {
      StillUnasked(b[i], before, a, facts, now);
    }
    hide GoesRightly;
    var all := a + b;
    forall i, k | 0 <= i < k < |all| && all[i].jobId == all[k].jobId ensures BetterRanked(all[i], all[k], facts) {
      if k < |a| { assert all[i] == a[i] && all[k] == a[k]; }
      else if i >= |a| { assert all[i] == b[i - |a|] && all[k] == b[k - |a|]; }
    }
  }

  lemma StillUnasked(o: Offer, before: seq<Offer>, a: seq<Offer>, facts: Facts, now: int)
    requires GoesRightly(o, before + a, facts, now)
    ensures GoesRightly(o, before, facts, now)
  {
    hide E.Gates;
    var p :| p in facts.providers(o.jobId) && p.id == o.providerId
             && E.Gates(p, facts.demand(o.jobId), now) && !HasOffer(before + a, o.jobId, p.id);
    forall x | x in before ensures x in before + a { }
    assert !HasOffer(before, o.jobId, p.id);
  }

  lemma RoundsJoin(o: seq<Offer>, o1: seq<Offer>, o2: seq<Offer>, jobs: seq<Id>, facts: Facts, now: int)
    requires jobs != [] && Distinct(jobs) && o <= o1 <= o2
    requires AddedRightly(o1[|o|..], o, [jobs[0]], facts, now) && AddedRightly(o2[|o1|..], o1, jobs[1..], facts, now)
    ensures AddedRightly(o2[|o|..], o, jobs, facts, now)
  {
    DistinctTail(jobs);
    hide AddedRightly, Distinct;
    var a, b := o1[|o|..], o2[|o1|..];
    assert o1 == o + a && o2[|o|..] == a + b;
    assert jobs == [jobs[0]] + jobs[1..];
    RightlyConcat(a, b, o, jobs[0], jobs[1..], facts, now);
  }

  lemma {:induction false} CoverAllRightly(db: Db, jobs: seq<Id>, facts: Facts, ids: Id -> seq<Id>, supply: Supply,
                                           config: SweepConfig, now: int)
    requires supply == RankedSupply(facts, ids, now) && Known(facts) && Enough(supply, config) && Distinct(jobs)
    ensures var db' := CoverAll(db, jobs, supply, config, now).0;
      db.offers <= db'.offers && AddedRightly(db'.offers[|db.offers|..], db.offers, jobs, facts, now)
    decreases |jobs|
  {
    hide Known, AddedRightly, Cover, RankedSupply, Distinct;
    if jobs == [] {
      NothingAdded(db.offers, jobs, facts, now);
    } else {
      var j := jobs[0];
      var db1 := Cover(db, j, supply.ranked(j), supply.ids(j), config, now).0;
      DistinctTail(jobs);
      CoverRightly(db, j, facts, ids, config, now);
      CoverAllRightly(db1, jobs[1..], facts, ids, supply, config, now);
      RoundsJoin(db.offers, db1.offers, CoverAll(db1, jobs[1..], supply, config, now).0.offers, jobs, facts, now);
    }
  }

  lemma ExpiryAsksNobody(a: seq<Offer>, b: seq<Offer>, j: Id, p: Id)
    requires |a| == |b| && forall i :: 0 <= i < |a| ==> b[i] == a[i].(status := b[i].status)
    ensures HasOffer(a, j, p) <==> HasOffer(b, j, p)
  {
    if HasOffer(a, j, p) {
      var i :| 0 <= i < |a| && a[i].jobId == j && a[i].providerId == p;
      assert b[i] in b;
    }
    if HasOffer(b, j, p) {
      var i :| 0 <= i < |b| && b[i].jobId == j && b[i].providerId == p;
      assert a[i] in a;
    }
  }

  /** Every offer a sweep makes goes to a provider that passes every gate of the job and was never
      asked about it before, and the offers on one job are in rank order. */
  lemma SweepAsksRightly(db: Db, facts: Facts, ids: Id -> seq<Id>, config: SweepConfig, now: int)
    requires Known(facts) && Enough(RankedSupply(facts, ids, now), config)
    ensures var db' := SweepAt(db, RankedSupply(facts, ids, now), config, now).0;
      && |db.offers| <= |db'.offers|
      && AddedRightly(db'.offers[|db.offers|..], db.offers, Uncovered(db.offers, now), facts, now)
  {
    var supply := RankedSupply(facts, ids, now);
    var db1 := ExpireOffers(db, now);
    ExpiryEffect(db, 0, now);
    hide RankedSupply, ExpireFrom, CoverAll, Known, AddedRightly;
    CoverAllRightly(db1, Uncovered(db.offers, now), facts, ids, supply, config, now);
    var db' := SweepAt(db, supply, config, now).0;
    LapsedRightly(db'.offers[|db.offers|..], db1.offers, db.offers, Uncovered(db.offers, now), facts, now);
  }

  lemma LapsedRightly(added: seq<Offer>, b: seq<Offer>, a: seq<Offer>, jobs: seq<Id>, facts: Facts, now: int)
    requires |a| == |b| && forall i :: 0 <= i < |a| ==> b[i] == a[i].(status := b[i].status)
    requires AddedRightly(added, b, jobs, facts, now)
    ensures AddedRightly(added, a, jobs, facts, now)
  {
    hide GoesRightly, BetterRanked;
    forall i | 0 <= i < |added| ensures GoesRightly(added[i], a, facts, now) {
      UnaskedBefore(added[i], b, a, facts, now);
    }
  }

  lemma UnaskedBefore(o: Offer, b: seq<Offer>, a: seq<Offer>, facts: Facts, now: int)
    requires |a| == |b| && forall i :: 0 <= i < |a| ==> b[i] == a[i].(status := b[i].status)
    requires GoesRightly(o, b, facts, now)
    ensures GoesRightly(o, a, facts, now)
  {
    hide E.Gates, HasOffer;
    ExpiryAsksNobody(a, b, o.jobId, o.providerId);
  }
}
