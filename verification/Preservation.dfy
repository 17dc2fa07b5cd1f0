/** Every step of the protocol keeps the invariant. */
module Preservation {
  import opened Contracts
  import opened Counting
  import opened OutboxKeys
  import opened Db
  import opened Dispatch
  import opened Machine
  import opened Tallies
  import opened Invariants

  lemma RecordKeepsCore(db: Db, e: Event, now: int)
    requires Core(db) && e.jobId in db.jobs && WellKeyed(e.jobId, e.kind, e.fields)
    ensures Core(RecordEvent(db, e, now))
  {
    RecordKeepsOutbox(db, e, now);
  }

  /** An event that neither moves a job nor is counted. */
  predicate Uncounted(e: Event) {
    && e.move.None?
    && !(e.kind in {OfferAccepted, AssignmentFellThrough, QuoteApproved, QuoteRejected, JobCompleted, JobCancelled})
  }

  lemma RecordGood(db: Db, e: Event, now: int, j: Id)
    requires j in db.jobs && Good(TallyOf(db, j)) && Uncounted(e)
    ensures Good(TallyOf(RecordEvent(db, e, now), j))
  {
    EventTally(db, e, now, j);
    hide RecordEvent, TallyOf;
    assert WithEvent(TallyOf(db, j), j, e) == TallyOf(db, j);
  }

  lemma RecordKeeps(db: Db, e: Event, now: int)
    requires Inv(db) && e.jobId in db.jobs && WellKeyed(e.jobId, e.kind, e.fields) && Uncounted(e)
    ensures Inv(RecordEvent(db, e, now))
  {
    hide Core, TallyOf, Good, RecordEvent, WellKeyed;
    RecordKeepsCore(db, e, now);
    forall j | j in db.jobs ensures Good(TallyOf(RecordEvent(db, e, now), j)) {
      RecordGood(db, e, now, j);
    }
  }

  lemma MoveTally(db: Db, j: Id, to: JobStatus, kind: EventType, fields: map<string, Part>, now: int, i: Id)
    requires j in db.jobs && i in db.jobs
    ensures i in MoveJob(db, j, to, kind, fields, now).jobs
    ensures var t := TallyOf(db, i);
      TallyOf(MoveJob(db, j, to, kind, fields, now), i) ==
      if i != j then t
      else WithEvent(t.(status := to), j, Event(j, kind, Some(Move(db.jobs[j].status, to)), fields))
  {
    var job := db.jobs[j];
    var e := Event(j, kind, Some(Move(job.status, to)), fields);
    var db1 := db.(jobs := db.jobs[j := job.(status := to)]);
    assert TallyOf(db1, i) == if i == j then TallyOf(db, i).(status := to) else TallyOf(db, i);
    EventTally(db1, e, now, i);
  }

  lemma MoveKeepsCore(db: Db, j: Id, to: JobStatus, kind: EventType, fields: map<string, Part>, now: int)
    requires Core(db) && j in db.jobs && WellKeyed(j, kind, fields)
    ensures Core(MoveJob(db, j, to, kind, fields, now))
  {
    var job := db.jobs[j];
    var e := Event(j, kind, Some(Move(job.status, to)), fields);
    var db1 := db.(jobs := db.jobs[j := job.(status := to)]);
    assert OutboxOk(db1) && Refs(db1);
    RecordKeepsCore(db1, e, now);
  }

  lemma NewJobTally(db: Db, db1: Db, id: Id)
    requires Refs(db) && id !in db.jobs && id in db1.jobs && db1.jobs[id].status.Draft?
    requires db1.events == db.events && db1.quotes == db.quotes && db1.offers == db.offers
      && db1.assignments == db.assignments
    ensures Good(TallyOf(db1, id))
  {
    CountSame([], db.events, MovesOf(id));
    CountSame([], db.events, KindOf(id, OfferAccepted));
    CountSame([], db.events, KindOf(id, AssignmentFellThrough));
    CountSame([], db.events, KindOf(id, QuoteApproved));
    CountSame([], db.events, KindOf(id, QuoteRejected));
    CountSame([], db.events, KindOf(id, JobCompleted));
    CountSame([], db.events, KindOf(id, JobCancelled));
    CountSame([], db.assignments, ActiveOn(id));
    CountSame([], db.assignments, EngagedOn(id));
    CountSame([], db.quotes, QuotedFor(id));
    CountSame([], db.quotes, ApprovedFor(id));
    CountSame([], db.quotes, RejectedFor(id));
    CountSame([], db.offers, OfferedOn(id));
    CountSame([], db.offers, SpentOn(id));
    ReplayNothing(db.events, id);
  }

  lemma {:induction false} ReplayNothing(events: seq<Event>, j: Id)
    requires forall e :: e in events ==> e.jobId != j
    ensures Replay(events, j) == Some(Draft)
  {
    if events != [] { ReplayNothing(events[..|events| - 1], j); }
  }

  /** The tally reads the job's status, the history, quotes, offers and assignments; nothing else. */
  lemma TallySame(db: Db, db1: Db, j: Id)
    requires j in db.jobs && j in db1.jobs && db1.jobs[j].status == db.jobs[j].status
    requires db1.events == db.events && db1.quotes == db.quotes && db1.offers == db.offers
      && db1.assignments == db.assignments
    ensures TallyOf(db1, j) == TallyOf(db, j)
  {
  }

  lemma CreateJobKeeps(db: Db, id: Id, org: Id, now: int)
    requires Inv(db) && IsUuid(id) && id !in db.jobs
    ensures Inv(CreateJob(db, id, org, now).db)
  {
    hide TallyOf, RecordEvent, OutboxOk, AskedOnce, IsUuid, Good;
    var db1 := db.(jobs := db.jobs[id := Job(org, Draft, now)]);
    NewJobCore(db, db1, id);
    forall j | j in db1.jobs ensures Good(TallyOf(db1, j)) {
      if j == id {
        NewJobTally(db, db1, id);
      } else { TallySame(db, db1, j); }
    }
    hide Core;
    assert DiscriminatorFor(JobCreated, map[]) == [];
    assert WellKeyed(id, JobCreated, map[]);
    RecordKeeps(db1, Event(id, JobCreated, None, map[]), now);
  }

  lemma NewJobCore(db: Db, db1: Db, id: Id)
    requires Core(db) && IsUuid(id) && id !in db.jobs && id in db1.jobs
    requires db1 == db.(jobs := db.jobs[id := db1.jobs[id]])
    ensures Core(db1)
  {
    hide Projected, RowsIndexed, AskedOnce;
  }

  /** The moves that only change the status: triage, start, complete, cancel. */
  predicate PlainMove(to: JobStatus, kind: EventType) {
    || (to.Triaged? && kind.TriageApproved?)
    || (to.InProgress? && kind.WorkStarted?)
    || (to.Completed? && kind.JobCompleted?)
    || (to.Cancelled? && kind.JobCancelled?)
  }

  lemma MoveGood(t: Tally, to: JobStatus, e: Event)
    requires Good(t) && PlainMove(to, e.kind) && CanTransition(t.status, to) && e.move == Some(Move(t.status, to))
    ensures Good(WithEvent(t.(status := to), e.jobId, e))
  {
  }

  lemma TransitionKeeps(db: Db, j: Id, scope: Scope, to: JobStatus, kind: EventType, fields: map<string, Part>,
                        now: int)
    requires Inv(db) && PlainMove(to, kind) && DiscriminatorFor(kind, fields) == []
    ensures Inv(TransitionJob(db, j, scope, to, kind, fields, now).db)
  {
    hide TallyOf, Good, RecordEvent, MoveJob, OutboxOk, AskedOnce, WithEvent;
    if TransitionJob(db, j, scope, to, kind, fields, now).reply.Done? {
      MoveKeepsCore(db, j, to, kind, fields, now);
      var db' := MoveJob(db, j, to, kind, fields, now);
      hide Core, PlainMove, CanTransition;
      forall i | i in db'.jobs ensures Good(TallyOf(db', i)) {
        MoveKeys(db, j, to, kind, fields, now);
        MoveTally(db, j, to, kind, fields, now, i);
        StatusOf(db, j);
        if i == j { MoveGood(TallyOf(db, j), to, Event(j, kind, Some(Move(db.jobs[j].status, to)), fields)); }
      }
    }
  }

  lemma MoveKeys(db: Db, j: Id, to: JobStatus, kind: EventType, fields: map<string, Part>, now: int)
    requires j in db.jobs
    ensures MoveJob(db, j, to, kind, fields, now).jobs.Keys == db.jobs.Keys
  {
    hide OutboxForEvent;
  }

  lemma StatusOf(db: Db, j: Id)
    requires j in db.jobs
    ensures TallyOf(db, j).status == db.jobs[j].status
  {
  }

  function QuoteSentEvent(q: Quote): Event {
    Event(q.jobId, QuoteSent, None, map["quoteId" := Text(q.id), "grossCents" := Number(q.grossCents)])
  }

  /** A price puts a triaged job's only quote on it and moves it to Quoted. */
  lemma PriceGood(t: Tally, q: Quote, e: Event)
    requires Good(t) && t.status.Triaged? && q.status.Sent?
    requires e.jobId == q.jobId && e.kind.JobQuoted? && e.move == Some(Move(Triaged, Quoted))
    ensures Good(WithEvent(WithQuote(t, q.jobId, q).(status := Quoted), q.jobId, e))
  {
  }

  lemma PriceCore(db: Db, q: Quote, scope: Scope, now: int)
    requires Core(db) && Admissible(db, PriceJob(q, scope, now)) && q.jobId in db.jobs
    ensures Core(CreateQuote(db, q, now))
  {
    var db0 := db.(quotes := db.quotes + [q]);
    assert Core(db0) by { hide Projected, RowsIndexed, AskedOnce, WellKeyed, IsUuid; }
    hide OutboxForEvent, Core;
    RecordKeepsCore(db0, QuoteSentEvent(q), now);
  }

  lemma PriceTally(db: Db, q: Quote, now: int, i: Id)
    requires i in db.jobs && q.jobId in db.jobs
    ensures TallyOf(CreateQuote(db, q, now), i) == WithQuote(TallyOf(db, i), i, q)
  {
    hide RecordEvent;
    QuoteTally(db, q, i);
    EventTally(db.(quotes := db.quotes + [q]), QuoteSentEvent(q), now, i);
    hide TallyOf;
    assert WithEvent(WithQuote(TallyOf(db, i), i, q), i, QuoteSentEvent(q)) == WithQuote(TallyOf(db, i), i, q);
  }

  lemma PriceKeeps(db: Db, q: Quote, scope: Scope, now: int)
    requires Inv(db) && Admissible(db, PriceJob(q, scope, now))
    ensures Inv(Price(db, q, scope, now).db)
  {
    hide TallyOf, Good, RecordEvent, OutboxOk, AskedOnce, Refs, MoveJob, WithEvent, WithQuote;
    if q.jobId in db.jobs && Visible(db, q.jobId, scope) && db.jobs[q.jobId].status.Triaged? {
      var db1 := CreateQuote(db, q, now);
      PriceCore(db, q, scope, now);
      assert Visible(db1, q.jobId, scope);
      hide CreateQuote, Visible;
      var fields := map["quoteId" := Text(q.id), "grossCents" := Number(q.grossCents)];
      assert WellKeyed(q.jobId, JobQuoted, fields) by { UuidOf(db, q.jobId); }
      MoveKeepsCore(db1, q.jobId, Quoted, JobQuoted, fields, now);
      MoveKeys(db1, q.jobId, Quoted, JobQuoted, fields, now);
      hide Core, WellKeyed;
      var db2 := MoveJob(db1, q.jobId, Quoted, JobQuoted, fields, now);
      forall i | i in db2.jobs ensures Good(TallyOf(db2, i)) {
        PriceTally(db, q, now, i);
        MoveTally(db1, q.jobId, Quoted, JobQuoted, fields, now, i);
        StatusOf(db, i);
        if i == q.jobId {
          PriceGood(TallyOf(db, i), q, Event(i, JobQuoted, Some(Move(Triaged, Quoted)), fields));
        } else { Elsewhere(TallyOf(db, i), i, q); }
      }
    }
  }

  lemma Elsewhere(t: Tally, i: Id, q: Quote)
    requires i != q.jobId
    ensures WithQuote(t, i, q) == t
  {
  }

  lemma UuidOf(db: Db, j: Id)
    requires Core(db) && j in db.jobs
    ensures IsUuid(j)
  {
  }

  /** The decision on a quote still open, in numbers. */
  lemma DecideGood(t: Tally, t1: Tally, e: Event)
    requires Good(t) && t.approved == 0 && t.rejected == 0 && t.quotes >= 1 && e.move.None?
    requires t1 == t.(approved := One(e.kind.QuoteApproved?), rejected := One(e.kind.QuoteRejected?))
    requires e.kind.QuoteApproved? || e.kind.QuoteRejected?
    ensures Good(WithEvent(t1, e.jobId, e))
  {
  }

  lemma QuoteCore(db: Db, k: nat, status: QuoteStatus)
    requires Core(db) && k < |db.quotes|
    ensures Core(db.(quotes := db.quotes[k := db.quotes[k].(status := status)]))
  {
    hide Projected, RowsIndexed, AskedOnce, WellKeyed, IsUuid;
    assert db.quotes[k] in db.quotes;
  }

  lemma DecideKeeps(db: Db, id: Id, scope: Scope, approve: bool, now: int)
    requires Inv(db)
    ensures Inv(DecideQuote(db, id, scope, approve, now).db)
  {
    hide TallyOf, Good, RecordEvent, OutboxOk, AskedOnce, WithEvent, One, WellKeyed;
    var k := QuoteIndex(db.quotes, id);
    if k < |db.quotes| && QuoteInScope(db.quotes[k], scope) && db.quotes[k].status.Sent? {
      var quote := db.quotes[k];
      assert quote in db.quotes;
      assert Visible(db, quote.jobId, scope);
      hide Refs;
      if quote.validUntil <= now {
        RequoteKeeps(db, k, Lapsed);
      } else {
        AnswerKeeps(db, k, approve, now);
      }
    }
  }

  lemma AnswerKeeps(db: Db, k: nat, approve: bool, now: int)
    requires Inv(db) && k < |db.quotes| && db.quotes[k].status.Sent?
    ensures var q := db.quotes[k];
      var status := if approve then Approved else Rejected;
      var kind := if approve then QuoteApproved else QuoteRejected;
      Inv(RecordEvent(db.(quotes := db.quotes[k := q.(status := status)]),
                      Event(q.jobId, kind, None, map["quoteId" := Text(q.id)]), now))
  {
    hide TallyOf, Good, RecordEvent, OutboxOk, AskedOnce, WithEvent;
    var quote := db.quotes[k];
    var kind := if approve then QuoteApproved else QuoteRejected;
    var q := quote.(status := if approve then Approved else Rejected);
    var e := Event(quote.jobId, kind, None, map["quoteId" := Text(quote.id)]);
    var db1 := db.(quotes := db.quotes[k := q]);
    assert quote in db.quotes;
    assert WellKeyed(e.jobId, e.kind, e.fields) by { assert DiscriminatorFor(e.kind, e.fields) == [Text(quote.id)]; }
    hide WellKeyed, Refs;
    QuoteCore(db, k, q.status);
    RecordKeepsCore(db1, e, now);
    hide Core;
    var db2 := RecordEvent(db1, e, now);
    SentAlone(db, k);
    forall i | i in db2.jobs ensures Good(TallyOf(db2, i)) {
      RequoteTally(db, k, q, i);
      EventTally(db1, e, now, i);
      if i == quote.jobId {
        DecideGood(TallyOf(db, i), TallyOf(db1, i), e);
      } else { EventElsewhere(TallyOf(db, i), i, e); }
    }
  }

  lemma EventElsewhere(t: Tally, i: Id, e: Event)
    requires i != e.jobId
    ensures WithEvent(t, i, e) == t
  {
  }

  /** A quote still open is its job's only one, so nothing was decided on the job. */
  lemma SentAlone(db: Db, k: nat)
    requires Inv(db) && k < |db.quotes| && db.quotes[k].status.Sent?
    ensures db.quotes[k].jobId in db.jobs
    ensures var t := TallyOf(db, db.quotes[k].jobId); t.approved == 0 && t.rejected == 0 && t.quotes >= 1
  {
    var j := db.quotes[k].jobId;
    assert db.quotes[k] in db.quotes;
    assert Good(TallyOf(db, j));
    hide Inv;
    CountSome(db.quotes, k, QuotedFor(j));
    if Count(db.quotes, ApprovedFor(j)) >= 1 {
      var i := CountWitness(db.quotes, ApprovedFor(j));
      CountUnique(db.quotes, i, k, QuotedFor(j));
    }
    if Count(db.quotes, RejectedFor(j)) >= 1 {
      var i := CountWitness(db.quotes, RejectedFor(j));
      CountUnique(db.quotes, i, k, QuotedFor(j));
    }
  }

  lemma RequoteKeeps(db: Db, k: nat, status: QuoteStatus)
    requires Inv(db) && k < |db.quotes| && db.quotes[k].status.Sent? && status.Lapsed?
    ensures Inv(db.(quotes := db.quotes[k := db.quotes[k].(status := status)]))
  {
    hide TallyOf, Core;
    var q := db.quotes[k].(status := status);
    var db1 := db.(quotes := db.quotes[k := q]);
    QuoteCore(db, k, status);
    forall i | i in db1.jobs ensures Good(TallyOf(db1, i)) {
      RequoteTally(db, k, q, i);
    }
  }

  // ------------------------------------------------------------------ offers

  lemma ApprovedCounts(db: Db, j: Id)
    requires Inv(db) && j in db.jobs
    ensures HasApprovedQuote(db.quotes, j) <==> TallyOf(db, j).approved == 1
    ensures ApprovedNet(db.quotes, j).Some? <==> HasApprovedQuote(db.quotes, j)
    ensures ApprovedNet(db.quotes, j).Some? ==> ApprovedNet(db.quotes, j).value > 0
  {
    ApprovedAtMostOnce(db, j);
    QuotesPositive(db);
    hide Inv, Count;
    HasApprovedCounts(db.quotes, j);
    ApprovedNetFound(db.quotes, j);
  }

  lemma ApprovedAtMostOnce(db: Db, j: Id)
    requires Inv(db) && j in db.jobs
    ensures TallyOf(db, j).approved == Count(db.quotes, ApprovedFor(j)) <= 1
  {
    hide Core, Count;
    assert Good(TallyOf(db, j));
  }

  lemma QuotesPositive(db: Db)
    requires Inv(db)
    ensures forall q :: q in db.quotes ==> q.netCents > 0
  {
    hide JobsGood, AskedOnce, OutboxOk;
  }

  lemma HasApprovedCounts(quotes: seq<Quote>, j: Id)
    ensures HasApprovedQuote(quotes, j) <==> Count(quotes, ApprovedFor(j)) >= 1
  {
    if HasApprovedQuote(quotes, j) {
      var q :| q in quotes && q.jobId == j && q.status.Approved?;
      var i :| 0 <= i < |quotes| && quotes[i] == q;
      CountSome(quotes, i, ApprovedFor(j));
    }
    if Count(quotes, ApprovedFor(j)) >= 1 {
      var i := CountWitness(quotes, ApprovedFor(j));
      assert quotes[i] in quotes;
    }
  }

  lemma {:induction false} ApprovedNetFound(quotes: seq<Quote>, j: Id)
    ensures ApprovedNet(quotes, j).Some? <==> HasApprovedQuote(quotes, j)
    ensures ApprovedNet(quotes, j).Some? ==>
      exists q :: q in quotes && q.jobId == j && q.status.Approved? && q.netCents == ApprovedNet(quotes, j).value
  {
    if quotes != [] {
      var q := quotes[0];
      assert quotes == [q] + quotes[1..];
      assert q in quotes;
      ApprovedNetFound(quotes[1..], j);
    }
  }

  /** Adding one offer to a job whose price is approved. */
  lemma AddOneKeeps(db: Db, o: Offer)
    requires Inv(db) && o.jobId in db.jobs && IsUuid(o.id) && o.payoutNetCents > 0 && o.status.Pending?
    requires !HasOffer(db.offers, o.jobId, o.providerId) && TallyOf(db, o.jobId).approved == 1
    ensures Inv(db.(offers := db.offers + [o]))
  {
    var db1 := db.(offers := db.offers + [o]);
    assert AskedOnce(db1.offers) by {
      forall a, b | 0 <= a < b < |db1.offers| ensures !SameTarget(db1.offers[a], db1.offers[b]) {
        assert db1.offers[a] in db.offers;
      }
    }
    forall i | i in db1.jobs ensures Good(TallyOf(db1, i)) {
      assert Good(TallyOf(db, i));
      OfferTally(db, o, i);
    }
  }

  lemma {:induction false} AddOffersKeeps(db: Db, j: Id, providers: seq<Id>, ids: seq<Id>, payout: int, expiresAt: int)
    requires Inv(db) && j in db.jobs && |ids| == |providers| && payout > 0
    requires forall i :: 0 <= i < |ids| ==> IsUuid(ids[i])
    requires TallyOf(db, j).approved == 1
    ensures Inv(db.(offers := AddOffers(db.offers, j, providers, ids, payout, expiresAt)))
    decreases |providers|
  {
    hide Good, TallyOf, RowsIndexed, RecordEvent, Projected;
    if providers == [] {
      assert db.(offers := db.offers) == db;
    } else if HasOffer(db.offers, j, providers[0]) {
      AddOffersKeeps(db, j, providers[1..], ids[1..], payout, expiresAt);
    } else {
      var o := Offer(ids[0], j, providers[0], Pending, payout, expiresAt);
      var db1 := db.(offers := db.offers + [o]);
      AddOneKeeps(db, o);
      OfferTally(db, o, j);
      AddOffersKeeps(db1, j, providers[1..], ids[1..], payout, expiresAt);
      assert db1.(offers := AddOffers(db1.offers, j, providers[1..], ids[1..], payout, expiresAt))
          == db.(offers := AddOffers(db1.offers, j, providers[1..], ids[1..], payout, expiresAt));
    }
  }

  lemma CreateOffersKeeps(db: Db, j: Id, providers: seq<Id>, ids: seq<Id>, payout: int, expiresAt: int, now: int)
    requires Inv(db) && j in db.jobs && |ids| == |providers| && payout > 0
    requires forall i :: 0 <= i < |ids| ==> IsUuid(ids[i])
    requires HasApprovedQuote(db.quotes, j)
    ensures Inv(CreateOffers(db, j, providers, ids, payout, expiresAt, now))
  {
    hide Good, TallyOf, RowsIndexed, RecordEvent, Projected;
    ApprovedCounts(db, j);
    AddOffersKeeps(db, j, providers, ids, payout, expiresAt);
    var offers := AddOffers(db.offers, j, providers, ids, payout, expiresAt);
    RecordKeeps(db.(offers := offers),
                Event(j, OffersSent, None,
                      map["providerCount" := Number(|offers| - |db.offers|), "payoutNetCents" := Number(payout)]), now);
  }

  lemma CommitTally(db: Db, k: nat, now: int, i: Id)
    requires k < |db.offers| && db.offers[k].status.Pending?
    requires db.offers[k].jobId in db.jobs && i in db.jobs
    ensures i in Commit(db, k, now).jobs
    ensures var j, t, t' := db.offers[k].jobId, TallyOf(db, i), TallyOf(Commit(db, k, now), i);
      if i != j then t' == t.(spent := t'.spent) && t.spent <= t'.spent
      else
        && t' == WithEvent(
                   t.(status := Assigned, active := t.active + 1, engagements := t.engagements + 1, spent := t'.spent),
                   j, Event(j, OfferAccepted, Some(Move(db.jobs[j].status, Assigned)), CommitFields(db.offers[k])))
        && t.spent + 1 <= t'.spent
  {
    hide TallyOf, MoveJob, RecordEvent;
    var offer := db.offers[k];
    var o := offer.(status := Accepted);
    var db1 := db.(offers := db.offers[k := o]);
    AnsweredOneTally(db, k, o, i);
    var after := Withdraw(db1.offers, offer.jobId, offer.id);
    var db2 := db1.(offers := after);
    AnsweredTally(db1, after, i);
    hide Answered;
    var a := Assignment(offer.jobId, offer.providerId, Active, offer.payoutNetCents);
    var db3 := db2.(assignments := db2.assignments + [a]);
    AssignmentTally(db2, a, i);
    MoveTally(db3, offer.jobId, Assigned, OfferAccepted, CommitFields(offer), now, i);
    assert MoveJob(db3, offer.jobId, Assigned, OfferAccepted, CommitFields(offer), now) == Commit(db, k, now);
  }

  function CommitFields(o: Offer): map<string, Part> {
    map["offerId" := Text(o.id), "providerId" := Text(o.providerId)]
  }

  /** An acceptance on a job without an active assignment, in numbers. */
  lemma CommitGood(t: Tally, t': Tally, e: Event)
    requires Good(t) && t.status.Quoted? && t.spent + 1 <= t'.spent <= t'.offers
    requires e.kind.OfferAccepted? && e.move == Some(Move(Quoted, Assigned))
    requires t' ==
             WithEvent(t.(status := Assigned, active := t.active + 1, engagements := t.engagements + 1,
                          spent := t'.spent), e.jobId, e)
    ensures Good(t')
  {
  }

  lemma SpentGood(t: Tally, t': Tally)
    requires Good(t) && t' == t.(spent := t'.spent) && t.spent <= t'.spent <= t'.offers
    ensures Good(t')
  {
  }

  lemma SpentBound(db: Db, j: Id)
    requires j in db.jobs
    ensures TallyOf(db, j).spent <= TallyOf(db, j).offers
  {
    CountMono(db.offers, db.offers, SpentOn(j), OfferedOn(j));
  }

  lemma AnsweredCore(db: Db, after: seq<Offer>)
    requires Core(db) && Answered(db.offers, after)
    ensures Core(db.(offers := after))
  {
    hide Projected, RowsIndexed, WellKeyed, IsUuid;
    forall o | o in after ensures IsUuid(o.id) && o.jobId in db.jobs && o.payoutNetCents > 0 {
      var i :| 0 <= i < |after| && after[i] == o;
      assert db.offers[i] in db.offers;
    }
    assert AskedOnce(after) by {
      forall a, b | 0 <= a < b < |after| ensures !SameTarget(after[a], after[b]) {
        assert !SameTarget(db.offers[a], db.offers[b]);
      }
    }
  }

  lemma AnsweredKeeps(db: Db, after: seq<Offer>)
    requires Inv(db) && Answered(db.offers, after)
    ensures Inv(db.(offers := after))
  {
    hide Core, TallyOf, Good;
    var db1 := db.(offers := after);
    AnsweredCore(db, after);
    forall i | i in db1.jobs ensures Good(TallyOf(db1, i)) {
      AnsweredTally(db, after, i);
      SpentBound(db1, i);
      SpentGood(TallyOf(db, i), TallyOf(db1, i));
    }
  }

  lemma EngageCore(db: Db, a: Assignment)
    requires Core(db) && a.jobId in db.jobs && a.payoutNetCents > 0
    ensures Core(db.(assignments := db.assignments + [a]))
  {
    hide OutboxOk, AskedOnce, WellKeyed, IsUuid;
    assert OutboxOk(db.(assignments := db.assignments + [a])) by {
      SameOutbox(db, db.(assignments := db.assignments + [a]));
    }
  }

  lemma SameOutbox(db: Db, db1: Db)
    requires OutboxOk(db)
    requires db1.outbox == db.outbox && db1.keys == db.keys && db1.nextRow == db.nextRow && db1.events == db.events
    ensures OutboxOk(db1)
  {
  }

  lemma CommitCore(db: Db, k: nat, now: int)
    requires Core(db) && k < |db.offers| && db.offers[k].jobId in db.jobs && db.offers[k].status.Pending?
    ensures Core(Commit(db, k, now))
    ensures Commit(db, k, now).jobs.Keys == db.jobs.Keys
  {
    hide OutboxOk, AskedOnce, MoveJob, RecordEvent;
    var offer := db.offers[k];
    assert offer in db.offers;
    assert WellKeyed(offer.jobId, OfferAccepted, CommitFields(offer)) by {
      assert DiscriminatorFor(OfferAccepted, CommitFields(offer)) == [Text(offer.id)];
    }
    assert offer.payoutNetCents > 0;
    hide WellKeyed, Core;
    var after := Withdraw(db.offers[k := offer.(status := Accepted)], offer.jobId, offer.id);
    AnsweredCore(db, after);
    var db2 := db.(offers := after);
    var a := Assignment(offer.jobId, offer.providerId, Active, offer.payoutNetCents);
    EngageCore(db2, a);
    var db3 := db2.(assignments := db2.assignments + [a]);
    MoveKeepsCore(db3, offer.jobId, Assigned, OfferAccepted, CommitFields(offer), now);
    MoveKeys(db3, offer.jobId, Assigned, OfferAccepted, CommitFields(offer), now);
    assert MoveJob(db3, offer.jobId, Assigned, OfferAccepted, CommitFields(offer), now) == Commit(db, k, now);
  }

  lemma CommitKeeps(db: Db, k: nat, now: int)
    requires Inv(db) && k < |db.offers| && db.offers[k].jobId in db.jobs && db.offers[k].status.Pending?
    requires db.jobs[db.offers[k].jobId].status.Quoted?
    ensures Inv(Commit(db, k, now))
  {
    hide Core, TallyOf, Good, Commit, WithEvent;
    var db', j := Commit(db, k, now), db.offers[k].jobId;
    CommitCore(db, k, now);
    forall i | i in db'.jobs ensures Good(TallyOf(db', i)) {
      CommitTally(db, k, now, i);
      SpentBound(db', i);
      StatusOf(db, i);
      if i == j {
        CommitGood(TallyOf(db, i), TallyOf(db', i),
                   Event(j, OfferAccepted, Some(Move(Quoted, Assigned)), CommitFields(db.offers[k])));
      } else { SpentGood(TallyOf(db, i), TallyOf(db', i)); }
    }
  }

  lemma AcceptKeeps(db: Db, id: Id, p: Id, now: int)
    requires Inv(db)
    ensures Inv(AcceptOffer(db, id, p, now).db)
  {
    hide Inv, Commit;
    var e := AcceptOffer(db, id, p, now);
    var k := OfferIndex(db.offers, id);
    if e.reply.Done? {
      CommitKeeps(db, k, now);
    } else if k < |db.offers| {
      AnsweredKeeps(db, e.db.offers);
      assert e.db == db.(offers := e.db.offers);
    }
  }

  lemma DeclineKeeps(db: Db, id: Id, p: Id, now: int)
    requires Inv(db)
    ensures Inv(DeclineOffer(db, id, p, now).db)
  {
    hide Good, TallyOf, RowsIndexed, RecordEvent, Projected;
    if DeclineOffer(db, id, p, now).reply.Done? {
      var k := OfferIndex(db.offers, id);
      var offer := db.offers[k];
      assert offer in db.offers;
      var after := db.offers[k := offer.(status := Declined)];
      AnsweredKeeps(db, after);
      RecordKeeps(db.(offers := after),
                  Event(offer.jobId, OfferDeclined, None,
                        map["offerId" := Text(offer.id), "providerId" := Text(offer.providerId)]), now);
    }
  }

  lemma ExpireOneKeeps(db: Db, k: nat, now: int)
    requires Inv(db) && k < |db.offers|
    ensures Inv(ExpireOne(db, k, now))
  {
    hide Good, TallyOf, RowsIndexed, RecordEvent, Projected;
    var offer := db.offers[k];
    assert offer in db.offers;
    if Due(offer, now) {
      var after := db.offers[k := offer.(status := Expired)];
      AnsweredKeeps(db, after);
      RecordKeeps(db.(offers := after), Event(offer.jobId, OfferExpired, None, map["offerId" := Text(offer.id)]), now);
    }
  }

  lemma {:induction false} ExpireKeeps(db: Db, k: nat, now: int)
    requires Inv(db) && k <= |db.offers|
    ensures Inv(ExpireFrom(db, k, now))
    decreases |db.offers| - k
  {
    hide Good, TallyOf, RowsIndexed, RecordEvent, Projected;
    if k < |db.offers| {
      ExpireOneKeeps(db, k, now);
      ExpireKeeps(ExpireOne(db, k, now), k + 1, now);
    }
  }

  /** Releasing the active assignment and returning the job to Quoted, in numbers. */
  lemma FallbackGood(t: Tally, t1: Tally, e: Event)
    requires Good(t) && t.active >= 1 && CanTransition(t.status, Quoted) && t1 == t.(active := t.active - 1)
    requires e.kind.AssignmentFellThrough? && e.move == Some(Move(t.status, Quoted))
    ensures Good(WithEvent(t1.(status := Quoted), e.jobId, e))
  {
  }

  lemma ReleaseCore(db: Db, k: nat)
    requires Core(db) && k < |db.assignments|
    ensures Core(db.(assignments := db.assignments[k := db.assignments[k].(status := FellThrough)]))
  {
    hide OutboxOk, AskedOnce, WellKeyed, IsUuid;
    assert db.assignments[k] in db.assignments;
    SameOutbox(db, db.(assignments := db.assignments[k := db.assignments[k].(status := FellThrough)]));
  }

  lemma FallbackKeeps(db: Db, j: Id, now: int)
    requires Inv(db)
    ensures Inv(Fallback(db, j, now).db)
  {
    hide TallyOf, Good, MoveJob, WithEvent, OutboxOk, Refs, AskedOnce;
    if Fallback(db, j, now).reply.Done? {
      var k := ActiveIndex(db.assignments, j);
      var a := db.assignments[k];
      var db1 := db.(assignments := db.assignments[k := a.(status := FellThrough)]);
      var fields := map["providerId" := Text(a.providerId)];
      assert WellKeyed(j, AssignmentFellThrough, fields) by {
        UuidOf(db, j);
        assert DiscriminatorFor(AssignmentFellThrough, fields) == [];
      }
      hide WellKeyed, Core, CanTransition;
      ReleaseCore(db, k);
      MoveKeepsCore(db1, j, Quoted, AssignmentFellThrough, fields, now);
      MoveKeys(db1, j, Quoted, AssignmentFellThrough, fields, now);
      var db2 := MoveJob(db1, j, Quoted, AssignmentFellThrough, fields, now);
      forall i | i in db2.jobs ensures Good(TallyOf(db2, i)) {
        ReleaseTally(db, k, i);
        MoveTally(db1, j, Quoted, AssignmentFellThrough, fields, now, i);
        StatusOf(db, i);
        if i == j {
          FallbackGood(TallyOf(db, i), TallyOf(db1, i),
                       Event(j, AssignmentFellThrough, Some(Move(db.jobs[j].status, Quoted)), fields));
        }
      }
    }
  }

  lemma CoverKeeps(db: Db, j: Id, eligible: seq<Id>, ids: seq<Id>, config: SweepConfig, now: int)
    requires Inv(db) && Admissible(db, CoverJob(j, eligible, ids, config, now))
    ensures Inv(Cover(db, j, eligible, ids, config, now).0)
  {
    hide Good, TallyOf, RowsIndexed, RecordEvent, Projected;
    hide Inv, Escalate, AutomaticRounds, OffersFor, NextRound, CreateOffers, CarriedPayout, ApprovedNet, ActiveIndex,
      FreshOfferIds;
    ReasonsClean();
    hide Clean;
    var (db', c) := Cover(db, j, eligible, ids, config, now);
    if c.Escalated? {
      EscalateKeeps(db, j, c.reason, now);
    } else if c.Reoffered? {
      ReofferKeeps(db, j, NextRound(eligible, db.offers, j, config), ids, now + config.offerTtlMinutes * MINUTE_MS,
                   now);
    }
  }

  lemma ReasonsClean()
    ensures Clean(MAX_ROUNDS_REACHED) && |MAX_ROUNDS_REACHED| <= 36
    ensures Clean(NO_PROVIDER_LEFT) && |NO_PROVIDER_LEFT| <= 36
  {
  }

  lemma EscalateKeeps(db: Db, j: Id, reason: string, now: int)
    requires Inv(db) && j in db.jobs && Clean(reason) && |reason| <= 36
    ensures Inv(Escalate(db, j, reason, now))
  {
    hide Inv;
    var fields := map["reason" := Text(reason)];
    assert WellKeyed(j, DispatchEscalated, fields) by {
      UuidIn(db, j);
      assert DiscriminatorFor(DispatchEscalated, fields) == [Text(reason)];
    }
    hide WellKeyed;
    RecordKeeps(db, Event(j, DispatchEscalated, None, fields), now);
  }

  lemma ReofferKeeps(db: Db, j: Id, next: seq<Id>, ids: seq<Id>, expiresAt: int, now: int)
    requires Inv(db) && j in db.jobs && ApprovedNet(db.quotes, j).Some? && |next| <= |ids| && FreshOfferIds(db, ids)
    ensures Inv(CreateOffers(db, j, next, ids[..|next|],
                             CarriedPayout(OffersFor(db.offers, j), ApprovedNet(db.quotes, j).value), expiresAt, now))
  {
    hide Inv, TallyOf;
    ApprovedCounts(db, j);
    CarriedPositive(db, j);
    CreateOffersKeeps(db, j, next, ids[..|next|],
                      CarriedPayout(OffersFor(db.offers, j), ApprovedNet(db.quotes, j).value), expiresAt, now);
  }

  lemma UuidIn(db: Db, j: Id)
    requires Inv(db) && j in db.jobs
    ensures IsUuid(j)
  {
  }

  lemma CarriedPositive(db: Db, j: Id)
    requires Inv(db) && ApprovedNet(db.quotes, j).Some? && ApprovedNet(db.quotes, j).value > 0
    ensures CarriedPayout(OffersFor(db.offers, j), ApprovedNet(db.quotes, j).value) > 0
  {
    var offers := OffersFor(db.offers, j);
    if offers != [] { assert offers[|offers| - 1] in db.offers; }
  }

  // --------------------------------------------------------------- retention

  lemma RemoveKeeps(db: Db, k: nat)
    requires Inv(db) && k < |db.outbox|
    ensures Inv(db.(outbox := db.outbox[..k] + db.outbox[k + 1..], keys := db.keys - {db.outbox[k].key}))
  {
    hide TallyOf, Good, OutboxOk, AskedOnce, WellKeyed;
    var o := db.outbox[..k] + db.outbox[k + 1..];
    var keys := db.keys - {db.outbox[k].key};
    var db1 := db.(outbox := o, keys := keys);
    RemoveOutbox(db, k);
    forall i | i in db1.jobs ensures Good(TallyOf(db1, i)) { TallySame(db, db1, i); }
  }

  lemma RemoveIndexed(outbox: seq<Row>, keys: map<Key, nat>, nextRow: nat, k: nat)
    requires RowsIndexed(outbox, keys, nextRow) && k < |outbox|
    ensures RowsIndexed(outbox[..k] + outbox[k + 1..], keys - {outbox[k].key}, nextRow)
  {
    RemovedAt(outbox, k);
    RemovedIndexed(outbox, outbox[..k] + outbox[k + 1..], keys, nextRow, k);
  }

  lemma RemovedIndexed(outbox: seq<Row>, o: seq<Row>, keys: map<Key, nat>, nextRow: nat, k: nat)
    requires RowsIndexed(outbox, keys, nextRow) && k < |outbox|
    requires |o| == |outbox| - 1 && forall i :: 0 <= i < |o| ==> o[i] == outbox[if i < k then i else i + 1]
    ensures RowsIndexed(o, keys - {outbox[k].key}, nextRow)
  {
    var ks := keys - {outbox[k].key};
    forall i | 0 <= i < |o| ensures o[i].id < nextRow && o[i].key in ks && ks[o[i].key] == o[i].id {
      KeptRow(outbox, keys, nextRow, k, if i < k then i else i + 1);
    }
    KeptOrder(outbox, o, k) by { assert forall i, j :: 0 <= i < j < |outbox| ==> outbox[i].id < outbox[j].id; }
    forall x | x in ks ensures exists i :: 0 <= i < |o| && o[i].key == x { KeptKey(outbox, o, k, x); }
  }

  lemma KeptOrder(outbox: seq<Row>, o: seq<Row>, k: nat)
    requires forall i, j :: 0 <= i < j < |outbox| ==> outbox[i].id < outbox[j].id
    requires k < |outbox| && |o| == |outbox| - 1 && forall i :: 0 <= i < |o| ==>
                                                      o[i] == outbox[if i < k then i else i + 1]
    ensures forall i, j :: 0 <= i < j < |o| ==> o[i].id < o[j].id
  {
  }

  lemma KeptKey(outbox: seq<Row>, o: seq<Row>, k: nat, x: Key)
    requires exists i :: 0 <= i < |outbox| && outbox[i].key == x
    requires k < |outbox| && |o| == |outbox| - 1 && forall i :: 0 <= i < |o| ==>
                                                      o[i] == outbox[if i < k then i else i + 1]
    requires x != outbox[k].key
    ensures exists i :: 0 <= i < |o| && o[i].key == x
  {
    var i :| 0 <= i < |outbox| && outbox[i].key == x;
    assert o[if i < k then i else i - 1] == outbox[i];
  }

  lemma KeptRow(outbox: seq<Row>, keys: map<Key, nat>, nextRow: nat, k: nat, at: nat)
    requires RowsIndexed(outbox, keys, nextRow) && k < |outbox| && at < |outbox| && at != k
    ensures var r, ks := outbox[at], keys - {outbox[k].key}; r.id < nextRow && r.key in ks && ks[r.key] == r.id
  {
    assert outbox[at].id != outbox[k].id;
  }

  lemma RemovedAt<T>(s: seq<T>, k: nat)
    requires k < |s|
    ensures var o := s[..k] + s[k + 1..];
      |o| == |s| - 1 && forall i :: 0 <= i < |o| ==> o[i] == s[if i < k then i else i + 1]
  {
  }

  lemma RemoveOutbox(db: Db, k: nat)
    requires OutboxOk(db) && k < |db.outbox|
    ensures OutboxOk(db.(outbox := db.outbox[..k] + db.outbox[k + 1..], keys := db.keys - {db.outbox[k].key}))
  {
    hide Projected, RowsIndexed;
    RemoveIndexed(db.outbox, db.keys, db.nextRow, k);
    assert forall r :: r in db.outbox[..k] + db.outbox[k + 1..] ==> r in db.outbox;
  }

  lemma {:induction false} RetentionKeeps(db: Db, k: nat, olderThan: int)
    requires Inv(db) && k <= |db.outbox|
    ensures Inv(RetainFrom(db, k, olderThan))
    decreases |db.outbox| - k
  {
    hide Good, TallyOf, RowsIndexed, RecordEvent, Projected;
    if k == |db.outbox| {
    } else if Removable(db.outbox[k], olderThan) {
      RemoveKeeps(db, k);
      RetentionKeeps(db.(outbox := db.outbox[..k] + db.outbox[k + 1..], keys := db.keys - {db.outbox[k].key}), k,
                     olderThan);
    } else {
      RetentionKeeps(db, k + 1, olderThan);
    }
  }

  lemma EvidenceKeeps(db: Db, j: Id, now: int)
    requires Inv(db) && j in db.jobs
    ensures Inv(RecordEvent(db, Event(j, EvidenceUploaded, None, map[]), now))
  {
    hide JobsGood, Refs, OutboxOk, AskedOnce, RecordEvent;
    UuidOf(db, j);
    RecordKeeps(db, Event(j, EvidenceUploaded, None, map[]), now);
  }

  // ----------------------------------------------------------------- all steps

  lemma StepKeeps(policy: Policy, db: Db, s: Step)
    requires Inv(db) && Admissible(db, s)
    ensures Inv(Apply(policy, db, s))
  {
    hide Core, JobsGood, RecordEvent, TransitionJob, CreateJob, Price, DecideQuote, CreateOffers, AcceptOffer,
      DeclineOffer,
      Cover, Fallback, Visible, ExpireFrom, RetainFrom;
    match s
    case SubmitJob(id, org, now) => CreateJobKeeps(db, id, org, now);
    case ApproveTriage(j, scope, now) => TransitionKeeps(db, j, scope, Triaged, TriageApproved, map[], now);
    case PriceJob(q, scope, now) => PriceKeeps(db, q, scope, now);
    case AnswerQuote(id, scope, approve, now) => DecideKeeps(db, id, scope, approve, now);
    case FanOut(j, scope, eligible, ids, payout, expiresAt, now) =>
      if Fan(db, j, scope, eligible, ids, payout, expiresAt, now).reply.Done? {
        CreateOffersKeeps(db, j, eligible, ids, payout, expiresAt, now);
      }
    case Accept(id, p, now) => AcceptKeeps(db, id, p, now);
    case Decline(id, p, now) => DeclineKeeps(db, id, p, now);
    case Expire(now) => ExpireKeeps(db, 0, now);
    case CoverJob(j, eligible, ids, config, now) => CoverKeeps(db, j, eligible, ids, config, now);
    case FallThrough(j, _, now) => FallbackKeeps(db, j, now);
    case StartWork(j, scope, now) => TransitionKeeps(db, j, scope, InProgress, WorkStarted, map[], now);
    case UploadEvidence(j, now) =>
      if j in db.jobs { EvidenceKeeps(db, j, now); }
    case CompleteJob(j, scope, uploaded, now) =>
      TransitionKeeps(db, j, scope, Completed, JobCompleted, map["evidenceCount" := Number(uploaded)], now);
    case CancelJob(j, scope, now) => TransitionKeeps(db, j, scope, Cancelled, JobCancelled, map[], now);
    case Retain(olderThan) => RetentionKeeps(db, 0, olderThan);
  }
}
