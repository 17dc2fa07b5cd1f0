/** What the store holds about one job, reduced to numbers, and how each
    primitive change of the store moves those numbers. */
module Tallies {
  import opened Contracts
  import opened Counting
  import opened OutboxKeys
  import opened Db

  function KindOf(j: Id, kind: EventType): Event -> bool { (e: Event) => e.jobId == j && e.kind == kind }
  function MovesOf(j: Id): Event -> bool { (e: Event) => e.jobId == j && e.move.Some? }
  function ActiveOn(j: Id): Assignment -> bool { (a: Assignment) => a.jobId == j && a.status.Active? }
  function EngagedOn(j: Id): Assignment -> bool { (a: Assignment) => a.jobId == j }
  function QuotedFor(j: Id): Quote -> bool { (q: Quote) => q.jobId == j }
  function ApprovedFor(j: Id): Quote -> bool { (q: Quote) => q.jobId == j && q.status.Approved? }
  function RejectedFor(j: Id): Quote -> bool { (q: Quote) => q.jobId == j && q.status.Rejected? }
  function OfferedOn(j: Id): Offer -> bool { (o: Offer) => o.jobId == j }
  function SpentOn(j: Id): Offer -> bool { (o: Offer) => o.jobId == j && !o.status.Pending? }

  /** Replays a job's moves from Draft; None as soon as the chain has a gap or
      takes an edge that is not legal. */
  function Replay(events: seq<Event>, j: Id): Option<JobStatus> {
    if events == [] then Some(Draft)
    else
      var n := |events| - 1;
      Follow(Replay(events[..n], j), j, events[n])
  }

  function Follow(at: Option<JobStatus>, j: Id, e: Event): Option<JobStatus> {
    if e.jobId != j || e.move.None? then at
    else if at == Some(e.move.value.from) && CanTransition(e.move.value.from, e.move.value.to)
    then Some(e.move.value.to)
    else None
  }

  datatype Tally = Tally(
    status: JobStatus, replay: Option<JobStatus>, moves: nat,
    accepted: nat, fell: nat, approvals: nat, rejections: nat, completed: nat, cancelled: nat,
    active: nat, engagements: nat, quotes: nat, approved: nat, rejected: nat, offers: nat, spent: nat)

  function TallyOf(db: Db, j: Id): Tally
    requires j in db.jobs
  {
    Tally(
      db.jobs[j].status, Replay(db.events, j), Count(db.events, MovesOf(j)),
      Count(db.events, KindOf(j, OfferAccepted)), Count(db.events, KindOf(j, AssignmentFellThrough)),
      Count(db.events, KindOf(j, QuoteApproved)), Count(db.events, KindOf(j, QuoteRejected)),
      Count(db.events, KindOf(j, JobCompleted)), Count(db.events, KindOf(j, JobCancelled)),
      Count(db.assignments, ActiveOn(j)), Count(db.assignments, EngagedOn(j)),
      Count(db.quotes, QuotedFor(j)), Count(db.quotes, ApprovedFor(j)), Count(db.quotes, RejectedFor(j)),
      Count(db.offers, OfferedOn(j)), Count(db.offers, SpentOn(j)))
  }

  function One(b: bool): nat { if b then 1 else 0 }

  function WithEvent(t: Tally, j: Id, e: Event): Tally {
    if e.jobId != j then t
    else t.(
           replay := Follow(t.replay, j, e),
           moves := t.moves + One(e.move.Some?),
           accepted := t.accepted + One(e.kind.OfferAccepted?),
           fell := t.fell + One(e.kind.AssignmentFellThrough?),
           approvals := t.approvals + One(e.kind.QuoteApproved?),
           rejections := t.rejections + One(e.kind.QuoteRejected?),
           completed := t.completed + One(e.kind.JobCompleted?),
           cancelled := t.cancelled + One(e.kind.JobCancelled?))
  }

  lemma ReplayAppend(events: seq<Event>, e: Event, j: Id)
    ensures Replay(events + [e], j) == Follow(Replay(events, j), j, e)
  {
    assert (events + [e])[..|events|] == events;
  }

  lemma HistoryTally(db: Db, db': Db, e: Event, j: Id)
    requires j in db.jobs && db'.jobs == db.jobs && db'.quotes == db.quotes && db'.offers == db.offers
    requires db'.assignments == db.assignments && db'.events == db.events + [e]
    ensures TallyOf(db', j) == WithEvent(TallyOf(db, j), j, e)
  {
    var es := db.events;
    hide Count, Replay;
    ReplayAppend(es, e, j);
    CountAppend(es, e, MovesOf(j));
    CountAppend(es, e, KindOf(j, OfferAccepted));
    CountAppend(es, e, KindOf(j, AssignmentFellThrough));
    CountAppend(es, e, KindOf(j, QuoteApproved));
    CountAppend(es, e, KindOf(j, QuoteRejected));
    CountAppend(es, e, KindOf(j, JobCompleted));
    CountAppend(es, e, KindOf(j, JobCancelled));
  }

  lemma EventTally(db: Db, e: Event, now: int, j: Id)
    requires j in db.jobs
    ensures TallyOf(RecordEvent(db, e, now), j) == WithEvent(TallyOf(db, j), j, e)
  {
    HistoryTally(db, RecordEvent(db, e, now), e, j);
  }

  function WithQuote(t: Tally, j: Id, q: Quote): Tally {
    if q.jobId != j then t
    else t.(quotes := t.quotes + 1,
            approved := t.approved + One(q.status.Approved?),
            rejected := t.rejected + One(q.status.Rejected?))
  }

  lemma QuoteTally(db: Db, q: Quote, j: Id)
    requires j in db.jobs
    ensures TallyOf(db.(quotes := db.quotes + [q]), j) == WithQuote(TallyOf(db, j), j, q)
  {
    CountAppend(db.quotes, q, QuotedFor(j));
    CountAppend(db.quotes, q, ApprovedFor(j));
    CountAppend(db.quotes, q, RejectedFor(j));
  }

  /** Replacing a quote by one with another status. */
  lemma RequoteTally(db: Db, k: nat, q: Quote, j: Id)
    requires j in db.jobs && k < |db.quotes| && q.jobId == db.quotes[k].jobId
    ensures var t, t' := TallyOf(db, j), TallyOf(db.(quotes := db.quotes[k := q]), j);
      if q.jobId != j then t' == t
      else
        && t' == t.(approved := t'.approved, rejected := t'.rejected)
        && t'.approved + One(db.quotes[k].status.Approved?) == t.approved + One(q.status.Approved?)
        && t'.rejected + One(db.quotes[k].status.Rejected?) == t.rejected + One(q.status.Rejected?)
  {
    CountUpdate(db.quotes, k, q, QuotedFor(j));
    CountUpdate(db.quotes, k, q, ApprovedFor(j));
    CountUpdate(db.quotes, k, q, RejectedFor(j));
  }

  lemma OfferTally(db: Db, o: Offer, j: Id)
    requires j in db.jobs
    ensures var t := TallyOf(db, j);
      TallyOf(db.(offers := db.offers + [o]), j) ==
      if o.jobId != j then t else t.(offers := t.offers + 1, spent := t.spent + One(!o.status.Pending?))
  {
    CountAppend(db.offers, o, OfferedOn(j));
    CountAppend(db.offers, o, SpentOn(j));
  }

  /** Changing offers' statuses without reopening any: nothing but `spent` moves, and it only grows. */
  ghost predicate Answered(before: seq<Offer>, after: seq<Offer>) {
    && |before| == |after|
    && forall i :: 0 <= i < |before| ==>
         && after[i] == before[i].(status := after[i].status)
         && (after[i].status.Pending? ==> before[i].status.Pending?)
  }

  lemma AnsweredTally(db: Db, after: seq<Offer>, j: Id)
    requires j in db.jobs && Answered(db.offers, after)
    ensures var t, t' := TallyOf(db, j), TallyOf(db.(offers := after), j);
      t' == t.(spent := t'.spent) && t'.spent >= t.spent
  {
    CountSame(db.offers, after, OfferedOn(j));
    CountMono(db.offers, after, SpentOn(j), SpentOn(j));
  }

  lemma AnsweredOneTally(db: Db, k: nat, o: Offer, j: Id)
    requires j in db.jobs && k < |db.offers| && o == db.offers[k].(status := o.status)
    requires db.offers[k].status.Pending? && !o.status.Pending?
    ensures var t := TallyOf(db, j);
      TallyOf(db.(offers := db.offers[k := o]), j) == if o.jobId != j then t else t.(spent := t.spent + 1)
  {
    CountUpdate(db.offers, k, o, OfferedOn(j));
    CountUpdate(db.offers, k, o, SpentOn(j));
  }

  lemma AssignmentTally(db: Db, a: Assignment, j: Id)
    requires j in db.jobs
    ensures var t := TallyOf(db, j);
      TallyOf(db.(assignments := db.assignments + [a]), j) ==
      if a.jobId != j then t else t.(engagements := t.engagements + 1, active := t.active + One(a.status.Active?))
  {
    CountAppend(db.assignments, a, ActiveOn(j));
    CountAppend(db.assignments, a, EngagedOn(j));
  }

  lemma ReleaseTally(db: Db, k: nat, j: Id)
    requires j in db.jobs && k < |db.assignments| && db.assignments[k].status.Active?
    ensures var a := db.assignments[k].(status := FellThrough);
      var t, t' := TallyOf(db, j), TallyOf(db.(assignments := db.assignments[k := a]), j);
      if a.jobId != j then t' == t else t.active >= 1 && t' == t.(active := t.active - 1)
  {
    var a := db.assignments[k].(status := FellThrough);
    CountUpdate(db.assignments, k, a, ActiveOn(j));
    CountUpdate(db.assignments, k, a, EngagedOn(j));
    if a.jobId == j { CountSome(db.assignments, k, ActiveOn(j)); }
  }
}
