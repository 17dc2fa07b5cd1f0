/** What a failure-free run has settled once its queue is empty. */
module Settlement {
  import opened Contracts
  import opened Counting
  import opened OutboxKeys
  import opened Db
  import opened Dispatch
  import opened Machine
  import opened Tallies
  import opened Invariants
  import opened Preservation
  import opened Evolution
  import opened System
  import opened Outbox
  import opened Money
  import opened Queue
  import opened Claims
  import opened CalmQueue
  import opened TodoOrder
  import opened Runs

  /** The errands still to be handled, in order; a finished head only waits for its mark. */
  function Todo(sys: Sys): seq<Errand> {
    var p := Errands(Undelivered(sys.db.outbox));
    if sys.worker.Busy? && sys.worker.phase.Finished? && p != [] then p[1..] else p
  }

  /** Errands stand in the order of their events, and once a money event of a job
      waits, every later one of that job waits too. */
  ghost predicate OrderGood(events: seq<Event>, todo: seq<Errand>) {
    && (forall t :: t in todo && MovesMoney(t.kind) ==> Happened(events, t.jobId, t.kind))
    && (forall a, b :: 0 <= a < b < |todo| && todo[a].jobId == todo[b].jobId
                       && MovesMoney(todo[a].kind) && MovesMoney(todo[b].kind) ==>
          FirstPos(events, todo[a].jobId, todo[a].kind) < FirstPos(events, todo[b].jobId, todo[b].kind))
    && (forall t, k :: t in todo && MovesMoney(t.kind) && MovesMoney(k)
                       && FirstPos(events, t.jobId, t.kind) < FirstPos(events, t.jobId, k) < |events| ==>
          Errand(t.jobId, k) in todo)
  }

  predicate ApprovedFirst(events: seq<Event>, j: Id, kind: EventType) {
    FirstPos(events, j, QuoteApproved) < FirstPos(events, j, kind)
  }

  /** Where the money of a job stands, given what is still to do. */
  ghost predicate MoneyDone(db: Db, todo: seq<Errand>, j: Id)
    requires j in db.jobs
  {
    var m, status := MovedOf(db.ledger, j), db.jobs[j].status;
    && (m.holds == 0 <==> (!Happened(db.events, j, QuoteApproved) || Errand(j, QuoteApproved) in todo))
    && (status.Completed? ==> ApprovedFirst(db.events, j, JobCompleted))
    && (status.Completed? ==> Errand(j, JobCompleted) in todo || (m.captures == 1 && m.payouts == 1))
    && (Errand(j, JobCancelled) in todo ==> m.voids == 0)
    && (status.Cancelled? ==>
        Errand(j, JobCancelled) in todo || (m.voids == 1 <==> ApprovedFirst(db.events, j, JobCancelled)))
  }

  /** The phase belongs to the handler of the message's event. */
  predicate PhaseFits(m: Row, p: Phase) {
    && (p.HoldWanted? || p.HoldPriced? || p.HoldPlaced? ==> m.event.QuoteApproved?)
    && (p.CaptureSeen? || p.CaptureTaken? || p.PayoutWanted? || p.PayoutTo? || p.PayoutPriced? || p.PayoutSent? ==>
        m.event.JobCompleted?)
    && (p.ReleaseSeen? ==> m.event.JobCancelled?)
  }

  ghost predicate AllDone(sys: Sys) {
    && OrderGood(sys.db.events, Todo(sys))
    && (forall j :: j in sys.db.jobs ==> MoneyDone(sys.db, Todo(sys), j))
    && (sys.worker.Busy? && sys.worker.batch != [] ==> PhaseFits(sys.worker.batch[0], sys.worker.phase))
  }

  ghost predicate CalmInv(sys: Sys, clock: int) {
    SysInv(sys) && QueueGood(sys) && Orderly(sys, clock) && AllDone(sys)
  }

  // ------------------------------------------------------------- the errand list

  lemma AnnouncedOrder(a: seq<Event>, b: seq<Event>, todo: seq<Errand>, added: seq<Errand>)
    requires a <= b && OrderGood(a, todo) && Announced(a, b, added)
    ensures OrderGood(b, todo + added)
  {
    var all := todo + added;
    forall t | t in todo && MovesMoney(t.kind)
      ensures FirstPos(b, t.jobId, t.kind) == FirstPos(a, t.jobId, t.kind) < |a|
    {
      FirstPosPrefix(a, b, t.jobId, t.kind);
    }
    forall t, k | t in all && MovesMoney(t.kind) && MovesMoney(k)
                  && FirstPos(b, t.jobId, t.kind) < FirstPos(b, t.jobId, k) < |b| ensures Errand(t.jobId, k) in all
    {
      var p := FirstPos(b, t.jobId, k);
      if p < |a| {
        FirstPosPrefix(a, b, t.jobId, k);
        assert a[p] == b[p];
        assert t in todo;
      } else {
        assert Errand(b[p].jobId, b[p].kind) in added;
      }
    }
  }

  lemma DropOrder(events: seq<Event>, todo: seq<Errand>)
    requires OrderGood(events, todo) && todo != []
    ensures OrderGood(events, todo[1..])
    ensures MovesMoney(todo[0].kind) ==> todo[0] !in todo[1..]
  {
    var rest := todo[1..];
    assert forall i :: 0 <= i < |rest| ==> rest[i] == todo[i + 1];
    assert forall t :: t in rest ==> t in todo;
    forall t, k | t in rest && MovesMoney(t.kind) && MovesMoney(k)
                  && FirstPos(events, t.jobId, t.kind) < FirstPos(events, t.jobId, k) < |events|
      ensures Errand(t.jobId, k) in rest
    {
      assert Errand(t.jobId, k) in todo;
      var i :| 0 <= i < |rest| && rest[i] == t;
      assert todo[i + 1] == t;
    }
  }

  // ------------------------------------------------------------------ API steps

  lemma {:induction false} ExpireLeavesJobs(db: Db, k: nat, now: int)
    requires k <= |db.offers|
    ensures ExpireFrom(db, k, now).jobs == db.jobs
    decreases |db.offers| - k
  {
    if k < |db.offers| { ExpireLeavesJobs(ExpireOne(db, k, now), k + 1, now); }
  }

  /** Only work in progress can become completed. */
  lemma CompletedFromProgress(policy: Policy, db: Db, s: Step, j: Id)
    requires Admissible(db, s) && j in Apply(policy, db, s).jobs && Apply(policy, db, s).jobs[j].status.Completed?
    ensures j in db.jobs && (db.jobs[j].status.Completed? || db.jobs[j].status.InProgress?)
  {
    hide RecordEvent, Visible, RetainFrom, ExpireFrom, FreshOfferIds, AutomaticRounds, NextRound, OffersFor,
      CarriedPayout, ApprovedNet, Holds, AddOffers, ActiveIndex, OfferIndex, QuoteIndex, Withdraw, QuoteInScope,
      HasApprovedQuote;
    match s
    case Expire(now) => ExpireLeavesJobs(db, 0, now);
    case Retain(olderThan) => RetainEvolves(policy, db, 0, olderThan);
    case _ =>
  }

  lemma ProgressIsApproved(db: Db, j: Id)
    requires Inv(db) && j in db.jobs && (db.jobs[j].status.InProgress? || db.jobs[j].status.Completed?)
    ensures Happened(db.events, j, QuoteApproved)
  {
    hide Core;
    assert Good(TallyOf(db, j));
    hide Inv;
    HappenedCounts(db.events, j, QuoteApproved);
  }

  lemma StatusHappened(db: Db, j: Id)
    requires Inv(db) && j in db.jobs
    ensures db.jobs[j].status.Completed? <==> Happened(db.events, j, JobCompleted)
    ensures db.jobs[j].status.Cancelled? <==> Happened(db.events, j, JobCancelled)
    ensures Happened(db.events, j, QuoteApproved) <==> TallyOf(db, j).approved == 1
  {
    hide Core;
    assert Good(TallyOf(db, j));
    hide Inv;
    HappenedCounts(db.events, j, JobCompleted);
    HappenedCounts(db.events, j, JobCancelled);
    HappenedCounts(db.events, j, QuoteApproved);
  }

  /** A job no event of which is in the history has no money on the ledger. */
  lemma NewJobEmpty(sys: Sys, j: Id)
    requires SysInv(sys) && j !in sys.db.jobs
    ensures MovedOf(sys.db.ledger, j) == Moved(0, 0, 0, 0)
    ensures forall k :: !Happened(sys.db.events, j, k)
  {
    assert Refs(sys.db) && LedgerGood(sys.db);
    hide SysInv, Refs;
    NoEntries(sys.db, j);
    forall k ensures !Happened(sys.db.events, j, k) { HappenedOnJob(sys.db, j, k); }
  }

  lemma HappenedOnJob(db: Db, j: Id, kind: EventType)
    requires Refs(db)
    ensures Happened(db.events, j, kind) ==> j in db.jobs
  {
    var p := FirstPos(db.events, j, kind);
    if p < |db.events| { assert db.events[p] in db.events; }
  }

  /** What an announcement means for one job. */
  lemma MoneyAnnounced(db: Db, db': Db, todo: seq<Errand>, added: seq<Errand>, j: Id)
    requires db.events <= db'.events && db'.ledger == db.ledger && Announced(db.events, db'.events, added)
    requires j in db'.jobs
    requires j in db.jobs ==> MoneyDone(db, todo, j)
    requires j !in db.jobs ==> MovedOf(db.ledger, j) == Moved(0, 0, 0, 0) && forall k :: !Happened(db.events, j, k)
    requires forall t :: t in todo && MovesMoney(t.kind) ==> Happened(db.events, t.jobId, t.kind)
    requires MovedSafely(MovedOf(db.ledger, j))
    requires j in db.jobs ==> (db.jobs[j].status.Completed? <==> Happened(db.events, j, JobCompleted))
    requires j in db.jobs ==> (db.jobs[j].status.Cancelled? <==> Happened(db.events, j, JobCancelled))
    requires db'.jobs[j].status.Completed? <==> Happened(db'.events, j, JobCompleted)
    requires db'.jobs[j].status.Cancelled? <==> Happened(db'.events, j, JobCancelled)
    requires j in db.jobs ==> MovedInTime(MovedOf(db.ledger, j), db.jobs[j].status)
    requires db'.jobs[j].status.Completed? ==> Happened(db.events, j, QuoteApproved)
    ensures MoneyDone(db', todo + added, j)
  {
    hide MovedOf;
    var a, b := db.events, db'.events;
    FirstPosPrefix(a, b, j, QuoteApproved);
    FirstPosPrefix(a, b, j, JobCompleted);
    FirstPosPrefix(a, b, j, JobCancelled);
    NewErrand(a, b, added, j, QuoteApproved);
    NewErrand(a, b, added, j, JobCompleted);
    NewErrand(a, b, added, j, JobCancelled);
    hide Announced, FirstPos;
  }

  /** A kind newly happened exactly when its errand was just added. */
  lemma NewErrand(a: seq<Event>, b: seq<Event>, added: seq<Errand>, j: Id, kind: EventType)
    requires a <= b && Announced(a, b, added) && MovesMoney(kind)
    ensures Errand(j, kind) in added <==> Happened(b, j, kind) && !Happened(a, j, kind)
  {
    FirstPosPrefix(a, b, j, kind);
    var p := FirstPos(b, j, kind);
    if Happened(b, j, kind) && !Happened(a, j, kind) { assert Errand(b[p].jobId, b[p].kind) in added; }
  }

  lemma ApiMoney(policy: Policy, sys: Sys, s: Step, todo: seq<Errand>, added: seq<Errand>, j: Id)
    requires SysInv(sys) && Admissible(sys.db, s)
    requires var db, db' := sys.db, Apply(policy, sys.db, s);
      && db.events <= db'.events && Announced(db.events, db'.events, added) && j in db'.jobs
      && (j in db.jobs ==> MoneyDone(db, todo, j))
      && (forall t :: t in todo && MovesMoney(t.kind) ==> Happened(db.events, t.jobId, t.kind))
    ensures MoneyDone(Apply(policy, sys.db, s), todo + added, j)
  {
    var db, db' := sys.db, Apply(policy, sys.db, s);
    InvOf(sys);
    hide Admissible, Apply, Announced, MoneyDone, Happened, MovedOf, SysInv, Inv;
    StepKeeps(policy, db, s);
    StepEvolves(policy, db, s);
    StatusHappened(db', j);
    if j in db.jobs { StatusHappened(db, j); } else { NewJobEmpty(sys, j); }
    if db'.jobs[j].status.Completed? {
      CompletedFromProgress(policy, db, s, j);
      ProgressIsApproved(db, j);
    }
    JobMoney(sys, j);
    MoneyAnnounced(db, db', todo, added, j);
  }

  lemma JobMoney(sys: Sys, j: Id)
    requires SysInv(sys)
    ensures MovedSafely(MovedOf(sys.db.ledger, j))
    ensures j in sys.db.jobs ==> MovedInTime(MovedOf(sys.db.ledger, j), sys.db.jobs[j].status)
  {
    assert LedgerGood(sys.db);
    hide SysInv;
    if j !in sys.db.jobs { NoEntries(sys.db, j); } else { hide MovedOf, MovedSafely, MovedInTime; }
  }

  // ------------------------------------------------------------- handler steps

  /** What handling a money event must have brought about. */
  ghost predicate Settled(db: Db, t: Errand) {
    var m := MovedOf(db.ledger, t.jobId);
    match t.kind
    case QuoteApproved => m.holds == 1
    case JobCompleted => m.captures == 1 && m.payouts == 1
    case JobCancelled => m.voids == 1 <==> ApprovedFirst(db.events, t.jobId, JobCancelled)
    case _ => true
  }

  /** A handler only moves the kinds of money its event is about. */
  predicate TouchesOnly(a: Moved, b: Moved, kind: EventType) {
    match kind
    case QuoteApproved => b == a.(holds := b.holds)
    case JobCompleted => b == a.(captures := b.captures, payouts := b.payouts)
    case JobCancelled => b == a.(voids := b.voids)
    case _ => b == a
  }

  /** One micro-step of the handler of errand t: it has settled the errand, or moved
      nothing that counts yet. */
  ghost predicate Handled(sys: Sys, sys': Sys, t: Errand) {
    && sys'.db == sys.db.(ledger := sys'.db.ledger)
    && sys'.worker.Busy? && sys.worker.Busy? && sys'.worker.batch == sys.worker.batch && sys.worker.batch != []
    && !sys'.worker.phase.Thrown? && PhaseFits(sys.worker.batch[0], sys'.worker.phase)
    && (forall j :: j != t.jobId ==> MovedOf(sys'.db.ledger, j) == MovedOf(sys.db.ledger, j))
    && var a, b := MovedOf(sys.db.ledger, t.jobId), MovedOf(sys'.db.ledger, t.jobId);
    && TouchesOnly(a, b, t.kind)
    && (if sys'.worker.phase.Finished? then Settled(sys'.db, t) else b.holds == a.holds && b.voids == a.voids)
  }

  /** The errand in hand is the first on the list. */
  ghost predicate Head(sys: Sys, todo: seq<Errand>, t: Errand) {
    && sys.worker.Busy? && sys.worker.batch != [] && t == ErrandOf(sys.worker.batch[0]) && t.jobId in sys.db.jobs
    && todo != [] && todo[0] == t
    && OrderGood(sys.db.events, todo) && MoneyDone(sys.db, todo, t.jobId)
    && PhaseFits(sys.worker.batch[0], sys.worker.phase)
  }

  /** What waits behind the head happened after it. */
  lemma BehindHead(events: seq<Event>, todo: seq<Errand>, k: EventType)
    requires OrderGood(events, todo) && todo != [] && MovesMoney(todo[0].kind) && MovesMoney(k) && k != todo[0].kind
    requires Happened(events, todo[0].jobId, k)
    ensures Errand(todo[0].jobId, k) in todo <==>
      FirstPos(events, todo[0].jobId, todo[0].kind) < FirstPos(events, todo[0].jobId, k)
  {
    var t := todo[0];
    assert t in todo;
    var p, q := FirstPos(events, t.jobId, t.kind), FirstPos(events, t.jobId, k);
    assert p < |events| && p != q;
    if Errand(t.jobId, k) in todo {
      var i :| 0 <= i < |todo| && todo[i] == Errand(t.jobId, k);
      assert i > 0;
    }
  }

  lemma HeadHappened(sys: Sys, todo: seq<Errand>, t: Errand)
    requires Head(sys, todo, t) && MovesMoney(t.kind)
    ensures Happened(sys.db.events, t.jobId, t.kind)
    ensures FirstPos(sys.db.events, t.jobId, t.kind) < |sys.db.events|
  {
    assert t in todo;
  }

  /** A completed job's hold is on the ledger before its completion is handled. */
  lemma CompletedIsHeld(sys: Sys, todo: seq<Errand>, t: Errand)
    requires Head(sys, todo, t) && t.kind.JobCompleted? && sys.db.jobs[t.jobId].status.Completed?
    ensures MovedOf(sys.db.ledger, t.jobId).holds > 0
  {
    hide MovedOf;
    HeadHappened(sys, todo, t);
    BehindHead(sys.db.events, todo, QuoteApproved);
  }

  /** When a cancellation is handled, the hold is there exactly if approval came first. */
  lemma CancelledIsHeld(sys: Sys, todo: seq<Errand>, t: Errand)
    requires Head(sys, todo, t) && t.kind.JobCancelled?
    ensures MovedOf(sys.db.ledger, t.jobId).holds > 0 <==> ApprovedFirst(sys.db.events, t.jobId, JobCancelled)
  {
    hide MovedOf;
    HeadHappened(sys, todo, t);
    if Happened(sys.db.events, t.jobId, QuoteApproved) { BehindHead(sys.db.events, todo, QuoteApproved); }
  }

  lemma RowTopic(sys: Sys)
    requires SysInv(sys) && sys.worker.Busy? && sys.worker.batch != []
    ensures TopicByEvent(sys.worker.batch[0].event) == Some(sys.worker.batch[0].topic)
    ensures sys.worker.batch[0].jobId in sys.db.jobs
    ensures sys.worker.batch[0].topic.TopicJobCompleted? ==> sys.db.jobs[sys.worker.batch[0].jobId].status.Completed?
    ensures sys.worker.batch[0].topic.TopicJobCancelled? ==> sys.db.jobs[sys.worker.batch[0].jobId].status.Cancelled?
  {
    InvOf(sys);
    var j := WorkerJob(sys);
    hide SysInv, Inv;
    TopicTells(sys.db, sys.worker.batch[0]);
  }

  /** Turning to another phase, with the ledger as it is. */
  lemma TurnHandled(sys: Sys, holds: map<Reference, int>, todo: seq<Errand>, t: Errand, p: Phase)
    requires Head(sys, todo, t) && !p.Thrown? && PhaseFits(sys.worker.batch[0], p)
    requires p.Finished? ==> Settled(sys.db, t)
    ensures Handled(sys, Turn(sys.(holds := holds), p), t)
  {
    hide MovedOf, Settled, PhaseFits, OrderGood, MoneyDone;
  }

  /** When a handler ends at its first look at the ledger. */
  lemma BeginFinishes(ledger: seq<Entry>, m: Row)
    requires TopicByEvent(m.event) == Some(m.topic) && Begin(ledger, m).Finished?
    ensures m.event.QuoteApproved? ==> MovedOf(ledger, m.jobId).holds > 0
    ensures m.event.JobCompleted? ==> MovedOf(ledger, m.jobId).holds == 0
    ensures m.event.JobCancelled? ==> var a := MovedOf(ledger, m.jobId); a.holds == 0 || a.captures > 0 || a.voids > 0
  {
    FirstOfCounts(ledger, m.jobId, Authorisation);
    FirstOfCounts(ledger, m.jobId, Capture);
    FirstOfCounts(ledger, m.jobId, AuthorisationVoid);
    hide FirstOf, Count, EntryOf;
  }

  lemma BeginFits(ledger: seq<Entry>, m: Row)
    requires TopicByEvent(m.event) == Some(m.topic)
    ensures !Begin(ledger, m).Thrown? && PhaseFits(m, Begin(ledger, m))
  {
    hide FirstOf, Recorded;
  }

  /** A handler that ends at its first look at the ledger had nothing left to do. */
  lemma BeginSettled(sys: Sys, todo: seq<Errand>, t: Errand)
    requires SysInv(sys) && Head(sys, todo, t) && sys.worker.Busy? && sys.worker.batch != []
      && t == ErrandOf(sys.worker.batch[0])
    requires Begin(sys.db.ledger, sys.worker.batch[0]).Finished?
    ensures Settled(sys.db, t)
  {
    hide SysInv, Head, MovedOf, Begin, ApprovedFirst;
    RowTopic(sys);
    JobMoney(sys, t.jobId);
    BeginFinishes(sys.db.ledger, sys.worker.batch[0]);
    if t.kind.JobCompleted? { CompletedIsHeld(sys, todo, t); }
    if t.kind.JobCancelled? {
      CancelledIsHeld(sys, todo, t);
      CancelledNotVoided(sys, todo, t);
    }
  }

  lemma CancelledNotVoided(sys: Sys, todo: seq<Errand>, t: Errand)
    requires Head(sys, todo, t) && t.kind.JobCancelled?
    ensures MovedOf(sys.db.ledger, t.jobId).voids == 0
  {
    hide MovedOf, OrderGood;
    assert t in todo;
  }

  lemma BeginHandled(sys: Sys, todo: seq<Errand>, t: Errand)
    requires SysInv(sys) && Head(sys, todo, t)
    requires sys.worker.Busy? && sys.worker.batch != [] && t == ErrandOf(sys.worker.batch[0])
    ensures Handled(sys, Turn(sys, Begin(sys.db.ledger, sys.worker.batch[0])), t)
  {
    hide SysInv, Begin, Head, Settled, Handled, PhaseFits;
    var p := Begin(sys.db.ledger, sys.worker.batch[0]);
    if p.Finished? { BeginSettled(sys, todo, t); }
    RowTopic(sys);
    BeginFits(sys.db.ledger, sys.worker.batch[0]);
    TurnHandled(sys, sys.holds, todo, t, p);
  }

  lemma ApprovedHasGross(db: Db, j: Id)
    requires Inv(db) && j in db.jobs && Happened(db.events, j, QuoteApproved)
    ensures ApprovedGross(db.quotes, j).Some?
  {
    StatusHappened(db, j);
    var i := CountWitness(db.quotes, ApprovedFor(j));
    hide Inv, TallyOf;
    ApprovedGrossFound(db.quotes, j);
  }

  lemma CompletedHasActive(db: Db, j: Id)
    requires Inv(db) && j in db.jobs && db.jobs[j].status.Completed?
    ensures ActiveIndex(db.assignments, j) < |db.assignments|
  {
    hide Core;
    assert Good(TallyOf(db, j));
    var i := CountWitness(db.assignments, ActiveOn(j));
  }

  lemma HoldWantedHandled(sys: Sys, todo: seq<Errand>, t: Errand)
    requires SysInv(sys) && Head(sys, todo, t) && sys.worker.phase.HoldWanted?
    ensures Handled(sys, AdvanceHold(sys), t)
  {
    hide SysInv, MoneyDone, Handled, OrderGood, ApprovedGross, MovedOf, Turn;
    HeadGross(sys, todo, t);
    assert sys.(holds := sys.holds) == sys;
    TurnHandled(sys, sys.holds, todo, t, HoldPriced(ApprovedGross(sys.db.quotes, t.jobId).value));
  }

  lemma HeadGross(sys: Sys, todo: seq<Errand>, t: Errand)
    requires SysInv(sys) && Head(sys, todo, t) && t.kind.QuoteApproved?
    ensures ApprovedGross(sys.db.quotes, t.jobId).Some?
  {
    InvOf(sys);
    HeadHappened(sys, todo, t);
    hide SysInv, Inv, MoneyDone, OrderGood, ApprovedGross, Happened;
    ApprovedHasGross(sys.db, t.jobId);
  }

  lemma HoldPricedHandled(sys: Sys, todo: seq<Errand>, t: Errand)
    requires SysInv(sys) && Head(sys, todo, t) && sys.worker.phase.HoldPriced?
    ensures Handled(sys, AdvanceHold(sys), t)
  {
    hide MovedOf, Projected, SysInv, MoneyDone, Handled, OrderGood, AuthReference;
    var j := WorkerJob(sys);
    var gross := sys.worker.phase.gross;
    assert ApprovedGross(sys.db.quotes, j) == Some(gross);
    hide PhaseGood;
    PositiveGross(sys, j);
    TurnHandled(sys, Authorise(sys.holds, j, gross).value, todo, t, HoldPlaced(gross, AuthReference(j)));
  }

  /** Writing an entry of the job in hand. */
  lemma WriteHandled(sys: Sys, todo: seq<Errand>, t: Errand, e: Entry, next: Phase)
    requires Head(sys, todo, t) && e.jobId == t.jobId && PhaseFits(sys.worker.batch[0], next) && !next.Thrown?
    requires var a, b := MovedOf(sys.db.ledger, t.jobId), Plus(MovedOf(sys.db.ledger, t.jobId), e.kind);
      && TouchesOnly(a, b, t.kind)
      && (next.Finished? ==> Settled(sys.db.(ledger := sys.db.ledger + [e]), t))
      && (!next.Finished? ==> b.holds == a.holds && b.voids == a.voids)
    ensures Handled(sys, Turn(sys.(db := sys.db.(ledger := sys.db.ledger + [e])), next), t)
  {
    hide MovedOf, Settled, Plus, TouchesOnly, PhaseFits, OrderGood, MoneyDone;
    forall j
      ensures MovedOf(sys.db.ledger + [e], j) ==
              if e.jobId == j then Plus(MovedOf(sys.db.ledger, j), e.kind) else MovedOf(sys.db.ledger, j)
    {
      AppendMoved(sys.db.ledger, e, j);
    }
  }

  lemma HoldPlacedHandled(sys: Sys, todo: seq<Errand>, t: Errand)
    requires SysInv(sys) && Head(sys, todo, t) && sys.worker.phase.HoldPlaced?
    ensures Handled(sys, AdvanceHold(sys), t)
  {
    hide MovedOf, OrderGood, MoneyDone, Handled, SysInv, AdvanceHold, Projected, Turn;
    var j := WorkerJob(sys);
    var p := sys.worker.phase;
    var e := Entry(j, Authorisation, p.gross, Some(p.reference));
    assert MovedOf(sys.db.ledger, j).holds == 0;
    hide PhaseGood;
    HoldPlacedKeeps(sys);
    AppendMoved(sys.db.ledger, e, j);
    WriteHandled(sys, todo, t, e, Finished);
  }

  lemma CaptureSeenHandled(sys: Sys, todo: seq<Errand>, t: Errand)
    requires SysInv(sys) && Head(sys, todo, t) && sys.worker.phase.CaptureSeen?
    ensures Handled(sys, AdvanceCapture(sys), t)
  {
    hide MovedOf, OrderGood, MoneyDone, Handled, SysInv, Projected, Turn, Capturable, CaptureReference, IsHold;
    var j := WorkerJob(sys);
    var p := sys.worker.phase;
    assert IsHold(sys.db.ledger, j, p.hold);
    assert p.captured && p.paid ==> MovedOf(sys.db.ledger, j).captures == 1 && MovedOf(sys.db.ledger, j).payouts == 1;
    hide PhaseGood;
    CaptureSucceeds(sys, j, p.hold);
    TurnHandled(sys, sys.holds, todo, t,
                if !p.captured then CaptureTaken(p.hold, p.paid, CaptureReference(p.hold))
                else if p.paid then Finished else PayoutWanted(p.hold));
  }

  lemma CaptureTakenHandled(sys: Sys, todo: seq<Errand>, t: Errand)
    requires SysInv(sys) && Head(sys, todo, t) && sys.worker.phase.CaptureTaken?
    ensures Handled(sys, AdvanceCapture(sys), t)
  {
    hide MovedOf, OrderGood, MoneyDone, Handled, SysInv, AdvanceCapture, Turn;
    var p := sys.worker.phase;
    var e := Entry(t.jobId, Capture, p.hold.amountCents, Some(p.reference));
    CaptureTakenKeeps(sys);
    WriteHandled(sys, todo, t, e, PayoutWanted(p.hold));
  }

  lemma WantedHasActive(sys: Sys)
    requires SysInv(sys) && sys.worker.Busy? && sys.worker.batch != [] && sys.worker.phase.PayoutWanted?
    ensures ActiveIndex(sys.db.assignments, sys.worker.batch[0].jobId) < |sys.db.assignments|
  {
    hide MovedOf, SysInv, ActiveIndex, Projected;
    var j := WorkerJob(sys);
    assert sys.db.jobs[j].status.Completed?;
    hide PhaseGood, MovedInTime, MovedSafely;
    InvOf(sys);
    hide Inv;
    CompletedHasActive(sys.db, j);
  }

  lemma PayoutWantedHandled(sys: Sys, todo: seq<Errand>, t: Errand)
    requires SysInv(sys) && Head(sys, todo, t) && sys.worker.phase.PayoutWanted?
    ensures Handled(sys, AdvancePayout(sys), t)
  {
    hide MovedOf, OrderGood, MoneyDone, Handled, SysInv, Turn, ActiveIndex;
    WantedHasActive(sys);
    var k := ActiveIndex(sys.db.assignments, t.jobId);
    assert sys.(holds := sys.holds) == sys;
    TurnHandled(sys, sys.holds, todo, t, PayoutTo(sys.worker.phase.hold, sys.db.assignments[k].providerId));
  }

  lemma PayoutHandled(sys: Sys, todo: seq<Errand>, t: Errand)
    requires SysInv(sys) && Head(sys, todo, t)
    requires sys.worker.phase.PayoutTo? || sys.worker.phase.PayoutPriced?
    ensures Handled(sys, AdvancePayout(sys), t)
  {
    hide MovedOf, OrderGood, MoneyDone, Handled, SysInv, AdvancePayout, Turn;
    PayoutKeeps(sys);
    PayoutTurns(sys);
    assert sys.(holds := sys.holds) == sys;
    var p := AdvancePayout(sys).worker.phase;
    TurnHandled(sys, sys.holds, todo, t, p);
  }

  lemma PayoutTurns(sys: Sys)
    requires sys.worker.Busy? && sys.worker.batch != []
    requires sys.worker.phase.PayoutTo? || sys.worker.phase.PayoutPriced?
    ensures AdvancePayout(sys).worker.Busy?
    ensures var p := AdvancePayout(sys).worker.phase;
      AdvancePayout(sys) == Turn(sys, p) && (p.PayoutPriced? || p.PayoutSent? || p.Thrown?)
  {
    hide PayoutCents, PayoutKey;
  }

  lemma PayoutSentHandled(sys: Sys, todo: seq<Errand>, t: Errand)
    requires SysInv(sys) && Head(sys, todo, t) && sys.worker.phase.PayoutSent?
    ensures Handled(sys, AdvancePayout(sys), t)
  {
    hide MovedOf, OrderGood, MoneyDone, Handled, SysInv, AdvancePayout, Projected, Turn;
    var j := WorkerJob(sys);
    var p := sys.worker.phase;
    var e := Entry(j, Payout, -p.cents, Some(p.reference));
    assert MovedOf(sys.db.ledger, j).captures == 1 && MovedOf(sys.db.ledger, j).payouts == 0;
    hide PhaseGood;
    PayoutSentKeeps(sys);
    AppendMoved(sys.db.ledger, e, j);
    WriteHandled(sys, todo, t, e, Finished);
  }

  lemma ReleaseHandled(sys: Sys, todo: seq<Errand>, t: Errand)
    requires SysInv(sys) && Head(sys, todo, t) && sys.worker.phase.ReleaseSeen?
    ensures Handled(sys, AdvanceRelease(sys), t)
  {
    hide MovedOf, OrderGood, MoneyDone, Handled, SysInv, AdvanceRelease, Projected, Turn, ApprovedFirst;
    var j := WorkerJob(sys);
    var p := sys.worker.phase;
    var e := Entry(j, AuthorisationVoid, -p.hold.amountCents, p.hold.reference);
    assert IsHold(sys.db.ledger, j, p.hold) && MovedOf(sys.db.ledger, j).voids == 0;
    hide PhaseGood;
    HoldEntry(sys, j, p.hold);
    CancelledIsHeld(sys, todo, t);
    ReleaseKeeps(sys);
    AppendMoved(sys.db.ledger, e, j);
    WriteHandled(sys, todo, t, e, Finished);
  }

  lemma AdvanceHandled(sys: Sys, todo: seq<Errand>, t: Errand, now: int)
    requires SysInv(sys) && Head(sys, todo, t)
    requires sys.worker.Busy? && sys.worker.batch != [] && t == ErrandOf(sys.worker.batch[0])
    requires !sys.worker.phase.Finished? && !sys.worker.phase.Thrown?
    ensures Handled(sys, Advance(sys, now), t)
  {
    hide SysInv, Head, Handled, Turn, Begin, AdvanceHold, AdvanceCapture, AdvancePayout, AdvanceRelease, Settle;
    match sys.worker.phase
    case AtStart => BeginHandled(sys, todo, t);
    case HoldWanted => HoldWantedHandled(sys, todo, t);
    case HoldPriced(_) => HoldPricedHandled(sys, todo, t);
    case HoldPlaced(_, _) => HoldPlacedHandled(sys, todo, t);
    case CaptureSeen(_, _, _) => CaptureSeenHandled(sys, todo, t);
    case CaptureTaken(_, _, _) => CaptureTakenHandled(sys, todo, t);
    case PayoutWanted(_) => PayoutWantedHandled(sys, todo, t);
    case PayoutSent(_, _) => PayoutSentHandled(sys, todo, t);
    case ReleaseSeen(_) => ReleaseHandled(sys, todo, t);
    case _ => PayoutHandled(sys, todo, t);
  }

  // ------------------------------------------------------------- one calm step

  function Dropped(todo: seq<Errand>, drop: bool): seq<Errand> {
    if drop && todo != [] then todo[1..] else todo
  }

  lemma DroppedErrands(todo: seq<Errand>, t: Errand)
    requires todo != []
    ensures t in todo <==> t == todo[0] || t in todo[1..]
  {
    assert todo == [todo[0]] + todo[1..];
  }

  lemma HandledOther(sys: Sys, sys': Sys, todo: seq<Errand>, t: Errand, j: Id)
    requires Handled(sys, sys', t) && todo != [] && todo[0] == t && j in sys.db.jobs && j != t.jobId
    requires MoneyDone(sys.db, todo, j)
    ensures MoneyDone(sys'.db, Dropped(todo, sys'.worker.phase.Finished?), j)
  {
    hide MovedOf, Settled, TouchesOnly, PhaseFits, ApprovedFirst, Happened;
    DroppedErrands(todo, Errand(j, QuoteApproved));
    DroppedErrands(todo, Errand(j, JobCompleted));
    DroppedErrands(todo, Errand(j, JobCancelled));
  }

  lemma HandledOwn(sys: Sys, sys': Sys, todo: seq<Errand>, t: Errand)
    requires Handled(sys, sys', t) && todo != [] && todo[0] == t && t.jobId in sys.db.jobs
    requires OrderGood(sys.db.events, todo) && MoneyDone(sys.db, todo, t.jobId)
    ensures MoneyDone(sys'.db, Dropped(todo, sys'.worker.phase.Finished?), t.jobId)
  {
    HeadKnown(sys.db.events, todo);
    DroppedErrands(todo, Errand(t.jobId, QuoteApproved));
    DroppedErrands(todo, Errand(t.jobId, JobCompleted));
    DroppedErrands(todo, Errand(t.jobId, JobCancelled));
    hide MovedOf, PhaseFits, ApprovedFirst, OrderGood, Happened;
  }

  lemma HeadKnown(events: seq<Event>, todo: seq<Errand>)
    requires OrderGood(events, todo) && todo != []
    ensures MovesMoney(todo[0].kind) ==> Happened(events, todo[0].jobId, todo[0].kind) && todo[0] !in todo[1..]
  {
    DropOrder(events, todo);
    assert todo[0] in todo;
  }

  lemma HandledKeeps(sys: Sys, sys': Sys, t: Errand)
    requires AllDone(sys) && Head(sys, Todo(sys), t) && Handled(sys, sys', t)
    requires Todo(sys') == Dropped(Todo(sys), sys'.worker.phase.Finished?)
    ensures AllDone(sys')
  {
    hide MoneyDone, OrderGood, Todo, PhaseFits, Settled, TouchesOnly, MovedOf;
    var todo := Todo(sys);
    DropOrder(sys.db.events, todo);
    HandledOwn(sys, sys', todo, t);
    forall j | j in sys.db.jobs ensures MoneyDone(sys'.db, Todo(sys'), j) {
      if j != t.jobId { HandledOther(sys, sys', todo, t, j); }
    }
  }

  /** The batch in hand is the front of what is undelivered, so its first message is the first errand. */
  lemma HeadOfCalm(sys: Sys, clock: int) returns (t: Errand)
    requires CalmInv(sys, clock) && sys.worker.Busy? && sys.worker.batch != [] && !sys.worker.phase.Finished?
    ensures t == ErrandOf(sys.worker.batch[0]) && Head(sys, Todo(sys), t)
  {
    var u := Undelivered(sys.db.outbox);
    t := ErrandOf(sys.worker.batch[0]);
    assert Orderly(sys, clock);
    hide RowsCalm, SysInv, QueueGood, MoneyDone, OrderGood, PhaseFits, Undelivered;
    assert u[0] == sys.worker.batch[0];
    hide Orderly;
    var j := WorkerJob(sys);
  }

  lemma TodoAfter(sys: Sys, sys': Sys)
    requires sys.worker.Busy? && !sys.worker.phase.Finished? && sys'.worker.Busy? && sys'.db.outbox == sys.db.outbox
    ensures Todo(sys') == Dropped(Todo(sys), sys'.worker.phase.Finished?)
  {
  }

  lemma HandledRuns(sys: Sys, sys': Sys, t: Errand)
    requires Handled(sys, sys', t)
    ensures sys'.worker.Busy? && !sys'.worker.phase.Thrown?
  {
    hide MovedOf, Settled, PhaseFits;
  }

  lemma GoKeepsDone(sys: Sys, clock: int, now: int)
    requires CalmInv(sys, clock) && sys.worker.Busy? && sys.worker.batch != []
    requires !sys.worker.phase.Finished? && !sys.worker.phase.Thrown?
    ensures AllDone(Advance(sys, now)) && Advance(sys, now).worker.Busy? && !Advance(sys, now).worker.phase.Thrown?
    ensures Advance(sys, now).db.outbox == sys.db.outbox && Advance(sys, now).worker.batch == sys.worker.batch
  {
    var t := HeadOfCalm(sys, clock);
    var sys' := Advance(sys, now);
    hide SysInv, QueueGood, Orderly, AllDone, Head, Advance, Handled, Todo;
    AdvanceHandled(sys, Todo(sys), t, now);
    HandlerLeavesQueue(sys, now);
    HandledRuns(sys, sys', t);
    TodoAfter(sys, sys');
    HandledKeeps(sys, sys', t);
  }

  lemma CalmGo(sys: Sys, clock: int, now: int)
    requires CalmInv(sys, clock) && sys.worker.Busy? && sys.worker.batch != [] && clock <= now
    requires !sys.worker.phase.Finished? && !sys.worker.phase.Thrown?
    ensures CalmInv(Advance(sys, now), now)
  {
    GoKeepsDone(sys, clock, now);
    var sys' := Advance(sys, now);
    hide AllDone, Advance, Inv, MoneyGood;
    assert SysInv(sys') by { hide SysInv; GoKeeps(sys, now); }
    assert QueueGood(sys');
    assert Orderly(sys', now) by {
      hide SysInv, QueueGood;
      LaterCalm(sys.db.outbox, clock, now);
      hide RowsCalm;
    }
  }

  lemma LaterCalm(outbox: seq<Row>, clock: int, now: int)
    requires RowsCalm(outbox, clock) && clock <= now
    ensures RowsCalm(outbox, now)
  {
  }

  lemma SettleParts(sys: Sys, now: int)
    requires sys.worker.Busy? && sys.worker.batch != []
    ensures Settle(sys, now).db == sys.db.(outbox := Settle(sys, now).db.outbox)
    ensures Settle(sys, now).worker == NextMessage(sys.worker.batch)
  {
    hide MarkDelivered, MarkFailed;
  }

  lemma TodoSettled(sys: Sys, sys': Sys)
    requires sys.worker.Busy? && sys.worker.phase.Finished? && Undelivered(sys.db.outbox) != []
    requires sys'.worker.Idle? || sys'.worker.phase.AtStart?
    requires Undelivered(sys'.db.outbox) == Undelivered(sys.db.outbox)[1..]
    ensures Todo(sys') == Todo(sys)
  {
    var u := Undelivered(sys.db.outbox);
    assert Errands(u)[1..] == Errands(u[1..]);
  }

  lemma FinishedWaits(sys: Sys, clock: int)
    requires Orderly(sys, clock) && sys.worker.Busy?
    ensures Undelivered(sys.db.outbox) != [] && !sys.worker.phase.Thrown?
  {
    hide RowsCalm, Undelivered;
  }

  /** Marking the message in hand changes nothing but its row. */
  lemma CalmSettle(sys: Sys, clock: int, now: int)
    requires CalmInv(sys, clock) && sys.worker.Busy? && sys.worker.batch != [] && clock <= now
    requires sys.worker.phase.Finished?
    ensures CalmInv(Settle(sys, now), now)
  {
    var sys' := Settle(sys, now);
    InvOf(sys);
    hide SysInv, QueueGood, Orderly, Inv, AllDone, Settle, Undelivered;
    FinishedWaits(sys, clock);
    SettleKeeps(sys, now);
    SettleKeepsQueue(sys, now);
    SettleOrderly(sys, clock, now);
    SettleParts(sys, now);
    TodoSettled(sys, sys');
    hide Todo;
    SameMoney(sys, sys');
  }

  /** Money done depends on history, ledger, jobs and the errand list alone. */
  lemma SameMoney(sys: Sys, sys': Sys)
    requires AllDone(sys) && Todo(sys') == Todo(sys)
    requires sys'.db.events == sys.db.events && sys'.db.ledger == sys.db.ledger && sys'.db.jobs == sys.db.jobs
    requires sys'.worker.Busy? && sys'.worker.batch != [] ==> sys'.worker.phase.AtStart?
    ensures AllDone(sys')
  {
    hide Todo, OrderGood, MovedOf, ApprovedFirst, Happened;
  }

  lemma CalmClaim(policy: Policy, sys: Sys, clock: int, now: int, limit: nat)
    requires CalmInv(sys, clock) && sys.worker.Idle? && clock <= now
    ensures CalmInv(Do(policy, sys, Claim(now, limit)), now)
  {
    var sys' := Do(policy, sys, Claim(now, limit));
    InvOf(sys);
    hide SysInv, QueueGood, Orderly, AllDone, Inv;
    ClaimKeeps(policy, sys, now, limit);
    ClaimKeepsQueue(policy, sys, now, limit);
    ClaimOrderly(policy, sys, clock, now, limit);
    hide ClaimOutbox;
    assert Todo(sys') == Todo(sys) by {
      hide Do;
      assert Errands(Undelivered(sys'.db.outbox)) == Errands(Undelivered(sys.db.outbox));
      ClaimedBatch(policy, sys, now, limit);
    }
    hide Todo;
    SameMoney(sys, sys');
  }

  lemma ErrandsConcat(a: seq<Row>, b: seq<Row>)
    ensures Errands(a + b) == Errands(a) + Errands(b)
  {
  }

  lemma ApiTodo(sys: Sys, db': Db, added: seq<Row>)
    requires Undelivered(db'.outbox) == Undelivered(sys.db.outbox) + added
    requires sys.worker.Busy? && sys.worker.phase.Finished? ==> Undelivered(sys.db.outbox) != []
    ensures Todo(sys.(db := db')) == Todo(sys) + Errands(added)
  {
    ErrandsConcat(Undelivered(sys.db.outbox), added);
  }

  lemma ApiDone(policy: Policy, sys: Sys, s: Step, added: seq<Errand>)
    requires SysInv(sys) && Admissible(sys.db, s) && AllDone(sys)
    requires var db, db' := sys.db, Apply(policy, sys.db, s);
      && db.events <= db'.events && Announced(db.events, db'.events, added)
      && Todo(sys.(db := db')) == Todo(sys) + added
    ensures AllDone(Do(policy, sys, Api(s)))
  {
    var todo, db' := Todo(sys), Apply(policy, sys.db, s);
    AnnouncedOrder(sys.db.events, db'.events, todo, added);
    assert forall t :: t in todo && MovesMoney(t.kind) ==> Happened(sys.db.events, t.jobId, t.kind);
    hide SysInv, Apply, Admissible, Todo, OrderGood, MoneyDone, PhaseFits, Announced;
    forall j | j in db'.jobs ensures MoneyDone(db', todo + added, j) {
      ApiMoney(policy, sys, s, todo, added, j);
    }
  }

  lemma CalmApi(policy: Policy, sys: Sys, clock: int, s: Step)
    requires CalmInv(sys, clock) && Admissible(sys.db, s) && !s.Retain? && clock <= StepTime(s)
    ensures CalmInv(Do(policy, sys, Api(s)), StepTime(s))
  {
    var db, db', now := sys.db, Apply(policy, sys.db, s), StepTime(s);
    InvOf(sys);
    hide SysInv, QueueGood, Orderly, AllDone, Inv, Apply, Admissible;
    if sys.worker.Busy? { FinishedWaits(sys, clock); }
    ApiKeeps(policy, sys, s);
    ApiKeepsQueue(policy, sys, s);
    StepAppends(policy, db, s);
    AppendOrderly(sys, db', clock, now);
    StepAnnounces(policy, db, s);
    var rows := db'.outbox[|db.outbox|..];
    ApiTodo(sys, db', rows);
    hide Announced, Todo;
    ApiDone(policy, sys, s, Errands(rows));
  }

  lemma RetainParts(db: Db, olderThan: int)
    ensures var db' := RunRetention(db, olderThan);
      db'.events == db.events && db'.ledger == db.ledger && db'.jobs == db.jobs
  {
    hide RetainFrom;
    RetainEvolves(KeepsWrites, db, 0, olderThan);
  }

  lemma RetainStep(policy: Policy, sys: Sys, olderThan: int)
    ensures Admissible(sys.db, Retain(olderThan))
    ensures Do(policy, sys, Api(Retain(olderThan))) == sys.(db := RunRetention(sys.db, olderThan))
  {
    hide RunRetention;
  }

  lemma CalmRetain(policy: Policy, sys: Sys, clock: int, olderThan: int)
    requires CalmInv(sys, clock)
    ensures CalmInv(sys.(db := RunRetention(sys.db, olderThan)), clock)
  {
    var s := Retain(olderThan);
    var sys' := sys.(db := RunRetention(sys.db, olderThan));
    hide SysInv, QueueGood, Orderly, AllDone, RunRetention;
    RetainStep(policy, sys, olderThan);
    ApiKeeps(policy, sys, s);
    ApiKeepsQueue(policy, sys, s);
    RetainOrderly(sys, clock, olderThan);
    RetainParts(sys.db, olderThan);
    assert Todo(sys') == Todo(sys);
    hide Todo;
    assert AllDone(sys') by { RetainMoney(sys, sys'); }
  }

  lemma RetainMoney(sys: Sys, sys': Sys)
    requires AllDone(sys) && Todo(sys') == Todo(sys) && sys'.worker == sys.worker
    requires sys'.db.events == sys.db.events && sys'.db.ledger == sys.db.ledger && sys'.db.jobs == sys.db.jobs
    ensures AllDone(sys')
  {
    hide Todo, OrderGood, MovedOf, ApprovedFirst, Happened, PhaseFits;
  }

  lemma CalmStep(policy: Policy, sys: Sys, clock: int, s: SysStep)
    requires CalmInv(sys, clock) && Enabled(sys, s) && !s.Fail? && !s.Crash? && InTime(s, clock)
    ensures CalmInv(Do(policy, sys, s), ClockAfter(s, clock))
  {
    match s
    case Api(step) =>
      hide CalmInv, Admissible, Do, RunRetention;
      if step.Retain? {
        RetainStep(policy, sys, step.olderThan);
        CalmRetain(policy, sys, clock, step.olderThan);
      } else {
        CalmApi(policy, sys, clock, step);
      }
    case Claim(now, limit) => hide CalmInv, Do; CalmClaim(policy, sys, clock, now, limit);
    case Go(now) =>
      FinishedWaits(sys, clock) by { hide Orderly, SysInv, QueueGood, AllDone; }
      hide CalmInv, Settle, Advance;
      if sys.worker.phase.Finished? {
        CalmSettle(sys, clock, now);
        assert Advance(sys, now) == Settle(sys, now) by { AdvanceSettles(sys, now); }
      } else {
        CalmGo(sys, clock, now);
      }
  }

  lemma AdvanceSettles(sys: Sys, now: int)
    requires sys.worker.Busy? && sys.worker.batch != [] && sys.worker.phase.Finished?
    ensures Advance(sys, now) == Settle(sys, now)
  {
    hide Settle;
  }

  lemma {:induction false} CalmRun(policy: Policy, sys: Sys, clock: int, steps: seq<SysStep>) returns (last: int)
    requires CalmInv(sys, clock) && Calm(policy, sys, steps, clock)
    ensures LawfulSys(policy, sys, steps) && CalmInv(RunSys(policy, sys, steps), last) && last == ClockEnd(steps, clock)
    decreases |steps|
  {
    CalmIsLawful(policy, sys, steps, clock);
    hide CalmInv, Do, Enabled;
    if steps == [] {
      last := clock;
    } else {
      CalmStep(policy, sys, clock, steps[0]);
      last := CalmRun(policy, Do(policy, sys, steps[0]), ClockAfter(steps[0], clock), steps[1..]);
    }
  }

  lemma CalmStart()
    ensures CalmInv(START, 0)
  {
    StartInv();
  }

  // --------------------------------------------------------------- main result

  /** Nothing waits and nobody works. */
  predicate Quiet(sys: Sys) {
    sys.worker.Idle? && forall r :: r in sys.db.outbox ==> !r.status.RowPending?
  }

  /** When a failure-free run, with requests falling between any two micro-steps of
      the worker, has emptied its queue, every message was delivered and every
      job's money is settled: a completed job was held, captured and paid out
      exactly once; a cancelled one has its hold released exactly if the customer
      had approved before the cancellation; any other is held exactly if approved. */
  lemma SettledWhenQuiet(policy: Policy, steps: seq<SysStep>, j: Id)
    requires Calm(policy, START, steps, 0) && LawfulSys(policy, START, steps)
    requires Quiet(RunSys(policy, START, steps)) && j in RunSys(policy, START, steps).db.jobs
    ensures var db := RunSys(policy, START, steps).db;
      var m, status, approved := MovedOf(db.ledger, j), db.jobs[j].status, One(Happened(db.events, j, QuoteApproved));
      && (forall r :: r in db.outbox ==> r.status.RowSent?)
      && (status.Completed? ==> m == Moved(1, 1, 1, 0))
      && (status.Cancelled? ==> m == Moved(approved, 0, 0, One(ApprovedFirst(db.events, j, JobCancelled))))
      && (!status.Completed? && !status.Cancelled? ==> m == Moved(approved, 0, 0, 0))
  {
    CalmStart();
    hide CalmInv, RunSys, LawfulSys, Calm;
    var last := CalmRun(policy, START, 0, steps);
    QuietMoney(RunSys(policy, START, steps), last, j);
  }

  lemma MoneyQuiet(db: Db, j: Id)
    requires j in db.jobs && MoneyDone(db, [], j)
    requires MovedSafely(MovedOf(db.ledger, j)) && MovedInTime(MovedOf(db.ledger, j), db.jobs[j].status)
    ensures var m, status := MovedOf(db.ledger, j), db.jobs[j].status;
      var approved := One(Happened(db.events, j, QuoteApproved));
      && (status.Completed? ==> m == Moved(1, 1, 1, 0))
      && (status.Cancelled? ==> m == Moved(approved, 0, 0, One(ApprovedFirst(db.events, j, JobCancelled))))
      && (!status.Completed? && !status.Cancelled? ==> m == Moved(approved, 0, 0, 0))
  {
    hide MovedOf;
  }

  lemma NothingLeft(sys: Sys, clock: int)
    requires RowsCalm(sys.db.outbox, clock) && Quiet(sys)
    ensures Todo(sys) == [] && forall r :: r in sys.db.outbox ==> r.status.RowSent?
  {
    hide ByAge;
    var u := Undelivered(sys.db.outbox);
    if |u| > 0 { SomeRow(u); }
  }

  lemma SomeRow(rows: seq<Row>)
    requires |rows| > 0
    ensures exists r :: r in rows
  {
    assert rows[0] in rows;
  }

  lemma QuietMoney(sys: Sys, clock: int, j: Id)
    requires CalmInv(sys, clock) && Quiet(sys) && j in sys.db.jobs
    ensures forall r :: r in sys.db.outbox ==> r.status.RowSent?
    ensures var db := sys.db;
      var m, status, approved := MovedOf(db.ledger, j), db.jobs[j].status, One(Happened(db.events, j, QuoteApproved));
      && (status.Completed? ==> m == Moved(1, 1, 1, 0))
      && (status.Cancelled? ==> m == Moved(approved, 0, 0, One(ApprovedFirst(db.events, j, JobCancelled))))
      && (!status.Completed? && !status.Cancelled? ==> m == Moved(approved, 0, 0, 0))
  {
    hide SysInv, QueueGood, OrderGood, MoneyDone, RowsCalm, Todo, FrontCalm, Quiet, MovedOf, MovedSafely, MovedInTime,
      ApprovedFirst, Happened;
    NothingLeft(sys, clock);
    JobMoney(sys, j);
    MoneyQuiet(sys.db, j);
  }
}
