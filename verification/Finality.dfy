/** Once the message of a money event is final, the money it is about never moves again. */
module Finality {
  import opened Contracts
  import opened Counting
  import opened OutboxKeys
  import opened Db
  import opened Machine
  import opened Invariants
  import opened Preservation
  import opened Evolution
  import opened System
  import opened Outbox
  import opened Money
  import opened Queue
  import opened Claims
  import opened TodoOrder
  import opened Settlement

  /** The event of a money errand happened and no row of it is open any more. */
  ghost predicate Over(db: Db, t: Errand) {
    && MovesMoney(t.kind) && Happened(db.events, t.jobId, t.kind)
    && forall r :: r in db.outbox && ErrandOf(r) == t ==> Final(r)
  }

  /** How often the kinds of money an errand is about have moved. */
  function About(m: Moved, kind: EventType): (nat, nat) {
    match kind
    case QuoteApproved => (m.holds, 0)
    case JobCompleted => (m.captures, m.payouts)
    case JobCancelled => (m.voids, 0)
    case _ => (0, 0)
  }

  predicate EntryFits(kind: EntryKind, event: EventType) {
    match kind
    case Authorisation => event.QuoteApproved?
    case Capture => event.JobCompleted?
    case Payout => event.JobCompleted?
    case AuthorisationVoid => event.JobCancelled?
    case _ => false
  }

  ghost predicate Fits(sys: Sys) {
    sys.worker.Busy? && sys.worker.batch != [] ==> PhaseFits(sys.worker.batch[0], sys.worker.phase)
  }

  // ------------------------------------------------------------ one micro-step

  ghost predicate FittingEntry(ledger: seq<Entry>, ledger': seq<Entry>, m: Row) {
    || ledger' == ledger
    || exists e :: ledger' == ledger + [e] && e.jobId == m.jobId && EntryFits(e.kind, m.event)
  }

  /** The ledger gained at most an entry that fits the message in hand, and so does the new phase. */
  ghost predicate FitStep(sys: Sys, sys': Sys)
    requires sys.worker.Busy? && sys.worker.batch != []
  {
    && FittingEntry(sys.db.ledger, sys'.db.ledger, sys.worker.batch[0]) && sys'.db.events == sys.db.events
    && sys'.worker.Busy? && sys'.worker.batch == sys.worker.batch
    && PhaseFits(sys.worker.batch[0], sys'.worker.phase)
  }

  lemma TurnFits(sys: Sys, holds: map<Reference, int>, p: Phase)
    requires sys.worker.Busy? && sys.worker.batch != [] && PhaseFits(sys.worker.batch[0], p)
    ensures FitStep(sys, Turn(sys.(holds := holds), p)) && sys.(holds := sys.holds) == sys
  {
    hide PhaseFits;
  }

  lemma WriteFits(sys: Sys, e: Entry, next: Phase)
    requires sys.worker.Busy? && sys.worker.batch != [] && PhaseFits(sys.worker.batch[0], next)
    requires e.jobId == sys.worker.batch[0].jobId && EntryFits(e.kind, sys.worker.batch[0].event)
    ensures FitStep(sys, Write(sys, e, next))
  {
    assert PhaseFits(sys.worker.batch[0], Thrown);
    assert AppendEntries(sys.db.ledger, [e]) ==
      if Writable(e) then (sys.db.ledger + [e], Done) else (sys.db.ledger, Refused(ValidationError)) by {
      assert [e][1..] == [];
    }
    hide PhaseFits, AppendEntries, Writable, EntryFits;
  }

  lemma HoldFits(sys: Sys)
    requires sys.worker.Busy? && sys.worker.batch != [] && PhaseFits(sys.worker.batch[0], sys.worker.phase)
    requires sys.worker.phase.HoldWanted? || sys.worker.phase.HoldPriced? || sys.worker.phase.HoldPlaced?
    ensures FitStep(sys, AdvanceHold(sys))
  {
    var j := sys.worker.batch[0].jobId;
    hide FitStep, Turn, Write, Authorise, ApprovedGross, AuthReference;
    match sys.worker.phase
    case HoldWanted =>
      var gross := ApprovedGross(sys.db.quotes, j);
      TurnFits(sys, sys.holds, if gross.None? then Finished else HoldPriced(gross.value));
    case HoldPriced(gross) =>
      var holds := Authorise(sys.holds, j, gross);
      if holds.None? { TurnFits(sys, sys.holds, Thrown); }
      else { TurnFits(sys, holds.value, HoldPlaced(gross, AuthReference(j))); }
    case HoldPlaced(gross, r) => WriteFits(sys, Entry(j, Authorisation, gross, Some(r)), Finished);
  }

  lemma CaptureFits(sys: Sys)
    requires sys.worker.Busy? && sys.worker.batch != [] && PhaseFits(sys.worker.batch[0], sys.worker.phase)
    requires sys.worker.phase.CaptureSeen? || sys.worker.phase.CaptureTaken?
    ensures FitStep(sys, AdvanceCapture(sys))
  {
    var j := sys.worker.batch[0].jobId;
    hide FitStep, Turn, Write, Capturable, CaptureReference, HoldReference;
    match sys.worker.phase
    case CaptureSeen(hold, captured, paid) =>
      TurnFits(sys, sys.holds,
               if captured then (if paid then Finished else PayoutWanted(hold))
               else if Capturable(sys.holds, HoldReference(hold), hold.amountCents)
               then CaptureTaken(hold, paid, CaptureReference(hold)) else Thrown);
    case CaptureTaken(hold, paid, r) =>
      WriteFits(sys, Entry(j, Capture, hold.amountCents, Some(r)), if paid then Finished else PayoutWanted(hold));
  }

  lemma PayoutFits(sys: Sys)
    requires sys.worker.Busy? && sys.worker.batch != [] && PhaseFits(sys.worker.batch[0], sys.worker.phase)
    requires var p := sys.worker.phase; p.PayoutWanted? || p.PayoutTo? || p.PayoutPriced? || p.PayoutSent?
    ensures FitStep(sys, AdvancePayout(sys))
  {
    var j := sys.worker.batch[0].jobId;
    hide FitStep, Turn, Write, PayoutCents, PayoutKey, ActiveIndex;
    match sys.worker.phase
    case PayoutWanted(hold) =>
      var k := ActiveIndex(sys.db.assignments, j);
      TurnFits(sys, sys.holds,
               if k == |sys.db.assignments| then Finished else PayoutTo(hold, sys.db.assignments[k].providerId));
    case PayoutTo(hold, p) => TurnFits(sys, sys.holds, PayoutPriced(p, PayoutCents(sys.db.offers, j, hold)));
    case PayoutPriced(p, cents) =>
      TurnFits(sys, sys.holds, if cents <= 0 then Thrown else PayoutSent(cents, Reference("payout", PayoutKey(j, p))));
    case PayoutSent(cents, r) => WriteFits(sys, Entry(j, Payout, -cents, Some(r)), Finished);
  }

  lemma ReleaseFits(sys: Sys)
    requires sys.worker.Busy? && sys.worker.batch != [] && PhaseFits(sys.worker.batch[0], sys.worker.phase)
    requires sys.worker.phase.ReleaseSeen?
    ensures FitStep(sys, AdvanceRelease(sys))
  {
    hide FitStep, Write;
    var j, hold := sys.worker.batch[0].jobId, sys.worker.phase.hold;
    WriteFits(sys, Entry(j, AuthorisationVoid, -hold.amountCents, hold.reference), Finished);
  }

  lemma HandlerFits(sys: Sys, now: int)
    requires SysInv(sys) && Fits(sys) && sys.worker.Busy? && sys.worker.batch != []
    requires !sys.worker.phase.Finished? && !sys.worker.phase.Thrown?
    ensures FitStep(sys, Advance(sys, now))
  {
    RowTopic(sys);
    hide SysInv, PhaseFits, FitStep, Turn, Begin, AdvanceHold, AdvanceCapture, AdvancePayout, AdvanceRelease, Settle;
    var p := sys.worker.phase;
    if p.AtStart? {
      BeginFits(sys.db.ledger, sys.worker.batch[0]);
      TurnFits(sys, sys.holds, Begin(sys.db.ledger, sys.worker.batch[0]));
    }
    else if p.HoldWanted? || p.HoldPriced? || p.HoldPlaced? { HoldFits(sys); }
    else if p.CaptureSeen? || p.CaptureTaken? { CaptureFits(sys); }
    else if p.PayoutWanted? || p.PayoutTo? || p.PayoutPriced? || p.PayoutSent? { PayoutFits(sys); }
    else { ReleaseFits(sys); }
  }

  lemma FitsStep(policy: Policy, sys: Sys, s: SysStep)
    requires SysInv(sys) && Fits(sys) && Enabled(sys, s)
    ensures Fits(Do(policy, sys, s))
  {
    hide SysInv, PhaseFits, Apply, ClaimOutbox, Advance;
    match s
    case Api(step) =>
    case Claim(now, limit) => FreshFits();
    case Go(now) =>
      if sys.worker.phase.Finished? || sys.worker.phase.Thrown? {
        FreshFits();
        AdvanceIsSettle(sys, now);
        SettleParts(sys, now);
      } else {
        HandlerFits(sys, now);
        FitsAfter(sys, Advance(sys, now));
      }
    case Fail => FreshFits();
    case Crash =>
  }

  /** Before its first look at the ledger, and after a failure, a handler fits anything. */
  lemma FreshFits()
    ensures forall m :: PhaseFits(m, AtStart) && PhaseFits(m, Thrown)
  {
  }

  lemma AdvanceIsSettle(sys: Sys, now: int)
    requires sys.worker.Busy? && sys.worker.batch != [] && (sys.worker.phase.Finished? || sys.worker.phase.Thrown?)
    ensures Advance(sys, now) == Settle(sys, now)
  {
    hide Settle;
  }

  lemma FitsAfter(sys: Sys, sys': Sys)
    requires sys.worker.Busy? && sys.worker.batch != [] && FitStep(sys, sys')
    ensures Fits(sys')
  {
    hide PhaseFits, FittingEntry;
  }

  // ------------------------------------------------------------------- finality

  lemma BatchIsNotOver(sys: Sys, t: Errand)
    requires QueueGood(sys) && Over(sys.db, t) && sys.worker.Busy?
    ensures sys.worker.batch != [] && forall m :: m in sys.worker.batch ==> ErrandOf(m) != t
  {
    hide Happened, IdsDiffer;
    forall m | m in sys.worker.batch ensures ErrandOf(m) != t {
      assert Mirrors(sys.db.outbox, m);
      var k :| 0 <= k < |sys.db.outbox| && IsCopy(sys.db.outbox[k], m);
      assert sys.db.outbox[k] in sys.db.outbox;
    }
  }

  /** What happened before is not announced again. */
  lemma NotAnnouncedAgain(a: seq<Event>, b: seq<Event>, added: seq<Errand>, t: Errand)
    requires a <= b && Announced(a, b, added) && MovesMoney(t.kind) && Happened(a, t.jobId, t.kind)
    ensures t !in added && Happened(b, t.jobId, t.kind)
  {
    FirstPosPrefix(a, b, t.jobId, t.kind);
  }

  lemma RowsOver(a: seq<Row>, b: seq<Row>, t: Errand)
    requires a <= b && (forall r :: r in a && ErrandOf(r) == t ==> Final(r)) && t !in Errands(b[|a|..])
    ensures forall r :: r in b && ErrandOf(r) == t ==> Final(r)
  {
    var rows := b[|a|..];
    forall i | |a| <= i < |b| ensures ErrandOf(b[i]) != t {
      assert Errands(rows)[i - |a|] == ErrandOf(b[i]) && Errands(rows)[i - |a|] in Errands(rows);
    }
    forall r | r in b && ErrandOf(r) == t ensures Final(r) {
      var i :| 0 <= i < |b| && b[i] == r;
      assert a[i] in a && a[i] == r;
    }
  }

  lemma ApiOver(policy: Policy, db: Db, s: Step, t: Errand)
    requires Inv(db) && Admissible(db, s) && !s.Retain? && Over(db, t)
    ensures Over(Apply(policy, db, s), t)
  {
    var db' := Apply(policy, db, s);
    hide Inv, Admissible, Apply, Announced, Happened, Errands;
    StepAnnounces(policy, db, s);
    NotAnnouncedAgain(db.events, db'.events, Errands(db'.outbox[|db.outbox|..]), t);
    RowsOver(db.outbox, db'.outbox, t);
  }

  lemma RetainOver(db: Db, olderThan: int, t: Errand)
    requires Over(db, t)
    ensures Over(RunRetention(db, olderThan), t)
  {
    hide Happened, RunRetention;
    RetainedRows(db, olderThan);
    RetainParts(db, olderThan);
  }

  lemma ClaimOver(db: Db, now: int, limit: nat, t: Errand)
    requires Over(db, t)
    ensures Over(db.(outbox := ClaimOutbox(db.outbox, now, limit).0), t)
  {
    hide Happened, DueBatch;
    var o := ClaimOutbox(db.outbox, now, limit).0;
    forall r | r in o && ErrandOf(r) == t ensures Final(r) {
      var i :| 0 <= i < |o| && o[i] == r;
      assert db.outbox[i] in db.outbox;
    }
  }

  lemma RewrittenOver(a: seq<Row>, k: nat, r: Row, t: Errand)
    requires k < |a| && ErrandOf(r) != t && forall q :: q in a && ErrandOf(q) == t ==> Final(q)
    ensures forall q :: q in a[k := r] && ErrandOf(q) == t ==> Final(q)
  {
    var b := a[k := r];
    forall q | q in b && ErrandOf(q) == t ensures Final(q) {
      var i :| 0 <= i < |b| && b[i] == q;
      if i != k { assert a[i] in a && a[i] == q; }
    }
  }

  lemma SettleOver(sys: Sys, now: int, t: Errand)
    requires QueueGood(sys) && Inv(sys.db) && Over(sys.db, t) && sys.worker.Busy? && sys.worker.batch != []
    ensures Over(Settle(sys, now).db, t) && Settle(sys, now).db.ledger == sys.db.ledger
  {
    hide Inv, Happened, QueueGood, Settle;
    BatchIsNotOver(sys, t);
    assert sys.worker.batch[0] in sys.worker.batch;
    var k := SettleEffect(sys, now);
    SettleParts(sys, now);
    RewrittenOver(sys.db.outbox, k, Settle(sys, now).db.outbox[k], t);
  }

  lemma EntryElsewhere(ledger: seq<Entry>, ledger': seq<Entry>, m: Row, t: Errand)
    requires FittingEntry(ledger, ledger', m) && ErrandOf(m) != t
    ensures About(MovedOf(ledger', t.jobId), t.kind) == About(MovedOf(ledger, t.jobId), t.kind)
  {
    if ledger' != ledger {
      var e :| ledger' == ledger + [e] && e.jobId == m.jobId && EntryFits(e.kind, m.event);
      AppendMoved(ledger, e, t.jobId);
      hide MovedOf;
    }
  }

  lemma HandlerOver(sys: Sys, now: int, t: Errand)
    requires QueueGood(sys) && SysInv(sys) && Fits(sys) && Over(sys.db, t) && sys.worker.Busy? && sys.worker.batch != []
    requires !sys.worker.phase.Finished? && !sys.worker.phase.Thrown?
    ensures Over(Advance(sys, now).db, t)
    ensures About(MovedOf(Advance(sys, now).db.ledger, t.jobId), t.kind) ==
            About(MovedOf(sys.db.ledger, t.jobId), t.kind)
  {
    BatchIsNotOver(sys, t);
    hide QueueGood, SysInv, Fits, Advance, Happened, MovedOf;
    HandlerFits(sys, now);
    HandlerLeavesQueue(sys, now);
    assert sys.worker.batch[0] in sys.worker.batch;
    hide FittingEntry, PhaseFits;
    EntryElsewhere(sys.db.ledger, Advance(sys, now).db.ledger, sys.worker.batch[0], t);
  }

  lemma OverStep(policy: Policy, sys: Sys, s: SysStep, t: Errand)
    requires QueueGood(sys) && SysInv(sys) && Fits(sys) && Enabled(sys, s) && Over(sys.db, t)
    ensures var sys' := Do(policy, sys, s);
      && Over(sys'.db, t)
      && About(MovedOf(sys'.db.ledger, t.jobId), t.kind) == About(MovedOf(sys.db.ledger, t.jobId), t.kind)
  {
    InvOf(sys);
    hide SysInv, MovedOf, Fits, QueueGood, Inv, Over, Apply, ClaimOutbox, Advance, RunRetention;
    match s
    case Api(step) =>
      StepEvolves(policy, sys.db, step);
      if step.Retain? {
        RetainOver(sys.db, step.olderThan, t);
        RetainStep(policy, sys, step.olderThan);
      } else {
        ApiOver(policy, sys.db, step, t);
      }
    case Claim(now, limit) => ClaimOver(sys.db, now, limit, t);
    case Go(now) =>
      if sys.worker.phase.Finished? || sys.worker.phase.Thrown? {
        SettleOver(sys, now, t);
        AdvanceIsSettle(sys, now);
      } else {
        HandlerOver(sys, now, t);
      }
    case Fail =>
    case Crash =>
  }

  lemma {:induction false} OverRun(policy: Policy, sys: Sys, steps: seq<SysStep>, t: Errand)
    requires QueueGood(sys) && SysInv(sys) && Fits(sys) && LawfulSys(policy, sys, steps) && Over(sys.db, t)
    ensures var sys' := RunSys(policy, sys, steps);
      && Over(sys'.db, t)
      && About(MovedOf(sys'.db.ledger, t.jobId), t.kind) == About(MovedOf(sys.db.ledger, t.jobId), t.kind)
    decreases |steps|
  {
    if steps != [] {
      assert Inv(sys.db) by { InvOf(sys); }
      hide QueueGood, SysInv, Fits, Over, Do, Enabled, MovedOf, About, Inv;
      SysStepKeeps(policy, sys, steps[0]);
      QueueStepKeeps(policy, sys, steps[0]);
      FitsStep(policy, sys, steps[0]);
      OverStep(policy, sys, steps[0], t);
      OverRun(policy, Do(policy, sys, steps[0]), steps[1..], t);
    }
  }

  lemma {:induction false} RunFits(policy: Policy, sys: Sys, steps: seq<SysStep>)
    requires QueueGood(sys) && SysInv(sys) && Fits(sys) && LawfulSys(policy, sys, steps)
    ensures var sys' := RunSys(policy, sys, steps); QueueGood(sys') && SysInv(sys') && Fits(sys')
    decreases |steps|
  {
    if steps != [] {
      assert Inv(sys.db) by { InvOf(sys); }
      hide QueueGood, SysInv, Fits, Do, Enabled, Inv;
      SysStepKeeps(policy, sys, steps[0]);
      QueueStepKeeps(policy, sys, steps[0]);
      FitsStep(policy, sys, steps[0]);
      RunFits(policy, Do(policy, sys, steps[0]), steps[1..]);
    }
  }

  /** Whatever fails or crashes: once the message of an approval, completion or cancellation
      is sent or dead, no continuation ever again places the hold, captures or pays
      out, or voids, for that job. */
  lemma FinalMessageMovesNothing(policy: Policy, before: seq<SysStep>, after: seq<SysStep>, t: Errand)
    requires LawfulSys(policy, START, before) && LawfulSys(policy, RunSys(policy, START, before), after)
    requires Over(RunSys(policy, START, before).db, t)
    ensures var mid := RunSys(policy, START, before);
      var end := RunSys(policy, mid, after);
      && About(MovedOf(end.db.ledger, t.jobId), t.kind) == About(MovedOf(mid.db.ledger, t.jobId), t.kind)
      && Over(end.db, t)
  {
    StartInv();
    assert QueueGood(START) && Fits(START);
    hide RunSys, LawfulSys, QueueGood, SysInv, Fits, Over, MovedOf, About;
    RunFits(policy, START, before);
    OverRun(policy, RunSys(policy, START, before), after, t);
  }

  /** So outside failure-free runs money can be left behind: a completion delivered before the
      hold reached the ledger is never captured, however long the system runs on and
      even if the hold is placed later; and a cancellation delivered before it never
      releases it. */
  lemma LateHoldStays(policy: Policy, before: seq<SysStep>, after: seq<SysStep>, j: Id)
    requires LawfulSys(policy, START, before) && LawfulSys(policy, RunSys(policy, START, before), after)
    requires var mid := RunSys(policy, START, before);
      && MovedOf(mid.db.ledger, j).holds == 0 && j in mid.db.jobs
      && (Over(mid.db, Errand(j, JobCompleted)) || Over(mid.db, Errand(j, JobCancelled)))
    ensures var m := MovedOf(RunSys(policy, RunSys(policy, START, before), after).db.ledger, j);
      m.captures == 0 && m.payouts == 0 && m.voids == 0
  {
    var mid := RunSys(policy, START, before);
    var end := RunSys(policy, mid, after);
    StartInv();
    hide RunSys, LawfulSys, SysInv, Over, MovedOf, About, MovedSafely, MovedInTime;
    RunSysKeeps(policy, START, before);
    RunSysKeeps(policy, mid, after);
    JobMoney(mid, j);
    JobMoney(end, j);
    var kind := if Over(mid.db, Errand(j, JobCompleted)) then JobCompleted else JobCancelled;
    FinalMessageMovesNothing(policy, before, after, Errand(j, kind));
    OverTells(end, j, kind);
    LeftBehind(MovedOf(mid.db.ledger, j), MovedOf(end.db.ledger, j), end.db.jobs[j].status, kind);
  }

  lemma LeftBehind(a: Moved, b: Moved, status: JobStatus, kind: EventType)
    requires a.holds == 0 && MovedSafely(a) && MovedSafely(b) && MovedInTime(b, status)
    requires About(b, kind) == About(a, kind) && (kind.JobCompleted? || kind.JobCancelled?)
    requires if kind.JobCompleted? then status.Completed? else status.Cancelled?
    ensures b.captures == 0 && b.payouts == 0 && b.voids == 0
  {
  }

  lemma OverTells(sys: Sys, j: Id, kind: EventType)
    requires SysInv(sys) && Over(sys.db, Errand(j, kind))
    ensures j in sys.db.jobs
    ensures kind.JobCompleted? ==> sys.db.jobs[j].status.Completed?
    ensures kind.JobCancelled? ==> sys.db.jobs[j].status.Cancelled?
  {
    InvOf(sys);
    hide SysInv, Happened;
    assert Refs(sys.db);
    hide Inv, Refs;
    HappenedOnJob(sys.db, j, kind);
    StatusHappened(sys.db, j);
  }
}
