/** What a delivered message has brought about, whatever failed or crashed before. */
module Delivery {
  import opened Contracts
  import opened Counting
  import opened OutboxKeys
  import opened Db
  import opened Machine
  import opened Tallies
  import opened Invariants
  import opened Preservation
  import opened Evolution
  import opened System
  import opened Money
  import opened Queue
  import opened Claims
  import opened TodoOrder
  import opened Settlement
  import opened Finality

  /** An approval has its hold; a completion is captured and paid, and a cancellation
      released, exactly if there is a hold. */
  predicate Honoured(m: Moved, kind: EventType) {
    match kind
    case QuoteApproved => m.holds == 1
    case JobCompleted => m.holds == 1 <==> m.captures == 1 && m.payouts == 1
    case JobCancelled => m.holds == 1 <==> m.voids == 1
    case _ => true
  }

  /** A handler that is through has honoured its message. */
  ghost predicate ThroughIsHonoured(sys: Sys) {
    sys.worker.Busy? && sys.worker.batch != [] && sys.worker.phase.Finished? ==>
      Honoured(MovedOf(sys.db.ledger, sys.worker.batch[0].jobId), sys.worker.batch[0].event)
  }

  // ------------------------------------------------------------ phase by phase

  lemma BeginHonours(sys: Sys)
    requires SysInv(sys) && sys.worker.Busy? && sys.worker.batch != []
    requires Begin(sys.db.ledger, sys.worker.batch[0]).Finished?
    ensures Honoured(MovedOf(sys.db.ledger, sys.worker.batch[0].jobId), sys.worker.batch[0].event)
  {
    hide SysInv, MovedOf, Begin;
    RowTopic(sys);
    JobMoney(sys, sys.worker.batch[0].jobId);
    BeginFinishes(sys.db.ledger, sys.worker.batch[0]);
  }

  /** The price of an approval is there to be held. */
  lemma WantedHasGross(sys: Sys)
    requires SysInv(sys) && Fits(sys) && sys.worker.Busy? && sys.worker.batch != [] && sys.worker.phase.HoldWanted?
    ensures ApprovedGross(sys.db.quotes, sys.worker.batch[0].jobId).Some?
  {
    var m := sys.worker.batch[0];
    hide SysInv, ApprovedGross, PhaseGood;
    var j := WorkerJob(sys);
    InvOf(sys);
    hide Inv;
    ApprovedRowHasGross(sys.db, m);
  }

  lemma ApprovedRowHasGross(db: Db, m: Row)
    requires Inv(db) && Projected(db.events, m) && m.event.QuoteApproved?
    ensures ApprovedGross(db.quotes, m.jobId).Some?
  {
    hide Inv, OutboxForEvent, TallyOf;
    var e :| e in db.events && e.jobId == m.jobId && e.kind == m.event && e.fields == m.fields;
    EventTells(db, e);
    var i := ApprovedQuoteAt(db, m.jobId);
    ApprovedGrossFound(db.quotes, m.jobId);
  }

  lemma ApprovedQuoteAt(db: Db, j: Id) returns (i: nat)
    requires j in db.jobs && TallyOf(db, j).approved == 1
    ensures i < |db.quotes| && ApprovedFor(j)(db.quotes[i])
  {
    i := CountWitness(db.quotes, ApprovedFor(j));
  }

  lemma HoldHonours(sys: Sys)
    requires SysInv(sys) && Fits(sys) && sys.worker.Busy? && sys.worker.batch != []
    requires sys.worker.phase.HoldWanted? || sys.worker.phase.HoldPriced? || sys.worker.phase.HoldPlaced?
    ensures ThroughIsHonoured(AdvanceHold(sys))
  {
    hide SysInv, MovedOf, ApprovedGross, AuthReference, Authorise;
    var j := sys.worker.batch[0].jobId;
    match sys.worker.phase
    case HoldWanted => WantedHasGross(sys);
    case HoldPriced(_) =>
    case HoldPlaced(gross, r) =>
      var k := WorkerJob(sys);
      HoldPlacedKeeps(sys);
      AppendMoved(sys.db.ledger, Entry(j, Authorisation, gross, Some(r)), j);
  }

  lemma CaptureHonours(sys: Sys)
    requires SysInv(sys) && Fits(sys) && sys.worker.Busy? && sys.worker.batch != []
    requires sys.worker.phase.CaptureSeen? || sys.worker.phase.CaptureTaken?
    ensures ThroughIsHonoured(AdvanceCapture(sys))
  {
    hide SysInv, MovedOf, Capturable, CaptureReference;
    var j := WorkerJob(sys);
    if sys.worker.phase.CaptureTaken? { CaptureTakenKeeps(sys); }
  }

  lemma PayoutHonours(sys: Sys)
    requires SysInv(sys) && Fits(sys) && sys.worker.Busy? && sys.worker.batch != []
    requires var p := sys.worker.phase; p.PayoutWanted? || p.PayoutTo? || p.PayoutPriced? || p.PayoutSent?
    ensures ThroughIsHonoured(AdvancePayout(sys))
  {
    hide SysInv, MovedOf, PayoutCents, PayoutKey, ActiveIndex;
    var j := sys.worker.batch[0].jobId;
    match sys.worker.phase
    case PayoutWanted(_) => WantedHasActive(sys);
    case PayoutSent(cents, r) =>
      var k := WorkerJob(sys);
      PayoutSentKeeps(sys);
      AppendMoved(sys.db.ledger, Entry(j, Payout, -cents, Some(r)), j);
    case _ =>
  }

  lemma ReleaseHonours(sys: Sys)
    requires SysInv(sys) && Fits(sys) && sys.worker.Busy? && sys.worker.batch != [] && sys.worker.phase.ReleaseSeen?
    ensures ThroughIsHonoured(AdvanceRelease(sys))
  {
    hide SysInv, MovedOf;
    var j := WorkerJob(sys);
    var hold := sys.worker.phase.hold;
    HoldEntry(sys, j, hold);
    ReleaseKeeps(sys);
    AppendMoved(sys.db.ledger, Entry(j, AuthorisationVoid, -hold.amountCents, hold.reference), j);
  }

  lemma GoHonours(sys: Sys, now: int)
    requires SysInv(sys) && Fits(sys) && sys.worker.Busy? && sys.worker.batch != []
    ensures ThroughIsHonoured(Advance(sys, now))
  {
    hide SysInv, Fits, ThroughIsHonoured, Begin, AdvanceHold, AdvanceCapture, AdvancePayout, AdvanceRelease, Settle;
    var p := sys.worker.phase;
    if p.AtStart? { StartHonours(sys); }
    else if p.HoldWanted? || p.HoldPriced? || p.HoldPlaced? { HoldHonours(sys); }
    else if p.CaptureSeen? || p.CaptureTaken? { CaptureHonours(sys); }
    else if p.PayoutWanted? || p.PayoutTo? || p.PayoutPriced? || p.PayoutSent? { PayoutHonours(sys); }
    else if p.ReleaseSeen? { ReleaseHonours(sys); }
    else { NextHonours(sys, now); }
  }

  lemma StartHonours(sys: Sys)
    requires SysInv(sys) && sys.worker.Busy? && sys.worker.batch != []
    ensures ThroughIsHonoured(Turn(sys, Begin(sys.db.ledger, sys.worker.batch[0])))
  {
    hide SysInv, MovedOf, Begin, Honoured;
    if Begin(sys.db.ledger, sys.worker.batch[0]).Finished? { BeginHonours(sys); }
  }

  lemma NextHonours(sys: Sys, now: int)
    requires sys.worker.Busy? && sys.worker.batch != []
    ensures ThroughIsHonoured(Settle(sys, now))
  {
    SettleParts(sys, now);
    hide Settle, Honoured, MovedOf;
  }

  lemma HonourStep(policy: Policy, sys: Sys, s: SysStep)
    requires SysInv(sys) && Fits(sys) && ThroughIsHonoured(sys) && Enabled(sys, s)
    ensures ThroughIsHonoured(Do(policy, sys, s))
  {
    hide SysInv, Fits, Honoured, MovedOf, Apply, ClaimOutbox, Advance;
    match s
    case Api(step) => StepEvolves(policy, sys.db, step);
    case Claim(now, limit) =>
    case Go(now) => GoHonours(sys, now);
    case Fail =>
    case Crash =>
  }

  lemma {:induction false} RunHonours(policy: Policy, sys: Sys, steps: seq<SysStep>)
    requires QueueGood(sys) && SysInv(sys) && Fits(sys) && ThroughIsHonoured(sys) && LawfulSys(policy, sys, steps)
    ensures ThroughIsHonoured(RunSys(policy, sys, steps))
    decreases |steps|
  {
    if steps != [] {
      InvOf(sys);
      hide QueueGood, SysInv, Fits, ThroughIsHonoured, Do, Enabled, Inv;
      SysStepKeeps(policy, sys, steps[0]);
      QueueStepKeeps(policy, sys, steps[0]);
      FitsStep(policy, sys, steps[0]);
      HonourStep(policy, sys, steps[0]);
      RunHonours(policy, Do(policy, sys, steps[0]), steps[1..]);
    }
  }

  // ------------------------------------------------------------------ for good

  /** A money event has one row. */
  lemma OneRowPerErrand(db: Db, i: nat, k: nat)
    requires Inv(db) && i < |db.outbox| && k < |db.outbox|
    requires ErrandOf(db.outbox[i]) == ErrandOf(db.outbox[k]) && MovesMoney(db.outbox[i].event)
    ensures i == k
  {
    var r, s := db.outbox[i], db.outbox[k];
    assert r in db.outbox && s in db.outbox && OutboxOk(db);
    hide Inv, RowsIndexed;
    SameErrandSameKey(db, r, s);
    OneRowPerKey(db, i, k) by { hide Projected; }
  }

  lemma SameErrandSameKey(db: Db, r: Row, s: Row)
    requires Inv(db) && Projected(db.events, r) && Projected(db.events, s)
    requires ErrandOf(r) == ErrandOf(s) && MovesMoney(r.event)
    ensures r.key == s.key
  {
    hide Inv, OutboxForEvent;
    var d :| d in db.events && d.jobId == r.jobId && d.kind == r.event && d.fields == r.fields;
    var e :| e in db.events && e.jobId == s.jobId && e.kind == s.event && e.fields == s.fields;
    var a :| 0 <= a < |db.events| && db.events[a] == d;
    var b :| 0 <= b < |db.events| && db.events[b] == e;
    if a < b { KindsOnce(db, a, b); }
    if b < a { KindsOnce(db, b, a); }
  }

  lemma SettledIsOver(sys: Sys, now: int)
    requires QueueGood(sys) && SysInv(sys) && sys.worker.Busy? && sys.worker.batch != [] && sys.worker.phase.Finished?
    requires MovesMoney(sys.worker.batch[0].event)
    ensures Over(Settle(sys, now).db, ErrandOf(sys.worker.batch[0]))
  {
    var m := sys.worker.batch[0];
    InvOf(sys);
    hide SysInv, QueueGood, Settle, Inv, Happened;
    HeadHasHappened(sys);
    var k := SettleEffect(sys, now);
    SettleParts(sys, now);
    var a, b := sys.db.outbox, Settle(sys, now).db.outbox;
    forall r | r in b && ErrandOf(r) == ErrandOf(m) ensures Final(r) {
      var i :| 0 <= i < |b| && b[i] == r;
      if i != k { OneRowPerErrand(sys.db, i, k); }
    }
  }

  lemma HeadHasHappened(sys: Sys)
    requires SysInv(sys) && sys.worker.Busy? && sys.worker.batch != []
    ensures Happened(sys.db.events, sys.worker.batch[0].jobId, sys.worker.batch[0].event)
  {
    hide SysInv, PhaseGood, OutboxForEvent;
    var j := WorkerJob(sys);
    var m := sys.worker.batch[0];
    var e :| e in sys.db.events && e.jobId == m.jobId && e.kind == m.event && e.fields == m.fields;
    var i :| 0 <= i < |sys.db.events| && sys.db.events[i] == e;
  }

  /** Whatever failed or crashed before and whatever happens afterwards: a delivered approval has
      its hold for good; a completion is captured and paid for good if and only if the
      hold is on the ledger when it is delivered; and a cancellation is released for
      good if and only if the hold is on the ledger when it is delivered. */
  lemma DeliveredIffHeld(policy: Policy, before: seq<SysStep>, now: int, after: seq<SysStep>)
    requires LawfulSys(policy, START, before)
    requires var sys := RunSys(policy, START, before);
      && sys.worker.Busy? && sys.worker.batch != [] && sys.worker.phase.Finished?
      && LawfulSys(policy, Settle(sys, now), after)
    ensures var sys := RunSys(policy, START, before);
      var m := sys.worker.batch[0];
      var at := MovedOf(sys.db.ledger, m.jobId);
      var end := MovedOf(RunSys(policy, Settle(sys, now), after).db.ledger, m.jobId);
      && (m.event.QuoteApproved? ==> at.holds == 1 && end.holds == 1)
      && (m.event.JobCompleted? ==> (at.holds == 1 <==> end.captures == 1 && end.payouts == 1))
      && (m.event.JobCancelled? ==> (at.holds == 1 <==> end.voids == 1))
  {
    StartInv();
    assert QueueGood(START) && Fits(START) && ThroughIsHonoured(START);
    hide RunSys, LawfulSys, QueueGood, SysInv, Fits, MovedOf, Settle, Honoured;
    RunFits(policy, START, before);
    RunHonours(policy, START, before);
    var sys := RunSys(policy, START, before);
    if MovesMoney(sys.worker.batch[0].event) { HonouredForGood(policy, sys, now, after); }
  }

  predicate ForGood(at: Moved, end: Moved, kind: EventType) {
    && (kind.QuoteApproved? ==> at.holds == 1 && end.holds == 1)
    && (kind.JobCompleted? ==> (at.holds == 1 <==> end.captures == 1 && end.payouts == 1))
    && (kind.JobCancelled? ==> (at.holds == 1 <==> end.voids == 1))
  }

  lemma HonouredForGood(policy: Policy, sys: Sys, now: int, after: seq<SysStep>)
    requires QueueGood(sys) && SysInv(sys) && Fits(sys)
    requires sys.worker.Busy? && sys.worker.batch != [] && sys.worker.phase.Finished?
    requires LawfulSys(policy, Settle(sys, now), after)
    requires var m := sys.worker.batch[0]; MovesMoney(m.event) && Honoured(MovedOf(sys.db.ledger, m.jobId), m.event)
    ensures var m := sys.worker.batch[0];
      var at := MovedOf(sys.db.ledger, m.jobId);
      var end := MovedOf(RunSys(policy, Settle(sys, now), after).db.ledger, m.jobId);
      ForGood(at, end, m.event)
  {
    hide SysInv, QueueGood, Settle, MovedOf, Over, RunSys, LawfulSys, Honoured, About, ForGood;
    var sys', m := Settle(sys, now), sys.worker.batch[0];
    SettledGood(sys, now);
    SettledIsOver(sys, now);
    SettleParts(sys, now);
    hide Fits;
    OverRun(policy, sys', after, ErrandOf(m));
    StaysHonoured(MovedOf(sys.db.ledger, m.jobId), MovedOf(RunSys(policy, sys', after).db.ledger, m.jobId), m.event);
  }

  lemma SettledGood(sys: Sys, now: int)
    requires QueueGood(sys) && SysInv(sys) && Fits(sys) && sys.worker.Busy? && sys.worker.batch != []
    ensures var sys' := Settle(sys, now); QueueGood(sys') && SysInv(sys') && Fits(sys')
  {
    InvOf(sys);
    hide SysInv, QueueGood, Settle, Inv, PhaseFits;
    SettleKeeps(sys, now);
    SettleKeepsQueue(sys, now);
    SettleParts(sys, now);
    FreshFits();
  }

  lemma StaysHonoured(at: Moved, end: Moved, kind: EventType)
    requires Honoured(at, kind) && About(end, kind) == About(at, kind)
    ensures ForGood(at, end, kind)
  {
  }
}
