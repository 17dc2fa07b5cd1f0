/** Whose money it is: what every ledger entry refers to at the gateway, and who is paid. */
module References {
  import opened Contracts
  import opened Counting
  import opened OutboxKeys
  import opened Db
  import opened Dispatch
  import opened Machine
  import opened Tallies
  import opened Invariants
  import opened Preservation
  import opened Evolution
  import opened System
  import opened Money
  import opened Claims
  import opened Sweep
  import opened Queue

  /** The provider at work on a completed job. */
  ghost predicate Worked(db: Db, j: Id, p: Id) {
    && j in db.jobs && db.jobs[j].status.Completed?
    && exists i :: IsWorker(db.assignments, j, p, i)
  }

  predicate IsWorker(assignments: seq<Assignment>, j: Id, p: Id, i: int) {
    && 0 <= i < |assignments| && assignments[i].jobId == j && assignments[i].providerId == p
    && assignments[i].status.Active?
  }

  /** A hold is known by its job, a capture and a release by their hold, and a payout goes to the
      provider that completed the job. */
  ghost predicate RefersTo(db: Db, e: Entry) {
    match e.kind
    case Authorisation => e.reference == Some(Reference("auth", "auth:" + e.jobId))
    case Capture => e.reference == Some(Reference("capture", "auth:" + ("auth:" + e.jobId)))
    case AuthorisationVoid => e.reference == Some(Reference("auth", "auth:" + e.jobId))
    case Payout => exists p :: Worked(db, e.jobId, p) && e.reference == Some(PayoutRef(e.jobId, p))
    case _ => false
  }

  function PayoutRef(j: Id, p: Id): Reference { Reference("payout", "payout:" + j + ":" + p) }

  ghost predicate AllRefer(db: Db) {
    forall e :: e in db.ledger ==> RefersTo(db, e)
  }

  /** The same for what the worker is about to write. */
  ghost predicate PhaseRefers(db: Db, j: Id, p: Phase) {
    match p
    case CaptureTaken(_, _, r) => r == Reference("capture", "auth:" + ("auth:" + j))
    case PayoutTo(_, provider) => Worked(db, j, provider)
    case PayoutPriced(provider, _) => Worked(db, j, provider)
    case PayoutSent(_, r) => exists provider :: Worked(db, j, provider) && r == PayoutRef(j, provider)
    case _ => true
  }

  ghost predicate RefsGood(sys: Sys) {
    && AllRefer(sys.db)
    && (sys.worker.Busy? && sys.worker.batch != [] ==> PhaseRefers(sys.db, sys.worker.batch[0].jobId, sys.worker.phase))
  }

  // ------------------------------------------------------------------- requests

  /** Nobody's work on a completed job is taken away or given to another. */
  ghost predicate WorkStays(a: seq<Assignment>, b: seq<Assignment>, j: Id) {
    |a| <= |b| && forall i :: 0 <= i < |a| && a[i].jobId == j ==> b[i] == a[i]
  }

  lemma OthersKeepWork(policy: Policy, db: Db, s: Step)
    requires Admissible(db, s) && !s.Accept? && !s.FallThrough?
    ensures Apply(policy, db, s).assignments == db.assignments
  {
    hide RecordEvent, ExpireFrom, RetainFrom, Cover, Visible, Holds, CanTransition, AddOffers, FreshOfferIds,
      QuoteIndex, OfferIndex, HasApprovedQuote;
    match s
    case Expire(now) => ExpiryEffect(db, 0, now);
    case Retain(olderThan) => RetainEvolves(policy, db, 0, olderThan);
    case CoverJob(j, eligible, ids, config, now) =>
      CoverEffect(db, j, eligible, ids, config, now);
    case _ =>
  }

  lemma StepKeepsWork(policy: Policy, db: Db, s: Step, j: Id)
    requires Admissible(db, s) && j in db.jobs && db.jobs[j].status.Completed?
    ensures WorkStays(db.assignments, Apply(policy, db, s).assignments, j)
  {
    hide RecordEvent, Holds, Withdraw;
    if !s.Accept? && !s.FallThrough? {
      OthersKeepWork(policy, db, s);
      hide Apply, Admissible;
    }
  }

  lemma WorkedStays(policy: Policy, db: Db, s: Step, j: Id, p: Id)
    requires Admissible(db, s) && Worked(db, j, p)
    ensures Worked(Apply(policy, db, s), j, p)
  {
    hide Apply, Admissible;
    StepEvolves(policy, db, s);
    StepKeepsWork(policy, db, s, j);
    var i :| IsWorker(db.assignments, j, p, i);
    assert IsWorker(Apply(policy, db, s).assignments, j, p, i);
  }

  lemma ApiRefers(policy: Policy, sys: Sys, s: Step)
    requires RefsGood(sys) && Admissible(sys.db, s)
    ensures RefsGood(Do(policy, sys, Api(s)))
  {
    var db' := Apply(policy, sys.db, s);
    StepEvolves(policy, sys.db, s);
    hide Apply, Admissible, Worked, QuotesEvolve, OffersEvolve, AssignmentsEvolve, JobsEvolve;
    forall j, p | Worked(sys.db, j, p) ensures Worked(db', j, p) { WorkedStays(policy, sys.db, s, j, p); }
  }

  // ---------------------------------------------------------------- worker steps

  /** A micro-step writes at most one entry, which refers as it should, and so does the next phase. */
  ghost predicate MoreRefers(sys: Sys, sys': Sys)
    requires sys.worker.Busy? && sys.worker.batch != []
  {
    && sys'.db.jobs == sys.db.jobs && sys'.db.assignments == sys.db.assignments
    && (sys'.db.ledger == sys.db.ledger
        || exists e :: sys'.db.ledger == sys.db.ledger + [e] && RefersTo(sys.db, e))
    && (sys'.worker.Busy? && sys'.worker.batch != [] ==>
          || sys'.worker.phase.AtStart?
          || (sys'.worker.batch == sys.worker.batch
              && PhaseRefers(sys.db, sys.worker.batch[0].jobId, sys'.worker.phase)))
  }

  lemma WorkedSame(db: Db, db': Db)
    requires db'.jobs == db.jobs && db'.assignments == db.assignments
    ensures forall j, p :: Worked(db', j, p) <==> Worked(db, j, p)
    ensures forall e :: RefersTo(db', e) <==> RefersTo(db, e)
    ensures forall j, p :: PhaseRefers(db', j, p) <==> PhaseRefers(db, j, p)
  {
    forall j, p ensures Worked(db', j, p) <==> Worked(db, j, p) {
      assert Worked(db', j, p) == Worked(db, j, p);
    }
    hide Worked, PayoutRef;
  }

  lemma MoreIsGood(sys: Sys, sys': Sys)
    requires RefsGood(sys) && sys.worker.Busy? && sys.worker.batch != [] && MoreRefers(sys, sys')
    ensures RefsGood(sys')
  {
    WorkedSame(sys.db, sys'.db);
    hide Worked, RefersTo, PayoutRef;
  }

  lemma WriteRefers(sys: Sys, e: Entry, next: Phase)
    requires sys.worker.Busy? && sys.worker.batch != [] && RefersTo(sys.db, e)
    requires PhaseRefers(sys.db, sys.worker.batch[0].jobId, next)
    ensures MoreRefers(sys, Write(sys, e, next))
  {
    hide RefersTo, Worked, PayoutRef;
    if Writable(e) {
      assert AppendEntries(sys.db.ledger, [e]) == (sys.db.ledger + [e], Done) by {
        assert AppendEntries(sys.db.ledger + [e], [e][1..]) == (sys.db.ledger + [e], Done);
      }
    }
  }

  lemma TurnRefers(sys: Sys, holds: map<Reference, int>, next: Phase)
    requires sys.worker.Busy? && sys.worker.batch != []
    requires PhaseRefers(sys.db, sys.worker.batch[0].jobId, next)
    ensures MoreRefers(sys, Turn(sys.(holds := holds), next))
  {
    hide RefersTo, Worked, PayoutRef, PhaseRefers;
  }

  /** The gateway's name for a hold and for its capture. */
  lemma HoldNames(j: Id, hold: Entry)
    requires hold.reference == Some(AuthReference(j))
    ensures AuthReference(j) == Reference("auth", "auth:" + j)
    ensures CaptureReference(hold) == Reference("capture", "auth:" + ("auth:" + j))
  {
    assert RefText(AuthReference(j)) == "auth" + ":" + ("auth:" + j) == "auth:" + ("auth:" + j);
  }

  lemma HoldRefers(sys: Sys)
    requires SysInv(sys) && sys.worker.Busy? && sys.worker.batch != []
    requires var p := sys.worker.phase; p.HoldWanted? || p.HoldPriced? || p.HoldPlaced?
    ensures MoreRefers(sys, AdvanceHold(sys))
  {
    hide SysInv, MovedOf, Projected, MovedSafely, MovedInTime, Turn, Write, MoreRefers, ApprovedGross;
    var j := WorkerJob(sys);
    match sys.worker.phase
    case HoldWanted =>
      var gross := ApprovedGross(sys.db.quotes, j);
      TurnRefers(sys, sys.holds, if gross.None? then Finished else HoldPriced(gross.value));
    case HoldPriced(gross) =>
      var holds := Authorise(sys.holds, j, gross);
      hide Authorise;
      if holds.None? { TurnRefers(sys, sys.holds, Thrown); }
      else { TurnRefers(sys, holds.value, HoldPlaced(gross, AuthReference(j))); }
    case HoldPlaced(gross, r) =>
      WriteRefers(sys, Entry(j, Authorisation, gross, Some(r)), Finished);
  }

  lemma CaptureRefers(sys: Sys)
    requires SysInv(sys) && RefsGood(sys) && sys.worker.Busy? && sys.worker.batch != []
    requires sys.worker.phase.CaptureSeen? || sys.worker.phase.CaptureTaken?
    ensures MoreRefers(sys, AdvanceCapture(sys))
  {
    hide SysInv, MovedOf, Projected, MovedSafely, MovedInTime, Turn, Write, MoreRefers, CaptureReference, HoldReference,
      Capturable, IsHold;
    var j := WorkerJob(sys);
    match sys.worker.phase
    case CaptureSeen(hold, captured, paid) =>
      HoldEntry(sys, j, hold);
      HoldNames(j, hold);
      TurnRefers(sys, sys.holds, Finished);
      TurnRefers(sys, sys.holds, Thrown);
      TurnRefers(sys, sys.holds, PayoutWanted(hold));
      TurnRefers(sys, sys.holds, CaptureTaken(hold, paid, CaptureReference(hold)));
    case CaptureTaken(hold, paid, r) =>
      WriteRefers(sys, Entry(j, Capture, hold.amountCents, Some(r)), if paid then Finished else PayoutWanted(hold));
  }

  lemma PayoutRefers(sys: Sys)
    requires SysInv(sys) && RefsGood(sys) && sys.worker.Busy? && sys.worker.batch != []
    requires var p := sys.worker.phase; p.PayoutWanted? || p.PayoutTo? || p.PayoutPriced? || p.PayoutSent?
    ensures MoreRefers(sys, AdvancePayout(sys))
  {
    hide SysInv, MovedOf, Projected, MovedSafely, Turn, Write, MoreRefers, PayoutCents, IsHold, AllRefer;
    var j := WorkerJob(sys);
    match sys.worker.phase
    case PayoutWanted(hold) =>
      var k := ActiveIndex(sys.db.assignments, j);
      if k == |sys.db.assignments| { TurnRefers(sys, sys.holds, Finished); }
      else {
        assert IsWorker(sys.db.assignments, j, sys.db.assignments[k].providerId, k);
        TurnRefers(sys, sys.holds, PayoutTo(hold, sys.db.assignments[k].providerId));
      }
    case PayoutTo(hold, p) =>
      TurnRefers(sys, sys.holds, PayoutPriced(p, PayoutCents(sys.db.offers, j, hold)));
    case PayoutPriced(p, cents) =>
      assert Reference("payout", PayoutKey(j, p)) == PayoutRef(j, p);
      TurnRefers(sys, sys.holds,
                 if cents <= 0 then Thrown else PayoutSent(cents, Reference("payout", PayoutKey(j, p))));
    case PayoutSent(cents, r) =>
      WriteRefers(sys, Entry(j, Payout, -cents, Some(r)), Finished);
  }

  lemma ReleaseRefers(sys: Sys)
    requires SysInv(sys) && sys.worker.Busy? && sys.worker.batch != [] && sys.worker.phase.ReleaseSeen?
    ensures MoreRefers(sys, AdvanceRelease(sys))
  {
    hide SysInv, MovedOf, Projected, MovedSafely, MovedInTime, Write, MoreRefers, IsHold;
    var j := WorkerJob(sys);
    var hold := sys.worker.phase.hold;
    HoldEntry(sys, j, hold);
    HoldNames(j, hold);
    WriteRefers(sys, Entry(j, AuthorisationVoid, -hold.amountCents, hold.reference), Finished);
  }

  lemma BeginRefers(sys: Sys)
    requires sys.worker.Busy? && sys.worker.batch != []
    ensures MoreRefers(sys, Turn(sys, Begin(sys.db.ledger, sys.worker.batch[0])))
  {
    hide MoreRefers, Turn, FirstOf, Recorded;
    assert sys.(holds := sys.holds) == sys;
    TurnRefers(sys, sys.holds, Begin(sys.db.ledger, sys.worker.batch[0]));
  }

  lemma SettleRefers(sys: Sys, now: int)
    requires sys.worker.Busy? && sys.worker.batch != []
    ensures MoreRefers(sys, Settle(sys, now))
  {
    hide RefersTo, PhaseRefers, Worked, MarkDelivered, MarkFailed;
  }

  lemma GoRefers(sys: Sys, now: int)
    requires SysInv(sys) && RefsGood(sys) && sys.worker.Busy? && sys.worker.batch != []
    ensures RefsGood(Advance(sys, now))
  {
    hide SysInv, RefsGood, MoreRefers, Turn, Begin, AdvanceHold, AdvanceCapture, AdvancePayout, AdvanceRelease, Settle;
    var p := sys.worker.phase;
    if p.AtStart? { BeginRefers(sys); }
    else if p.HoldWanted? || p.HoldPriced? || p.HoldPlaced? { HoldRefers(sys); }
    else if p.CaptureSeen? || p.CaptureTaken? { CaptureRefers(sys); }
    else if p.PayoutWanted? || p.PayoutTo? || p.PayoutPriced? || p.PayoutSent? { PayoutRefers(sys); }
    else if p.ReleaseSeen? { ReleaseRefers(sys); }
    else { SettleRefers(sys, now); }
    MoreIsGood(sys, Advance(sys, now));
  }

  lemma StopRefers(policy: Policy, sys: Sys, s: SysStep)
    requires RefsGood(sys) && Enabled(sys, s) && (s.Claim? || s.Fail? || s.Crash?)
    ensures RefsGood(Do(policy, sys, s))
  {
    var sys' := Do(policy, sys, s);
    WorkedSame(sys.db, sys'.db);
    hide ClaimOutbox, RefersTo, Worked, PayoutRef;
  }

  lemma SysStepRefers(policy: Policy, sys: Sys, s: SysStep)
    requires SysInv(sys) && RefsGood(sys) && Enabled(sys, s)
    ensures RefsGood(Do(policy, sys, s))
  {
    hide SysInv, RefsGood, Advance, Apply, ClaimOutbox, Admissible;
    match s
    case Api(step) => ApiRefers(policy, sys, step);
    case Go(now) => GoRefers(sys, now);
    case _ => StopRefers(policy, sys, s);
  }

  lemma {:induction false} RunRefers(policy: Policy, sys: Sys, steps: seq<SysStep>)
    requires SysInv(sys) && RefsGood(sys) && LawfulSys(policy, sys, steps)
    ensures RefsGood(RunSys(policy, sys, steps))
    decreases |steps|
  {
    hide SysInv, RefsGood, Do, Enabled;
    if steps != [] {
      SysStepRefers(policy, sys, steps[0]);
      SysStepKeeps(policy, sys, steps[0]);
      RunRefers(policy, Do(policy, sys, steps[0]), steps[1..]);
    }
  }

  /** Over every run with failures and crashes: each entry carries the reference of its own job at the
      gateway, and a payout names the provider who holds the active assignment of a completed job. */
  lemma EveryEntryRefers(policy: Policy, steps: seq<SysStep>, e: Entry)
    requires LawfulSys(policy, START, steps) && e in RunSys(policy, START, steps).db.ledger
    ensures RefersTo(RunSys(policy, START, steps).db, e)
  {
    StartInv();
    assert RefsGood(START);
    hide SysInv, RunSys, LawfulSys, RefersTo;
    RunRefers(policy, START, steps);
  }
}
