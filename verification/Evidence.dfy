/** Nobody is charged or paid for a job that was completed without proof. */
module Evidence {
  import opened Contracts
  import opened Counting
  import opened OutboxKeys
  import opened Db
  import opened Machine
  import opened Tallies
  import opened Invariants
  import opened Preservation
  import opened System
  import opened Money
  import opened Claims
  import opened TodoOrder
  import opened Settlement
  import opened Progress
  import opened Histories

  lemma SysStepShapes(policy: Policy, sys: Sys, s: SysStep)
    requires SysInv(sys) && Shaped(sys.db.events) && Enabled(sys, s)
    ensures Shaped(Do(policy, sys, s).db.events)
  {
    InvOf(sys);
    hide SysInv, Shaped, Apply, Admissible, Advance, ClaimOutbox;
    match s
    case Api(step) =>
      assert Refs(sys.db) by { hide JobsGood, Refs; }
      hide Inv;
      StepShapes(policy, sys.db, step);
    case Go(now) => hide Inv; OwnLeavesRest(sys, now);
    case _ => hide Inv;
  }

  lemma {:induction false} RunSysShapes(policy: Policy, sys: Sys, steps: seq<SysStep>)
    requires SysInv(sys) && Shaped(sys.db.events) && LawfulSys(policy, sys, steps)
    ensures Shaped(RunSys(policy, sys, steps).db.events)
    decreases |steps|
  {
    hide SysInv, Shaped, Do, Enabled;
    if steps != [] {
      SysStepShapes(policy, sys, steps[0]);
      SysStepKeeps(policy, sys, steps[0]);
      RunSysShapes(policy, Do(policy, sys, steps[0]), steps[1..]);
    }
  }

  /** The history holds a completion of this job with at least one proof. */
  ghost predicate Proven(events: seq<Event>, j: Id) {
    exists e :: e in events && e.jobId == j && e.kind.JobCompleted? && HasEvidence(e)
  }

  lemma CompletedIsProven(db: Db, j: Id)
    requires Inv(db) && Shaped(db.events) && j in db.jobs && db.jobs[j].status.Completed?
    ensures Proven(db.events, j)
  {
    hide Inv, Proven, Shaped;
    StatusHappened(db, j);
    HappenedIsProven(db.events, j);
  }

  lemma HappenedIsProven(events: seq<Event>, j: Id)
    requires Shaped(events) && Happened(events, j, JobCompleted)
    ensures Proven(events, j)
  {
    var p := FirstPos(events, j, JobCompleted);
    assert events[p] in events && Shape(events[p]);
  }

  /** Over every run with failures and crashes: a job that is completed, and so every job somebody was
      charged or paid for, was completed with at least one proof. */
  lemma ChargedWithEvidence(policy: Policy, steps: seq<SysStep>, j: Id)
    requires LawfulSys(policy, START, steps) && j in RunSys(policy, START, steps).db.jobs
    ensures var db := RunSys(policy, START, steps).db;
      && (db.jobs[j].status.Completed? ==> Proven(db.events, j))
      && (forall e :: e in db.ledger && e.jobId == j && (e.kind.Capture? || e.kind.Payout?) ==> Proven(db.events, j))
  {
    StartInv();
    assert Shaped(START.db.events);
    hide SysInv, Shaped, RunSys, LawfulSys, Proven;
    RunSysShapes(policy, START, steps);
    RunSysKeeps(policy, START, steps);
    var sys := RunSys(policy, START, steps);
    InvOf(sys);
    JobMoney(sys, j);
    hide Inv, MovedSafely, MovedInTime, MovedOf;
    if sys.db.jobs[j].status.Completed? { CompletedIsProven(sys.db, j); }
    forall e | e in sys.db.ledger && e.jobId == j && (e.kind.Capture? || e.kind.Payout?)
      ensures sys.db.jobs[j].status.Completed?
    {
      MoneyIsCompleted(sys.db, j, e);
    }
  }

  lemma MoneyIsCompleted(db: Db, j: Id, e: Entry)
    requires j in db.jobs && MovedSafely(MovedOf(db.ledger, j)) && MovedInTime(MovedOf(db.ledger, j), db.jobs[j].status)
    requires e in db.ledger && e.jobId == j && (e.kind.Capture? || e.kind.Payout?)
    ensures db.jobs[j].status.Completed?
  {
    var i :| 0 <= i < |db.ledger| && db.ledger[i] == e;
    CountSome(db.ledger, i, EntryOf(j, e.kind));
    hide Count;
  }
}
