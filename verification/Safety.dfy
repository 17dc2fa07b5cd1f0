/** What no run does with a customer's money, and that the outbox stays in step with it. */
module Safety {
  import opened Contracts
  import opened OutboxKeys
  import opened Db
  import opened Machine
  import opened Invariants
  import opened System
  import opened Money

  /** Over every run of one worker, whatever fails or crashes wherever: a job is
      held at most once, captured at most once, paid out at most once and voided
      at most once; a payout follows a capture and a capture or void a hold; no job
      is both captured and voided, and only a completed job is captured, only a
      cancelled one voided. */
  lemma NeverChargedTwice(policy: Policy, steps: seq<SysStep>, j: Id)
    requires LawfulSys(policy, START, steps)
    requires j in RunSys(policy, START, steps).db.jobs
    ensures var db := RunSys(policy, START, steps).db;
      var m := MovedOf(db.ledger, j);
      && m.payouts <= m.captures <= m.holds <= 1 && m.voids <= m.holds
      && !(m.captures > 0 && m.voids > 0)
      && (m.captures > 0 ==> db.jobs[j].status.Completed?)
      && (m.voids > 0 ==> db.jobs[j].status.Cancelled?)
  {
    StartInv();
    hide Inv, WorkerGood, HoldsGood, HoldsCover, MovedOf, RunSys, LawfulSys;
    RunSysKeeps(policy, START, steps);
  }

  /** Every hold, capture and void on the ledger is of the approved gross with the sign of
      its kind, every payout is negative, nothing else is written; and every hold at
      the gateway is one job's, for that job's approved gross. */
  lemma AmountsAreApproved(policy: Policy, steps: seq<SysStep>)
    requires LawfulSys(policy, START, steps)
    ensures var end := RunSys(policy, START, steps);
      && (forall e :: e in end.db.ledger ==> EntryGood(end.db.quotes, e))
      && (forall r :: r in end.holds ==>
            r == AuthReference(JobOfKey(r.key)) && ApprovedGross(end.db.quotes, JobOfKey(r.key)) == Some(end.holds[r]))
  {
    StartInv();
    hide Inv, WorkerGood, HoldsCover, MovedOf, RunSys, LawfulSys, EntryGood;
    RunSysKeeps(policy, START, steps);
  }

  /** The gateway holds at most one authorisation per job. */
  lemma OneHoldPerJob(policy: Policy, steps: seq<SysStep>, r: Reference, s: Reference)
    requires LawfulSys(policy, START, steps)
    requires var end := RunSys(policy, START, steps);
      r in end.holds && s in end.holds && JobOfKey(r.key) == JobOfKey(s.key)
    ensures r == s
  {
    hide EntryGood, RunSys, LawfulSys;
    AmountsAreApproved(policy, steps);
  }

  /** In every state the worker and the requests can reach, outbox and key index are inverse to
      each other, so there is at most one row per key, and each row is what an
      event of the history implies. */
  lemma OutboxInStep(policy: Policy, steps: seq<SysStep>)
    requires LawfulSys(policy, START, steps)
    ensures var db := RunSys(policy, START, steps).db;
      RowsIndexed(db.outbox, db.keys, db.nextRow) && forall r :: r in db.outbox ==> Projected(db.events, r)
  {
    StartInv();
    hide MoneyGood, RunSys, LawfulSys, JobsGood, Refs, AskedOnce, RowsIndexed, Projected;
    RunSysKeeps(policy, START, steps);
  }

  /** However requests, failures and crashes interleave, no two rows of the outbox ever share a
      dedupe key: an intent is enqueued at most once. */
  lemma NoTwoRowsShareKey(policy: Policy, steps: seq<SysStep>, i: nat, k: nat)
    requires LawfulSys(policy, START, steps)
    requires var outbox := RunSys(policy, START, steps).db.outbox;
      i < |outbox| && k < |outbox| && outbox[i].key == outbox[k].key
    ensures i == k
  {
    hide RunSys, LawfulSys, Projected;
    OutboxInStep(policy, steps);
    OneRowPerKey(RunSys(policy, START, steps).db, i, k);
  }

  // ------------------------------------------------------------- no own failures

  predicate Threw(sys: Sys) { sys.worker.Busy? && sys.worker.phase.Thrown? }

  lemma BeginNeverThrows(ledger: seq<Entry>, m: Row)
    ensures !Begin(ledger, m).Thrown?
  {
    hide FirstOf, Recorded;
  }

  lemma HoldNeverThrows(sys: Sys)
    requires SysInv(sys) && sys.worker.Busy? && sys.worker.batch != []
    requires sys.worker.phase.HoldWanted? || sys.worker.phase.HoldPriced? || sys.worker.phase.HoldPlaced?
    ensures !Threw(AdvanceHold(sys))
  {
    hide SysInv, MovedOf, ApprovedGross, HoldsGood, AuthReference;
    match sys.worker.phase
    case HoldWanted =>
    case HoldPriced(gross) =>
      var j := HoldPricedKnows(sys);
      NewHold(sys.db.quotes, sys.holds, j, gross);
    case HoldPlaced(_, _) => HoldPlacedKeeps(sys);
  }

  lemma CaptureNeverThrows(sys: Sys)
    requires SysInv(sys) && sys.worker.Busy? && sys.worker.batch != []
    requires sys.worker.phase.CaptureSeen? || sys.worker.phase.CaptureTaken?
    ensures !Threw(AdvanceCapture(sys))
  {
    hide SysInv, MovedOf, Capturable, CaptureReference, IsHold;
    if sys.worker.phase.CaptureSeen? {
      var j := WorkerJob(sys);
      assert IsHold(sys.db.ledger, j, sys.worker.phase.hold);
      hide PhaseGood;
      CaptureSucceeds(sys, j, sys.worker.phase.hold);
    } else {
      CaptureTakenKeeps(sys);
    }
  }

  /** No payment handler ever fails of its own accord, in any reachable system: gateway and ledger
      accept everything it asks of them.  Messages fail only because something
      outside does, a notification, the network or the process. */
  lemma HandlersNeverThrow(policy: Policy, steps: seq<SysStep>, now: int)
    requires LawfulSys(policy, START, steps)
    requires var sys := RunSys(policy, START, steps);
      sys.worker.Busy? && sys.worker.batch != [] && !sys.worker.phase.Thrown?
    ensures !Threw(Advance(RunSys(policy, START, steps), now))
  {
    StartInv();
    hide SysInv, RunSys, LawfulSys, Begin, AdvanceHold, AdvanceCapture, AdvancePayout, AdvanceRelease, Settle;
    RunSysKeeps(policy, START, steps);
    var sys := RunSys(policy, START, steps);
    var p := sys.worker.phase;
    if p.AtStart? { BeginNeverThrows(sys.db.ledger, sys.worker.batch[0]); }
    else if p.HoldWanted? || p.HoldPriced? || p.HoldPlaced? { HoldNeverThrows(sys); }
    else if p.CaptureSeen? || p.CaptureTaken? { CaptureNeverThrows(sys); }
    else if p.PayoutSent? { PayoutSentKeeps(sys); }
    else if p.PayoutWanted? || p.PayoutTo? || p.PayoutPriced? { PayoutKeeps(sys); }
    else if p.ReleaseSeen? { ReleaseKeeps(sys); }
    else { SettlingNeverThrows(sys, now); }
  }

  lemma SettlingNeverThrows(sys: Sys, now: int)
    requires sys.worker.Busy? && sys.worker.batch != []
    ensures !Threw(Settle(sys, now))
  {
    hide MarkDelivered, MarkFailed;
  }
}
