/** The outbox as a work queue: attempts, leases, and why a queue drains. */
module Queue {
  import opened Contracts
  import opened OutboxKeys
  import opened Db
  import opened Machine
  import opened Invariants
  import opened System
  import opened Outbox
  import opened Money

  /** The status of a row says how often its delivery was tried. */
  predicate AttemptsGood(r: Row) {
    match r.status
    case RowPending => r.attempts == 0
    case RowFailed => 1 <= r.attempts < OUTBOX_MAX_ATTEMPTS
    case RowDead => r.attempts == OUTBOX_MAX_ATTEMPTS
    case RowSent => r.attempts < OUTBOX_MAX_ATTEMPTS
  }

  ghost predicate IdsDiffer(rows: seq<Row>) {
    forall i, j :: 0 <= i < j < |rows| ==> rows[i].id != rows[j].id
  }

  predicate IsCopy(row: Row, m: Row) {
    row.id == m.id && row.attempts == m.attempts && row.jobId == m.jobId && row.event == m.event && row.Open()
  }

  /** The batch message is a true copy of a row that is still open. */
  ghost predicate Mirrors(outbox: seq<Row>, m: Row) {
    exists k :: 0 <= k < |outbox| && IsCopy(outbox[k], m)
  }

  ghost predicate BatchMirrors(outbox: seq<Row>, batch: seq<Row>) {
    IdsDiffer(batch) && forall m :: m in batch ==> Mirrors(outbox, m)
  }

  ghost predicate QueueGood(sys: Sys) {
    && (forall r :: r in sys.db.outbox ==> AttemptsGood(r))
    && (sys.worker.Busy? ==> sys.worker.batch != [] && BatchMirrors(sys.db.outbox, sys.worker.batch))
  }

  lemma MirrorsElement(a: seq<Row>, b: seq<Row>, m: Row)
    requires Mirrors(a, m) && forall r :: r in a && r.Open() ==> r in b
    ensures Mirrors(b, m)
  {
    var k :| 0 <= k < |a| && IsCopy(a[k], m);
    var i :| 0 <= i < |b| && b[i] == a[k];
  }

  /** Rows may come newly written and sent rows may go: the queue stays good. */
  lemma QueueGrows(sys: Sys, sys': Sys)
    requires QueueGood(sys) && sys'.worker == sys.worker
    requires forall r :: r in sys.db.outbox && r.Open() ==> r in sys'.db.outbox
    requires forall r :: r in sys'.db.outbox ==> r in sys.db.outbox || (r.status.RowPending? && r.attempts == 0)
    ensures QueueGood(sys')
  {
    hide IdsDiffer, Mirrors;
    if sys.worker.Busy? {
      forall m | m in sys.worker.batch ensures Mirrors(sys'.db.outbox, m) {
        MirrorsElement(sys.db.outbox, sys'.db.outbox, m);
      }
    }
  }

  lemma ApiGrows(policy: Policy, db: Db, s: Step, r: Row)
    requires Admissible(db, s)
    ensures r in db.outbox && r.Open() ==> r in Apply(policy, db, s).outbox
    ensures r in Apply(policy, db, s).outbox ==> r in db.outbox || (r.status.RowPending? && r.attempts == 0)
  {
    if s.Retain? {
      RetentionRemovesOnlySent(db, s.olderThan, r);
    } else {
      hide Admissible, Apply;
      StepAppends(policy, db, s);
    }
  }

  lemma ApiKeepsQueue(policy: Policy, sys: Sys, s: Step)
    requires QueueGood(sys) && Admissible(sys.db, s)
    ensures QueueGood(Do(policy, sys, Api(s)))
  {
    hide QueueGood, Admissible, Apply;
    forall r ensures r in sys.db.outbox && r.Open() ==> r in Apply(policy, sys.db, s).outbox
             ensures r in Apply(policy, sys.db, s).outbox ==>
               r in sys.db.outbox || (r.status.RowPending? && r.attempts == 0) {
      ApiGrows(policy, sys.db, s, r);
    }
    QueueGrows(sys, sys.(db := Apply(policy, sys.db, s)));
  }

  // ------------------------------------------------------------------- claims

  lemma {:induction false} InsertDiffers(rows: seq<Row>, row: Row)
    requires IdsDiffer(rows) && forall r :: r in rows ==> r.id != row.id
    ensures IdsDiffer(InsertByAge(rows, row))
  {
    if rows != [] {
      var n := |rows| - 1;
      if rows[n].createdAt > row.createdAt {
        InsertDiffers(rows[..n], row);
        InsertByAgeElements(rows[..n], row);
        var t := InsertByAge(rows[..n], row);
        forall i | 0 <= i < |t| ensures t[i].id != rows[n].id {
          assert t[i] in multiset(t);
        }
      }
    }
  }

  lemma {:induction false} SortDiffers(rows: seq<Row>)
    requires IdsDiffer(rows)
    ensures IdsDiffer(SortByAge(rows))
  {
    if rows != [] {
      var n := |rows| - 1;
      SortDiffers(rows[..n]);
      SortByAgeElements(rows[..n]);
      forall r | r in SortByAge(rows[..n]) ensures r.id != rows[n].id {
        assert r in multiset(SortByAge(rows[..n]));
      }
      InsertDiffers(SortByAge(rows[..n]), rows[n]);
    }
  }

  lemma {:induction false} ClaimableDiffer(outbox: seq<Row>, now: int)
    requires IdsDiffer(outbox)
    ensures IdsDiffer(ClaimableRows(outbox, now))
  {
    if outbox != [] {
      var n := |outbox| - 1;
      ClaimableDiffer(outbox[..n], now);
      ClaimableFrom(outbox[..n], now);
      var rows := ClaimableRows(outbox[..n], now);
      forall i | 0 <= i < |rows| ensures rows[i].id != outbox[n].id {
        assert rows[i] in rows && rows[i] in outbox[..n];
      }
    }
  }

  lemma BatchDiffers(outbox: seq<Row>, now: int, limit: nat)
    requires IdsDiffer(outbox)
    ensures IdsDiffer(DueBatch(outbox, now, limit))
  {
    ClaimableDiffer(outbox, now);
    SortDiffers(ClaimableRows(outbox, now));
  }

  /** Each claimed message is a row of the outbox, lease included. */
  lemma ClaimedAreRows(outbox: seq<Row>, now: int, limit: nat)
    ensures var (o, batch) := ClaimOutbox(outbox, now, limit);
      forall m :: m in batch ==> m in o && m.Open() && m.availableAt == now + CLAIM_LEASE_MS
  {
    var (o, batch) := ClaimOutbox(outbox, now, limit);
    var due := DueBatch(outbox, now, limit);
    BatchFrom(outbox, now, limit);
    forall m | m in batch ensures m in o && m.Open() && m.availableAt == now + CLAIM_LEASE_MS {
      var i :| 0 <= i < |batch| && batch[i] == m;
      assert due[i] in due;
      assert due[i].id in RowIds(due);
      var k :| 0 <= k < |outbox| && outbox[k] == due[i];
      assert o[k] == m;
    }
  }

  /** Leasing changes no attempts and no status. */
  lemma LeasedAttempts(outbox: seq<Row>, ids: set<nat>, until: int)
    requires forall r :: r in outbox ==> AttemptsGood(r)
    ensures forall r :: r in LeaseAll(outbox, ids, until) ==> AttemptsGood(r)
  {
    var o := LeaseAll(outbox, ids, until);
    forall r | r in o ensures AttemptsGood(r) {
      var i :| 0 <= i < |o| && o[i] == r;
      assert outbox[i] in outbox;
    }
  }

  lemma RowMirrors(o: seq<Row>, m: Row)
    requires m in o && m.Open()
    ensures Mirrors(o, m)
  {
    var k :| 0 <= k < |o| && o[k] == m;
  }

  lemma LeasedDiffer(batch: seq<Row>, ids: set<nat>, until: int)
    requires IdsDiffer(batch)
    ensures IdsDiffer(LeaseAll(batch, ids, until))
  {
  }

  lemma ClaimKeepsQueue(policy: Policy, sys: Sys, now: int, limit: nat)
    requires QueueGood(sys) && Inv(sys.db) && sys.worker.Idle?
    ensures QueueGood(Do(policy, sys, Claim(now, limit)))
  {
    hide Inv, AttemptsGood, IdsDiffer, Mirrors, DueBatch, LeaseAll, RowIds;
    var outbox := sys.db.outbox;
    var (o, batch) := ClaimOutbox(outbox, now, limit);
    var due := DueBatch(outbox, now, limit);
    OutboxIdsDiffer(sys.db);
    BatchDiffers(outbox, now, limit);
    LeasedDiffer(due, RowIds(due), now + CLAIM_LEASE_MS);
    ClaimedAreRows(outbox, now, limit);
    LeasedAttempts(outbox, RowIds(due), now + CLAIM_LEASE_MS);
    forall m | m in batch ensures Mirrors(o, m) { RowMirrors(o, m); }
  }

  lemma OutboxIdsDiffer(db: Db)
    requires Inv(db)
    ensures IdsDiffer(db.outbox)
  {
    hide JobsGood, Refs, AskedOnce, Projected;
  }

  // -------------------------------------------------------------- settlements

  lemma SettledRow(outbox: seq<Row>, m: Row, k: nat)
    requires IdsDiffer(outbox) && k < |outbox| && outbox[k].id == m.id
    ensures RowIndex(outbox, m.id) == k
  {
  }

  /** The message at the head of the batch is settled on its own row and no other. */
  lemma SettleEffect(sys: Sys, now: int) returns (k: nat)
    requires QueueGood(sys) && Inv(sys.db) && sys.worker.Busy?
    ensures k < |sys.db.outbox| && sys.db.outbox[k].Open() && sys.db.outbox[k].id == sys.worker.batch[0].id
    ensures sys.db.outbox[k].attempts == sys.worker.batch[0].attempts
    ensures sys.db.outbox[k].jobId == sys.worker.batch[0].jobId && sys.db.outbox[k].event == sys.worker.batch[0].event
    ensures var m, row := sys.worker.batch[0], sys.db.outbox[k];
      Settle(sys, now).db.outbox == sys.db.outbox[k :=
        if sys.worker.phase.Thrown? then Failed(row, RetryAt(m, now)) else Delivered(row, now)]
  {
    OutboxIdsDiffer(sys.db);
    hide Inv;
    var m := sys.worker.batch[0];
    assert Mirrors(sys.db.outbox, m);
    k :| 0 <= k < |sys.db.outbox| && IsCopy(sys.db.outbox[k], m);
    SettledRow(sys.db.outbox, m, k);
  }

  /** Updating the head's row leaves the rest of the batch mirrored. */
  lemma TailMirrors(a: seq<Row>, k: nat, r: Row, batch: seq<Row>)
    requires BatchMirrors(a, batch) && batch != [] && k < |a| && a[k].id == batch[0].id
    ensures BatchMirrors(a[k := r], batch[1..])
  {
    forall i | 0 <= i < |batch[1..]| ensures Mirrors(a[k := r], batch[1..][i]) {
      var x := batch[i + 1];
      assert x.id != batch[0].id && Mirrors(a, x);
      var n :| 0 <= n < |a| && IsCopy(a[n], x);
      assert a[k := r][n] == a[n];
    }
    forall i, j | 0 <= i < j < |batch[1..]| ensures batch[1..][i].id != batch[1..][j].id {
      assert batch[i + 1].id != batch[j + 1].id;
    }
  }

  lemma SettleKeepsQueue(sys: Sys, now: int)
    requires QueueGood(sys) && Inv(sys.db) && sys.worker.Busy?
    ensures QueueGood(Settle(sys, now))
  {
    hide Inv;
    var k := SettleEffect(sys, now);
    var a, b := sys.db.outbox, Settle(sys, now).db.outbox;
    assert a[k] in a;
    TailMirrors(a, k, b[k], sys.worker.batch);
    hide BatchMirrors;
    forall r | r in b ensures AttemptsGood(r) {
      var i :| 0 <= i < |b| && b[i] == r;
      assert a[i] in a;
    }
  }

  /** A micro-step that does not settle leaves outbox and batch alone. */
  lemma HandlerLeavesQueue(sys: Sys, now: int)
    requires sys.worker.Busy? && sys.worker.batch != [] && !sys.worker.phase.Finished? && !sys.worker.phase.Thrown?
    ensures Advance(sys, now).db.outbox == sys.db.outbox && Advance(sys, now).db.nextRow == sys.db.nextRow
    ensures Advance(sys, now).worker.Busy? && Advance(sys, now).worker.batch == sys.worker.batch
  {
    hide Begin, ApprovedGross, Authorise, Capturable, CaptureReference, AuthReference, ActiveIndex, PayoutCents,
      PayoutKey, AppendEntries;
  }

  /** How many micro-steps a handler can still take, at most. */
  function StepsLeft(p: Phase): nat {
    match p
    case AtStart => 8
    case CaptureSeen(_, _, _) => 7
    case CaptureTaken(_, _, _) => 6
    case PayoutWanted(_) => 5
    case PayoutTo(_, _) => 4
    case PayoutPriced(_, _) => 3
    case PayoutSent(_, _) => 2
    case HoldWanted => 4
    case HoldPriced(_) => 3
    case HoldPlaced(_, _) => 2
    case ReleaseSeen(_) => 2
    case Finished => 0
    case Thrown => 0
  }

  lemma HandlerEnds(sys: Sys, now: int)
    requires sys.worker.Busy? && sys.worker.batch != [] && !sys.worker.phase.Finished? && !sys.worker.phase.Thrown?
    ensures var sys' := Advance(sys, now);
      && sys'.worker.Busy? && sys'.worker.batch == sys.worker.batch
      && StepsLeft(sys'.worker.phase) < StepsLeft(sys.worker.phase)
  {
    HandlerLeavesQueue(sys, now);
    hide ApprovedGross, Authorise, Capturable, CaptureReference, AuthReference, ActiveIndex, PayoutCents, PayoutKey,
      AppendEntries, FirstOf, Recorded;
  }

  lemma QueueStepKeeps(policy: Policy, sys: Sys, s: SysStep)
    requires QueueGood(sys) && Inv(sys.db) && Enabled(sys, s)
    ensures QueueGood(Do(policy, sys, s))
  {
    match s
    case Api(step) => hide Inv, QueueGood; ApiKeepsQueue(policy, sys, step);
    case Claim(now, limit) => hide QueueGood; ClaimKeepsQueue(policy, sys, now, limit);
    case Go(now) =>
      hide Inv;
      if sys.worker.phase.Finished? || sys.worker.phase.Thrown? {
        SettleKeepsQueue(sys, now);
        hide QueueGood, Settle;
        assert Do(policy, sys, s) == Settle(sys, now);
      } else {
        HandlerLeavesQueue(sys, now);
        hide Advance;
      }
    case Fail => hide Inv;
    case Crash => hide Inv;
  }

  lemma {:induction false} RunKeepsQueue(policy: Policy, sys: Sys, steps: seq<SysStep>)
    requires QueueGood(sys) && SysInv(sys) && LawfulSys(policy, sys, steps)
    ensures QueueGood(RunSys(policy, sys, steps))
    decreases |steps|
  {
    hide QueueGood, Do, Enabled, Inv, MoneyGood;
    if steps != [] {
      assert Inv(sys.db);
      SysStepKeeps(policy, sys, steps[0]);
      QueueStepKeeps(policy, sys, steps[0]);
      hide SysInv;
      RunKeepsQueue(policy, Do(policy, sys, steps[0]), steps[1..]);
    }
  }

  lemma ReachableGood(policy: Policy, steps: seq<SysStep>)
    requires LawfulSys(policy, START, steps)
    ensures SysInv(RunSys(policy, START, steps)) && QueueGood(RunSys(policy, START, steps))
  {
    StartInv();
    assert QueueGood(START);
    hide RunSys, LawfulSys, QueueGood, SysInv;
    RunSysKeeps(policy, START, steps);
    RunKeepsQueue(policy, START, steps);
  }

  /** In every run of one worker, pending means untried, failed means 1 to 4
      attempts, dead means exactly 5. */
  lemma AttemptsMatchStatus(policy: Policy, steps: seq<SysStep>, r: Row)
    requires LawfulSys(policy, START, steps) && r in RunSys(policy, START, steps).db.outbox
    ensures (r.status.RowPending? ==> r.attempts == 0) && (r.status.RowFailed? ==> 1 <= r.attempts <= 4)
    ensures (r.status.RowDead? <==> r.attempts == 5)
  {
    hide RunSys, LawfulSys, BatchMirrors, SysInv;
    ReachableGood(policy, steps);
  }

  // --------------------------------------------------------------------- work

  /** Attempts left on the rows still open. */
  function Work(outbox: seq<Row>): int {
    if outbox == [] then 0
    else Work(outbox[..|outbox| - 1]) + WorkOn(outbox[|outbox| - 1])
  }

  function WorkOn(r: Row): int {
    if r.Open() then OUTBOX_MAX_ATTEMPTS - r.attempts else 0
  }

  lemma {:induction false} WorkUpdate(outbox: seq<Row>, k: nat, r: Row)
    requires k < |outbox|
    ensures Work(outbox[k := r]) == Work(outbox) - WorkOn(outbox[k]) + WorkOn(r)
  {
    var n := |outbox| - 1;
    if k == n {
      assert outbox[k := r][..n] == outbox[..n];
    } else {
      WorkUpdate(outbox[..n], k, r);
      assert outbox[k := r][..n] == outbox[..n][k := r];
    }
  }

  lemma {:induction false} WorkSame(a: seq<Row>, b: seq<Row>)
    requires |a| == |b| && forall i :: 0 <= i < |a| ==> WorkOn(a[i]) == WorkOn(b[i])
    ensures Work(a) == Work(b)
  {
    if a != [] { WorkSame(a[..|a| - 1], b[..|b| - 1]); }
  }

  lemma {:induction false} WorkNatural(outbox: seq<Row>)
    requires forall r :: r in outbox ==> AttemptsGood(r)
    ensures Work(outbox) >= 0
  {
    if outbox != [] {
      assert outbox[|outbox| - 1] in outbox;
      WorkNatural(outbox[..|outbox| - 1]);
    }
  }

  predicate Settles(sys: Sys, s: SysStep) {
    s.Go? && sys.worker.Busy? && (sys.worker.phase.Finished? || sys.worker.phase.Thrown?)
  }

  /** Every settlement does at least one unit of work; nothing else the worker
      does, not even a crash, undoes any. */
  lemma WorkStep(policy: Policy, sys: Sys, s: SysStep)
    requires QueueGood(sys) && Inv(sys.db) && Enabled(sys, s) && !s.Api?
    ensures Work(Do(policy, sys, s).db.outbox) + (if Settles(sys, s) then 1 else 0) <= Work(sys.db.outbox)
  {
    hide Inv;
    if Settles(sys, s) {
      var k := SettleEffect(sys, s.now);
      var m, row := sys.worker.batch[0], sys.db.outbox[k];
      WorkUpdate(sys.db.outbox, k,
                 if sys.worker.phase.Thrown? then Failed(row, RetryAt(m, s.now)) else Delivered(row, s.now));
      assert AttemptsGood(row) by { assert row in sys.db.outbox; }
      hide Settle;
    } else if s.Go? {
      HandlerLeavesQueue(sys, s.now);
      hide Advance;
    } else if s.Claim? {
      WorkSame(sys.db.outbox, ClaimOutbox(sys.db.outbox, s.now, s.limit).0);
    }
  }

  function Settlements(policy: Policy, sys: Sys, steps: seq<SysStep>): nat
    requires LawfulSys(policy, sys, steps)
    decreases |steps|
  {
    if steps == [] then 0
    else (if Settles(sys, steps[0]) then 1 else 0) + Settlements(policy, Do(policy, sys, steps[0]), steps[1..])
  }

  lemma {:induction false} WorkRun(policy: Policy, sys: Sys, steps: seq<SysStep>)
    requires QueueGood(sys) && SysInv(sys) && LawfulSys(policy, sys, steps)
    requires forall s :: s in steps ==> !s.Api?
    ensures Work(RunSys(policy, sys, steps).db.outbox) + Settlements(policy, sys, steps) <= Work(sys.db.outbox)
    ensures Work(RunSys(policy, sys, steps).db.outbox) >= 0
    decreases |steps|
  {
    if steps == [] {
      WorkNatural(sys.db.outbox);
    } else {
      assert Inv(sys.db);
      hide QueueGood, Do, Enabled, SysInv, Settles;
      SysStepKeeps(policy, sys, steps[0]);
      QueueStepKeeps(policy, sys, steps[0]);
      WorkStep(policy, sys, steps[0]);
      WorkRun(policy, Do(policy, sys, steps[0]), steps[1..]);
    }
  }

  /** A fixed queue drains: without new requests the worker settles messages at
      most as often as there are attempts left, whatever fails or crashes. */
  lemma FixedQueueDrains(policy: Policy, before: seq<SysStep>, after: seq<SysStep>)
    requires LawfulSys(policy, START, before)
    requires LawfulSys(policy, RunSys(policy, START, before), after)
    requires forall s :: s in after ==> !s.Api?
    ensures var sys := RunSys(policy, START, before);
      Settlements(policy, sys, after) <=
        Work(sys.db.outbox) - Work(RunSys(policy, sys, after).db.outbox) <= Work(sys.db.outbox)
  {
    hide LawfulSys, QueueGood, SysInv, RunSys, Settlements;
    ReachableGood(policy, before);
    WorkRun(policy, RunSys(policy, START, before), after);
  }
}
