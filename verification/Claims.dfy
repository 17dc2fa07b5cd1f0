/** What a claim hands out, how long it is the only one, and which rows are final. */
module Claims {
  import opened Contracts
  import opened Counting
  import opened OutboxKeys
  import opened Db
  import opened Machine
  import opened Invariants
  import opened System
  import opened Outbox
  import opened Money
  import opened Queue

  ghost predicate ByAge(rows: seq<Row>) {
    forall i, j :: 0 <= i < j < |rows| ==> rows[i].createdAt <= rows[j].createdAt
  }

  lemma {:induction false} InsertSorts(rows: seq<Row>, row: Row)
    requires ByAge(rows)
    ensures ByAge(InsertByAge(rows, row))
  {
    if rows != [] {
      var n := |rows| - 1;
      if rows[n].createdAt > row.createdAt {
        var t := InsertByAge(rows[..n], row);
        InsertSorts(rows[..n], row);
        InsertByAgeElements(rows[..n], row);
        forall i | 0 <= i < |t| ensures t[i].createdAt <= rows[n].createdAt {
          assert t[i] in multiset(t);
        }
      }
    }
  }

  lemma {:induction false} SortSorts(rows: seq<Row>)
    ensures ByAge(SortByAge(rows))
  {
    if rows != [] {
      SortSorts(rows[..|rows| - 1]);
      InsertSorts(SortByAge(rows[..|rows| - 1]), rows[|rows| - 1]);
    }
  }

  /** Rows already in order stay where they are. */
  lemma {:induction false} SortedStays(rows: seq<Row>)
    requires ByAge(rows)
    ensures SortByAge(rows) == rows
  {
    if rows != [] {
      var n := |rows| - 1;
      var init, last := rows[..n], rows[n];
      SortedStays(init);
      assert rows == init + [last] && SortByAge(rows) == InsertByAge(init, last);
      assert init != [] ==> init[|init| - 1].createdAt <= last.createdAt;
    }
  }

  function IsClaimable(now: int): Row -> bool { (r: Row) => Claimable(r, now) }

  lemma {:induction false} ClaimableCount(outbox: seq<Row>, now: int)
    ensures |ClaimableRows(outbox, now)| == Count(outbox, IsClaimable(now))
    ensures forall r :: r in outbox && Claimable(r, now) ==> r in ClaimableRows(outbox, now)
  {
    if outbox != [] {
      var n := |outbox| - 1;
      ClaimableCount(outbox[..n], now);
      assert outbox == outbox[..n] + [outbox[n]];
    }
  }

  predicate IsDue(r: Row, now: int) {
    (r.status.RowPending? || r.status.RowFailed?) && r.availableAt <= now
  }

  /** A claim returns the oldest due pending or failed rows, up to the limit. */
  lemma ClaimTakesOldest(outbox: seq<Row>, now: int, limit: nat)
    ensures var batch := DueBatch(outbox, now, limit);
      && |batch| == Min(limit, Count(outbox, IsClaimable(now)))
      && (forall b :: b in batch ==> b in outbox && IsDue(b, now))
      && ByAge(batch)
      && (forall b, r :: b in batch && r in outbox && IsDue(r, now) && r !in batch ==> b.createdAt <= r.createdAt)
  {
    BatchFrom(outbox, now, limit);
    ClaimableCount(outbox, now);
    SortSorts(ClaimableRows(outbox, now));
    SortByAgeElements(ClaimableRows(outbox, now));
    var rows := ClaimableRows(outbox, now);
    var sorted, batch := SortByAge(rows), DueBatch(outbox, now, limit);
    assert |sorted| == |rows| by { assert |multiset(sorted)| == |multiset(rows)|; }
    assert forall r :: IsDue(r, now) <==> Claimable(r, now);
    hide IsDue, ClaimableRows, SortByAge, Count, Claimable;
    forall b, r | b in batch && r in outbox && Claimable(r, now) && r !in batch ensures b.createdAt <= r.createdAt {
      assert r in multiset(sorted) by { assert r in rows && r in multiset(rows); }
      OldestFirst(sorted, limit, b, r);
    }
  }

  lemma OldestFirst(sorted: seq<Row>, limit: nat, b: Row, r: Row)
    requires ByAge(sorted) && b in FirstRows(sorted, limit) && r in sorted && r !in FirstRows(sorted, limit)
    ensures b.createdAt <= r.createdAt
  {
    var batch := FirstRows(sorted, limit);
    var i :| 0 <= i < |batch| && batch[i] == b;
    var k :| 0 <= k < |sorted| && sorted[k] == r;
    assert k >= |batch| by { assert forall n :: 0 <= n < |batch| ==> sorted[n] == batch[n] && batch[n] in batch; }
  }

  // -------------------------------------------------------------------- lease

  /** No open row of this id is due before the given time. */
  ghost predicate Leased(db: Db, id: nat, until: int) {
    id < db.nextRow && forall r :: r in db.outbox && r.id == id && r.Open() ==> r.availableAt >= until
  }

  predicate FailsRow(sys: Sys, s: SysStep, id: nat) {
    Settles(sys, s) && sys.worker.batch != [] && sys.worker.phase.Thrown? && sys.worker.batch[0].id == id
  }

  /** No step of the run records a failed delivery of the row. */
  ghost predicate NeverFailed(policy: Policy, sys: Sys, steps: seq<SysStep>, id: nat)
    requires LawfulSys(policy, sys, steps)
    decreases |steps|
  {
    steps == [] || (!FailsRow(sys, steps[0], id) && NeverFailed(policy, Do(policy, sys, steps[0]), steps[1..], id))
  }

  lemma RetainedRows(db: Db, olderThan: int)
    ensures RunRetention(db, olderThan).nextRow == db.nextRow
    ensures forall r :: r in RunRetention(db, olderThan).outbox ==> r in db.outbox
  {
    RetainLeavesIds(db, 0, olderThan);
    forall r | r in RunRetention(db, olderThan).outbox ensures r in db.outbox {
      RetentionRemovesOnlySent(db, olderThan, r);
    }
  }

  lemma {:induction false} RetainLeavesIds(db: Db, k: nat, olderThan: int)
    requires k <= |db.outbox|
    ensures RetainFrom(db, k, olderThan).nextRow == db.nextRow
    decreases |db.outbox| - k
  {
    if k == |db.outbox| {
    } else if Removable(db.outbox[k], olderThan) {
      RetainLeavesIds(db.(outbox := db.outbox[..k] + db.outbox[k + 1..], keys := db.keys - {db.outbox[k].key}), k,
                      olderThan);
    } else {
      RetainLeavesIds(db, k + 1, olderThan);
    }
  }

  /** An API step brings no row under an id already given out. */
  lemma IdsAreNew(policy: Policy, db: Db, s: Step)
    requires Admissible(db, s)
    ensures db.nextRow <= Apply(policy, db, s).nextRow
    ensures forall r :: r in Apply(policy, db, s).outbox && r.id < db.nextRow ==> r in db.outbox
  {
    if s.Retain? {
      hide RunRetention;
      RetainedRows(db, s.olderThan);
    } else {
      hide Admissible, Apply;
      StepAppends(policy, db, s);
    }
  }

  lemma LeaseStep(policy: Policy, sys: Sys, s: SysStep, id: nat, until: int)
    requires QueueGood(sys) && Inv(sys.db) && Enabled(sys, s)
    requires Leased(sys.db, id, until) && !FailsRow(sys, s, id)
    ensures Leased(Do(policy, sys, s).db, id, until)
  {
    hide Inv;
    match s
    case Api(step) =>
      hide QueueGood, Admissible, Apply;
      IdsAreNew(policy, sys.db, step);
    case Claim(now, limit) =>
      hide QueueGood;
      var (o, batch) := ClaimOutbox(sys.db.outbox, now, limit);
      BatchFrom(sys.db.outbox, now, limit);
      forall r | r in o && r.id == id && r.Open() ensures r.availableAt >= until {
        var k :| 0 <= k < |o| && o[k] == r;
        assert sys.db.outbox[k] in sys.db.outbox;
        if r != sys.db.outbox[k] {
          var b :| b in DueBatch(sys.db.outbox, now, limit) && b.id == id;
        }
      }
    case Go(now) =>
      if Settles(sys, s) {
        var k := SettleEffect(sys, now);
        hide Settle, QueueGood;
        var b := Settle(sys, now).db.outbox;
        assert Do(policy, sys, s).db.outbox == b;
        assert Settle(sys, now).db.nextRow == sys.db.nextRow by { SettleIds(sys, now); }
        forall r | r in b && r.id == id && r.Open() ensures r.availableAt >= until {
          var i :| 0 <= i < |b| && b[i] == r;
          if i != k { assert sys.db.outbox[i] in sys.db.outbox; }
        }
      } else {
        HandlerLeavesQueue(sys, now);
        hide Advance, QueueGood;
      }
    case Fail =>
    case Crash =>
  }

  lemma SettleIds(sys: Sys, now: int)
    requires sys.worker.Busy? && sys.worker.batch != []
    ensures Settle(sys, now).db.nextRow == sys.db.nextRow
  {
    hide MarkDelivered, MarkFailed;
  }

  lemma {:induction false} LeaseRun(policy: Policy, sys: Sys, steps: seq<SysStep>, id: nat, until: int)
    requires QueueGood(sys) && SysInv(sys) && LawfulSys(policy, sys, steps)
    requires Leased(sys.db, id, until) && NeverFailed(policy, sys, steps, id)
    ensures Leased(RunSys(policy, sys, steps).db, id, until)
    decreases |steps|
  {
    if steps != [] {
      assert Inv(sys.db);
      hide QueueGood, Do, Enabled, SysInv, Leased, FailsRow;
      SysStepKeeps(policy, sys, steps[0]);
      QueueStepKeeps(policy, sys, steps[0]);
      LeaseStep(policy, sys, steps[0], id, until);
      LeaseRun(policy, Do(policy, sys, steps[0]), steps[1..], id, until);
    }
  }

  lemma LeaseKept(policy: Policy, sys: Sys, t: int, limit: nat, steps: seq<SysStep>, m: Row, now: int, limit': nat)
    requires QueueGood(sys) && SysInv(sys) && sys.worker.Idle?
    requires LawfulSys(policy, Do(policy, sys, Claim(t, limit)), steps)
    requires m in DueBatch(sys.db.outbox, t, limit)
    requires NeverFailed(policy, Do(policy, sys, Claim(t, limit)), steps, m.id)
    requires now < t + CLAIM_LEASE_MS
    ensures var end := RunSys(policy, Do(policy, sys, Claim(t, limit)), steps);
      forall r :: r in DueBatch(end.db.outbox, now, limit') ==> r.id != m.id
  {
    var sys1 := Do(policy, sys, Claim(t, limit));
    LeaseTaken(policy, sys, t, limit, m);
    hide QueueGood, Do, SysInv, Leased, DueBatch;
    SysStepKeeps(policy, sys, Claim(t, limit));
    assert Inv(sys.db) by { InvOf(sys); }
    QueueStepKeeps(policy, sys, Claim(t, limit));
    LeaseRun(policy, sys1, steps, m.id, t + CLAIM_LEASE_MS);
    NotDue(RunSys(policy, sys1, steps).db, m.id, t + CLAIM_LEASE_MS, now, limit');
  }

  /** In every reachable system: a row claimed at time t is handed out by no other claim before
      t + 60 s, unless a failed delivery rescheduled it in between: not by a
      restarted worker after a crash either. */
  lemma LeaseHolds(policy: Policy, before: seq<SysStep>, t: int, limit: nat, between: seq<SysStep>, m: Row, now: int,
                   limit': nat)
    requires LawfulSys(policy, START, before) && RunSys(policy, START, before).worker.Idle?
    requires var sys := RunSys(policy, START, before);
      && m in DueBatch(sys.db.outbox, t, limit)
      && LawfulSys(policy, Do(policy, sys, Claim(t, limit)), between)
      && NeverFailed(policy, Do(policy, sys, Claim(t, limit)), between, m.id)
    requires now < t + 60_000
    ensures var claimed := Do(policy, RunSys(policy, START, before), Claim(t, limit));
      forall r :: r in DueBatch(RunSys(policy, claimed, between).db.outbox, now, limit') ==> r.id != m.id
  {
    hide QueueGood, SysInv, RunSys, LawfulSys, DueBatch, NeverFailed, Do;
    ReachableGood(policy, before);
    LeaseKept(policy, RunSys(policy, START, before), t, limit, between, m, now, limit');
  }

  lemma InvOf(sys: Sys)
    requires SysInv(sys)
    ensures Inv(sys.db)
  {
  }

  lemma NotDue(db: Db, id: nat, until: int, now: int, limit: nat)
    requires Leased(db, id, until) && now < until
    ensures forall r :: r in DueBatch(db.outbox, now, limit) ==> r.id != id
  {
    BatchFrom(db.outbox, now, limit);
  }

  lemma LeasedIds(outbox: seq<Row>, t: int, limit: nat, m: Row)
    requires m in DueBatch(outbox, t, limit)
    ensures forall r :: r in ClaimOutbox(outbox, t, limit).0 && r.id == m.id ==> r.availableAt == t + CLAIM_LEASE_MS
  {
    hide DueBatch;
    assert m.id in RowIds(DueBatch(outbox, t, limit));
  }

  lemma LeaseTaken(policy: Policy, sys: Sys, t: int, limit: nat, m: Row)
    requires SysInv(sys) && sys.worker.Idle? && m in DueBatch(sys.db.outbox, t, limit)
    ensures Leased(Do(policy, sys, Claim(t, limit)).db, m.id, t + CLAIM_LEASE_MS)
  {
    hide SysInv, DueBatch, ClaimOutbox;
    BatchFrom(sys.db.outbox, t, limit);
    InvOf(sys);
    RowIdBound(sys.db, m);
    LeasedIds(sys.db.outbox, t, limit, m);
  }

  lemma RowIdBound(db: Db, r: Row)
    requires Inv(db) && r in db.outbox
    ensures r.id < db.nextRow
  {
    hide JobsGood, Refs, AskedOnce, Projected;
  }

  // -------------------------------------------------------------------- final

  predicate Final(r: Row) {
    r.status.RowSent? || r.status.RowDead?
  }

  /** A final row is never rewritten; a dead one is not even removed. */
  ghost predicate FinalStay(a: Db, b: Db) {
    && a.nextRow <= b.nextRow
    && (forall r :: r in a.outbox && r.status.RowDead? ==> r in b.outbox)
    && (forall r :: r in b.outbox && r.id < a.nextRow ==> exists q :: q in a.outbox && q.id == r.id
                                                            && (Final(q) ==> q == r))
  }

  lemma FinalStayTransitive(a: Db, b: Db, c: Db)
    requires FinalStay(a, b) && FinalStay(b, c)
    ensures FinalStay(a, c)
  {
    forall r | r in c.outbox && r.id < a.nextRow
      ensures exists q :: q in a.outbox && q.id == r.id && (Final(q) ==> q == r)
    {
      var p :| p in b.outbox && p.id == r.id && (Final(p) ==> p == r);
      var q :| q in a.outbox && q.id == p.id && (Final(q) ==> q == p);
    }
  }

  lemma RowsFinal(a: Db, b: Db)
    requires a.nextRow == b.nextRow && |a.outbox| == |b.outbox|
    requires forall i :: 0 <= i < |a.outbox| ==> b.outbox[i].id == a.outbox[i].id
                                                 && (Final(a.outbox[i]) ==> b.outbox[i] == a.outbox[i])
    ensures FinalStay(a, b)
  {
    forall r | r in a.outbox && r.status.RowDead? ensures r in b.outbox {
      var i :| 0 <= i < |a.outbox| && a.outbox[i] == r;
      assert b.outbox[i] == r;
    }
    forall r | r in b.outbox && r.id < a.nextRow
      ensures exists q :: q in a.outbox && q.id == r.id && (Final(q) ==> q == r)
    {
      var i :| 0 <= i < |b.outbox| && b.outbox[i] == r;
      assert a.outbox[i] in a.outbox;
    }
  }

  lemma ApiFinal(policy: Policy, db: Db, s: Step)
    requires Admissible(db, s)
    ensures FinalStay(db, Apply(policy, db, s))
  {
    IdsAreNew(policy, db, s);
    forall r | r in db.outbox && r.status.RowDead? ensures r in Apply(policy, db, s).outbox {
      if s.Retain? { RetentionRemovesOnlySent(db, s.olderThan, r); hide Admissible, RunRetention; }
      else { hide Admissible, Apply; StepAppends(policy, db, s); }
    }
    hide Admissible, Apply;
  }

  lemma SettleFinal(sys: Sys, now: int)
    requires QueueGood(sys) && Inv(sys.db) && sys.worker.Busy?
    ensures FinalStay(sys.db, Settle(sys, now).db)
  {
    hide Inv, FinalStay;
    var k := SettleEffect(sys, now);
    SettleIds(sys, now);
    hide Settle, QueueGood;
    RowsFinal(sys.db, Settle(sys, now).db);
  }

  lemma GoFinal(sys: Sys, now: int)
    requires QueueGood(sys) && Inv(sys.db) && Enabled(sys, Go(now))
    ensures FinalStay(sys.db, Advance(sys, now).db)
  {
    hide Inv, FinalStay, QueueGood, Turn, Begin, AdvanceHold, AdvanceCapture, AdvancePayout, AdvanceRelease, Settle;
    if sys.worker.phase.Finished? || sys.worker.phase.Thrown? {
      SettleFinal(sys, now);
    } else {
      HandlerLeavesQueue(sys, now);
      hide Advance;
      RowsFinal(sys.db, Advance(sys, now).db);
    }
  }

  lemma FinalStep(policy: Policy, sys: Sys, s: SysStep)
    requires QueueGood(sys) && Inv(sys.db) && Enabled(sys, s)
    ensures FinalStay(sys.db, Do(policy, sys, s).db)
  {
    hide QueueGood, Inv, FinalStay, Advance, ClaimOutbox, Apply;
    match s
    case Api(step) => ApiFinal(policy, sys.db, step);
    case Claim(now, limit) => ClaimFinal(sys.db, now, limit);
    case Go(now) => GoFinal(sys, now);
    case Fail => RowsFinal(sys.db, sys.db);
    case Crash => RowsFinal(sys.db, sys.db);
  }

  lemma ClaimFinal(db: Db, now: int, limit: nat)
    requires Inv(db)
    ensures FinalStay(db, db.(outbox := ClaimOutbox(db.outbox, now, limit).0))
  {
    OutboxIdsDiffer(db);
    hide Inv, FinalStay;
    LeaseSparesFinal(db.outbox, now, limit);
    LeaseIds(db.outbox, now, limit);
    hide ClaimOutbox, IdsDiffer;
    RowsFinal(db, db.(outbox := ClaimOutbox(db.outbox, now, limit).0));
  }

  lemma LeaseSparesFinal(outbox: seq<Row>, now: int, limit: nat)
    requires IdsDiffer(outbox)
    ensures var o := ClaimOutbox(outbox, now, limit).0;
      |o| == |outbox| && forall i :: 0 <= i < |o| && Final(outbox[i]) ==> o[i] == outbox[i]
  {
    BatchFrom(outbox, now, limit);
    hide DueBatch;
    var due, o := DueBatch(outbox, now, limit), ClaimOutbox(outbox, now, limit).0;
    forall i | 0 <= i < |o| && Final(outbox[i]) ensures o[i] == outbox[i] {
      forall b | b in due ensures b.id != outbox[i].id {
        var k :| 0 <= k < |outbox| && outbox[k] == b;
        assert k != i;
      }
    }
  }

  lemma LeaseIds(outbox: seq<Row>, now: int, limit: nat)
    ensures var o := ClaimOutbox(outbox, now, limit).0;
      |o| == |outbox| && forall i :: 0 <= i < |o| ==> o[i].id == outbox[i].id
  {
    hide DueBatch;
  }

  lemma {:induction false} FinalRun(policy: Policy, sys: Sys, steps: seq<SysStep>)
    requires QueueGood(sys) && SysInv(sys) && LawfulSys(policy, sys, steps)
    ensures FinalStay(sys.db, RunSys(policy, sys, steps).db)
    decreases |steps|
  {
    if steps == [] {
      hide QueueGood, SysInv;
      RowsFinal(sys.db, sys.db);
    } else {
      assert Inv(sys.db);
      hide QueueGood, Do, Enabled, SysInv, FinalStay;
      SysStepKeeps(policy, sys, steps[0]);
      QueueStepKeeps(policy, sys, steps[0]);
      FinalStep(policy, sys, steps[0]);
      FinalRun(policy, Do(policy, sys, steps[0]), steps[1..]);
      FinalStayTransitive(sys.db, Do(policy, sys, steps[0]).db, RunSys(policy, sys, steps).db);
    }
  }

  /** From any reachable system on, sent and dead rows never change: a sent one can only be
      removed by retention, a dead one stays for good. */
  lemma FinalRowsNeverChange(policy: Policy, before: seq<SysStep>, after: seq<SysStep>)
    requires LawfulSys(policy, START, before) && LawfulSys(policy, RunSys(policy, START, before), after)
    ensures var sys := RunSys(policy, START, before); FinalStay(sys.db, RunSys(policy, sys, after).db)
  {
    hide QueueGood, SysInv, RunSys, LawfulSys, FinalStay;
    ReachableGood(policy, before);
    FinalRun(policy, RunSys(policy, START, before), after);
  }
}
