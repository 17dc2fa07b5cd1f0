/** A failure-free run works through the outbox strictly in the order it was written. */
module CalmQueue {
  import opened Contracts
  import opened OutboxKeys
  import opened Db
  import opened Machine
  import opened Invariants
  import opened System
  import opened Outbox
  import opened Money
  import opened Queue
  import opened Claims

  /** The rows not delivered yet, in outbox order. */
  function Undelivered(outbox: seq<Row>): (p: seq<Row>)
    ensures forall r :: r in p <==> r in outbox && r.status.RowPending?
  {
    if outbox == [] then []
    else
      assert outbox == [outbox[0]] + outbox[1..];
      (if outbox[0].status.RowPending? then [outbox[0]] else []) + Undelivered(outbox[1..])
  }

  lemma {:induction false} PendingConcat(a: seq<Row>, b: seq<Row>)
    ensures Undelivered(a + b) == Undelivered(a) + Undelivered(b)
  {
    if a == [] {
      assert a + b == b;
    } else {
      assert (a + b)[1..] == a[1..] + b;
      PendingConcat(a[1..], b);
    }
  }

  lemma {:induction false} PendingAll(a: seq<Row>)
    requires forall r :: r in a ==> r.status.RowPending?
    ensures Undelivered(a) == a
  {
    if a != [] {
      assert a == [a[0]] + a[1..];
      PendingAll(a[1..]);
    }
  }

  lemma {:induction false} PendingRetained(outbox: seq<Row>, olderThan: int)
    ensures Undelivered(Retained(outbox, olderThan)) == Undelivered(outbox)
  {
    if outbox != [] {
      PendingRetained(outbox[1..], olderThan);
      var rest := Retained(outbox[1..], olderThan);
      PendingConcat([outbox[0]], rest);
      assert [outbox[0]][1..] == [];
      assert Undelivered([outbox[0]]) == if outbox[0].status.RowPending? then [outbox[0]] else [];
      assert Removable(outbox[0], olderThan) ==> Retained(outbox, olderThan) == rest;
    }
  }

  lemma {:induction false} RetainedByAge(outbox: seq<Row>, olderThan: int)
    requires ByAge(outbox)
    ensures ByAge(Retained(outbox, olderThan))
  {
    if outbox != [] {
      assert forall i :: 0 <= i < |outbox| - 1 ==> outbox[1..][i] == outbox[i + 1];
      RetainedByAge(outbox[1..], olderThan);
      var rest := Retained(outbox[1..], olderThan);
      forall i | 0 <= i < |rest| ensures outbox[0].createdAt <= rest[i].createdAt {
        RetainedElements(outbox[1..], olderThan, rest[i]);
        var k :| 0 <= k < |outbox[1..]| && outbox[1..][k] == rest[i];
      }
    }
  }

  lemma {:induction false} PendingByAge(outbox: seq<Row>)
    requires ByAge(outbox)
    ensures ByAge(Undelivered(outbox))
  {
    if outbox != [] {
      assert forall i :: 0 <= i < |outbox| - 1 ==> outbox[1..][i] == outbox[i + 1];
      PendingByAge(outbox[1..]);
      var rest := Undelivered(outbox[1..]);
      forall i | 0 <= i < |rest| ensures outbox[0].createdAt <= rest[i].createdAt {
        var k :| 0 <= k < |outbox[1..]| && outbox[1..][k] == rest[i];
      }
    }
  }

  /** With no failed row and every pending row due, the claimable rows are the pending ones. */
  lemma {:induction false} ClaimableIsPending(outbox: seq<Row>, now: int)
    requires forall r :: r in outbox ==> !r.status.RowFailed? && (r.status.RowPending? ==> r.availableAt <= now)
    ensures ClaimableRows(outbox, now) == Undelivered(outbox)
  {
    if outbox != [] {
      var n := |outbox| - 1;
      assert outbox == outbox[..n] + [outbox[n]];
      ClaimableIsPending(outbox[..n], now);
      PendingConcat(outbox[..n], [outbox[n]]);
      assert outbox[n] in outbox;
      assert Undelivered([outbox[n]]) == if outbox[n].status.RowPending? then [outbox[n]] else [];
    }
  }

  lemma {:induction false} PendingLeased(outbox: seq<Row>, ids: set<nat>, until: int)
    ensures Undelivered(LeaseAll(outbox, ids, until)) == LeaseAll(Undelivered(outbox), ids, until)
  {
    if outbox != [] {
      var o := LeaseAll(outbox, ids, until);
      PendingLeased(outbox[1..], ids, until);
      assert o[1..] == LeaseAll(outbox[1..], ids, until);
      assert o == [o[0]] + o[1..];
    }
  }

  /** Delivering the first pending row takes it off the front. */
  lemma {:induction false} PendingDelivered(outbox: seq<Row>, k: nat, r: Row)
    requires k < |outbox| && outbox[k].status.RowPending? && r.status.RowSent?
    requires IdsDiffer(outbox) && Undelivered(outbox) != [] && Undelivered(outbox)[0].id == outbox[k].id
    ensures Undelivered(outbox[k := r]) == Undelivered(outbox)[1..]
  {
    var tail := outbox[1..];
    if k == 0 {
      assert outbox[0 := r][1..] == tail;
    } else {
      assert outbox[0].id != outbox[k].id;
      assert outbox[k := r][1..] == tail[k - 1 := r] && outbox[k := r][0] == outbox[0];
      assert IdsDiffer(tail) by { TailDiffers(outbox); }
      PendingDelivered(tail, k - 1, r);
    }
  }

  lemma TailDiffers(outbox: seq<Row>)
    requires IdsDiffer(outbox) && outbox != []
    ensures IdsDiffer(outbox[1..])
  {
    assert forall i :: 0 <= i < |outbox| - 1 ==> outbox[1..][i] == outbox[i + 1];
  }

  // ------------------------------------------------------------------ the order

  /** Time of a step that reads the clock. */
  predicate InTime(s: SysStep, clock: int) {
    match s
    case Api(step) => step.Retain? || StepTime(step) >= clock
    case Claim(now, _) => now >= clock
    case Go(now) => now >= clock
    case _ => true
  }

  function ClockAfter(s: SysStep, clock: int): int {
    match s
    case Api(step) => if step.Retain? then clock else StepTime(step)
    case Claim(now, _) => now
    case Go(now) => now
    case _ => clock
  }

  function ClockEnd(steps: seq<SysStep>, clock: int): int {
    if steps == [] then clock else ClockEnd(steps[1..], ClockAfter(steps[0], clock))
  }

  /** Failure-free: nothing throws, nothing crashes, the clock does not run backwards. */
  ghost predicate Calm(policy: Policy, sys: Sys, steps: seq<SysStep>, clock: int)
    decreases |steps|
  {
    steps == [] ||
    (var s := steps[0];
     Enabled(sys, s) && !s.Fail? && !s.Crash? && InTime(s, clock)
     && Calm(policy, Do(policy, sys, s), steps[1..], ClockAfter(s, clock)))
  }

  lemma {:induction false} CalmIsLawful(policy: Policy, sys: Sys, steps: seq<SysStep>, clock: int)
    requires Calm(policy, sys, steps, clock)
    ensures LawfulSys(policy, sys, steps)
    decreases |steps|
  {
    hide Do, Enabled;
    if steps != [] { CalmIsLawful(policy, Do(policy, sys, steps[0]), steps[1..], ClockAfter(steps[0], clock)); }
  }

  /** Rows are in order of age and none has failed. */
  ghost predicate RowsCalm(outbox: seq<Row>, clock: int) {
    && clock >= 0 && ByAge(outbox)
    && forall r :: r in outbox ==> r.createdAt <= clock && (r.status.RowPending? || r.status.RowSent?)
  }

  /** The batch in hand is the front of the pending rows; the rest is due. */
  ghost predicate FrontCalm(pending: seq<Row>, worker: Worker) {
    && (worker.Idle? ==> forall i :: 0 <= i < |pending| ==> pending[i].availableAt == 0)
    && (worker.Busy? ==>
          && !worker.phase.Thrown? && worker.batch != [] && worker.batch <= pending
          && forall i :: |worker.batch| <= i < |pending| ==> pending[i].availableAt == 0)
  }

  ghost predicate Orderly(sys: Sys, clock: int) {
    RowsCalm(sys.db.outbox, clock) && FrontCalm(Undelivered(sys.db.outbox), sys.worker)
  }

  lemma AppendedByAge(a: seq<Row>, b: seq<Row>, clock: int, now: int)
    requires ByAge(a) && a <= b && clock <= now
    requires forall r :: r in a ==> r.createdAt <= clock
    requires forall i :: |a| <= i < |b| ==> b[i].createdAt == now
    ensures ByAge(b)
  {
    forall i, j | 0 <= i < j < |b| ensures b[i].createdAt <= b[j].createdAt {
      if i < |a| { assert b[i] == a[i] && a[i] in a; }
      if j < |a| { assert b[j] == a[j]; }
    }
  }

  lemma RowsAppend(a: seq<Row>, b: seq<Row>, clock: int, now: int)
    requires RowsCalm(a, clock) && a <= b && clock <= now
    requires forall i :: |a| <= i < |b| ==> NewlyWritten(b[i], now)
    ensures RowsCalm(b, now)
  {
    AppendedByAge(a, b, clock, now);
    hide ByAge;
    forall r | r in b ensures r.createdAt <= now && (r.status.RowPending? || r.status.RowSent?) {
      var i :| 0 <= i < |b| && b[i] == r;
      if i < |a| { assert a[i] in a && a[i] == r; }
    }
  }

  lemma PendingAppend(a: seq<Row>, b: seq<Row>, now: int)
    requires a <= b && forall i :: |a| <= i < |b| ==> NewlyWritten(b[i], now)
    ensures Undelivered(b) == Undelivered(a) + b[|a|..]
    ensures forall r :: r in b[|a|..] ==> r.availableAt == 0
  {
    var added := b[|a|..];
    assert b == a + added;
    assert forall i :: 0 <= i < |added| ==> added[i] == b[|a| + i];
    PendingConcat(a, added);
    PendingAll(added);
  }

  lemma AppendOrderly(sys: Sys, db': Db, clock: int, now: int)
    requires Orderly(sys, clock) && Appends(sys.db, db', now) && clock <= now
    ensures Orderly(sys.(db := db'), now)
    ensures Undelivered(db'.outbox) == Undelivered(sys.db.outbox) + db'.outbox[|sys.db.outbox|..]
  {
    hide RowsCalm, FrontCalm, Undelivered;
    var a, b := sys.db.outbox, db'.outbox;
    RowsAppend(a, b, clock, now);
    PendingAppend(a, b, now);
    FrontExtends(Undelivered(a), b[|a|..], sys.worker);
  }

  lemma FrontExtends(pending: seq<Row>, added: seq<Row>, worker: Worker)
    requires FrontCalm(pending, worker) && forall r :: r in added ==> r.availableAt == 0
    ensures FrontCalm(pending + added, worker)
  {
  }

  lemma RetainOrderly(sys: Sys, clock: int, olderThan: int)
    requires Orderly(sys, clock)
    ensures Orderly(sys.(db := RunRetention(sys.db, olderThan)), clock)
    ensures Undelivered(RunRetention(sys.db, olderThan).outbox) == Undelivered(sys.db.outbox)
  {
    var a, b := sys.db.outbox, RunRetention(sys.db, olderThan).outbox;
    assert b == Retained(a, olderThan) by {
      RetentionKeepsTheRest(sys.db, 0, olderThan);
      assert a[0..] == a && a[..0] == [];
    }
    hide RunRetention, FrontCalm;
    PendingRetained(a, olderThan);
    RetainedByAge(a, olderThan);
    hide Undelivered, ByAge, Retained;
    forall r | r in b ensures r in a { RetainedElements(a, olderThan, r); }
  }

  /** A claim takes the front of the pending rows. */
  lemma ClaimOrderly(policy: Policy, sys: Sys, clock: int, now: int, limit: nat)
    requires Orderly(sys, clock) && Inv(sys.db) && sys.worker.Idle? && clock <= now
    ensures var sys' := Do(policy, sys, Claim(now, limit));
      var a, b := Undelivered(sys.db.outbox), Undelivered(sys'.db.outbox);
      && Orderly(sys', now)
      && |a| == |b| && forall i :: 0 <= i < |a| ==> b[i] == a[i].(availableAt := b[i].availableAt)
  {
    hide Inv, RowsCalm, Undelivered, ClaimOutbox, IdsDiffer, DueBatch, LeaseAll, Do, ByAge;
    OutboxIdsDiffer(sys.db);
    var outbox := sys.db.outbox;
    var pending, due := Undelivered(outbox), DueBatch(outbox, now, limit);
    DueIsFront(outbox, pending, clock, now, limit);
    var ids, until := RowIds(due), now + CLAIM_LEASE_MS;
    PendingLeased(outbox, ids, until);
    OrderedRows(outbox, clock);
    LeasedOrder(outbox, now, due, pending);
    ClaimedBatch(policy, sys, now, limit);
    LeasedCalm(outbox, LeaseAll(outbox, ids, until), clock, now);
    LeasedSame(pending, ids, until);
  }

  lemma OrderedRows(outbox: seq<Row>, clock: int)
    requires RowsCalm(outbox, clock)
    ensures ByAge(outbox)
  {
  }

  lemma LeasedSame(pending: seq<Row>, ids: set<nat>, until: int)
    ensures var p := LeaseAll(pending, ids, until);
      |p| == |pending| && forall i :: 0 <= i < |p| ==> p[i] == pending[i].(availableAt := p[i].availableAt)
  {
  }

  lemma LeasedCalm(outbox: seq<Row>, o: seq<Row>, clock: int, now: int)
    requires RowsCalm(outbox, clock) && clock <= now && ByAge(o)
    requires forall r :: r in o ==> exists q :: q in outbox && r == q.(availableAt := r.availableAt)
    ensures RowsCalm(o, now)
  {
  }

  lemma DueIsFront(outbox: seq<Row>, pending: seq<Row>, clock: int, now: int, limit: nat)
    requires RowsCalm(outbox, clock) && clock <= now && pending == Undelivered(outbox)
    requires forall i :: 0 <= i < |pending| ==> pending[i].availableAt == 0
    ensures DueBatch(outbox, now, limit) == FirstRows(Undelivered(outbox), limit)
  {
    forall r | r in outbox ensures !r.status.RowFailed? && (r.status.RowPending? ==> r.availableAt <= now) {
      if r.status.RowPending? {
        assert r in pending;
        var i :| 0 <= i < |pending| && pending[i] == r;
        assert pending[i].availableAt == 0;
      }
    }
    ClaimableIsPending(outbox, now);
    PendingByAge(outbox);
    SortedStays(pending);
  }

  lemma ClaimedBatch(policy: Policy, sys: Sys, now: int, limit: nat)
    requires sys.worker.Idle?
    ensures var due := DueBatch(sys.db.outbox, now, limit);
      && Do(policy, sys, Claim(now, limit)).worker == StartBatch(LeaseAll(due, RowIds(due), now + CLAIM_LEASE_MS))
      && Do(policy, sys, Claim(now, limit)).db.outbox == LeaseAll(sys.db.outbox, RowIds(due), now + CLAIM_LEASE_MS)
  {
    hide DueBatch;
  }

  lemma LeasedOrder(outbox: seq<Row>, now: int, due: seq<Row>, pending: seq<Row>)
    requires IdsDiffer(outbox) && pending == Undelivered(outbox) && due <= pending && ByAge(outbox)
    requires forall i :: 0 <= i < |pending| ==> pending[i].availableAt == 0
    ensures var ids, until := RowIds(due), now + CLAIM_LEASE_MS;
      var p := LeaseAll(pending, ids, until);
      && LeaseAll(due, ids, until) <= p
      && (forall i :: |due| <= i < |p| ==> p[i].availableAt == 0)
      && ByAge(LeaseAll(outbox, ids, until))
      && forall r :: r in LeaseAll(outbox, ids, until) ==> exists q :: q in outbox
                                                             && r == q.(availableAt := r.availableAt)
  {
    var ids, until := RowIds(due), now + CLAIM_LEASE_MS;
    var p := LeaseAll(pending, ids, until);
    PendingDiffer(outbox);
    forall i | |due| <= i < |p| ensures p[i].availableAt == 0 {
      assert forall k :: 0 <= k < |due| ==> due[k].id == pending[k].id != pending[i].id;
      assert pending[i].id !in ids;
    }
    forall r | r in LeaseAll(outbox, ids, until)
      ensures exists q :: q in outbox && r == q.(availableAt := r.availableAt)
    {
      var i :| 0 <= i < |outbox| && LeaseAll(outbox, ids, until)[i] == r;
      assert outbox[i] in outbox;
    }
  }

  lemma {:induction false} PendingDiffer(outbox: seq<Row>)
    requires IdsDiffer(outbox)
    ensures IdsDiffer(Undelivered(outbox))
  {
    if outbox != [] {
      var rest := Undelivered(outbox[1..]);
      assert forall i :: 0 <= i < |outbox| - 1 ==> outbox[1..][i] == outbox[i + 1];
      PendingDiffer(outbox[1..]);
      forall i | 0 <= i < |rest| ensures rest[i].id != outbox[0].id {
        var k :| 0 <= k < |outbox[1..]| && outbox[1..][k] == rest[i];
      }
    }
  }

  /** Settling takes the first pending row off the front. */
  lemma SettleOrderly(sys: Sys, clock: int, now: int)
    requires Orderly(sys, clock) && QueueGood(sys) && Inv(sys.db) && clock <= now
    requires sys.worker.Busy? && sys.worker.phase.Finished?
    ensures Orderly(Settle(sys, now), now)
    ensures Undelivered(Settle(sys, now).db.outbox) == Undelivered(sys.db.outbox)[1..]
  {
    hide Inv, RowsCalm, Undelivered, IdsDiffer, Settle, QueueGood;
    OutboxIdsDiffer(sys.db);
    var outbox, batch := sys.db.outbox, sys.worker.batch;
    var k := SettleEffect(sys, now);
    var r := Delivered(outbox[k], now);
    assert Undelivered(outbox)[0] == batch[0];
    CalmRow(outbox, clock, k);
    PendingDelivered(outbox, k, r);
    SettleWorker(sys, now);
    SettledCalm(outbox, k, r, clock, now);
    assert batch[1..] <= Undelivered(outbox)[1..];
  }

  lemma CalmRow(outbox: seq<Row>, clock: int, k: nat)
    requires RowsCalm(outbox, clock) && k < |outbox| && outbox[k].Open()
    ensures outbox[k].status.RowPending?
  {
    assert outbox[k] in outbox;
  }

  lemma SettledCalm(outbox: seq<Row>, k: nat, r: Row, clock: int, now: int)
    requires RowsCalm(outbox, clock) && clock <= now && k < |outbox|
    requires r.createdAt == outbox[k].createdAt && r.status.RowSent?
    ensures RowsCalm(outbox[k := r], now)
  {
    assert outbox[k] in outbox;
    assert ByAge(outbox[k := r]);
    hide ByAge;
  }

  lemma SettleWorker(sys: Sys, now: int)
    requires sys.worker.Busy? && sys.worker.batch != []
    ensures Settle(sys, now).worker == NextMessage(sys.worker.batch)
  {
    hide MarkDelivered, MarkFailed;
  }
}
