/** When a failed message is tried again. */
module Retries {
  import opened Contracts
  import opened OutboxKeys
  import opened Db
  import opened Machine
  import opened Invariants
  import opened System
  import opened Money
  import opened Queue
  import opened Claims

  lemma {:induction false} PowerGrows(n: nat)
    requires n >= 6
    ensures Power2(n) >= 64
  {
    if n == 6 {
      assert Power2(3) == 8;
    } else {
      PowerGrows(n - 1);
    }
  }

  /** Half a minute at first, twice as long after each further attempt, and half an hour from the
      seventh on. */
  lemma BackoffSchedule(n: int)
    ensures n <= 1 ==> OutboxBackoffMs(n) == 30_000
    ensures n >= 1 ==> OutboxBackoffMs(n + 1) == Min(1_800_000, 2 * OutboxBackoffMs(n))
    ensures n >= 7 ==> OutboxBackoffMs(n) == 1_800_000
  {
    if n >= 7 { PowerGrows(n - 1); }
    if n >= 1 { assert Power2(n) == 2 * Power2(n - 1); }
  }

  /** The waits after the first to the fourth failure, in milliseconds. */
  const WAITS: seq<int> := [30_000, 60_000, 120_000, 240_000]

  lemma WaitsAre(n: nat)
    requires 1 <= n <= 4
    ensures OutboxBackoffMs(n) == WAITS[n - 1]
  {
    BackoffSchedule(1);
    BackoffSchedule(2);
    BackoffSchedule(3);
    hide OutboxBackoffMs;
  }

  /** A row after its n-th failure at this time: due again after the n-th wait, and given up at the fifth. */
  function AfterFailure(r: Row, now: int): Row {
    var n := r.attempts + 1;
    if n <= 4 then r.(attempts := n, status := RowFailed, availableAt := now + WAITS[n - 1])
    else r.(attempts := n, status := RowDead)
  }

  /** In every run with failures and crashes: when the handling of a message has failed, its row and
      no other changes, and becomes due after 30, 60, 120 or 240 seconds by the number of its
      failures; the fifth is its last. */
  lemma FailedIsRetried(policy: Policy, steps: seq<SysStep>, now: int)
    requires LawfulSys(policy, START, steps)
    requires var sys := RunSys(policy, START, steps);
      sys.worker.Busy? && sys.worker.batch != [] && sys.worker.phase.Thrown?
    ensures var sys := RunSys(policy, START, steps);
      var a, b := sys.db.outbox, Advance(sys, now).db.outbox;
      exists k :: 0 <= k < |a| && a[k].id == sys.worker.batch[0].id && a[k].attempts <= 4
                  && b == a[k := AfterFailure(a[k], now)]
  {
    hide RunSys, LawfulSys, SysInv, QueueGood, Settle, Inv;
    ReachableGood(policy, steps);
    var sys := RunSys(policy, START, steps);
    InvOf(sys);
    var k := SettleEffect(sys, now);
    OpenAttempts(sys, k);
    ThrownSettles(sys, now);
    RetriedRow(sys.worker.batch[0], sys.db.outbox[k], now);
  }

  lemma ThrownSettles(sys: Sys, now: int)
    requires sys.worker.Busy? && sys.worker.batch != [] && sys.worker.phase.Thrown?
    ensures Advance(sys, now) == Settle(sys, now)
  {
    hide Settle;
  }

  lemma OpenAttempts(sys: Sys, k: nat)
    requires QueueGood(sys) && k < |sys.db.outbox| && sys.db.outbox[k].Open()
    ensures sys.db.outbox[k].attempts <= 4
  {
    assert sys.db.outbox[k] in sys.db.outbox;
    hide BatchMirrors;
  }

  lemma RetriedRow(m: Row, row: Row, now: int)
    requires m.attempts == row.attempts <= 4
    ensures Failed(row, RetryAt(m, now)) == AfterFailure(row, now)
  {
    if row.attempts < 4 { WaitsAre(row.attempts + 1); }
    hide OutboxBackoffMs;
  }
}
