/** A failure-free run can always be worked off: what its quiet end promises is not empty. */
module Progress {
  import opened Contracts
  import opened OutboxKeys
  import opened Db
  import opened Dispatch
  import opened Machine
  import opened Invariants
  import opened System
  import opened Money
  import opened Queue
  import opened Claims
  import opened CalmQueue
  import opened Settlement
  import opened Deals
  import opened Payouts
  import opened Ledger
  import opened Runs

  /** An idle worker has a whole message before it. */
  function Left(worker: Worker): nat {
    if worker.Idle? then 9 else StepsLeft(worker.phase)
  }

  /** A step the worker takes by itself. */
  predicate Own(s: SysStep) { s.Claim? || s.Go? }

  /** The worker writes to the ledger and the outbox alone. */
  lemma OwnLeavesRest(sys: Sys, now: int)
    requires sys.worker.Busy? && sys.worker.batch != []
    ensures var db' := Advance(sys, now).db; db' == sys.db.(ledger := db'.ledger, outbox := db'.outbox)
  {
    hide ApprovedGross, Authorise, Capturable, CaptureReference, AuthReference, ActiveIndex, PayoutCents, PayoutKey,
      AppendEntries,
      FirstOf, Recorded, MarkDelivered, MarkFailed;
  }

  /** A claim as large as the queue takes all of it. */
  lemma ClaimsAll(policy: Policy, sys: Sys, clock: int)
    requires sys.worker.Idle? && Undelivered(sys.db.outbox) != [] && Orderly(sys, clock) && Inv(sys.db)
    ensures var (outbox, batch) := ClaimOutbox(sys.db.outbox, clock, |Undelivered(sys.db.outbox)|);
      batch != [] && |Undelivered(outbox)| == |Undelivered(sys.db.outbox)|
  {
    var limit := |Undelivered(sys.db.outbox)|;
    assert forall i :: 0 <= i < limit ==> Undelivered(sys.db.outbox)[i].availableAt == 0;
    hide Inv, Undelivered, DueBatch, LeaseAll, RowIds, RowsCalm;
    ClaimOrderly(policy, sys, clock, clock, limit);
    hide FrontCalm;
    DueIsFront(sys.db.outbox, Undelivered(sys.db.outbox), clock, clock, limit);
  }

  /** Has the step brought the end of the queue closer, and left all records but ledger and outbox? */
  predicate Closer(sys: Sys, sys': Sys) {
    var left, left' := |Undelivered(sys.db.outbox)|, |Undelivered(sys'.db.outbox)|;
    && sys'.db == sys.db.(ledger := sys'.db.ledger, outbox := sys'.db.outbox)
    && (left' < left || (left' == left && Left(sys'.worker) < Left(sys.worker)))
  }

  function AfterClaim(sys: Sys, now: int): Sys {
    var (outbox, batch) := ClaimOutbox(sys.db.outbox, now, |Undelivered(sys.db.outbox)|);
    sys.(db := sys.db.(outbox := outbox), worker := StartBatch(batch))
  }

  lemma ClaimCloser(policy: Policy, sys: Sys, clock: int)
    requires sys.worker.Idle? && Undelivered(sys.db.outbox) != [] && Orderly(sys, clock) && Inv(sys.db)
    ensures Closer(sys, AfterClaim(sys, clock))
  {
    hide Orderly, Inv, Undelivered, ClaimOutbox;
    ClaimsAll(policy, sys, clock);
  }

  lemma SettleCloser(sys: Sys, clock: int)
    requires Orderly(sys, clock) && QueueGood(sys) && Inv(sys.db) && sys.worker.Busy? && sys.worker.phase.Finished?
    requires sys.worker.batch != [] && Undelivered(sys.db.outbox) != []
    ensures Closer(sys, Advance(sys, clock))
  {
    hide Orderly, QueueGood, Inv, Undelivered, Settle, Advance, StepsLeft;
    AdvanceSettles(sys, clock);
    SettleOrderly(sys, clock, clock);
    SettleParts(sys, clock);
  }

  lemma GoCloser(sys: Sys, clock: int)
    requires sys.worker.Busy? && !sys.worker.phase.Finished? && !sys.worker.phase.Thrown? && sys.worker.batch != []
    ensures Closer(sys, Advance(sys, clock))
  {
    hide Undelivered, Advance, StepsLeft;
    HandlerLeavesQueue(sys, clock);
    HandlerEnds(sys, clock);
    OwnLeavesRest(sys, clock);
  }

  lemma NotQuiet(sys: Sys)
    requires sys.worker.Idle? && !Quiet(sys)
    ensures Undelivered(sys.db.outbox) != []
  {
  }

  lemma PartsOfCalm(sys: Sys, clock: int)
    requires CalmInv(sys, clock)
    ensures Orderly(sys, clock) && QueueGood(sys) && Inv(sys.db)
    ensures sys.worker.Busy? ==> sys.worker.batch != [] && !sys.worker.phase.Thrown? && Undelivered(sys.db.outbox) != []
  {
    InvOf(sys);
    hide SysInv, AllDone, Inv;
    if sys.worker.Busy? { hide Orderly; FinishedWaits(sys, clock); }
  }

  lemma CloserStep(policy: Policy, sys: Sys, clock: int) returns (s: SysStep)
    requires !Quiet(sys)
    requires sys.worker.Busy? ==> sys.worker.batch != [] && !sys.worker.phase.Thrown?
                                  && Undelivered(sys.db.outbox) != []
    requires Orderly(sys, clock) && QueueGood(sys) && Inv(sys.db)
    ensures Own(s) && s.now == clock && Enabled(sys, s)
    ensures Closer(sys, Do(policy, sys, s))
  {
    hide Orderly, QueueGood, Inv, Undelivered, Closer, Advance, ClaimOutbox, Quiet;
    if sys.worker.Idle? {
      NotQuiet(sys);
      s := Claim(clock, |Undelivered(sys.db.outbox)|);
      ClaimCloser(policy, sys, clock);
    } else {
      s := Go(clock);
      if sys.worker.phase.Finished? { SettleCloser(sys, clock); } else { GoCloser(sys, clock); }
    }
  }

  /** Whatever is left to do, the worker has a step that brings it closer to the end. */
  lemma NextStep(policy: Policy, sys: Sys, clock: int) returns (s: SysStep)
    requires CalmInv(sys, clock) && !Quiet(sys)
    ensures Own(s) && s.now == clock && Enabled(sys, s)
    ensures Closer(sys, Do(policy, sys, s)) && CalmInv(Do(policy, sys, s), clock)
  {
    PartsOfCalm(sys, clock);
    hide CalmInv, Orderly, QueueGood, Inv, Undelivered, Closer, Do, Quiet;
    s := CloserStep(policy, sys, clock);
    CalmStep(policy, sys, clock, s);
  }

  /** Out of every failure-free run the worker alone can work off the queue, without failures and
      in no time, whatever it was in the middle of; jobs, quotes, offers,
      assignments and history stay as they are. */
  lemma {:induction false} CalmCanFinish(policy: Policy, sys: Sys, clock: int) returns (steps: seq<SysStep>)
    requires CalmInv(sys, clock)
    ensures (forall s :: s in steps ==> Own(s)) && Calm(policy, sys, steps, clock) && LawfulSys(policy, sys, steps)
    ensures var end := RunSys(policy, sys, steps);
      Quiet(end) && end.db == sys.db.(ledger := end.db.ledger, outbox := end.db.outbox)
    decreases |Undelivered(sys.db.outbox)|, Left(sys.worker)
  {
    hide CalmInv, Quiet, Do, Enabled, Left, Undelivered;
    if Quiet(sys) {
      steps := [];
    } else {
      var s := NextStep(policy, sys, clock);
      var rest := CalmCanFinish(policy, Do(policy, sys, s), clock);
      steps := [s] + rest;
      assert steps[1..] == rest;
    }
  }

  // ------------------------------------------------------------- run after run

  lemma {:induction false} CalmConcat(policy: Policy, sys: Sys, a: seq<SysStep>, b: seq<SysStep>, clock: int)
    requires Calm(policy, sys, a, clock) && LawfulSys(policy, sys, a)
    requires Calm(policy, RunSys(policy, sys, a), b, ClockEnd(a, clock))
    ensures Calm(policy, sys, a + b, clock)
    decreases |a|
  {
    hide Do, Enabled, InTime, ClockAfter;
    if a == [] {
      assert a + b == b;
    } else {
      CalmConcat(policy, Do(policy, sys, a[0]), a[1..], b, ClockAfter(a[0], clock));
      assert (a + b)[1..] == a[1..] + b;
    }
  }

  lemma {:induction false} RunConcat(policy: Policy, sys: Sys, a: seq<SysStep>, b: seq<SysStep>, memo: Memo)
    requires LawfulSys(policy, sys, a) && LawfulSys(policy, RunSys(policy, sys, a), b)
    ensures LawfulSys(policy, sys, a + b) && RunSys(policy, sys, a + b) == RunSys(policy, RunSys(policy, sys, a), b)
    ensures MemoOf(policy, sys, a + b, memo) == MemoOf(policy, RunSys(policy, sys, a), b, MemoOf(policy, sys, a, memo))
    decreases |a|
  {
    hide Do, Enabled, NextMemo;
    if a == [] {
      assert a + b == b;
    } else {
      RunConcat(policy, Do(policy, sys, a[0]), a[1..], b, NextMemo(policy, sys, a[0], memo));
      assert (a + b)[1..] == a[1..] + b;
    }
  }

  /** Every failure-free run can be followed by steps of the worker alone to a quiet end that
      leaves all records but ledger and outbox as they are. */
  lemma CalmGoesQuiet(policy: Policy, steps: seq<SysStep>) returns (more: seq<SysStep>)
    requires Calm(policy, START, steps, 0)
    ensures (forall s :: s in more ==> Own(s)) && Calm(policy, START, steps + more, 0)
    ensures LawfulSys(policy, START, steps) && LawfulSys(policy, RunSys(policy, START, steps), more)
    ensures var mid := RunSys(policy, START, steps);
      var end := RunSys(policy, mid, more);
      Quiet(end) && end.db == mid.db.(ledger := end.db.ledger, outbox := end.db.outbox)
  {
    CalmStart();
    hide CalmInv, Calm, RunSys, LawfulSys, Quiet;
    var last := CalmRun(policy, START, 0, steps);
    more := CalmCanFinish(policy, RunSys(policy, START, steps), last);
    CalmConcat(policy, START, steps, more, 0);
  }

  // ------------------------------------------------- what the requests decide alone

  function Apis(steps: seq<Step>): (r: seq<SysStep>)
    ensures |r| == |steps|
  {
    if steps == [] then [] else [Api(steps[0])] + Apis(steps[1..])
  }

  /** The requests come with a clock that starts at zero and never runs backwards. */
  predicate Timely(steps: seq<Step>, clock: int) {
    steps == [] || (!steps[0].Retain? && steps[0].now >= clock && Timely(steps[1..], steps[0].now))
  }

  /** The offers accepted again too late over some requests. */
  function LateRun(policy: Policy, db: Db, steps: seq<Step>, late: set<nat>): set<nat>
    requires Lawful(policy, db, steps)
    decreases |steps|
  {
    if steps == [] then late
    else LateRun(policy, Apply(policy, db, steps[0]), steps[1..], LateAfter(policy, db, steps[0], late))
  }

  lemma {:induction false} ApiRun(policy: Policy, sys: Sys, steps: seq<Step>, clock: int, memo: Memo)
    requires Lawful(policy, sys.db, steps) && Timely(steps, clock)
    ensures Calm(policy, sys, Apis(steps), clock) && LawfulSys(policy, sys, Apis(steps))
    ensures RunSys(policy, sys, Apis(steps)) == sys.(db := Run(policy, sys.db, steps))
    ensures MemoOf(policy, sys, Apis(steps), memo) == memo.(late := LateRun(policy, sys.db, steps, memo.late))
    decreases |steps|
  {
    hide Apply, Admissible, LateAfter;
    if steps == [] {
    } else {
      var sys' := Do(policy, sys, Api(steps[0]));
      assert Apis(steps)[0] == Api(steps[0]) && Apis(steps)[1..] == Apis(steps[1..]);
      ApiRun(policy, sys', steps[1..], steps[0].now, NextMemo(policy, sys, Api(steps[0]), memo));
    }
  }

  /** The same offers are late now, when the payout in hand was priced and for all that is paid. */
  ghost predicate Uniform(sys: Sys, memo: Memo, late: set<nat>) {
    && memo.late == late && (forall j :: j in memo.paid ==> memo.paid[j] == late)
    && (sys.worker.Busy? && (sys.worker.phase.PayoutPriced? || sys.worker.phase.PayoutSent?) ==> memo.priced == late)
  }

  lemma GoUniform(sys: Sys, now: int, memo: Memo, late: set<nat>)
    requires sys.worker.Busy? && sys.worker.batch != [] && Uniform(sys, memo, late)
    ensures Uniform(Advance(sys, now), GoMemo(sys, memo), late)
  {
    hide Advance, OneMore, PayoutCents;
    GoShape(sys, now);
  }

  lemma {:induction false} OwnUniform(policy: Policy, sys: Sys, steps: seq<SysStep>, memo: Memo, late: set<nat>)
    requires (forall s :: s in steps ==> Own(s)) && LawfulSys(policy, sys, steps) && Uniform(sys, memo, late)
    ensures Uniform(RunSys(policy, sys, steps), MemoOf(policy, sys, steps, memo), late)
    decreases |steps|
  {
    hide Advance, ClaimOutbox, Apply, Admissible, GoMemo;
    if steps != [] {
      var sys', memo' := Do(policy, sys, steps[0]), NextMemo(policy, sys, steps[0], memo);
      assert Own(steps[0]);
      if steps[0].Go? { GoUniform(sys, steps[0].now, memo, late); }
      hide Do, NextMemo, Uniform;
      OwnUniform(policy, sys', steps[1..], memo', late);
    }
  }

  /** Any requests can be worked off; the offers accepted too late stay what the requests say. */
  lemma WorkOff(policy: Policy, steps: seq<Step>) returns (run: seq<SysStep>)
    requires Lawful(policy, EMPTY, steps) && Timely(steps, 0)
    ensures Calm(policy, START, run, 0) && LawfulSys(policy, START, run)
    ensures var db, end := Run(policy, EMPTY, steps), RunSys(policy, START, run);
      && Quiet(end) && end.db == db.(ledger := end.db.ledger, outbox := end.db.outbox)
      && Uniform(end, MemoOf(policy, START, run, BLANK), LateRun(policy, EMPTY, steps, {}))
  {
    ApiRun(policy, START, steps, 0, BLANK);
    hide Run, Lawful, LateRun, Calm, LawfulSys, RunSys, MemoOf, Timely, Apis;
    var more := CalmGoesQuiet(policy, Apis(steps));
    run := Apis(steps) + more;
    RunConcat(policy, START, Apis(steps), more, BLANK);
    OwnUniform(policy, RunSys(policy, START, Apis(steps)), more, MemoOf(policy, START, Apis(steps), BLANK),
               LateRun(policy, EMPTY, steps, {}));
  }

  /** Of any requests that complete a job: they can be worked off, and the provider is then paid what
      they make due, no matter when the worker gets to it. */
  lemma RequestsDecidePayout(policy: Policy, steps: seq<Step>, j: Id) returns (run: seq<SysStep>, e: Entry)
    requires Lawful(policy, EMPTY, steps) && Timely(steps, 0)
    requires var db := Run(policy, EMPTY, steps); j in db.jobs && db.jobs[j].status.Completed?
    ensures IsPayout(policy, run, e) && e.jobId == j && ApprovedGross(Run(policy, EMPTY, steps).quotes, j).Some?
    ensures var db := Run(policy, EMPTY, steps);
      -e.amountCents == SumDue(db, LateRun(policy, EMPTY, steps, {}), j, ApprovedGross(db.quotes, j).value)
    ensures var db, end := Run(policy, EMPTY, steps), RunSys(policy, START, run).db;
      Quiet(RunSys(policy, START, run)) && end == db.(ledger := end.ledger, outbox := end.outbox)
  {
    var db, late := Run(policy, EMPTY, steps), LateRun(policy, EMPTY, steps, {});
    hide Run, Lawful, LateRun, Calm, LawfulSys, RunSys, MemoOf, Timely, SumDue, Quiet;
    run := WorkOff(policy, steps);
    BooksWhenQuiet(policy, run, j);
    e :| e in RunSys(policy, START, run).db.ledger && e.jobId == j && e.kind.Payout?;
    PayoutIsExactly(policy, run, e);
    SumSame(db, RunSys(policy, START, run).db, late, j, ApprovedGross(db.quotes, j).value);
  }
}
