/** For each promise the system does not always keep: a run in which it does not. */
module Witness {
  import opened Contracts
  import opened Counting
  import opened OutboxKeys
  import opened Db
  import opened Dispatch
  import opened Machine
  import opened Tallies
  import opened Invariants
  import opened Evolution
  import opened System
  import opened Outbox
  import opened Money
  import opened Queue
  import opened Claims
  import opened CalmQueue
  import opened TodoOrder
  import opened Settlement
  import opened Finality
  import opened Deals
  import opened Payouts
  import opened Ledger
  import opened Runs
  import opened Progress
  import opened Stories

  // -------------------------------------------------------------------- stories

  /** The requests lead to this stage. */
  ghost predicate Ends(policy: Policy, steps: seq<Step>, late: set<nat>, now: int, status: JobStatus,
                       quotes: seq<Quote>,
                       offers: seq<Offer>, assignments: seq<Assignment>) {
    && Lawful(policy, EMPTY, steps) && Told(policy, steps, Run(policy, EMPTY, steps), late, now)
    && Stage(Run(policy, EMPTY, steps), status, quotes, offers, assignments)
  }

  /** One more request, none of them late so far. */
  lemma Then(policy: Policy, before: seq<Step>, s: Step, status: JobStatus, quotes: seq<Quote>,
             offers: seq<Offer>, assignments: seq<Assignment>) returns (steps: seq<Step>)
    requires Lawful(policy, EMPTY, before) && Told(policy, before, Run(policy, EMPTY, before), {}, 0)
    requires !s.Retain? && s.now == 0
    requires Leads(policy, Run(policy, EMPTY, before), s, false, status, quotes, offers, assignments)
    ensures steps == before + [s] && Ends(policy, steps, {}, 0, status, quotes, offers, assignments)
  {
    hide Apply, Admissible, LateReaccept, Stage;
    steps := before + [s];
    Tell(policy, before, Run(policy, EMPTY, before), {}, 0, s);
  }

  lemma StoryStarts(policy: Policy)
    ensures Lawful(policy, EMPTY, []) && Run(policy, EMPTY, []) == EMPTY && Told(policy, [], EMPTY, {}, 0)
  {
  }

  /** A job with its quote sent. */
  lemma QuotedStory(policy: Policy) returns (steps: seq<Step>)
    ensures Ends(policy, steps, {}, 0, Quoted, [QUOTE], [], [])
  {
    StoryStarts(policy);
    hide Lawful, Run, Leads, Stage, Told;
    Submits(policy);
    steps := Then(policy, [], SubmitJob(JOB, CUSTOMER, 0), Draft, [], [], []);
    Triages(policy, Run(policy, EMPTY, steps));
    steps := Then(policy, steps, ApproveTriage(JOB, Staff, 0), Triaged, [], [], []);
    Prices(policy, Run(policy, EMPTY, steps));
    steps := Then(policy, steps, PriceJob(QUOTE, Staff, 0), Quoted, [QUOTE], [], []);
  }

  /** The customer approves and the first provider accepts. */
  lemma AssignedStory(policy: Policy) returns (steps: seq<Step>)
    ensures Ends(policy, steps, {}, 0, Assigned, Agreement(), [Taken(TO_ANN)], [Deal(TO_ANN, Active)])
  {
    steps := QuotedStory(policy);
    assert [] + [TO_ANN] == [TO_ANN] && [] + [Taken(TO_ANN)] == [Taken(TO_ANN)]
      && [] + [Deal(TO_ANN, Active)] == [Deal(TO_ANN, Active)];
    hide Lawful, Run, Leads, Stage, Told;
    Approves(policy, Run(policy, EMPTY, steps), Quoted);
    steps := Then(policy, steps, AnswerQuote(QUOTE.id, Staff, true, 0), Quoted, Agreement(), [], []);
    Offers(policy, Run(policy, EMPTY, steps), TO_ANN, [], []);
    steps := Then(policy, steps, FanOut(JOB, Staff, [ANN], [TO_ANN.id], 100, 5, 0), Quoted, Agreement(), [TO_ANN], []);
    Accepts(policy, Run(policy, EMPTY, steps), TO_ANN, [], []);
    steps := Then(policy, steps, Accept(TO_ANN.id, ANN, 0), Assigned, Agreement(), [Taken(TO_ANN)],
                  [Deal(TO_ANN, Active)]);
  }

  lemma CompletedStory(policy: Policy, before: seq<Step>, offers: seq<Offer>, assignments: seq<Assignment>)
    returns (steps: seq<Step>)
    requires Ends(policy, before, {}, 0, Assigned, Agreement(), offers, assignments)
    ensures Ends(policy, steps, {}, 0, Completed, Agreement(), offers, assignments)
  {
    hide Lawful, Run, Leads, Stage, Told;
    Starts(policy, Run(policy, EMPTY, before), offers, assignments);
    steps := Then(policy, before, StartWork(JOB, Staff, 0), InProgress, Agreement(), offers, assignments);
    Completes(policy, Run(policy, EMPTY, steps), offers, assignments);
    steps := Then(policy, steps, CompleteJob(JOB, Staff, 1, 0), Completed, Agreement(), offers, assignments);
  }

  /** The first provider gives the job back and a second one takes it at another price. */
  lemma ReassignedStory(policy: Policy) returns (steps: seq<Step>)
    ensures Ends(policy, steps, {}, 0, Assigned, Agreement(), [Taken(TO_ANN), Taken(TO_BOB)],
                 [Deal(TO_ANN, FellThrough), Deal(TO_BOB, Active)])
  {
    steps := AssignedStory(policy);
    var offers, assignments := [Taken(TO_ANN)], [Deal(TO_ANN, FellThrough)];
    Names();
    assert Fresh(offers, TO_BOB);
    assert offers + [Taken(TO_BOB)] == [Taken(TO_ANN), Taken(TO_BOB)];
    assert assignments + [Deal(TO_BOB, Active)] == [Deal(TO_ANN, FellThrough), Deal(TO_BOB, Active)];
    hide Lawful, Run, Leads, Stage, Told, Fresh;
    Falls(policy, Run(policy, EMPTY, steps), TO_ANN, offers);
    steps := Then(policy, steps, FallThrough(JOB, Staff, 0), Quoted, Agreement(), offers, assignments);
    Offers(policy, Run(policy, EMPTY, steps), TO_BOB, offers, assignments);
    steps := Then(policy, steps, FanOut(JOB, Staff, [BOB], [TO_BOB.id], 200, 5, 0), Quoted, Agreement(),
                  offers + [TO_BOB], assignments);
    Accepts(policy, Run(policy, EMPTY, steps), TO_BOB, offers, assignments);
    steps := Then(policy, steps, Accept(TO_BOB.id, BOB, 0), Assigned, Agreement(), offers + [Taken(TO_BOB)],
                  assignments + [Deal(TO_BOB, Active)]);
  }

  // ------------------------------------------------------------------- payouts

  /** The provider that did the work, at 200, is paid the 100 that the first one agreed to. */
  lemma SecondProviderPaidAsFirst(policy: Policy) returns (run: seq<SysStep>, e: Entry)
    ensures IsPayout(policy, run, e) && e.jobId == JOB
    ensures var db := RunSys(policy, START, run).db;
      && db.assignments == [Deal(TO_ANN, FellThrough), Deal(TO_BOB, Active)]
      && e.amountCents == -100 && TO_BOB.payoutNetCents == 200
  {
    var steps := ReassignedStory(policy);
    steps := CompletedStory(policy, steps, [Taken(TO_ANN), Taken(TO_BOB)],
                            [Deal(TO_ANN, FellThrough), Deal(TO_BOB, Active)]);
    hide Lawful, Run;
    run, e := RequestsDecidePayout(policy, steps, JOB);
    var db := Run(policy, EMPTY, steps);
    assert Engaged(db.assignments, db.offers[0]) by { assert Matches(db.offers[0], db.assignments[0]); }
    assert Standing(db, {}, JOB, 0);
  }

  /** One provider, one assignment at 100, and paid 259, the share of the gross of 360. */
  lemma LateAcceptancePaysShare() returns (run: seq<SysStep>, e: Entry)
    ensures IsPayout(KeepsWrites, run, e) && e.jobId == JOB
    ensures RunSys(KeepsWrites, START, run).db.assignments == [Deal(TO_ANN, Active)] && TO_ANN.payoutNetCents == 100
    ensures e.amountCents == -259
  {
    var steps := AssignedStory(KeepsWrites);
    steps := CompletedStory(KeepsWrites, steps, [Taken(TO_ANN)], [Deal(TO_ANN, Active)]);
    var s, before := Accept(TO_ANN.id, ANN, 5), Run(KeepsWrites, EMPTY, steps);
    AcceptsLate(before);
    Tell(KeepsWrites, steps, before, {}, 0, s);
    hide Lawful, Run;
    run, e := RequestsDecidePayout(KeepsWrites, steps + [s], JOB);
    var db := Run(KeepsWrites, EMPTY, steps + [s]);
    assert OfferIndex(before.offers, TO_ANN.id) == 0;
    assert FirstStanding(db, {0}, JOB, 0) == 1;
  }

  // -------------------------------------------------------------- cancellations

  lemma CountsApproved(db: Db)
    requires JOB in db.jobs
    ensures db.quotes == [QUOTE] ==> TallyOf(db, JOB).approved == 0
    ensures db.quotes == Agreement() ==> TallyOf(db, JOB).approved == 1
  {
    assert [QUOTE] == [] + [QUOTE] && Agreement() == [] + Agreement();
    CountAppend([], QUOTE, ApprovedFor(JOB));
    CountAppend([], Agreement()[0], ApprovedFor(JOB));
  }

  lemma ApprovedTooLate(before: seq<Event>, after: seq<Event>)
    requires before <= after && Happened(before, JOB, JobCancelled) && !Happened(before, JOB, QuoteApproved)
    ensures !ApprovedFirst(after, JOB, JobCancelled)
  {
    FirstPosPrefix(before, after, JOB, JobCancelled);
    FirstPosPrefix(before, after, JOB, QuoteApproved);
  }

  /** The customer cancels and then approves: the requests, and in which order it is remembered. */
  lemma CancelledStory(policy: Policy) returns (steps: seq<Step>)
    ensures Ends(policy, steps, {}, 0, Cancelled, Agreement(), [], [])
    ensures var db := Run(policy, EMPTY, steps);
      Happened(db.events, JOB, QuoteApproved) && !ApprovedFirst(db.events, JOB, JobCancelled)
  {
    var before := QuotedStory(policy);
    hide Lawful, Run, Leads, Told, Happened, ApprovedFirst, TallyOf, Inv;
    Cancels(policy, Run(policy, EMPTY, before));
    before := Then(policy, before, CancelJob(JOB, Staff, 0), Cancelled, [QUOTE], [], []);
    var db, s := Run(policy, EMPTY, before), AnswerQuote(QUOTE.id, Staff, true, 0);
    Approves(policy, db, Cancelled);
    steps := Then(policy, before, s, Cancelled, Agreement(), [], []);
    var db' := Run(policy, EMPTY, steps);
    ReachableInv(policy, before);
    ReachableInv(policy, steps);
    StatusHappened(db, JOB);
    StatusHappened(db', JOB);
    CountsApproved(db);
    CountsApproved(db');
    OneMoreEvolves(policy, before, s);
    ApprovedTooLate(db.events, db'.events);
  }

  lemma OneMoreEvolves(policy: Policy, before: seq<Step>, s: Step)
    requires Lawful(policy, EMPTY, before + [s]) && Lawful(policy, EMPTY, before)
    requires Told(policy, before, Run(policy, EMPTY, before), {}, 0) && Admissible(Run(policy, EMPTY, before), s)
      && !s.Retain? && s.now == 0
    ensures Run(policy, EMPTY, before).events <= Run(policy, EMPTY, before + [s]).events
  {
    OneMoreStep(policy, EMPTY, before, s, {}, 0);
    hide Apply, Admissible, Lawful, Run;
    StepEvolves(policy, Run(policy, EMPTY, before), s);
  }

  /** A failure-free run with everything delivered, the job cancelled, and the whole gross
      of 360 still reserved. */
  lemma LateApprovalStaysReserved(policy: Policy) returns (run: seq<SysStep>)
    ensures Calm(policy, START, run, 0) && LawfulSys(policy, START, run) && Quiet(RunSys(policy, START, run))
    ensures var db := RunSys(policy, START, run).db;
      JOB in db.jobs && db.jobs[JOB].status.Cancelled? && Summarise(EntriesOf(db.ledger, JOB)).authorisedCents == 360
  {
    var steps := CancelledStory(policy);
    hide Lawful, Run, LawfulSys, RunSys, Calm, Quiet, MovedOf, Happened, ApprovedFirst, Summarise, EntriesOf, SysInv;
    run := WorkOff(policy, steps);
    var sys := RunSys(policy, START, run);
    SettledWhenQuiet(policy, run, JOB);
    StartInv();
    RunSysKeeps(policy, START, run);
    SummaryOfJob(sys, JOB, 360);
  }

  // ---------------------------------------------------------------- completions

  /** Nothing is held yet and every open completion message is in the batch in hand. */
  ghost predicate Unheld(sys: Sys) {
    && SysInv(sys) && QueueGood(sys) && sys.db.ledger == []
    && (sys.worker.Busy? ==> sys.worker.phase.AtStart?)
    && OpenInHand(sys.db.outbox, if sys.worker.Busy? then sys.worker.batch else [])
  }

  ghost predicate OpenInHand(outbox: seq<Row>, batch: seq<Row>) {
    forall r :: r in outbox && r.event.JobCompleted? && r.Open() ==> r.id in RowIds(batch)
  }

  /** Without a hold every handler but that of an approval is through at once. */
  lemma GoBegins(sys: Sys)
    requires sys.worker.Busy? && sys.worker.batch != [] && sys.worker.phase.AtStart?
    requires sys.db.ledger == [] && !sys.worker.batch[0].event.QuoteApproved?
    ensures Advance(sys, 0) == Turn(sys, Finished)
  {
  }

  lemma UpdateInHand(outbox: seq<Row>, k: nat, row: Row, batch: seq<Row>)
    requires IdsDiffer(outbox) && k < |outbox| && batch != [] && outbox[k].id == batch[0].id
    requires OpenInHand(outbox, batch) && !(row.event.JobCompleted? && row.Open())
    ensures OpenInHand(outbox[k := row], batch[1..])
  {
    var b := outbox[k := row];
    forall r | r in b && r.event.JobCompleted? && r.Open() ensures r.id in RowIds(batch[1..]) {
      var i :| 0 <= i < |b| && b[i] == r;
      assert i != k && outbox[i] in outbox && r.id != outbox[k].id;
      var m :| m in batch && m.id == r.id;
      assert m in batch[1..];
    }
  }

  lemma SettleInHand(sys: Sys, now: int)
    requires QueueGood(sys) && Inv(sys.db) && sys.worker.Busy? && sys.worker.batch != []
    requires OpenInHand(sys.db.outbox, sys.worker.batch)
    requires sys.worker.phase.Finished? || (sys.worker.phase.Thrown? && sys.worker.batch[0].event.QuoteApproved?)
    ensures OpenInHand(Settle(sys, now).db.outbox, sys.worker.batch[1..])
  {
    hide Inv, QueueGood, Settle, OpenInHand, IdsDiffer, RetryAt;
    OutboxIdsDiffer(sys.db);
    var k := SettleEffect(sys, now);
    var m, row := sys.worker.batch[0], sys.db.outbox[k];
    UpdateInHand(sys.db.outbox, k,
                 if sys.worker.phase.Thrown? then Failed(row, RetryAt(m, now))
                 else Delivered(row, now), sys.worker.batch);
  }

  lemma SettleUnheld(sys: Sys, now: int)
    requires SysInv(sys) && QueueGood(sys) && sys.db.ledger == [] && sys.worker.Busy? && sys.worker.batch != []
    requires OpenInHand(sys.db.outbox, sys.worker.batch)
    requires sys.worker.phase.Finished? || (sys.worker.phase.Thrown? && sys.worker.batch[0].event.QuoteApproved?)
    ensures Unheld(Settle(sys, now)) && Settle(sys, now).db.events == sys.db.events
    ensures Settle(sys, now).worker == NextMessage(sys.worker.batch)
  {
    InvOf(sys);
    hide SysInv, QueueGood, OpenInHand, Inv, Settle;
    SettleInHand(sys, now);
    SettleKeeps(sys, now);
    SettleKeepsQueue(sys, now);
    SettleParts(sys, now);
    NoneInHand(Settle(sys, now).db.outbox, sys.worker.batch);
  }

  lemma NoneInHand(outbox: seq<Row>, batch: seq<Row>)
    requires batch != []
    ensures |batch| == 1 ==> batch[1..] == []
  {
  }

  lemma KeepsBoth(policy: Policy, sys: Sys, s: SysStep)
    requires SysInv(sys) && QueueGood(sys) && Enabled(sys, s)
    ensures SysInv(Do(policy, sys, s)) && QueueGood(Do(policy, sys, s))
  {
    InvOf(sys);
    hide SysInv, QueueGood, Inv, Do, Enabled;
    SysStepKeeps(policy, sys, s);
    QueueStepKeeps(policy, sys, s);
  }

  /** The message in hand fails if it is an approval, and is through otherwise. */
  lemma FirstHalf(policy: Policy, sys: Sys) returns (s: SysStep)
    requires sys.worker.Busy? && sys.worker.batch != [] && sys.worker.phase.AtStart? && sys.db.ledger == []
    ensures Enabled(sys, s)
      && Do(policy, sys, s) == Turn(sys, if sys.worker.batch[0].event.QuoteApproved? then Thrown else Finished)
  {
    s := if sys.worker.batch[0].event.QuoteApproved? then Fail else Go(0);
    hide Advance;
    if s.Go? { GoBegins(sys); }
  }

  lemma TwoSteps(policy: Policy, sys: Sys, s: SysStep, t: SysStep)
    requires Enabled(sys, s) && Enabled(Do(policy, sys, s), t)
    ensures LawfulSys(policy, sys, [s, t]) && RunSys(policy, sys, [s, t]) == Do(policy, Do(policy, sys, s), t)
  {
    hide Enabled, Do;
    assert [s, t][1..] == [t] && [t][1..] == [];
    assert LawfulSys(policy, Do(policy, sys, s), [t]);
    assert RunSys(policy, sys, [s, t]) == RunSys(policy, Do(policy, sys, s), [t]);
    assert RunSys(policy, Do(policy, sys, s), [t]) == RunSys(policy, Do(policy, Do(policy, sys, s), t), []);
  }

  lemma SkipOne(policy: Policy, sys: Sys) returns (steps: seq<SysStep>)
    requires Unheld(sys) && sys.worker.Busy? && sys.worker.batch != []
    ensures LawfulSys(policy, sys, steps)
    ensures var end := RunSys(policy, sys, steps);
      Unheld(end) && end.db.events == sys.db.events && end.worker == NextMessage(sys.worker.batch)
  {
    hide SysInv, QueueGood, OpenInHand, Settle, LawfulSys, RunSys;
    var s := FirstHalf(policy, sys);
    steps := [s, Go(0)];
    KeepsBoth(policy, sys, s) by { hide Do, Enabled, Unheld; }
    var mid := Turn(sys, if sys.worker.batch[0].event.QuoteApproved? then Thrown else Finished);
    SettleUnheld(mid, 0);
    assert Do(policy, mid, Go(0)) == Settle(mid, 0);
    hide Do, Enabled;
    TwoSteps(policy, sys, s, Go(0));
  }

  lemma {:induction false} SkipAll(policy: Policy, sys: Sys) returns (steps: seq<SysStep>)
    requires Unheld(sys)
    ensures LawfulSys(policy, sys, steps)
    ensures var end := RunSys(policy, sys, steps); Unheld(end) && end.db.events == sys.db.events && end.worker.Idle?
    decreases if sys.worker.Busy? then |sys.worker.batch| else 0
  {
    if sys.worker.Idle? {
      steps := [];
    } else {
      assert sys.worker.batch != [];
      hide Unheld, LawfulSys, RunSys;
      var first := SkipOne(policy, sys);
      var rest := SkipAll(policy, RunSys(policy, sys, first));
      RunConcat(policy, sys, first, rest, BLANK);
      steps := first + rest;
    }
  }

  /** A claim of the whole queue has every open message in hand. */
  lemma ClaimsInHand(sys: Sys, clock: int)
    requires Orderly(sys, clock) && sys.worker.Idle?
    ensures var (outbox, batch) := ClaimOutbox(sys.db.outbox, clock, |Undelivered(sys.db.outbox)|);
      OpenInHand(outbox, batch)
  {
    var waiting := Undelivered(sys.db.outbox);
    hide Undelivered, DueBatch;
    DueIsFront(sys.db.outbox, waiting, clock, clock, |waiting|);
    assert DueBatch(sys.db.outbox, clock, |waiting|) == waiting;
    LeasedInHand(sys.db.outbox, waiting, clock);
  }

  lemma LeasedInHand(outbox: seq<Row>, waiting: seq<Row>, clock: int)
    requires RowsCalm(outbox, clock) && waiting == Undelivered(outbox)
    ensures var ids, until := RowIds(waiting), clock + CLAIM_LEASE_MS;
      OpenInHand(LeaseAll(outbox, ids, until), LeaseAll(waiting, ids, until))
  {
    assert forall r :: r in outbox && r.Open() ==> r in waiting;
    hide RowsCalm, Undelivered, LeaseAll;
    var ids, until := RowIds(waiting), clock + CLAIM_LEASE_MS;
    var a, b := LeaseAll(outbox, ids, until), LeaseAll(waiting, ids, until);
    forall r | r in a && r.Open() ensures r.id in RowIds(b) {
      var i :| 0 <= i < |a| && a[i] == r;
      assert outbox[i] in outbox && outbox[i] in waiting;
      var k :| 0 <= k < |waiting| && waiting[k] == outbox[i];
      assert b[k] in b && b[k].id == r.id;
    }
  }

  lemma ClaimUnheld(policy: Policy, sys: Sys, clock: int)
    requires sys.worker.Idle? && CalmInv(sys, clock) && sys.db.ledger == []
    ensures var sys' := Do(policy, sys, Claim(clock, |Undelivered(sys.db.outbox)|));
      Unheld(sys') && sys'.db.events == sys.db.events
  {
    var s := Claim(clock, |Undelivered(sys.db.outbox)|);
    PartsOfCalm(sys, clock);
    ClaimsInHand(sys, clock) by { hide CalmInv; }
    hide Undelivered, Orderly, ClaimOutbox, OpenInHand, SysInv, QueueGood;
    KeepsBoth(policy, sys, s) by { hide Do; }
  }

  lemma NoneOpenIsOver(sys: Sys, j: Id)
    requires Unheld(sys) && sys.worker.Idle? && Happened(sys.db.events, j, JobCompleted)
    ensures Over(sys.db, Errand(j, JobCompleted)) && MovedOf(sys.db.ledger, j).holds == 0
  {
    hide SysInv, QueueGood, Happened;
    forall r | r in sys.db.outbox && ErrandOf(r) == Errand(j, JobCompleted) ensures Final(r) {
      assert r.Open() ==> r.id in RowIds([]);
    }
  }

  /** Whatever requests complete a job, one failed delivery is enough: there is a run in which the
      completion is delivered with nothing held, so that it is never captured. */
  lemma CompletionCanGoUnheld(policy: Policy, steps: seq<Step>, j: Id) returns (run: seq<SysStep>)
    requires Lawful(policy, EMPTY, steps) && Timely(steps, 0)
    requires var db := Run(policy, EMPTY, steps); j in db.jobs && db.jobs[j].status.Completed?
    ensures LawfulSys(policy, START, run)
    ensures var db := RunSys(policy, START, run).db;
      Over(db, Errand(j, JobCompleted)) && MovedOf(db.ledger, j).holds == 0
  {
    hide Lawful, Run, LawfulSys, RunSys, CalmInv, Unheld, Happened, Over, MovedOf, Apis, Timely, Undelivered, Do,
      Enabled;
    var clock := RequestsCalm(policy, steps, j);
    var sys := RunSys(policy, START, Apis(steps));
    var s := Claim(clock, |Undelivered(sys.db.outbox)|);
    ClaimUnheld(policy, sys, clock);
    assert Enabled(sys, s) by { ClaimEnabled(sys, s); }
    var rest := SkipAll(policy, Do(policy, sys, s));
    NoneOpenIsOver(RunSys(policy, Do(policy, sys, s), rest), j);
    OneThenRest(policy, sys, s, rest);
    RunConcat(policy, START, Apis(steps), [s] + rest, BLANK);
    run := Apis(steps) + ([s] + rest);
  }

  lemma ClaimEnabled(sys: Sys, s: SysStep)
    requires sys.worker.Idle? && s.Claim?
    ensures Enabled(sys, s)
  {
  }

  lemma RequestsCalm(policy: Policy, steps: seq<Step>, j: Id) returns (clock: int)
    requires Lawful(policy, EMPTY, steps) && Timely(steps, 0)
    requires var db := Run(policy, EMPTY, steps); j in db.jobs && db.jobs[j].status.Completed?
    ensures LawfulSys(policy, START, Apis(steps))
    ensures var sys := RunSys(policy, START, Apis(steps));
      CalmInv(sys, clock) && sys.worker.Idle? && sys.db.ledger == [] && Happened(sys.db.events, j, JobCompleted)
  {
    ApiRun(policy, START, steps, 0, BLANK);
    CalmStart();
    ReachableInv(policy, steps);
    RunEvolves(policy, EMPTY, steps);
    hide Lawful, Run, LawfulSys, RunSys, Calm, CalmInv, Inv, Happened, Apis, Timely, JobsEvolve, QuotesEvolve,
      OffersEvolve, AssignmentsEvolve;
    StatusHappened(Run(policy, EMPTY, steps), j);
    clock := CalmRun(policy, START, 0, Apis(steps));
  }

  lemma OneThenRest(policy: Policy, sys: Sys, s: SysStep, rest: seq<SysStep>)
    requires Enabled(sys, s) && LawfulSys(policy, Do(policy, sys, s), rest)
    ensures LawfulSys(policy, sys, [s] + rest)
      && RunSys(policy, sys, [s] + rest) == RunSys(policy, Do(policy, sys, s), rest)
  {
    hide Enabled, Do;
    assert ([s] + rest)[1..] == rest;
  }

  /** Such requests exist. */
  lemma UnpaidCompletion(policy: Policy) returns (run: seq<SysStep>)
    ensures LawfulSys(policy, START, run)
    ensures var db := RunSys(policy, START, run).db;
      JOB in db.jobs && Over(db, Errand(JOB, JobCompleted)) && MovedOf(db.ledger, JOB).holds == 0
  {
    var steps := AssignedStory(policy);
    steps := CompletedStory(policy, steps, [Taken(TO_ANN)], [Deal(TO_ANN, Active)]);
    hide Lawful, Run, LawfulSys, RunSys, Over, MovedOf, SysInv;
    run := CompletionCanGoUnheld(policy, steps, JOB);
    StartInv();
    RunSysKeeps(policy, START, run);
    OverTells(RunSys(policy, START, run), JOB, JobCompleted);
  }
}
