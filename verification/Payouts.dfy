/** Whether what a provider is paid is what was agreed with it. */
module Payouts {
  import opened Contracts
  import opened Counting
  import opened OutboxKeys
  import opened Db
  import opened Dispatch
  import opened Machine
  import opened Tallies
  import opened Invariants
  import opened Preservation
  import opened Evolution
  import opened System
  import opened Queue
  import opened Money
  import opened Claims
  import opened Sweep
  import opened Deals

  predicate NeverFell(events: seq<Event>, j: Id) {
    forall e :: e in events ==> !(e.jobId == j && e.kind.AssignmentFellThrough?)
  }

  // ------------------------------------------------- what the run has seen so far

  /** What matters of a run for its payouts: the offers accepted again too late so far, those
      at the time the payout in hand was priced, and those at the time the payout on
      the ledger was priced. */
  datatype Memo = Memo(late: set<nat>, priced: set<nat>, paid: map<Id, set<nat>>)

  const BLANK: Memo := Memo({}, {}, map[])

  function GoMemo(sys: Sys, memo: Memo): Memo
    requires sys.worker.Busy? && sys.worker.batch != []
  {
    if sys.worker.phase.PayoutTo? then memo.(priced := memo.late)
    else if sys.worker.phase.PayoutSent? then memo.(paid := memo.paid[sys.worker.batch[0].jobId := memo.priced])
    else memo
  }

  function NextMemo(policy: Policy, sys: Sys, s: SysStep, memo: Memo): Memo
    requires Enabled(sys, s)
  {
    match s
    case Api(step) => memo.(late := LateAfter(policy, sys.db, step, memo.late))
    case Go(_) => GoMemo(sys, memo)
    case _ => memo
  }

  function MemoOf(policy: Policy, sys: Sys, steps: seq<SysStep>, memo: Memo): Memo
    requires LawfulSys(policy, sys, steps)
    decreases |steps|
  {
    if steps == [] then memo
    else MemoOf(policy, Do(policy, sys, steps[0]), steps[1..], NextMemo(policy, sys, steps[0], memo))
  }

  // ----------------------------------------------------------- what gets paid

  /** Offer i of the job became an assignment and was not accepted again too late. */
  ghost predicate Standing(db: Db, late: set<nat>, j: Id, i: nat) {
    i < |db.offers| && db.offers[i].jobId == j && Engaged(db.assignments, db.offers[i]) && i !in late
  }

  /** The first such offer, or the number of offers. */
  ghost function FirstStanding(db: Db, late: set<nat>, j: Id, from: nat): (k: nat)
    requires from <= |db.offers|
    ensures from <= k <= |db.offers| && (k < |db.offers| ==> Standing(db, late, j, k))
    ensures forall i :: from <= i < k ==> !Standing(db, late, j, i)
    decreases |db.offers| - from
  {
    if from == |db.offers| || Standing(db, late, j, from) then from else FirstStanding(db, late, j, from + 1)
  }

  /** The sum due: the payout of the first offer that stands, or without one the share. */
  ghost function SumDue(db: Db, late: set<nat>, j: Id, gross: int): int {
    var k := FirstStanding(db, late, j, 0);
    if k < |db.offers| then db.offers[k].payoutNetCents else ProviderShare(gross)
  }

  ghost predicate PaidExactly(db: Db, j: Id, late: set<nat>, cents: int) {
    && j in db.jobs && db.jobs[j].status.Completed? && ApprovedGross(db.quotes, j).Some?
    && cents == SumDue(db, late, j, ApprovedGross(db.quotes, j).value)
  }

  ghost predicate MemoGood(policy: Policy, memo: Memo) {
    && memo.priced <= memo.late && (forall j :: j in memo.paid ==> memo.paid[j] <= memo.late)
    && (policy.RollsBack? ==> memo.late == {})
  }

  ghost predicate LedgerPaid(db: Db, paid: map<Id, set<nat>>) {
    forall e :: e in db.ledger && e.kind.Payout? ==>
      e.jobId in paid && PaidExactly(db, e.jobId, paid[e.jobId], -e.amountCents)
  }

  ghost predicate PhasePaid(sys: Sys, memo: Memo) {
    sys.worker.Busy? && sys.worker.batch != [] ==>
      var p, j := sys.worker.phase, sys.worker.batch[0].jobId;
      && (p.PayoutPriced? ==> PaidExactly(sys.db, j, memo.priced, p.cents))
      && (p.PayoutSent? ==> PaidExactly(sys.db, j, memo.priced, p.cents))
  }

  ghost predicate PayoutsGood(policy: Policy, sys: Sys, memo: Memo) {
    && Agreed(sys.db, memo.late) && MemoGood(policy, memo)
    && LedgerPaid(sys.db, memo.paid) && PhasePaid(sys, memo)
  }

  /** A completed job has exactly one assignment if it never fell through. */
  lemma CompletedAssignment(db: Db, j: Id) returns (i: nat)
    requires Inv(db) && j in db.jobs && db.jobs[j].status.Completed?
    ensures i < |db.assignments| && db.assignments[i].jobId == j && db.assignments[i].status.Active?
    ensures NeverFell(db.events, j) ==> Count(db.assignments, EngagedOn(j)) == 1
  {
    hide Core;
    assert Good(TallyOf(db, j));
    i := CountWitness(db.assignments, ActiveOn(j));
    if NeverFell(db.events, j) { CountSame([], db.events, KindOf(j, AssignmentFellThrough)); }
  }

  // ------------------------------------------------------------------ requests

  /** Nothing changes about which offers of the job became assignments. */
  ghost predicate DealKept(db: Db, db': Db, j: Id) {
    && |db.offers| <= |db'.offers|
    && (forall i :: 0 <= i < |db.offers| ==>
          && db'.offers[i] == db.offers[i].(status := db'.offers[i].status)
          && (db.offers[i].jobId == j ==>
                (Engaged(db'.assignments, db'.offers[i]) <==> Engaged(db.assignments, db.offers[i]))))
    && (forall i :: |db.offers| <= i < |db'.offers| ==> !Engaged(db'.assignments, db'.offers[i]))
  }

  lemma SameDealKept(db: Db, db': Db, j: Id)
    requires forall a :: a in db.assignments ==> Offered(db.offers, a)
    requires SameDeal(db, db') && AskedOnce(db'.offers)
    ensures DealKept(db, db', j)
  {
    forall i | 0 <= i < |db.offers|
      ensures Engaged(db'.assignments, db'.offers[i]) <==> Engaged(db.assignments, db.offers[i])
    {
      SameEngaged(db, db', i);
    }
    forall i | |db.offers| <= i < |db'.offers| ensures !Engaged(db'.assignments, db'.offers[i]) {
      NewIsNotEngaged(db, db', i);
    }
  }

  lemma RefusedDealKept(policy: Policy, db: Db, s: Step, j: Id)
    requires s.Accept? && AcceptOffer(db, s.offerId, s.providerId, s.now).reply.Refused?
    ensures DealKept(db, Apply(policy, db, s), j)
  {
    var db' := Apply(policy, db, s);
    RefusedCloses(policy, db, s);
    hide Apply, AcceptOffer, OfferIndex;
    forall i | 0 <= i < |db.offers|
      ensures Engaged(db'.assignments, db'.offers[i]) <==> Engaged(db.assignments, db.offers[i])
    {
      SameEngaged(db, db', i);
    }
  }

  lemma CommitDealKept(db: Db, k: nat, now: int, j: Id)
    requires k < |db.offers| && db.offers[k].jobId in db.jobs && db.offers[k].jobId != j && AskedOnce(db.offers)
    ensures DealKept(db, Commit(db, k, now), j)
  {
    var offer, db' := db.offers[k], Commit(db, k, now);
    var a := Assignment(offer.jobId, offer.providerId, Active, offer.payoutNetCents);
    var won := db.offers[k := offer.(status := Accepted)];
    assert db'.assignments == db.assignments + [a] && db'.offers == Withdraw(won, offer.jobId, offer.id) by {
      hide RecordEvent;
    }
    hide Commit, Engaged;
    forall i | 0 <= i < |db.offers| && db.offers[i].jobId == j
      ensures Engaged(db'.assignments, db'.offers[i]) <==> Engaged(db.assignments, db.offers[i])
    {
      NewlyEngaged(db.offers, db.assignments, k, a, db'.offers[i], i);
    }
  }

  lemma StepDealKept(policy: Policy, db: Db, s: Step, j: Id)
    requires (forall a :: a in db.assignments ==> Offered(db.offers, a)) && Admissible(db, s)
    requires AskedOnce(db.offers) && AskedOnce(Apply(policy, db, s).offers)
    requires j in db.jobs && db.jobs[j].status.Completed?
    ensures DealKept(db, Apply(policy, db, s), j)
  {
    hide DealKept, AskedOnce;
    if s.Accept? {
      if AcceptOffer(db, s.offerId, s.providerId, s.now).reply.Done? {
        CommitDealKept(db, OfferIndex(db.offers, s.offerId), s.now, j) by { hide Commit; }
        hide Commit;
      } else {
        hide AcceptOffer, Apply;
        RefusedDealKept(policy, db, s, j);
      }
    } else {
      hide Apply, Admissible;
      OnlyAcceptAccepts(policy, db, s);
      SameDealKept(db, Apply(policy, db, s), j);
    }
  }

  lemma SumDueStays(db: Db, db': Db, late: set<nat>, j: Id, gross: int)
    requires DealKept(db, db', j)
    ensures SumDue(db', late, j, gross) == SumDue(db, late, j, gross)
  {
    hide Engaged, FirstStanding;
    forall i | 0 <= i < |db.offers| ensures Standing(db', late, j, i) <==> Standing(db, late, j, i) { }
    forall i | |db.offers| <= i < |db'.offers| ensures !Standing(db', late, j, i) { }
    var k, k' := FirstStanding(db, late, j, 0), FirstStanding(db', late, j, 0);
  }

  lemma PaidEvolves(policy: Policy, db: Db, s: Step, j: Id, late: set<nat>, cents: int)
    requires Inv(db) && Admissible(db, s) && (forall a :: a in db.assignments ==> Offered(db.offers, a))
    requires PaidExactly(db, j, late, cents)
    ensures PaidExactly(Apply(policy, db, s), j, late, cents)
  {
    var db' := Apply(policy, db, s);
    hide Apply, Admissible, ApprovedGross, SumDue, Offered, QuotesEvolve, OffersEvolve, AssignmentsEvolve, AskedOnce,
      DealKept,
      JobsGood, Refs, OutboxOk;
    StepKeeps(policy, db, s);
    StepEvolves(policy, db, s);
    StepDealKept(policy, db, s, j);
    GrossStays(policy, db, db', j);
    SumDueStays(db, db', late, j, ApprovedGross(db.quotes, j).value);
  }

  /** What was paid exactly stays so. */
  ghost predicate Carries(db: Db, db': Db) {
    forall j, late, cents :: PaidExactly(db, j, late, cents) ==> PaidExactly(db', j, late, cents)
  }

  lemma ApiCarries(policy: Policy, db: Db, s: Step)
    requires Inv(db) && Admissible(db, s) && (forall a :: a in db.assignments ==> Offered(db.offers, a))
    ensures Carries(db, Apply(policy, db, s))
  {
    hide Inv, Admissible, Apply, PaidExactly, Offered;
    forall j, late, cents | PaidExactly(db, j, late, cents) ensures PaidExactly(Apply(policy, db, s), j, late, cents) {
      PaidEvolves(policy, db, s, j, late, cents);
    }
  }

  lemma CarriedPays(policy: Policy, sys: Sys, sys': Sys, memo: Memo, memo': Memo)
    requires PayoutsGood(policy, sys, memo) && Carries(sys.db, sys'.db) && Agreed(sys'.db, memo'.late)
    requires sys'.db.ledger == sys.db.ledger && MemoGood(policy, memo')
    requires memo'.priced == memo.priced && memo'.paid == memo.paid
    requires sys'.worker == sys.worker || sys'.worker.Idle? || sys'.worker.phase.AtStart? || sys'.worker.phase.Thrown?
    ensures PayoutsGood(policy, sys', memo')
  {
    hide Agreed, PaidExactly, MemoGood;
  }

  lemma LateGrows(policy: Policy, sys: Sys, s: Step, memo: Memo)
    requires MemoGood(policy, memo)
    ensures MemoGood(policy, memo.(late := LateAfter(policy, sys.db, s, memo.late)))
  {
    hide Reaccepts;
  }

  lemma KeepsAskedOnce(policy: Policy, db: Db, s: Step)
    requires Inv(db) && Admissible(db, s)
    ensures AskedOnce(db.offers) && AskedOnce(Apply(policy, db, s).offers)
  {
    hide JobsGood, Refs, OutboxOk, AskedOnce, Apply, Admissible;
    StepKeeps(policy, db, s);
  }

  lemma ApiPays(policy: Policy, sys: Sys, s: Step, memo: Memo)
    requires SysInv(sys) && PayoutsGood(policy, sys, memo) && Admissible(sys.db, s)
    ensures PayoutsGood(policy, Do(policy, sys, Api(s)), NextMemo(policy, sys, Api(s), memo))
  {
    InvOf(sys);
    hide SysInv, Inv, Agreed, Apply, Admissible, Carries, LedgerPaid, PhasePaid, MemoGood, LateAfter, AskedOnce,
      Offered;
    AllOffered(sys.db, memo.late);
    KeepsAskedOnce(policy, sys.db, s);
    StepAgreed(policy, sys.db, s, memo.late);
    ApiCarries(policy, sys.db, s);
    LedgerUntouched(policy, sys.db, s);
    LateGrows(policy, sys, s, memo);
    hide PayoutsGood;
    CarriedPays(policy, sys, Do(policy, sys, Api(s)), memo, NextMemo(policy, sys, Api(s), memo));
  }

  lemma LedgerUntouched(policy: Policy, db: Db, s: Step)
    requires Admissible(db, s)
    ensures Apply(policy, db, s).ledger == db.ledger
  {
    hide Apply, Admissible;
    StepEvolves(policy, db, s);
  }

  lemma AllOffered(db: Db, late: set<nat>)
    requires Agreed(db, late)
    ensures forall a :: a in db.assignments ==> Offered(db.offers, a)
  {
  }

  // -------------------------------------------------------------- micro-steps

  /** At most one entry of the job in hand was added, a payout only of the sum decided on. */
  ghost predicate OneMore(sys: Sys, ledger: seq<Entry>)
    requires sys.worker.Busy? && sys.worker.batch != []
  {
    || ledger == sys.db.ledger
    || exists e :: && ledger == sys.db.ledger + [e] && e.jobId == sys.worker.batch[0].jobId
                   && (e.kind.Payout? ==> sys.worker.phase.PayoutSent? && e.amountCents == -sys.worker.phase.cents)
  }

  /** How a micro-step changes what matters here. */
  ghost predicate Shape(sys: Sys, sys': Sys)
    requires sys.worker.Busy? && sys.worker.batch != []
  {
    var p, j := sys.worker.phase, sys.worker.batch[0].jobId;
    && sys'.db == sys.db.(ledger := sys'.db.ledger, outbox := sys'.db.outbox)
    && OneMore(sys, sys'.db.ledger)
    && (sys'.worker.Busy? && !sys'.worker.phase.AtStart? ==> sys'.worker.batch == sys.worker.batch)
    && (sys'.worker.Busy? && sys'.worker.phase.PayoutPriced? ==>
          p.PayoutTo? && sys'.worker.phase.cents == PayoutCents(sys.db.offers, j, p.hold))
    && (sys'.worker.Busy? && sys'.worker.phase.PayoutSent? ==> p.PayoutPriced? && sys'.worker.phase.cents == p.cents)
  }

  lemma TurnShape(sys: Sys, holds: map<Reference, int>, q: Phase)
    requires sys.worker.Busy? && sys.worker.batch != []
    requires var p, j := sys.worker.phase, sys.worker.batch[0].jobId;
      && (q.PayoutPriced? ==> p.PayoutTo? && q.cents == PayoutCents(sys.db.offers, j, p.hold))
      && (q.PayoutSent? ==> p.PayoutPriced? && q.cents == p.cents)
    ensures Shape(sys, Turn(sys.(holds := holds), q))
    ensures sys.(holds := sys.holds) == sys
  {
    hide PayoutCents;
  }

  lemma WriteShape(sys: Sys, e: Entry, next: Phase)
    requires sys.worker.Busy? && sys.worker.batch != [] && e.jobId == sys.worker.batch[0].jobId
    requires e.kind.Payout? ==> sys.worker.phase.PayoutSent? && e.amountCents == -sys.worker.phase.cents
    requires !next.PayoutPriced? && !next.PayoutSent?
    ensures Shape(sys, Write(sys, e, next))
  {
    assert AppendEntries(sys.db.ledger, [e]) ==
      if Writable(e) then (sys.db.ledger + [e], Done) else (sys.db.ledger, Refused(ValidationError)) by {
      assert [e][1..] == [];
    }
    hide AppendEntries, Writable, PayoutCents;
  }

  lemma SettleShape(sys: Sys, now: int)
    requires sys.worker.Busy? && sys.worker.batch != []
    ensures Shape(sys, Settle(sys, now))
  {
    hide MarkDelivered, MarkFailed, PayoutCents;
  }

  lemma PayoutShape(sys: Sys)
    requires sys.worker.Busy? && sys.worker.batch != []
    requires var p := sys.worker.phase; p.PayoutWanted? || p.PayoutTo? || p.PayoutPriced? || p.PayoutSent?
    ensures Shape(sys, AdvancePayout(sys))
  {
    var j := sys.worker.batch[0].jobId;
    hide Shape, Turn, Write, PayoutCents, PayoutKey, ActiveIndex;
    match sys.worker.phase
    case PayoutWanted(hold) =>
      var k := ActiveIndex(sys.db.assignments, j);
      TurnShape(sys, sys.holds,
                if k == |sys.db.assignments| then Finished else PayoutTo(hold, sys.db.assignments[k].providerId));
    case PayoutTo(hold, p) => TurnShape(sys, sys.holds, PayoutPriced(p, PayoutCents(sys.db.offers, j, hold)));
    case PayoutPriced(p, cents) =>
      TurnShape(sys, sys.holds, if cents <= 0 then Thrown else PayoutSent(cents, Reference("payout", PayoutKey(j, p))));
    case PayoutSent(cents, r) => WriteShape(sys, Entry(j, Payout, -cents, Some(r)), Finished);
  }

  lemma HoldShape(sys: Sys)
    requires sys.worker.Busy? && sys.worker.batch != []
    requires sys.worker.phase.HoldWanted? || sys.worker.phase.HoldPriced? || sys.worker.phase.HoldPlaced?
    ensures Shape(sys, AdvanceHold(sys))
  {
    var j := sys.worker.batch[0].jobId;
    hide Shape, Turn, Write, Authorise, ApprovedGross, AuthReference;
    match sys.worker.phase
    case HoldWanted =>
      var gross := ApprovedGross(sys.db.quotes, j);
      TurnShape(sys, sys.holds, if gross.None? then Finished else HoldPriced(gross.value));
    case HoldPriced(gross) =>
      var holds := Authorise(sys.holds, j, gross);
      if holds.None? { TurnShape(sys, sys.holds, Thrown); }
      else { TurnShape(sys, holds.value, HoldPlaced(gross, AuthReference(j))); }
    case HoldPlaced(gross, r) => WriteShape(sys, Entry(j, Authorisation, gross, Some(r)), Finished);
  }

  lemma CaptureShape(sys: Sys)
    requires sys.worker.Busy? && sys.worker.batch != []
    requires sys.worker.phase.CaptureSeen? || sys.worker.phase.CaptureTaken?
    ensures Shape(sys, AdvanceCapture(sys))
  {
    var j := sys.worker.batch[0].jobId;
    hide Shape, Turn, Write, Capturable, CaptureReference, HoldReference;
    match sys.worker.phase
    case CaptureSeen(hold, captured, paid) =>
      TurnShape(sys, sys.holds,
                if captured then (if paid then Finished else PayoutWanted(hold))
                else if Capturable(sys.holds, HoldReference(hold), hold.amountCents)
                then CaptureTaken(hold, paid, CaptureReference(hold)) else Thrown);
    case CaptureTaken(hold, paid, r) =>
      WriteShape(sys, Entry(j, Capture, hold.amountCents, Some(r)), if paid then Finished else PayoutWanted(hold));
  }

  lemma BeginShape(sys: Sys)
    requires sys.worker.Busy? && sys.worker.batch != []
    ensures Shape(sys, Turn(sys, Begin(sys.db.ledger, sys.worker.batch[0])))
  {
    hide Shape, Turn, FirstOf, Recorded;
    TurnShape(sys, sys.holds, Begin(sys.db.ledger, sys.worker.batch[0]));
  }

  lemma GoShape(sys: Sys, now: int)
    requires sys.worker.Busy? && sys.worker.batch != []
    ensures Shape(sys, Advance(sys, now))
  {
    hide Shape, Turn, Begin, AdvanceHold, AdvanceCapture, AdvancePayout, AdvanceRelease, Settle;
    var p := sys.worker.phase;
    if p.AtStart? { BeginShape(sys); }
    else if p.HoldWanted? || p.HoldPriced? || p.HoldPlaced? { HoldShape(sys); }
    else if p.CaptureSeen? || p.CaptureTaken? { CaptureShape(sys); }
    else if p.PayoutWanted? || p.PayoutTo? || p.PayoutPriced? || p.PayoutSent? { PayoutShape(sys); }
    else if p.ReleaseSeen? {
      WriteShape(sys, Entry(sys.worker.batch[0].jobId, AuthorisationVoid, -p.hold.amountCents, p.hold.reference),
                 Finished) by { hide Write; }
      assert AdvanceRelease(sys) ==
        Write(sys, Entry(sys.worker.batch[0].jobId, AuthorisationVoid, -p.hold.amountCents, p.hold.reference),
              Finished) by {
        ReleaseWrites(sys);
      }
    }
    else { SettleShape(sys, now); }
  }

  lemma ReleaseWrites(sys: Sys)
    requires sys.worker.Busy? && sys.worker.batch != [] && sys.worker.phase.ReleaseSeen?
    ensures var hold := sys.worker.phase.hold;
      AdvanceRelease(sys) ==
        Write(sys, Entry(sys.worker.batch[0].jobId, AuthorisationVoid, -hold.amountCents, hold.reference), Finished)
  {
    hide Write;
  }

  /** With the record kept by Agreed the handler finds exactly the first offer that stands. */
  lemma FirstAcceptedStands(db: Db, late: set<nat>, j: Id)
    requires Agreed(db, late)
    ensures var k := FirstStanding(db, late, j, 0);
      FirstAccepted(db.offers, j) == if k < |db.offers| then Some(db.offers[k]) else None
  {
    var k := FirstStanding(db, late, j, 0);
    hide Engaged, FirstStanding;
    forall i | 0 <= i < k ensures !(db.offers[i].jobId == j && db.offers[i].status.Accepted?) {
      assert !Standing(db, late, j, i);
    }
    FirstAcceptedAt(db.offers, j, k);
  }

  lemma {:induction false} FirstAcceptedAt(offers: seq<Offer>, j: Id, k: nat)
    requires k <= |offers| && forall i :: 0 <= i < k ==> !(offers[i].jobId == j && offers[i].status.Accepted?)
    requires k < |offers| ==> offers[k].jobId == j && offers[k].status.Accepted?
    ensures FirstAccepted(offers, j) == if k < |offers| then Some(offers[k]) else None
  {
    if k > 0 { FirstAcceptedAt(offers[1..], j, k - 1); }
  }

  lemma PayoutsJob(sys: Sys)
    requires SysInv(sys) && sys.worker.Busy? && sys.worker.batch != [] && sys.worker.phase.PayoutTo?
    ensures var j := sys.worker.batch[0].jobId;
      && j in sys.db.jobs && sys.db.jobs[j].status.Completed?
      && ApprovedGross(sys.db.quotes, j) == Some(sys.worker.phase.hold.amountCents)
  {
    hide SysInv, MovedOf, Projected, MovedSafely, ApprovedGross;
    var j := WorkerJob(sys);
    HoldEntry(sys, j, sys.worker.phase.hold);
  }

  lemma PriceIsExact(sys: Sys, late: set<nat>)
    requires SysInv(sys) && Agreed(sys.db, late) && sys.worker.Busy? && sys.worker.batch != []
      && sys.worker.phase.PayoutTo?
    ensures PaidExactly(sys.db, sys.worker.batch[0].jobId, late,
                        PayoutCents(sys.db.offers, sys.worker.batch[0].jobId, sys.worker.phase.hold))
  {
    hide SysInv, Agreed, FirstAccepted, ApprovedGross, FirstStanding;
    PayoutsJob(sys);
    FirstAcceptedStands(sys.db, late, sys.worker.batch[0].jobId);
  }

  lemma PaidSame(db: Db, db': Db, j: Id, late: set<nat>, cents: int)
    requires db' == db.(ledger := db'.ledger, outbox := db'.outbox)
    ensures PaidExactly(db', j, late, cents) <==> PaidExactly(db, j, late, cents)
    ensures Agreed(db', late) <==> Agreed(db, late)
  {
    if j in db.jobs && ApprovedGross(db.quotes, j).Some? {
      SumSame(db, db', late, j, ApprovedGross(db.quotes, j).value);
    }
  }

  lemma SumSame(db: Db, db': Db, late: set<nat>, j: Id, gross: int)
    requires db'.offers == db.offers && db'.assignments == db.assignments
    ensures SumDue(db', late, j, gross) == SumDue(db, late, j, gross)
  {
    hide FirstStanding;
    assert forall i :: Standing(db', late, j, i) <==> Standing(db, late, j, i);
    var k, k' := FirstStanding(db, late, j, 0), FirstStanding(db', late, j, 0);
  }

  /** There is no payout of the job yet when one is about to be written. */
  lemma NotPaidYet(sys: Sys)
    requires SysInv(sys) && sys.worker.Busy? && sys.worker.batch != [] && sys.worker.phase.PayoutSent?
    ensures forall e :: e in sys.db.ledger && e.kind.Payout? ==> e.jobId != sys.worker.batch[0].jobId
  {
    hide SysInv, Projected;
    var j := WorkerJob(sys);
    assert Count(sys.db.ledger, EntryOf(j, Payout)) == 0;
    hide PhaseGood;
    CountNone(sys.db.ledger, EntryOf(j, Payout));
    forall e | e in sys.db.ledger && e.kind.Payout? ensures e.jobId != j {
      var i :| 0 <= i < |sys.db.ledger| && sys.db.ledger[i] == e;
      assert !EntryOf(j, Payout)(sys.db.ledger[i]);
    }
  }

  lemma LedgerPays(sys: Sys, sys': Sys, memo: Memo, memo': Memo)
    requires LedgerPaid(sys.db, memo.paid) && PhasePaid(sys, memo) && sys.worker.Busy? && sys.worker.batch != []
    requires OneMore(sys, sys'.db.ledger)
    requires forall j, late, cents :: PaidExactly(sys'.db, j, late, cents) <==> PaidExactly(sys.db, j, late, cents)
    requires sys.worker.phase.PayoutSent? ==>
      && memo'.paid == memo.paid[sys.worker.batch[0].jobId := memo.priced]
      && forall e :: e in sys.db.ledger && e.kind.Payout? ==> e.jobId != sys.worker.batch[0].jobId
    requires !sys.worker.phase.PayoutSent? ==> memo'.paid == memo.paid
    ensures LedgerPaid(sys'.db, memo'.paid)
  {
    hide PaidExactly;
  }

  lemma PhasePays(sys: Sys, sys': Sys, memo: Memo, memo': Memo)
    requires PhasePaid(sys, memo) && sys.worker.Busy? && sys.worker.batch != [] && Shape(sys, sys')
    requires forall j, late, cents :: PaidExactly(sys'.db, j, late, cents) <==> PaidExactly(sys.db, j, late, cents)
    requires if sys.worker.phase.PayoutTo? then
               PaidExactly(sys.db, sys.worker.batch[0].jobId, memo'.priced,
                           PayoutCents(sys.db.offers, sys.worker.batch[0].jobId, sys.worker.phase.hold))
             else memo'.priced == memo.priced
    ensures PhasePaid(sys', memo')
  {
    hide PaidExactly, PayoutCents, OneMore;
  }

  lemma ShapeMemo(policy: Policy, sys: Sys, memo: Memo)
    requires MemoGood(policy, memo) && sys.worker.Busy? && sys.worker.batch != []
    ensures MemoGood(policy, GoMemo(sys, memo)) && GoMemo(sys, memo).late == memo.late
  {
  }

  lemma ShapeSame(sys: Sys, sys': Sys)
    requires sys.worker.Busy? && sys.worker.batch != [] && Shape(sys, sys')
    ensures forall j, late, cents :: PaidExactly(sys'.db, j, late, cents) <==> PaidExactly(sys.db, j, late, cents)
    ensures forall late :: Agreed(sys'.db, late) <==> Agreed(sys.db, late)
  {
    assert sys'.db == sys.db.(ledger := sys'.db.ledger, outbox := sys'.db.outbox);
    hide Shape, PaidExactly, Agreed;
    forall j, late, cents
      ensures PaidExactly(sys'.db, j, late, cents) <==> PaidExactly(sys.db, j, late, cents)
    {
      PaidSame(sys.db, sys'.db, j, late, cents);
    }
    forall late ensures Agreed(sys'.db, late) <==> Agreed(sys.db, late) {
      PaidSame(sys.db, sys'.db, "", late, 0);
    }
  }

  lemma GoLedger(sys: Sys, sys': Sys, memo: Memo)
    requires sys.worker.Busy? && sys.worker.batch != []
    requires SysInv(sys) && LedgerPaid(sys.db, memo.paid) && PhasePaid(sys, memo) && Shape(sys, sys')
    ensures LedgerPaid(sys'.db, GoMemo(sys, memo).paid)
  {
    hide SysInv, PhasePaid, LedgerPaid, PaidExactly, OneMore, PayoutCents;
    if sys.worker.phase.PayoutSent? { NotPaidYet(sys); }
    assert OneMore(sys, sys'.db.ledger);
    ShapeSame(sys, sys');
    hide Shape;
    LedgerPays(sys, sys', memo, GoMemo(sys, memo));
  }

  lemma GoPhase(sys: Sys, sys': Sys, memo: Memo)
    requires sys.worker.Busy? && sys.worker.batch != []
    requires SysInv(sys) && Agreed(sys.db, memo.late) && PhasePaid(sys, memo) && Shape(sys, sys')
    ensures PhasePaid(sys', GoMemo(sys, memo))
  {
    hide SysInv, Agreed, PhasePaid, PaidExactly, PayoutCents, Shape;
    if sys.worker.phase.PayoutTo? { PriceIsExact(sys, memo.late); }
    ShapeSame(sys, sys');
    PhasePays(sys, sys', memo, GoMemo(sys, memo));
  }

  lemma GoPays(policy: Policy, sys: Sys, now: int, memo: Memo)
    requires sys.worker.Busy? && sys.worker.batch != []
    requires SysInv(sys) && PayoutsGood(policy, sys, memo)
    ensures PayoutsGood(policy, Advance(sys, now), GoMemo(sys, memo))
  {
    hide SysInv, Advance, Agreed, LedgerPaid, PhasePaid, MemoGood, Shape, GoMemo;
    GoShape(sys, now);
    ShapeMemo(policy, sys, memo);
    ShapeSame(sys, Advance(sys, now));
    GoLedger(sys, Advance(sys, now), memo);
    GoPhase(sys, Advance(sys, now), memo);
  }

  /** A step that leaves everything but the outbox alone and the worker at no payout. */
  lemma RestPays(policy: Policy, sys: Sys, sys': Sys, memo: Memo)
    requires PayoutsGood(policy, sys, memo) && sys'.db == sys.db.(outbox := sys'.db.outbox)
    requires sys'.worker.Idle? || sys'.worker.phase.AtStart? || sys'.worker.phase.Thrown?
    ensures PayoutsGood(policy, sys', memo)
  {
    hide Agreed, PaidExactly, LedgerPaid, PhasePaid, MemoGood;
    forall j, late, cents | PaidExactly(sys.db, j, late, cents) ensures PaidExactly(sys'.db, j, late, cents) {
      PaidSame(sys.db, sys'.db, j, late, cents);
    }
    PaidSame(sys.db, sys'.db, "", memo.late, 0);
    CarriedPays(policy, sys, sys', memo, memo);
  }

  lemma StepPays(policy: Policy, sys: Sys, s: SysStep, memo: Memo)
    requires SysInv(sys) && PayoutsGood(policy, sys, memo) && Enabled(sys, s)
    ensures PayoutsGood(policy, Do(policy, sys, s), NextMemo(policy, sys, s, memo))
  {
    hide SysInv, PayoutsGood, ClaimOutbox, Admissible, Apply, Advance, LateAfter;
    match s
    case Api(step) => ApiPays(policy, sys, step, memo);
    case Go(now) => GoPays(policy, sys, now, memo);
    case Claim(now, limit) => RestPays(policy, sys, Do(policy, sys, s), memo);
    case Fail => RestPays(policy, sys, Do(policy, sys, s), memo);
    case Crash => RestPays(policy, sys, Do(policy, sys, s), memo);
  }

  lemma {:induction false} RunPays(policy: Policy, sys: Sys, steps: seq<SysStep>, memo: Memo)
    requires SysInv(sys) && PayoutsGood(policy, sys, memo) && LawfulSys(policy, sys, steps)
    ensures PayoutsGood(policy, RunSys(policy, sys, steps), MemoOf(policy, sys, steps, memo))
    ensures SysInv(RunSys(policy, sys, steps))
    decreases |steps|
  {
    hide SysInv, PayoutsGood, Do, Enabled, NextMemo;
    if steps != [] {
      SysStepKeeps(policy, sys, steps[0]);
      StepPays(policy, sys, steps[0], memo);
      RunPays(policy, Do(policy, sys, steps[0]), steps[1..], NextMemo(policy, sys, steps[0], memo));
    }
  }

  lemma StartPays(policy: Policy)
    ensures SysInv(START) && PayoutsGood(policy, START, BLANK)
  {
    StartInv();
  }

  // --------------------------------------------------------------- main results

  /** The offers of the job that were accepted again too late before its payout was priced. */
  function LateOnes(policy: Policy, steps: seq<SysStep>, j: Id): set<nat>
    requires LawfulSys(policy, START, steps)
  {
    var paid := MemoOf(policy, START, steps, BLANK).paid;
    if j in paid then paid[j] else {}
  }

  ghost predicate LateOn(db: Db, late: set<nat>, j: Id) {
    exists i :: i in late && i < |db.offers| && db.offers[i].jobId == j
  }

  ghost predicate IsPayout(policy: Policy, steps: seq<SysStep>, e: Entry) {
    LawfulSys(policy, START, steps) && e in RunSys(policy, START, steps).db.ledger && e.kind.Payout?
  }

  /** Over every run with failures and crashes, and for either kind of store: a payout is the
      payout of the first offer on the job that was ever accepted and was not accepted
      again too late before the payout was priced; without one it is the provider's
      share of the approved gross. */
  lemma PayoutIsExactly(policy: Policy, steps: seq<SysStep>, e: Entry)
    requires IsPayout(policy, steps, e)
    ensures var db, j := RunSys(policy, START, steps).db, e.jobId;
      && j in db.jobs && db.jobs[j].status.Completed? && ApprovedGross(db.quotes, j).Some?
      && -e.amountCents == SumDue(db, LateOnes(policy, steps, j), j, ApprovedGross(db.quotes, j).value)
    ensures e.jobId in MemoOf(policy, START, steps, BLANK).paid
  {
    StartPays(policy);
    hide RunSys, LawfulSys, SysInv, Agreed, MemoGood, PhasePaid, SumDue, MemoOf;
    RunPays(policy, START, steps, BLANK);
  }

  lemma EndOfRun(policy: Policy, steps: seq<SysStep>, j: Id)
    requires LawfulSys(policy, START, steps)
    ensures var db, late := RunSys(policy, START, steps).db, MemoOf(policy, START, steps, BLANK).late;
      Inv(db) && Agreed(db, late) && LateOnes(policy, steps, j) <= late && (policy.RollsBack? ==> late == {})
  {
    StartPays(policy);
    hide RunSys, LawfulSys, SysInv, Agreed, LedgerPaid, PhasePaid, MemoOf, Inv;
    RunPays(policy, START, steps, BLANK);
    InvOf(RunSys(policy, START, steps));
  }

  predicate HasOneAssignment(db: Db, j: Id, a: Assignment) {
    && a in db.assignments && a.jobId == j && a.status.Active?
    && forall b :: b in db.assignments && b.jobId == j ==> b == a
  }

  lemma OnlyAssignment(db: Db, j: Id) returns (a: Assignment)
    requires Inv(db) && j in db.jobs && db.jobs[j].status.Completed? && NeverFell(db.events, j)
    ensures HasOneAssignment(db, j, a)
  {
    var i := CompletedAssignment(db, j);
    hide Inv, NeverFell;
    a := db.assignments[i];
    forall b | b in db.assignments && b.jobId == j ensures b == a {
      var k :| 0 <= k < |db.assignments| && db.assignments[k] == b;
      CountUnique(db.assignments, i, k, EngagedOn(j));
    }
  }

  /** With one assignment there is one offer that can stand. */
  lemma OneCanStand(db: Db, late: set<nat>, all: set<nat>, j: Id, a: Assignment, gross: int)
    requires Agreed(db, all) && late <= all && AskedOnce(db.offers) && HasOneAssignment(db, j, a)
    ensures SumDue(db, late, j, gross) == if LateOn(db, late, j) then ProviderShare(gross) else a.payoutNetCents
  {
    assert Offered(db.offers, a);
    var k :| 0 <= k < |db.offers| && Matches(db.offers[k], a);
    assert Engaged(db.assignments, db.offers[k]);
    forall i | 0 <= i < |db.offers| && db.offers[i].jobId == j && Engaged(db.assignments, db.offers[i]) ensures i == k {
      var n :| 0 <= n < |db.assignments| && Matches(db.offers[i], db.assignments[n]);
      assert db.assignments[n] == a;
    }
    hide FirstStanding, Agreed, AskedOnce, Engaged, HasOneAssignment;
    var first := FirstStanding(db, late, j, 0);
    if k in late {
      assert LateOn(db, late, j);
    } else {
      assert Standing(db, late, j, k);
      NoneLate(db, late, all, j, k);
    }
  }

  lemma NoneLate(db: Db, late: set<nat>, all: set<nat>, j: Id, k: nat)
    requires Agreed(db, all) && late <= all && k !in late
    requires forall i :: 0 <= i < |db.offers| && db.offers[i].jobId == j && Engaged(db.assignments, db.offers[i]) ==>
               i == k
    ensures !LateOn(db, late, j)
  {
    hide Engaged;
  }

  lemma DueToOnly(db: Db, late: set<nat>, all: set<nat>, j: Id, gross: int)
    requires Inv(db) && Agreed(db, all) && late <= all
    requires j in db.jobs && db.jobs[j].status.Completed? && NeverFell(db.events, j)
    ensures exists a :: HasOneAssignment(db, j, a) &&
                        SumDue(db, late, j, gross) ==
                          if LateOn(db, late, j) then ProviderShare(gross) else a.payoutNetCents
  {
    hide SumDue, NeverFell, HasOneAssignment, LateOn, Agreed, JobsGood, Refs, OutboxOk, AskedOnce;
    var a := OnlyAssignment(db, j);
    OneCanStand(db, late, all, j, a, gross);
  }

  /** On a job that never fell through a payout is what its only provider accepted, unless
      that provider accepted again too late before the payout was priced, in a store
      whose refusals keep their writes: then, and only then, it is the share. */
  lemma PayoutIsAgreed(policy: Policy, steps: seq<SysStep>, e: Entry)
    requires IsPayout(policy, steps, e)
    requires NeverFell(RunSys(policy, START, steps).db.events, e.jobId)
    ensures var db, j := RunSys(policy, START, steps).db, e.jobId;
      && ApprovedGross(db.quotes, j).Some?
      && exists a :: HasOneAssignment(db, j, a) && -e.amountCents ==
           if LateOn(db, LateOnes(policy, steps, j), j) then ProviderShare(ApprovedGross(db.quotes, j).value)
           else a.payoutNetCents
    ensures policy.RollsBack? ==> LateOnes(policy, steps, e.jobId) == {}
  {
    var db, j, late := RunSys(policy, START, steps).db, e.jobId, LateOnes(policy, steps, e.jobId);
    PayoutIsExactly(policy, steps, e);
    EndOfRun(policy, steps, j);
    hide IsPayout, LateOnes, RunSys, LawfulSys, MemoOf, SumDue, ApprovedGross, NeverFell, HasOneAssignment, LateOn,
      Agreed, Inv;
    DueToOnly(db, late, MemoOf(policy, START, steps, BLANK).late, j, ApprovedGross(db.quotes, j).value);
  }

  /** On every job, fallen through or not: unless an offer of it was accepted again too late
      before the pricing, the payout is that of the first offer that was ever accepted.
      So it is what the provider that did the work agreed to if and only if that
      provider's payout equals the first one's.  Where refusals roll back there is no
      such late acceptance, and the offer is the first that reads accepted. */
  lemma PayoutIsFirstAccepted(policy: Policy, steps: seq<SysStep>, e: Entry, a: Assignment)
    requires IsPayout(policy, steps, e)
    requires a in RunSys(policy, START, steps).db.assignments && a.jobId == e.jobId && a.status.Active?
    requires !LateOn(RunSys(policy, START, steps).db, LateOnes(policy, steps, e.jobId), e.jobId)
    ensures var db, j := RunSys(policy, START, steps).db, e.jobId;
      var first := FirstStanding(db, {}, j, 0);
      && first < |db.offers| && e.amountCents == -db.offers[first].payoutNetCents
      && (e.amountCents == -a.payoutNetCents <==> a.payoutNetCents == db.offers[first].payoutNetCents)
      && (policy.RollsBack? ==> FirstAccepted(db.offers, j) == Some(db.offers[first]))
  {
    var db, j, late := RunSys(policy, START, steps).db, e.jobId, LateOnes(policy, steps, e.jobId);
    PayoutIsExactly(policy, steps, e);
    EndOfRun(policy, steps, j);
    hide IsPayout, LateOnes, RunSys, LawfulSys, MemoOf, ApprovedGross, Inv, FirstAccepted;
    if policy.RollsBack? { FirstAcceptedStands(db, {}, j); }
    FirstStandsAlike(db, late, MemoOf(policy, START, steps, BLANK).late, j, a);
  }

  lemma FirstStandsAlike(db: Db, late: set<nat>, all: set<nat>, j: Id, a: Assignment)
    requires Agreed(db, all) && a in db.assignments && a.jobId == j && !LateOn(db, late, j)
    ensures FirstStanding(db, late, j, 0) == FirstStanding(db, {}, j, 0) < |db.offers|
  {
    assert Offered(db.offers, a);
    var k :| 0 <= k < |db.offers| && Matches(db.offers[k], a);
    assert Engaged(db.assignments, db.offers[k]);
    hide Agreed, Engaged, FirstStanding;
    forall i | 0 <= i < |db.offers| ensures Standing(db, late, j, i) <==> Standing(db, {}, j, i) { }
    assert Standing(db, {}, j, k);
    var x, y := FirstStanding(db, late, j, 0), FirstStanding(db, {}, j, 0);
  }
}
