/** Money safety over every run: crashes, failures and API requests may fall
    between any two micro-steps of the worker. */
module Money {
  import opened Contracts
  import opened Counting
  import opened OutboxKeys
  import opened Db
  import opened Machine
  import opened Tallies
  import opened Invariants
  import opened Preservation
  import opened Evolution
  import opened System

  function EntryOf(j: Id, kind: EntryKind): Entry -> bool { (e: Entry) => e.jobId == j && e.kind == kind }

  /** How often the money of a job moved, by kind. */
  datatype Moved = Moved(holds: nat, captures: nat, payouts: nat, voids: nat)

  function MovedOf(ledger: seq<Entry>, j: Id): Moved {
    Moved(Count(ledger, EntryOf(j, Authorisation)), Count(ledger, EntryOf(j, Capture)),
          Count(ledger, EntryOf(j, Payout)), Count(ledger, EntryOf(j, AuthorisationVoid)))
  }

  predicate MovedSafely(m: Moved) {
    && m.payouts <= m.captures <= m.holds <= 1
    && m.voids <= m.holds
    && m.captures + m.voids <= 1
  }

  /** A capture needs a completed job and a void a cancelled one. */
  predicate MovedInTime(m: Moved, status: JobStatus) {
    && (m.captures > 0 ==> status.Completed?)
    && (m.voids > 0 ==> status.Cancelled?)
  }

  /** Each entry is of the approved gross, with the sign of its kind. */
  predicate EntryGood(quotes: seq<Quote>, e: Entry) {
    var gross := ApprovedGross(quotes, e.jobId);
    && gross.Some? && gross.value > 0
    && match e.kind
       case Authorisation => e.amountCents == gross.value && e.reference == Some(AuthReference(e.jobId))
       case Capture => e.amountCents == gross.value
       case AuthorisationVoid => e.amountCents == -gross.value
       case Payout => e.amountCents < 0
       case _ => false
  }

  function JobOfKey(key: string): Id {
    if |key| >= 5 then key[5..] else ""
  }

  /** Every hold at the gateway is some job's, for that job's approved gross. */
  ghost predicate HoldsGood(quotes: seq<Quote>, holds: map<Reference, int>) {
    forall r :: r in holds ==>
      r == AuthReference(JobOfKey(r.key)) && ApprovedGross(quotes, JobOfKey(r.key)) == Some(holds[r])
  }

  ghost predicate HoldsCover(ledger: seq<Entry>, holds: map<Reference, int>) {
    forall e :: e in ledger && e.kind.Authorisation? ==>
      AuthReference(e.jobId) in holds && holds[AuthReference(e.jobId)] == e.amountCents
  }

  ghost predicate LedgerGood(db: Db) {
    && (forall e :: e in db.ledger ==> e.jobId in db.jobs && EntryGood(db.quotes, e))
    && (forall j :: j in db.jobs ==>
          MovedSafely(MovedOf(db.ledger, j)) && MovedInTime(MovedOf(db.ledger, j), db.jobs[j].status))
  }

  predicate IsHold(ledger: seq<Entry>, j: Id, hold: Entry) {
    hold in ledger && hold.jobId == j && hold.kind.Authorisation?
  }

  /** What the worker knows at each point of the handler of message m. */
  ghost predicate PhaseGood(db: Db, holds: map<Reference, int>, m: Row, p: Phase)
    requires m.jobId in db.jobs
  {
    var j, moved, status := m.jobId, MovedOf(db.ledger, m.jobId), db.jobs[m.jobId].status;
    match p
    case HoldWanted => moved.holds == 0
    case HoldPriced(gross) => moved.holds == 0 && ApprovedGross(db.quotes, j) == Some(gross)
    case HoldPlaced(gross, r) =>
      && moved.holds == 0 && ApprovedGross(db.quotes, j) == Some(gross)
      && r == AuthReference(j) && r in holds && holds[r] == gross
    case CaptureSeen(hold, captured, paid) =>
      && status.Completed? && IsHold(db.ledger, j, hold)
      && (captured <==> moved.captures > 0) && (paid <==> moved.payouts > 0)
    case CaptureTaken(hold, paid, _) =>
      status.Completed? && IsHold(db.ledger, j, hold) && moved.captures == 0 && !paid
    case PayoutWanted(hold) => IsHold(db.ledger, j, hold) && moved.captures == 1 && moved.payouts == 0
    case PayoutTo(hold, _) => IsHold(db.ledger, j, hold) && moved.captures == 1 && moved.payouts == 0
    case PayoutPriced(_, cents) => moved.captures == 1 && moved.payouts == 0 && cents > 0
    case PayoutSent(cents, _) => moved.captures == 1 && moved.payouts == 0 && cents > 0
    case ReleaseSeen(hold) =>
      status.Cancelled? && IsHold(db.ledger, j, hold) && moved.captures == 0 && moved.voids == 0
    case _ => true
  }

  ghost predicate WorkerGood(sys: Sys) {
    sys.worker.Busy? ==>
      && sys.worker.batch != []
      && (forall m :: m in sys.worker.batch ==> m.jobId in sys.db.jobs && Projected(sys.db.events, m))
      && PhaseGood(sys.db, sys.holds, sys.worker.batch[0], sys.worker.phase)
  }

  ghost predicate MoneyGood(sys: Sys) {
    && LedgerGood(sys.db)
    && HoldsGood(sys.db.quotes, sys.holds) && HoldsCover(sys.db.ledger, sys.holds)
    && WorkerGood(sys)
  }

  ghost predicate SysInv(sys: Sys) {
    Inv(sys.db) && MoneyGood(sys)
  }

  // ------------------------------------------------------------------ reading

  lemma {:induction false} FirstOfCounts(ledger: seq<Entry>, j: Id, kind: EntryKind)
    ensures FirstOf(ledger, j, kind).Some? <==> Count(ledger, EntryOf(j, kind)) > 0
    ensures FirstOf(ledger, j, kind).Some? ==>
      var e := FirstOf(ledger, j, kind).value; e in ledger && e.jobId == j && e.kind == kind
  {
    FirstOfFound(ledger, j, kind);
    if FirstOf(ledger, j, kind).Some? {
      var e := FirstOf(ledger, j, kind).value;
      var i :| 0 <= i < |ledger| && ledger[i] == e;
      CountSome(ledger, i, EntryOf(j, kind));
    }
    if Count(ledger, EntryOf(j, kind)) > 0 {
      var i := CountWitness(ledger, EntryOf(j, kind));
      assert ledger[i] in ledger;
    }
  }

  lemma {:induction false} FirstOfFound(ledger: seq<Entry>, j: Id, kind: EntryKind)
    ensures FirstOf(ledger, j, kind).None? ==> forall e :: e in ledger ==> !(e.jobId == j && e.kind == kind)
    ensures FirstOf(ledger, j, kind).Some? ==>
      var e := FirstOf(ledger, j, kind).value; e in ledger && e.jobId == j && e.kind == kind
  {
    if ledger != [] {
      assert ledger == [ledger[0]] + ledger[1..];
      FirstOfFound(ledger[1..], j, kind);
    }
  }

  lemma {:induction false} ApprovedGrossFound(quotes: seq<Quote>, j: Id)
    ensures ApprovedGross(quotes, j).None? ==> forall i :: 0 <= i < |quotes| ==> !ApprovedFor(j)(quotes[i])
    ensures ApprovedGross(quotes, j).Some? ==>
      exists i :: 0 <= i < |quotes| && ApprovedFor(j)(quotes[i])
                  && quotes[i].grossCents == ApprovedGross(quotes, j).value
  {
    if quotes != [] && !(quotes[0].jobId == j && quotes[0].status.Approved?) {
      var tail := quotes[1..];
      ApprovedGrossFound(tail, j);
      if ApprovedGross(tail, j).Some? {
        var i :| 0 <= i < |tail| && ApprovedFor(j)(tail[i]) && tail[i].grossCents == ApprovedGross(tail, j).value;
        assert quotes[i + 1] == tail[i];
      } else {
        forall i | 0 <= i < |quotes| ensures !ApprovedFor(j)(quotes[i]) {
          if i > 0 { assert quotes[i] == tail[i - 1]; }
        }
      }
    } else if quotes != [] {
      assert ApprovedFor(j)(quotes[0]);
    }
  }

  /** The approved price of a job never changes once there is one. */
  lemma GrossStays(policy: Policy, db: Db, db': Db, j: Id)
    requires Inv(db') && QuotesEvolve(db.quotes, db'.quotes) && j in db'.jobs
    requires ApprovedGross(db.quotes, j).Some?
    ensures ApprovedGross(db'.quotes, j) == ApprovedGross(db.quotes, j)
  {
    ApprovedGrossFound(db.quotes, j);
    ApprovedGrossFound(db'.quotes, j);
    var i :| 0 <= i < |db.quotes| && ApprovedFor(j)(db.quotes[i])
             && db.quotes[i].grossCents == ApprovedGross(db.quotes, j).value;
    assert db'.quotes[i] == db.quotes[i];
    assert ApprovedFor(j)(db'.quotes[i]);
    var k :| 0 <= k < |db'.quotes| && ApprovedFor(j)(db'.quotes[k])
             && db'.quotes[k].grossCents == ApprovedGross(db'.quotes, j).value;
    AtMostOneQuote(db', j);
    CountUnique(db'.quotes, i, k, QuotedFor(j));
  }

  lemma AtMostOneQuote(db: Db, j: Id)
    requires Inv(db) && j in db.jobs
    ensures Count(db.quotes, QuotedFor(j)) <= 1
  {
    hide Core;
    assert Good(TallyOf(db, j));
  }

  /** A row's event did happen, so the job is where the event says. */
  lemma TopicTells(db: Db, m: Row)
    requires Inv(db) && Projected(db.events, m)
    ensures m.jobId in db.jobs
    ensures m.topic.TopicJobCompleted? ==> db.jobs[m.jobId].status.Completed?
    ensures m.topic.TopicJobCancelled? ==> db.jobs[m.jobId].status.Cancelled?
  {
    assert TopicByEvent(m.event) == Some(m.topic) by { hide Inv; }
    hide Inv, OutboxForEvent;
    var e :| e in db.events && e.jobId == m.jobId && e.kind == m.event && e.fields == m.fields;
    EventTells(db, e);
  }

  lemma EventTells(db: Db, e: Event)
    requires Inv(db) && e in db.events
    ensures e.jobId in db.jobs
    ensures e.kind.JobCompleted? ==> db.jobs[e.jobId].status.Completed?
    ensures e.kind.JobCancelled? ==> db.jobs[e.jobId].status.Cancelled?
    ensures e.kind.QuoteApproved? ==> TallyOf(db, e.jobId).approved == 1
  {
    var i :| 0 <= i < |db.events| && db.events[i] == e;
    assert Good(TallyOf(db, e.jobId));
    hide Inv;
    CountSome(db.events, i, KindOf(e.jobId, e.kind));
  }

  // ---------------------------------------------------------- API steps keep it

  lemma ProjectedPrefix(a: seq<Event>, b: seq<Event>, m: Row)
    requires a <= b && Projected(a, m)
    ensures Projected(b, m)
  {
    var e :| e in a && e.jobId == m.jobId && e.kind == m.event && e.fields == m.fields;
    assert e in b by { var i :| 0 <= i < |a| && a[i] == e; assert b[i] == e; }
  }

  lemma LedgerEvolves(policy: Policy, db: Db, db': Db)
    requires LedgerGood(db) && Inv(db') && Evolves(policy, db, db')
    ensures LedgerGood(db')
  {
    hide Inv, MovedSafely, MovedOf;
    forall e | e in db'.ledger ensures e.jobId in db'.jobs && EntryGood(db'.quotes, e) {
      GrossStays(policy, db, db', e.jobId);
    }
    forall j | j in db'.jobs
      ensures MovedSafely(MovedOf(db'.ledger, j)) && MovedInTime(MovedOf(db'.ledger, j), db'.jobs[j].status)
    {
      if j !in db.jobs { NoEntries(db, j); }
    }
  }

  lemma NoEntries(db: Db, j: Id)
    requires LedgerGood(db) && j !in db.jobs
    ensures MovedOf(db.ledger, j) == Moved(0, 0, 0, 0)
    ensures MovedSafely(MovedOf(db.ledger, j))
  {
    CountSame([], db.ledger, EntryOf(j, Authorisation));
    CountSame([], db.ledger, EntryOf(j, Capture));
    CountSame([], db.ledger, EntryOf(j, Payout));
    CountSame([], db.ledger, EntryOf(j, AuthorisationVoid));
  }

  lemma HoldsEvolve(policy: Policy, db: Db, db': Db, holds: map<Reference, int>)
    requires HoldsGood(db.quotes, holds) && Inv(db) && Inv(db') && Evolves(policy, db, db')
    ensures HoldsGood(db'.quotes, holds)
  {
    forall r | r in holds
      ensures r == AuthReference(JobOfKey(r.key)) && ApprovedGross(db'.quotes, JobOfKey(r.key)) == Some(holds[r])
    {
      PricedJobExists(db, JobOfKey(r.key));
      hide Inv;
      GrossStays(policy, db, db', JobOfKey(r.key));
    }
  }

  lemma PricedJobExists(db: Db, j: Id)
    requires Inv(db) && ApprovedGross(db.quotes, j).Some?
    ensures j in db.jobs && ApprovedGross(db.quotes, j).value > 0
  {
    ApprovedGrossFound(db.quotes, j);
    var i :| 0 <= i < |db.quotes| && ApprovedFor(j)(db.quotes[i])
             && db.quotes[i].grossCents == ApprovedGross(db.quotes, j).value;
    assert db.quotes[i] in db.quotes;
  }

  lemma PhaseEvolves(policy: Policy, db: Db, db': Db, holds: map<Reference, int>, m: Row, p: Phase)
    requires m.jobId in db.jobs && PhaseGood(db, holds, m, p) && Inv(db') && Evolves(policy, db, db')
    ensures PhaseGood(db', holds, m, p)
  {
    hide Inv, MovedOf;
    if ApprovedGross(db.quotes, m.jobId).Some? { GrossStays(policy, db, db', m.jobId); }
  }

  lemma ApiKeeps(policy: Policy, sys: Sys, s: Step)
    requires SysInv(sys) && Admissible(sys.db, s)
    ensures SysInv(Do(policy, sys, Api(s)))
  {
    hide Inv, LedgerGood, HoldsGood, PhaseGood, Projected, Apply, Admissible;
    var db := sys.db;
    var db' := Apply(policy, db, s);
    StepKeeps(policy, db, s);
    StepEvolves(policy, db, s);
    LedgerEvolves(policy, db, db');
    HoldsEvolve(policy, db, db', sys.holds);
    if sys.worker.Busy? {
      PhaseEvolves(policy, db, db', sys.holds, sys.worker.batch[0], sys.worker.phase);
      forall m | m in sys.worker.batch ensures m.jobId in db'.jobs && Projected(db'.events, m) {
        ProjectedPrefix(db.events, db'.events, m);
      }
    }
  }

  // ------------------------------------------------------- worker steps keep it

  /** Rows that differ only in how their delivery stands. */
  ghost predicate SameRows(a: seq<Row>, b: seq<Row>) {
    && |a| == |b|
    && forall i :: 0 <= i < |a| ==>
         b[i] ==
           a[i].(status := b[i].status, attempts := b[i].attempts, availableAt := b[i].availableAt,
                 deliveredAt := b[i].deliveredAt)
  }

  lemma RowsKeepOutbox(db: Db, outbox: seq<Row>)
    requires OutboxOk(db) && SameRows(db.outbox, outbox)
    ensures OutboxOk(db.(outbox := outbox))
  {
    assert RowsIndexed(outbox, db.keys, db.nextRow) by {
      hide Projected;
      forall k | k in db.keys ensures exists i :: 0 <= i < |outbox| && outbox[i].key == k {
        var i :| 0 <= i < |db.outbox| && db.outbox[i].key == k;
        assert outbox[i].key == k;
      }
    }
    hide RowsIndexed;
    forall r | r in outbox ensures Projected(db.events, r) {
      var i :| 0 <= i < |outbox| && outbox[i] == r;
      assert Projected(db.events, db.outbox[i]);
    }
  }

  lemma RowsKeep(db: Db, outbox: seq<Row>, ledger: seq<Entry>)
    requires Inv(db) && SameRows(db.outbox, outbox)
    ensures Inv(db.(outbox := outbox, ledger := ledger))
  {
    hide TallyOf, Good, OutboxOk, AskedOnce, SameRows;
    var db' := db.(outbox := outbox, ledger := ledger);
    RowsKeepOutbox(db, outbox);
    SameOutbox(db.(outbox := outbox), db');
    forall i | i in db'.jobs ensures Good(TallyOf(db', i)) { TallySame(db, db', i); }
  }

  /** Changing only deliveries leaves the money alone. */
  lemma RowsKeepMoney(sys: Sys, outbox: seq<Row>, worker: Worker)
    requires SysInv(sys) && SameRows(sys.db.outbox, outbox)
    requires worker.Busy? ==>
      && worker.batch != [] && worker.phase.AtStart?
      && forall m :: m in worker.batch ==> m.jobId in sys.db.jobs && Projected(sys.db.events, m)
    ensures SysInv(sys.(db := sys.db.(outbox := outbox), worker := worker))
  {
    hide Inv, SameRows, Projected, EntryGood, MovedSafely, MovedInTime, MovedOf;
    RowsKeep(sys.db, outbox, sys.db.ledger);
    assert sys.db.(outbox := outbox, ledger := sys.db.ledger) == sys.db.(outbox := outbox);
  }

  lemma MarkedRows(outbox: seq<Row>, id: nat, now: int, retryAt: Option<int>)
    ensures SameRows(outbox, MarkDelivered(outbox, id, now))
    ensures SameRows(outbox, MarkFailed(outbox, id, retryAt))
  {
  }

  lemma {:induction false} ClaimableFrom(outbox: seq<Row>, now: int)
    ensures forall r :: r in ClaimableRows(outbox, now) ==> r in outbox && Claimable(r, now)
  {
    if outbox != [] {
      var n := |outbox| - 1;
      ClaimableFrom(outbox[..n], now);
      assert outbox == outbox[..n] + [outbox[n]];
    }
  }

  lemma {:induction false} InsertByAgeElements(rows: seq<Row>, row: Row)
    ensures multiset(InsertByAge(rows, row)) == multiset(rows) + multiset{row}
  {
    if rows != [] {
      var n := |rows| - 1;
      assert rows == rows[..n] + [rows[n]];
      if rows[n].createdAt > row.createdAt { InsertByAgeElements(rows[..n], row); }
    }
  }

  /** Sorting by age keeps exactly the rows it was given. */
  lemma {:induction false} SortByAgeElements(rows: seq<Row>)
    ensures multiset(SortByAge(rows)) == multiset(rows)
  {
    hide InsertByAge;
    if rows != [] {
      var n := |rows| - 1;
      var init, last := rows[..n], rows[n];
      SortByAgeElements(init);
      InsertByAgeElements(SortByAge(init), last);
      assert SortByAge(rows) == InsertByAge(SortByAge(init), last);
      assert rows == init + [last] && multiset(rows) == multiset(init) + multiset{last};
    }
  }

  lemma BatchFrom(outbox: seq<Row>, now: int, limit: nat)
    ensures forall r :: r in DueBatch(outbox, now, limit) ==> r in outbox && Claimable(r, now)
  {
    var rows := ClaimableRows(outbox, now);
    ClaimableFrom(outbox, now);
    SortByAgeElements(rows);
    var sorted := SortByAge(rows);
    forall r | r in DueBatch(outbox, now, limit) ensures r in rows {
      assert r in sorted;
      assert r in multiset(sorted);
    }
  }

  lemma ClaimKeeps(policy: Policy, sys: Sys, now: int, limit: nat)
    requires SysInv(sys) && sys.worker.Idle?
    ensures SysInv(Do(policy, sys, Claim(now, limit)))
  {
    var (outbox, batch) := ClaimOutbox(sys.db.outbox, now, limit);
    BatchFrom(sys.db.outbox, now, limit);
    assert SameRows(sys.db.outbox, outbox);
    forall m | m in batch ensures m.jobId in sys.db.jobs && Projected(sys.db.events, m) {
      var due := DueBatch(sys.db.outbox, now, limit);
      var i :| 0 <= i < |batch| && batch[i] == m;
      assert due[i] in due;
      assert Projected(sys.db.events, due[i]);
      hide MoneyGood, RowsIndexed;
      ClaimedRow(sys.db, due[i], m);
    }
    hide SysInv, ClaimOutbox, SameRows;
    RowsKeepMoney(sys, outbox, StartBatch(batch));
  }

  lemma ClaimedRow(db: Db, r: Row, m: Row)
    requires Inv(db) && Projected(db.events, r) && m == r.(availableAt := m.availableAt)
    ensures m.jobId in db.jobs && Projected(db.events, m)
  {
    hide RowsIndexed, JobsGood, AskedOnce;
  }

  function Plus(m: Moved, kind: EntryKind): Moved {
    match kind
    case Authorisation => m.(holds := m.holds + 1)
    case Capture => m.(captures := m.captures + 1)
    case Payout => m.(payouts := m.payouts + 1)
    case AuthorisationVoid => m.(voids := m.voids + 1)
    case _ => m
  }

  lemma AppendMoved(ledger: seq<Entry>, e: Entry, j: Id)
    ensures MovedOf(ledger + [e], j) == if e.jobId == j then Plus(MovedOf(ledger, j), e.kind) else MovedOf(ledger, j)
  {
    CountAppend(ledger, e, EntryOf(j, Authorisation));
    CountAppend(ledger, e, EntryOf(j, Capture));
    CountAppend(ledger, e, EntryOf(j, Payout));
    CountAppend(ledger, e, EntryOf(j, AuthorisationVoid));
  }

  lemma WorkerJob(sys: Sys) returns (j: Id)
    requires SysInv(sys) && sys.worker.Busy?
    ensures sys.worker.batch != [] && j == sys.worker.batch[0].jobId && j in sys.db.jobs
    ensures PhaseGood(sys.db, sys.holds, sys.worker.batch[0], sys.worker.phase)
    ensures MovedSafely(MovedOf(sys.db.ledger, j)) && MovedInTime(MovedOf(sys.db.ledger, j), sys.db.jobs[j].status)
    ensures Projected(sys.db.events, sys.worker.batch[0])
  {
    hide Inv, PhaseGood, MovedSafely, MovedInTime, MovedOf, Projected;
    j := sys.worker.batch[0].jobId;
  }

  lemma TurnKeeps(sys: Sys, p: Phase)
    requires SysInv(sys) && sys.worker.Busy?
    requires sys.worker.batch != [] && sys.worker.batch[0].jobId in sys.db.jobs
    requires PhaseGood(sys.db, sys.holds, sys.worker.batch[0], p)
    ensures SysInv(Turn(sys, p))
  {
    hide Inv, PhaseGood, LedgerGood, HoldsGood, HoldsCover, Projected;
  }

  lemma LedgerAppend(db: Db, e: Entry)
    requires LedgerGood(db) && e.jobId in db.jobs && EntryGood(db.quotes, e)
    requires MovedSafely(Plus(MovedOf(db.ledger, e.jobId), e.kind))
    requires MovedInTime(Plus(MovedOf(db.ledger, e.jobId), e.kind), db.jobs[e.jobId].status)
    ensures LedgerGood(db.(ledger := db.ledger + [e]))
  {
    hide MovedOf, MovedSafely, MovedInTime, EntryGood, Plus;
    forall j | j in db.jobs
      ensures MovedSafely(MovedOf(db.ledger + [e], j)) && MovedInTime(MovedOf(db.ledger + [e], j), db.jobs[j].status)
    {
      AppendMoved(db.ledger, e, j);
    }
  }

  /** Appending the entry a handler computed keeps the money in order. */
  lemma WriteKeeps(sys: Sys, e: Entry, next: Phase)
    requires SysInv(sys) && sys.worker.Busy? && sys.worker.batch != []
    requires e.jobId == sys.worker.batch[0].jobId && e.jobId in sys.db.jobs && EntryGood(sys.db.quotes, e)
    requires MovedSafely(Plus(MovedOf(sys.db.ledger, e.jobId), e.kind))
    requires MovedInTime(Plus(MovedOf(sys.db.ledger, e.jobId), e.kind), sys.db.jobs[e.jobId].status)
    requires e.kind.Authorisation? ==> AuthReference(e.jobId) in sys.holds
                                       && sys.holds[AuthReference(e.jobId)] == e.amountCents
    requires next.Finished? ||
             (next.PayoutWanted? && e.kind.Capture? && MovedOf(sys.db.ledger, e.jobId).captures == 0
              && IsHold(sys.db.ledger, e.jobId, next.hold))
    ensures SysInv(Write(sys, e, next))
    ensures Write(sys, e, next) == Turn(sys.(db := sys.db.(ledger := sys.db.ledger + [e])), next)
  {
    hide Inv, MovedInTime, MovedOf, Projected;
    assert Writable(e);
    assert AppendEntries(sys.db.ledger, [e]) == (sys.db.ledger + [e], Done) by {
      assert AppendEntries(sys.db.ledger + [e], [e][1..]) == (sys.db.ledger + [e], Done);
    }
    hide EntryGood;
    var sys' := Write(sys, e, next);
    RowsKeep(sys.db, sys.db.outbox, sys.db.ledger + [e]);
    assert sys.db.(outbox := sys.db.outbox, ledger := sys.db.ledger + [e]) == sys'.db;
    LedgerAppend(sys.db, e);
    hide LedgerGood;
    AppendMoved(sys.db.ledger, e, e.jobId);
    assert PhaseGood(sys'.db, sys'.holds, sys'.worker.batch[0], next);
  }

  lemma HoldEntry(sys: Sys, j: Id, hold: Entry)
    requires SysInv(sys) && IsHold(sys.db.ledger, j, hold) && j in sys.db.jobs
    ensures ApprovedGross(sys.db.quotes, j) == Some(hold.amountCents) && hold.amountCents > 0
    ensures hold.reference == Some(AuthReference(j))
    ensures AuthReference(j) in sys.holds && sys.holds[AuthReference(j)] == hold.amountCents
    ensures MovedOf(sys.db.ledger, j).holds == 1
  {
    hide Inv, WorkerGood, HoldsGood;
    assert MovedSafely(MovedOf(sys.db.ledger, j));
    var i :| 0 <= i < |sys.db.ledger| && sys.db.ledger[i] == hold;
    CountSome(sys.db.ledger, i, EntryOf(j, Authorisation));
  }

  // ------------------------------------------------------- phase by phase

  lemma BeginGood(db: Db, holds: map<Reference, int>, m: Row)
    requires m.jobId in db.jobs
    requires m.topic.TopicJobCompleted? ==> db.jobs[m.jobId].status.Completed?
    requires m.topic.TopicJobCancelled? ==> db.jobs[m.jobId].status.Cancelled?
    ensures PhaseGood(db, holds, m, Begin(db.ledger, m))
  {
    FirstOfCounts(db.ledger, m.jobId, Authorisation);
    FirstOfCounts(db.ledger, m.jobId, Capture);
    FirstOfCounts(db.ledger, m.jobId, Payout);
    FirstOfCounts(db.ledger, m.jobId, AuthorisationVoid);
    hide FirstOf, Count, EntryOf;
  }

  lemma BeginKeeps(sys: Sys)
    requires SysInv(sys) && sys.worker.Busy? && sys.worker.phase.AtStart? && sys.worker.batch != []
    ensures SysInv(Turn(sys, Begin(sys.db.ledger, sys.worker.batch[0])))
  {
    hide Inv, Projected, PhaseGood, LedgerGood, HoldsGood, HoldsCover, Begin;
    var j := WorkerJob(sys);
    var m := sys.worker.batch[0];
    TopicTells(sys.db, m);
    BeginGood(sys.db, sys.holds, m);
    TurnKeeps(sys, Begin(sys.db.ledger, m));
  }

  lemma HoldWantedKeeps(sys: Sys)
    requires SysInv(sys) && sys.worker.Busy? && sys.worker.batch != [] && sys.worker.phase.HoldWanted?
    ensures SysInv(AdvanceHold(sys))
  {
    hide SysInv, MovedOf, Turn, Projected;
    var j := WorkerJob(sys);
    var gross := ApprovedGross(sys.db.quotes, j);
    TurnKeeps(sys, if gross.None? then Finished else HoldPriced(gross.value));
  }

  lemma HoldPricedKnows(sys: Sys) returns (j: Id)
    requires SysInv(sys) && sys.worker.Busy? && sys.worker.batch != [] && sys.worker.phase.HoldPriced?
    ensures j == sys.worker.batch[0].jobId && j in sys.db.jobs
    ensures MovedOf(sys.db.ledger, j).holds == 0
    ensures ApprovedGross(sys.db.quotes, j) == Some(sys.worker.phase.gross) && sys.worker.phase.gross > 0
    ensures HoldsGood(sys.db.quotes, sys.holds)
  {
    hide SysInv, MovedOf, Projected, ApprovedGross, HoldsGood;
    j := WorkerJob(sys);
    PositiveGross(sys, j);
    HoldsOf(sys);
  }

  lemma HoldsOf(sys: Sys)
    requires SysInv(sys)
    ensures HoldsGood(sys.db.quotes, sys.holds)
  {
    hide Inv, LedgerGood, HoldsGood, HoldsCover, WorkerGood;
  }

  lemma HoldPricedKeeps(sys: Sys)
    requires SysInv(sys) && sys.worker.Busy? && sys.worker.batch != [] && sys.worker.phase.HoldPriced?
    ensures SysInv(AdvanceHold(sys))
  {
    hide SysInv, MovedOf, ApprovedGross, HoldsGood, AuthReference, Turn;
    var j := HoldPricedKnows(sys);
    var gross := sys.worker.phase.gross;
    NewHold(sys.db.quotes, sys.holds, j, gross);
    var holds := Authorise(sys.holds, j, gross).value;
    hide Authorise;
    HoldGrows(sys, holds);
    TurnKeeps(sys.(holds := holds), HoldPlaced(gross, AuthReference(j)));
  }

  lemma NewHold(quotes: seq<Quote>, holds: map<Reference, int>, j: Id, gross: int)
    requires HoldsGood(quotes, holds) && ApprovedGross(quotes, j) == Some(gross) && gross > 0
    ensures Authorise(holds, j, gross).Some?
    ensures var h := Authorise(holds, j, gross).value;
      && HoldsGood(quotes, h) && AuthReference(j) in h && h[AuthReference(j)] == gross
      && forall r :: r in holds ==> r in h && h[r] == holds[r]
  {
    assert AuthReference(j).key[5..] == j;
    hide ApprovedGross;
  }

  /** More holds at the gateway do no harm while a price is being held. */
  lemma HoldGrows(sys: Sys, holds: map<Reference, int>)
    requires SysInv(sys) && sys.worker.Busy? && sys.worker.phase.HoldPriced?
    requires HoldsGood(sys.db.quotes, holds) && forall r :: r in sys.holds ==> r in holds && holds[r] == sys.holds[r]
    ensures SysInv(sys.(holds := holds))
  {
    hide Inv, LedgerGood, HoldsGood, Projected, MovedOf;
  }

  lemma HoldPlacedKeeps(sys: Sys)
    requires SysInv(sys) && sys.worker.Busy? && sys.worker.batch != [] && sys.worker.phase.HoldPlaced?
    ensures SysInv(AdvanceHold(sys))
    ensures var p, j, db := sys.worker.phase, sys.worker.batch[0].jobId, sys.db;
      AdvanceHold(sys) ==
        Turn(sys.(db := db.(ledger := db.ledger + [Entry(j, Authorisation, p.gross, Some(p.reference))])), Finished)
  {
    hide SysInv, MovedOf, Projected, AuthReference, Authorise;
    var j := WorkerJob(sys);
    var HoldPlaced(gross, r) := sys.worker.phase;
    assert MovedOf(sys.db.ledger, j).holds == 0 && ApprovedGross(sys.db.quotes, j) == Some(gross);
    assert r == AuthReference(j) && r in sys.holds && sys.holds[r] == gross;
    hide PhaseGood, ApprovedGross, Write;
    PositiveGross(sys, j);
    WriteKeeps(sys, Entry(j, Authorisation, gross, Some(r)), Finished);
  }

  lemma PositiveGross(sys: Sys, j: Id)
    requires SysInv(sys) && ApprovedGross(sys.db.quotes, j).Some?
    ensures ApprovedGross(sys.db.quotes, j).value > 0
  {
    hide Inv, MoneyGood;
    PricedJobExists(sys.db, j);
  }

  /** The gateway never refuses to capture what the ledger says is held. */
  lemma CaptureSucceeds(sys: Sys, j: Id, hold: Entry)
    requires SysInv(sys) && IsHold(sys.db.ledger, j, hold) && j in sys.db.jobs
    ensures Capturable(sys.holds, HoldReference(hold), hold.amountCents)
  {
    hide SysInv, MovedOf, AuthReference;
    HoldEntry(sys, j, hold);
  }

  lemma CaptureSeenNext(db: Db, holds: map<Reference, int>, m: Row, p: Phase, r: Reference)
    requires m.jobId in db.jobs && p.CaptureSeen? && PhaseGood(db, holds, m, p)
    requires MovedSafely(MovedOf(db.ledger, m.jobId))
    ensures p.captured && !p.paid ==> PhaseGood(db, holds, m, PayoutWanted(p.hold))
    ensures !p.captured ==> PhaseGood(db, holds, m, CaptureTaken(p.hold, p.paid, r))
    ensures IsHold(db.ledger, m.jobId, p.hold) && PhaseGood(db, holds, m, Finished)
  {
    hide MovedOf;
  }

  lemma CaptureSeenKeeps(sys: Sys)
    requires SysInv(sys) && sys.worker.Busy? && sys.worker.batch != [] && sys.worker.phase.CaptureSeen?
    ensures SysInv(AdvanceCapture(sys))
  {
    hide SysInv, MovedOf, Projected, HoldReference, MovedSafely, MovedInTime, PhaseGood, IsHold, Capturable, Turn,
      CaptureReference;
    var j := WorkerJob(sys);
    var p := sys.worker.phase;
    CaptureSeenNext(sys.db, sys.holds, sys.worker.batch[0], p, CaptureReference(p.hold));
    CaptureSucceeds(sys, j, p.hold);
    if !p.captured {
      TurnKeeps(sys, CaptureTaken(p.hold, p.paid, CaptureReference(p.hold)));
    } else {
      TurnKeeps(sys, if p.paid then Finished else PayoutWanted(p.hold));
    }
  }

  lemma CaptureTakenKeeps(sys: Sys)
    requires SysInv(sys) && sys.worker.Busy? && sys.worker.batch != [] && sys.worker.phase.CaptureTaken?
    ensures SysInv(AdvanceCapture(sys))
    ensures var p, j, db := sys.worker.phase, sys.worker.batch[0].jobId, sys.db;
      AdvanceCapture(sys) ==
        Turn(sys.(db := db.(ledger := db.ledger + [Entry(j, Capture, p.hold.amountCents, Some(p.reference))])),
             PayoutWanted(p.hold))
  {
    hide SysInv, MovedOf, Projected, Write;
    var j := WorkerJob(sys);
    var CaptureTaken(hold, paid, r) := sys.worker.phase;
    HoldEntry(sys, j, hold);
    WriteKeeps(sys, Entry(j, Capture, hold.amountCents, Some(r)), PayoutWanted(hold));
  }

  /** What is about to be paid out is never zero or less. */
  lemma PayoutPositive(sys: Sys, j: Id, hold: Entry)
    requires SysInv(sys) && IsHold(sys.db.ledger, j, hold) && j in sys.db.jobs
    ensures PayoutCents(sys.db.offers, j, hold) > 0
  {
    HoldEntry(sys, j, hold);
    FirstAcceptedFound(sys.db.offers, j);
    hide MoneyGood, JobsGood, OutboxOk, AskedOnce, FirstAccepted;
  }

  lemma {:induction false} FirstAcceptedFound(offers: seq<Offer>, j: Id)
    ensures FirstAccepted(offers, j).Some? ==>
      var o := FirstAccepted(offers, j).value; o in offers && o.jobId == j && o.status.Accepted?
    ensures FirstAccepted(offers, j).None? ==> forall o :: o in offers && o.jobId == j ==> !o.status.Accepted?
  {
    if offers != [] {
      assert offers == [offers[0]] + offers[1..];
      FirstAcceptedFound(offers[1..], j);
    }
  }

  lemma PayoutKeeps(sys: Sys)
    requires SysInv(sys) && sys.worker.Busy? && sys.worker.batch != []
    requires var p := sys.worker.phase; p.PayoutWanted? || p.PayoutTo? || p.PayoutPriced?
    ensures SysInv(AdvancePayout(sys)) && !AdvancePayout(sys).worker.phase.Thrown?
  {
    hide SysInv, MovedOf, Projected, PayoutCents, PayoutKey, ActiveIndex, MovedInTime, MovedSafely, IsHold;
    var j := WorkerJob(sys);
    match sys.worker.phase
    case PayoutWanted(hold) =>
      var k := ActiveIndex(sys.db.assignments, j);
      TurnKeeps(sys, if k == |sys.db.assignments| then Finished else PayoutTo(hold, sys.db.assignments[k].providerId));
    case PayoutTo(hold, p) =>
      PayoutPositive(sys, j, hold);
      TurnKeeps(sys, PayoutPriced(p, PayoutCents(sys.db.offers, j, hold)));
    case PayoutPriced(p, cents) =>
      TurnKeeps(sys, PayoutSent(cents, Reference("payout", PayoutKey(j, p))));
  }

  lemma PayoutSentKeeps(sys: Sys)
    requires SysInv(sys) && sys.worker.Busy? && sys.worker.batch != [] && sys.worker.phase.PayoutSent?
    ensures SysInv(AdvancePayout(sys))
    ensures var p, j, db := sys.worker.phase, sys.worker.batch[0].jobId, sys.db;
      AdvancePayout(sys) ==
        Turn(sys.(db := db.(ledger := db.ledger + [Entry(j, Payout, -p.cents, Some(p.reference))])), Finished)
  {
    hide SysInv, MovedOf, Projected, Write;
    var j := WorkerJob(sys);
    var PayoutSent(cents, r) := sys.worker.phase;
    GrossKnown(sys, j);
    WriteKeeps(sys, Entry(j, Payout, -cents, Some(r)), Finished);
  }

  /** A job with an entry on the ledger has an approved price. */
  lemma GrossKnown(sys: Sys, j: Id)
    requires SysInv(sys) && j in sys.db.jobs && MovedOf(sys.db.ledger, j).captures > 0
    ensures ApprovedGross(sys.db.quotes, j).Some? && ApprovedGross(sys.db.quotes, j).value > 0
  {
    hide Inv, WorkerGood, HoldsGood, HoldsCover, MovedSafely, MovedInTime;
    var i := CountWitness(sys.db.ledger, EntryOf(j, Capture));
    assert sys.db.ledger[i] in sys.db.ledger;
  }

  lemma ReleaseKeeps(sys: Sys)
    requires SysInv(sys) && sys.worker.Busy? && sys.worker.batch != [] && sys.worker.phase.ReleaseSeen?
    ensures SysInv(AdvanceRelease(sys))
    ensures var p, j, db := sys.worker.phase, sys.worker.batch[0].jobId, sys.db;
      AdvanceRelease(sys) ==
        Turn(sys.(db := db.(ledger := db.ledger + [Entry(j, AuthorisationVoid, -p.hold.amountCents,
                                                         p.hold.reference)])), Finished)
  {
    hide SysInv, MovedOf, Projected, Write;
    var j := WorkerJob(sys);
    var hold := sys.worker.phase.hold;
    HoldEntry(sys, j, hold);
    WriteKeeps(sys, Entry(j, AuthorisationVoid, -hold.amountCents, hold.reference), Finished);
  }

  lemma SettleKeeps(sys: Sys, now: int)
    requires SysInv(sys) && sys.worker.Busy? && sys.worker.batch != []
    ensures SysInv(Settle(sys, now))
  {
    var m := sys.worker.batch[0];
    MarkedRows(sys.db.outbox, m.id, now, RetryAt(m, now));
    BatchGood(sys);
    hide Inv, SameRows, Projected, MarkDelivered, MarkFailed, SysInv, RetryAt;
    var sys' := Settle(sys, now);
    RowsKeepMoney(sys, sys'.db.outbox, sys'.worker);
    assert sys' == sys.(db := sys.db.(outbox := sys'.db.outbox), worker := sys'.worker);
  }

  lemma BatchGood(sys: Sys)
    requires SysInv(sys) && sys.worker.Busy?
    ensures sys.worker.batch != [] && forall m :: m in sys.worker.batch[1..] ==> m.jobId in sys.db.jobs
                                                                                 && Projected(sys.db.events, m)
  {
    hide Inv, LedgerGood, HoldsGood, HoldsCover, PhaseGood, Projected;
    assert forall r :: r in sys.worker.batch[1..] ==> r in sys.worker.batch;
  }

  lemma GoKeeps(sys: Sys, now: int)
    requires SysInv(sys) && sys.worker.Busy? && sys.worker.batch != []
    ensures SysInv(Advance(sys, now))
  {
    hide SysInv, Turn, Begin, AdvanceHold, AdvanceCapture, AdvancePayout, AdvanceRelease, Settle;
    match sys.worker.phase
    case AtStart => BeginKeeps(sys);
    case HoldWanted => HoldWantedKeeps(sys);
    case HoldPriced(_) => HoldPricedKeeps(sys);
    case HoldPlaced(_, _) => HoldPlacedKeeps(sys);
    case CaptureSeen(_, _, _) => CaptureSeenKeeps(sys);
    case CaptureTaken(_, _, _) => CaptureTakenKeeps(sys);
    case PayoutSent(_, _) => PayoutSentKeeps(sys);
    case ReleaseSeen(_) => ReleaseKeeps(sys);
    case Finished => SettleKeeps(sys, now);
    case Thrown => SettleKeeps(sys, now);
    case _ => PayoutKeeps(sys);
  }

  lemma StopKeeps(policy: Policy, sys: Sys, s: SysStep)
    requires SysInv(sys) && Enabled(sys, s) && (s.Fail? || s.Crash?)
    ensures SysInv(Do(policy, sys, s))
  {
    hide Inv, LedgerGood, HoldsGood, HoldsCover, Projected;
  }

  lemma SysStepKeeps(policy: Policy, sys: Sys, s: SysStep)
    requires SysInv(sys) && Enabled(sys, s)
    ensures SysInv(Do(policy, sys, s))
  {
    hide SysInv, Advance, Apply, ClaimOutbox, Admissible;
    match s
    case Api(step) => ApiKeeps(policy, sys, step);
    case Claim(now, limit) => ClaimKeeps(policy, sys, now, limit);
    case Go(now) => GoKeeps(sys, now);
    case Fail => StopKeeps(policy, sys, s);
    case Crash => StopKeeps(policy, sys, s);
  }

  lemma {:induction false} RunSysKeeps(policy: Policy, sys: Sys, steps: seq<SysStep>)
    requires SysInv(sys) && LawfulSys(policy, sys, steps)
    ensures SysInv(RunSys(policy, sys, steps))
    decreases |steps|
  {
    hide SysInv, Do, Enabled;
    if steps != [] {
      SysStepKeeps(policy, sys, steps[0]);
      RunSysKeeps(policy, Do(policy, sys, steps[0]), steps[1..]);
    }
  }

  lemma StartInv()
    ensures SysInv(START)
  {
    EmptyInv();
  }
}
