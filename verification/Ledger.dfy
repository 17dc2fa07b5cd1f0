/** What the ledger adds up to. */
module Ledger {
  import opened Contracts
  import opened Counting
  import opened OutboxKeys
  import opened Db
  import opened Dispatch
  import opened Machine
  import opened Tallies
  import opened Invariants
  import opened System
  import opened Money
  import opened Queue
  import opened Claims
  import opened CalmQueue
  import opened TodoOrder
  import opened Settlement
  import P = Payouts

  datatype Summary = Summary(
    authorisedCents: int, capturedCents: int, refundedCents: int, paidOutCents: int, netCents: int)

  /** The sum of the amounts of some kinds of entry. */
  function Total(entries: seq<Entry>, kinds: set<EntryKind>): int {
    if entries == [] then 0
    else
      var n := |entries| - 1;
      Total(entries[..n], kinds) + if entries[n].kind in kinds then entries[n].amountCents else 0
  }

  function Summarise(entries: seq<Entry>): Summary {
    Summary(Total(entries, {Authorisation, AuthorisationVoid}), Total(entries, {Capture}), -Total(entries, {Refund}),
            -Total(entries, {Payout, PayoutReversal}), Total(entries, {Capture, Refund, Payout, PayoutReversal}))
  }

  /** What the ledger takes: holds, captures and reversals above zero, every other kind below. */
  predicate RightlySigned(e: Entry) {
    match e.kind
    case Authorisation => e.amountCents > 0
    case Capture => e.amountCents > 0
    case PayoutReversal => e.amountCents > 0
    case _ => e.amountCents < 0
  }

  /** The rightly signed entries at the front are written, in order; the first that is not is refused
      and ends it. */
  lemma {:induction false} WrittenUpTo(ledger: seq<Entry>, entries: seq<Entry>, n: nat)
    requires n <= |entries| && (forall i :: 0 <= i < n ==> RightlySigned(entries[i]))
    requires n < |entries| ==> !RightlySigned(entries[n])
    ensures AppendEntries(ledger, entries) ==
            (ledger + entries[..n], if n == |entries| then Done else Refused(ValidationError))
    decreases |entries|
  {
    if n == 0 {
      assert ledger + entries[..0] == ledger;
    } else {
      WrittenUpTo(ledger + [entries[0]], entries[1..], n - 1);
      assert ledger + [entries[0]] + entries[1..][..n - 1] == ledger + entries[..n];
    }
  }

  lemma {:induction false} TotalSplit(entries: seq<Entry>, a: set<EntryKind>, b: set<EntryKind>)
    requires a !! b
    ensures Total(entries, a + b) == Total(entries, a) + Total(entries, b)
  {
    if entries != [] { TotalSplit(entries[..|entries| - 1], a, b); }
  }

  /** Of every ledger: what is held is what was captured, less what was refunded,
      less what was paid out.  A hold is not money. */
  lemma NetAddsUp(entries: seq<Entry>)
    ensures var s := Summarise(entries); s.netCents == s.capturedCents - s.refundedCents - s.paidOutCents
  {
    var out, back := {Payout, PayoutReversal}, {Refund};
    assert {Capture, Refund, Payout, PayoutReversal} == {Capture} + (back + out);
    TotalSplit(entries, {Capture}, back + out);
    TotalSplit(entries, back, out);
  }

  /** Reading two ledgers one after the other adds the summaries. */
  lemma {:induction false} TotalConcat(a: seq<Entry>, b: seq<Entry>, kinds: set<EntryKind>)
    ensures Total(a + b, kinds) == Total(a, kinds) + Total(b, kinds)
  {
    if b == [] {
      assert a + b == a;
    } else {
      var n := |b| - 1;
      assert (a + b)[..|a| + n] == a + b[..n];
      TotalConcat(a, b[..n], kinds);
    }
  }

  // ----------------------------------------------------------------- one job

  lemma {:induction false} EntriesOfJob(ledger: seq<Entry>, j: Id)
    ensures forall e :: e in EntriesOf(ledger, j) <==> e in ledger && e.jobId == j
  {
    if ledger != [] {
      var n := |ledger| - 1;
      EntriesOfJob(ledger[..n], j);
      assert ledger == ledger[..n] + [ledger[n]];
    }
  }

  lemma TotalOfLast(ledger: seq<Entry>, j: Id, kinds: set<EntryKind>)
    requires ledger != []
    ensures var n := |ledger| - 1;
      Total(EntriesOf(ledger, j), kinds) ==
      Total(EntriesOf(ledger[..n], j), kinds) +
        if ledger[n].jobId == j && ledger[n].kind in kinds then ledger[n].amountCents else 0
  {
    var n := |ledger| - 1;
    if ledger[n].jobId == j {
      TotalConcat(EntriesOf(ledger[..n], j), [ledger[n]], kinds);
      assert [ledger[n]][..0] == [];
    } else {
      assert EntriesOf(ledger, j) == EntriesOf(ledger[..n], j);
    }
  }

  /** Entries of one kind and one amount add up to that amount times their number. */
  lemma {:induction false} TotalByCount(ledger: seq<Entry>, j: Id, kind: EntryKind, cents: int)
    requires forall e :: e in ledger && e.jobId == j && e.kind == kind ==> e.amountCents == cents
    ensures Total(EntriesOf(ledger, j), {kind}) == Count(ledger, EntryOf(j, kind)) * cents
  {
    if ledger != [] {
      var n := |ledger| - 1;
      assert ledger[n] in ledger;
      TotalByCount(ledger[..n], j, kind, cents);
      TotalOfLast(ledger, j, {kind});
      hide Total, EntriesOf;
      assert (Count(ledger[..n], EntryOf(j, kind)) + 1) * cents == Count(ledger[..n], EntryOf(j, kind)) * cents + cents;
    }
  }

  /** With at most one entry of a kind, the total of that kind is its amount. */
  lemma TotalOfOnly(ledger: seq<Entry>, j: Id, kind: EntryKind) returns (e: Entry)
    requires Count(ledger, EntryOf(j, kind)) == 1
    ensures e in ledger && e.jobId == j && e.kind == kind && Total(EntriesOf(ledger, j), {kind}) == e.amountCents
  {
    var i := CountWitness(ledger, EntryOf(j, kind));
    e := ledger[i];
    forall x | x in ledger && x.jobId == j && x.kind == kind ensures x.amountCents == e.amountCents {
      var k :| 0 <= k < |ledger| && ledger[k] == x;
      CountUnique(ledger, i, k, EntryOf(j, kind));
    }
    TotalByCount(ledger, j, kind, e.amountCents);
  }

  /** A job's money in terms of how often it moved, at the approved gross. */
  lemma SummaryOfJob(sys: Sys, j: Id, gross: int)
    requires SysInv(sys) && (ApprovedGross(sys.db.quotes, j).Some? ==> ApprovedGross(sys.db.quotes, j).value == gross)
    ensures var m, s := MovedOf(sys.db.ledger, j), Summarise(EntriesOf(sys.db.ledger, j));
      && s.authorisedCents == m.holds * gross - m.voids * gross && s.capturedCents == m.captures * gross
      && s.refundedCents == 0 && s.paidOutCents == -Total(EntriesOf(sys.db.ledger, j), {Payout})
      && s.netCents == s.capturedCents - s.paidOutCents
  {
    hide Total, EntriesOf, Count, EntryOf, Inv, WorkerGood, HoldsGood, HoldsCover, MovedSafely, MovedInTime;
    KindTotals(sys.db, j, gross);
    SummaryParts(EntriesOf(sys.db.ledger, j));
  }

  lemma SummaryParts(es: seq<Entry>)
    ensures var s := Summarise(es);
      && s.authorisedCents == Total(es, {Authorisation}) + Total(es, {AuthorisationVoid})
      && s.capturedCents == Total(es, {Capture}) && s.refundedCents == -Total(es, {Refund})
      && s.paidOutCents == -Total(es, {Payout}) - Total(es, {PayoutReversal})
      && s.netCents == s.capturedCents - s.refundedCents - s.paidOutCents
  {
    NetAddsUp(es);
    hide Total;
    assert {Authorisation, AuthorisationVoid} == {Authorisation} + {AuthorisationVoid};
    assert {Payout, PayoutReversal} == {Payout} + {PayoutReversal};
    TotalSplit(es, {Authorisation}, {AuthorisationVoid});
    TotalSplit(es, {Payout}, {PayoutReversal});
  }

  lemma KindTotals(db: Db, j: Id, gross: int)
    requires LedgerGood(db) && (ApprovedGross(db.quotes, j).Some? ==> ApprovedGross(db.quotes, j).value == gross)
    ensures var es, m := EntriesOf(db.ledger, j), MovedOf(db.ledger, j);
      && Total(es, {Authorisation}) == m.holds * gross && Total(es, {AuthorisationVoid}) == -(m.voids * gross)
      && Total(es, {Capture}) == m.captures * gross && Total(es, {Refund}) == 0 && Total(es, {PayoutReversal}) == 0
  {
    hide Total, EntriesOf, Count, EntryOf, MovedSafely, MovedInTime, ApprovedGross;
    assert forall e :: e in db.ledger && e.jobId == j ==> EntryGood(db.quotes, e);
    TotalByCount(db.ledger, j, Authorisation, gross);
    TotalByCount(db.ledger, j, AuthorisationVoid, -gross);
    TotalByCount(db.ledger, j, Capture, gross);
    NoneOfKind(db.ledger, j, Refund);
    NoneOfKind(db.ledger, j, PayoutReversal);
  }

  lemma NoneOfKind(ledger: seq<Entry>, j: Id, kind: EntryKind)
    requires forall e :: e in ledger && e.jobId == j ==> e.kind != kind
    ensures Total(EntriesOf(ledger, j), {kind}) == 0
  {
    TotalByCount(ledger, j, kind, 0);
  }

  ghost predicate BooksOfDoneWork(db: Db, j: Id) {
    var gross := ApprovedGross(db.quotes, j);
    gross.Some? &&
    exists p :: p in db.ledger && p.jobId == j && p.kind.Payout? &&
                Summarise(EntriesOf(db.ledger, j)) ==
                Summary(gross.value, gross.value, 0, -p.amountCents, gross.value + p.amountCents)
  }

  ghost predicate BooksOfCancelledWork(db: Db, j: Id) {
    var s := Summarise(EntriesOf(db.ledger, j));
    && s == Summary(s.authorisedCents, 0, 0, 0, 0)
    && (s.authorisedCents == 0 <==>
        !Happened(db.events, j, QuoteApproved) || ApprovedFirst(db.events, j, JobCancelled))
  }

  /** Once a failure-free run has gone quiet: a completed job's books show the approved
      gross held and captured, one payout, and net the difference; a cancelled job
      holds nothing and nets nothing, exactly unless its quote was approved only
      after the cancellation, when the gross stays reserved. */
  lemma BooksWhenQuiet(policy: Policy, steps: seq<SysStep>, j: Id)
    requires Calm(policy, START, steps, 0) && LawfulSys(policy, START, steps)
    requires Quiet(RunSys(policy, START, steps)) && j in RunSys(policy, START, steps).db.jobs
    ensures var db := RunSys(policy, START, steps).db;
      && (db.jobs[j].status.Completed? ==> BooksOfDoneWork(db, j))
      && (db.jobs[j].status.Cancelled? ==> BooksOfCancelledWork(db, j))
  {
    StartInv();
    hide SysInv, RunSys, LawfulSys, Calm, Happened, ApprovedFirst, MovedOf;
    var sys := RunSys(policy, START, steps);
    RunSysKeeps(policy, START, steps);
    SettledWhenQuiet(policy, steps, j);
    QuietBooks(sys, j);
  }

  lemma QuietBooks(sys: Sys, j: Id)
    requires SysInv(sys) && j in sys.db.jobs
    requires var db := sys.db;
      var m, status, approved := MovedOf(db.ledger, j), db.jobs[j].status, One(Happened(db.events, j, QuoteApproved));
      && (status.Completed? ==> m == Moved(1, 1, 1, 0))
      && (status.Cancelled? ==> m == Moved(approved, 0, 0, One(ApprovedFirst(db.events, j, JobCancelled))))
    ensures sys.db.jobs[j].status.Completed? ==> BooksOfDoneWork(sys.db, j)
    ensures sys.db.jobs[j].status.Cancelled? ==> BooksOfCancelledWork(sys.db, j)
  {
    var db := sys.db;
    var m, gross := MovedOf(db.ledger, j), ApprovedGross(db.quotes, j);
    hide SysInv, Happened, ApprovedFirst, Summarise, EntriesOf, ApprovedGross, MovedOf, BooksOfCancelledWork;
    SummaryOfJob(sys, j, if gross.Some? then gross.value else 0);
    if db.jobs[j].status.Completed? {
      GrossKnown(sys, j);
      OnePayout(db.ledger, j);
    } else if db.jobs[j].status.Cancelled? {
      ApprovedHappened(sys.db, j) by { InvOf(sys); }
      if m.holds > 0 { HeldGross(sys, j); }
      NoPayout(db.ledger, j);
      CancelledBooks(db, j, if gross.Some? then gross.value else 0);
    }
  }

  lemma ApprovedHappened(db: Db, j: Id)
    requires Inv(db) && j in db.jobs && db.jobs[j].status.Cancelled?
    ensures ApprovedFirst(db.events, j, JobCancelled) ==> Happened(db.events, j, QuoteApproved)
  {
    StatusHappened(db, j);
    hide Inv;
  }

  lemma CancelledBooks(db: Db, j: Id, gross: int)
    requires var m, s := MovedOf(db.ledger, j), Summarise(EntriesOf(db.ledger, j));
      && m == Moved(One(Happened(db.events, j, QuoteApproved)), 0, 0, One(ApprovedFirst(db.events, j, JobCancelled)))
      && s == Summary(m.holds * gross - m.voids * gross, 0, 0, 0, 0)
      && (m.holds > 0 ==> gross > 0)
    requires ApprovedFirst(db.events, j, JobCancelled) ==> Happened(db.events, j, QuoteApproved)
    ensures BooksOfCancelledWork(db, j)
  {
    hide Summarise, EntriesOf, MovedOf, Happened, ApprovedFirst;
  }

  lemma OnePayout(ledger: seq<Entry>, j: Id)
    requires MovedOf(ledger, j).payouts == 1
    ensures exists p :: p in ledger && p.jobId == j && p.kind.Payout?
              && Total(EntriesOf(ledger, j), {Payout}) == p.amountCents
  {
    var p := TotalOfOnly(ledger, j, Payout);
  }

  lemma NoPayout(ledger: seq<Entry>, j: Id)
    requires MovedOf(ledger, j).payouts == 0
    ensures Total(EntriesOf(ledger, j), {Payout}) == 0
  {
    CountNone(ledger, EntryOf(j, Payout));
    NoneOfKind(ledger, j, Payout) by {
      forall e | e in ledger && e.jobId == j ensures e.kind != Payout {
        var i :| 0 <= i < |ledger| && ledger[i] == e;
        assert !EntryOf(j, Payout)(ledger[i]);
      }
    }
  }

  lemma HeldGross(sys: Sys, j: Id)
    requires SysInv(sys) && MovedOf(sys.db.ledger, j).holds > 0
    ensures ApprovedGross(sys.db.quotes, j).Some? && ApprovedGross(sys.db.quotes, j).value > 0
  {
    assert LedgerGood(sys.db);
    hide SysInv;
    var i := CountWitness(sys.db.ledger, EntryOf(j, Authorisation));
    assert sys.db.ledger[i] in sys.db.ledger;
  }

  ghost predicate NetAsAgreed(db: Db, late: set<nat>, j: Id, gross: int) {
    exists a :: P.HasOneAssignment(db, j, a) && Summarise(EntriesOf(db.ledger, j)).netCents ==
      if P.LateOn(db, late, j) then gross - ProviderShare(gross) else gross - a.payoutNetCents
  }

  lemma AgreedNet(db: Db, late: set<nat>, j: Id, gross: int, e: Entry)
    requires Summarise(EntriesOf(db.ledger, j)).netCents == gross + e.amountCents
    requires exists a :: P.HasOneAssignment(db, j, a) &&
                         -e.amountCents == if P.LateOn(db, late, j) then ProviderShare(gross) else a.payoutNetCents
    ensures NetAsAgreed(db, late, j, gross)
  {
  }

  /** What the business keeps of a completed job is the approved gross less exactly the sum
      due; on a job that never fell through, less what its only provider accepted, unless
      that provider accepted again too late before the payout was priced. */
  lemma BooksAsAgreed(policy: Policy, steps: seq<SysStep>, j: Id)
    requires Calm(policy, START, steps, 0) && LawfulSys(policy, START, steps)
    requires Quiet(RunSys(policy, START, steps)) && j in RunSys(policy, START, steps).db.jobs
    requires RunSys(policy, START, steps).db.jobs[j].status.Completed?
    ensures var db := RunSys(policy, START, steps).db;
      var gross, late := ApprovedGross(db.quotes, j), P.LateOnes(policy, steps, j);
      && gross.Some?
      && Summarise(EntriesOf(db.ledger, j)).netCents == gross.value - P.SumDue(db, late, j, gross.value)
      && (P.NeverFell(db.events, j) ==> NetAsAgreed(db, late, j, gross.value))
  {
    var db := RunSys(policy, START, steps).db;
    hide RunSys, LawfulSys, Calm, Quiet, Summarise, EntriesOf, ApprovedGross, BooksOfCancelledWork, P.LateOnes,
      P.SumDue,
      P.NeverFell, P.HasOneAssignment, P.LateOn, NetAsAgreed;
    BooksWhenQuiet(policy, steps, j);
    var e :| e in db.ledger && e.jobId == j && e.kind.Payout?
      && Summarise(EntriesOf(db.ledger, j)).netCents == ApprovedGross(db.quotes, j).value + e.amountCents;
    P.PayoutIsExactly(policy, steps, e);
    if P.NeverFell(db.events, j) {
      P.PayoutIsAgreed(policy, steps, e);
      AgreedNet(db, P.LateOnes(policy, steps, j), j, ApprovedGross(db.quotes, j).value, e);
    }
  }
}
