/** The events that move money, in the order they happened and the order they are handled. */
module TodoOrder {
  import opened Contracts
  import opened Counting
  import opened OutboxKeys
  import opened Db
  import opened Machine
  import opened Tallies
  import opened Invariants
  import opened Preservation
  import opened Evolution
  import opened Outbox

  /** The position of the first event of a kind on a job, or the length. */
  function FirstPos(events: seq<Event>, j: Id, kind: EventType): (p: nat)
    ensures p <= |events|
    ensures p < |events| ==> events[p].jobId == j && events[p].kind == kind
    ensures forall i :: 0 <= i < p ==> !(events[i].jobId == j && events[i].kind == kind)
  {
    if events == [] then 0
    else if events[0].jobId == j && events[0].kind == kind then 0
    else 1 + FirstPos(events[1..], j, kind)
  }

  predicate Happened(events: seq<Event>, j: Id, kind: EventType) {
    FirstPos(events, j, kind) < |events|
  }

  lemma HappenedCounts(events: seq<Event>, j: Id, kind: EventType)
    ensures Happened(events, j, kind) <==> Count(events, KindOf(j, kind)) > 0
  {
    var p := FirstPos(events, j, kind);
    if p < |events| { CountSome(events, p, KindOf(j, kind)); }
    if Count(events, KindOf(j, kind)) > 0 { var i := CountWitness(events, KindOf(j, kind)); }
  }

  /** Appending events leaves the first position of what happened alone. */
  lemma FirstPosPrefix(a: seq<Event>, b: seq<Event>, j: Id, kind: EventType)
    requires a <= b
    ensures Happened(a, j, kind) ==> FirstPos(b, j, kind) == FirstPos(a, j, kind)
    ensures !Happened(a, j, kind) ==> FirstPos(b, j, kind) >= |a|
  {
    var p, q := FirstPos(a, j, kind), FirstPos(b, j, kind);
    assert forall i :: 0 <= i < |a| ==> a[i] == b[i];
  }

  predicate MovesMoney(kind: EventType) {
    kind.QuoteApproved? || kind.JobCompleted? || kind.JobCancelled?
  }

  datatype Errand = Errand(jobId: Id, kind: EventType)

  function ErrandOf(r: Row): Errand { Errand(r.jobId, r.event) }

  function Errands(rows: seq<Row>): (t: seq<Errand>)
    ensures |t| == |rows| && forall i :: 0 <= i < |rows| ==> t[i] == ErrandOf(rows[i])
  {
    seq(|rows|, i requires 0 <= i < |rows| => ErrandOf(rows[i]))
  }

  /** What was just recorded: each money event has a new errand, in order of happening. */
  ghost predicate Announced(before: seq<Event>, after: seq<Event>, added: seq<Errand>) {
    && (forall i :: |before| <= i < |after| && MovesMoney(after[i].kind) ==>
          Errand(after[i].jobId, after[i].kind) in added)
    && (forall t :: t in added && MovesMoney(t.kind) ==> |before| <= FirstPos(after, t.jobId, t.kind) < |after|)
    && (forall a, b :: 0 <= a < b < |added| && MovesMoney(added[a].kind) && MovesMoney(added[b].kind) ==>
          FirstPos(after, added[a].jobId, added[a].kind) < FirstPos(after, added[b].jobId, added[b].kind))
  }

  /** A job's quote is approved, completed or cancelled at most once, and never both approved and rejected. */
  lemma HappensOnce(db: Db, j: Id)
    requires Inv(db) && j in db.jobs
    ensures Count(db.events, KindOf(j, QuoteApproved)) + Count(db.events, KindOf(j, QuoteRejected)) <= 1
    ensures Count(db.events, KindOf(j, JobCompleted)) <= 1 && Count(db.events, KindOf(j, JobCancelled)) <= 1
  {
    hide Core;
    assert Good(TallyOf(db, j));
  }

  /** The same as of the history alone. */
  ghost predicate Once(events: seq<Event>) {
    forall a, b :: 0 <= a < b < |events| && events[a].jobId == events[b].jobId && MovesMoney(events[b].kind) ==>
      TopicByEvent(events[a].kind) != TopicByEvent(events[b].kind)
  }

  /** Two kinds that share a topic with a money event, both counted on one job. */
  lemma KindsOnce(db: Db, a: nat, b: nat)
    requires Inv(db) && a < b < |db.events| && db.events[a].jobId == db.events[b].jobId && MovesMoney(db.events[b].kind)
    ensures db.events[a].kind != db.events[b].kind
    ensures !(db.events[a].kind.QuoteRejected? && db.events[b].kind.QuoteApproved?)
  {
    var e, f, j := db.events[a], db.events[b], db.events[b].jobId;
    assert j in db.jobs by { assert f in db.events; }
    HappensOnce(db, j);
    hide Inv;
    CountSome(db.events, a, KindOf(j, e.kind));
    CountSome(db.events, b, KindOf(j, f.kind));
    if e.kind == f.kind { CountPair(db.events, a, b, KindOf(j, f.kind)); }
  }

  lemma InvOnce(db: Db)
    requires Inv(db)
    ensures Once(db.events)
  {
    hide Inv;
    forall a, b | 0 <= a < b < |db.events| && db.events[a].jobId == db.events[b].jobId && MovesMoney(db.events[b].kind)
      ensures TopicByEvent(db.events[a].kind) != TopicByEvent(db.events[b].kind)
    {
      KindsOnce(db, a, b);
    }
  }

  /** Every row's event is in the history, and rows and history are well keyed. */
  ghost predicate LogGood(db: Db) {
    OutboxOk(db) && forall e :: e in db.events ==> WellKeyed(e.jobId, e.kind, e.fields)
  }

  /** A money event that has not happened before always gets a row of its own. */
  lemma MoneyEventGetsRow(db: Db, e: Event, now: int)
    requires LogGood(db) && WellKeyed(e.jobId, e.kind, e.fields) && MovesMoney(e.kind)
    requires forall x :: x in db.events && x.jobId == e.jobId ==> TopicByEvent(x.kind) != TopicByEvent(e.kind)
    ensures |RecordEvent(db, e, now).outbox| == |db.outbox| + 1
    ensures RecordEvent(db, e, now).outbox[..|db.outbox|] == db.outbox
    ensures ErrandOf(RecordEvent(db, e, now).outbox[|db.outbox|]) == Errand(e.jobId, e.kind)
  {
    var draft := OutboxForEvent(e.jobId, e.kind, e.fields).value;
    if draft.key in db.keys {
      var i :| 0 <= i < |db.outbox| && db.outbox[i].key == draft.key;
      var r := db.outbox[i];
      assert r in db.outbox && Projected(db.events, r);
      var x :| x in db.events && x.jobId == r.jobId && x.kind == r.event && x.fields == r.fields;
      SameKeySameJob(e.jobId, e.kind, e.fields, r.jobId, r.event, r.fields);
      assert false;
    }
  }

  lemma OtherEventErrand(db: Db, e: Event, now: int)
    ensures var o := RecordEvent(db, e, now).outbox;
      || o == db.outbox
      || (|o| == |db.outbox| + 1 && o[..|db.outbox|] == db.outbox
          && ErrandOf(o[|db.outbox|]) == Errand(e.jobId, e.kind))
  {
    hide OutboxForEvent;
  }

  lemma RecordKeepsLog(db: Db, e: Event, now: int)
    requires LogGood(db) && WellKeyed(e.jobId, e.kind, e.fields)
    ensures LogGood(RecordEvent(db, e, now))
  {
    hide OutboxOk, WellKeyed;
    RecordKeepsOutbox(db, e, now);
    hide RecordEvent;
  }

  lemma AnnouncedOne(events: seq<Event>, e: Event, added: seq<Errand>)
    requires Once(events + [e])
    requires added == [Errand(e.jobId, e.kind)] || (added == [] && !MovesMoney(e.kind))
    ensures Announced(events, events + [e], added)
  {
    var after := events + [e];
    if MovesMoney(e.kind) {
      assert after[|events|] == e;
      FirstPosPrefix(events, after, e.jobId, e.kind);
      OnceLast(events, e);
      assert !Happened(events, e.jobId, e.kind);
    }
  }

  lemma AnnouncedConcat(a: seq<Event>, b: seq<Event>, c: seq<Event>, s: seq<Errand>, t: seq<Errand>)
    requires a <= b <= c && Announced(a, b, s) && Announced(b, c, t)
    ensures Announced(a, c, s + t)
  {
    forall x | x in s && MovesMoney(x.kind) ensures FirstPos(c, x.jobId, x.kind) == FirstPos(b, x.jobId, x.kind) {
      FirstPosPrefix(b, c, x.jobId, x.kind);
    }
    assert forall i :: 0 <= i < |b| ==> b[i] == c[i];
  }

  lemma {:induction false} RecordAllAnnounces(db: Db, es: seq<Event>, now: int)
    requires LogGood(db) && Once(db.events + es)
    requires forall e :: e in es ==> WellKeyed(e.jobId, e.kind, e.fields)
    ensures var db' := RecordAll(db, es, now);
      && db.outbox <= db'.outbox && db'.events == db.events + es
      && Announced(db.events, db'.events, Errands(db'.outbox[|db.outbox|..]))
    decreases |es|
  {
    if es == [] {
      assert db.events + es == db.events;
    } else {
      hide LogGood, WellKeyed, RecordEvent, Announced, Once, Errands;
      var e, db1 := es[0], RecordEvent(db, es[0], now);
      var db' := RecordAll(db1, es[1..], now);
      NextOnce(db.events, es);
      RecordKeepsLog(db, e, now);
      OneErrand(db, e, now);
      RecordAllAnnounces(db1, es[1..], now);
      AnnouncedConcat(db.events, db1.events, db'.events, Errands(db1.outbox[|db.outbox|..]),
                      Errands(db'.outbox[|db1.outbox|..]));
      ErrandsSince(db.outbox, db1.outbox, db'.outbox);
    }
  }

  lemma NextOnce(events: seq<Event>, es: seq<Event>)
    requires Once(events + es) && es != []
    ensures Once(events + [es[0]]) && Once((events + [es[0]]) + es[1..]) && (events + [es[0]]) + es[1..] == events + es
  {
    assert (events + [es[0]]) + es[1..] == events + es;
    assert (events + es)[..|events| + 1] == events + [es[0]];
    OncePrefix(events + es, |events| + 1);
  }

  lemma ErrandsSince(a: seq<Row>, b: seq<Row>, c: seq<Row>)
    requires a <= b <= c
    ensures Errands(c[|a|..]) == Errands(b[|a|..]) + Errands(c[|b|..])
  {
    assert c[|a|..] == b[|a|..] + c[|b|..];
  }

  lemma OneErrand(db: Db, e: Event, now: int)
    requires LogGood(db) && WellKeyed(e.jobId, e.kind, e.fields) && Once(db.events + [e])
    ensures var db1 := RecordEvent(db, e, now);
      db.outbox <= db1.outbox && Announced(db.events, db1.events, Errands(db1.outbox[|db.outbox|..]))
  {
    var db1 := RecordEvent(db, e, now);
    if MovesMoney(e.kind) {
      OnceLast(db.events, e);
      MoneyEventGetsRow(db, e, now);
    }
    OtherEventErrand(db, e, now);
    hide LogGood, WellKeyed, RecordEvent;
    var added := Errands(db1.outbox[|db.outbox|..]);
    assert added == [] || added == [Errand(e.jobId, e.kind)];
    AnnouncedOne(db.events, e, added);
  }

  lemma OnceLast(events: seq<Event>, e: Event)
    requires Once(events + [e]) && MovesMoney(e.kind)
    ensures forall x :: x in events && x.jobId == e.jobId ==> TopicByEvent(x.kind) != TopicByEvent(e.kind)
  {
    forall x | x in events && x.jobId == e.jobId ensures TopicByEvent(x.kind) != TopicByEvent(e.kind) {
      var i :| 0 <= i < |events| && events[i] == x;
      assert (events + [e])[i] == x && (events + [e])[|events|] == e;
    }
  }

  lemma OncePrefix(events: seq<Event>, n: nat)
    requires Once(events) && n <= |events|
    ensures Once(events[..n])
  {
  }

  /** An API step announces exactly the money events it records. */
  lemma StepAnnounces(policy: Policy, db: Db, s: Step)
    requires Inv(db) && Admissible(db, s) && !s.Retain?
    ensures var db' := Apply(policy, db, s);
      && db.outbox <= db'.outbox && db.events <= db'.events
      && Announced(db.events, db'.events, Errands(db'.outbox[|db.outbox|..]))
  {
    hide Inv, Apply, Admissible, Announced, LogGood, WellKeyed, Once, RecordAll;
    var db' := Apply(policy, db, s);
    StepRecords(policy, db, s);
    StepKeeps(policy, db, s);
    InvOnce(db');
    LogOfInv(db);
    LogOfInv(db');
    var es := db'.events[|db.events|..];
    assert db'.events == db.events + es;
    EventsKeyed(db', es);
    RecordAllAnnounces(db, es, StepTime(s));
  }

  lemma EventsKeyed(db: Db, es: seq<Event>)
    requires LogGood(db) && forall e :: e in es ==> e in db.events
    ensures forall e :: e in es ==> WellKeyed(e.jobId, e.kind, e.fields)
  {
  }

  lemma LogOfInv(db: Db)
    requires Inv(db)
    ensures LogGood(db)
  {
    hide OutboxOk, AskedOnce, JobsGood, WellKeyed;
  }
}
