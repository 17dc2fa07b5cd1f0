/** Which events get a message of their own, and which share one. */
module Announcements {
  import opened Contracts
  import opened Counting
  import opened OutboxKeys
  import opened Db
  import opened Machine
  import opened Tallies
  import opened Invariants
  import opened Preservation
  import opened Evolution
  import opened Runs
  import opened Outbox
  import opened TodoOrder
  import opened Histories
  import opened Answers

  predicate Published(e: Event) { TopicByEvent(e.kind).Some? }

  function TopicOf(e: Event): Topic
    requires Published(e)
  {
    TopicByEvent(e.kind).value
  }

  function KeyFor(e: Event): Key
    requires Published(e)
  {
    OutboxForEvent(e.jobId, e.kind, e.fields).value.key
  }

  predicate IsDecision(kind: EventType) { kind.QuoteApproved? || kind.QuoteRejected? }

  /** Of two events of one topic on one job: are they, for the outbox, the same occurrence?
      Answers are told apart by their offer, decisions by their quote, escalations by
      their reason; anything else on a job is one occurrence. */
  predicate SameOccurrence(e: Event, f: Event)
    requires Shape(e) && Shape(f)
  {
    if IsAnswer(e.kind) && IsAnswer(f.kind) then e.fields["offerId"] == f.fields["offerId"]
    else if IsDecision(e.kind) && IsDecision(f.kind) then e.fields["quoteId"] == f.fields["quoteId"]
    else if e.kind.DispatchEscalated? && f.kind.DispatchEscalated? then e.fields["reason"] == f.fields["reason"]
    else true
  }

  ghost predicate Keyed(e: Event) { Published(e) && Shape(e) && WellKeyed(e.jobId, e.kind, e.fields) }

  /** What tells the event apart, in the terms of its payload. */
  lemma Discriminated(e: Event)
    requires Shape(e) && Published(e)
    ensures DiscriminatorFor(e.kind, e.fields) ==
            if IsAnswer(e.kind) then [e.fields["offerId"]]
            else if IsDecision(e.kind) then [e.fields["quoteId"]]
            else if e.kind.DispatchEscalated? then [e.fields["reason"]]
            else []
  {
    hide IsUuid;
  }

  lemma OneRendered(p: Part, q: Part)
    requires p.Text? && q.Text? && RenderAll([p]) == RenderAll([q])
    ensures p == q
  {
    assert [p][1..] == [] && [q][1..] == [];
    assert RenderAll([p])[0] == p.text && RenderAll([q])[0] == q.text;
  }

  lemma SameTopicKinds(e: Event, f: Event)
    requires Published(e) && Published(f) && TopicOf(e) == TopicOf(f)
    ensures e.kind == f.kind || (IsDecision(e.kind) && IsDecision(f.kind))
  {
  }

  /** Two events share a message exactly if they are about the same job and topic and are the
      same occurrence. */
  lemma SameKeyIff(e: Event, f: Event)
    requires Keyed(e) && Keyed(f)
    ensures KeyFor(e) == KeyFor(f) <==> e.jobId == f.jobId && TopicOf(e) == TopicOf(f) && SameOccurrence(e, f)
  {
    Discriminated(e);
    Discriminated(f);
    var d, d' := DiscriminatorFor(e.kind, e.fields), DiscriminatorFor(f.kind, f.fields);
    if TopicOf(e) == TopicOf(f) { SameTopicKinds(e, f); }
    hide DedupeKeyFor, DiscriminatorFor, IsUuid, RenderAll;
    if KeyFor(e) == KeyFor(f) {
      KeyInjective(TopicOf(e), Some(e.jobId), d, TopicOf(f), Some(f.jobId), d');
      if d != [] { OneRendered(d[0], d'[0]) by { assert d == [d[0]] && d' == [d'[0]]; } }
    }
  }

  // ------------------------------------------------------------- a message or none

  /** The event a row was written for, as far as its message goes. */
  function EventOf(r: Row): Event { Event(r.jobId, r.event, None, r.fields) }

  /** The row carries the event's own payload. */
  predicate Carries(r: Row, e: Event) { r.jobId == e.jobId && r.event == e.kind && r.fields == e.fields }

  /** The row is for the same job, topic and occurrence. */
  predicate SaysAlready(r: Row, e: Event)
    requires Published(e) && Shape(e)
  {
    r.jobId == e.jobId && r.topic == TopicOf(e) && Shape(EventOf(r)) && SameOccurrence(EventOf(r), e)
  }

  lemma RowKeyed(db: Db, r: Row)
    requires LogGood(db) && Shaped(db.events) && r in db.outbox
    ensures Keyed(EventOf(r)) && KeyFor(EventOf(r)) == r.key && TopicOf(EventOf(r)) == r.topic
  {
    assert Projected(db.events, r);
    var x :| x in db.events && x.jobId == r.jobId && x.kind == r.event && x.fields == r.fields;
    assert Shape(x) && WellKeyed(x.jobId, x.kind, x.fields);
    hide WellKeyed, IsUuid, DedupeKeyFor;
  }

  /** A recorded event gets a message exactly if no message for the same job, topic and occurrence is
      in the table; it is the event's own. */
  lemma MessageIff(db: Db, e: Event, now: int)
    requires LogGood(db) && Shaped(db.events) && Keyed(e)
    ensures var o := RecordEvent(db, e, now).outbox;
      if exists r :: r in db.outbox && SaysAlready(r, e)
      then o == db.outbox
      else |o| == |db.outbox| + 1 && o[..|db.outbox|] == db.outbox && Carries(o[|db.outbox|], e)
  {
    forall r | r in db.outbox
      ensures r.key == KeyFor(e) <==> SaysAlready(r, e)
    {
      RowKeyed(db, r);
      SameKeyIff(EventOf(r), e);
    }
    hide SaysAlready, SameOccurrence, Shape, Keyed, LogGood, Shaped;
    assert KeyFor(e) in db.keys <==> exists r :: r in db.outbox && r.key == KeyFor(e) by { KeysAreRows(db, KeyFor(e)); }
  }

  lemma KeysAreRows(db: Db, key: Key)
    requires LogGood(db)
    ensures key in db.keys <==> exists r :: r in db.outbox && r.key == key
  {
    hide Projected, WellKeyed;
    if key in db.keys {
      var i :| 0 <= i < |db.outbox| && db.outbox[i].key == key;
      assert db.outbox[i] in db.outbox;
    }
  }

  // -------------------------------------------------------------- over whole runs

  /** The kinds of which each event has a message of its own. */
  predicate HasOwnMessage(kind: EventType) { IsAnswer(kind) || IsDecision(kind) || MovesMoney(kind) }

  /** No event of the list is the same occurrence. */
  ghost predicate NewTo(events: seq<Event>, e: Event)
    requires Published(e) && Shape(e)
  {
    forall x :: x in events && Published(x) && Shape(x) && x.jobId == e.jobId && TopicOf(x) == TopicOf(e) ==>
      !SameOccurrence(x, e)
  }

  /** A row of the event's own has joined the outbox. */
  ghost predicate Joins(a: seq<Row>, b: seq<Row>, e: Event) {
    a <= b && exists i :: |a| <= i < |b| && Carries(b[i], e)
  }

  lemma NewHasNoRow(db: Db, e: Event)
    requires LogGood(db) && Shaped(db.events) && Keyed(e) && NewTo(db.events, e)
    ensures !exists r :: r in db.outbox && SaysAlready(r, e)
  {
    hide IsUuid, WellKeyed, DedupeKeyFor, RowsIndexed, DiscriminatorFor;
    forall r | r in db.outbox ensures !SaysAlready(r, e) {
      RowKeyed(db, r);
      assert Projected(db.events, r);
      var x :| x in db.events && x.jobId == r.jobId && x.kind == r.event && x.fields == r.fields;
      assert Published(x) && Shape(x) && TopicOf(x) == r.topic;
      assert SameOccurrence(x, e) == SameOccurrence(EventOf(r), e);
    }
  }

  lemma RecordGood(db: Db, e: Event, now: int)
    requires LogGood(db) && Shaped(db.events) && WellKeyed(e.jobId, e.kind, e.fields) && Shape(e)
    ensures LogGood(RecordEvent(db, e, now)) && Shaped(RecordEvent(db, e, now).events)
  {
    RecordKeepsOutbox(db, e, now);
    hide RecordEvent, OutboxOk, WellKeyed, Shape;
  }

  lemma {:induction false} RecordsOwn(db: Db, es: seq<Event>, now: int, p: nat)
    requires LogGood(db) && Shaped(db.events) && p < |es| && Published(es[p])
    requires forall e :: e in es ==> WellKeyed(e.jobId, e.kind, e.fields) && Shape(e)
    requires NewTo(db.events + es[..p], es[p])
    ensures Joins(db.outbox, RecordAll(db, es, now).outbox, es[p])
    decreases |es|
  {
    var db1, rest := RecordEvent(db, es[0], now), es[1..];
    var end := RecordAll(db, es, now);
    assert es[0] in es;
    hide LogGood, Shaped, WellKeyed, Shape, RecordEvent, Joins, NewTo, Carries;
    if p == 0 {
      assert db.events + es[..0] == db.events;
      FirstOwns(db, es[0], end, now) by { RecordAllAppends(db1, rest, now); }
    } else {
      RecordGood(db, es[0], now);
      assert db1.events == db.events + [es[0]];
      assert db1.events + rest[..p - 1] == db.events + es[..p];
      RecordsOwn(db1, rest, now, p - 1);
      RecordAppends(db, es[0], now);
      JoinsLater(db.outbox, db1.outbox, end.outbox, es[p]);
    }
  }

  lemma FirstOwns(db: Db, e: Event, end: Db, now: int)
    requires LogGood(db) && Shaped(db.events) && Keyed(e) && NewTo(db.events, e)
    requires RecordEvent(db, e, now).outbox <= end.outbox
    ensures Joins(db.outbox, end.outbox, e)
  {
    hide LogGood, Shaped, Keyed, RecordEvent, NewTo, Carries;
    NewHasNoRow(db, e);
    MessageIff(db, e, now);
    var n, o := |db.outbox|, RecordEvent(db, e, now).outbox;
    assert end.outbox[n] == o[n] && o[..n] == end.outbox[..n];
  }

  lemma JoinsLater(a: seq<Row>, b: seq<Row>, c: seq<Row>, e: Event)
    requires a <= b && Joins(b, c, e)
    ensures Joins(a, c, e)
  {
    hide Carries;
  }

  lemma TwoDecisions(events: seq<Event>, p: nat, q: nat, j: Id)
    requires p < q < |events| && events[p].jobId == j && events[q].jobId == j
    requires IsDecision(events[p].kind) && IsDecision(events[q].kind)
    ensures Count(events, KindOf(j, QuoteApproved)) + Count(events, KindOf(j, QuoteRejected)) >= 2
  {
    hide Count;
    if events[p].kind == events[q].kind {
      CountPair(events, p, q, KindOf(j, events[q].kind));
    } else {
      CountSome(events, p, KindOf(j, events[p].kind));
      CountSome(events, q, KindOf(j, events[q].kind));
    }
  }

  /** On one job a quote is decided once. */
  lemma DecidedOnce(db: Db, p: nat, q: nat)
    requires Inv(db) && p < q < |db.events| && db.events[p].jobId == db.events[q].jobId
    ensures !(IsDecision(db.events[p].kind) && IsDecision(db.events[q].kind))
  {
    EventsJob(db, q);
    hide Inv, Count;
    HappensOnce(db, db.events[q].jobId);
    if IsDecision(db.events[p].kind) && IsDecision(db.events[q].kind) {
      TwoDecisions(db.events, p, q, db.events[q].jobId);
    }
  }

  lemma EventsJob(db: Db, q: nat)
    requires Inv(db) && q < |db.events|
    ensures db.events[q].jobId in db.jobs
  {
    assert db.events[q] in db.events;
  }

  lemma OwnIsNew(db: Db, p: nat, q: nat)
    requires Inv(db) && OffersGood(db) && Shaped(db.events) && p < q < |db.events|
    requires var e, f := db.events[p], db.events[q];
      HasOwnMessage(f.kind) && Published(e) && Published(f) && e.jobId == f.jobId && TopicOf(e) == TopicOf(f)
    ensures db.events[p] in db.events && db.events[q] in db.events && Shape(db.events[p]) && Shape(db.events[q])
    ensures !SameOccurrence(db.events[p], db.events[q])
  {
    var e, f := db.events[p], db.events[q];
    SameTopicKinds(e, f);
    DecidedOnce(db, p, q);
    if MovesMoney(f.kind) { KindsOnce(db, p, q); }
    hide Inv;
    assert !SameAnswer(e, f);
  }

  lemma ShapedAt(events: seq<Event>, q: nat)
    requires Shaped(events) && q < |events|
    ensures Shape(events[q])
  {
    assert events[q] in events;
  }

  lemma AllNew(db: Db, q: nat)
    requires q < |db.events| && HasOwnMessage(db.events[q].kind) && Shape(db.events[q]) && Published(db.events[q])
    requires Inv(db) && OffersGood(db) && Shaped(db.events)
    ensures NewTo(db.events[..q], db.events[q])
  {
    hide Inv, OffersGood, SameOccurrence, Shape, Shaped, HasOwnMessage, Published;
    var f := db.events[q];
    forall x | x in db.events[..q] && Published(x) && Shape(x) && x.jobId == f.jobId && TopicOf(x) == TopicOf(f)
      ensures !SameOccurrence(x, f)
    {
      var p :| 0 <= p < q && db.events[..q][p] == x;
      assert db.events[p] == x;
      OwnIsNew(db, p, q);
    }
  }

  /** In every run, whenever an offer is accepted, declined or expires, a quote is decided or a job
      completed or cancelled, a message with that event's own payload joins the outbox. */
  lemma OwnMessage(policy: Policy, before: seq<Step>, s: Step, q: nat)
    requires Lawful(policy, EMPTY, before) && Admissible(Run(policy, EMPTY, before), s) && !s.Retain?
    requires var db := Run(policy, EMPTY, before);
      |db.events| <= q < |Apply(policy, db, s).events| && HasOwnMessage(Apply(policy, db, s).events[q].kind)
    ensures var db := Run(policy, EMPTY, before);
      Joins(db.outbox, Apply(policy, db, s).outbox, Apply(policy, db, s).events[q])
  {
    var db := Run(policy, EMPTY, before);
    ReachableInv(policy, before);
    ReachableOffers(policy, before);
    EmptyInv();
    hide Run, Lawful, Apply, Admissible, Inv, OffersGood, Shaped, HasOwnMessage, Joins;
    RunShapes(policy, EMPTY, before) by { assert Shaped(EMPTY.events); }
    StepOwns(policy, db, s, q);
  }

  lemma AllGood(policy: Policy, db: Db, s: Step)
    requires Inv(db) && OffersGood(db) && Shaped(db.events) && Admissible(db, s)
    ensures var db' := Apply(policy, db, s);
      && Inv(db') && OffersGood(db') && Shaped(db'.events)
      && LogGood(db) && LogGood(db')
  {
    RefsOf(db);
    hide Inv, OffersGood, Shaped, Apply, Admissible, Refs, LogGood;
    StepKeeps(policy, db, s);
    StepOffers(policy, db, s);
    StepShapes(policy, db, s);
    LogOfInv(db);
    LogOfInv(Apply(policy, db, s));
  }

  lemma RefsOf(db: Db)
    requires Inv(db)
    ensures Refs(db)
  {
  }

  lemma StepOwns(policy: Policy, db: Db, s: Step, q: nat)
    requires Inv(db) && OffersGood(db) && Shaped(db.events) && Admissible(db, s) && !s.Retain?
    requires |db.events| <= q < |Apply(policy, db, s).events| && HasOwnMessage(Apply(policy, db, s).events[q].kind)
    ensures Joins(db.outbox, Apply(policy, db, s).outbox, Apply(policy, db, s).events[q])
  {
    var db', n := Apply(policy, db, s), |db.events|;
    hide Inv, OffersGood, Shaped, Apply, Admissible, LogGood, NewTo, Shape, Joins, HasOwnMessage, Records, Published;
    AllGood(policy, db, s);
    ShapedAt(db'.events, q);
    OwnIsPublished(db'.events[q]);
    AllNew(db', q);
    StepRecords(policy, db, s);
    RecordedOwns(db, db', StepTime(s), q);
  }

  lemma OwnIsPublished(e: Event)
    requires HasOwnMessage(e.kind)
    ensures Published(e)
  {
  }

  lemma RecordedOwns(db: Db, db': Db, now: int, q: nat)
    requires LogGood(db) && Shaped(db.events) && LogGood(db') && Shaped(db'.events) && Records(db, db', now)
    requires |db.events| <= q < |db'.events| && Published(db'.events[q]) && Shape(db'.events[q])
    requires NewTo(db'.events[..q], db'.events[q])
    ensures Joins(db.outbox, db'.outbox, db'.events[q])
  {
    hide LogGood, NewTo, RecordAll, WellKeyed, Shape, Joins, Shaped;
    var n := |db.events|;
    var es := db'.events[n..];
    assert db'.events == db.events + es && db.events + es[..q - n] == db'.events[..q] && es[q - n] == db'.events[q];
    EventsKeyed(db', es);
    EventsShaped(db', es);
    RecordsOwn(db, es, now, q - n);
  }

  lemma EventsShaped(db: Db, es: seq<Event>)
    requires Shaped(db.events) && forall e :: e in es ==> e in db.events
    ensures forall e :: e in es ==> Shape(e)
  {
  }
}
