/** The in-memory store: private maps and lists, updated in place by one method per operation. */
module Store {
  import opened Contracts
  import opened Counting
  import opened OutboxKeys
  import opened Db
  import Spec = Db

  /** Leasing one more row under distinct ids. */
  lemma LeaseOneMore(outbox: seq<Row>, ids: set<nat>, id: nat, until: int)
    requires forall i, j :: 0 <= i < j < |outbox| ==> outbox[i].id != outbox[j].id
    ensures var o := LeaseAll(outbox, ids, until);
      var k := RowIndex(o, id);
      (if k < |o| then o[k := o[k].(availableAt := until)] else o) == LeaseAll(outbox, ids + {id}, until)
  {
    var o := LeaseAll(outbox, ids, until);
    var k := RowIndex(o, id);
    var o' := LeaseAll(outbox, ids + {id}, until);
    hide RowIndex;
    forall i | 0 <= i < |o| && i != k ensures o'[i] == o[i] {
      assert outbox[i].id == o[i].id;
      if k < |o| { assert outbox[k].id == o[k].id == id; }
    }
  }

  lemma RowIdsGrow(rows: seq<Row>, i: nat)
    requires i < |rows|
    ensures RowIds(rows[..i + 1]) == RowIds(rows[..i]) + {rows[i].id}
  {
    assert rows[..i + 1] == rows[..i] + [rows[i]];
  }

  lemma LeaseNone(outbox: seq<Row>, due: seq<Row>, until: int)
    ensures LeaseAll(outbox, RowIds(due[..0]), until) == outbox
  {
  }

  lemma LeasedBatch(due: seq<Row>, until: int)
    ensures forall n :: 0 <= n < |due| ==> LeaseAll(due, RowIds(due), until)[n] == due[n].(availableAt := until)
  {
    forall n | 0 <= n < |due| ensures due[n].id in RowIds(due) { assert due[n] in due; }
  }

  function DueAt(now: int): Offer -> bool { (o: Offer) => Due(o, now) }

  lemma DueNext(offers: seq<Offer>, i: nat, now: int)
    requires i < |offers|
    ensures Count(offers[..i + 1], DueAt(now)) == Count(offers[..i], DueAt(now)) + if Due(offers[i], now) then 1 else 0
  {
    assert offers[..i + 1][..i] == offers[..i];
  }

  lemma NothingDue(now: int)
    ensures Count([], DueAt(now)) == 0 && Uncovered([], now) == []
  {
  }

  lemma UncoveredNext(offers: seq<Offer>, i: nat, now: int)
    requires i < |offers|
    ensures var before := Uncovered(offers[..i], now);
      Uncovered(offers[..i + 1], now) ==
      if Due(offers[i], now) && offers[i].jobId !in before then before + [offers[i].jobId] else before
  {
    assert offers[..i + 1][..i] == offers[..i];
  }

  class MemoryStore {
    var jobs: map<Id, Job>
    var quotes: seq<Quote>
    var offers: seq<Offer>
    var assignments: seq<Assignment>
    var events: seq<Event>
    var outbox: seq<Row>
    /** From dedupe key to row id, so that enqueuing the same intent again does nothing. */
    var keys: map<Key, nat>
    var nextRow: nat
    var ledger: seq<Entry>

    /** Everything stored, as one value. */
    function State(): Spec.Db
      reads this
    {
      Spec.Db.Db(jobs, quotes, offers, assignments, events, outbox, keys, nextRow, ledger)
    }

    constructor ()
      ensures State() == EMPTY
    {
      jobs, quotes, offers, assignments, events := map[], [], [], [], [];
      outbox, keys, nextRow, ledger := [], map[], 0, [];
    }

    method RecordEvent(e: Event, now: int)
      modifies this
      ensures State() == Spec.RecordEvent(old(State()), e, now)
    {
      events := events + [e];
      var draft := OutboxForEvent(e.jobId, e.kind, e.fields);
      if draft.Some? && draft.value.key !in keys {
        var id := nextRow;
        nextRow := nextRow + 1;
        keys := keys[draft.value.key := id];
        var row := Row(id, draft.value.topic, draft.value.key, e.jobId, e.kind, e.fields, RowPending, 0, 0, now, None);
        outbox := outbox + [row];
      }
    }

    // -------------------------------------------------------------------- jobs

    method CreateJob(id: Id, organizationId: Id, now: int)
      modifies this
      ensures State() == Spec.CreateJob(old(State()), id, organizationId, now).db
    {
      jobs := jobs[id := Job(organizationId, Draft, now)];
      RecordEvent(Event(id, JobCreated, None, map[]), now);
    }

    /** Sets the status and writes the event that says so. */
    method MoveJob(jobId: Id, to: JobStatus, kind: EventType, fields: map<string, Part>, now: int)
      requires jobId in jobs
      modifies this
      ensures State() == Spec.MoveJob(old(State()), jobId, to, kind, fields, now)
    {
      hide Spec.RecordEvent;
      var from := jobs[jobId].status;
      jobs := jobs[jobId := jobs[jobId].(status := to)];
      RecordEvent(Event(jobId, kind, Some(Move(from, to)), fields), now);
    }

    /** A job outside the caller's scope is reported as absent. */
    method RequireJob(jobId: Id, scope: Scope) returns (found: bool)
      ensures found <==> jobId in jobs && Visible(State(), jobId, scope)
    {
      found := jobId in jobs && Visible(State(), jobId, scope);
    }

    method TransitionJob(jobId: Id, scope: Scope, to: JobStatus, kind: EventType, fields: map<string, Part>, now: int)
      returns (reply: Reply)
      modifies this
      ensures State() == Spec.TransitionJob(old(State()), jobId, scope, to, kind, fields, now).db
      ensures reply == Spec.TransitionJob(old(State()), jobId, scope, to, kind, fields, now).reply
    {
      hide Visible, CanTransition, Spec.MoveJob;
      var found := RequireJob(jobId, scope);
      if !found {
        reply := Refused(NotFound);
      } else if !CanTransition(jobs[jobId].status, to) {
        reply := Refused(InvalidStateTransition);
      } else {
        MoveJob(jobId, to, kind, fields, now);
        reply := Done;
      }
    }

    // ------------------------------------------------------------------ quotes

    method CreateQuote(quote: Quote, now: int)
      modifies this
      ensures State() == Spec.CreateQuote(old(State()), quote, now)
    {
      quotes := quotes + [quote];
      RecordEvent(Event(quote.jobId, QuoteSent, None,
                        map["quoteId" := Text(quote.id), "grossCents" := Number(quote.grossCents)]), now);
    }

    method DecideQuote(quoteId: Id, scope: Scope, approve: bool, now: int) returns (reply: Reply)
      modifies this
      ensures Effect(State(), reply) == Spec.DecideQuote(old(State()), quoteId, scope, approve, now)
    {
      var k := QuoteIndex(quotes, quoteId);
      if k == |quotes| || !QuoteInScope(quotes[k], scope) { return Refused(NotFound); }
      var quote := quotes[k];
      if !quote.status.Sent? { return Refused(Conflict); }
      if quote.validUntil <= now {
        quotes := quotes[k := quote.(status := Lapsed)];
        return Refused(Conflict);
      }
      quotes := quotes[k := quote.(status := if approve then Approved else Rejected)];
      if quote.jobId !in jobs || !Visible(State(), quote.jobId, scope) { return Refused(NotFound); }
      RecordEvent(Event(quote.jobId, if approve then QuoteApproved else QuoteRejected, None,
                        map["quoteId" := Text(quote.id)]), now);
      return Done;
    }

    // ------------------------------------------------------------------ offers

    /** Providers asked before are passed over. */
    method CreateOffers(jobId: Id, providers: seq<Id>, ids: seq<Id>, payoutNetCents: int, expiresAt: int, now: int)
      returns (created: seq<Offer>)
      requires |ids| == |providers|
      modifies this
      ensures State() == Spec.CreateOffers(old(State()), jobId, providers, ids, payoutNetCents, expiresAt, now)
      ensures offers == old(offers) + created
    {
      created := [];
      var i := 0;
      while i < |providers|
        invariant i <= |providers|
        invariant offers == old(offers) + created
        invariant AddOffers(offers, jobId, providers[i..], ids[i..], payoutNetCents, expiresAt)
               == AddOffers(old(offers), jobId, providers, ids, payoutNetCents, expiresAt)
        invariant State() == old(State()).(offers := offers)
      {
        assert providers[i..][1..] == providers[i + 1..] && ids[i..][1..] == ids[i + 1..];
        if !HasOffer(offers, jobId, providers[i]) {
          var offer := Offer(ids[i], jobId, providers[i], Pending, payoutNetCents, expiresAt);
          offers := offers + [offer];
          created := created + [offer];
        }
        i := i + 1;
      }
      RecordEvent(Event(jobId, OffersSent, None,
                        map["providerCount" := Number(|created|), "payoutNetCents" := Number(payoutNetCents)]), now);
    }

    /** Every other open offer of the job is withdrawn in the same step. */
    method WithdrawOthers(jobId: Id, except: Id)
      modifies this`offers
      ensures offers == Withdraw(old(offers), jobId, except)
    {
      var i := 0;
      while i < |offers|
        invariant i <= |offers| == |old(offers)|
        invariant forall k :: 0 <= k < |offers| ==>
          offers[k] == if k < i then Withdraw(old(offers), jobId, except)[k] else old(offers)[k]
      {
        if offers[i].jobId == jobId && offers[i].id != except && offers[i].status.Pending? {
          offers := offers[i := offers[i].(status := Withdrawn)];
        }
        i := i + 1;
      }
    }

    method AcceptOffer(offerId: Id, providerId: Id, now: int) returns (reply: Reply)
      modifies this
      ensures Effect(State(), reply) == Spec.AcceptOffer(old(State()), offerId, providerId, now)
    {
      var k := OfferIndex(offers, offerId);
      if k == |offers| || offers[k].providerId != providerId { return Refused(NotFound); }
      var offer := offers[k];
      if offer.status.Expired? || offer.expiresAt <= now {
        offers := offers[k := offer.(status := Expired)];
        return Refused(OfferExpiredError);
      }
      if !offer.status.Pending? { return Refused(OfferAlreadyTaken); }
      if ActiveIndex(assignments, offer.jobId) < |assignments| {
        offers := offers[k := offer.(status := Withdrawn)];
        return Refused(OfferAlreadyTaken);
      }
      if offer.jobId !in jobs { return Refused(NotFound); }
      if !CanTransition(jobs[offer.jobId].status, Assigned) { return Refused(InvalidStateTransition); }

      offers := offers[k := offer.(status := Accepted)];
      assignments := assignments + [Assignment(offer.jobId, offer.providerId, Active, offer.payoutNetCents)];
      WithdrawOthers(offer.jobId, offer.id);
      MoveJob(offer.jobId, Assigned, OfferAccepted,
              map["offerId" := Text(offer.id), "providerId" := Text(offer.providerId)], now);
      return Done;
    }

    method DeclineOffer(offerId: Id, providerId: Id, now: int) returns (reply: Reply)
      modifies this
      ensures Effect(State(), reply) == Spec.DeclineOffer(old(State()), offerId, providerId, now)
    {
      var k := OfferIndex(offers, offerId);
      if k == |offers| || offers[k].providerId != providerId { return Refused(NotFound); }
      var offer := offers[k];
      if !offer.status.Pending? { return Refused(Conflict); }
      offers := offers[k := offer.(status := Declined)];
      RecordEvent(Event(offer.jobId, OfferDeclined, None,
                        map["offerId" := Text(offer.id), "providerId" := Text(offer.providerId)]), now);
      return Done;
    }

    /** Expires one offer if it is due. */
    method ExpireAt(i: nat, now: int) returns (due: bool)
      requires i < |offers|
      modifies this
      ensures State() == ExpireOne(old(State()), i, now)
      ensures due == Due(old(offers)[i], now) && offers[i + 1..] == old(offers)[i + 1..]
    {
      hide Spec.RecordEvent;
      var offer := offers[i];
      due := Due(offer, now);
      if due {
        offers := offers[i := offer.(status := Expired)];
        RecordEvent(Event(offer.jobId, OfferExpired, None, map["offerId" := Text(offer.id)]), now);
      }
    }

    /** Expires what is due and tells which jobs that left uncovered. */
    method ExpireOffers(now: int) returns (expired: nat, jobIds: seq<Id>)
      modifies this
      ensures State() == Spec.ExpireOffers(old(State()), now)
      ensures jobIds == Uncovered(old(offers), now) && expired == Count(old(offers), DueAt(now))
      ensures expired == 0 <==> jobIds == []
    {
      hide ExpireOne, Due, Count, Uncovered;
      assert Count([], DueAt(now)) == 0 && Uncovered([], now) == [] by { NothingDue(now); }
      expired, jobIds := 0, [];
      var i := 0;
      while i < |offers|
        invariant i <= |offers| == |old(offers)|
        invariant offers[i..] == old(offers)[i..]
        invariant jobIds == Uncovered(old(offers)[..i], now) && expired == Count(old(offers)[..i], DueAt(now))
        invariant expired == 0 <==> jobIds == []
        invariant ExpireFrom(State(), i, now) == ExpireFrom(old(State()), 0, now)
      {
        var offer := offers[i];
        UncoveredNext(old(offers), i, now);
        DueNext(old(offers), i, now);
        assert offer == old(offers)[i..][0] && offers[i..][1..] == offers[i + 1..]
          && old(offers)[i..][1..] == old(offers)[i + 1..];
        var due := ExpireAt(i, now);
        if due {
          expired := expired + 1;
          if offer.jobId !in jobIds { jobIds := jobIds + [offer.jobId]; }
        }
        i := i + 1;
      }
      assert old(offers)[..i] == old(offers);
    }

    // ------------------------------------------------------------- assignments

    method FallbackAssignment(jobId: Id, now: int) returns (reply: Reply)
      modifies this
      ensures Effect(State(), reply) == Fallback(old(State()), jobId, now)
    {
      if jobId !in jobs { return Refused(NotFound); }
      var k := ActiveIndex(assignments, jobId);
      if k == |assignments| { return Refused(Conflict); }
      if !CanTransition(jobs[jobId].status, Quoted) { return Refused(InvalidStateTransition); }
      var a := assignments[k];
      assignments := assignments[k := a.(status := FellThrough)];
      MoveJob(jobId, Quoted, AssignmentFellThrough, map["providerId" := Text(a.providerId)], now);
      return Done;
    }

    method RecordJobEvent(e: Event, now: int) returns (reply: Reply)
      modifies this
      ensures Effect(State(), reply) == Spec.RecordJobEvent(old(State()), e, now)
    {
      if e.jobId !in jobs { return Refused(NotFound); }
      RecordEvent(e, now);
      return Done;
    }

    // ------------------------------------------------------------------ outbox

    /** Rows are kept under their ids, so no two share one. */
    ghost predicate RowIdsDiffer()
      reads this
    {
      forall i, j :: 0 <= i < j < |outbox| ==> outbox[i].id != outbox[j].id
    }

    method ClaimOutbox(now: int, limit: nat) returns (batch: seq<Row>)
      requires RowIdsDiffer()
      modifies this
      ensures (outbox, batch) == Spec.ClaimOutbox(old(outbox), now, limit)
      ensures State() == old(State()).(outbox := outbox)
    {
      hide RowIds, LeaseAll, DueBatch, RowIndex;
      var due := DueBatch(outbox, now, limit);
      var until := now + CLAIM_LEASE_MS;
      LeaseNone(outbox, due, until);
      batch := [];
      var i := 0;
      while i < |due|
        invariant i <= |due|
        invariant outbox == LeaseAll(old(outbox), RowIds(due[..i]), until)
        invariant |batch| == i && forall n :: 0 <= n < i ==> batch[n] == due[n].(availableAt := until)
        invariant State() == old(State()).(outbox := outbox)
      {
        RowIdsGrow(due, i);
        LeaseOneMore(old(outbox), RowIds(due[..i]), due[i].id, until);
        var k := RowIndex(outbox, due[i].id);
        if k < |outbox| { outbox := outbox[k := outbox[k].(availableAt := until)]; }
        batch := batch + [due[i].(availableAt := until)];
        i := i + 1;
      }
      assert due[..i] == due;
      LeasedBatch(due, until);
      assert batch == LeaseAll(due, RowIds(due), until);
    }

    method MarkOutboxDelivered(id: nat, now: int)
      modifies this
      ensures outbox == MarkDelivered(old(outbox), id, now) && State() == old(State()).(outbox := outbox)
    {
      var k := RowIndex(outbox, id);
      if k == |outbox| { return; }
      outbox := outbox[k := outbox[k].(status := RowSent, deliveredAt := Some(now))];
    }

    method MarkOutboxFailed(id: nat, retryAt: Option<int>)
      modifies this
      ensures outbox == MarkFailed(old(outbox), id, retryAt) && State() == old(State()).(outbox := outbox)
    {
      var k := RowIndex(outbox, id);
      if k == |outbox| { return; }
      var row := outbox[k];
      outbox := outbox[k := row.(
        attempts := row.attempts + 1,
        status := if retryAt.Some? then RowFailed else RowDead,
        availableAt := if retryAt.Some? then retryAt.value else row.availableAt)];
    }

    /** Forgets sent rows that are old enough, with their keys. */
    method RunRetention(olderThan: int) returns (removed: nat)
      modifies this
      ensures State() == Spec.RunRetention(old(State()), olderThan)
      ensures removed == |old(outbox)| - |outbox|
    {
      removed := 0;
      var i := 0;
      while i < |outbox|
        invariant i <= |outbox| && removed == |old(outbox)| - |outbox|
        invariant RetainFrom(State(), i, olderThan) == RetainFrom(old(State()), 0, olderThan)
        decreases |outbox| - i
      {
        if Removable(outbox[i], olderThan) {
          keys := keys - {outbox[i].key};
          outbox := outbox[..i] + outbox[i + 1..];
          removed := removed + 1;
        } else {
          i := i + 1;
        }
      }
    }

    // ------------------------------------------------------------------ ledger

    /** Entries before the first unlawful one are written. */
    method AppendLedgerEntries(entries: seq<Entry>) returns (reply: Reply)
      modifies this
      ensures (ledger, reply) == AppendEntries(old(ledger), entries)
      ensures State() == old(State()).(ledger := ledger)
    {
      var i := 0;
      while i < |entries|
        invariant i <= |entries|
        invariant AppendEntries(ledger, entries[i..]) == AppendEntries(old(ledger), entries)
        invariant State() == old(State()).(ledger := ledger)
      {
        assert entries[i..][1..] == entries[i + 1..];
        if entries[i].amountCents == 0 { return Refused(ValidationError); }
        var mustBePositive := MustBePositive(entries[i].kind);
        if mustBePositive != (entries[i].amountCents > 0) { return Refused(ValidationError); }
        ledger := ledger + [entries[i]];
        i := i + 1;
      }
      return Done;
    }
  }
}
