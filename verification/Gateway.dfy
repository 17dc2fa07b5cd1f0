/** The development gateway and the payment handlers, as the objects that run them. */
module Gateway {
  import opened Contracts
  import opened OutboxKeys
  import opened Db
  import Dispatch
  import opened Machine
  import opened System
  import opened Queue
  import opened Store

  class MockPaymentGateway {
    var authorisations: map<Reference, int>

    constructor ()
      ensures authorisations == map[]
    {
      authorisations := map[];
    }

    /** None when the gateway refuses the amount; otherwise the reference of the hold. */
    method Authorise(jobId: Id, amountCents: int) returns (reference: Option<Reference>)
      modifies this
      ensures var after := System.Authorise(old(authorisations), jobId, amountCents);
        if after.None? then reference.None? && authorisations == old(authorisations)
        else reference == Some(AuthReference(jobId)) && authorisations == after.value
    {
      if amountCents <= 0 { return None; }
      var r := Reference("auth", AuthKey(jobId));
      if r !in authorisations { authorisations := authorisations[r := amountCents]; }
      return Some(r);
    }

    method Capture(reference: Reference, amountCents: int) returns (captured: Option<Reference>)
      ensures captured.Some? <==> Capturable(authorisations, reference, amountCents)
      ensures captured.Some? ==> captured.value == Reference("capture", RefText(reference))
    {
      if amountCents <= 0 { return None; }
      if reference !in authorisations { return None; }
      if amountCents > authorisations[reference] { return None; }
      return Some(Reference("capture", RefText(reference)));
    }

    method Payout(key: string, amountCents: int) returns (paid: Option<Reference>)
      ensures paid == if amountCents <= 0 then None else Some(Reference("payout", key))
    {
      if amountCents <= 0 { return None; }
      return Some(Reference("payout", key));
    }
  }

  // ------------------------------------------------------- a handler, run through

  /** The handler of the message in hand run to its end, with nothing in between. */
  function Finish(sys: Sys): Sys
    requires sys.worker.Busy? && sys.worker.batch != []
    decreases StepsLeft(sys.worker.phase)
  {
    if sys.worker.phase.Finished? || sys.worker.phase.Thrown? then sys
    else
      HandlerEnds(sys, 0);
      Finish(Advance(sys, 0))
  }

  lemma FinishStep(sys: Sys)
    requires sys.worker.Busy? && sys.worker.batch != [] && !sys.worker.phase.Finished? && !sys.worker.phase.Thrown?
    ensures Advance(sys, 0).worker.Busy? && Advance(sys, 0).worker.batch == sys.worker.batch
    ensures Finish(sys) == Finish(Advance(sys, 0))
  {
    HandlerEnds(sys, 0);
  }

  function Outcome(threw: bool): Phase { if threw then Thrown else Finished }

  class PaymentHandlers {
    const store: MemoryStore
    const gateway: MockPaymentGateway

    constructor (store: MemoryStore, gateway: MockPaymentGateway)
      ensures this.store == store && this.gateway == gateway
    {
      this.store, this.gateway := store, gateway;
    }

    /** Store, gateway and a worker at some point of a handler. */
    function Now(batch: seq<Row>, p: Phase): Sys
      reads store, gateway
    {
      Sys(store.State(), gateway.authorisations, Busy(batch, p))
    }

    method AlreadyRecorded(jobId: Id, kind: EntryKind) returns (found: bool)
      ensures found == Recorded(store.ledger, jobId, kind)
    {
      found := FirstOf(store.ledger, jobId, kind).Some?;
    }

    /** quote.decided. */
    method Authorise(batch: seq<Row>) returns (threw: bool)
      requires batch != [] && batch[0].topic.TopicQuoteDecided?
      modifies store, gateway
      ensures Now(batch, Outcome(threw)) == Finish(old(Now(batch, AtStart)))
    {
      var m := batch[0];
      ghost var sys := Now(batch, AtStart);
      FinishStep(sys);
      sys := Advance(sys, 0);
      if !m.event.QuoteApproved? { return false; }
      var recorded := AlreadyRecorded(m.jobId, Authorisation);
      if recorded { return false; }

      assert sys == Now(batch, HoldWanted);
      FinishStep(sys);
      sys := Advance(sys, 0);
      var gross := ApprovedGross(store.quotes, m.jobId);
      if gross.None? { return false; }

      assert sys == Now(batch, HoldPriced(gross.value));
      FinishStep(sys);
      sys := Advance(sys, 0);
      var reference := gateway.Authorise(m.jobId, gross.value);
      if reference.None? { return true; }

      assert sys == Now(batch, HoldPlaced(gross.value, reference.value));
      FinishStep(sys);
      sys := Advance(sys, 0);
      var reply := store.AppendLedgerEntries([Entry(m.jobId, Authorisation, gross.value, reference)]);
      return reply.Refused?;
    }

    /** job.completed: take the money held, then pay whoever did the work. */
    method CaptureAndPay(batch: seq<Row>) returns (threw: bool)
      requires batch != [] && batch[0].topic.TopicJobCompleted?
      modifies store, gateway
      ensures Now(batch, Outcome(threw)) == Finish(old(Now(batch, AtStart)))
    {
      var m := batch[0];
      ghost var sys := Now(batch, AtStart);
      FinishStep(sys);
      sys := Advance(sys, 0);
      var authorisation := FirstOf(store.ledger, m.jobId, Authorisation);
      if authorisation.None? { return false; }
      var hold := authorisation.value;
      var captured := Recorded(store.ledger, m.jobId, Capture);
      var paid := Recorded(store.ledger, m.jobId, Payout);

      assert sys == Now(batch, CaptureSeen(hold, captured, paid));
      FinishStep(sys);
      sys := Advance(sys, 0);
      if !captured {
        var taken := gateway.Capture(HoldReference(hold), hold.amountCents);
        if taken.None? { return true; }
        assert sys == Now(batch, CaptureTaken(hold, paid, taken.value));
        FinishStep(sys);
        sys := Advance(sys, 0);
        var reply := store.AppendLedgerEntries([Entry(m.jobId, Capture, hold.amountCents, taken)]);
        if reply.Refused? { return true; }
      }
      if paid { return false; }
      assert sys == Now(batch, PayoutWanted(hold));
      threw := Pay(batch, hold);
    }

    /** The second half of it. */
    method Pay(batch: seq<Row>, hold: Entry) returns (threw: bool)
      requires batch != []
      modifies store
      ensures Now(batch, Outcome(threw)) == Finish(old(Now(batch, PayoutWanted(hold))))
    {
      hide PayoutKey, ActiveIndex, FirstAccepted, Dispatch.ProviderShare;
      var j := batch[0].jobId;
      ghost var sys := Now(batch, PayoutWanted(hold));
      FinishStep(sys);
      sys := Advance(sys, 0);
      var k := ActiveIndex(store.assignments, j);
      if k == |store.assignments| { return false; }
      var providerId := store.assignments[k].providerId;

      assert sys == Now(batch, PayoutTo(hold, providerId));
      FinishStep(sys);
      sys := Advance(sys, 0);
      var accepted := FirstAccepted(store.offers, j);
      var payoutCents := if accepted.Some? then accepted.value.payoutNetCents
        else Dispatch.ProviderShare(hold.amountCents);

      assert sys == Now(batch, PayoutPriced(providerId, payoutCents));
      FinishStep(sys);
      sys := Advance(sys, 0);
      var paid := gateway.Payout(PayoutKey(j, providerId), payoutCents);
      if paid.None? { return true; }

      assert sys == Now(batch, PayoutSent(payoutCents, paid.value));
      FinishStep(sys);
      sys := Advance(sys, 0);
      var reply := store.AppendLedgerEntries([Entry(j, Payout, -payoutCents, paid)]);
      return reply.Refused?;
    }

    /** job.cancelled: let go of the money held. */
    method Release(batch: seq<Row>) returns (threw: bool)
      requires batch != [] && batch[0].topic.TopicJobCancelled?
      modifies store
      ensures Now(batch, Outcome(threw)) == Finish(old(Now(batch, AtStart)))
    {
      var m := batch[0];
      ghost var sys := Now(batch, AtStart);
      FinishStep(sys);
      sys := Advance(sys, 0);
      var authorisation := FirstOf(store.ledger, m.jobId, Authorisation);
      if authorisation.None? { return false; }
      var captured := AlreadyRecorded(m.jobId, Capture);
      if captured { return false; }
      var released := AlreadyRecorded(m.jobId, AuthorisationVoid);
      if released { return false; }

      assert sys == Now(batch, ReleaseSeen(authorisation.value));
      FinishStep(sys);
      sys := Advance(sys, 0);
      var reply := store.AppendLedgerEntries(
        [Entry(m.jobId, AuthorisationVoid, -authorisation.value.amountCents, authorisation.value.reference)]);
      return reply.Refused?;
    }
  }
}
