/** The store, the payment gateway and one outbox worker, as one state machine.
    Every await of a payment handler is a step of its own, so API requests may
    fall between any two of them, and so may a failure or a crash. */
module System {
  import opened Contracts
  import opened OutboxKeys
  import opened Db
  import opened Dispatch
  import opened Machine

  /** Where the worker is in the handler of the first message of its batch. */
  datatype Phase =
    | AtStart
    // authorise
    | HoldWanted
    | HoldPriced(gross: int)
    | HoldPlaced(gross: int, reference: Reference)
    // captureAndPay
    | CaptureSeen(hold: Entry, captured: bool, paid: bool)
    | CaptureTaken(hold: Entry, paid: bool, reference: Reference)
    | PayoutWanted(hold: Entry)
    | PayoutTo(hold: Entry, providerId: Id)
    | PayoutPriced(providerId: Id, cents: int)
    | PayoutSent(cents: int, reference: Reference)
    // release
    | ReleaseSeen(hold: Entry)
    // all
    | Finished
    | Thrown

  datatype Worker = Idle | Busy(batch: seq<Row>, phase: Phase)

  /** The gateway is outside the process: a crash does not touch its holds. */
  datatype Sys = Sys(db: Db, holds: map<Reference, int>, worker: Worker)

  datatype SysStep =
    | Api(step: Step)
    | Claim(now: int, limit: nat)
    | Go(now: int)
    | Fail
    | Crash

  const START: Sys := Sys(EMPTY, map[], Idle)

  // ----------------------------------------------------------------- gateway

  function AuthKey(j: Id): string { "auth:" + j }
  function AuthReference(j: Id): Reference { Reference("auth", AuthKey(j)) }
  function RefText(r: Reference): string { r.operation + ":" + r.key }

  /** Idempotent on its key: the first amount under a reference stays. */
  function Authorise(holds: map<Reference, int>, j: Id, cents: int): Option<map<Reference, int>> {
    if cents <= 0 then None
    else if AuthReference(j) in holds then Some(holds)
    else Some(holds[AuthReference(j) := cents])
  }

  predicate Capturable(holds: map<Reference, int>, r: Reference, cents: int) {
    cents > 0 && r in holds && cents <= holds[r]
  }

  // ---------------------------------------------------------------- handlers

  function FirstOf(ledger: seq<Entry>, j: Id, kind: EntryKind): Option<Entry> {
    if ledger == [] then None
    else if ledger[0].jobId == j && ledger[0].kind == kind then Some(ledger[0])
    else FirstOf(ledger[1..], j, kind)
  }

  predicate Recorded(ledger: seq<Entry>, j: Id, kind: EntryKind) {
    FirstOf(ledger, j, kind).Some?
  }

  function HoldReference(hold: Entry): Reference {
    if hold.reference.Some? then hold.reference.value else Reference("", AuthKey(hold.jobId))
  }

  function CaptureReference(hold: Entry): Reference {
    Reference("capture", RefText(HoldReference(hold)))
  }

  /** What the handler of a topic does first: one read of the ledger. */
  function Begin(ledger: seq<Entry>, m: Row): Phase {
    var hold := FirstOf(ledger, m.jobId, Authorisation);
    match m.topic
    case TopicQuoteDecided =>
      if !m.event.QuoteApproved? || hold.Some? then Finished else HoldWanted
    case TopicJobCompleted =>
      if hold.None? then Finished
      else CaptureSeen(hold.value, Recorded(ledger, m.jobId, Capture), Recorded(ledger, m.jobId, Payout))
    case TopicJobCancelled =>
      if hold.None? || Recorded(ledger, m.jobId, Capture) || Recorded(ledger, m.jobId, AuthorisationVoid) then Finished
      else ReleaseSeen(hold.value)
    case _ => Finished
  }

  function FirstAccepted(offers: seq<Offer>, j: Id): Option<Offer> {
    if offers == [] then None
    else if offers[0].jobId == j && offers[0].status.Accepted? then Some(offers[0])
    else FirstAccepted(offers[1..], j)
  }

  /** The payout is the first accepted offer's, or a share when there is none. */
  function PayoutCents(offers: seq<Offer>, j: Id, hold: Entry): int {
    var accepted := FirstAccepted(offers, j);
    if accepted.Some? then accepted.value.payoutNetCents else ProviderShare(hold.amountCents)
  }

  function PayoutKey(j: Id, provider: Id): string { "payout:" + j + ":" + provider }

  /** Appends one entry and goes on, or throws as the ledger refuses it. */
  function Write(sys: Sys, e: Entry, next: Phase): Sys
    requires sys.worker.Busy?
  {
    var (ledger, reply) := AppendEntries(sys.db.ledger, [e]);
    sys.(db := sys.db.(ledger := ledger),
         worker := sys.worker.(phase := if reply.Done? then next else Thrown))
  }

  function Turn(sys: Sys, phase: Phase): Sys
    requires sys.worker.Busy?
  {
    sys.(worker := sys.worker.(phase := phase))
  }

  function NextMessage(batch: seq<Row>): Worker
    requires batch != []
  {
    if |batch| == 1 then Idle else Busy(batch[1..], AtStart)
  }

  function RetryAt(m: Row, now: int): Option<int> {
    if m.attempts + 1 >= OUTBOX_MAX_ATTEMPTS then None else Some(now + OutboxBackoffMs(m.attempts + 1))
  }

  /** quote.decided: hold the approved gross. */
  function AdvanceHold(sys: Sys): Sys
    requires sys.worker.Busy? && sys.worker.batch != []
    requires sys.worker.phase.HoldWanted? || sys.worker.phase.HoldPriced? || sys.worker.phase.HoldPlaced?
  {
    var j := sys.worker.batch[0].jobId;
    match sys.worker.phase
    case HoldWanted =>
      var gross := ApprovedGross(sys.db.quotes, j);
      Turn(sys, if gross.None? then Finished else HoldPriced(gross.value))
    case HoldPriced(gross) =>
      var holds := Authorise(sys.holds, j, gross);
      if holds.None? then Turn(sys, Thrown)
      else Turn(sys.(holds := holds.value), HoldPlaced(gross, AuthReference(j)))
    case HoldPlaced(gross, r) => Write(sys, Entry(j, Authorisation, gross, Some(r)), Finished)
  }

  /** job.completed: capture the hold. */
  function AdvanceCapture(sys: Sys): Sys
    requires sys.worker.Busy? && sys.worker.batch != []
    requires sys.worker.phase.CaptureSeen? || sys.worker.phase.CaptureTaken?
  {
    var j := sys.worker.batch[0].jobId;
    match sys.worker.phase
    case CaptureSeen(hold, captured, paid) =>
      if captured then Turn(sys, if paid then Finished else PayoutWanted(hold))
      else if Capturable(sys.holds, HoldReference(hold), hold.amountCents)
      then Turn(sys, CaptureTaken(hold, paid, CaptureReference(hold)))
      else Turn(sys, Thrown)
    case CaptureTaken(hold, paid, r) =>
      Write(sys, Entry(j, Capture, hold.amountCents, Some(r)), if paid then Finished else PayoutWanted(hold))
  }

  /** job.completed, continued: pay the provider. */
  function AdvancePayout(sys: Sys): Sys
    requires sys.worker.Busy? && sys.worker.batch != []
    requires var p := sys.worker.phase; p.PayoutWanted? || p.PayoutTo? || p.PayoutPriced? || p.PayoutSent?
  {
    var j := sys.worker.batch[0].jobId;
    match sys.worker.phase
    case PayoutWanted(hold) =>
      var k := ActiveIndex(sys.db.assignments, j);
      Turn(sys, if k == |sys.db.assignments| then Finished else PayoutTo(hold, sys.db.assignments[k].providerId))
    case PayoutTo(hold, p) => Turn(sys, PayoutPriced(p, PayoutCents(sys.db.offers, j, hold)))
    case PayoutPriced(p, cents) =>
      Turn(sys, if cents <= 0 then Thrown else PayoutSent(cents, Reference("payout", PayoutKey(j, p))))
    case PayoutSent(cents, r) => Write(sys, Entry(j, Payout, -cents, Some(r)), Finished)
  }

  /** job.cancelled: release the hold. */
  function AdvanceRelease(sys: Sys): Sys
    requires sys.worker.Busy? && sys.worker.batch != [] && sys.worker.phase.ReleaseSeen?
  {
    var j, hold := sys.worker.batch[0].jobId, sys.worker.phase.hold;
    Write(sys, Entry(j, AuthorisationVoid, -hold.amountCents, hold.reference), Finished)
  }

  /** The outcome of the first message goes on its row and the worker turns to the next. */
  function Settle(sys: Sys, now: int): Sys
    requires sys.worker.Busy? && sys.worker.batch != []
  {
    var m := sys.worker.batch[0];
    var outbox :=
      if sys.worker.phase.Thrown? then MarkFailed(sys.db.outbox, m.id, RetryAt(m, now))
      else MarkDelivered(sys.db.outbox, m.id, now);
    sys.(db := sys.db.(outbox := outbox), worker := NextMessage(sys.worker.batch))
  }

  /** The worker's next micro-step. */
  function Advance(sys: Sys, now: int): Sys
    requires sys.worker.Busy? && sys.worker.batch != []
  {
    var p := sys.worker.phase;
    if p.AtStart? then Turn(sys, Begin(sys.db.ledger, sys.worker.batch[0]))
    else if p.HoldWanted? || p.HoldPriced? || p.HoldPlaced? then AdvanceHold(sys)
    else if p.CaptureSeen? || p.CaptureTaken? then AdvanceCapture(sys)
    else if p.PayoutWanted? || p.PayoutTo? || p.PayoutPriced? || p.PayoutSent? then AdvancePayout(sys)
    else if p.ReleaseSeen? then AdvanceRelease(sys)
    else Settle(sys, now)
  }

  function StartBatch(batch: seq<Row>): Worker {
    if batch == [] then Idle else Busy(batch, AtStart)
  }

  predicate Enabled(sys: Sys, s: SysStep) {
    match s
    case Api(step) => Admissible(sys.db, step)
    case Claim(_, _) => sys.worker.Idle?
    case Go(_) => sys.worker.Busy? && sys.worker.batch != []
    case Fail => sys.worker.Busy?
    case Crash => true
  }

  function Do(policy: Policy, sys: Sys, s: SysStep): Sys
    requires Enabled(sys, s)
  {
    match s
    case Api(step) => sys.(db := Apply(policy, sys.db, step))
    case Claim(now, limit) =>
      var (outbox, batch) := ClaimOutbox(sys.db.outbox, now, limit);
      sys.(db := sys.db.(outbox := outbox), worker := StartBatch(batch))
    case Go(now) => Advance(sys, now)
    case Fail => Turn(sys, Thrown)
    case Crash => sys.(worker := Idle)
  }

  predicate LawfulSys(policy: Policy, sys: Sys, steps: seq<SysStep>)
    decreases |steps|
  {
    steps == [] || (Enabled(sys, steps[0]) && LawfulSys(policy, Do(policy, sys, steps[0]), steps[1..]))
  }

  function RunSys(policy: Policy, sys: Sys, steps: seq<SysStep>): Sys
    requires LawfulSys(policy, sys, steps)
    decreases |steps|
  {
    if steps == [] then sys else RunSys(policy, Do(policy, sys, steps[0]), steps[1..])
  }
}
