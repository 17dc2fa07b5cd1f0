/** The stored state and what each store operation does to it, as functions.
    A JavaScript Map keeps insertion order and several operations depend on it
    (find, at(-1), the order of a sweep), so records are kept in sequences. */
module Db {
  import opened Contracts
  import opened OutboxKeys

  datatype Job = Job(organizationId: Id, status: JobStatus, createdAt: int)

  datatype Quote = Quote(
    id: Id, jobId: Id, organizationId: Id, status: QuoteStatus,
    netCents: int, grossCents: int, validUntil: int)

  datatype Offer = Offer(
    id: Id, jobId: Id, providerId: Id, status: OfferStatus, payoutNetCents: int, expiresAt: int)

  datatype Assignment = Assignment(
    jobId: Id, providerId: Id, status: AssignmentStatus, payoutNetCents: int)

  datatype Move = Move(from: JobStatus, to: JobStatus)

  /** One entry of the append-only job history.  `move` is the from/to pair of
      the payload, `fields` the rest of it. */
  datatype Event = Event(jobId: Id, kind: EventType, move: Option<Move>, fields: map<string, Part>)

  datatype Row = Row(
    id: nat, topic: Topic, key: Key, jobId: Id, event: EventType, fields: map<string, Part>,
    status: RowStatus, attempts: nat, availableAt: int, createdAt: int, deliveredAt: Option<int>)
  {
    predicate Open() { status.RowPending? || status.RowFailed? }
  }

  /** A reference is a keyed digest of operation and key: taken as injective. */
  datatype Reference = Reference(operation: string, key: string)

  datatype Entry = Entry(jobId: Id, kind: EntryKind, amountCents: int, reference: Option<Reference>)

  datatype Db = Db(
    jobs: map<Id, Job>,
    quotes: seq<Quote>,
    offers: seq<Offer>,
    assignments: seq<Assignment>,
    events: seq<Event>,
    outbox: seq<Row>,
    keys: map<Key, nat>,
    nextRow: nat,
    ledger: seq<Entry>)

  const EMPTY: Db := Db(map[], [], [], [], [], [], map[], 0, [])

  datatype Scope = Staff | Organization(organizationId: Id) | Provider(providerId: Id)

  /** A store operation's result: the new state and what the caller is told. */
  datatype Effect = Effect(db: Db, reply: Reply)

  // --------------------------------------------------------------- utilities

  function Visible(db: Db, jobId: Id, scope: Scope): bool
    requires jobId in db.jobs
  {
    match scope
    case Staff => true
    case Organization(o) => db.jobs[jobId].organizationId == o
    case Provider(p) => exists a :: a in db.assignments && a.jobId == jobId && a.providerId == p
  }

  function NewRow(db: Db, draft: DraftRow, jobId: Id, kind: EventType, fields: map<string, Part>, now: int): Row {
    Row(db.nextRow, draft.topic, draft.key, jobId, kind, fields, RowPending, 0, 0, now, None)
  }

  /** Appends to the history and, for a published event whose key is new, to the outbox. */
  function RecordEvent(db: Db, e: Event, now: int): (r: Db)
    ensures r.jobs == db.jobs && r.quotes == db.quotes && r.offers == db.offers
    ensures r.assignments == db.assignments && r.ledger == db.ledger
    ensures r.events == db.events + [e]
  {
    var db1 := db.(events := db.events + [e]);
    var draft := OutboxForEvent(e.jobId, e.kind, e.fields);
    if draft.None? || draft.value.key in db.keys then db1
    else db1.(
           outbox := db.outbox + [NewRow(db, draft.value, e.jobId, e.kind, e.fields, now)],
           keys := db.keys[draft.value.key := db.nextRow],
           nextRow := db.nextRow + 1)
  }

  function QuoteIndex(quotes: seq<Quote>, id: Id): (k: nat)
    ensures k <= |quotes|
    ensures k < |quotes| ==> quotes[k].id == id
    ensures forall i :: 0 <= i < k ==> quotes[i].id != id
  {
    if quotes == [] then 0
    else if quotes[0].id == id then 0
    else 1 + QuoteIndex(quotes[1..], id)
  }

  function OfferIndex(offers: seq<Offer>, id: Id): (k: nat)
    ensures k <= |offers|
    ensures k < |offers| ==> offers[k].id == id
    ensures forall i :: 0 <= i < k ==> offers[i].id != id
  {
    if offers == [] then 0
    else if offers[0].id == id then 0
    else 1 + OfferIndex(offers[1..], id)
  }

  /** The position of the job's first active assignment, or the length. */
  function ActiveIndex(assignments: seq<Assignment>, jobId: Id): (k: nat)
    ensures k <= |assignments|
    ensures k < |assignments| ==> assignments[k].jobId == jobId && assignments[k].status.Active?
    ensures forall i :: 0 <= i < k ==> !(assignments[i].jobId == jobId && assignments[i].status.Active?)
  {
    if assignments == [] then 0
    else if assignments[0].jobId == jobId && assignments[0].status.Active? then 0
    else 1 + ActiveIndex(assignments[1..], jobId)
  }

  // -------------------------------------------------------------------- jobs

  function CreateJob(db: Db, id: Id, organizationId: Id, now: int): Effect {
    var db1 := db.(jobs := db.jobs[id := Job(organizationId, Draft, now)]);
    Effect(RecordEvent(db1, Event(id, JobCreated, None, map[]), now), Done)
  }

  /** Sets the status and writes the event that says so. */
  function MoveJob(db: Db, jobId: Id, to: JobStatus, kind: EventType, fields: map<string, Part>, now: int): Db
    requires jobId in db.jobs
  {
    var job := db.jobs[jobId];
    RecordEvent(
      db.(jobs := db.jobs[jobId := job.(status := to)]),
      Event(jobId, kind, Some(Move(job.status, to)), fields),
      now)
  }

  function TransitionJob(db: Db, jobId: Id, scope: Scope, to: JobStatus, kind: EventType,
                         fields: map<string, Part>, now: int): Effect
  {
    if jobId !in db.jobs || !Visible(db, jobId, scope) then Effect(db, Refused(NotFound))
    else if !CanTransition(db.jobs[jobId].status, to) then Effect(db, Refused(InvalidStateTransition))
    else Effect(MoveJob(db, jobId, to, kind, fields, now), Done)
  }

  // ------------------------------------------------------------------ quotes

  function CreateQuote(db: Db, quote: Quote, now: int): Db {
    RecordEvent(
      db.(quotes := db.quotes + [quote]),
      Event(quote.jobId, QuoteSent, None, map["quoteId" := Text(quote.id), "grossCents" := Number(quote.grossCents)]),
      now)
  }

  predicate QuoteInScope(quote: Quote, scope: Scope) {
    match scope
    case Staff => true
    case Organization(o) => quote.organizationId == o
    case Provider(_) => false
  }

  /** The customer's answer.  A lapsed quote is marked before it is refused. */
  function DecideQuote(db: Db, quoteId: Id, scope: Scope, approve: bool, now: int): Effect {
    var k := QuoteIndex(db.quotes, quoteId);
    if k == |db.quotes| || !QuoteInScope(db.quotes[k], scope) then Effect(db, Refused(NotFound))
    else
      var quote := db.quotes[k];
      if !quote.status.Sent? then Effect(db, Refused(Conflict))
      else if quote.validUntil <= now then
        Effect(db.(quotes := db.quotes[k := quote.(status := Lapsed)]), Refused(Conflict))
      else
        var db1 := db.(quotes := db.quotes[k := quote.(status := if approve then Approved else Rejected)]);
        if quote.jobId !in db.jobs || !Visible(db, quote.jobId, scope) then Effect(db1, Refused(NotFound))
        else
          Effect(RecordEvent(db1,
                             Event(quote.jobId, if approve then QuoteApproved else QuoteRejected, None,
                                   map["quoteId" := Text(quote.id)]),
                             now), Done)
  }

  predicate HasApprovedQuote(quotes: seq<Quote>, jobId: Id) {
    exists q :: q in quotes && q.jobId == jobId && q.status.Approved?
  }

  /** What the payment handler authorises: the gross of the first approved quote. */
  function ApprovedGross(quotes: seq<Quote>, jobId: Id): Option<int> {
    if quotes == [] then None
    else if quotes[0].jobId == jobId && quotes[0].status.Approved? then Some(quotes[0].grossCents)
    else ApprovedGross(quotes[1..], jobId)
  }

  // ------------------------------------------------------------------ offers

  predicate HasOffer(offers: seq<Offer>, jobId: Id, providerId: Id) {
    exists o :: o in offers && o.jobId == jobId && o.providerId == providerId
  }

  /** One offer for each provider not asked before, in the order given. */
  function AddOffers(offers: seq<Offer>, jobId: Id, providers: seq<Id>, ids: seq<Id>,
                     payoutNetCents: int, expiresAt: int): (r: seq<Offer>)
    requires |ids| == |providers|
    ensures |offers| <= |r| && r[..|offers|] == offers
    decreases |providers|
  {
    if providers == [] then offers
    else if HasOffer(offers, jobId, providers[0]) then
      AddOffers(offers, jobId, providers[1..], ids[1..], payoutNetCents, expiresAt)
    else
      var r := AddOffers(offers + [Offer(ids[0], jobId, providers[0], Pending, payoutNetCents, expiresAt)],
                         jobId, providers[1..], ids[1..], payoutNetCents, expiresAt);
      assert r[..|offers|] == r[..|offers| + 1][..|offers|];
      r
  }

  function CreateOffers(db: Db, jobId: Id, providers: seq<Id>, ids: seq<Id>,
                        payoutNetCents: int, expiresAt: int, now: int): Db
    requires |ids| == |providers|
  {
    var offers := AddOffers(db.offers, jobId, providers, ids, payoutNetCents, expiresAt);
    RecordEvent(
      db.(offers := offers),
      Event(jobId, OffersSent, None,
            map["providerCount" := Number(|offers| - |db.offers|), "payoutNetCents" := Number(payoutNetCents)]),
      now)
  }

  /** Every other open offer of the job is withdrawn with the acceptance. */
  function Withdraw(offers: seq<Offer>, jobId: Id, except: Id): (r: seq<Offer>)
    ensures |r| == |offers|
    ensures forall i :: 0 <= i < |offers| ==>
      r[i] == if offers[i].jobId == jobId && offers[i].id != except && offers[i].status.Pending?
              then offers[i].(status := Withdrawn) else offers[i]
  {
    seq(|offers|, i requires 0 <= i < |offers| =>
      if offers[i].jobId == jobId && offers[i].id != except && offers[i].status.Pending?
      then offers[i].(status := Withdrawn) else offers[i])
  }

  /** The race that matters.  Two refusals overwrite the offer's status first. */
  function AcceptOffer(db: Db, offerId: Id, providerId: Id, now: int): Effect {
    var k := OfferIndex(db.offers, offerId);
    if k == |db.offers| || db.offers[k].providerId != providerId then Effect(db, Refused(NotFound))
    else
      var offer := db.offers[k];
      if offer.status.Expired? || offer.expiresAt <= now then
        Effect(db.(offers := db.offers[k := offer.(status := Expired)]), Refused(OfferExpiredError))
      else if !offer.status.Pending? then Effect(db, Refused(OfferAlreadyTaken))
      else if ActiveIndex(db.assignments, offer.jobId) < |db.assignments| then
        Effect(db.(offers := db.offers[k := offer.(status := Withdrawn)]), Refused(OfferAlreadyTaken))
      else if offer.jobId !in db.jobs then Effect(db, Refused(NotFound))
      else if !CanTransition(db.jobs[offer.jobId].status, Assigned) then
        Effect(db, Refused(InvalidStateTransition))
      else Effect(Commit(db, k, now), Done)
  }

  /** The winning half of an acceptance: offer, assignment, withdrawals, job. */
  function Commit(db: Db, k: nat, now: int): Db
    requires k < |db.offers| && db.offers[k].jobId in db.jobs
  {
    var offer := db.offers[k];
    var db1 := db.(
      offers := Withdraw(db.offers[k := offer.(status := Accepted)], offer.jobId, offer.id),
      assignments := db.assignments + [Assignment(offer.jobId, offer.providerId, Active, offer.payoutNetCents)]);
    MoveJob(db1, offer.jobId, Assigned, OfferAccepted,
            map["offerId" := Text(offer.id), "providerId" := Text(offer.providerId)], now)
  }

  function DeclineOffer(db: Db, offerId: Id, providerId: Id, now: int): Effect {
    var k := OfferIndex(db.offers, offerId);
    if k == |db.offers| || db.offers[k].providerId != providerId then Effect(db, Refused(NotFound))
    else if !db.offers[k].status.Pending? then Effect(db, Refused(Conflict))
    else
      var offer := db.offers[k];
      Effect(RecordEvent(
               db.(offers := db.offers[k := offer.(status := Declined)]),
               Event(offer.jobId, OfferDeclined, None,
                     map["offerId" := Text(offer.id), "providerId" := Text(offer.providerId)]),
               now), Done)
  }

  predicate Due(offer: Offer, now: int) {
    offer.status.Pending? && offer.expiresAt <= now
  }

  function ExpireOne(db: Db, k: nat, now: int): (r: Db)
    requires k < |db.offers|
    ensures |r.offers| == |db.offers|
  {
    var offer := db.offers[k];
    if Due(offer, now) then
      RecordEvent(db.(offers := db.offers[k := offer.(status := Expired)]),
                  Event(offer.jobId, OfferExpired, None, map["offerId" := Text(offer.id)]), now)
    else db
  }

  /** The expiry pass from position k on. */
  function ExpireFrom(db: Db, k: nat, now: int): (r: Db)
    requires k <= |db.offers|
    ensures |r.offers| == |db.offers|
    decreases |db.offers| - k
  {
    if k == |db.offers| then db else ExpireFrom(ExpireOne(db, k, now), k + 1, now)
  }

  function ExpireOffers(db: Db, now: int): Db {
    ExpireFrom(db, 0, now)
  }

  /** The jobs an expiry pass uncovers, each once, in the order first met. */
  function Uncovered(offers: seq<Offer>, now: int): (r: seq<Id>)
    ensures forall j :: j in r <==> exists o :: o in offers && o.jobId == j && Due(o, now)
    ensures forall a, b :: 0 <= a < b < |r| ==> r[a] != r[b]
  {
    if offers == [] then []
    else
      var n := |offers| - 1;
      var before := Uncovered(offers[..n], now);
      assert offers == offers[..n] + [offers[n]];
      if Due(offers[n], now) && offers[n].jobId !in before then before + [offers[n].jobId] else before
  }

  /** A provider drops out: the job returns to Quoted, its price stands. */
  function Fallback(db: Db, jobId: Id, now: int): Effect {
    var k := ActiveIndex(db.assignments, jobId);
    if jobId !in db.jobs then Effect(db, Refused(NotFound))
    else if k == |db.assignments| then Effect(db, Refused(Conflict))
    else if !CanTransition(db.jobs[jobId].status, Quoted) then Effect(db, Refused(InvalidStateTransition))
    else
      var a := db.assignments[k];
      Effect(MoveJob(db.(assignments := db.assignments[k := a.(status := FellThrough)]),
                     jobId, Quoted, AssignmentFellThrough, map["providerId" := Text(a.providerId)], now), Done)
  }

  function RecordJobEvent(db: Db, e: Event, now: int): Effect {
    if e.jobId !in db.jobs then Effect(db, Refused(NotFound)) else Effect(RecordEvent(db, e, now), Done)
  }

  // ------------------------------------------------------------------ outbox

  predicate Claimable(row: Row, now: int) {
    row.Open() && row.availableAt <= now
  }

  function ClaimableRows(outbox: seq<Row>, now: int): seq<Row> {
    if outbox == [] then []
    else
      var n := |outbox| - 1;
      ClaimableRows(outbox[..n], now) + if Claimable(outbox[n], now) then [outbox[n]] else []
  }

  /** Stable insertion by creation time: after every row not created later. */
  function InsertByAge(rows: seq<Row>, row: Row): seq<Row> {
    if rows == [] then [row]
    else
      var n := |rows| - 1;
      if rows[n].createdAt <= row.createdAt then rows + [row]
      else InsertByAge(rows[..n], row) + [rows[n]]
  }

  function SortByAge(rows: seq<Row>): seq<Row> {
    if rows == [] then [] else InsertByAge(SortByAge(rows[..|rows| - 1]), rows[|rows| - 1])
  }

  function FirstRows(rows: seq<Row>, limit: nat): seq<Row> {
    if |rows| <= limit then rows else rows[..limit]
  }

  function DueBatch(outbox: seq<Row>, now: int, limit: nat): seq<Row> {
    FirstRows(SortByAge(ClaimableRows(outbox, now)), limit)
  }

  function RowIds(rows: seq<Row>): set<nat> {
    set r | r in rows :: r.id
  }

  /** Claimed rows are pushed out of reach for the length of the lease. */
  function Lease(row: Row, ids: set<nat>, until: int): Row {
    if row.id in ids then row.(availableAt := until) else row
  }

  function LeaseAll(outbox: seq<Row>, ids: set<nat>, until: int): (r: seq<Row>)
    ensures |r| == |outbox|
    ensures forall i :: 0 <= i < |outbox| ==> r[i] == Lease(outbox[i], ids, until)
  {
    seq(|outbox|, i requires 0 <= i < |outbox| => Lease(outbox[i], ids, until))
  }

  function ClaimOutbox(outbox: seq<Row>, now: int, limit: nat): (seq<Row>, seq<Row>) {
    var batch := DueBatch(outbox, now, limit);
    var ids := RowIds(batch);
    (LeaseAll(outbox, ids, now + CLAIM_LEASE_MS), LeaseAll(batch, ids, now + CLAIM_LEASE_MS))
  }

  function RowIndex(outbox: seq<Row>, id: nat): (k: nat)
    ensures k <= |outbox|
    ensures k < |outbox| ==> outbox[k].id == id
    ensures forall i :: 0 <= i < k ==> outbox[i].id != id
  {
    if outbox == [] then 0
    else if outbox[0].id == id then 0
    else 1 + RowIndex(outbox[1..], id)
  }

  function Delivered(row: Row, now: int): Row {
    row.(status := RowSent, deliveredAt := Some(now))
  }

  function MarkDelivered(outbox: seq<Row>, id: nat, now: int): seq<Row> {
    var k := RowIndex(outbox, id);
    if k == |outbox| then outbox else outbox[k := Delivered(outbox[k], now)]
  }

  function Failed(row: Row, retryAt: Option<int>): Row {
    match retryAt
    case Some(at) => row.(attempts := row.attempts + 1, status := RowFailed, availableAt := at)
    case None => row.(attempts := row.attempts + 1, status := RowDead)
  }

  function MarkFailed(outbox: seq<Row>, id: nat, retryAt: Option<int>): seq<Row> {
    var k := RowIndex(outbox, id);
    if k == |outbox| then outbox else outbox[k := Failed(outbox[k], retryAt)]
  }

  // --------------------------------------------------------------- retention

  predicate Removable(row: Row, olderThan: int) {
    row.status.RowSent? &&
    (if row.deliveredAt.Some? then row.deliveredAt.value else row.createdAt) < olderThan
  }

  /** The retention pass from position k on; a removal moves the rest up. */
  function RetainFrom(db: Db, k: nat, olderThan: int): Db
    requires k <= |db.outbox|
    decreases |db.outbox| - k
  {
    if k == |db.outbox| then db
    else if Removable(db.outbox[k], olderThan) then
      RetainFrom(db.(outbox := db.outbox[..k] + db.outbox[k + 1..],
                     keys := db.keys - {db.outbox[k].key}), k, olderThan)
    else RetainFrom(db, k + 1, olderThan)
  }

  function RunRetention(db: Db, olderThan: int): Db {
    RetainFrom(db, 0, olderThan)
  }

  // ------------------------------------------------------------------ ledger

  predicate MustBePositive(kind: EntryKind) {
    kind.Authorisation? || kind.Capture? || kind.PayoutReversal?
  }

  predicate Writable(e: Entry) {
    e.amountCents != 0 && (MustBePositive(e.kind) <==> e.amountCents > 0)
  }

  /** Entries are appended one by one; the first unlawful one stops the rest. */
  function AppendEntries(ledger: seq<Entry>, entries: seq<Entry>): (seq<Entry>, Reply)
    decreases |entries|
  {
    if entries == [] then (ledger, Done)
    else if !Writable(entries[0]) then (ledger, Refused(ValidationError))
    else AppendEntries(ledger + [entries[0]], entries[1..])
  }

  function EntriesOf(ledger: seq<Entry>, jobId: Id): seq<Entry> {
    if ledger == [] then []
    else
      var n := |ledger| - 1;
      EntriesOf(ledger[..n], jobId) + if ledger[n].jobId == jobId then [ledger[n]] else []
  }
}
