/** The vocabulary shared by every component: statuses, events, topics and the
    constants of the asynchronous side. */
module Contracts {

  /** A UUID in its textual form. */
  type Id = string

  datatype Option<+T> = None | Some(value: T)

  datatype JobStatus = Draft | Triaged | Quoted | Assigned | InProgress | Completed | Cancelled

  /** The legal edges of a job's life; anything else is refused. */
  function Transitions(from: JobStatus): seq<JobStatus> {
    match from
    case Draft => [Triaged, Cancelled]
    case Triaged => [Quoted, Cancelled]
    case Quoted => [Assigned, Cancelled]
    case Assigned => [InProgress, Quoted, Cancelled]
    case InProgress => [Completed, Quoted]
    case Completed => []
    case Cancelled => []
  }

  predicate CanTransition(from: JobStatus, to: JobStatus) {
    to in Transitions(from)
  }

  datatype QuoteStatus = Sent | Approved | Rejected | Lapsed
  datatype OfferStatus = Pending | Accepted | Declined | Expired | Withdrawn
  datatype AssignmentStatus = Active | FellThrough

  datatype EventType =
    | JobCreated | TriageApproved | QuoteSent | JobQuoted | QuoteApproved | QuoteRejected
    | OffersSent | OfferAccepted | OfferDeclined | OfferExpired | AssignmentFellThrough
    | WorkStarted | EvidenceUploaded | JobCompleted | JobCancelled | DispatchEscalated

  datatype Topic =
    | TopicJobCreated | TopicJobTriaged | TopicJobQuoted | TopicQuoteDecided | TopicOffersSent
    | TopicOfferAccepted | TopicOfferDeclined | TopicOfferExpired | TopicFellThrough
    | TopicJobStarted | TopicJobCompleted | TopicJobCancelled | TopicEscalated
    | TopicAuthorisationRequested | TopicCaptureRequested | TopicPayoutRequested

  datatype RowStatus = RowPending | RowSent | RowFailed | RowDead

  datatype EntryKind =
    | Authorisation | AuthorisationVoid | Capture | Refund | Payout | PayoutReversal

  const OUTBOX_MAX_ATTEMPTS: nat := 5
  const CLAIM_LEASE_MS: int := 60_000
  const MINUTE_MS: int := 60_000
  const HOUR_MS: int := 3_600_000

  function Power2(n: nat): (r: nat)
    ensures r >= 1
  {
    if n == 0 then 1 else 2 * Power2(n - 1)
  }

  function Min(a: int, b: int): int { if a <= b then a else b }
  function Max(a: int, b: int): int { if a >= b then a else b }

  /** How long to wait before the next attempt, in milliseconds. */
  function OutboxBackoffMs(attempts: int): (r: int)
    ensures 30_000 <= r <= 1_800_000
  {
    Min(1_800_000, 30_000 * Power2(Max(0, attempts - 1)))
  }

  datatype ErrorCode =
    | NotFound | Conflict | InvalidStateTransition | OfferExpiredError | OfferAlreadyTaken
    | NoEligibleProvider | ValidationError | KeyRequired | KeyReused

  datatype Reply = Done | Refused(error: ErrorCode)
}
