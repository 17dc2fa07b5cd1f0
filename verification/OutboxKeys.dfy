/** Turning a job event into an outbox intent (apps/api/src/lib/outbox.ts). */
module OutboxKeys {
  import opened Contracts

  /** A payload value as the key sees it: text, a number, or anything else. */
  datatype Part = Text(text: string) | Number(number: int) | Missing

  /** A key is either readable text or, when that is too long, a hash.  The hash
      is kept with what was hashed: SHA-256 is taken as injective. */
  datatype Key = Plain(text: string) | Hashed(topic: Topic, job: string, digestOf: string)

  const SEPARATOR: char := '|'
  const MAX_READABLE: nat := 180
  const DIGEST_LENGTH: nat := 32

  function TopicName(t: Topic): string {
    match t
    case TopicJobCreated => "job.created"
    case TopicJobTriaged => "job.triaged"
    case TopicJobQuoted => "job.quoted"
    case TopicQuoteDecided => "quote.decided"
    case TopicOffersSent => "offers.sent"
    case TopicOfferAccepted => "offer.accepted"
    case TopicOfferDeclined => "offer.declined"
    case TopicOfferExpired => "offer.expired"
    case TopicFellThrough => "assignment.fell_through"
    case TopicJobStarted => "job.started"
    case TopicJobCompleted => "job.completed"
    case TopicJobCancelled => "job.cancelled"
    case TopicEscalated => "dispatch.escalated"
    case TopicAuthorisationRequested => "payment.authorisation_requested"
    case TopicCaptureRequested => "payment.capture_requested"
    case TopicPayoutRequested => "payout.requested"
  }

  /** Event type to topic; anything absent is internal. */
  function TopicByEvent(e: EventType): Option<Topic> {
    match e
    case JobCreated => Some(TopicJobCreated)
    case TriageApproved => Some(TopicJobTriaged)
    case JobQuoted => Some(TopicJobQuoted)
    case QuoteApproved => Some(TopicQuoteDecided)
    case QuoteRejected => Some(TopicQuoteDecided)
    case OffersSent => Some(TopicOffersSent)
    case OfferAccepted => Some(TopicOfferAccepted)
    case OfferDeclined => Some(TopicOfferDeclined)
    case OfferExpired => Some(TopicOfferExpired)
    case AssignmentFellThrough => Some(TopicFellThrough)
    case WorkStarted => Some(TopicJobStarted)
    case JobCompleted => Some(TopicJobCompleted)
    case JobCancelled => Some(TopicJobCancelled)
    case DispatchEscalated => Some(TopicEscalated)
    case QuoteSent => None
    case EvidenceUploaded => None
  }

  function Digit(d: nat): char
    requires d < 10
  {
    "0123456789"[d]
  }

  function Decimal(n: int): string
    decreases n < 0, if n < 0 then -n else n
  {
    if n < 0 then "-" + Decimal(-n)
    else if n < 10 then [Digit(n)]
    else Decimal(n / 10) + [Digit(n % 10)]
  }

  function Render(p: Part): string {
    match p
    case Text(s) => s
    case Number(n) => Decimal(n)
    case Missing => "-"
  }

  function RenderAll(ps: seq<Part>): seq<string> {
    if ps == [] then [] else [Render(ps[0])] + RenderAll(ps[1..])
  }

  function Join(parts: seq<string>): string {
    if parts == [] then ""
    else if |parts| == 1 then parts[0]
    else parts[0] + [SEPARATOR] + Join(parts[1..])
  }

  function JobPart(jobId: Option<Id>): string {
    if jobId.Some? then jobId.value else "-"
  }

  function Parts(topic: Topic, jobId: Option<Id>, discriminator: seq<Part>): seq<string> {
    [TopicName(topic), JobPart(jobId)] + RenderAll(discriminator)
  }

  function DedupeKeyFor(topic: Topic, jobId: Option<Id>, discriminator: seq<Part>): Key {
    var joined := Join(Parts(topic, jobId, discriminator));
    if |joined| <= MAX_READABLE then Plain(joined) else Hashed(topic, JobPart(jobId), joined)
  }

  function KeyLength(k: Key): nat {
    match k
    case Plain(text) => |text|
    case Hashed(topic, job, _) => |TopicName(topic)| + 1 + |job| + 1 + DIGEST_LENGTH
  }

  function Take(fields: map<string, Part>, name: string): seq<Part> {
    if name in fields && !fields[name].Missing? then [fields[name]] else []
  }

  /** The parts of a payload that say which occurrence this is. */
  function DiscriminatorFor(e: EventType, fields: map<string, Part>): (r: seq<Part>)
    ensures |r| <= 1
  {
    match e
    case OffersSent => Take(fields, "round")
    case OfferAccepted => Take(fields, "offerId")
    case OfferDeclined => Take(fields, "offerId")
    case OfferExpired => Take(fields, "offerId")
    case QuoteApproved => Take(fields, "quoteId")
    case QuoteRejected => Take(fields, "quoteId")
    case AssignmentFellThrough => Take(fields, "assignmentId")
    case DispatchEscalated => Take(fields, "reason")
    case _ => []
  }

  datatype DraftRow = DraftRow(topic: Topic, key: Key)

  /** The outbox row an event implies, or None when it implies none. */
  function OutboxForEvent(jobId: Id, e: EventType, fields: map<string, Part>): Option<DraftRow> {
    match TopicByEvent(e)
    case None => None
    case Some(topic) =>
      Some(DraftRow(topic, DedupeKeyFor(topic, Some(jobId), DiscriminatorFor(e, fields))))
  }

  // ---------------------------------------------------------------- splitting

  predicate Clean(part: string) {
    SEPARATOR !in part
  }

  /** The part before the first separator. */
  function Head(s: string): (h: string)
    ensures h <= s
  {
    if s == "" || s[0] == SEPARATOR then "" else [s[0]] + Head(s[1..])
  }

  /** Cutting a string at its separators: the inverse of Join. */
  function Split(s: string): seq<string>
    decreases |s|
  {
    var h := Head(s);
    if |h| == |s| then [s] else [h] + Split(s[|h| + 1..])
  }

  lemma {:induction false} HeadOfClean(a: string, rest: string)
    requires Clean(a)
    requires rest == "" || rest[0] == SEPARATOR
    ensures Head(a + rest) == a
  {
    if a == "" {
      assert a + rest == rest;
    } else {
      HeadOfClean(a[1..], rest);
      assert (a + rest)[1..] == a[1..] + rest;
      assert (a + rest)[0] == a[0];
    }
  }

  /** Splitting undoes joining, whenever no part contains the separator. */
  lemma {:induction false} SplitUndoesJoin(parts: seq<string>)
    requires parts != []
    requires forall p :: p in parts ==> Clean(p)
    ensures Split(Join(parts)) == parts
  {
    if |parts| == 1 {
      HeadOfClean(parts[0], "");
      assert parts[0] + "" == parts[0];
    } else {
      var tail := Join(parts[1..]);
      HeadOfClean(parts[0], [SEPARATOR] + tail);
      assert Join(parts) == parts[0] + ([SEPARATOR] + tail);
      assert Join(parts)[|parts[0]| + 1..] == tail;
      SplitUndoesJoin(parts[1..]);
    }
  }

  lemma TopicNamesClean(t: Topic)
    ensures Clean(TopicName(t))
  {
  }

  lemma TopicNamesShort(t: Topic)
    ensures 10 <= |TopicName(t)| <= 31
  {
  }

  /** The letters that tell the topic names apart. */
  lemma TopicNamesDistinct(t: Topic, u: Topic)
    requires TopicName(t) == TopicName(u)
    ensures t == u
  {
    var a, b := TopicName(t), TopicName(u);
    assert |a| == |b| && a[4] == b[4] && a[6] == b[6] && a[7] == b[7];
  }

  lemma RenderAllAt(ps: seq<Part>)
    ensures |RenderAll(ps)| == |ps|
    ensures forall i :: 0 <= i < |ps| ==> RenderAll(ps)[i] == Render(ps[i])
  {
  }

  lemma JoinInjective(ps: seq<string>, qs: seq<string>)
    requires ps != [] && qs != []
    requires forall p :: p in ps ==> Clean(p)
    requires forall p :: p in qs ==> Clean(p)
    requires Join(ps) == Join(qs)
    ensures ps == qs
  {
    SplitUndoesJoin(ps);
    SplitUndoesJoin(qs);
  }

  lemma PartsClean(t: Topic, j: Option<Id>, d: seq<Part>)
    requires Clean(JobPart(j))
    requires forall p :: p in d ==> Clean(Render(p))
    ensures forall p :: p in Parts(t, j, d) ==> Clean(p)
  {
    RenderAllAt(d);
    TopicNamesClean(t);
    TopicNamesShort(t);
  }

  lemma PartsInjective(t: Topic, j: Option<Id>, d: seq<Part>, t': Topic, j': Option<Id>, d': seq<Part>)
    requires Parts(t, j, d) == Parts(t', j', d')
    ensures t == t' && JobPart(j) == JobPart(j') && RenderAll(d) == RenderAll(d')
  {
    var ps, ps' := Parts(t, j, d), Parts(t', j', d');
    assert ps[0] == TopicName(t) && ps'[0] == TopicName(t');
    TopicNamesDistinct(t, t');
    assert ps[1] == JobPart(j) && ps'[1] == JobPart(j');
    assert ps[2..] == RenderAll(d) && ps'[2..] == RenderAll(d');
  }

  /** On the readable branch a key determines topic, job and every normalised
      part, as long as no part contains the separator.  (The hashed branch keeps
      what it hashed, so there the same holds by construction.) */
  lemma KeyInjective(t: Topic, j: Option<Id>, d: seq<Part>, t': Topic, j': Option<Id>, d': seq<Part>)
    requires Clean(JobPart(j)) && Clean(JobPart(j'))
    requires forall p :: p in d ==> Clean(Render(p))
    requires forall p :: p in d' ==> Clean(Render(p))
    requires DedupeKeyFor(t, j, d) == DedupeKeyFor(t', j', d')
    ensures t == t' && JobPart(j) == JobPart(j') && RenderAll(d) == RenderAll(d')
  {
    PartsClean(t, j, d);
    PartsClean(t', j', d');
    JoinInjective(Parts(t, j, d), Parts(t', j', d'));
    PartsInjective(t, j, d, t', j', d');
  }

  /** A UUID: 36 characters, none of them the separator. */
  predicate IsUuid(id: Id) {
    |id| == 36 && Clean(id)
  }

  /** What every event the system writes satisfies: its job is a UUID and what
      tells it apart is short and free of separators. */
  predicate WellKeyed(jobId: Id, e: EventType, fields: map<string, Part>) {
    IsUuid(jobId) && forall p :: p in DiscriminatorFor(e, fields) ==> Clean(Render(p)) && |Render(p)| <= 36
  }

  /** The keys the system writes are all on the readable branch. */
  lemma WellKeyedIsReadable(jobId: Id, e: EventType, fields: map<string, Part>)
    requires WellKeyed(jobId, e, fields) && TopicByEvent(e).Some?
    ensures OutboxForEvent(jobId, e, fields).value.key.Plain?
  {
    var t, d := TopicByEvent(e).value, DiscriminatorFor(e, fields);
    TopicNamesClean(t);
    TopicNamesShort(t);
    var ps := Parts(t, Some(jobId), d);
    if d == [] {
      assert ps == [TopicName(t), jobId];
      assert Join(ps) == TopicName(t) + [SEPARATOR] + jobId by { assert ps[1..] == [jobId]; }
    } else {
      var x := Render(d[0]);
      assert d == [d[0]];
      assert RenderAll(d) == [x];
      assert ps == [TopicName(t), jobId, x];
      assert Join([x]) == x;
      assert ps[1..] == [jobId, x] && [jobId, x][1..] == [x];
      assert Join(ps[1..]) == jobId + [SEPARATOR] + x;
      assert Join(ps) == TopicName(t) + [SEPARATOR] + (jobId + [SEPARATOR] + x);
    }
  }

  /** Two events with the same key are about the same topic and job. */
  lemma SameKeySameJob(j: Id, e: EventType, fs: map<string, Part>, j': Id, e': EventType, fs': map<string, Part>)
    requires WellKeyed(j, e, fs) && WellKeyed(j', e', fs')
    requires OutboxForEvent(j, e, fs).Some? && OutboxForEvent(j', e', fs').Some?
    requires OutboxForEvent(j, e, fs).value.key == OutboxForEvent(j', e', fs').value.key
    ensures j == j' && TopicByEvent(e) == TopicByEvent(e')
  {
    KeyInjective(TopicByEvent(e).value, Some(j), DiscriminatorFor(e, fs),
                 TopicByEvent(e').value, Some(j'), DiscriminatorFor(e', fs'));
  }

  /** No key outgrows its 200-character column while job ids are UUIDs. */
  lemma KeyFitsColumn(t: Topic, j: Option<Id>, d: seq<Part>)
    requires |JobPart(j)| <= 36
    ensures KeyLength(DedupeKeyFor(t, j, d)) <= 200
  {
    TopicNamesClean(t);
    TopicNamesShort(t);
  }
}
