/** Replaying a repeated request instead of doing its work again. */
module Idempotency {
  import opened Contracts
  import opened OutboxKeys
  import opened CanonicalJson

  datatype Response = Response(statusCode: int, body: Json)

  /** The digest of a request: taken as injective, so it stands for what it was made of. */
  datatype Digest = Digest(verb: string, path: string, body: Json)

  datatype Record = Record(digest: Digest, response: Response, expiresAt: int)

  /** `outcome` is what the work returns if it is run; None when it throws. */
  datatype Request = Request(
    organizationId: Id, key: Option<string>, verb: string, path: string, body: Json, outcome: Option<Response>)

  datatype Answer =
    | KeyMissing
    | KeyUsedBefore
    | Replayed(response: Response)
    | Worked(response: Response)
    | WorkFailed

  const MAX_KEY_LENGTH: nat := 200

  predicate IsBlank(c: char) {
    || '\t' <= c <= '\r' || c == ' ' || c == '\U{A0}' || c == '\U{1680}' || '\U{2000}' <= c <= '\U{200A}'
    || c == '\U{2028}' || c == '\U{2029}' || c == '\U{202F}' || c == '\U{205F}' || c == '\U{3000}' || c == '\U{FEFF}'
  }

  function TrimStart(s: string): (r: string)
    ensures r == [] || !IsBlank(r[0])
    ensures |r| <= |s|
  {
    if s != [] && IsBlank(s[0]) then TrimStart(s[1..]) else s
  }

  function TrimEnd(s: string): (r: string)
    ensures r == [] || !IsBlank(r[|r| - 1])
    ensures r <= s
  {
    if s != [] && IsBlank(s[|s| - 1]) then TrimEnd(s[..|s| - 1]) else s
  }

  function Trim(s: string): string { TrimEnd(TrimStart(s)) }

  /** The key as it is stored: trimmed and cut to 200 characters; None when there is nothing left. */
  function KeyOf(r: Request): Option<string> {
    if r.key.None? || |Trim(r.key.value)| == 0 then None
    else
      var t := Trim(r.key.value);
      Some(if |t| <= MAX_KEY_LENGTH then t else t[..MAX_KEY_LENGTH])
  }

  ghost predicate Blank(s: string) { forall c :: c in s ==> IsBlank(c) }

  /** Text that neither starts nor ends with a blank. */
  predicate IsCore(s: string) { s != [] && !IsBlank(s[0]) && !IsBlank(s[|s| - 1]) }

  lemma {:induction false} StartTrimmed(blanks: string, s: string)
    requires Blank(blanks) && (s == [] || !IsBlank(s[0]))
    ensures TrimStart(blanks + s) == s
  {
    hide IsBlank;
    if blanks == [] {
      assert blanks + s == s;
    } else {
      assert (blanks + s)[1..] == blanks[1..] + s;
      StartTrimmed(blanks[1..], s);
    }
  }

  lemma {:induction false} EndTrimmed(s: string, blanks: string)
    requires Blank(blanks) && (s == [] || !IsBlank(s[|s| - 1]))
    ensures TrimEnd(s + blanks) == s
  {
    hide IsBlank;
    if blanks == [] {
      assert s + blanks == s;
    } else {
      var n := |blanks| - 1;
      assert (s + blanks)[..|s| + n] == s + blanks[..n];
      EndTrimmed(s, blanks[..n]);
    }
  }

  /** The key of a request is what stands between its outer blanks, cut to 200 characters. */
  lemma KeyIsCore(r: Request, before: string, core: string, after: string)
    requires Blank(before) && Blank(after) && IsCore(core) && r.key == Some(before + core + after)
    ensures KeyOf(r) == Some(if |core| <= 200 then core else core[..200])
  {
    hide IsBlank, TrimStart, TrimEnd;
    assert before + core + after == before + (core + after);
    StartTrimmed(before, core + after);
    EndTrimmed(core, after);
  }

  /** There is none if there is no header or nothing but blanks in it. */
  lemma NoKeyIffBlank(r: Request)
    ensures KeyOf(r).None? <==> r.key.None? || Blank(r.key.value)
  {
    hide IsBlank;
    if r.key.Some? { TrimmedAway(r.key.value); }
    hide TrimStart, TrimEnd;
  }

  lemma TrimmedAway(s: string)
    ensures Trim(s) == [] <==> Blank(s)
  {
    if Blank(s) {
      StartTrimmed(s, []);
      assert s + [] == s;
    } else {
      StartIsCore(s);
    }
    hide IsBlank;
  }

  /** What is left begins with the first character that is no blank. */
  lemma {:induction false} StartIsCore(s: string)
    requires !Blank(s)
    ensures TrimStart(s) != []
    ensures TrimEnd(TrimStart(s)) != []
  {
    hide IsBlank;
    if IsBlank(s[0]) {
      assert s == [s[0]] + s[1..];
      StartIsCore(s[1..]);
    } else {
      EndKeepsFirst(s);
    }
  }

  lemma {:induction false} EndKeepsFirst(s: string)
    requires s != [] && !IsBlank(s[0])
    ensures TrimEnd(s) != []
  {
    hide IsBlank;
    if |s| > 1 && IsBlank(s[|s| - 1]) { EndKeepsFirst(s[..|s| - 1]); }
  }

  function SlotOf(organizationId: Id, key: string): string { organizationId + ":" + key }

  function Upper(s: string): string {
    seq(|s|, i requires 0 <= i < |s| => if 'a' <= s[i] <= 'z' then s[i] - 'a' + 'A' else s[i])
  }

  function DigestOf(r: Request): Digest {
    Digest(Upper(r.verb), r.path, SortValue(r.body))
  }

  /** An expired record is deleted when it is looked up. */
  function Find(records: map<string, Record>, slot: string, now: int): (map<string, Record>, Option<Record>) {
    if slot !in records then (records, None)
    else if records[slot].expiresAt <= now then (records - {slot}, None)
    else (records, Some(records[slot]))
  }

  /** What one request does to the records and what it is answered. */
  function Handle(records: map<string, Record>, r: Request, ttlHours: nat, now: int): (map<string, Record>, Answer) {
    var key := KeyOf(r);
    if key.None? then (records, KeyMissing)
    else
      var slot := SlotOf(r.organizationId, key.value);
      var (found, existing) := Find(records, slot, now);
      if existing.Some? then
        (found, if existing.value.digest != DigestOf(r) then KeyUsedBefore else Replayed(existing.value.response))
      else if r.outcome.None? then (found, WorkFailed)
      else (found[slot := Record(DigestOf(r), r.outcome.value, now + ttlHours * HOUR_MS)], Worked(r.outcome.value))
  }

  /** The runner and the store's records behind it. */
  class Runner {
    var records: map<string, Record>
    const ttlHours: nat

    constructor (ttlHours: nat)
      ensures records == map[] && this.ttlHours == ttlHours
    {
      records := map[];
      this.ttlHours := ttlHours;
    }

    method FindRecord(slot: string, now: int) returns (r: Option<Record>)
      modifies this
      ensures (records, r) == Find(old(records), slot, now)
    {
      if slot !in records { return None; }
      if records[slot].expiresAt <= now {
        records := records - {slot};
        return None;
      }
      return Some(records[slot]);
    }

    method Run(r: Request, now: int) returns (answer: Answer)
      modifies this
      ensures (records, answer) == Handle(old(records), r, ttlHours, now)
    {
      var key := KeyOf(r);
      if key.None? { return KeyMissing; }
      var slot := SlotOf(r.organizationId, key.value);
      var existing := FindRecord(slot, now);
      if existing.Some? {
        if existing.value.digest != DigestOf(r) { return KeyUsedBefore; }
        return Replayed(existing.value.response);
      }
      if r.outcome.None? { return WorkFailed; }
      records := records[slot := Record(DigestOf(r), r.outcome.value, now + ttlHours * HOUR_MS)];
      return Worked(r.outcome.value);
    }

    /** The retention pass over the records. */
    method Retain(olderThan: int)
      modifies this
      ensures records == Unexpired(old(records), olderThan)
    {
      records := map s | s in records && records[s].expiresAt >= olderThan :: records[s];
    }
  }

  function Unexpired(records: map<string, Record>, olderThan: int): map<string, Record> {
    map s | s in records && records[s].expiresAt >= olderThan :: records[s]
  }

  // -------------------------------------------------------------------- histories

  /** Requests one after the other, with retention passes in between. */
  datatype Call = Ask(request: Request, now: int) | Clean(olderThan: int, now: int)

  function AfterCall(records: map<string, Record>, c: Call, ttlHours: nat): map<string, Record> {
    match c
    case Ask(r, now) => Handle(records, r, ttlHours, now).0
    case Clean(olderThan, _) => Unexpired(records, olderThan)
  }

  function After(records: map<string, Record>, calls: seq<Call>, ttlHours: nat): map<string, Record> {
    if calls == [] then records
    else AfterCall(After(records, calls[..|calls| - 1], ttlHours), calls[|calls| - 1], ttlHours)
  }

  /** The clock does not run backwards, and retention only looks into the past. */
  ghost predicate Chronological(calls: seq<Call>) {
    && (forall i, j :: 0 <= i < j < |calls| ==> calls[i].now <= calls[j].now)
    && (forall i :: 0 <= i < |calls| && calls[i].Clean? ==> calls[i].olderThan <= calls[i].now)
  }

  function AnswerTo(calls: seq<Call>, i: nat, ttlHours: nat): Answer
    requires i < |calls| && calls[i].Ask?
  {
    Handle(After(map[], calls[..i], ttlHours), calls[i].request, ttlHours, calls[i].now).1
  }

  /** The same organisation and the same key. */
  predicate SameKey(a: Request, b: Request) {
    a.organizationId == b.organizationId && KeyOf(a).Some? && KeyOf(a) == KeyOf(b)
  }

  /** The same route and the same body up to the order of keys. */
  ghost predicate SameRequest(a: Request, b: Request) {
    Upper(a.verb) == Upper(b.verb) && a.path == b.path && Same(a.body, b.body)
  }

  /** Organisation ids are UUIDs, so a slot belongs to one organisation and key. */
  lemma SlotsDiffer(o: Id, k: string, p: Id, l: string)
    requires IsUuid(o) && IsUuid(p) && SlotOf(o, k) == SlotOf(p, l)
    ensures o == p && k == l
  {
    assert SlotOf(o, k)[..|o|] == o && SlotOf(p, l)[..|p|] == p;
    assert SlotOf(o, k)[|o| + 1..] == k && SlotOf(p, l)[|p| + 1..] == l;
  }

  /** While a record lives, no call rewrites or removes it. */
  lemma RecordStays(records: map<string, Record>, c: Call, ttlHours: nat, slot: string)
    requires slot in records && c.now < records[slot].expiresAt && (c.Clean? ==> c.olderThan <= c.now)
    ensures slot in AfterCall(records, c, ttlHours) && AfterCall(records, c, ttlHours)[slot] == records[slot]
  {
    hide DigestOf, KeyOf;
  }

  lemma {:induction false} RecordLives(calls: seq<Call>, i: nat, j: nat, ttlHours: nat, slot: string, record: Record)
    requires i < j <= |calls| && Chronological(calls)
    requires var after := After(map[], calls[..i + 1], ttlHours); slot in after && after[slot] == record
    requires forall k :: i < k < j ==> calls[k].now < record.expiresAt
    ensures var after := After(map[], calls[..j], ttlHours); slot in after && after[slot] == record
    decreases j
  {
    if j > i + 1 {
      RecordLives(calls, i, j - 1, ttlHours, slot, record);
      assert calls[..j][..j - 1] == calls[..j - 1];
      RecordStays(After(map[], calls[..j - 1], ttlHours), calls[j - 1], ttlHours, slot);
    }
  }

  /** Over any history of requests that do not overlap: once work was completed for an
      organisation and key, it is not run again for them within the lifetime of
      the record; the same request, its body reordered or not, is answered with the
      first response, and any other request under that key is refused. */
  lemma WorkIsDoneOnce(calls: seq<Call>, i: nat, j: nat, ttlHours: nat)
    requires i < j < |calls| && Chronological(calls) && calls[i].Ask? && calls[j].Ask?
    requires AnswerTo(calls, i, ttlHours).Worked? && SameKey(calls[i].request, calls[j].request)
    requires calls[j].now < calls[i].now + ttlHours * 3_600_000
    requires WellFormed(calls[i].request.body) && WellFormed(calls[j].request.body)
    ensures AnswerTo(calls, j, ttlHours) ==
            if SameRequest(calls[i].request, calls[j].request) then Replayed(AnswerTo(calls, i, ttlHours).response)
            else KeyUsedBefore
  {
    var a, b := calls[i].request, calls[j].request;
    var slot := SlotOf(a.organizationId, KeyOf(a).value);
    var record := Record(DigestOf(a), a.outcome.value, calls[i].now + ttlHours * HOUR_MS);
    assert calls[..i + 1][..i] == calls[..i];
    RecordLives(calls, i, j, ttlHours, slot, record);
    SortedIffSame(a.body, b.body);
    hide SortValue, KeyOf;
  }

  /** Every record is of an earlier call that did the work. */
  lemma {:induction false} RecordsAreEarned(calls: seq<Call>, n: nat, ttlHours: nat, slot: string)
    requires n <= |calls|
    ensures slot in After(map[], calls[..n], ttlHours) ==>
      exists i :: 0 <= i < n && Earned(calls, i, ttlHours, slot, After(map[], calls[..n], ttlHours)[slot])
    decreases n
  {
    if n > 0 {
      assert calls[..n][..n - 1] == calls[..n - 1];
      RecordsAreEarned(calls, n - 1, ttlHours, slot);
      var before, after := After(map[], calls[..n - 1], ttlHours), After(map[], calls[..n], ttlHours);
      if slot in after {
        if slot in before && before[slot] == after[slot] {
          var i :| 0 <= i < n - 1 && Earned(calls, i, ttlHours, slot, before[slot]);
          assert Earned(calls, i, ttlHours, slot, after[slot]);
        } else {
          assert Earned(calls, n - 1, ttlHours, slot, after[slot]) by { hide DigestOf, KeyOf; }
        }
      }
    }
  }

  ghost predicate Earned(calls: seq<Call>, i: int, ttlHours: nat, slot: string, record: Record) {
    0 <= i < |calls| && calls[i].Ask? &&
    var r := calls[i].request;
    && KeyOf(r).Some? && SlotOf(r.organizationId, KeyOf(r).value) == slot
    && AnswerTo(calls, i, ttlHours) == Worked(record.response) && record.digest == DigestOf(r)
    && record.expiresAt == calls[i].now + ttlHours * 3_600_000
  }

  /** The requests of a history come from known organisations and carry proper bodies. */
  ghost predicate Proper(calls: seq<Call>) {
    forall k :: 0 <= k < |calls| && calls[k].Ask? ==>
      IsUuid(calls[k].request.organizationId) && WellFormed(calls[k].request.body)
  }

  /** An earlier call of the same organisation and key did the work, not longer ago than its record lives. */
  ghost predicate Precedes(calls: seq<Call>, i: int, j: int, ttlHours: nat) {
    && 0 <= i < j < |calls| && calls[i].Ask? && calls[j].Ask? && SameKey(calls[i].request, calls[j].request)
    && AnswerTo(calls, i, ttlHours).Worked? && calls[j].now < calls[i].now + ttlHours * 3_600_000
  }

  /** A record found alive is of such a call. */
  lemma FoundIsEarned(calls: seq<Call>, j: nat, ttlHours: nat) returns (i: nat)
    requires j < |calls| && calls[j].Ask? && Proper(calls) && !AnswerTo(calls, j, ttlHours).Worked?
    requires !AnswerTo(calls, j, ttlHours).KeyMissing? && !AnswerTo(calls, j, ttlHours).WorkFailed?
    ensures Precedes(calls, i, j, ttlHours)
    ensures AnswerTo(calls, j, ttlHours) ==
            if DigestOf(calls[i].request) == DigestOf(calls[j].request)
            then Replayed(AnswerTo(calls, i, ttlHours).response) else KeyUsedBefore
  {
    var b := calls[j].request;
    var slot := SlotOf(b.organizationId, KeyOf(b).value);
    RecordsAreEarned(calls, j, ttlHours, slot);
    var record := After(map[], calls[..j], ttlHours)[slot];
    var k :| 0 <= k < j && Earned(calls, k, ttlHours, slot, record);
    i := k;
    var a := calls[i].request;
    hide DigestOf, KeyOf, After, WellFormed;
    SlotsDiffer(a.organizationId, KeyOf(a).value, b.organizationId, KeyOf(b).value);
  }

  /** And nothing is answered from another organisation's or key's record, or from one that is too old:
      a response is replayed only if an earlier call of that organisation and key with
      the same request did that work within the lifetime of its record. */
  lemma ReplayIsEarned(calls: seq<Call>, j: nat, ttlHours: nat) returns (i: nat)
    requires j < |calls| && calls[j].Ask? && AnswerTo(calls, j, ttlHours).Replayed? && Proper(calls)
    ensures Precedes(calls, i, j, ttlHours) && SameRequest(calls[i].request, calls[j].request)
    ensures AnswerTo(calls, i, ttlHours) == Worked(AnswerTo(calls, j, ttlHours).response)
  {
    i := FoundIsEarned(calls, j, ttlHours);
    SortedIffSame(calls[i].request.body, calls[j].request.body);
    hide SortValue, KeyOf, After, Handle;
  }

  /** A key is refused only if it was used within that time with another request. */
  lemma RefusalIsEarned(calls: seq<Call>, j: nat, ttlHours: nat) returns (i: nat)
    requires j < |calls| && calls[j].Ask? && AnswerTo(calls, j, ttlHours).KeyUsedBefore? && Proper(calls)
    ensures Precedes(calls, i, j, ttlHours) && !SameRequest(calls[i].request, calls[j].request)
  {
    i := FoundIsEarned(calls, j, ttlHours);
    SortedIffSame(calls[i].request.body, calls[j].request.body);
    hide SortValue, KeyOf, After, Handle;
  }

  /** So the work of a request with a key is done exactly if no such call went before. */
  lemma WorkedIfNew(calls: seq<Call>, j: nat, ttlHours: nat)
    requires j < |calls| && calls[j].Ask? && Proper(calls) && KeyOf(calls[j].request).Some?
    requires forall i :: !Precedes(calls, i, j, ttlHours)
    ensures var outcome := calls[j].request.outcome;
      AnswerTo(calls, j, ttlHours) == if outcome.None? then WorkFailed else Worked(outcome.value)
  {
    hide Precedes, After, DigestOf, KeyOf;
    var answer := AnswerTo(calls, j, ttlHours);
    if answer.Replayed? || answer.KeyUsedBefore? { var i := FoundIsEarned(calls, j, ttlHours); }
  }
}
