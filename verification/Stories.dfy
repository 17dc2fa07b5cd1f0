/** Short sequences of requests on one job, told step by step from the empty store. */
module Stories {
  import opened Contracts
  import opened OutboxKeys
  import opened Db
  import opened Dispatch
  import opened Machine
  import opened Deals
  import opened Runs
  import opened Progress

  function Name(c: char): Id { seq(36, _ => c) }

  const JOB: Id := Name('j')
  const CUSTOMER: Id := Name('c')
  const ANN: Id := Name('a')
  const BOB: Id := Name('b')
  const QUOTE: Quote := Quote(Name('q'), JOB, CUSTOMER, Sent, 300, 360, 10)
  const TO_ANN: Offer := Offer(Name('x'), JOB, ANN, Pending, 100, 5)
  const TO_BOB: Offer := Offer(Name('y'), JOB, BOB, Pending, 200, 5)

  lemma Names()
    ensures IsUuid(JOB) && IsUuid(QUOTE.id) && IsUuid(TO_ANN.id) && IsUuid(TO_BOB.id)
    ensures ANN != BOB && TO_ANN.id != TO_BOB.id
  {
    assert JOB[0] == 'j' && ANN[0] == 'a' && BOB[0] == 'b' && TO_ANN.id[0] == 'x' && TO_BOB.id[0] == 'y';
  }

  // ------------------------------------------------------------------ the telling

  function EndTime(steps: seq<Step>, clock: int): int {
    if steps == [] then clock else EndTime(steps[1..], if steps[0].Retain? then clock else steps[0].now)
  }

  /** The requests lead from the empty store to this one, with these offers accepted too late. */
  ghost predicate Told(policy: Policy, steps: seq<Step>, db: Db, late: set<nat>, now: int) {
    && Lawful(policy, EMPTY, steps) && Timely(steps, 0) && EndTime(steps, 0) <= now
    && Run(policy, EMPTY, steps) == db && LateRun(policy, EMPTY, steps, {}) == late
  }

  lemma {:induction false} OneMoreStep(policy: Policy, db: Db, steps: seq<Step>, s: Step, late: set<nat>, clock: int)
    requires Lawful(policy, db, steps) && Timely(steps, clock) && Admissible(Run(policy, db, steps), s)
    requires !s.Retain? && s.now >= EndTime(steps, clock)
    ensures Lawful(policy, db, steps + [s]) && Timely(steps + [s], clock) && EndTime(steps + [s], clock) == s.now
    ensures Run(policy, db, steps + [s]) == Apply(policy, Run(policy, db, steps), s)
    ensures LateRun(policy, db, steps + [s], late) ==
            LateAfter(policy, Run(policy, db, steps), s, LateRun(policy, db, steps, late))
    decreases |steps|
  {
    hide Apply, Admissible, LateAfter;
    var all := steps + [s];
    if steps == [] {
      assert all[1..] == [];
    } else {
      assert all[1..] == steps[1..] + [s];
      OneMoreStep(policy, Apply(policy, db, steps[0]), steps[1..], s, LateAfter(policy, db, steps[0], late),
                  steps[0].now);
    }
  }

  lemma Tell(policy: Policy, steps: seq<Step>, db: Db, late: set<nat>, now: int, s: Step)
    requires Told(policy, steps, db, late, now) && Admissible(db, s) && !s.Retain? && s.now >= now
    ensures Told(policy, steps + [s], Apply(policy, db, s), LateAfter(policy, db, s, late), s.now)
  {
    hide Apply, Admissible, LateAfter;
    OneMoreStep(policy, EMPTY, steps, s, {}, 0);
  }

  // ------------------------------------------------------------------- the stages

  /** Where the one job stands. */
  ghost predicate Stage(db: Db, status: JobStatus, quotes: seq<Quote>, offers: seq<Offer>,
                        assignments: seq<Assignment>) {
    && db.jobs == map[JOB := Job(CUSTOMER, status, 0)]
    && db.quotes == quotes && db.offers == offers && db.assignments == assignments
  }

  ghost predicate Leads(policy: Policy, db: Db, s: Step, late: bool, status: JobStatus, quotes: seq<Quote>,
                        offers: seq<Offer>, assignments: seq<Assignment>) {
    && Admissible(db, s) && Stage(Apply(policy, db, s), status, quotes, offers, assignments)
    && LateReaccept(policy, db, s) == late
  }

  lemma Submits(policy: Policy)
    ensures Leads(policy, EMPTY, SubmitJob(JOB, CUSTOMER, 0), false, Draft, [], [], [])
  {
    Names();
    hide RecordEvent, IsUuid;
  }

  lemma Triages(policy: Policy, db: Db)
    requires Stage(db, Draft, [], [], [])
    ensures Leads(policy, db, ApproveTriage(JOB, Staff, 0), false, Triaged, [], [], [])
  {
    hide RecordEvent;
  }

  lemma Prices(policy: Policy, db: Db)
    requires Stage(db, Triaged, [], [], [])
    ensures Leads(policy, db, PriceJob(QUOTE, Staff, 0), false, Quoted, [QUOTE], [], [])
  {
    Names();
    hide RecordEvent, IsUuid;
  }

  lemma Approves(policy: Policy, db: Db, status: JobStatus)
    requires Stage(db, status, [QUOTE], [], [])
    ensures Leads(policy, db, AnswerQuote(QUOTE.id, Staff, true, 0), false,
                  status, [QUOTE.(status := Approved)], [], [])
  {
    hide RecordEvent;
    assert QuoteIndex(db.quotes, QUOTE.id) == 0;
  }

  lemma Cancels(policy: Policy, db: Db)
    requires Stage(db, Quoted, [QUOTE], [], [])
    ensures Leads(policy, db, CancelJob(JOB, Staff, 0), false, Cancelled, [QUOTE], [], [])
  {
    hide RecordEvent;
  }

  function Taken(o: Offer): Offer { o.(status := Accepted) }
  function Deal(o: Offer,
                status: AssignmentStatus): Assignment { Assignment(o.jobId, o.providerId, status, o.payoutNetCents) }
  function Agreement(): seq<Quote> { [QUOTE.(status := Approved)] }

  predicate Fresh(offers: seq<Offer>, o: Offer) {
    && (o == TO_ANN || o == TO_BOB)
    && forall x :: x in offers ==> x.id != o.id && x.providerId != o.providerId && x.jobId == JOB && !x.status.Pending?
  }

  /** One more provider is asked. */
  lemma Offers(policy: Policy, db: Db, o: Offer, offers: seq<Offer>, assignments: seq<Assignment>)
    requires Stage(db, Quoted, Agreement(), offers, assignments) && Fresh(offers, o)
    ensures Leads(policy, db, FanOut(JOB, Staff, [o.providerId], [o.id], o.payoutNetCents, o.expiresAt, 0), false,
                  Quoted, Agreement(), offers + [o], assignments)
  {
    Names();
    hide RecordEvent, IsUuid;
    assert Agreement()[0] in db.quotes;
    assert [o.providerId][1..] == [] && [o.id][1..] == [];
    assert AddOffers(offers, JOB, [o.providerId], [o.id], o.payoutNetCents, o.expiresAt) == offers + [o];
  }

  /** That provider accepts, with nobody else working on the job. */
  lemma Accepts(policy: Policy, db: Db, o: Offer, offers: seq<Offer>, assignments: seq<Assignment>)
    requires Stage(db, Quoted, Agreement(), offers + [o], assignments) && Fresh(offers, o)
    requires forall a :: a in assignments ==> a.status.FellThrough?
    ensures Leads(policy, db, Accept(o.id, o.providerId, 0), false,
                  Assigned, Agreement(), offers + [Taken(o)], assignments + [Deal(o, Active)])
  {
    hide RecordEvent;
    var k := OfferIndex(db.offers, o.id);
    assert k == |offers| by {
      assert (offers + [o])[|offers|] == o;
      forall i | 0 <= i < |offers| ensures (offers + [o])[i].id != o.id { assert offers[i] in offers; }
    }
    assert ActiveIndex(db.assignments, JOB) == |assignments|;
    forall i | 0 <= i < |offers| ensures !offers[i].status.Pending? { assert offers[i] in offers; }
    assert Withdraw((offers + [o])[k := Taken(o)], JOB, o.id) == offers + [Taken(o)];
  }

  lemma Falls(policy: Policy, db: Db, o: Offer, offers: seq<Offer>)
    requires Stage(db, Assigned, Agreement(), offers, [Deal(o, Active)]) && o.jobId == JOB
    ensures Leads(policy, db, FallThrough(JOB, Staff, 0), false, Quoted, Agreement(), offers, [Deal(o, FellThrough)])
  {
    hide RecordEvent;
    assert ActiveIndex(db.assignments, JOB) == 0;
  }

  lemma Starts(policy: Policy, db: Db, offers: seq<Offer>, assignments: seq<Assignment>)
    requires Stage(db, Assigned, Agreement(), offers, assignments)
    ensures Leads(policy, db, StartWork(JOB, Staff, 0), false, InProgress, Agreement(), offers, assignments)
  {
    hide RecordEvent;
  }

  lemma Completes(policy: Policy, db: Db, offers: seq<Offer>, assignments: seq<Assignment>)
    requires Stage(db, InProgress, Agreement(), offers, assignments)
    ensures Leads(policy, db, CompleteJob(JOB, Staff, 1, 0), false, Completed, Agreement(), offers, assignments)
  {
    hide RecordEvent;
  }

  /** The provider accepts its accepted offer once more, after the deadline. */
  lemma AcceptsLate(db: Db)
    requires Stage(db, Completed, Agreement(), [Taken(TO_ANN)], [Deal(TO_ANN, Active)])
    ensures Leads(KeepsWrites, db, Accept(TO_ANN.id, ANN, 5), true,
                  Completed, Agreement(), [TO_ANN.(status := Expired)],
                  [Deal(TO_ANN, Active)])
  {
    assert OfferIndex(db.offers, TO_ANN.id) == 0;
  }
}
