/** The outbox worker: claims a batch, runs the handlers of each message, records the outcome. */
module OutboxWorkers {
  import opened Contracts
  import opened OutboxKeys
  import opened Db
  import opened Machine
  import opened Invariants
  import opened System
  import opened Money
  import opened Queue
  import opened Claims
  import opened Store
  import opened Gateway

  datatype HandlerName = Notify | AuthoriseHold | CaptureAndPayOut | ReleaseHold

  /** What runs for a topic, in order. */
  type Registry = map<Topic, seq<HandlerName>>

  function HandlersOf(r: Registry, t: Topic): seq<HandlerName> {
    if t in r then r[t] else []
  }

  /** A topic's handlers in registry order. */
  function Composed(registries: seq<Registry>, t: Topic): seq<HandlerName> {
    if registries == [] then []
    else Composed(registries[..|registries| - 1], t) + HandlersOf(registries[|registries| - 1], t)
  }

  /** `now` is `before` with the handlers of a registry added, except for the topics left to do. */
  ghost predicate Merged(before: Registry, registry: Registry, left: set<Topic>, now: Registry) {
    forall t: Topic ::
      && (t in now <==> t in before || (t in registry && t !in left))
      && HandlersOf(now, t) == HandlersOf(before, t) + if t in registry && t !in left then registry[t] else []
  }

  ghost predicate IsComposed(registries: seq<Registry>, composed: Registry) {
    forall t: Topic ::
      && (t in composed <==> exists r :: r in registries && t in r)
      && HandlersOf(composed, t) == Composed(registries, t)
  }

  lemma MergeOne(before: Registry, registry: Registry, left: set<Topic>, now: Registry, t: Topic)
    requires Merged(before, registry, left, now) && t in left && left <= registry.Keys
    ensures Merged(before, registry, left - {t}, now[t := HandlersOf(now, t) + registry[t]])
  {
    assert HandlersOf(now, t) == HandlersOf(before, t) + [];
  }

  lemma MergedTopic(registries: seq<Registry>, i: nat, t: Topic)
    requires i < |registries|
    ensures (exists r :: r in registries[..i + 1] && t in r) <==>
      (exists r :: r in registries[..i] && t in r) || t in registries[i]
    ensures Composed(registries[..i + 1], t) == Composed(registries[..i], t) + HandlersOf(registries[i], t)
  {
    var some, more := registries[..i], registries[..i + 1];
    assert more == some + [registries[i]] && more[..i] == some;
    if r :| r in some && t in r { assert r in more; }
    if t in registries[i] { assert registries[i] in more; }
  }

  lemma MergedAll(registries: seq<Registry>, i: nat, before: Registry, now: Registry)
    requires i < |registries| && IsComposed(registries[..i], before) && Merged(before, registries[i], {}, now)
    ensures IsComposed(registries[..i + 1], now)
  {
    hide Composed;
    forall t: Topic
      ensures t in now <==> exists r :: r in registries[..i + 1] && t in r
      ensures HandlersOf(now, t) == Composed(registries[..i + 1], t)
    {
      MergedTopic(registries, i, t);
    }
  }

  /** Each topic gets its handlers of all registries, in registry order. */
  method ComposeHandlers(registries: seq<Registry>) returns (composed: Registry)
    ensures IsComposed(registries, composed)
  {
    composed := map[];
    var i := 0;
    assert IsComposed(registries[..0], composed);
    hide IsComposed, Merged;
    while i < |registries|
      invariant i <= |registries| && IsComposed(registries[..i], composed)
    {
      var registry := registries[i];
      ghost var before := composed;
      var todo := registry.Keys;
      MergeNone(before, registry);
      while todo != {}
        invariant todo <= registry.Keys && Merged(before, registry, todo, composed)
        decreases todo
      {
        var topic :| topic in todo;
        MergeOne(before, registry, todo, composed, topic);
        var existing := HandlersOf(composed, topic);
        composed := composed[topic := existing + registry[topic]];
        todo := todo - {topic};
      }
      MergedAll(registries, i, before, composed);
      i := i + 1;
    }
    assert registries[..i] == registries;
  }

  lemma MergeNone(before: Registry, registry: Registry)
    ensures Merged(before, registry, registry.Keys, before)
  {
  }

  predicate Notified(t: Topic) {
    match t
    case TopicJobTriaged => false
    case TopicAuthorisationRequested => false
    case TopicCaptureRequested => false
    case TopicPayoutRequested => false
    case _ => true
  }

  const NOTIFICATIONS: Registry := map t: Topic | t in TOPICS && Notified(t) :: [Notify]
  const PAYMENTS: Registry :=
    map[TopicQuoteDecided := [AuthoriseHold],
        TopicJobCompleted := [CaptureAndPayOut],
        TopicJobCancelled := [ReleaseHold]]

  const TOPICS: set<Topic> := {
    TopicJobCreated, TopicJobTriaged, TopicJobQuoted, TopicQuoteDecided, TopicOffersSent,
    TopicOfferAccepted, TopicOfferDeclined, TopicOfferExpired, TopicFellThrough,
    TopicJobStarted, TopicJobCompleted, TopicJobCancelled, TopicEscalated,
    TopicAuthorisationRequested, TopicCaptureRequested, TopicPayoutRequested}

  datatype DrainResult = DrainResult(claimed: nat, delivered: nat, failed: nat, dead: nat, skipped: nat)

  // -------------------------------------------------------- a run, step by step

  lemma {:induction false} RunAppend(policy: Policy, sys: Sys, steps: seq<SysStep>, s: SysStep)
    requires LawfulSys(policy, sys, steps) && Enabled(RunSys(policy, sys, steps), s)
    ensures LawfulSys(policy, sys, steps + [s])
    ensures RunSys(policy, sys, steps + [s]) == Do(policy, RunSys(policy, sys, steps), s)
    ensures Settlements(policy, sys, steps + [s]) ==
            Settlements(policy, sys, steps) + if Settles(RunSys(policy, sys, steps), s) then 1 else 0
    decreases |steps|
  {
    hide Do, Enabled, Settles;
    if steps == [] {
      assert steps + [s] == [s] && [s][1..] == [];
    } else {
      assert (steps + [s])[1..] == steps[1..] + [s] && (steps + [s])[0] == steps[0];
      RunAppend(policy, Do(policy, sys, steps[0]), steps[1..], s);
    }
  }

  /** A handler run to its end is a run of micro-steps that settles nothing. */
  lemma {:induction false} FinishIsRun(policy: Policy, start: Sys, steps: seq<SysStep>) returns (more: seq<SysStep>)
    requires LawfulSys(policy, start, steps)
    requires var sys := RunSys(policy, start, steps); sys.worker.Busy? && sys.worker.batch != []
    ensures LawfulSys(policy, start, steps + more)
    ensures RunSys(policy, start, steps + more) == Finish(RunSys(policy, start, steps))
    ensures Settlements(policy, start, steps + more) == Settlements(policy, start, steps)
    ensures forall s :: s in more ==> !s.Api?
    decreases StepsLeft(RunSys(policy, start, steps).worker.phase)
  {
    var sys := RunSys(policy, start, steps);
    if sys.worker.phase.Finished? || sys.worker.phase.Thrown? {
      more := [];
      assert steps + more == steps;
    } else {
      HandlerEnds(sys, 0);
      RunAppend(policy, start, steps, Go(0));
      var rest := FinishIsRun(policy, start, steps + [Go(0)]);
      more := [Go(0)] + rest;
      assert steps + more == steps + [Go(0)] + rest;
    }
  }

  class OutboxWorker {
    const store: MemoryStore
    const gateway: MockPaymentGateway
    const payments: PaymentHandlers
    var handlers: Registry

    constructor (store: MemoryStore, gateway: MockPaymentGateway)
      ensures this.store == store && this.gateway == gateway
      ensures payments.store == store && payments.gateway == gateway
      ensures IsComposed([NOTIFICATIONS, PAYMENTS], handlers)
    {
      this.store, this.gateway := store, gateway;
      payments := new PaymentHandlers(store, gateway);
      var composed := ComposeHandlers([NOTIFICATIONS, PAYMENTS]);
      handlers := composed;
    }

    ghost predicate Valid()
      reads this, payments
    {
      && payments.store == store && payments.gateway == gateway
      && IsComposed([NOTIFICATIONS, PAYMENTS], handlers)
    }

    function Now(worker: System.Worker): Sys
      reads store, gateway
    {
      Sys(store.State(), gateway.authorisations, worker)
    }

    /** Runs the handlers of the first message of the batch, in order, until one throws. */
    method Deliver(batch: seq<Row>, mailFails: bool) returns (threw: bool)
      requires Valid() && batch != [] && HandlersOf(handlers, batch[0].topic) != []
      modifies store, gateway
      ensures mailFails ==> threw && Now(Busy(batch, Thrown)) == old(Now(Busy(batch, Thrown)))
      ensures !mailFails ==> Now(Busy(batch, Outcome(threw))) == Finish(old(Now(Busy(batch, AtStart))))
    {
      var names := HandlersOf(handlers, batch[0].topic);
      ComposedOf(batch[0].topic);
      assert names[0] == Notify;
      if mailFails { return true; }
      if |names| == 1 {
        NothingToPay(old(Now(Busy(batch, AtStart))));
        return false;
      }
      match names[1]
      case AuthoriseHold => threw := payments.Authorise(batch);
      case CaptureAndPayOut => threw := payments.CaptureAndPay(batch);
      case ReleaseHold => threw := payments.Release(batch);
      case Notify => assert false;
    }

    /** One pass over a claimed batch.  `clock(i)` is the time read while the i-th message is
        settled, `mailFails(i)` whether its notification throws.  `steps` is the run of
        micro-steps it amounts to.  On a reachable system it uses up at least one of the
        attempts left on open rows for every row claimed. */
    method Drain(now: int, limit: nat, clock: nat -> int, mailFails: nat -> bool)
      returns (result: DrainResult, ghost steps: seq<SysStep>)
      requires Valid() && store.RowIdsDiffer()
      modifies store, gateway
      ensures result.claimed == result.delivered + result.failed + result.dead + result.skipped
      ensures result.claimed == |DueBatch(old(store.outbox), now, limit)|
      ensures LawfulSys(KeepsWrites, old(Now(Idle)), steps) && forall s :: s in steps ==> !s.Api?
      ensures RunSys(KeepsWrites, old(Now(Idle)), steps) == Now(Idle)
      ensures Settlements(KeepsWrites, old(Now(Idle)), steps) == result.claimed
      ensures SysInv(old(Now(Idle))) && QueueGood(old(Now(Idle))) ==>
        Work(store.outbox) + result.claimed <= Work(old(store.outbox))
      ensures SysInv(old(Now(Idle))) && QueueGood(old(Now(Idle))) ==> SysInv(Now(Idle)) && QueueGood(Now(Idle))
    {
      hide SysInv, QueueGood, Work, RunSys, LawfulSys, Settlements, Do, Finish, IsComposed, Settle, MarkDelivered,
        MarkFailed, DueBatch, StartBatch,
        Advance, LeaseAll, RowIds, OutboxBackoffMs;
      ghost var start := Now(Idle);
      var batch := store.ClaimOutbox(now, limit);
      result := DrainResult(|batch|, 0, 0, 0, 0);
      steps := [Claim(now, limit)];
      ClaimedRun(start, now, limit);
      var i := 0;
      while i < |batch|
        invariant i <= |batch| == result.claimed && Valid()
        invariant forall s :: s in steps ==> !s.Api?
        invariant i == result.delivered + result.failed + result.dead + result.skipped
        invariant LawfulSys(KeepsWrites, start, steps) && Settlements(KeepsWrites, start, steps) == i
        invariant RunSys(KeepsWrites, start, steps) == Now(StartBatch(batch[i..]))
      {
        var message := batch[i];
        var rest := batch[i..];
        assert rest[0] == message && rest[1..] == batch[i + 1..];
        BatchStarts(rest);
        if HandlersOf(handlers, message.topic) == [] {
          Unhandled(handlers, message.topic);
          ghost var more := SkippedRun(start, steps, rest, clock(i));
          steps := steps + more;
          SettledIs(Now(Busy(rest, Finished)), clock(i));
          store.MarkOutboxDelivered(message.id, clock(i));
          result := result.(skipped := result.skipped + 1);
          i := i + 1;
          continue;
        }
        var threw := Deliver(rest, mailFails(i));
        ghost var more := DeliveredRun(start, steps, rest, mailFails(i), Now(Busy(rest, Outcome(threw))), clock(i));
        steps := steps + more;
        SettledIs(Now(Busy(rest, Outcome(threw))), clock(i));
        if !threw {
          store.MarkOutboxDelivered(message.id, clock(i));
          result := result.(delivered := result.delivered + 1);
        } else {
          var attempts := message.attempts + 1;
          var giveUp := attempts >= OUTBOX_MAX_ATTEMPTS;
          var retryAt := if giveUp then None else Some(clock(i) + OutboxBackoffMs(attempts));
          store.MarkOutboxFailed(message.id, retryAt);
          if giveUp {
            result := result.(dead := result.dead + 1);
          } else {
            result := result.(failed := result.failed + 1);
          }
        }
        i := i + 1;
      }
      assert batch[i..] == [];
      NothingStarts();
      if SysInv(start) && QueueGood(start) {
        WorkRun(KeepsWrites, start, steps);
        RunSysKeeps(KeepsWrites, start, steps);
        RunKeepsQueue(KeepsWrites, start, steps);
      }
    }
  }

  lemma ClaimedRun(start: Sys, now: int, limit: nat)
    requires start.worker.Idle?
    ensures LawfulSys(KeepsWrites, start, [Claim(now, limit)])
      && Settlements(KeepsWrites, start, [Claim(now, limit)]) == 0
    ensures var (outbox, batch) := ClaimOutbox(start.db.outbox, now, limit);
      RunSys(KeepsWrites, start, [Claim(now, limit)]) ==
        start.(db := start.db.(outbox := outbox), worker := StartBatch(batch))
  {
    hide ClaimOutbox;
    var s := Claim(now, limit);
    assert [s][1..] == [];
    assert RunSys(KeepsWrites, Do(KeepsWrites, start, s), []) == Do(KeepsWrites, start, s);
  }

  lemma BatchStarts(rest: seq<Row>)
    requires rest != []
    ensures StartBatch(rest) == Busy(rest, AtStart)
  {
  }

  lemma NothingStarts()
    ensures StartBatch([]) == Idle
  {
  }

  /** What settling the message in hand comes to. */
  lemma SettledIs(sys: Sys, at: int)
    requires sys.worker.Busy? && sys.worker.batch != []
    ensures var m := sys.worker.batch[0];
      Settle(sys, at) ==
      Sys(sys.db.(outbox := if sys.worker.phase.Thrown? then MarkFailed(sys.db.outbox, m.id, RetryAt(m, at))
                            else MarkDelivered(sys.db.outbox, m.id, at)),
          sys.holds, StartBatch(sys.worker.batch[1..]))
  {
    hide MarkDelivered, MarkFailed, RetryAt;
  }

  /** Settling is one more micro-step. */
  lemma SettledRun(start: Sys, steps: seq<SysStep>, rest: seq<Row>, at: int)
    requires LawfulSys(KeepsWrites, start, steps) && rest != []
    requires var sys := RunSys(KeepsWrites, start, steps);
      sys.worker.Busy? && sys.worker.batch == rest && (sys.worker.phase.Finished? || sys.worker.phase.Thrown?)
    ensures LawfulSys(KeepsWrites, start, steps + [Go(at)])
    ensures Settlements(KeepsWrites, start, steps + [Go(at)]) == Settlements(KeepsWrites, start, steps) + 1
    ensures RunSys(KeepsWrites, start, steps + [Go(at)]) == Settle(RunSys(KeepsWrites, start, steps), at)
  {
    hide Settle, RunSys, LawfulSys, Settlements;
    RunAppend(KeepsWrites, start, steps, Go(at));
  }

  lemma SkippedRun(start: Sys, steps: seq<SysStep>, rest: seq<Row>, at: int) returns (more: seq<SysStep>)
    requires LawfulSys(KeepsWrites, start, steps) && rest != []
    requires RunSys(KeepsWrites, start, steps).worker == Busy(rest, AtStart)
    requires var t := rest[0].topic; !t.TopicQuoteDecided? && !t.TopicJobCompleted? && !t.TopicJobCancelled?
    ensures LawfulSys(KeepsWrites, start, steps + more) && forall s :: s in more ==> !s.Api?
    ensures Settlements(KeepsWrites, start, steps + more) == Settlements(KeepsWrites, start, steps) + 1
    ensures var sys := RunSys(KeepsWrites, start, steps);
      RunSys(KeepsWrites, start, steps + more) == Settle(sys.(worker := Busy(rest, Finished)), at)
  {
    hide Settle, RunSys, LawfulSys, Settlements;
    var handled := FinishIsRun(KeepsWrites, start, steps);
    NothingToPay(RunSys(KeepsWrites, start, steps));
    SettledRun(start, steps + handled, rest, at);
    more := handled + [Go(at)];
    assert steps + more == steps + handled + [Go(at)];
  }

  lemma DeliveredRun(start: Sys, steps: seq<SysStep>, rest: seq<Row>, mailFails: bool, end: Sys, at: int)
    returns (more: seq<SysStep>)
    requires LawfulSys(KeepsWrites, start, steps) && rest != []
    requires RunSys(KeepsWrites, start, steps).worker == Busy(rest, AtStart)
    requires var sys := RunSys(KeepsWrites, start, steps);
      end == if mailFails then sys.(worker := Busy(rest, Thrown)) else Finish(sys)
    requires end.worker.Busy? && end.worker.batch == rest && (end.worker.phase.Finished? || end.worker.phase.Thrown?)
    ensures LawfulSys(KeepsWrites, start, steps + more) && forall s :: s in more ==> !s.Api?
    ensures Settlements(KeepsWrites, start, steps + more) == Settlements(KeepsWrites, start, steps) + 1
    ensures RunSys(KeepsWrites, start, steps + more) == Settle(end, at)
  {
    hide Settle, RunSys, LawfulSys, Settlements, Finish;
    var handled: seq<SysStep>;
    if mailFails {
      RunAppend(KeepsWrites, start, steps, Fail);
      handled := [Fail];
    } else {
      handled := FinishIsRun(KeepsWrites, start, steps);
    }
    SettledRun(start, steps + handled, rest, at);
    more := handled + [Go(at)];
    assert steps + more == steps + handled + [Go(at)];
  }

  /** What the two registries come to, topic by topic. */
  lemma ComposedOf(t: Topic)
    ensures Composed([NOTIFICATIONS, PAYMENTS], t) ==
            if !Notified(t) then []
            else if t == TopicQuoteDecided then [Notify, AuthoriseHold]
            else if t == TopicJobCompleted then [Notify, CaptureAndPayOut]
            else if t == TopicJobCancelled then [Notify, ReleaseHold]
            else [Notify]
  {
    var two, one := [NOTIFICATIONS, PAYMENTS], [NOTIFICATIONS];
    assert two[..1] == one && one[..0] == [];
    assert Composed(two, t) == Composed(one, t) + HandlersOf(PAYMENTS, t);
    assert Composed(one, t) == Composed([], t) + HandlersOf(NOTIFICATIONS, t);
    assert t in TOPICS;
  }

  lemma Unhandled(handlers: Registry, t: Topic)
    requires IsComposed([NOTIFICATIONS, PAYMENTS], handlers) && HandlersOf(handlers, t) == []
    ensures !t.TopicQuoteDecided? && !t.TopicJobCompleted? && !t.TopicJobCancelled?
  {
    ComposedOf(t);
  }

  /** A topic without a payment handler is done at once. */
  lemma NothingToPay(sys: Sys)
    requires sys.worker.Busy? && sys.worker.batch != [] && sys.worker.phase.AtStart?
    requires var t := sys.worker.batch[0].topic; !t.TopicQuoteDecided? && !t.TopicJobCompleted? && !t.TopicJobCancelled?
    ensures Finish(sys) == sys.(worker := Busy(sys.worker.batch, Finished))
  {
    FinishStep(sys);
    assert Advance(sys, 0) == sys.(worker := Busy(sys.worker.batch, Finished));
  }
}
