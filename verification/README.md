# RESCUE: job protocol, outbox, money and dispatch

RESCUE drives a recovery job from `DRAFT` to `COMPLETED` or `CANCELLED`. A customer approves a price, providers are
offered the job, one accepts, may drop out again, and money follows from an outbox that is worked off by a retrying
worker. This project models that protocol and proves what every run of it keeps.

How it is laid out:

- **The store.** `Db.dfy` says what each store operation does to the stored state, as functions on values.
  `Store.dfy` is the store itself, a class with the maps and lists of `apps/api/src/store/memory.ts`; each method is
  proved to compute exactly that function (its `ensures` equates the new state with the function of the old one).
  `Routes.dfy` adds the guards of the request handlers, each of which keeps the invariant of all runs on the store
  object and undoes nothing recorded.
- **The job machine.** `Machine.dfy` has one step per request, sweep action and retention pass. A *run* is any
  interleaving of steps. `Policy` says whether a refused request keeps what it wrote first (`KeepsWrites`, the
  in-memory store) or not (`RollsBack`, a transactional one). `Tallies.dfy` reduces a job to counts,
  `Invariants.dfy` states what those counts satisfy, `Preservation.dfy` proves that every step keeps it,
  `Evolution.dfy` what no step undoes, and `Runs.dfy` draws the conclusions. `Answers.dfy` follows offers and their
  answers through every run. On the reachable states so described, `Requests.dfy` decides every request: when it is
  granted, what it then does, and that a refused one leaves everything alone; `Journal.dfy` says what it leaves in the
  history, `Histories.dfy` what events look like in every reachable history, and `Announcements.dfy` which of them get
  a message of their own.
- **The worker and the money.** `System.dfy` puts store, gateway and one worker into one machine in which every
  `await` of a payment handler is a step of its own, so that requests, failures and crashes fall between any two.
  `Money.dfy` and `Safety.dfy`, `Deals.dfy` and `Payouts.dfy`, `References.dfy`, `Evidence.dfy`, `Queue.dfy`, `Claims.dfy`,
  `Retries.dfy`, `Finality.dfy` and `Delivery.dfy` prove safety over all of its runs; `CalmQueue.dfy`, `TodoOrder.dfy`, `Settlement.dfy`, `Ledger.dfy` what a failure-free
  run has settled once its queue is empty, and `Progress.dfy` that it can always be emptied. `Gateway.dfy` and
  `OutboxWorkers.dfy` are the gateway, the payment handlers and the worker as the objects that run them; they are proved
  to take exactly those micro-steps, so the theorems are about them.
- **What can go wrong.** `Stories.dfy` tells short runs from the empty store step by step, and `Witness.dfy` follows them
  to the states in which a promise is not kept.
- **The dispatch sweep.** `Dispatch.dfy` (one job), `Sweep.dfy` (a whole sweep), `SweepService.dfy` (the class), and
  `RankedDispatch.dfy`, which puts the ranking of `Eligibility.dfy` to work in rounds, sweeps and fan-outs.
- **The pure cores.** `Eligibility.dfy` (ranking), `CanonicalJson.dfy` and `Idempotency.dfy` (same request or not),
  `Listing.dfy` (pages), `OutboxKeys.dfy` (dedupe keys), with `Ordering.dfy` and `Counting.dfy` underneath.

Names, clocks and identifiers: new ids are parameters of the steps that need them, required to be fresh and of UUID
length without a separator; every clock reading is a parameter; a keyed digest stands for what it was made of, that is,
it is taken as injective.

Where code and documentation disagree the code is modelled: a provider falling through returns the job to `QUOTED`
(`apps/api/src/store/memory.ts:767-775`), although the comment at `apps/api/src/routes/offers.ts:171-174` says
`TRIAGED`; a dedupe key is only hashed beyond 180 characters (`apps/api/src/lib/outbox.ts:66-67`), although the comment
above it says hashed; `OFFERS_SENT` carries no `round` and `ASSIGNMENT_FELL_THROUGH` no `assignmentId`, so later rounds and
fall-throughs of a job share one message (`Announcements.SameKeyIff`, `Announcements.MessageIff`).

Three things turn out not to hold in general. Each is stated with the exact condition under which it does, over all
runs, and with a concrete run in which it does not:

- *A provider is paid what it accepted.* A payout is the payout of the first offer on the job that was ever accepted and
  was not accepted again too late, by its own provider after the deadline, before the payout was priced; without one it is
  the provider's share of the gross (`Payouts.PayoutIsExactly`). So on a job that never fell through it is the accepted sum
  unless there was such a late acceptance, and then it is the share (`Payouts.PayoutIsAgreed`); and on any job without a
  late acceptance it is what the current provider accepted if and only if the first one accepted the same sum
  (`Payouts.PayoutIsFirstAccepted`). A late acceptance matters only in a store that keeps a refused request's writes.
  The runs: `Witness.SecondProviderPaidAsFirst`, `Witness.LateAcceptancePaysShare`.
- *A cancelled job's hold is released.* In failure-free runs if and only if approval came before the cancellation
  (`Settlement.SettledWhenQuiet`, `Ledger.BooksWhenQuiet`). The run: `Witness.LateApprovalStaysReserved`.
- *A delivered completion is captured and paid, a delivered cancellation released.* If and only if the hold is on the ledger
  when the message is delivered, and then for good (`Delivery.DeliveredIffHeld`); otherwise never, even if the hold is
  placed later (`Finality.LateHoldStays`). The runs: `Witness.CompletionCanGoUnheld`, `Witness.UnpaidCompletion`.

## Model

| member | source | states |
|---|---|---|
| Runs.FaithfulHistory | apps/api/src/store/memory.ts:296-322 | In every reachable state a job's events replay from DRAFT without gaps along legal edges to the stored status, and acceptances minus fall-throughs is its number of active assignments, 0 or 1. |
| Runs.HistoryIsAppendOnly | apps/api/src/store/memory.ts:204-239 | No continuation of a run rewrites history, reopens an offer, changes a decided quote, revives an assignment or moves a finished job. |
| Runs.OneActiveAssignment | apps/api/src/store/memory.ts:635-708 | However accepts, declines, expiries, sweeps and fall-throughs interleave, a job never has two active assignments; ASSIGNED, IN_PROGRESS, COMPLETED mean one, DRAFT, TRIAGED, QUOTED none. |
| Runs.FiniteLife | apps/api/src/store/memory.ts:759-790 | Despite the fallback cycle a job offered to P distinct providers changes status at most 3 + 3P times. |
| Runs.OneOfferPerProvider | apps/api/src/store/memory.ts:587-607 | Offers are unique per job and provider in every reachable state. |
| Answers.NobodyElseIsAsked | apps/api/src/store/memory.ts:635-708 | In every reachable state a job with an active assignment has no open offer, so the losing offers of an acceptance are closed and never stand in the way after a fall-through. |
| Answers.OneAnswerPerOffer | apps/api/src/store/memory.ts:635-749 | In every run an offer is accepted, declined or expires at most once in the history, and an answered offer is closed. |
| Journal.OffersAsRecorded | apps/api/src/store/memory.ts:635-749 | In every run an offer stands as accepted, declined or expired if and only if the history holds that answer to it; only where refusals keep their writes may it stand as expired instead. |
| Runs.PricedBeforeDispatch | apps/api/src/routes/offers.ts:56-80 | A job with an offer, an assignment or a status from ASSIGNED on has exactly one quote, and it is approved. |
| Runs.RefusedQuoteStopsJob | apps/api/src/routes/quotes.ts:41-94 | A job whose quote was rejected or found lapsed is QUOTED or CANCELLED in every continuation. |
| Runs.LapsedQuoteStopsJob | apps/api/src/store/memory.ts:543-576 | The same once a quote's time is over: answers at or after it never let the job past QUOTED. |
| Evolution.StepEvolves | apps/api/src/store/memory.ts:635-790 | One step: history grows, finished jobs and decided quotes stay, offers never reopen, and where refusals roll back an answered offer never changes. |
| Preservation.StepKeeps | apps/api/src/store/memory.ts:204-790 | Every request, sweep action and retention pass keeps the whole invariant of jobs, quotes, offers, assignments, history and outbox. |
| Requests.RequestsDecided | apps/api/src/store/memory.ts:250-790 | In every reachable state: a request succeeds if and only if its caller, the state of the job, quote or offer, the deadline and the evidence allow it; it then changes exactly what is listed (an acceptance: the offer accepted, its provider at work at its payout, every other open offer of the job withdrawn, the job assigned, nothing else; an expiry pass: exactly the open offers whose deadline has come), and otherwise nothing but, where refusals keep writes, the mark that a deadline has passed. |
| Journal.RequestsTold | apps/api/src/store/memory.ts:204-220 | In every reachable state a granted request adds exactly its own events, with the edge it took and the ids it concerns, and a refused one none. |
| Requests.StaysInScope | apps/api/src/store/memory.ts:167-182 | In every reachable state a customer touches jobs of its own organisation only, and a provider works on, completes and gives back only the job it holds now and answers only its own offers: every other job is left as it was. |
| Safety.NoTwoRowsShareKey | apps/api/src/store/memory.ts:222-226 | However requests, failures and crashes interleave, no two outbox rows ever share a dedupe key. |
| Invariants.RecordedRow | apps/api/src/store/memory.ts:222-239 | From the moment a published event is recorded there is a row of its own job, topic and key. |
| Announcements.MessageIff | apps/api/src/store/memory.ts:222-239 | Recording a published event adds one row, with its own payload, if and only if no row of the same job, topic and occurrence is in the table. |
| Announcements.OwnMessage | apps/api/src/store/memory.ts:222-239 | In every run each acceptance, decline, expiry, quote decision, completion and cancellation that is recorded gets a new row with its own payload. |
| Invariants.RowKeysReadable | apps/api/src/lib/outbox.ts:57-68 | Every key the system writes is readable text of at most 180 characters. |
| OutboxKeys.SplitUndoesJoin | apps/api/src/lib/outbox.ts:62-66 | Splitting a joined key at the separator gives back its parts when no part contains it. |
| OutboxKeys.KeyInjective | apps/api/src/lib/outbox.ts:57-68 | Equal keys have equal topic, job and normalised parts when no part contains the separator. |
| OutboxKeys.SameKeySameJob | apps/api/src/lib/outbox.ts:104-118 | Events of the system that share a key are of the same job and topic. |
| Announcements.SameKeyIff | apps/api/src/lib/outbox.ts:79-102 | Two published events share a key if and only if job and topic are equal and they are one occurrence: answers of the same offer, decisions of the same quote, escalations of the same reason, and anything else of one job. |
| OutboxKeys.KeyFitsColumn | apps/api/src/lib/outbox.ts:66-67 | No key of a UUID job and a declared topic exceeds 200 characters, hashed or not. |
| Contracts.OutboxBackoffMs | packages/contracts/src/ops.ts:70-75 | The wait before a retry is between 30 seconds and 30 minutes for every number of attempts; the schedule is Retries.BackoffSchedule. |
| Retries.BackoffSchedule | packages/contracts/src/ops.ts:70-75 | The wait is 30 seconds up to the first attempt, doubles with each further one under the ceiling, and is half an hour from the seventh on. |
| Retries.FailedIsRetried | apps/api/src/worker/worker.ts:92-115 | Over every run with failures and crashes: a message that fails for the first to fourth time at t is due again at t + 30, 60, 120, 240 seconds, the fifth failure makes it dead, and no other row changes. |
| Safety.NeverChargedTwice | apps/api/src/worker/payments.ts:54-176 | Whatever fails or crashes at any await: at most one hold, capture, payout and void per job, in that order of need; never both captured and voided; captured only if completed, voided only if cancelled. |
| Safety.AmountsAreApproved | apps/api/src/worker/payments.ts:54-84 | Every hold, capture and void on the ledger is the approved gross with the sign of its kind, payouts are negative, nothing else is written, and every hold at the gateway is one job's, for its approved gross. |
| References.EveryEntryRefers | apps/api/src/worker/payments.ts:54-169 | Over every run with failures and crashes: holds and releases carry the reference of their own job, captures that of its hold, and a payout goes to the provider with the active assignment of the completed job. |
| Evidence.ChargedWithEvidence | apps/api/src/routes/jobs.ts:191-205 | Over every run: a completed job, and so every job with a capture or payout, has a completion in its history with at least one proof. |
| Safety.OneHoldPerJob | apps/api/src/lib/payments.ts:129-138 | The gateway holds at most one authorisation per job, in every run. |
| Safety.HandlersNeverThrow | apps/api/src/worker/payments.ts:54-169 | In no reachable system does a payment handler fail of its own accord: gateway and ledger accept everything it asks of them. |
| Safety.OutboxInStep | apps/api/src/store/memory.ts:222-239 | In every state reachable by requests and worker the key index and the outbox are inverse, and each row is what an event of the history implies. |
| Payouts.PayoutIsExactly | apps/api/src/worker/payments.ts:115-144 | Over every run with failures and crashes, in either kind of store: a payout is the payout of the first offer on the job ever accepted and not accepted again too late before the pricing, and without one the provider's share of the approved gross. |
| Payouts.PayoutIsAgreed | apps/api/src/worker/payments.ts:115-144 | On a job that never fell through the payout is what its only provider accepted, except exactly when that provider accepted again too late before the pricing and refusals keep their writes: then it is the share. |
| Payouts.PayoutIsFirstAccepted | apps/api/src/worker/payments.ts:122-124 | On any job, in either kind of store, unless an offer of it was accepted again too late before the pricing: the payout is that of the first offer ever accepted, so it is what the current provider accepted if and only if the two payouts are equal. |
| Witness.SecondProviderPaidAsFirst | apps/api/src/worker/payments.ts:122-124 | A run from the empty store in which the second provider does the work for 200 and is paid the 100 the first one agreed to. |
| Witness.LateAcceptancePaysShare | apps/api/src/store/memory.ts:646-649 | A run from the empty store with one provider and one assignment at 100 in which 259, the share of the gross, is paid, because the provider accepted once more after the deadline. |
| Finality.FinalMessageMovesNothing | apps/api/src/worker/payments.ts:54-176 | Once the message of an approval, completion or cancellation is sent or dead, no continuation moves that kind of money for that job again. |
| Finality.LateHoldStays | apps/api/src/worker/payments.ts:90-95 | A completion or cancellation that was final before the hold reached the ledger leaves the job without capture, payout and void for good. |
| Delivery.DeliveredIffHeld | apps/api/src/worker/payments.ts:54-169 | Whatever failed or crashed before and whatever happens later: a delivered approval has its hold for good; a delivered completion is captured and paid for good if and only if the hold is on the ledger at delivery; a delivered cancellation is released for good if and only if it is. |
| Witness.CompletionCanGoUnheld | apps/api/src/worker/payments.ts:90-95 | Whatever requests complete a job, there is a run in which the completion is delivered with nothing held, which is then never captured. |
| Witness.UnpaidCompletion | apps/api/src/worker/payments.ts:90-95 | Such a run exists: from the empty store to a job whose completion is delivered without a hold. |
| Queue.AttemptsMatchStatus | apps/api/src/store/memory.ts:882-904 | In every run of one worker PENDING means no attempt, FAILED 1 to 4, DEAD exactly 5. |
| Queue.WorkStep | apps/api/src/worker/worker.ts:63-127 | Every settled message uses up at least one of the attempts left on open rows, and nothing the worker does, not even a crash, gives one back. |
| Queue.FixedQueueDrains | apps/api/src/worker/worker.ts:63-127 | Without new requests the worker settles messages at most as often as attempts are left. |
| Claims.ClaimTakesOldest | apps/api/src/store/memory.ts:863-880 | A claim returns the oldest due PENDING or FAILED rows up to the limit, in order of age, never SENT or DEAD ones. |
| Claims.LeaseHolds | apps/api/src/store/memory.ts:872-879 | A claimed row is in no other claim before 60 seconds are over unless a failed delivery rescheduled it, whatever else happens in between. |
| Claims.FinalRowsNeverChange | apps/api/src/store/memory.ts:882-904 | Sent and dead rows are never rewritten, and a dead one is never removed. |
| Outbox.StepRecords | apps/api/src/store/memory.ts:204-240 | To history and outbox every request does nothing but record its events one after the other. |
| Outbox.RetentionKeepsTheRest | apps/api/src/store/memory.ts:954-963 | The removing loop leaves exactly the rows that are not sent long enough ago, in order. |
| Outbox.RetentionRemovesOnlySent | apps/api/src/store/memory.ts:954-963 | A row survives retention if and only if it is not sent before the cutoff; pending, failed and dead rows always do. |
| CalmQueue.ClaimOrderly | apps/api/src/store/memory.ts:863-880 | In a failure-free run a claim takes the front of the undelivered rows and leaves the rest due. |
| TodoOrder.StepAnnounces | apps/api/src/store/memory.ts:222-239 | A request puts exactly its money events on the queue, each once, in the order in which they happened. |
| Settlement.SettledWhenQuiet | apps/api/src/worker/payments.ts:54-176 | When a failure-free run has emptied its queue every message was delivered; a completed job was held, captured and paid once; a cancelled one has its hold released if and only if approval came first; any other is held if and only if approved. |
| Progress.CalmCanFinish | apps/api/src/worker/worker.ts:63-127 | From every state a failure-free run can be in, whatever the worker is in the middle of, steps of the worker alone lead to an empty queue and leave jobs, quotes, offers, assignments and history as they are. |
| Progress.RequestsDecidePayout | apps/api/src/worker/payments.ts:86-144 | Any requests that complete a job can be worked off so that the provider is paid exactly the sum those requests make due. |
| Ledger.NetAddsUp | apps/api/src/lib/payments.ts:79-101 | For every ledger net is captured minus refunded minus paid out. |
| Ledger.WrittenUpTo | apps/api/src/store/memory.ts:1020-1031 | Entries are written in order up to the first of the wrong sign or zero, which is refused. |
| Ledger.BooksWhenQuiet | apps/api/src/lib/payments.ts:79-101 | Then a completed job's summary is gross held and captured and net gross minus payout; a cancelled job's is all zero, except the gross still reserved exactly if it was approved only after the cancellation. |
| Ledger.BooksAsAgreed | apps/api/src/lib/payments.ts:79-101 | Then the net of a completed job is the gross less exactly the sum due; on a job that never fell through, less what its only provider accepted, or less the share exactly after a late acceptance. |
| Witness.LateApprovalStaysReserved | apps/api/src/lib/payments.ts:79-101 | A failure-free run, quiet at its end, with a cancelled job whose gross of 360 is still reserved. |
| Sweep.ExpiryEffect | apps/api/src/store/memory.ts:733-749 | Expiry closes exactly the offers that are due and changes nothing else but the history. |
| Sweep.CoverActs | apps/api/src/lib/dispatch.ts:155-173 | Covering skips a job if and only if it is not quoted, is held, has a live offer or has no approved quote. |
| RankedDispatch.CoverDecides | apps/api/src/lib/dispatch.ts:175-203 | A job not skipped is escalated for its rounds if and only if none are allowed or it has more offers than maxRounds times providersPerRound; otherwise for want of providers if and only if all that pass the gates were asked; and is offered again in every other case. |
| Dispatch.ShareIsRounded | apps/api/src/lib/dispatch.ts:194 | The payout without an earlier offer is the cent nearest to 72 percent, halves upwards. |
| Sweep.RoundIsBounded | apps/api/src/lib/dispatch.ts:175-215 | After an automatic round a job has at most (maxRounds + 1) times providersPerRound offers, all to different providers, and a positive allowance has gone down. |
| Sweep.AutomationStops | apps/api/src/lib/dispatch.ts:155-215 | In any run without a manual fan-out a job is offered again automatically at most as often as its allowance says. |
| Sweep.SweepCovers | apps/api/src/lib/dispatch.ts:134-204 | Every uncovered job still quoted and unassigned ends the sweep with a live offer or a recorded escalation, and no job changes status. |
| Sweep.SweepIsRun | apps/api/src/lib/dispatch.ts:134-145 | A sweep is an expiry step and one covering step per uncovered job of the machine, so what holds of every run holds of sweeps. |
| Sweep.SweepCarriesPayout | apps/api/src/lib/dispatch.ts:193-202 | Every offer a sweep makes is on an uncovered job, pays what was last offered on it and lives for the minutes configured. |
| Sweep.SecondSweepIsIdle | apps/api/src/lib/dispatch.ts:134-145 | A second sweep at the same instant changes nothing and reports nothing. |
| RankedDispatch.RoundAsksBest | apps/api/src/lib/dispatch.ts:180-203 | A round goes, in rank order, to providers that pass every gate and were not asked before; whoever else qualifies ranks after a full round; and the sweep gives up for want of providers only when all that pass were asked. |
| RankedDispatch.SweepAsksRightly | apps/api/src/lib/dispatch.ts:134-204 | Every offer of a sweep goes to a provider that passes every gate of its job and was never asked about it before, and the offers on one job are in rank order. |
| RankedDispatch.FanOutAsksBest | apps/api/src/routes/offers.ts:81-105 | A fan-out asks, in rank order, exactly those of the best maxProviders providers that were not asked before, at the payout and until the deadline asked for, and is refused for want of providers only when none passes the gates. |
| SweepService.DispatchSweep.Run | apps/api/src/lib/dispatch.ts:134-145 | The sweep object ranks the providers itself, computes exactly the modelled sweep, reports how many offers were due and the jobs offered again and escalated, in order, and with new ids keeps the invariant of all runs. |
| SweepService.DispatchSweep.CoverJob | apps/api/src/lib/dispatch.ts:155-204 | Covering one job, branch by branch, against the store, with the providers ranked here; which branch is Sweep.CoverActs and RankedDispatch.CoverDecides. |
| Eligibility.RankingForgetsOrder | apps/api/src/lib/eligibility.ts:210-241 | Listing the providers, or the vehicles and documents inside them, in another order leaves the ranking unchanged. |
| Eligibility.RankingIsOrdered | apps/api/src/lib/eligibility.ts:210-241 | One result per provider; the eligible strictly by distance, class of the smallest suitable vehicle and id with ranks 1 to k; the rest strictly by id without rank. |
| Eligibility.EligibleIffGates | apps/api/src/lib/eligibility.ts:163-203 | A provider is eligible if and only if every gate on status, availability, service type, radius, documents and vehicles holds. |
| Eligibility.EligibleExactly | apps/api/src/lib/eligibility.ts:108-203 | The same from the stored facts alone: active, accepting work, service type, within the radius, a valid document of both required kinds, and an available vehicle large enough. |
| Eligibility.SelectsSmallest | apps/api/src/lib/eligibility.ts:142-161 | The vehicle selected is the smallest of those that can carry the demand; none if and only if none can. |
| Eligibility.DistanceIsUltrametric | apps/api/src/lib/eligibility.ts:87-106 | On five-digit codes the estimate is 0 only between equal codes, symmetric, and never beaten by a detour. |
| Eligibility.FirstDifferenceDecides | apps/api/src/lib/eligibility.ts:87-106 | The first digit that differs decides: 400, 120, 40, 10 or 3 kilometres. |
| Eligibility.EstimateDistanceKm | apps/api/src/lib/eligibility.ts:87-106 | The loop over the digits computes the distance of the shared prefix. |
| Eligibility.DocumentProblems | apps/api/src/lib/eligibility.ts:108-133 | The loop reports, per required document, the first thing wrong with it. |
| Eligibility.EvaluateProviderEligibility | apps/api/src/lib/eligibility.ts:163-203 | The collected reasons are those of the gates that fail, in order. |
| Eligibility.DemandFromItems | apps/api/src/lib/eligibility.ts:244-262 | The loop computes the totals of all items, rounded up. |
| Eligibility.DemandCoversGoods | apps/api/src/lib/eligibility.ts:244-262 | The demand is never below the goods and less than one rounding step above, so a suitable vehicle can carry everything. |
| CanonicalJson.SortsEntriesThenValues | apps/api/src/lib/crypto.ts:17-27 | Sorting values before entries, as the model does, comes to the same as sorting entries before values. |
| CanonicalJson.SortedIffSame | apps/api/src/lib/crypto.ts:13-27 | Two bodies sort to the same value if and only if they are the same JSON up to key order at every depth. |
| CanonicalJson.SortingIsIdempotent | apps/api/src/lib/crypto.ts:17-27 | Sorting a sorted body changes nothing, and sorting never changes what a body says. |
| Idempotency.WorkIsDoneOnce | apps/api/src/plugins/idempotency.ts:41-73 | Within the lifetime of a record work is not done again for an organisation and key; the same request, reordered or not, gets the first response, any other is refused. |
| Idempotency.ReplayIsEarned | apps/api/src/plugins/idempotency.ts:50-56 | A replayed response was produced by an earlier call of the same organisation and key with the same route and body, within the lifetime of its record. |
| Idempotency.RefusalIsEarned | apps/api/src/plugins/idempotency.ts:50-56 | A key is refused only if the same organisation used it with another request within the lifetime of that record. |
| Idempotency.WorkedIfNew | apps/api/src/plugins/idempotency.ts:41-73 | If no such call went before, or its record is too old, the work is done. |
| Idempotency.KeyIsCore | apps/api/src/plugins/idempotency.ts:42-47 | The key is what stands between the outer blanks of the header, cut to 200 characters. |
| Idempotency.NoKeyIffBlank | apps/api/src/plugins/idempotency.ts:44-46 | A request has no key if and only if the header is missing or blank. |
| Idempotency.Runner.Run | apps/api/src/plugins/idempotency.ts:41-73 | The runner does to its records, and answers, exactly what the histories above are made of. |
| Idempotency.Runner.FindRecord | apps/api/src/store/memory.ts:1090-1101 | Looking a record up deletes it if its time is over. |
| Listing.PagesCoverTheList | apps/api/src/store/memory.ts:277-294 | Following nextCursor from the start ends and yields exactly the visible jobs of the status asked for, newest first, without repeats or gaps, every page but the last full. |
| Listing.ListForgetsStorage | apps/api/src/store/memory.ts:283-288 | The list does not depend on the order in which jobs are stored. |
| Store.MemoryStore.RecordEvent | apps/api/src/store/memory.ts:204-240 | Appends to the history, and to outbox and key index exactly if the event is published and its key is new; whose keys are equal is Announcements.SameKeyIff. |
| Store.MemoryStore.CreateJob | apps/api/src/store/memory.ts:250-269 | A new job in DRAFT and its event. |
| Store.MemoryStore.TransitionJob | apps/api/src/store/memory.ts:296-322 | Moves the job along a legal edge and records it, or refuses and changes nothing. |
| Store.MemoryStore.CreateQuote | apps/api/src/store/memory.ts:495-522 | A new quote and its event. |
| Store.MemoryStore.DecideQuote | apps/api/src/store/memory.ts:543-576 | The customer's answer, with the lapsed quote marked before it is refused. |
| Store.MemoryStore.CreateOffers | apps/api/src/store/memory.ts:580-616 | One pending offer for each provider not asked before, and one event. |
| Store.MemoryStore.AcceptOffer | apps/api/src/store/memory.ts:635-708 | The whole acceptance, including the statuses two refusals overwrite first; what it comes to on reachable states is Requests.RequestsDecided. |
| Store.MemoryStore.WithdrawOthers | apps/api/src/store/memory.ts:682-688 | The loop withdraws exactly the other open offers of the job. |
| Store.MemoryStore.DeclineOffer | apps/api/src/store/memory.ts:710-731 | Declines an open offer of the provider, or refuses and changes nothing. |
| Store.MemoryStore.ExpireOffers | apps/api/src/store/memory.ts:733-749 | The loop expires what is due, counts it, and lists the jobs that uncovers, each once. |
| Store.MemoryStore.FallbackAssignment | apps/api/src/store/memory.ts:759-790 | Releases the active assignment and returns the job to QUOTED, or refuses and changes nothing. |
| Store.MemoryStore.RecordJobEvent | apps/api/src/store/memory.ts:851-859 | Records an event on a job that exists. |
| Store.MemoryStore.ClaimOutbox | apps/api/src/store/memory.ts:863-880 | The loop leases exactly the due batch and returns it. |
| Store.MemoryStore.MarkOutboxDelivered | apps/api/src/store/memory.ts:882-888 | The row is sent. |
| Store.MemoryStore.MarkOutboxFailed | apps/api/src/store/memory.ts:890-904 | One more attempt, and failed or dead by whether there is a retry. |
| Store.MemoryStore.RunRetention | apps/api/src/store/memory.ts:954-963 | The loop removes the modelled rows with their keys and counts them. |
| Store.MemoryStore.AppendLedgerEntries | apps/api/src/store/memory.ts:1009-1051 | Entries are written up to the first unlawful one, which is refused. |
| Routes.Handlers.CreateJob | apps/api/src/routes/jobs.ts:35-52 | The creation request is the machine's step; like every handler below it keeps the invariant of all runs and undoes nothing recorded. |
| Routes.Handlers.ApproveTriage | apps/api/src/routes/jobs.ts:133-157 | The triage request is the machine's step. |
| Routes.Handlers.StartWork | apps/api/src/routes/jobs.ts:160-180 | The start request, with its check that the provider holds the job now, is the machine's step. |
| Routes.Handlers.CompleteJob | apps/api/src/routes/jobs.ts:182-205 | The completion request, with its holder and evidence checks, is the machine's step that Requests.RequestsDecided decides. |
| Histories.CompletedWithEvidence | apps/api/src/routes/jobs.ts:191-205 | In every reachable state each completion in the history was recorded with at least one proof. |
| Requests.NoEvidenceNoCompletion | apps/api/src/routes/jobs.ts:191-195 | Completing without evidence is refused, whoever asks, and changes nothing. |
| Routes.Handlers.CancelJob | apps/api/src/routes/jobs.ts:208-222 | The cancellation request is the machine's step. |
| Routes.Handlers.PriceJob | apps/api/src/routes/quotes.ts:41-94 | A breakdown that does not come to the net is refused once the job is found to be triaged; otherwise status check, quote with its VAT and move together are the machine's step. |
| Routes.VatIsRounded | packages/contracts/src/money.ts:16-24 | The tax is the nearest whole cent, halves upwards, and never negative. |
| Routes.Handlers.AnswerQuote | apps/api/src/routes/quotes.ts:107-130 | The customer's decision is the machine's step. |
| Routes.Handlers.FanOut | apps/api/src/routes/offers.ts:56-110 | Status and price checks, the ranking made here and the fan-out to the first maxProviders eligible together are the fan-out that FanOutAsksBest is about. |
| Routes.Handlers.Respond | apps/api/src/routes/offers.ts:137-169 | Accepting and declining are the machine's steps. |
| Routes.Handlers.FallThrough | apps/api/src/routes/offers.ts:175-190 | The fallback request, with its holder check, is the machine's step. |
| Gateway.MockPaymentGateway.Authorise | apps/api/src/lib/payments.ts:129-138 | Idempotent on its key: the first amount under a reference stays. |
| Gateway.MockPaymentGateway.Capture | apps/api/src/lib/payments.ts:140-154 | Succeeds if and only if the amount is positive and held under the reference. |
| Gateway.PaymentHandlers.Authorise | apps/api/src/worker/payments.ts:54-84 | Run to its end the handler takes exactly the machine's micro-steps. |
| Gateway.PaymentHandlers.CaptureAndPay | apps/api/src/worker/payments.ts:86-113 | The same for capturing, up to the payout. |
| Gateway.PaymentHandlers.Pay | apps/api/src/worker/payments.ts:115-144 | The same for the payout. |
| Gateway.PaymentHandlers.Release | apps/api/src/worker/payments.ts:146-169 | The same for releasing. |
| OutboxWorkers.ComposeHandlers | apps/api/src/worker/worker.ts:174-188 | Each topic gets its handlers of all registries in registry order. |
| OutboxWorkers.OutboxWorker.Deliver | apps/api/src/worker/worker.ts:81-92 | The handlers of a message run in order until one throws. |
| OutboxWorkers.OutboxWorker.Drain | apps/api/src/worker/worker.ts:63-127 | A pass is a run of the machine's micro-steps that settles every claimed message, claimed is delivered plus failed plus dead plus skipped, and on a reachable system the attempts left on open rows go down by at least the number claimed and the invariants of system and queue are kept. |

## Left out

- `apps/api/src/store/prisma.ts`: only its policy is modelled, that a thrown refusal rolls back (`RollsBack`).
- Audit records, `updatedAt`, `respondedAt`, `approvedAt`, `lastError`, decline reasons and notes: written, never read by the protocol.
- Evidence: the completion step takes the number of uploaded items as a parameter; storing and retaining evidence is not modelled.
- Triage details on the job (`approvedVehicleClass`, workers, route) and the AI triage suggestion.
- VAT in the job machine: a quote's gross is any amount from its net up, both positive; the request handler computes it.
- Payloads that no dedupe key reads: `JOB_CREATED` carries no type, an escalation only its reason.
- Notification texts and recipients: a notification is a handler that may throw.
- Concurrent handlers on one message after its lease lapsed, and overlapping requests under one idempotency key: the code gives no guarantee there.
- Refunds and payout reversals: the summary counts them, nothing in the modelled code writes them.
- SHA-256 and HMAC: taken as injective, also where a digest is truncated; serialising the sorted JSON value is part of that digest.
- Floating point: distances, volumes, weights and JSON numbers are exact reals, and rounding is exact.
- Strings are compared by character; the original compares UTF-16 code units, which agrees on the identifiers in use.
- The maps provider: a road distance is an optional input of ranking.
- Authentication, roles, rate limits, schema validation, metrics, logging, the web application and the polling timer.
- Routes.Handlers: wrapping in the idempotency runner is modelled separately in `Idempotency`, not around each handler.
- Store.MemoryStore: records found by id are updated at their place in an insertion-ordered sequence, so aliasing of record objects handed out by the original is not modelled.
