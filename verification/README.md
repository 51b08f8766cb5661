# A model of the payment processing protocol

The service takes payment requests over an API, charges them through an unreliable gateway from a
job queue, listens to callbacks from the provider, and repairs payments whose worker died. Two MySQL
tables and one BullMQ queue hold all shared state. Five pieces of code write to them in short
transactions that may interleave in any order, and no lock is held while the gateway is asked. The
promises of the service (one payment per key, no double charge, no corrupted outcome, nothing lost)
therefore belong to no single function. This project states them over every interleaving and proves
them. Where the code does not keep a promise, it gives the schedule that breaks it and the exact
condition under which the promise holds.

## How the model is built

* `StateMachine`, `Rows`, `RowHistory`: the transition table, one row of `payments`, the writes a
  transaction can ask of a row (`Rows.Advance`), and laws of one row under every finite history of
  writes, whoever issues them.
* `Tables`, `Storage`, `Queue`, `Services`, `Reconciler`: the code in its own imperative form. A
  class `Database` has the two tables as fields, a class `PaymentQueue` the jobs by job id, and the
  methods of the repositories and services update them in place. Every service method is proved to do
  to the tables exactly what the functions of `Rows` and `Tables` say, and to give the reply they say;
  its contract also spells both out column by column, without naming those functions.
* `Protocol`: the whole system as a labelled transition system over the same functions. One label is
  one committed transaction, queue operation, gateway call or answer, crash, or passing of time. A run
  is any sequence of labels; a label that is not enabled changes nothing. Any number of API requests,
  process() calls, sweeps and callbacks can be under way at once.
* `SystemRows`, `InFlight`, `JobLock`, `Exclusivity`, `NoLoss`, `Ledger`, `Initiation`, `Billing`: the
  guarantees, over all runs.
* `Regimes`: eleven assumptions that a run may or may not keep to, about time, the queue, the provider,
  and where a process may die. A regime is any choice of them.
* `Overlap`, `Confirmed`, `Provider`, `Recorded`, `Loss`, `Progress`: for every regime, the exact
  condition under which no payment has two live charges, none has two charges confirmed or made, every
  confirmed charge is recorded, and none is left behind. `Witness`, `Sharpness` and `Stranded` hold the
  schedules that break each promise and the lemmas about them.
* `SoloRuns`, `SweepRun`: one request, one process() call or one sweep, with nothing in between, takes
  the protocol exactly where the imperative method takes the tables and the queue.
* `Backoff`: the retry delays.

## The exact conditions

Each holds for every regime: all runs that keep to it are safe exactly when the condition holds, and
otherwise there is a run that keeps to all of it and is not. Calls and sweeps are in time if live calls
end within STALE_PROCESSING_MS of their claim and, with three attempts or more, sweeps do not overlap.
The queue is serial if process() is called from the queue only and a job is declared stalled only when
its holder is dead.

* No two live charges for one payment (`Overlap.ExclusiveExactly`): the queue is serial; or
  MAX_PAYMENT_ATTEMPTS is 1; or calls and sweeps are in time.
* At most one confirmed charge per payment (`Confirmed.ChargedOnceExactly`): MAX_PAYMENT_ATTEMPTS is 1;
  or calls and sweeps are in time and no call dies or breaks between hearing of its charge and its
  settle. A serial queue does not help here.
* At most one charge made by the provider, heard or not (`Provider.ProviderChargesOnceExactly`): the
  same, and also no call dies, breaks or is refused (a timeout is a refusal) after the provider has
  charged on it.
* No payment FAILED whose charge was confirmed, unless a callback said so
  (`Recorded.ChargesAreRecordedExactly`): live calls end within STALE_PROCESSING_MS, no call dies or
  breaks between hearing of its charge and its settle, the queue is serial, and, with two attempts or
  more, sweeps do not overlap and a `failed` event that is due is handled before another call claims
  its payment.
* No payment left behind (`Loss.NoPaymentIsStrandedExactly`): no request is cut off between its insert
  and its enqueue, and `failed` events are handled; and, with two attempts or more, also the queue is
  serial, no sweep is cut off between a release and its enqueue, and no live call that has claimed or
  bailed out holds the job a sweep tries to remove. No assumption on time replaces any of these. Under
  the same condition, and no other, every PENDING payment of every reachable state can still be claimed
  or settled without a callback or a direct call (`Progress.EveryPaymentCanMoveExactly`).

## Where the code and its documentation part

* README.md:142-146 says the gateway is called exactly once. Retries aside, that is so while no
  recovery releases the payment (`InFlight.NoReleaseNoDoubleCharge`, `Confirmed.ChargedAtMostOnce`),
  and otherwise under the conditions above. A live job may be declared stalled: BullMQ does so when its
  lock is not renewed in time, and the schedules with two live charges need that or a direct call.
  Overlapping sweeps matter because recovery checks the row's status again under the lock, but not its
  age. A crash after the charge can get the payment charged again, however punctual everything else
  (`Confirmed.CrashAfterChargeChargesAgain`), and so can a timeout behind which the provider has
  charged (`Provider.TimedOutChargesAgain`).
* README.md:153-158 says that worker and callbacks converge. Without any callback a confirmed charge
  can still end FAILED: an old job's `failed` event, handled late, fails the row under the call that a
  sweep has made room for (`Recorded.LateFailureUnrecorded`), and a second sweep can find the attempts
  used up while the last of them is being charged (`Recorded.OverlapUnrecorded`).
* README.md:160-163 says a payment stuck in processing gets a fresh attempt. From any state in which a
  sweep has released a payment, handing it back gives it a job through which it can be claimed exactly
  when the old job is not held by a live call that has claimed or bailed out, nor by one that is
  throwing on the job's last attempt (`Stranded.HandedBackExactly`; `Progress.RunnableMoves` is that
  the job can). In the first case the remove fails, the enqueue is deduplicated away, the call's own
  answer is dropped whatever it is, and, left alone, the payment stays PENDING unless a callback
  settles it (`Stranded.SlowCallStrands`). That call may be a slow one, or one that found the row
  PROCESSING and is just bailing out, so that keeping every call short is not enough
  (`Loss.SlowCallRemains`). In the second case the payment can fail with attempts left
  (`Progress.DyingJobDeniesAttempt`).
* A request cut off between its insert and its enqueue leaves a PENDING payment that nothing pulls:
  the repeated request only fetches it, and sweeps look at PROCESSING rows only
  (`Stranded.CutOffRequestStrands`). The same happens to a sweep cut off before its enqueue and to a
  worker that dies before its `failed` handler.
* A repeated callback is ignored, except that one for a payment that does not exist yet leaves no
  trace, so that its repeat counts (`Ledger.RepeatsAreInvisibleExactly`).

## What is taken for granted

* A transaction that locks its row is atomic; unique indexes and the foreign key reject what they
  should; rows of `payments` are never deleted, as no code deletes them.
* Adding a job whose id exists in any state is a no-op. Removing an active job fails, any other
  succeeds. A call that ends in an error costs its job an attempt and delays it while attempts remain;
  after the last attempt the job is kept as dead and a `failed` event is raised. A completed job
  vanishes. A stalled job goes back to waiting.
* One clock serves all processes.
* MAX_PAYMENT_ATTEMPTS is positive.
* A callback reports SUCCESS or FAILED, which src/webhook/schema.js:16-25 enforces.
* What the gateway decides is an input: a charge with a reference, a retriable error, or a decline. It
  confirms no charge that it has not made; behind an error it may or may not have charged.

The texts stored in last_error are kept as values of `Rows.Message`; `Text` gives the string.

## Model

| member | source | states |
|---|---|---|
| StateMachine.TerminalHasNoExit | src/shared/lib/stateMachine.js:17-39 | a status is terminal exactly when no legal move leaves it, and those are SUCCESS and FAILED |
| StateMachine.LegalMoves | src/shared/lib/stateMachine.js:17-32 | the six legal moves, and no other |
| StateMachine.PathsEndAtTerminal | src/shared/lib/stateMachine.js:17-32 | only the last status of a legal path can be terminal |
| Storage.Database.constructor | migrations/20260529042852_create_payments_table.js:3-15 | the tables start empty, with the unique indexes holding |
| Storage.Database.Create | src/shared/repositories/lib/payment.js:16-26 | fails exactly when the key is taken, and then changes no row; otherwise adds one PENDING row with no attempts under an id not in use, and hands that row back |
| Storage.Database.FindById | src/shared/repositories/lib/payment.js:28-30 | the row under the id, or nothing |
| Storage.Database.FindByIdempotencyKey | src/shared/repositories/lib/payment.js:32-34 | finds a row with that key whenever there is one |
| Storage.Database.UpdateStatus | src/shared/repositories/lib/payment.js:43-49 | a raw write: sets the status and the columns it is given, leaves the other columns and rows alone, asks no state machine |
| Storage.Database.IncrementAttempts | src/shared/repositories/lib/payment.js:51-53 | one more attempt on that row and nothing else |
| Storage.Database.FindStale | src/shared/repositories/lib/payment.js:56-61 | selects every PROCESSING row stamped before the cutoff, once, and no other |
| Storage.Database.InsertUnique | src/shared/repositories/lib/webhookEvent.js:17-30 | reports a duplicate exactly when the event id is on file, and then writes nothing; otherwise appends one row |
| Storage.Database.MarkProcessed | src/shared/repositories/lib/webhookEvent.js:37-43 | changes the handling of that event and of no other |
| Services.PaymentService.Claim | src/shared/services/lib/payment.js:110-129 | takes a PENDING row: PROCESSING, stamped, one more attempt; the reply carries that row's amount, currency and budget and its new attempts, or says that there is no row, or which status it has |
| Services.PaymentService.Settle | src/shared/services/lib/payment.js:132-167 | success exactly when a PROCESSING row became SUCCESS with the answer's reference, retry exactly when it became PENDING with the answer's reason, failure exactly when it became FAILED with the text that its budget and the answer call for; else a no-op that names the status found |
| Services.PaymentService.Process | src/shared/services/lib/payment.js:24-57 | bails out without a write unless the row is PENDING; else the row and the outcome, column by column, for a charge, a retriable error with and without attempts left, a decline, and an error that is not a GatewayError |
| Services.PaymentService.FailPayment | src/shared/services/lib/payment.js:62-72 | fails a PENDING or PROCESSING row with the given error; any other is reported and left as it is |
| Services.PaymentService.RecoverStalePayment | src/shared/services/lib/payment.js:79-107 | a PROCESSING row is released while attempts remain and failed otherwise, its stamp cleared and the matching text stored; any other is skipped |
| Services.PaymentService.OnJobFailed | queue/paymentProcessor.js:32-50 | fails the payment, with the text made of the error, exactly when the job has no attempts left and the row is not settled |
| Services.InitiatePayment | src/payment/services.js:11-32 | created is true exactly when no row has the key; then one new row and, under its id, a job for it; otherwise the existing payment and no change to tables or queue |
| Services.HandleWebhook | src/webhook/services.js:21-68 | when each of the five outcomes is given; an applied callback writes its status and its reference if it gave a non-empty one, or the failure text; every handled one leaves one event row |
| Queue.ParseInvertsDecimal | queue/retryQueue.js:10 | the decimal id inside a job id can be read back |
| Queue.JobIdsAreInjective | queue/retryQueue.js:10 | different payments have different job ids |
| Queue.AddAndRemoveMirror | queue/retryQueue.js:29-41 | adding and removing by job id touches the job of that payment only, so the queue can be seen as one slot per payment |
| Queue.PaymentQueue.EnqueuePayment | queue/retryQueue.js:29-41 | adds a waiting job for this payment, with the configured attempts, under its job id, unless there is a job already; every job stays under the id of the payment it is for |
| Queue.PaymentQueue.Remove | queue/reconciler.js:30 | removes the job unless it is active |
| Protocol.JobsAreForTheirPayments | queue/retryQueue.js:29-41 | in every run each job is for the payment it is kept under, so that the call it starts works on that payment |
| Reconciler.RecoverOne | queue/reconciler.js:23-35 | recovers one row and, if that released it, leaves a fresh job for it under its job id unless the old job is active |
| Reconciler.RecoverEach | queue/reconciler.js:23-35 | the loop over any list of distinct rows, whatever has become of them since: each is recovered once and exactly the released ones are handed back |
| Reconciler.ReconcileStale | queue/reconciler.js:20-38 | an undisturbed sweep selects exactly the stale rows, leaves rows and jobs as `Swept` says, and reports their number |
| Reconciler.SweepClearsAndIsIdempotent | queue/reconciler.js:20-38 | after a sweep no row is stale at its cutoff, and the same sweep again changes neither a row nor a job |
| Reconciler.SweepDecidesByBudget | src/shared/services/lib/payment.js:85-105 | a stale row becomes PENDING exactly when attempts remain and FAILED exactly when none do, its stamp cleared, an error stored and no other column touched; other rows are untouched; the rows handed back are those that went from PROCESSING to PENDING |
| Reconciler.SettledRowsAreSkipped | src/shared/services/lib/payment.js:85-87 | a listed row that is no longer PROCESSING keeps all its columns and its job |
| Reconciler.StuckRowsBecomeStale | src/shared/repositories/lib/payment.js:56-61 | every PROCESSING row is stamped, and is seen by the sweep exactly once its claim is older than the threshold |
| SweepRun.UndisturbedSweep | queue/reconciler.js:20-38 | a whole sweep as labels, in any order of its rows, leaves tables and jobs as `Swept` says and changes nothing else |
| SweepRun.UndisturbedLoop | queue/reconciler.js:23-35 | the same for the rest of a sweep from any state, with rows that may have been settled or released since their selection |
| SweepRun.SweepsMirror | queue/reconciler.js:23-35 | a sweep by method on the queue kept by job id and a sweep by labels on one slot per payment end in the same table and in queues that mirror each other |
| SoloRuns.UndisturbedCall | src/shared/services/lib/payment.js:24-57 | the labels of one call, with any answer the provider may give or any other error, leave the tables as `Process` does, and the call throws exactly when `Process` does |
| SoloRuns.UndisturbedFailure | queue/paymentProcessor.js:32-50 | the labels of a throwing call and its failed handler cost the job one attempt and, on the last one, fail the payment with the text made of the error, and else leave the tables alone |
| SoloRuns.UndisturbedCreation | src/payment/services.js:12-24 | insert, read-back and enqueue as labels give one new row, its job, and created = true, as `InitiatePayment` does |
| SoloRuns.CreationMirrors | queue/retryQueue.js:29-41 | such a request keeps the queue kept by job id and the queue of the protocol in step |
| SoloRuns.UndisturbedRepeat | src/payment/services.js:25-29 | a request whose key is taken changes neither tables nor queue and answers with the existing row |
| RowHistory.AdvanceKeepsSound | src/shared/services/lib/payment.js:62-167 | every write keeps the row invariant: budget, stamp, error and reference columns against status |
| RowHistory.RowsAreSound | src/shared/services/lib/payment.js:62-167 | every history builds sound rows; PENDING always has an attempt left, though no claim checks the budget |
| RowHistory.AttemptsCountClaims | src/shared/services/lib/payment.js:110-129 | attempts is the number of effective claims and never exceeds max_attempts |
| RowHistory.EveryWriteIsAnEdge | src/shared/services/lib/payment.js:89-165 | every status write is a legal edge, also the raw ones that never ask canTransition |
| RowHistory.HistoryIsAPath | src/shared/lib/stateMachine.js:17-32 | the status history of any row is a path in the table from PENDING |
| RowHistory.MeasureDrops | src/shared/services/lib/payment.js:62-167 | a measure of the row drops at every status change and at nothing else |
| RowHistory.FewStatusChanges | src/shared/services/lib/payment.js:62-167 | a row changes status at most twice max_attempts times |
| RowHistory.TerminalFreeze | src/shared/lib/stateMachine.js:8-22 | once settled, no later history changes any column |
| RowHistory.IdentityIsKept | src/shared/repositories/lib/payment.js:16-26 | key, amount, currency and budget are never written again; attempts never drop |
| RowHistory.FirstTerminalWriterDecides | src/webhook/services.js:58-66 | a callback that settles the row alone fixes status, reference and error, whatever came before and comes after |
| Protocol.StepIsAWrite | src/shared/repositories/lib/payment.js:38-53 | every label does to each row exactly one write of the row machine |
| Protocol.RowsFollowTheirWrites | src/shared/repositories/lib/payment.js:38-53 | in every interleaving each row is where its own history of writes leaves it |
| SystemRows.ReachableRowsSound | src/shared/services/lib/payment.js:62-167 | the row invariant in every reachable state |
| SystemRows.EveryRunFollowsTheStateMachine | src/shared/lib/stateMachine.js:17-32 | in every run a payment's statuses are a legal path from PENDING to its present status |
| SystemRows.EveryRunSettlesDown | src/shared/services/lib/payment.js:62-167 | no run changes a payment's status more than twice max_attempts times |
| SystemRows.EveryRunKeepsTheBudget | README.md:148-151 | attempts equals the claims of the run and is bounded by MAX_PAYMENT_ATTEMPTS |
| SystemRows.SettledRowsAreFrozen | README.md:153-158 | after SUCCESS or FAILED no run changes the row |
| SystemRows.RowsKeepTheirIdentity | src/shared/repositories/lib/payment.js:16-26 | in every run rows stay, with their key, amount, currency and budget |
| SystemRows.AppliedWebhookDecides | src/webhook/services.js:44-66 | an applied callback decides the payment's outcome for every run around it |
| InFlight.InFlightMoves | src/shared/services/lib/payment.js:24-46 | only an effective claim puts a call in flight, and a settle takes its own call out |
| InFlight.OutstandingCallsAreBounded | src/shared/services/lib/payment.js:79-167 | calls outstanding are at most one more than the releases by recovery, and at most that number while PENDING |
| InFlight.NoReleaseNoDoubleCharge | src/shared/services/lib/payment.js:12-46 | without a release, any number of parallel process() calls has at most one gateway call outstanding |
| InFlight.CallsAreClaimed | src/shared/services/lib/payment.js:24-40 | gateway calls, and claims yet to call, are covered by claims |
| InFlight.GatewayCallsStayInBudget | README.md:148-151 | the gateway is called at most as often as attempts says, hence at most MAX_PAYMENT_ATTEMPTS times |
| InFlight.AnswersAreDroppedForCause | src/shared/services/lib/payment.js:132-139 | without a release, a call about to settle finds its row PROCESSING, or settled by a callback, failPayment or an exhausted recovery; never PENDING |
| InFlight.SuccessfulChargesStick | src/shared/services/lib/payment.js:141-150 | without a release and with no other settling writer, a successful charge is stored with its reference and stays; runs with releases are the subject of module Recorded |
| Confirmed.ChargedAtMostOnce | src/shared/services/lib/payment.js:12-22 | without a release, at most one charge per payment is confirmed to a call, over all retries and whatever the regime |
| Confirmed.ChargedOnceInTime | src/shared/services/lib/payment.js:74-106 | with calls and sweeps in time and no confirmed answer lost before its settle, at most one charge per payment is confirmed to a call, for every budget, releases by recovery and crashes of other calls included |
| Confirmed.CrashAfterChargeChargesAgain | src/shared/services/lib/payment.js:36-46 | under any regime that lets a call die there: a crash between charge and settle ends in a second confirmed charge |
| Confirmed.LateCallChargesAgain | src/shared/services/lib/payment.js:132-139 | under any regime that lets a call outlast STALE_PROCESSING_MS: its confirmed answer is dropped and the payment is charged again |
| Confirmed.OverlapChargesAgain | queue/reconciler.js:20-35 | under any regime that lets sweeps overlap, with three attempts: the second sweep releases a live claim, and the payment is charged again |
| Confirmed.ChargedOnceExactly | src/shared/services/lib/payment.js:74-106 | for every regime: at most one charge per payment confirmed to a call in every run if and only if MAX_PAYMENT_ATTEMPTS is 1, or calls and sweeps are in time and no confirmed answer is lost before its settle |
| Provider.ConfirmationsAreCharges | src/shared/services/lib/gateway.js:52-65 | every confirmation that a call hears is of a charge of its own |
| Provider.ChargesStayInBudget | src/shared/services/lib/payment.js:24-40 | the provider never charges a payment more often than MAX_PAYMENT_ATTEMPTS |
| Provider.ProviderChargesOnceInTime | src/shared/services/lib/payment.js:36-46 | with calls and sweeps in time and every charge made heard and settled, the provider charges a payment at most once, over all retries and recoveries |
| Provider.TimedOutChargesAgain | src/shared/services/lib/gateway.js:42-62 | under any regime that lets a charged call be refused: the timeout is retried and the provider charges again |
| Provider.ProviderChargesOnceExactly | src/shared/services/lib/payment.js:36-46 | for every regime: the provider charges each payment at most once in every run, heard or not, if and only if MAX_PAYMENT_ATTEMPTS is 1, or calls and sweeps are in time and no charged call dies, breaks or is refused before its settle |
| Recorded.CallsAreUnthreatened | src/shared/services/lib/payment.js:62-72 | in a regime that keeps the record no write fails the row of a call in flight, and no failure event for its payment is due |
| Recorded.ConfirmedChargesAreRecorded | src/shared/services/lib/payment.js:141-150 | in such a regime a payment with a confirmed charge is SUCCESS, or PROCESSING with that call there to settle it, in every reachable state unless a callback said FAILED |
| Recorded.LateFailureUnrecorded | queue/paymentProcessor.js:43-49 | under any regime that lets a failed event wait while its payment is claimed again: the event fails the row under the new, confirmed charge |
| Recorded.OverlapUnrecorded | src/shared/services/lib/payment.js:89-97 | under any regime that lets sweeps overlap, with two attempts or more: a confirmed charge ends FAILED |
| Recorded.LostAnswerUnrecorded | src/shared/services/lib/payment.js:36-46 | under any regime that lets a call die on a confirmed answer, for every budget: the charge ends FAILED |
| Recorded.LateAnswerUnrecorded | src/shared/services/lib/payment.js:89-97 | under any regime that lets a call outlast STALE_PROCESSING_MS, for every budget: a confirmed charge ends FAILED |
| Recorded.DirectCallUnrecorded | queue/paymentProcessor.js:32-50 | under any regime that allows direct calls, for every budget: a dying job fails the row under a confirmed charge |
| Recorded.LiveStallUnrecorded | queue/paymentProcessor.js:32-50 | under any regime that lets a live job be declared stalled, for every budget: the same |
| Recorded.ChargesAreRecordedExactly | src/shared/services/lib/payment.js:62-167 | for every regime: no run leaves a payment FAILED with a confirmed charge and no FAILED callback processed, if and only if calls are in time, no confirmed answer is lost, the queue is serial and, with two attempts or more, sweeps do not overlap and due failures are handled before the next claim |
| Exclusivity.StepKeepsTidy | src/shared/services/lib/payment.js:79-129 | the invariant behind timed exclusivity: a live call owns its row's stamp and is in time, and a row on a sweep list is abandoned |
| Exclusivity.TimedExclusivity | src/shared/services/lib/payment.js:74-129 | if live calls settle or die within a bound no longer than STALE_PROCESSING_MS and sweeps do not overlap, no run has two live calls on one payment |
| Exclusivity.SerialExclusivity | queue/paymentProcessor.js:12-15 | with process() called from the queue only and jobs taken only from dead calls, no run has two live charges of one payment, without any assumption on time |
| Exclusivity.BudgetOfOneIsExclusive | src/shared/services/lib/payment.js:89-97 | with one attempt recovery never releases, so exclusivity needs no timing |
| Sharpness.LateCallIsChargedTwice | queue/reconciler.js:20-38 | under any regime with a longer bound that allows direct calls, or lets the job of a live call be declared stalled, there is a run with one sweep and two live calls on one payment |
| Overlap.TwoAttemptsStayOrderly | src/shared/services/lib/payment.js:79-129 | with at most two attempts and calls within STALE_PROCESSING_MS, exclusivity survives overlapping sweeps: a row on a sweep list in its first claim has nobody charging it |
| Overlap.OverlapIsChargedTwice | queue/reconciler.js:20-35 | under any regime that allows overlapping sweeps and direct calls or stalls of live jobs, with three attempts: two sweeps release one payment and two punctual calls charge it at once |
| Overlap.ExclusiveExactly | src/shared/services/lib/payment.js:74-129 | for every regime: no two live charges of one payment in any run if and only if the queue serialises calls, or MAX_PAYMENT_ATTEMPTS is 1, or calls are within STALE_PROCESSING_MS and sweeps do not overlap or attempts are at most two |
| JobLock.QueueSerialisesCalls | queue/retryQueue.js:25-41 | with work coming from the queue only and jobs stalling only when their holder is dead, a payment never has two live calls, whatever sweeps and delays do |
| JobLock.StepKeepsInBudget | queue/paymentProcessor.js:32-50 | every step keeps the job's failed attempts, and the one its holder is spending, within the row's attempts |
| JobLock.RetryBudgetsAgree | queue/paymentProcessor.js:32-50 | with gateway errors only, a job never counts more failed attempts than its row, also after recovery gave the row a fresh job |
| JobLock.RetriesAreRescheduled | src/shared/services/lib/payment.js:48-53 | a thrown retry never lands on the job's last attempt: the job is always delayed |
| JobLock.FailPaymentNeverFires | queue/paymentProcessor.js:40-49 | with gateway errors only, no job dies, so the defensive failPayment has nothing to do |
| NoLoss.CarriedStays | queue/reconciler.js:23-32 | a PENDING payment with something to pull it keeps one through every careful step |
| NoLoss.ReleasedIsCarried | src/shared/services/lib/payment.js:46-53 | whatever makes a payment PENDING leaves something that will pull it |
| NoLoss.NoPaymentIsLost | README.md:160-163 | in every run of a careful regime each PENDING payment has a job that can claim it or is dying of its last attempt, a request or sweep about to queue it, or a failure event that will settle it |
| Progress.RunnableMoves | queue/paymentProcessor.js:12-15 | under any regime, a PENDING payment with a runnable job has a permitted continuation without a callback or a direct call in which it is claimed |
| Progress.EveryPaymentCanMove | README.md:160-163 | in a lossless regime every PENDING payment of every reachable state has such a continuation that claims or settles it, whatever carries it |
| Progress.EveryPaymentCanMoveExactly | README.md:160-163 | for every regime: every PENDING payment of every reachable state can still be claimed or settled without help if and only if the regime is lossless |
| Progress.DyingJobRemains | queue/reconciler.js:26-32 | every regime has a run in which a sweep releases a payment whose job is dying under a throwing call |
| Progress.DyingJobDeniesAttempt | queue/paymentProcessor.js:40-49 | every regime has a run in which a released payment fails with attempts left |
| Stranded.StrandedForever | src/payment/services.js:24-30 | a payment with nothing left to pull it stays PENDING through every run without a callback or a manual call |
| Stranded.StrandedIsNotCarried | src/shared/repositories/lib/payment.js:56-61 | a stranded payment is one that NoPaymentIsLost excludes |
| Stranded.CutOffRequestStrands | src/payment/services.js:13-22 | after any careful run in which a request owes its enqueue, cutting it off strands its payment |
| Stranded.CutOffSweepStrands | queue/reconciler.js:26-32 | after any careful run in which only a sweep stands for a payment, cutting it off strands the payment |
| Stranded.LostFailureStrands | queue/paymentProcessor.js:43-49 | after any careful run in which only a failed event stands for a payment, losing it strands the payment |
| Stranded.SlowCallStrands | queue/reconciler.js:26-32 | after any careful run, for any payment and any live call past its claim whose row a sweep has released: whatever the answer and whatever else goes on, the payment stays PENDING, and is stranded once the call is over |
| Stranded.HandedBackExactly | queue/reconciler.js:26-32 | from any state: after remove and enqueue the released payment has a job through which it can be claimed if and only if the old one is not held by a live call that has claimed or bailed out, nor by one throwing on its last attempt |
| Stranded.DoomedForever | src/shared/services/lib/payment.js:132-139 | a payment released under such a call stays PENDING through every run that leaves the call alone, and once the call is over nothing refers to the payment |
| Stranded.BailOutStrands | src/shared/services/lib/payment.js:46-53 | from any state in which a call charges without holding the job: the call for the job bails out and completes it, the other times out, and the payment is stranded |
| Loss.RequestOwesEnqueue | src/payment/services.js:13-22 | every regime has a run in which a request has committed its row and owes its enqueue |
| Loss.OnlySweepRemains | queue/reconciler.js:26-32 | every regime has a run in which only a sweep about to enqueue stands for a payment |
| Loss.OnlyFailureRemains | queue/paymentProcessor.js:32-50 | every regime has a run, one failure per job attempt, in which only a failed event stands for a payment |
| Loss.SlowCallRemains | queue/reconciler.js:26-32 | every regime, however punctual, has a run in which a live call past its claim holds the job of a released payment |
| Loss.ConfirmedChargeIsLost | queue/reconciler.js:26-32 | a run in which the provider confirms a charge and the payment is left PENDING with nothing to pull it |
| Loss.DirectCallLoses | src/shared/services/lib/payment.js:24-29 | a direct call of process() beside the waiting job is enough to strand a payment |
| Loss.LiveStallLoses | queue/paymentProcessor.js:12-32 | a job declared stalled under a live call is enough to strand a payment |
| Loss.OneAttemptStaysUnclaimed | src/shared/services/lib/payment.js:85-97 | with one attempt a PENDING payment has never been claimed, and keeps its job, its request or its failure event whatever the queue and the sweeps do |
| Loss.NoPaymentIsStrandedExactly | README.md:160-163 | for every regime: no run strands a payment if and only if requests are not cut off and failures are handled and, with two attempts or more, calls come from the queue, only dead calls lose their job, sweeps are not cut off, and no live call past its claim blocks a sweep |
| Ledger.DeliverKeepsBalanced | src/webhook/services.js:21-68 | a callback keeps the ledger invariant |
| Ledger.DeliveryIsHonoured | src/webhook/services.js:58-66 | an applied callback leaves its payment with the status it reported, and with its reference exactly if it gave a non-empty one |
| Ledger.LedgerIsBalanced | src/webhook/services.js:35-66 | in every reachable state: one row per event id, none left received, at most one processed event per payment, and the payment has the status that event reported, its reference if it gave a non-empty one and else none, or the failure text |
| Ledger.ProcessedEventsHoldForever | src/webhook/services.js:58-66 | event rows are never rewritten, and the payment carries all that a processed event reported for good |
| Ledger.DeliveredIsSeen | src/shared/repositories/lib/webhookEvent.js:17-30 | a delivered callback for a known payment is on file |
| Ledger.RedeliveryHasNoEffect | README.md:153-158 | any list of callbacks, for known payments or not, leaves both tables as the list without later identical copies does |
| Ledger.OneDeliveryPerEvent | src/shared/repositories/lib/webhookEvent.js:14-30 | any list of callbacks leaves both tables as its first delivery per event id for a known payment does, whatever later ones under that id say |
| Ledger.EachEventCountsOnce | src/shared/repositories/lib/webhookEvent.js:14-30 | that is exactly one delivery for each event id delivered for a known payment |
| Ledger.LaterDeliveriesAreInvisible | src/webhook/services.js:34-40 | the same with everything else interleaved: a later delivery under the event id, with any body and for any payment, can be struck from a run without changing where it ends |
| Ledger.RepeatsAreInvisibleExactly | src/webhook/services.js:28-40 | later deliveries under an event id never matter if and only if the payment exists, or the event is on file, at the first delivery |
| Ledger.SuccessHasAProvenance | src/shared/services/lib/payment.js:141-149 | SUCCESS comes from a charge the gateway confirmed for that payment, or from a processed SUCCESS event, and the row carries the reference of that charge or event |
| Initiation.InitiationIsIdempotent | src/payment/services.js:11-32 | in every interleaving: keys unique, every response true to its row, at most one creator per row, and exactly one if no request was cut off |
| Initiation.SameKeySamePayment | README.md:137-140 | all responses under one key name the same payment with the amount and currency of the request that created it |
| Initiation.OneCreationPerKey | src/payment/services.js:8-32 | when all requests are answered, created = true was said exactly once per distinct key |
| Billing.EveryBillIsTrue | src/shared/services/lib/payment.js:118-128 | in every run a call that has claimed holds the amount and the currency of its row |
| Billing.RowsAreRequested | src/shared/repositories/lib/payment.js:16-26 | every row bears the amount and the currency of a request that created it |
| Billing.RequestIsUnique | src/payment/services.js:11-32 | the request that created a payment is one |
| Billing.GatewayIsAskedWhatWasRequested | src/shared/services/lib/payment.js:36-40 | in every run every gateway call for a payment is for the amount and in the currency of the request that created it |
| Backoff.DelayWithinBand | queue/retryQueue.js:17-21 | a delay lies between its exponential base and a fifth more, up to rounding |
| Backoff.BaseIsExponential | queue/retryQueue.js:12-18 | the base is the configured delay and doubles with every failure after the first |
| Backoff.DelayIsRounded | queue/retryQueue.js:17-21 | the delay is the base and a fifth of it times the jitter, rounded to the nearest integer, halves up |
| Backoff.EveryDelayOccurs | queue/retryQueue.js:13-16 | the jitter spreads simultaneous failures: every integer from the base up to a fifth more is the delay for some jitter |
| Backoff.DelaysStrictlyIncrease | queue/retryQueue.js:12-21 | delays grow strictly with the failures, whatever the jitters |
| Backoff.TotalDelayWithinBand | queue/retryQueue.js:17-21 | k delays add up to between d(2^k - 1) and 1.2 d(2^k - 1) + k/2 |

## Left out

- Services.PaymentService.Process: states the case where nothing commits between claim and settle; every interleaving is covered by the labels Claim, CallGateway, Answer, Settle, Break, Finish and Crash of module Protocol, and SoloRuns.UndisturbedCall joins the two.
- Reconciler.ReconcileStale: states the sweep with nothing committing meanwhile; the interleaved sweep is the labels Select and Reconcile of module Protocol, and SweepRun joins the two.
- NoLoss.NoPaymentIsLost: is the half that says what carries the payment; Loss.NoPaymentIsStrandedExactly and Progress.EveryPaymentCanMoveExactly are the exact conditions.
- Confirmed.ChargedOnceExactly: counts, like ChargedAtMostOnce and ChargedOnceInTime, the charges whose confirmation reached a process() call; Provider.ProviderChargesOnceExactly counts those the provider made, heard or not.
- InFlight.SuccessfulChargesStick: speaks of runs without a release only; Recorded.ChargesAreRecordedExactly is the exact condition over all runs.
- Ledger.RedeliveryHasNoEffect: is about identical copies; Ledger.OneDeliveryPerEvent is about any deliveries under one event id.
- Services.InitiatePayment: states the uninterrupted request; the interleaved one, in which insert, read-back, enqueue and fetch are separate steps, is in modules Protocol and Initiation.
- HTTP layer, schemas, logging, configuration loading, process shutdown and static assets: wiring only.
- Knex, MySQL and BullMQ themselves: replaced by the assumptions listed above.
- BullMQ's limit on how often a job may stall: a stalled job always goes back to waiting.
- created_at, updated_at and processed_at, rounding of datetimes, the collation and length limits of keys, and the width of the integer columns.
- Ids of webhook events are their positions; gaps left by rejected inserts are not modelled.
- The gateway's random outcomes and its timer: an answer is an input, and the timer only justifies the bound on a call.
- Floating point in the backoff: numbers are exact and the jitter is an input in [0, 1).
- MAX_PAYMENT_ATTEMPTS below 1, which the configuration does not reject.
- The branch illegal_success of the settle step, which the transition table makes unreachable, is kept in the method as dead code.
- assertTransition and the repository's exists, which nothing in the core calls.
- public/fonts is not part of this model.
