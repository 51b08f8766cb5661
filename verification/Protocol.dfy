/**
 * The whole system as a labelled transition system. A state holds the two tables, the queue, the
 * process() calls under way, failed-job events not yet handled, sweeps under way, API requests and
 * one clock. A label is one committed transaction, one queue operation, one gateway call or answer,
 * one crash, or the passing of time, so that a run, a sequence of labels, is an arbitrary
 * interleaving. A label that is not enabled changes nothing. The names of calls, requests and sweeps
 * are never used twice.
 */
module Protocol {
  import opened Rows
  import RowHistory
  import opened Tables
  import opened Queue

  /** MAX_PAYMENT_ATTEMPTS and STALE_PROCESSING_MS. */
  datatype Config = Config(maxAttempts: pos, staleMs: nat)

  /** What a claim tells its call to charge. */
  datatype Bill = Bill(amount: int, currency: string)

  /**
   * Where a process() call stands: `Throwing` is on its way out with an error, `Ended` returned or crashed.
   * Whether the provider has charged is its own affair: no step of the program depends on `charged`.
   */
  datatype Phase =
    | Ready
    | Holding(bill: Bill)
    | Calling(charged: bool)
    | Answered(answer: Answer)
    | Returning
    | Throwing(error: string)
    | Ended

  /** A process() call; `queued` if a queue job started it, `stamp` the time of its claim. */
  datatype Worker = Worker(pid: nat, queued: bool, stamp: int, phase: Phase)

  /** A job that failed with no attempts left; `due` while its `failed` event is still to be handled. */
  datatype Failure = Failure(pid: nat, error: string, due: bool)

  datatype Handoff = Idle | MustRemove(pid: nat) | MustEnqueue(pid: nat) | Over

  /** A sweep: the selected rows not yet recovered, and the released row it is handing to the queue. */
  datatype Sweep = Sweep(todo: set<nat>, handoff: Handoff)

  datatype Stage =
    | Arrived
    | MustRead(id: nat)
    | MustQueue(id: nat, payment: Payment)
    | MustFetch
    | Responded(id: nat, payment: Payment, created: bool)
    | Gone

  /** An API request to initiate a payment. */
  datatype Client = Client(key: string, amount: int, currency: string, stage: Stage)

  datatype State = State(
    db: Db,
    jobs: map<nat, Job>,
    workers: map<nat, Worker>,
    failures: map<nat, Failure>,
    sweeps: map<nat, Sweep>,
    clients: map<nat, Client>,
    clock: int)

  const INITIAL := State(EMPTY_DB, map[], map[], map[], map[], map[], 0)

  /** initiatePayment; `Cut` is the API process dying. */
  datatype ApiAct = Insert(id: nat) | ReadBack | QueueNew | Fetch(id: nat) | CutRequest

  /**
   * process(); `charged` is whether the provider charges on this call, `Break` an error that is not a
   * GatewayError, `Crash` the worker process dying.
   */
  datatype CallAct =
    | Claim
    | CallGateway(charged: bool)
    | Answer(answer: Answer)
    | Settle
    | Break(error: string)
    | Finish
    | Crash

  /** reconcileStale; `CutSweep` is its process dying. */
  datatype SweepAct = Recover(pid: nat) | Clear | Requeue | EndSweep | CutSweep

  datatype Label =
    | Arrive(c: nat, key: string, amount: int, currency: string)
    | Api(c: nat, apiAct: ApiAct)
    | Take(w: nat, pid: nat)
    | CallDirectly(w: nat, pid: nat)
    | Call(w: nat, callAct: CallAct)
    | Stall(pid: nat)
    | Promote(pid: nat)
    | HandleFailed(w: nat)
    | LoseFailed(w: nat)
    | Webhook(d: Delivery)
    | Select(k: nat)
    | Reconcile(k: nat, sweepAct: SweepAct)
    | Tick(dt: nat)

  // ---- API requests ------------------------------------------------------------------------------

  /** Whether the request's INSERT succeeds under this id. */
  predicate Inserts(s: State, c: nat, act: ApiAct) {
    && act.Insert? && c in s.clients && s.clients[c].stage.Arrived?
    && !KeyTaken(s.db.payments, s.clients[c].key) && act.id !in s.db.payments
  }

  function NextStage(s: State, c: nat, act: ApiAct): Stage
    requires c in s.clients
  {
    var stage := s.clients[c].stage;
    match act
    case Insert(id) =>
      if !stage.Arrived? then stage
      else if KeyTaken(s.db.payments, s.clients[c].key) then MustFetch
      else if id in s.db.payments then stage
      else MustRead(id)
    case ReadBack =>
      if stage.MustRead? && stage.id in s.db.payments then MustQueue(stage.id, s.db.payments[stage.id]) else stage
    case QueueNew => if stage.MustQueue? then Responded(stage.id, stage.payment, true) else stage
    case Fetch(id) =>
      if stage.MustFetch? && id in s.db.payments && s.db.payments[id].key == s.clients[c].key
      then Responded(id, s.db.payments[id], false) else stage
    case CutRequest => if stage.Responded? then stage else Gone
  }

  function ApiStep(cfg: Config, s: State, c: nat, act: ApiAct): State
    requires c in s.clients
  {
    var x := s.clients[c];
    s.(db := if Inserts(s, c, act)
             then s.db.(payments := s.db.payments[act.id := NewPayment(x.key, x.amount, x.currency, cfg.maxAttempts)])
             else s.db,
       jobs := if act.QueueNew? && x.stage.MustQueue?
               then AddJob(s.jobs, x.stage.id, FreshJob(x.stage.id, cfg.maxAttempts))
               else s.jobs,
       clients := s.clients[c := x.(stage := NextStage(s, c, act))])
  }

  // ---- process() ---------------------------------------------------------------------------------

  predicate OnWorker(s: State, w: nat, phase: Phase) {
    w in s.workers && s.workers[w].phase == phase
  }

  /** The call has claimed its payment, and not yet asked the gateway. */
  predicate IsHolding(s: State, w: nat) {
    w in s.workers && s.workers[w].phase.Holding?
  }

  /** The job is locked by this process() call. */
  predicate Holds(s: State, w: nat, pid: nat) {
    pid in s.jobs && s.jobs[pid].state == Active(w)
  }

  function SetJob(s: State, pid: nat, state: JobState): State
    requires pid in s.jobs
  {
    s.(jobs := s.jobs[pid := s.jobs[pid].(state := state)])
  }

  /** The write a process() call commits; the clock is read inside the transaction. */
  function CallWrite(x: Worker, now: int, act: CallAct): RowEvent {
    if act.Claim? && x.phase.Ready? then Claimed(now)
    else if act.Settle? && x.phase.Answered? then Settled(x.phase.answer)
    else Untouched
  }

  /** The provider confirms no charge that it has not made; an error says nothing about whether it charged. */
  predicate Hears(x: Worker, answer: Answer) {
    x.phase.Calling? && (answer.Charged? ==> x.phase.charged)
  }

  /** Where the call stands afterwards, `row` being its payment when the transaction starts. */
  function NextCall(x: Worker, row: Option<Payment>, now: int, act: CallAct): Worker {
    match act
    case Claim =>
      if !x.phase.Ready? then x
      else
        var reply := ClaimReplyOf(row);
        if reply.IsClaimed? then x.(phase := Holding(Bill(reply.amount, reply.currency)), stamp := now)
        else x.(phase := Returning)
    case CallGateway(charged) => if x.phase.Holding? then x.(phase := Calling(charged)) else x
    case Answer(answer) => if Hears(x, answer) then x.(phase := Answered(answer)) else x
    case Settle =>
      if !x.phase.Answered? then x
      else
        var reply := SettleReplyOf(row, x.phase.answer);
        x.(phase := if reply.Retry? then Throwing(reply.reason) else Returning)
    case Break(error) =>
      if x.phase.Ready? || x.phase.Holding? || x.phase.Calling? || x.phase.Answered?
      then x.(phase := Throwing(error)) else x
    case Finish => if x.phase.Returning? || x.phase.Throwing? then x.(phase := Ended) else x
    case Crash => x.(phase := Ended)
  }

  /** A call that ends well completes the job it holds, which vanishes. */
  predicate Completes(s: State, w: nat, act: CallAct) {
    act.Finish? && OnWorker(s, w, Returning) && Holds(s, w, s.workers[w].pid)
  }

  /** A call that ends with an error costs the job it holds one attempt. */
  predicate FailsJob(s: State, w: nat, act: CallAct) {
    act.Finish? && w in s.workers && s.workers[w].phase.Throwing? && Holds(s, w, s.workers[w].pid)
  }

  /** The job is delayed while attempts remain, and dead after the last one. */
  function CostAttempt(job: Job): Job {
    var made := job.attemptsMade + 1;
    job.(state := if made < job.attempts then Delayed else Dead, attemptsMade := made)
  }

  function CallStep(s: State, w: nat, act: CallAct): State
    requires w in s.workers
  {
    var x := s.workers[w];
    s.(db := OnRow(s.db, x.pid, CallWrite(x, s.clock, act)),
       jobs := if Completes(s, w, act) then s.jobs - {x.pid}
               else if FailsJob(s, w, act) then s.jobs[x.pid := CostAttempt(s.jobs[x.pid])]
               else s.jobs,
       workers := s.workers[w := NextCall(x, RowOf(s.db, x.pid), s.clock, act)],
       failures := if FailsJob(s, w, act) && CostAttempt(s.jobs[x.pid]).state.Dead?
                   then s.failures[w := Failure(x.pid, x.phase.error, true)]
                   else s.failures)
  }

  predicate FailureDue(s: State, w: nat) {
    w in s.failures && s.failures[w].due
  }

  function Handled(s: State, w: nat): State
    requires w in s.failures
  {
    s.(failures := s.failures[w := s.failures[w].(due := false)])
  }

  // ---- reconcileStale ----------------------------------------------------------------------------

  /** The row this act recovers, if it recovers one. */
  predicate Recovers(s: State, k: nat, act: SweepAct) {
    act.Recover? && k in s.sweeps && s.sweeps[k].handoff.Idle? && act.pid in s.sweeps[k].todo
  }

  function NextSweep(s: State, k: nat, act: SweepAct): Sweep
    requires k in s.sweeps
  {
    var x := s.sweeps[k];
    match act
    case Recover(pid) =>
      if !Recovers(s, k, act) then x
      else Sweep(x.todo - {pid}, if RecoverReplyOf(RowOf(s.db, pid)).Released? then MustRemove(pid) else Idle)
    case Clear => if x.handoff.MustRemove? then x.(handoff := MustEnqueue(x.handoff.pid)) else x
    case Requeue => if x.handoff.MustEnqueue? then x.(handoff := Idle) else x
    case EndSweep => if x == Sweep({}, Idle) then x.(handoff := Over) else x
    case CutSweep => Sweep({}, Over)
  }

  function SweepStep(cfg: Config, s: State, k: nat, act: SweepAct): State
    requires k in s.sweeps
  {
    var x := s.sweeps[k];
    s.(db := if Recovers(s, k, act) then OnRow(s.db, act.pid, Recovered) else s.db,
       jobs := if act.Clear? && x.handoff.MustRemove? then RemoveJob(s.jobs, x.handoff.pid)
               else if act.Requeue? && x.handoff.MustEnqueue?
               then AddJob(s.jobs, x.handoff.pid, FreshJob(x.handoff.pid, cfg.maxAttempts))
               else s.jobs,
       sweeps := s.sweeps[k := NextSweep(s, k, act)])
  }

  // ---- The transition function -------------------------------------------------------------------

  function Step(cfg: Config, s: State, l: Label): State {
    match l
    case Arrive(c, key, amount, currency) =>
      if c in s.clients then s else s.(clients := s.clients[c := Client(key, amount, currency, Arrived)])
    case Api(c, act) => if c in s.clients then ApiStep(cfg, s, c, act) else s
    case Take(w, pid) =>
      if w !in s.workers && pid in s.jobs && s.jobs[pid].state.Waiting?
      then
        SetJob(s, pid, Active(w)).(workers := s.workers[w := Worker(s.jobs[pid].paymentId, true, s.clock, Ready)])
      else s
    case CallDirectly(w, pid) =>
      if w in s.workers then s else s.(workers := s.workers[w := Worker(pid, false, s.clock, Ready)])
    case Call(w, act) => if w in s.workers then CallStep(s, w, act) else s
    case Stall(pid) => if pid in s.jobs && s.jobs[pid].state.Active? then SetJob(s, pid, Waiting) else s
    case Promote(pid) => if pid in s.jobs && s.jobs[pid].state.Delayed? then SetJob(s, pid, Waiting) else s
    case HandleFailed(w) =>
      if FailureDue(s, w)
      then Handled(s, w).(db := OnRow(s.db, s.failures[w].pid, GivenUp(WorkerDied(s.failures[w].error)))) else s
    case LoseFailed(w) => if w in s.failures then Handled(s, w) else s
    case Webhook(d) => s.(db := Deliver(s.db, d))
    case Select(k) =>
      if k in s.sweeps then s
      else s.(sweeps := s.sweeps[k := Sweep(StaleIds(s.db.payments, s.clock - cfg.staleMs), Idle)])
    case Reconcile(k, act) => if k in s.sweeps then SweepStep(cfg, s, k, act) else s
    case Tick(dt) => s.(clock := s.clock + dt)
  }

  // ---- Runs --------------------------------------------------------------------------------------

  function Run(cfg: Config, s: State, run: seq<Label>): State {
    if |run| == 0 then s else Step(cfg, Run(cfg, s, run[..|run| - 1]), run[|run| - 1])
  }

  /** The state a run from the empty system reaches. */
  function After(cfg: Config, run: seq<Label>): State {
    Run(cfg, INITIAL, run)
  }

  lemma {:induction false} RunAppend(cfg: Config, s: State, run: seq<Label>, more: seq<Label>)
    ensures Run(cfg, s, run + more) == Run(cfg, Run(cfg, s, run), more)
  {
    if |more| == 0 {
      assert run + more == run;
    } else {
      RunAppend(cfg, s, run, more[..|more| - 1]);
      assert (run + more)[..|run + more| - 1] == run + more[..|more| - 1];
    }
  }

  /** A run cut open at one label. */
  lemma RunThrough(cfg: Config, s: State, run: seq<Label>, l: Label, more: seq<Label>)
    ensures Run(cfg, s, run + [l] + more) == Run(cfg, Step(cfg, Run(cfg, s, run), l), more)
  {
    RunAppend(cfg, s, run + [l], more);
    assert (run + [l])[..|run + [l]| - 1] == run;
  }

  lemma RunOfOne(cfg: Config, s: State, a: Label)
    ensures Run(cfg, s, [a]) == Step(cfg, s, a)
  {
  }

  lemma RunFromOne(cfg: Config, s: State, a: Label, more: seq<Label>)
    ensures Run(cfg, s, [a] + more) == Run(cfg, Step(cfg, s, a), more)
  {
    RunAppend(cfg, s, [a], more);
    RunOfOne(cfg, s, a);
  }

  lemma RunOfTwo(cfg: Config, s: State, a: Label, b: Label)
    ensures Run(cfg, s, [a, b]) == Step(cfg, Step(cfg, s, a), b)
  {
    RunOfOne(cfg, s, a);
    assert [a, b][..1] == [a];
  }

  lemma RunOfThree(cfg: Config, s: State, a: Label, b: Label, c: Label)
    ensures Run(cfg, s, [a, b, c]) == Step(cfg, Step(cfg, Step(cfg, s, a), b), c)
  {
    RunOfTwo(cfg, s, a, b);
    assert [a, b, c][..2] == [a, b];
  }

  // ---- Every job is for its payment ----------------------------------------------------------------

  /** A job is kept under the payment that it is for: the one that a call started by it processes. */
  ghost predicate Named(s: State) {
    forall p :: p in s.jobs ==> s.jobs[p].paymentId == p
  }

  lemma StepKeepsNamed(cfg: Config, s: State, l: Label)
    requires Named(s)
    ensures Named(Step(cfg, s, l))
  {
  }

  lemma {:induction false} RunKeepsNamed(cfg: Config, s: State, run: seq<Label>)
    requires Named(s)
    ensures Named(Run(cfg, s, run))
  {
    if |run| > 0 {
      RunKeepsNamed(cfg, s, run[..|run| - 1]);
      StepKeepsNamed(cfg, Run(cfg, s, run[..|run| - 1]), run[|run| - 1]);
    }
  }

  /** In every run each job is for the payment under whose id it is kept. */
  lemma JobsAreForTheirPayments(cfg: Config, run: seq<Label>)
    ensures Named(After(cfg, run))
  {
    RunKeepsNamed(cfg, INITIAL, run);
  }

  // ---- Every step, seen from one payment -----------------------------------------------------------

  /** The write a label asks of the row of payment `p`. */
  function WriteTo(cfg: Config, s: State, l: Label, p: nat): RowEvent {
    match l
    case Api(c, act) =>
      if Inserts(s, c, act) && act.id == p
      then Born(s.clients[c].key, s.clients[c].amount, s.clients[c].currency, cfg.maxAttempts) else Untouched
    case Call(w, act) =>
      if w in s.workers && s.workers[w].pid == p then CallWrite(s.workers[w], s.clock, act) else Untouched
    case HandleFailed(w) =>
      if FailureDue(s, w) && s.failures[w].pid == p then GivenUp(WorkerDied(s.failures[w].error)) else Untouched
    case Webhook(d) =>
      if d.paymentId == p && WebhookReplyOf(s.db, d).Applied? then Reported(d.status, d.providerRef) else Untouched
    case Reconcile(k, act) => if Recovers(s, k, act) && act.pid == p then Recovered else Untouched
    case _ => Untouched
  }

  /** The writes a run asks of the row of payment `p`, one per label. */
  function Writes(cfg: Config, s: State, run: seq<Label>, p: nat): (es: seq<RowEvent>)
    ensures |es| == |run|
  {
    if |run| == 0 then []
    else
      var before := run[..|run| - 1];
      Writes(cfg, s, before, p) + [WriteTo(cfg, Run(cfg, s, before), run[|run| - 1], p)]
  }

  /** Every label is one write of the row machine, for each payment. */
  lemma StepIsAWrite(cfg: Config, s: State, l: Label, p: nat)
    ensures RowOf(Step(cfg, s, l).db, p) == Apply(RowOf(s.db, p), WriteTo(cfg, s, l, p))
  {
  }

  /** A run does to each row exactly what the row's own history says: the rows are independent machines. */
  lemma {:induction false} RowsFollowTheirWrites(cfg: Config, s: State, run: seq<Label>, p: nat)
    ensures RowOf(Run(cfg, s, run).db, p) == RowHistory.After(RowOf(s.db, p), Writes(cfg, s, run, p))
  {
    if |run| > 0 {
      var before := run[..|run| - 1];
      RowsFollowTheirWrites(cfg, s, before, p);
      StepIsAWrite(cfg, Run(cfg, s, before), run[|run| - 1], p);
      assert Writes(cfg, s, run, p)[..|run| - 1] == Writes(cfg, s, before, p);
    }
  }
}
