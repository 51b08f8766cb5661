/** What the queue guarantees by itself: one process() call per payment, and two retry budgets that agree. */
module JobLock {
  import opened Rows
  import H = RowHistory
  import opened Queue
  import opened Protocol
  import opened SystemRows
  import opened InFlight
  import opened Regimes

  // ---- Every step, seen from one job ---------------------------------------------------------------

  /** What a label does to the job of payment `p`. */
  datatype JobEvent = Kept | Enqueued | Removed | Taken(w: nat) | Freed | Done | AttemptLost

  function JobEventOf(s: State, l: Label, p: nat): JobEvent {
    match l
    case Api(c, act) =>
      if c in s.clients && act.QueueNew? && s.clients[c].stage.MustQueue? && s.clients[c].stage.id == p
      then Enqueued else Kept
    case Take(w, pid) =>
      if w !in s.workers && pid == p && p in s.jobs && s.jobs[p].state.Waiting? then Taken(w) else Kept
    case Call(w, act) =>
      if w !in s.workers || s.workers[w].pid != p then Kept
      else if Completes(s, w, act) then Done
      else if FailsJob(s, w, act) then AttemptLost
      else Kept
    case Stall(pid) => if pid == p && p in s.jobs && s.jobs[p].state.Active? then Freed else Kept
    case Promote(pid) => if pid == p && p in s.jobs && s.jobs[p].state.Delayed? then Freed else Kept
    case Reconcile(k, act) =>
      if k !in s.sweeps then Kept
      else if act.Clear? && s.sweeps[k].handoff == MustRemove(p) then Removed
      else if act.Requeue? && s.sweeps[k].handoff == MustEnqueue(p) then Enqueued
      else Kept
    case _ => Kept
  }

  function NextJob(cfg: Config, job: Option<Job>, e: JobEvent, p: nat): Option<Job> {
    match e
    case Kept => job
    case Enqueued => if job.None? then Some(FreshJob(p, cfg.maxAttempts)) else job
    case Removed => if job.Some? && !job.value.state.Active? then None else job
    case Taken(w) => if job.Some? then Some(job.value.(state := Active(w))) else None
    case Freed => if job.Some? then Some(job.value.(state := Waiting)) else None
    case Done => None
    case AttemptLost => if job.Some? then Some(CostAttempt(job.value)) else None
  }

  lemma JobsMove(cfg: Config, s: State, l: Label, p: nat)
    ensures JobOf(Step(cfg, s, l).jobs, p) == NextJob(cfg, JobOf(s.jobs, p), JobEventOf(s, l, p), p)
  {
  }

  // ---- One call per payment ----------------------------------------------------------------------

  ghost predicate QueueDriven(s: State, l: Label) {
    !l.CallDirectly? && StallsAreDead(s, l)
  }

  /** Live calls hold the lock on their job, and a lock names a call on that payment. */
  ghost predicate Locked(s: State) {
    && (forall w :: Live(s, w) ==> Holds(s, w, s.workers[w].pid))
    && (forall w, p :: Holds(s, w, p) ==> w in s.workers && s.workers[w].pid == p)
  }

  lemma LiveCallsKeepTheirLock(cfg: Config, s: State, l: Label, w: nat)
    requires Named(s) && Locked(s) && QueueDriven(s, l) && Live(Step(cfg, s, l), w)
    ensures Holds(Step(cfg, s, l), w, Step(cfg, s, l).workers[w].pid)
  {
    if w !in s.workers {
    } else if l.Call? && l.w == w {
      MovingCallKeepsItsLock(s, w, l.callAct);
    } else {
      WorkersMove(cfg, s, l, w);
      LiveLocksAreKept(s, l, w);
      JobsMove(cfg, s, l, s.workers[w].pid);
      assert Holds(s, w, s.workers[w].pid);
    }
  }

  lemma MovingCallKeepsItsLock(s: State, w: nat, act: CallAct)
    requires Locked(s) && w in s.workers && Live(CallStep(s, w, act), w)
    ensures Holds(CallStep(s, w, act), w, CallStep(s, w, act).workers[w].pid)
  {
  }

  lemma LiveLocksAreKept(s: State, l: Label, w: nat)
    requires Locked(s) && QueueDriven(s, l) && Live(s, w)
    ensures JobEventOf(s, l, s.workers[w].pid) in [Kept, Enqueued, Removed] || (l.Call? && l.w == w)
  {
  }

  lemma LocksNameTheirCall(cfg: Config, s: State, l: Label, w: nat, p: nat)
    requires Named(s) && Locked(s) && Holds(Step(cfg, s, l), w, p)
    ensures w in Step(cfg, s, l).workers && Step(cfg, s, l).workers[w].pid == p
  {
    JobsMove(cfg, s, l, p);
    assert Holds(s, w, p) || l == Take(w, p);
    if w in Step(cfg, s, l).workers { WorkersMove(cfg, s, l, w); }
  }

  lemma StepKeepsLocked(cfg: Config, s: State, l: Label)
    requires Named(s) && Locked(s) && QueueDriven(s, l)
    ensures Locked(Step(cfg, s, l))
  {
    var s' := Step(cfg, s, l);
    forall w | Live(s', w) ensures Holds(s', w, s'.workers[w].pid) { LiveCallsKeepTheirLock(cfg, s, l, w); }
    forall w, p | Holds(s', w, p)
      ensures w in s'.workers && s'.workers[w].pid == p
    {
      LocksNameTheirCall(cfg, s, l, w, p);
    }
  }

  lemma {:induction false} SerialRunsAreLocked(cfg: Config, r: Regime, run: seq<Label>)
    requires Follows(cfg, r, run) && Serial(r)
    ensures Locked(After(cfg, run))
  {
    if |run| > 0 {
      SerialRunsAreLocked(cfg, r, run[..|run| - 1]);
      JobsAreForTheirPayments(cfg, run[..|run| - 1]);
      StepKeepsLocked(cfg, After(cfg, run[..|run| - 1]), run[|run| - 1]);
    }
  }

  /**
   * However slow the calls and however the sweeps overlap, deduplication by job id and the job lock alone
   * keep two live process() calls from ever working on one payment.
   */
  lemma QueueSerialisesCalls(cfg: Config, r: Regime, run: seq<Label>, v: nat, w: nat)
    requires Follows(cfg, r, run) && Serial(r)
    requires Live(After(cfg, run), v) && Live(After(cfg, run), w)
    requires After(cfg, run).workers[v].pid == After(cfg, run).workers[w].pid
    ensures v == w
  {
    SerialRunsAreLocked(cfg, r, run);
    var s := After(cfg, run);
    assert Holds(s, v, s.workers[v].pid) && Holds(s, w, s.workers[w].pid);
  }

  // ---- The two retry budgets ---------------------------------------------------------------------

  /** Every error out of process() is a GatewayError. */
  predicate GatewayErrorsOnly(l: Label) {
    !(l.Call? && l.callAct.Break?)
  }

  /** Whatever refers to a payment refers to a row that exists. */
  ghost predicate RefersToRows(s: State) {
    && (forall p :: p in s.jobs ==> p in s.db.payments)
    && (forall k :: k in s.sweeps ==> SweepRefers(s, s.sweeps[k]))
    && (forall c :: c in s.clients ==> ClientRefers(s, s.clients[c]))
  }

  predicate SweepRefers(s: State, x: Sweep) {
    x.handoff.MustRemove? || x.handoff.MustEnqueue? ==> x.handoff.pid in s.db.payments
  }

  predicate ClientRefers(s: State, x: Client) {
    x.stage.MustRead? || x.stage.MustQueue? ==> x.stage.id in s.db.payments
  }

  /** The attempts the job has paid for, counting the one its holder is spending. */
  function Spent(s: State, job: Job): nat {
    if job.state.Active? && job.state.holder in s.workers && Spending(s.workers[job.state.holder])
    then job.attemptsMade + 1 else job.attemptsMade
  }

  ghost predicate InBudget(cfg: Config, s: State, p: nat) {
    p in s.jobs ==>
      && p in s.db.payments && s.jobs[p].attempts == cfg.maxAttempts && !s.jobs[p].state.Dead?
      && Spent(s, s.jobs[p]) <= s.db.payments[p].attempts
      && (forall w :: Holds(s, w, p) ==>
            w in s.workers && s.workers[w].pid == p
                && (s.workers[w].phase.Throwing? ==> Spent(s, s.jobs[p]) < cfg.maxAttempts))
  }

  lemma RowsAreKept(cfg: Config, s: State, l: Label)
    ensures s.db.payments.Keys <= Step(cfg, s, l).db.payments.Keys
  {
  }

  lemma JobsRefer(cfg: Config, s: State, l: Label, p: nat)
    requires RefersToRows(s) && p in Step(cfg, s, l).jobs
    ensures p in s.db.payments
  {
  }

  lemma SweepsRefer(cfg: Config, s: State, l: Label, k: nat)
    requires RefersToRows(s) && k in Step(cfg, s, l).sweeps
    ensures SweepRefers(Step(cfg, s, l), Step(cfg, s, l).sweeps[k])
  {
    RowsAreKept(cfg, s, l);
    assert k in s.sweeps ==> SweepRefers(s, s.sweeps[k]);
  }

  lemma ClientsRefer(cfg: Config, s: State, l: Label, c: nat)
    requires RefersToRows(s) && c in Step(cfg, s, l).clients
    ensures ClientRefers(Step(cfg, s, l), Step(cfg, s, l).clients[c])
  {
  }

  lemma StepKeepsRefersToRows(cfg: Config, s: State, l: Label)
    requires RefersToRows(s)
    ensures RefersToRows(Step(cfg, s, l))
  {
    var s' := Step(cfg, s, l);
    RowsAreKept(cfg, s, l);
    forall p | p in s'.jobs ensures p in s'.db.payments { JobsRefer(cfg, s, l, p); }
    forall k | k in s'.sweeps ensures SweepRefers(s', s'.sweeps[k]) { SweepsRefer(cfg, s, l, k); }
    forall c | c in s'.clients ensures ClientRefers(s', s'.clients[c]) { ClientsRefer(cfg, s, l, c); }
  }

  lemma AttemptsNeverDrop(cfg: Config, s: State, l: Label, p: nat)
    requires p in s.db.payments
    ensures p in Step(cfg, s, l).db.payments && s.db.payments[p].attempts <= Step(cfg, s, l).db.payments[p].attempts
  {
    StepIsAWrite(cfg, s, l, p);
  }

  predicate Spending(x: Worker) {
    Charging(x) || x.phase.Throwing?
  }

  /** The call that holds a job pays for its attempt when it claims, and throws only while the row has attempts left. */
  lemma HolderPays(x: Worker, row: Payment, now: int, act: CallAct, made: nat)
    requires H.Sound(row) && !act.Break? && made <= row.attempts
    requires Spending(x) ==> made + 1 <= row.attempts
    requires x.phase.Throwing? ==> made + 1 < row.maxAttempts
    ensures var x', row' := NextCall(x, Some(row), now, act), Advance(row, CallWrite(x, now, act));
            && made <= row'.attempts
            && (Spending(x') ==> made + 1 <= row'.attempts)
            && (x'.phase.Throwing? ==> made + 1 < row.maxAttempts)
  {
  }

  /** The holder itself moves. */
  lemma MovingHolderStaysInBudget(cfg: Config, s: State, p: nat, w: nat, act: CallAct)
    requires RowsSound(cfg, s) && InBudget(cfg, s, p) && !act.Break? && Holds(s, w, p)
    requires JobOf(CallStep(s, w, act).jobs, p) == JobOf(s.jobs, p)
    ensures InBudget(cfg, CallStep(s, w, act), p)
  {
    HolderPays(s.workers[w], s.db.payments[p], s.clock, act, s.jobs[p].attemptsMade);
    forall v | Holds(CallStep(s, w, act), v, p) ensures v == w {}
  }

  /** The holder stands still, and so does its job. */
  lemma StandingHolderStaysInBudget(cfg: Config, s: State, l: Label, p: nat, w: nat)
    requires InBudget(cfg, s, p) && Holds(s, w, p) && !(l.Call? && l.w == w)
    requires JobOf(Step(cfg, s, l).jobs, p) == JobOf(s.jobs, p)
    ensures InBudget(cfg, Step(cfg, s, l), p)
  {
    AttemptsNeverDrop(cfg, s, l, p);
    WorkersStay(cfg, s, l, w);
    WorkersMove(cfg, s, l, w);
    forall v | Holds(Step(cfg, s, l), v, p) ensures v == w {}
  }

  lemma HeldJobsStayInBudget(cfg: Config, s: State, l: Label, p: nat, w: nat)
    requires RowsSound(cfg, s) && InBudget(cfg, s, p) && GatewayErrorsOnly(l)
    requires Holds(s, w, p) && JobEventOf(s, l, p) == Kept
    ensures InBudget(cfg, Step(cfg, s, l), p)
  {
    JobsMove(cfg, s, l, p);
    if l.Call? && l.w == w {
      MovingHolderStaysInBudget(cfg, s, p, w, l.callAct);
    } else {
      StandingHolderStaysInBudget(cfg, s, l, p, w);
    }
  }

  lemma WorkersStay(cfg: Config, s: State, l: Label, w: nat)
    requires w in s.workers
    ensures w in Step(cfg, s, l).workers
  {
  }

  lemma UnheldJobsStayInBudget(cfg: Config, s: State, l: Label, p: nat)
    requires Named(s) && InBudget(cfg, s, p) && p in s.jobs && !s.jobs[p].state.Active?
    ensures InBudget(cfg, Step(cfg, s, l), p)
  {
    JobsMove(cfg, s, l, p);
    AttemptsNeverDrop(cfg, s, l, p);
    var e := JobEventOf(s, l, p);
    if e.Taken? { WorkersMove(cfg, s, l, e.w); }
  }

  lemma ReleasedJobsStayInBudget(cfg: Config, s: State, l: Label, p: nat)
    requires InBudget(cfg, s, p) && p in s.jobs && s.jobs[p].state.Active? && JobEventOf(s, l, p) != Kept
    ensures InBudget(cfg, Step(cfg, s, l), p)
  {
  }

  lemma StepKeepsInBudget(cfg: Config, s: State, l: Label, p: nat)
    requires Named(s) && RowsSound(cfg, s) && RefersToRows(s) && InBudget(cfg, s, p) && GatewayErrorsOnly(l)
    ensures InBudget(cfg, Step(cfg, s, l), p)
  {
    if p !in s.jobs {
      JobsMove(cfg, s, l, p);
      RowsAreKept(cfg, s, l);
      if p in Step(cfg, s, l).jobs { JobsRefer(cfg, s, l, p); }
    } else if !s.jobs[p].state.Active? {
      UnheldJobsStayInBudget(cfg, s, l, p);
    } else if JobEventOf(s, l, p) == Kept {
      HeldJobsStayInBudget(cfg, s, l, p, s.jobs[p].state.holder);
    } else {
      ReleasedJobsStayInBudget(cfg, s, l, p);
    }
  }

  lemma {:induction false} GatewayErrorRunsStayInBudget(cfg: Config, run: seq<Label>, p: nat)
    requires forall i :: 0 <= i < |run| ==> GatewayErrorsOnly(run[i])
    ensures RefersToRows(After(cfg, run)) && InBudget(cfg, After(cfg, run), p)
  {
    if |run| > 0 {
      var before := run[..|run| - 1];
      GatewayErrorRunsStayInBudget(cfg, before, p);
      ReachableRowsSound(cfg, before);
      StepKeepsRefersToRows(cfg, After(cfg, before), run[|run| - 1]);
      JobsAreForTheirPayments(cfg, before);
      StepKeepsInBudget(cfg, After(cfg, before), run[|run| - 1], p);
    }
  }

  /** A job never counts more failed attempts than its row, also when recovery gave the row a fresh job. */
  lemma RetryBudgetsAgree(cfg: Config, run: seq<Label>, p: nat)
    requires forall i :: 0 <= i < |run| ==> GatewayErrorsOnly(run[i])
    requires p in After(cfg, run).jobs
    ensures p in After(cfg, run).db.payments
    ensures After(cfg, run).jobs[p].attemptsMade <= After(cfg, run).db.payments[p].attempts
  {
    GatewayErrorRunsStayInBudget(cfg, run, p);
  }

  /** So a retry never lands on the job's last attempt: the queue always reschedules it. */
  lemma RetriesAreRescheduled(cfg: Config, run: seq<Label>, w: nat)
    requires forall i :: 0 <= i < |run| ==> GatewayErrorsOnly(run[i])
    requires FailsJob(After(cfg, run), w, Finish)
    ensures var p := After(cfg, run).workers[w].pid;
            JobOf(Step(cfg, After(cfg, run), Call(w, Finish)).jobs, p)
            == var job := After(cfg, run).jobs[p]; Some(job.(state := Delayed, attemptsMade := job.attemptsMade + 1))
  {
    var s := After(cfg, run);
    GatewayErrorRunsStayInBudget(cfg, run, s.workers[w].pid);
    JobsMove(cfg, s, Call(w, Finish), s.workers[w].pid);
    assert Holds(s, w, s.workers[w].pid);
  }

  lemma StepAddsNoFailure(cfg: Config, s: State, l: Label)
    requires s.failures == map[] && (l.Call? && FailsJob(s, l.w, l.callAct) ==> InBudget(cfg, s, s.workers[l.w].pid))
    ensures Step(cfg, s, l).failures == map[]
  {
  }

  /** And no job ever dies: the defensive failPayment of the worker has nothing to handle. */
  lemma {:induction false} FailPaymentNeverFires(cfg: Config, run: seq<Label>)
    requires forall i :: 0 <= i < |run| ==> GatewayErrorsOnly(run[i])
    ensures After(cfg, run).failures == map[]
  {
    if |run| > 0 {
      var before, l := run[..|run| - 1], run[|run| - 1];
      FailPaymentNeverFires(cfg, before);
      var s := After(cfg, before);
      if l.Call? && FailsJob(s, l.w, l.callAct) { GatewayErrorRunsStayInBudget(cfg, before, s.workers[l.w].pid); }
      StepAddsNoFailure(cfg, s, l);
    }
  }
}
