/** Whether a Pending payment always has something that will pull it. */
module NoLoss {
  import opened StateMachine
  import opened Tables
  import opened Protocol
  import opened SystemRows
  import opened InFlight
  import opened Regimes
  import opened JobLock

  // ---- What can carry a payment --------------------------------------------------------------------

  /** The job will claim the payment; or it is dying, and the failure it leaves will settle the payment. */
  predicate Pulls(s: State, p: nat) {
    Runnable(s, p) || Dying(s, p)
  }

  ghost predicate Carried(s: State, p: nat) {
    || Pulls(s, p)
    || (exists c :: Queues(s, c, p))
    || (exists k :: Clears(s, k, p))
    || ((exists k :: Requeues(s, k, p)) && p !in s.jobs)
    || (exists w :: Fails(s, w, p))
  }

  /** A step that a careful regime permits. */
  ghost predicate CarefulStep(s: State, l: Label) {
    QueueDriven(s, l) && KeepsRequest(s, l) && KeepsHandoff(s, l) && ClearsFreely(s, l) && !l.LoseFailed?
  }

  // ---- The invariant -------------------------------------------------------------------------------

  /** A payment that is still to be queued has never had a job, a claim, a sweep or a failure. */
  ghost predicate Untried(s: State, p: nat) {
    && p in s.db.payments && s.db.payments[p].attempts == 0 && p !in s.jobs
    && (forall w :: !Fails(s, w, p))
  }

  ghost predicate Fresh(s: State, p: nat) {
    && (forall c :: Queues(s, c, p) ==> Untried(s, p))
    && (forall b, c :: Queues(s, b, p) && Queues(s, c, p) ==> b == c)
    && (forall k :: Clears(s, k, p) || Requeues(s, k, p) ==> p in s.db.payments && 0 < s.db.payments[p].attempts)
  }

  ghost predicate Safe(s: State, p: nat) {
    p in s.db.payments && s.db.payments[p].status == Pending ==> Carried(s, p)
  }

  lemma RequestsMove(cfg: Config, s: State, l: Label, c: nat, p: nat)
    requires Queues(Step(cfg, s, l), c, p)
    ensures Queues(s, c, p) || (l.Api? && l.c == c && Inserts(s, c, l.apiAct) && l.apiAct.id == p)
    ensures !(l.Api? && l.c == c && l.apiAct.QueueNew? && s.clients[c].stage.MustQueue?)
  {
  }

  lemma RequestsStay(cfg: Config, s: State, l: Label, c: nat, p: nat)
    requires Queues(s, c, p) && CarefulStep(s, l)
    requires c in s.clients && s.clients[c].stage.MustRead? ==> p in s.db.payments
    ensures Queues(Step(cfg, s, l), c, p) || (l.Api? && l.c == c && l.apiAct.QueueNew? && s.clients[c].stage.MustQueue?)
  {
  }

  lemma HandoffsMove(cfg: Config, s: State, l: Label, k: nat, p: nat)
    ensures Clears(Step(cfg, s, l), k, p) ==>
              (Clears(s, k, p) && !(l.Reconcile? && l.k == k && l.sweepAct.Clear?))
              || (l.Reconcile? && l.k == k && Recovers(s, k, l.sweepAct) && l.sweepAct.pid == p
                  && RecoverReplyOf(RowOf(s.db, p)).Released?)
    ensures Requeues(Step(cfg, s, l), k, p) ==>
              (Requeues(s, k, p) && !(l.Reconcile? && l.k == k && l.sweepAct.Requeue?))
              || (l.Reconcile? && l.k == k && l.sweepAct.Clear? && Clears(s, k, p))
    ensures Clears(s, k, p) && CarefulStep(s, l) ==> Clears(Step(cfg, s, l), k, p) || Requeues(Step(cfg, s, l), k, p)
    ensures Clears(s, k, p) && !(l.Reconcile? && l.k == k) ==> Clears(Step(cfg, s, l), k, p)
    ensures Requeues(s, k, p) && CarefulStep(s, l) ==>
              Requeues(Step(cfg, s, l), k, p) || (l.Reconcile? && l.k == k && l.sweepAct.Requeue?)
  {
  }

  lemma FailuresMove(cfg: Config, s: State, l: Label, w: nat, p: nat)
    ensures Fails(Step(cfg, s, l), w, p) ==>
              Fails(s, w, p) || (l.Call? && l.w == w && FailsJob(s, w, l.callAct) && s.workers[w].pid == p)
    ensures Fails(s, w, p) && !l.LoseFailed? && !(l.HandleFailed? && l.w == w) ==>
              Fails(Step(cfg, s, l), w, p) || (l.Call? && l.w == w && FailsJob(s, w, l.callAct))
  {
  }

  /** Failure events belong to calls that are over, and to rows that exist. */
  ghost predicate FailuresFiled(s: State) {
    forall w :: w in s.failures ==> FailureFiled(s, w)
  }

  predicate FailureFiled(s: State, w: nat)
    requires w in s.failures
  {
    w in s.workers && s.workers[w].phase.Ended? && s.failures[w].pid in s.db.payments
  }

  /** A call leaves a failure only by ending, and only through its job. */
  lemma FailureIsNewOrOld(cfg: Config, s: State, l: Label, w: nat)
    requires w in Step(cfg, s, l).failures
    ensures || (w in s.failures && Step(cfg, s, l).failures[w].pid == s.failures[w].pid)
            || (l.Call? && l.w == w && FailsJob(s, w, l.callAct) && Step(cfg, s, l).failures[w].pid == s.workers[w].pid)
  {
  }

  lemma FailureIsFiled(cfg: Config, s: State, l: Label, w: nat)
    requires FailuresFiled(s) && RefersToRows(s) && w in Step(cfg, s, l).failures
    ensures FailureFiled(Step(cfg, s, l), w)
  {
    FailureIsNewOrOld(cfg, s, l, w);
    RowsAreKept(cfg, s, l);
    assert w in s.failures ==> FailureFiled(s, w);
    WorkersStay(cfg, s, l, w);
    WorkersMove(cfg, s, l, w);
  }

  lemma StepKeepsFailuresFiled(cfg: Config, s: State, l: Label)
    requires FailuresFiled(s) && RefersToRows(s)
    ensures FailuresFiled(Step(cfg, s, l))
  {
    forall w | w in Step(cfg, s, l).failures ensures FailureFiled(Step(cfg, s, l), w) { FailureIsFiled(cfg, s, l, w); }
  }

  lemma UntriedStays(cfg: Config, s: State, l: Label, c: nat, p: nat)
    requires Locked(s) && RowsSound(cfg, s) && Fresh(s, p) && CarefulStep(s, l)
    requires Queues(s, c, p) && Queues(Step(cfg, s, l), c, p)
    ensures Untried(Step(cfg, s, l), p)
  {
    assert Untried(s, p);
    StepIsAWrite(cfg, s, l, p);
    JobsMove(cfg, s, l, p);
    RequestsMove(cfg, s, l, c, p);
    if l.Call? && Live(s, l.w) { assert Holds(s, l.w, s.workers[l.w].pid); }
    if l.Api? && Queues(s, l.c, p) { assert l.c == c; }
    if l.Reconcile? && Requeues(s, l.k, p) { assert false; }
    forall w ensures !Fails(Step(cfg, s, l), w, p) { FailuresMove(cfg, s, l, w, p); }
  }

  lemma InsertedIsUntried(cfg: Config, s: State, c: nat, act: ApiAct)
    requires RefersToRows(s) && FailuresFiled(s) && Inserts(s, c, act)
    ensures Untried(Step(cfg, s, Api(c, act)), act.id)
  {
  }

  lemma StepKeepsFresh(cfg: Config, s: State, l: Label, p: nat)
    requires Locked(s) && RowsSound(cfg, s) && RefersToRows(s) && FailuresFiled(s)
    requires Fresh(s, p) && CarefulStep(s, l)
    ensures Fresh(Step(cfg, s, l), p)
  {
    var s' := Step(cfg, s, l);
    forall c | Queues(s', c, p) ensures Untried(s', p) {
      RequestsMove(cfg, s, l, c, p);
      if Queues(s, c, p) { UntriedStays(cfg, s, l, c, p); } else { InsertedIsUntried(cfg, s, c, l.apiAct); }
    }
    forall b, c | Queues(s', b, p) && Queues(s', c, p) ensures b == c {
      RequestsMove(cfg, s, l, b, p);
      RequestsMove(cfg, s, l, c, p);
      assert Queues(s, b, p) ==> Untried(s, p);
      assert Queues(s, c, p) ==> Untried(s, p);
    }
    forall k | Clears(s', k, p) || Requeues(s', k, p) ensures p in s'.db.payments && 0 < s'.db.payments[p].attempts {
      HandoffsMove(cfg, s, l, k, p);
      if p in s.db.payments { AttemptsNeverDrop(cfg, s, l, p); }
    }
  }

  // ---- A carried payment stays carried -------------------------------------------------------------

  lemma RunnableStays(cfg: Config, s: State, l: Label, p: nat)
    requires Named(s) && Locked(s) && CarefulStep(s, l) && Pulls(s, p)
    requires p in s.db.payments && s.db.payments[p].status == Pending
    requires p in Step(cfg, s, l).db.payments && Step(cfg, s, l).db.payments[p].status == Pending
    ensures Carried(Step(cfg, s, l), p)
  {
    var s' := Step(cfg, s, l);
    JobsMove(cfg, s, l, p);
    match JobEventOf(s, l, p)
    case Kept =>
      if s.jobs[p].state.Active? { HeldJobStaysPulls(cfg, s, l, p, s.jobs[p].state.holder); }
    case Removed =>
      assert Clears(s, l.k, p);
      assert Requeues(s', l.k, p);
    case Taken(w) => WorkersMove(cfg, s, l, w);
    case AttemptLost =>
      if CostAttempt(s.jobs[p]).state.Dead? { assert Fails(s', l.w, p); }
    case _ =>
  }

  lemma HeldJobStaysPulls(cfg: Config, s: State, l: Label, p: nat, w: nat)
    requires Locked(s) && Holds(s, w, p) && JobEventOf(s, l, p) == Kept && Pulls(s, p)
    requires p in s.db.payments && s.db.payments[p].status == Pending
    requires p in Step(cfg, s, l).db.payments && Step(cfg, s, l).db.payments[p].status == Pending
    ensures Pulls(Step(cfg, s, l), p)
  {
    JobsMove(cfg, s, l, p);
    StepIsAWrite(cfg, s, l, p);
    if w in Step(cfg, s, l).workers { WorkersMove(cfg, s, l, w); }
  }

  lemma RequestCarries(cfg: Config, s: State, l: Label, p: nat, c: nat)
    requires CarefulStep(s, l) && Queues(s, c, p) && Untried(s, p)
    ensures Carried(Step(cfg, s, l), p)
  {
    RequestsStay(cfg, s, l, c, p);
    JobsMove(cfg, s, l, p);
    assert Queues(Step(cfg, s, l), c, p) || Pulls(Step(cfg, s, l), p);
  }

  lemma ClearCarries(cfg: Config, s: State, l: Label, p: nat, k: nat)
    requires CarefulStep(s, l) && Clears(s, k, p)
    ensures Carried(Step(cfg, s, l), p)
  {
    HandoffsMove(cfg, s, l, k, p);
    JobsMove(cfg, s, l, p);
    assert Clears(Step(cfg, s, l), k, p) || Requeues(Step(cfg, s, l), k, p);
  }

  lemma RequeueCarries(cfg: Config, s: State, l: Label, p: nat, k: nat)
    requires CarefulStep(s, l) && Requeues(s, k, p) && p !in s.jobs
    ensures Carried(Step(cfg, s, l), p)
  {
    HandoffsMove(cfg, s, l, k, p);
    JobsMove(cfg, s, l, p);
    assert Requeues(Step(cfg, s, l), k, p) || Pulls(Step(cfg, s, l), p);
  }

  lemma FailureCarries(cfg: Config, s: State, l: Label, p: nat, w: nat)
    requires FailuresFiled(s) && CarefulStep(s, l) && Fails(s, w, p)
    requires p in Step(cfg, s, l).db.payments && Step(cfg, s, l).db.payments[p].status == Pending
    ensures Carried(Step(cfg, s, l), p)
  {
    FailuresMove(cfg, s, l, w, p);
    StepIsAWrite(cfg, s, l, p);
    assert Fails(Step(cfg, s, l), w, p);
  }

  lemma CarriedStays(cfg: Config, s: State, l: Label, p: nat)
    requires Named(s) && Locked(s) && FailuresFiled(s) && Fresh(s, p) && CarefulStep(s, l) && Carried(s, p)
    requires p in s.db.payments && s.db.payments[p].status == Pending
    requires p in Step(cfg, s, l).db.payments && Step(cfg, s, l).db.payments[p].status == Pending
    ensures Carried(Step(cfg, s, l), p)
  {
    if Pulls(s, p) {
      RunnableStays(cfg, s, l, p);
    } else if c :| Queues(s, c, p) {
      RequestCarries(cfg, s, l, p, c);
    } else if k :| Clears(s, k, p) {
      ClearCarries(cfg, s, l, p, k);
    } else if (exists k :: Requeues(s, k, p)) && p !in s.jobs {
      var k :| Requeues(s, k, p);
      RequeueCarries(cfg, s, l, p, k);
    } else {
      var w :| Fails(s, w, p);
      FailureCarries(cfg, s, l, p, w);
    }
  }

  /** Every way of becoming Pending comes with a carrier. */
  lemma ReleasedIsCarried(cfg: Config, s: State, l: Label, p: nat)
    requires Locked(s)
    requires !(p in s.db.payments && s.db.payments[p].status == Pending)
    requires p in Step(cfg, s, l).db.payments && Step(cfg, s, l).db.payments[p].status == Pending
    ensures Carried(Step(cfg, s, l), p)
  {
    var s' := Step(cfg, s, l);
    StepIsAWrite(cfg, s, l, p);
    match WriteTo(cfg, s, l, p)
    case Born(_, _, _, _) => assert Queues(s', l.c, p);
    case Settled(_) =>
      assert Holds(s, l.w, p) by { assert Live(s, l.w); }
      JobsMove(cfg, s, l, p);
      WorkersMove(cfg, s, l, l.w);
      assert Pulls(s', p);
    case Recovered => assert Clears(s', l.k, p);
    case _ =>
  }

  lemma {:induction false} CarefulRunsAreSafe(cfg: Config, r: Regime, run: seq<Label>, p: nat)
    requires Follows(cfg, r, run) && Careful(r)
    ensures var s := After(cfg, run);
            Locked(s) && RefersToRows(s) && FailuresFiled(s) && Fresh(s, p) && Safe(s, p)
  {
    if |run| > 0 {
      var before, l := run[..|run| - 1], run[|run| - 1];
      CarefulRunsAreSafe(cfg, r, before, p);
      OneCarefulStep(cfg, run, p, After(cfg, before), l);
    }
  }

  lemma OneCarefulStep(cfg: Config, run: seq<Label>, p: nat, s: State, l: Label)
    requires |run| > 0 && s == After(cfg, run[..|run| - 1]) && l == run[|run| - 1] && CarefulStep(s, l)
    requires Locked(s) && RefersToRows(s) && FailuresFiled(s) && Fresh(s, p) && Safe(s, p)
    ensures var s' := Step(cfg, s, l);
            Locked(s') && RefersToRows(s') && FailuresFiled(s') && Fresh(s', p) && Safe(s', p)
  {
    ReachableRowsSound(cfg, run[..|run| - 1]);
    JobsAreForTheirPayments(cfg, run[..|run| - 1]);
    StepKeepsLocked(cfg, s, l);
    StepKeepsRefersToRows(cfg, s, l);
    StepKeepsFailuresFiled(cfg, s, l);
    StepKeepsFresh(cfg, s, l, p);
    if p in Step(cfg, s, l).db.payments && Step(cfg, s, l).db.payments[p].status == Pending {
      if p in s.db.payments && s.db.payments[p].status == Pending {
        CarriedStays(cfg, s, l, p);
      } else {
        ReleasedIsCarried(cfg, s, l, p);
      }
    }
  }

  /**
   * In every careful run, however calls crash, break, stall and interleave, each Pending payment has a job that
   * can claim it or is dying of its last attempt, a request or sweep about to queue it, or a `failed` event that
   * will settle it.
   */
  lemma NoPaymentIsLost(cfg: Config, r: Regime, run: seq<Label>, p: nat)
    requires Follows(cfg, r, run) && Careful(r)
    requires p in After(cfg, run).db.payments && After(cfg, run).db.payments[p].status == Pending
    ensures Carried(After(cfg, run), p)
  {
    CarefulRunsAreSafe(cfg, r, run, p);
  }
}
