/** Which assumptions it takes that no payment is ever stranded: every one of them, and no more. */
module Loss {
  import opened StateMachine
  import opened Rows
  import H = RowHistory
  import opened Tables
  import opened Queue
  import opened Protocol
  import opened SystemRows
  import opened InFlight
  import opened Regimes
  import opened JobLock
  import opened NoLoss
  import opened Stranded
  import opened Witness
  import opened Sharpness

  /** All assumptions about the queue and about crashes, and none about time. */
  const CAREFUL := Regime(None, false, true, true, true, true, true, true, true, true, true)

  // ---- A request cut off before its enqueue ------------------------------------------------------------

  /** Every regime has a run in which a request owes its enqueue. */
  lemma RequestOwesEnqueue(cfg: Config, r: Regime)
    ensures Follows(cfg, r, CREATION)
    ensures var s := After(cfg, CREATION);
            Queues(s, 0, 0) && 0 in s.db.payments && s.db.payments[0].status == Pending
  {
    CreationCommits(cfg, r);
  }

  lemma CutRequestLoses(cfg: Config, r: Regime) returns (run: seq<Label>)
    requires !r.requestsKept
    ensures Follows(cfg, r, run) && IsStranded(After(cfg, run), 0)
  {
    RequestOwesEnqueue(cfg, CAREFUL);
    CarefulRunsAreSafe(cfg, CAREFUL, CREATION, 0);
    CutStrands(cfg, After(cfg, CREATION), 0, 0);
    RequestOwesEnqueue(cfg, r);
    OneMoreLabel(cfg, r, CREATION, Api(0, CutRequest));
    run := CREATION + [Api(0, CutRequest)];
  }

  // ---- A job that dies before its payment is ever claimed ------------------------------------------------

  /** Calls 0 to n - 1, all of them over. */
  function EndedCalls(n: nat): (calls: map<nat, Worker>)
    ensures forall w :: w in calls ==> w < n && calls[w].phase.Ended?
  {
    if n == 0 then map[] else EndedCalls(n - 1)[n - 1 := Worker(0, true, 0, Ended)]
  }

  /** Job 0 has failed `n` times with an error before the claim, and waits for its next attempt. */
  function FailedTimes(cfg: Config, n: nat): State {
    Queued(cfg).(jobs := map[0 := Job(0, Waiting, n, cfg.maxAttempts)], workers := EndedCalls(n))
  }

  function FailingCall(w: nat): seq<Label> {
    [Take(w, 0), Call(w, Break([]))] + [Call(w, Finish)]
  }

  function TakenBy(s: State, w: nat, phase: Phase): State
    requires 0 in s.jobs
  {
    SetJob(s, 0, Active(w)).(workers := s.workers[w := Worker(0, true, s.clock, phase)])
  }

  /** Call `w` takes the job and fails. */
  function JobFailedBy(s: State, w: nat): State
    requires 0 in s.jobs
  {
    var job := CostAttempt(s.jobs[0]);
    s.(jobs := s.jobs[0 := job],
       workers := s.workers[w := Worker(0, true, s.clock, Ended)],
       failures := if job.state.Dead? then s.failures[w := Failure(0, [], true)] else s.failures)
  }

  lemma CallBreaks(cfg: Config, r: Regime, before: seq<Label>, s: State, w: nat)
    requires Follows(cfg, r, before) && After(cfg, before) == s
    requires w !in s.workers && 0 in s.jobs && s.jobs[0].state.Waiting? && s.jobs[0].paymentId == 0
    ensures var run := before + [Take(w, 0), Call(w, Break([]))];
            Follows(cfg, r, run) && After(cfg, run) == TakenBy(s, w, Throwing([]))
  {
    OneMoreLabel(cfg, r, before, Take(w, 0));
    assert After(cfg, before + [Take(w, 0)]) == TakenBy(s, w, Ready);
    BreakThrows(s, w);
    OneMoreLabel(cfg, r, before + [Take(w, 0)], Call(w, Break([])));
    assert before + [Take(w, 0)] + [Call(w, Break([]))] == before + [Take(w, 0), Call(w, Break([]))];
  }

  lemma BreakThrows(s: State, w: nat)
    requires 0 in s.jobs
    ensures CallStep(TakenBy(s, w, Ready), w, Break([])) == TakenBy(s, w, Throwing([]))
  {
  }

  lemma FinishFails(s: State, w: nat)
    requires w !in s.workers && 0 in s.jobs
    ensures CallStep(TakenBy(s, w, Throwing([])), w, Finish) == JobFailedBy(s, w)
  {
  }

  lemma CallFails(cfg: Config, r: Regime, before: seq<Label>, s: State, w: nat)
    requires Follows(cfg, r, before) && After(cfg, before) == s
    requires w !in s.workers && 0 in s.jobs && s.jobs[0].state.Waiting? && s.jobs[0].paymentId == 0
    ensures Follows(cfg, r, before + FailingCall(w)) && After(cfg, before + FailingCall(w)) == JobFailedBy(s, w)
  {
    CallBreaks(cfg, r, before, s, w);
    OneMoreLabel(cfg, r, before + [Take(w, 0), Call(w, Break([]))], Call(w, Finish));
    FinishFails(s, w);
    assert before + [Take(w, 0), Call(w, Break([]))] + [Call(w, Finish)] == before + FailingCall(w);
  }

  lemma {:induction false} FailedTimesReached(cfg: Config, r: Regime, n: nat) returns (run: seq<Label>)
    requires n < cfg.maxAttempts
    ensures Follows(cfg, r, run) && After(cfg, run) == FailedTimes(cfg, n)
  {
    if n == 0 {
      SubmissionQueues(cfg, r);
      run := SUBMISSION;
    } else {
      var before := FailedTimesReached(cfg, r, n - 1);
      CallFails(cfg, r, before, FailedTimes(cfg, n - 1), n - 1);
      RetryIsPromoted(cfg, r, before + FailingCall(n - 1), n);
      run := before + FailingCall(n - 1) + [Promote(0)];
    }
  }

  lemma RetryIsPromoted(cfg: Config, r: Regime, before: seq<Label>, n: nat)
    requires 0 < n < cfg.maxAttempts
    requires Follows(cfg, r, before) && After(cfg, before) == JobFailedBy(FailedTimes(cfg, n - 1), n - 1)
    ensures Follows(cfg, r, before + [Promote(0)]) && After(cfg, before + [Promote(0)]) == FailedTimes(cfg, n)
  {
    PlainSuffix(cfg, r, before, [Promote(0)]);
    RunAppend(cfg, INITIAL, before, [Promote(0)]);
    RunOfOne(cfg, JobFailedBy(FailedTimes(cfg, n - 1), n - 1), Promote(0));
    JobIsPromoted(cfg, n);
  }

  lemma JobIsPromoted(cfg: Config, n: nat)
    requires 0 < n < cfg.maxAttempts
    ensures Step(cfg, JobFailedBy(FailedTimes(cfg, n - 1), n - 1), Promote(0)) == FailedTimes(cfg, n)
  {
  }

  /** Every regime has a run in which only a `failed` event stands for a payment. */
  lemma OnlyFailureRemains(cfg: Config, r: Regime) returns (run: seq<Label>, w: nat)
    ensures w == cfg.maxAttempts - 1
    ensures Follows(cfg, r, run) && After(cfg, run) == JobFailedBy(FailedTimes(cfg, w), w)
    ensures OnlyFailedBy(After(cfg, run), w, 0)
  {
    w := cfg.maxAttempts - 1;
    var before := FailedTimesReached(cfg, r, w);
    CallFails(cfg, r, before, FailedTimes(cfg, w), w);
    run := before + FailingCall(w);
  }

  /** Call `w` has claimed on the job's last attempt, and is on its way out with an error. */
  function LastTry(cfg: Config, phase: Phase): State {
    var w := cfg.maxAttempts - 1;
    var s := ClaimedBy(FailedTimes(cfg, w), w, false);
    s.(workers := s.workers[w := s.workers[w].(phase := phase)])
  }

  lemma LastTryClaims(cfg: Config, r: Regime) returns (run: seq<Label>)
    ensures Follows(cfg, r, run) && After(cfg, run) == LastTry(cfg, Holding(NEW_BILL))
  {
    var w := cfg.maxAttempts - 1;
    var before := FailedTimesReached(cfg, r, w);
    run := TakenAndClaimed(cfg, r, before, FailedTimes(cfg, w), w);
    LastTryHolds(cfg);
  }

  lemma LastTryHolds(cfg: Config)
    ensures LastTry(cfg, Holding(NEW_BILL))
         == ClaimedBy(FailedTimes(cfg, cfg.maxAttempts - 1), cfg.maxAttempts - 1, false)
  {
    var s := ClaimedBy(FailedTimes(cfg, cfg.maxAttempts - 1), cfg.maxAttempts - 1, false);
    assert LastTry(cfg, Holding(NEW_BILL)).workers == s.workers;
  }

  /** Every regime has a run in which a call that has claimed is throwing on its job's last attempt. */
  lemma LastTryBreaks(cfg: Config, r: Regime) returns (run: seq<Label>)
    ensures Follows(cfg, r, run) && After(cfg, run) == LastTry(cfg, Throwing([]))
  {
    var w := cfg.maxAttempts - 1;
    var before := LastTryClaims(cfg, r);
    HolderMayBreak(r, LastTry(cfg, Holding(NEW_BILL)), w);
    OneMoreLabel(cfg, r, before, Call(w, Break([])));
    HolderBreaks(LastTry(cfg, Holding(NEW_BILL)), w);
    run := before + [Call(w, Break([]))];
  }

  lemma HolderMayBreak(r: Regime, s: State, w: nat)
    requires IsHolding(s, w)
    ensures Permits(r, s, Call(w, Break([])))
  {
  }

  lemma HolderBreaks(s: State, w: nat)
    requires IsHolding(s, w)
    ensures CallStep(s, w, Break([])) == s.(workers := s.workers[w := s.workers[w].(phase := Throwing([]))])
  {
  }

  /** A call that throws on its job's last attempt ends; the job is dead, and its failure is due. */
  function JobDiedUnder(s: State, w: nat): State
    requires w in s.workers && 0 in s.jobs
  {
    s.(jobs := s.jobs[0 := CostAttempt(s.jobs[0])],
       workers := s.workers[w := s.workers[w].(phase := Ended)],
       failures := s.failures[w := Failure(0, [], true)])
  }

  ghost predicate ThrowsLast(s: State, w: nat) {
    && OnWorker(s, w, Throwing([])) && s.workers[w].pid == 0
    && Holds(s, w, 0) && s.jobs[0].attempts <= s.jobs[0].attemptsMade + 1
  }

  lemma JobDies(cfg: Config, r: Regime, before: seq<Label>, s: State, w: nat)
    requires Follows(cfg, r, before) && After(cfg, before) == s && ThrowsLast(s, w)
    ensures Follows(cfg, r, before + [Call(w, Finish)]) && After(cfg, before + [Call(w, Finish)]) == JobDiedUnder(s, w)
  {
    PlainIsPermitted(r, s, Call(w, Finish));
    OneMoreLabel(cfg, r, before, Call(w, Finish));
  }

  /** Its failure is handled, and payment 0 fails, whatever it has been doing meanwhile. */
  lemma FailureIsHandled(cfg: Config, r: Regime, before: seq<Label>, s: State, w: nat)
    requires Follows(cfg, r, before) && After(cfg, before) == s
    requires Fails(s, w, 0) && 0 in s.db.payments && !IsTerminal(s.db.payments[0].status)
    ensures Follows(cfg, r, before + [HandleFailed(w)])
    ensures var s' := After(cfg, before + [HandleFailed(w)]);
            && 0 in s'.db.payments && s'.db.payments[0].status == Failed
            && s'.db.payments[0].attempts == s.db.payments[0].attempts
            && s'.db.payments[0].maxAttempts == s.db.payments[0].maxAttempts && s'.db.events == s.db.events
  {
    PlainIsPermitted(r, s, HandleFailed(w));
    OneMoreLabel(cfg, r, before, HandleFailed(w));
  }

  lemma LostFailureLoses(cfg: Config, r: Regime) returns (run: seq<Label>)
    requires !r.failuresHandled
    ensures Follows(cfg, r, run) && IsStranded(After(cfg, run), 0)
  {
    var careful, w := OnlyFailureRemains(cfg, CAREFUL);
    CarefulRunsAreSafe(cfg, CAREFUL, careful, 0);
    LoseStrands(cfg, After(cfg, careful), w, 0);
    run, w := OnlyFailureRemains(cfg, r);
    OneMoreLabel(cfg, r, run, LoseFailed(w));
    run := run + [LoseFailed(w)];
  }

  // ---- A sweep cut off before its enqueue --------------------------------------------------------------

  /** The dead claim is released, and the sweep has removed the stalled job. */
  function JobRemoved(cfg: Config): State {
    ReleasedBy(DeadClaim(cfg), 0).(jobs := map[], sweeps := map[0 := Sweep({}, MustEnqueue(0))])
  }

  /** Every regime has a run in which only a sweep stands for a payment. */
  lemma OnlySweepRemains(cfg: Config, r: Regime) returns (run: seq<Label>)
    requires 2 <= cfg.maxAttempts
    ensures Follows(cfg, r, run) && After(cfg, run) == JobRemoved(cfg)
    ensures OnlyRequeuedBy(After(cfg, run), 0, 0)
  {
    var s := DeadClaim(cfg);
    var dead := DeadClaimReached(cfg, r);
    ClaimIsStale(cfg);
    var released := SweptNow(cfg, r, dead, s);
    Stalled(cfg, r, released, ReleasedBy(s, 0));
    StalledJobIsCleared(cfg, r, released + [Stall(0)]);
    run := released + [Stall(0)] + [Reconcile(0, Clear)];
  }

  lemma StalledJobIsCleared(cfg: Config, r: Regime, before: seq<Label>)
    requires Follows(cfg, r, before) && After(cfg, before) == SetJob(ReleasedBy(DeadClaim(cfg), 0), 0, Waiting)
    ensures Follows(cfg, r, before + [Reconcile(0, Clear)])
        && After(cfg, before + [Reconcile(0, Clear)]) == JobRemoved(cfg)
  {
    OneMoreLabel(cfg, r, before, Reconcile(0, Clear));
    assert SetJob(ReleasedBy(DeadClaim(cfg), 0), 0, Waiting).jobs - {0} == map[];
  }

  lemma CutSweepLoses(cfg: Config, r: Regime) returns (run: seq<Label>)
    requires 2 <= cfg.maxAttempts && !r.handoffsKept
    ensures Follows(cfg, r, run) && IsStranded(After(cfg, run), 0)
  {
    var careful := OnlySweepRemains(cfg, CAREFUL);
    CarefulRunsAreSafe(cfg, CAREFUL, careful, 0);
    CutSweepStrands(cfg, After(cfg, careful), 0, 0);
    run := OnlySweepRemains(cfg, r);
    OneMoreLabel(cfg, r, run, Reconcile(0, CutSweep));
    run := run + [Reconcile(0, CutSweep)];
  }

  // ---- A sweep that cannot remove the job ----------------------------------------------------------------

  /** Call 1 has taken the stalled job of the dead claim, found the row Processing, and is about to complete the job. */
  function BailingOut(cfg: Config): State {
    TakenOver(cfg, Returning)
  }

  lemma BailingOutReached(cfg: Config, r: Regime) returns (run: seq<Label>)
    ensures Follows(cfg, r, run) && After(cfg, run) == BailingOut(cfg)
  {
    var s := DeadClaim(cfg);
    var dead := DeadClaimReached(cfg, r);
    Stalled(cfg, r, dead, s);
    run := dead + [Stall(0)] + Claiming(1);
    TakeAndClaimFollow(cfg, r, dead + [Stall(0)], 1, 0);
    RunAppend(cfg, INITIAL, dead + [Stall(0)], Claiming(1));
    ClaimBailsOut(cfg);
  }

  /** Call 1 holds the stalled job of the dead claim. */
  function TakenOver(cfg: Config, phase: Phase): State {
    DeadClaim(cfg).(
      jobs := map[0 := Job(0, Active(1), 0, cfg.maxAttempts)],
      workers := map[0 := Worker(0, true, 0, Ended), 1 := Worker(0, true, cfg.staleMs + 1, phase)])
  }

  lemma ClaimBailsOut(cfg: Config)
    ensures Run(cfg, SetJob(DeadClaim(cfg), 0, Waiting), Claiming(1)) == BailingOut(cfg)
  {
    RunOfTwo(cfg, SetJob(DeadClaim(cfg), 0, Waiting), Take(1, 0), Call(1, Claim));
    TakeStep(cfg);
    ClaimStep(cfg);
  }

  lemma TakeStep(cfg: Config)
    ensures Step(cfg, SetJob(DeadClaim(cfg), 0, Waiting), Take(1, 0)) == TakenOver(cfg, Ready)
  {
  }

  lemma ClaimStep(cfg: Config)
    ensures CallStep(TakenOver(cfg, Ready), 1, Claim) == TakenOver(cfg, Returning)
  {
    var payments := DeadClaim(cfg).db.payments;
    assert payments[0 := payments[0]] == payments;
  }

  /** Every regime has a run in which a call past its claim holds the job a sweep is about to remove. */
  lemma SlowCallRemains(cfg: Config, r: Regime) returns (run: seq<Label>)
    requires 2 <= cfg.maxAttempts
    ensures Follows(cfg, r, run) && After(cfg, run) == ReleasedBy(BailingOut(cfg), 0)
    ensures SlowlyCalled(After(cfg, run), 0, 1, 0)
  {
    var s := BailingOut(cfg);
    run := BailingOutReached(cfg, r);
    assert StaleIds(s.db.payments, s.clock - cfg.staleMs) == {0};
    run := SweptNow(cfg, r, run, s);
  }

  lemma BlockedClearLoses(cfg: Config, r: Regime) returns (run: seq<Label>)
    requires 2 <= cfg.maxAttempts && !r.clearsFree
    ensures Follows(cfg, r, run) && IsStranded(After(cfg, run), 0)
  {
    var handoff := [Reconcile(0, Clear), Reconcile(0, Requeue)];
    var careful := SlowCallRemains(cfg, CAREFUL);
    var before := SlowCallRemains(cfg, r);
    var s := After(cfg, before);
    CarefulRunsAreSafe(cfg, CAREFUL, careful, 0);
    SweepDooms(cfg, s, 0, 1, 0);
    HandoffIsPermitted(cfg, r, before);
    RunAppend(cfg, INITIAL, before, handoff);
    run := before + handoff + [Call(1, Finish)];
    OneMoreLabel(cfg, r, before + handoff, Call(1, Finish));
    JobsAreForTheirPayments(cfg, before + handoff);
    LastStepStrands(cfg, Run(cfg, s, handoff), 1, 0);
  }

  lemma LastStepStrands(cfg: Config, s: State, w: nat, p: nat)
    requires Named(s) && Doomed(s, w, p) && OnWorker(s, w, Returning)
    ensures IsStranded(Step(cfg, s, Call(w, Finish)), p)
  {
    DoomedStays(cfg, s, Call(w, Finish), w, p);
    DoomedCallMoves(cfg, s, Call(w, Finish), w, p);
  }

  lemma ClearIsPermitted(r: Regime, s: State, k: nat)
    requires !r.clearsFree
    ensures Permits(r, s, Reconcile(k, Clear))
  {
  }

  lemma HandoffIsPermitted(cfg: Config, r: Regime, before: seq<Label>)
    requires Follows(cfg, r, before) && !r.clearsFree
    ensures Follows(cfg, r, before + [Reconcile(0, Clear), Reconcile(0, Requeue)])
  {
    ClearIsPermitted(r, After(cfg, before), 0);
    OneMoreLabel(cfg, r, before, Reconcile(0, Clear));
    PlainSuffix(cfg, r, before + [Reconcile(0, Clear)], [Reconcile(0, Requeue)]);
    assert before + [Reconcile(0, Clear)] + [Reconcile(0, Requeue)]
        == before + [Reconcile(0, Clear), Reconcile(0, Requeue)];
  }

  function DroppedCharge(w: nat, ref: string): seq<Label> {
    [Call(w, CallGateway(true)), Call(w, Answer(Charged(ref)))] + [Call(w, Settle), Call(w, Finish)]
  }

  /** The slow call of OverdueReleased: its charge is confirmed, and nothing is left to pull the payment. */
  lemma ConfirmedChargeIsLost(cfg: Config, ref: string) returns (run: seq<Label>)
    requires 2 <= cfg.maxAttempts
    ensures Call(0, Answer(Charged(ref))) in run && IsStranded(After(cfg, run), 0)
  {
    var before := OverdueReleased(cfg, CAREFUL);
    CarefulRunsAreSafe(cfg, CAREFUL, before, 0);
    JobsAreForTheirPayments(cfg, before);
    OverdueIsSlowlyCalled(cfg);
    DroppedChargeStrands(cfg, ReleasedBy(Overdue(cfg), 0), ref);
    var more := [Reconcile(0, Clear), Reconcile(0, Requeue)] + DroppedCharge(0, ref);
    run := before + more;
    RunAppend(cfg, INITIAL, before, more);
    assert more[3] in run;
  }

  lemma OverdueIsSlowlyCalled(cfg: Config)
    requires 2 <= cfg.maxAttempts
    ensures SlowlyCalled(ReleasedBy(Overdue(cfg), 0), 0, 0, 0) && IsHolding(ReleasedBy(Overdue(cfg), 0), 0)
  {
  }

  lemma DroppedChargeStrands(cfg: Config, s: State, ref: string)
    requires Named(s) && Locked(s) && Fresh(s, 0) && SlowlyCalled(s, 0, 0, 0) && IsHolding(s, 0)
    ensures IsStranded(Run(cfg, s, [Reconcile(0, Clear), Reconcile(0, Requeue)] + DroppedCharge(0, ref)), 0)
  {
    var handoff := [Reconcile(0, Clear), Reconcile(0, Requeue)];
    SweepDooms(cfg, s, 0, 0, 0);
    RunKeepsNamed(cfg, s, handoff);
    RunAppend(cfg, s, handoff, DroppedCharge(0, ref));
    DoomedForever(cfg, Run(cfg, s, handoff), DroppedCharge(0, ref), 0, 0);
    DoomedCallEnds(cfg, Run(cfg, s, handoff), 0, 0, ref);
  }

  lemma DoomedCallEnds(cfg: Config, s: State, w: nat, p: nat, ref: string)
    requires Doomed(s, w, p) && IsHolding(s, w)
    ensures !Live(Run(cfg, s, DroppedCharge(w, ref)), w)
  {
    var asked := [Call(w, CallGateway(true)), Call(w, Answer(Charged(ref)))];
    var dropped := [Call(w, Settle), Call(w, Finish)];
    RunAppend(cfg, s, asked, dropped);
    ChargeIsHeard(cfg, s, w, ref);
    var s1 := s.(workers := s.workers[w := s.workers[w].(phase := Answered(Charged(ref)))]);
    RunOfTwo(cfg, s1, Call(w, Settle), Call(w, Finish));
    DroppedCallEnds(s1, w, ref);
  }

  lemma ChargeIsHeard(cfg: Config, s: State, w: nat, ref: string)
    requires IsHolding(s, w)
    ensures Run(cfg, s, [Call(w, CallGateway(true)), Call(w, Answer(Charged(ref)))])
            == s.(workers := s.workers[w := s.workers[w].(phase := Answered(Charged(ref)))])
  {
    RunOfTwo(cfg, s, Call(w, CallGateway(true)), Call(w, Answer(Charged(ref))));
  }

  lemma DroppedCallEnds(s: State, w: nat, ref: string)
    requires OnWorker(s, w, Answered(Charged(ref))) && H.StatusOf(RowOf(s.db, s.workers[w].pid), Pending)
    ensures OnWorker(CallStep(CallStep(s, w, Settle), w, Finish), w, Ended)
  {
  }

  // ---- A call beside the job's own -----------------------------------------------------------------------

  lemma UnheldCallLoses(cfg: Config, r: Regime, before: seq<Label>, s: State) returns (run: seq<Label>)
    requires Follows(cfg, r, before) && After(cfg, before) == s && ChargedUnheld(s, 0, 0) && 1 !in s.workers
    ensures Follows(cfg, r, run) && IsStranded(After(cfg, run), 0)
  {
    BailOutStrands(cfg, s, 0, 1, 0);
    run := before + (BailOut(1, 0) + TimingOut(0));
    RunAppend(cfg, INITIAL, before, BailOut(1, 0) + TimingOut(0));
    BailOutFollows(cfg, r, before, s);
    assert run == before + BailOut(1, 0) + TimingOut(0);
    RunAppend(cfg, INITIAL, before, BailOut(1, 0));
    BailOutTakesTheJob(cfg, s, 0, 1, 0);
    TimeOutFollows(cfg, r, before + BailOut(1, 0), 0);
  }

  lemma BailOutFollows(cfg: Config, r: Regime, before: seq<Label>, s: State)
    requires Follows(cfg, r, before) && After(cfg, before) == s && ChargedUnheld(s, 0, 0) && 1 !in s.workers
    ensures Follows(cfg, r, before + BailOut(1, 0))
  {
    TakeAndClaimFollow(cfg, r, before, 1, 0);
    PlainSuffix(cfg, r, before + [Take(1, 0), Call(1, Claim)], [Call(1, Finish)]);
    assert before + [Take(1, 0), Call(1, Claim)] + [Call(1, Finish)] == before + BailOut(1, 0);
  }

  lemma TimeOutFollows(cfg: Config, r: Regime, before: seq<Label>, v: nat)
    requires Follows(cfg, r, before) && IsHolding(After(cfg, before), v)
    ensures Follows(cfg, r, before + TimingOut(v))
  {
    var asked := before + [Call(v, CallGateway(false))];
    PlainIsPermitted(r, After(cfg, before), Call(v, CallGateway(false)));
    OneMoreLabel(cfg, r, before, Call(v, CallGateway(false)));
    UnchargedMayTimeOut(r, After(cfg, asked), v);
    FollowsOneMore(cfg, r, asked, Call(v, Answer(TIMEOUT)));
    PlainSuffix(cfg, r, asked + [Call(v, Answer(TIMEOUT))], [Call(v, Settle), Call(v, Finish)]);
    assert asked + [Call(v, Answer(TIMEOUT))] + [Call(v, Settle), Call(v, Finish)] == before + TimingOut(v);
  }

  lemma UnchargedMayTimeOut(r: Regime, s: State, v: nat)
    requires OnWorker(s, v, Calling(false))
    ensures Permits(r, s, Call(v, Answer(TIMEOUT)))
  {
  }

  /** process() is called directly, while the job is still waiting. */
  lemma DirectCallLoses(cfg: Config, r: Regime) returns (run: seq<Label>)
    requires 2 <= cfg.maxAttempts && !r.queueOnly
    ensures Follows(cfg, r, run) && IsStranded(After(cfg, run), 0)
  {
    SubmissionQueues(cfg, r);
    run := DirectlyClaimed(cfg, r, SUBMISSION, Queued(cfg), 0);
    DirectClaimIsUnheld(cfg);
    run := UnheldCallLoses(cfg, r, run, ClaimedBy(Queued(cfg), 0, true));
  }

  lemma DirectClaimIsUnheld(cfg: Config)
    requires 2 <= cfg.maxAttempts
    ensures ChargedUnheld(ClaimedBy(Queued(cfg), 0, true), 0, 0)
  {
  }

  /** The job of a live call is declared stalled, and taken by another. */
  lemma LiveStallLoses(cfg: Config, r: Regime) returns (run: seq<Label>)
    requires 2 <= cfg.maxAttempts && !r.stallsDead
    ensures Follows(cfg, r, run) && IsStranded(After(cfg, run), 0)
  {
    run := FirstClaimReached(cfg, r);
    Stalled(cfg, r, run, FirstClaim(cfg));
    run := UnheldCallLoses(cfg, r, run + [Stall(0)], SetJob(FirstClaim(cfg), 0, Waiting));
  }

  // ---- One attempt ---------------------------------------------------------------------------------------

  /** With a budget of one attempt a Pending payment has never been claimed: its job lives, or its failure is filed. */
  ghost predicate Unclaimed(s: State, p: nat) {
    p in s.db.payments && s.db.payments[p].status == Pending ==>
      && (p in s.jobs || exists c :: Queues(s, c, p))
      && (p in s.jobs && s.jobs[p].state.Dead? ==> exists w :: Fails(s, w, p))
      && (forall w :: Holds(s, w, p) ==> HasNotClaimed(s, w, p))
  }

  predicate HasNotClaimed(s: State, w: nat, p: nat) {
    w in s.workers && s.workers[w].pid == p
        && (s.workers[w].phase.Ready? || s.workers[w].phase.Throwing? || s.workers[w].phase.Ended?)
  }

  ghost predicate NoHandoffs(s: State, p: nat) {
    forall k :: !Clears(s, k, p) && !Requeues(s, k, p)
  }

  lemma StepKeepsNoHandoffs(cfg: Config, s: State, l: Label, p: nat)
    requires cfg.maxAttempts == 1 && RowsSound(cfg, s) && NoHandoffs(s, p)
    ensures NoHandoffs(Step(cfg, s, l), p)
  {
    forall k
      ensures !Clears(Step(cfg, s, l), k, p) && !Requeues(Step(cfg, s, l), k, p)
    {
      HandoffsMove(cfg, s, l, k, p);
    }
  }

  lemma PendingIsNewOrOld(cfg: Config, s: State, l: Label, p: nat)
    requires cfg.maxAttempts == 1 && RowsSound(cfg, s)
    requires p in Step(cfg, s, l).db.payments && Step(cfg, s, l).db.payments[p].status == Pending
    ensures if p in s.db.payments then s.db.payments[p].status == Pending && !ClaimsRow(cfg, s, l, p)
            else l.Api? && Inserts(s, l.c, l.apiAct) && l.apiAct.id == p
  {
    StepIsAWrite(cfg, s, l, p);
  }

  /** A job leaves the queue when its call returns, or when a sweep removes it. */
  lemma JobLeavesTwoWays(s: State, l: Label, p: nat)
    ensures JobEventOf(s, l, p).Done? ==> exists w :: Holds(s, w, p) && OnWorker(s, w, Returning)
    ensures JobEventOf(s, l, p).Removed? ==> exists k :: Clears(s, k, p)
  {
    if l.Reconcile? && JobEventOf(s, l, p).Removed? { assert Clears(s, l.k, p); }
    if l.Call? && JobEventOf(s, l, p).Done? { assert Holds(s, l.w, p) && OnWorker(s, l.w, Returning); }
  }

  lemma JobOrRequestStays(cfg: Config, s: State, l: Label, p: nat)
    requires RefersToRows(s) && NoHandoffs(s, p) && KeepsRequest(s, l)
    requires p in s.db.payments && s.db.payments[p].status == Pending && Unclaimed(s, p)
    ensures p in Step(cfg, s, l).jobs || exists c :: Queues(Step(cfg, s, l), c, p)
  {
    JobsMove(cfg, s, l, p);
    if p in s.jobs {
      JobLeavesTwoWays(s, l, p);
    } else {
      var c :| Queues(s, c, p);
      RequestSurvives(cfg, s, l, c, p);
    }
  }

  lemma RequestSurvives(cfg: Config, s: State, l: Label, c: nat, p: nat)
    requires Queues(s, c, p) && KeepsRequest(s, l) && p in s.db.payments
    ensures Queues(Step(cfg, s, l), c, p) || p in Step(cfg, s, l).jobs
  {
  }

  lemma HoldersHaveNotClaimed(cfg: Config, s: State, l: Label, p: nat, w: nat)
    requires Unclaimed(s, p) && p in s.db.payments && s.db.payments[p].status == Pending && !ClaimsRow(cfg, s, l, p)
    requires Named(s) && Holds(Step(cfg, s, l), w, p)
    ensures HasNotClaimed(Step(cfg, s, l), w, p)
  {
    JobsMove(cfg, s, l, p);
    assert Holds(s, w, p) || l == Take(w, p);
    if Holds(s, w, p) { assert HasNotClaimed(s, w, p); WorkersStay(cfg, s, l, w); }
    WorkersMove(cfg, s, l, w);
  }

  lemma DeadJobsFail(cfg: Config, s: State, l: Label, p: nat)
    requires Unclaimed(s, p) && p in s.db.payments && s.db.payments[p].status == Pending
    requires FailuresFiled(s) && !l.LoseFailed?
    requires p in Step(cfg, s, l).db.payments && Step(cfg, s, l).db.payments[p].status == Pending
    requires p in Step(cfg, s, l).jobs && Step(cfg, s, l).jobs[p].state.Dead?
    ensures exists w :: Fails(Step(cfg, s, l), w, p)
  {
    JobsMove(cfg, s, l, p);
    if JobEventOf(s, l, p) == AttemptLost {
      LastAttemptFails(cfg, s, l, p);
    } else {
      var w :| Fails(s, w, p);
      DueFailureStays(cfg, s, l, p, w);
    }
  }

  lemma LastAttemptFails(cfg: Config, s: State, l: Label, p: nat)
    requires JobEventOf(s, l, p) == AttemptLost && p in Step(cfg, s, l).jobs && Step(cfg, s, l).jobs[p].state.Dead?
    ensures exists w :: Fails(Step(cfg, s, l), w, p)
  {
    assert Fails(Step(cfg, s, l), l.w, p);
  }

  /** A failure is due until it is handled, and that settles the row. */
  lemma DueFailureStays(cfg: Config, s: State, l: Label, p: nat, w: nat)
    requires FailuresFiled(s) && !l.LoseFailed? && Fails(s, w, p)
    requires p in Step(cfg, s, l).db.payments && Step(cfg, s, l).db.payments[p].status == Pending
    ensures Fails(Step(cfg, s, l), w, p)
  {
    StepIsAWrite(cfg, s, l, p);
    FailuresMove(cfg, s, l, w, p);
    assert FailureFiled(s, w);
  }

  lemma StepKeepsUnclaimed(cfg: Config, s: State, l: Label, p: nat)
    requires cfg.maxAttempts == 1 && RowsSound(cfg, s) && RefersToRows(s) && FailuresFiled(s) && NoHandoffs(s, p)
    requires KeepsRequest(s, l) && !l.LoseFailed?
    requires Named(s) && Unclaimed(s, p)
    ensures Unclaimed(Step(cfg, s, l), p)
  {
    var s' := Step(cfg, s, l);
    if p in s'.db.payments && s'.db.payments[p].status == Pending {
      PendingIsNewOrOld(cfg, s, l, p);
      if p in s.db.payments {
        JobOrRequestStays(cfg, s, l, p);
        if p in s'.jobs && s'.jobs[p].state.Dead? { DeadJobsFail(cfg, s, l, p); }
        forall w | Holds(s', w, p) ensures HasNotClaimed(s', w, p) { HoldersHaveNotClaimed(cfg, s, l, p, w); }
      } else {
        JobsMove(cfg, s, l, p);
        assert Queues(s', l.c, p);
      }
    }
  }

  lemma {:induction false} OneAttemptStaysUnclaimed(cfg: Config, r: Regime, run: seq<Label>, p: nat)
    requires cfg.maxAttempts == 1 && Follows(cfg, r, run) && r.requestsKept && r.failuresHandled
    ensures var s := After(cfg, run); RefersToRows(s) && FailuresFiled(s) && NoHandoffs(s, p) && Unclaimed(s, p)
  {
    if |run| > 0 {
      var before, l := run[..|run| - 1], run[|run| - 1];
      var s := After(cfg, before);
      OneAttemptStaysUnclaimed(cfg, r, before, p);
      ReachableRowsSound(cfg, before);
      StepKeepsRefersToRows(cfg, s, l);
      StepKeepsFailuresFiled(cfg, s, l);
      StepKeepsNoHandoffs(cfg, s, l, p);
      JobsAreForTheirPayments(cfg, before);
      StepKeepsUnclaimed(cfg, s, l, p);
    }
  }

  // ---- The exact condition ---------------------------------------------------------------------------------

  /** What it takes: with one attempt much less, since no retry and no recovery makes the row Pending again. */
  predicate Lossless(cfg: Config, r: Regime) {
    && r.requestsKept && r.failuresHandled
    && (cfg.maxAttempts == 1 || (r.queueOnly && r.stallsDead && r.handoffsKept && r.clearsFree))
  }

  lemma NothingStrandedUnder(cfg: Config, r: Regime, run: seq<Label>, p: nat)
    requires Lossless(cfg, r) && Follows(cfg, r, run)
    ensures !IsStranded(After(cfg, run), p)
  {
    if Careful(r) {
      CarefulRunsAreSafe(cfg, r, run, p);
    } else {
      OneAttemptStaysUnclaimed(cfg, r, run, p);
    }
  }

  lemma SomethingStrandedUnder(cfg: Config, r: Regime) returns (run: seq<Label>)
    requires !Lossless(cfg, r)
    ensures Follows(cfg, r, run) && IsStranded(After(cfg, run), 0)
  {
    if !r.requestsKept {
      run := CutRequestLoses(cfg, r);
    } else if !r.failuresHandled {
      run := LostFailureLoses(cfg, r);
    } else if !r.queueOnly {
      run := DirectCallLoses(cfg, r);
    } else if !r.stallsDead {
      run := LiveStallLoses(cfg, r);
    } else if !r.handoffsKept {
      run := CutSweepLoses(cfg, r);
    } else {
      run := BlockedClearLoses(cfg, r);
    }
  }

  /**
   * Under any regime, whatever it says about time and sweeps, no run strands a payment exactly when the regime
   * is lossless.
   */
  lemma NoPaymentIsStrandedExactly(cfg: Config, r: Regime)
    ensures (forall run, p :: Follows(cfg, r, run) ==> !IsStranded(After(cfg, run), p)) <==> Lossless(cfg, r)
  {
    if Lossless(cfg, r) {
      forall run, p | Follows(cfg, r, run) ensures !IsStranded(After(cfg, run), p) {
        NothingStrandedUnder(cfg, r, run, p);
      }
    } else {
      var run := SomethingStrandedUnder(cfg, r);
    }
  }
}
