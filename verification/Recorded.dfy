/** When a charge that the provider has confirmed is sure to be recorded. */
module Recorded {
  import opened StateMachine
  import opened Rows
  import H = RowHistory
  import opened Tables
  import opened Queue
  import opened Protocol
  import opened SystemRows
  import opened InFlight
  import opened Regimes
  import opened JobLock
  import opened Exclusivity
  import opened NoLoss
  import opened Witness
  import opened Sharpness
  import opened Overlap
  import opened Confirmed
  import opened Loss
  import opened Ledger

  /** A callback has been processed that reported payment `p` as failed. */
  ghost predicate FailedByCallback(db: Db, p: nat) {
    exists i :: 0 <= i < |db.events| && IsReport(db.events[i], p, Failed)
  }

  /** The provider has confirmed a charge, the row says FAILED, and no callback has said so. */
  ghost predicate ChargedYetFailed(cfg: Config, run: seq<Label>, p: nat) {
    && 0 < ConfirmationsOf(cfg, run, p)
    && H.StatusOf(RowOf(After(cfg, run).db, p), Failed)
    && !FailedByCallback(After(cfg, run).db, p)
  }

  // ---- Nothing fails a row under a live call -----------------------------------------------------------

  /** While a call is in flight, its row is not Failed, and no failure event threatens it. */
  ghost predicate Unthreatened(s: State, p: nat) {
    InFlightOn(s, p) != {} ==>
      && p in s.db.payments && s.db.payments[p].status != Failed
      && (forall v :: !Fails(s, v, p))
  }

  /** The steps that threaten no call: a claim finds no failure due, and a recovery no call in flight. */
  ghost predicate Harmless(cfg: Config, s: State, l: Label, p: nat) {
    && (ClaimsRow(cfg, s, l, p) ==> forall v :: !Fails(s, v, p))
    && (WriteTo(cfg, s, l, p).Recovered? && H.StatusOf(RowOf(s.db, p), Processing) ==> InFlightOn(s, p) == {})
    && !FailedByCallback(Step(cfg, s, l).db, p)
  }

  lemma FailedReportIsFiled(cfg: Config, s: State, l: Label, p: nat)
    ensures WriteTo(cfg, s, l, p).Reported? && WriteTo(cfg, s, l, p).status == Failed ==>
              FailedByCallback(Step(cfg, s, l).db, p)
  {
    var events := Step(cfg, s, l).db.events;
    if WriteTo(cfg, s, l, p).Reported? && WriteTo(cfg, s, l, p).status == Failed {
      assert IsReport(events[|s.db.events|], p, Failed);
    }
  }

  /** With one live call per payment, a settle is the settle of the call in flight. */
  lemma SettleIsOwn(cfg: Config, s: State, l: Label, p: nat, w: nat)
    requires Locked(s) && w in InFlightOn(s, p)
    ensures WriteTo(cfg, s, l, p).Settled? ==> l.w == w
  {
    assert Live(s, w) && Holds(s, w, p);
    if WriteTo(cfg, s, l, p).Settled? {
      assert Live(s, l.w) && Holds(s, l.w, p);
    }
  }

  lemma GivenUpIsDue(cfg: Config, s: State, l: Label, p: nat)
    ensures WriteTo(cfg, s, l, p).GivenUp? ==> exists v :: Fails(s, v, p)
  {
    if WriteTo(cfg, s, l, p).GivenUp? { assert Fails(s, l.w, p); }
  }

  /** No write fails the row of a call that stays in flight. */
  lemma RowIsNotFailed(cfg: Config, s: State, l: Label, p: nat, w: nat)
    requires Locked(s) && Unthreatened(s, p) && Harmless(cfg, s, l, p)
    requires w in InFlightOn(s, p) && w in InFlightOn(Step(cfg, s, l), p)
    ensures p in Step(cfg, s, l).db.payments && Step(cfg, s, l).db.payments[p].status != Failed
  {
    StepIsAWrite(cfg, s, l, p);
    InFlightMoves(cfg, s, l, p);
    SettleIsOwn(cfg, s, l, p, w);
    GivenUpIsDue(cfg, s, l, p);
    FailedReportIsFiled(cfg, s, l, p);
  }

  /** No job of a payment dies while another call on it is in flight. */
  lemma NoFailureArises(cfg: Config, s: State, l: Label, p: nat, w: nat, v: nat)
    requires Locked(s) && w in InFlightOn(s, p) && Fails(Step(cfg, s, l), v, p)
    ensures Fails(s, v, p)
  {
    FailuresMove(cfg, s, l, v, p);
    assert Live(s, w);
    assert Holds(s, w, p);
  }

  lemma StepKeepsUnthreatened(cfg: Config, s: State, l: Label, p: nat)
    requires Locked(s) && Unthreatened(s, p) && Harmless(cfg, s, l, p)
    ensures Unthreatened(Step(cfg, s, l), p)
  {
    var s' := Step(cfg, s, l);
    InFlightMoves(cfg, s, l, p);
    if w :| w in InFlightOn(s', p) && w in InFlightOn(s, p) {
      RowIsNotFailed(cfg, s, l, p, w);
      forall v ensures !Fails(s', v, p) { if Fails(s', v, p) { NoFailureArises(cfg, s, l, p, w, v); } }
    } else if InFlightOn(s', p) != {} {
      ClaimIsUnthreatened(cfg, s, l, p);
    }
  }

  lemma ClaimIsUnthreatened(cfg: Config, s: State, l: Label, p: nat)
    requires ClaimsRow(cfg, s, l, p) && Harmless(cfg, s, l, p)
    ensures Unthreatened(Step(cfg, s, l), p)
  {
    StepIsAWrite(cfg, s, l, p);
    forall v ensures !Fails(Step(cfg, s, l), v, p) { FailuresMove(cfg, s, l, v, p); }
  }

  // ---- One attempt: a failure leaves no job that could claim -----------------------------------------------

  ghost predicate FailuresAreFinal(s: State, p: nat) {
    forall v :: Fails(s, v, p) ==> p in s.jobs && s.jobs[p].state.Dead?
  }

  lemma DeadJobStays(cfg: Config, s: State, l: Label, p: nat)
    requires NoHandoffs(s, p) && p in s.jobs && s.jobs[p].state.Dead?
    ensures p in Step(cfg, s, l).jobs && Step(cfg, s, l).jobs[p].state.Dead?
  {
    JobsMove(cfg, s, l, p);
    JobLeavesTwoWays(s, l, p);
  }

  lemma NewFailureIsOfDeadJob(cfg: Config, s: State, l: Label, p: nat, v: nat)
    requires Fails(Step(cfg, s, l), v, p) && !Fails(s, v, p)
    ensures p in Step(cfg, s, l).jobs && Step(cfg, s, l).jobs[p].state.Dead?
  {
  }

  lemma StepKeepsFailuresFinal(cfg: Config, s: State, l: Label, p: nat)
    requires NoHandoffs(s, p) && FailuresAreFinal(s, p)
    ensures FailuresAreFinal(Step(cfg, s, l), p)
  {
    forall v | Fails(Step(cfg, s, l), v, p)
      ensures p in Step(cfg, s, l).jobs && Step(cfg, s, l).jobs[p].state.Dead?
    {
      if Fails(s, v, p) {
        DeadJobStays(cfg, s, l, p);
      } else {
        NewFailureIsOfDeadJob(cfg, s, l, p, v);
      }
    }
  }

  lemma DeadJobIsNotClaimed(cfg: Config, s: State, l: Label, p: nat)
    requires Locked(s) && FailuresAreFinal(s, p) && ClaimsRow(cfg, s, l, p)
    ensures forall v :: !Fails(s, v, p)
  {
    assert Live(s, l.w);
    assert Holds(s, l.w, p);
  }

  // ---- The regimes that keep the record ----------------------------------------------------------------------

  /** In time, no confirmed answer lost, one call per payment, and no late failure event that could strike it. */
  predicate KeepsRecord(cfg: Config, r: Regime) {
    && r.bound.Some? && r.bound.value <= cfg.staleMs && r.answersKept && Serial(r)
    && (cfg.maxAttempts == 1 || (r.oneSweep && r.failuresFirst))
  }

  lemma RecoveryFindsNoCall(cfg: Config, r: Regime, run: seq<Label>, l: Label, p: nat)
    requires Follows(cfg, r, run) && KeepsRecord(cfg, r)
    requires WriteTo(cfg, After(cfg, run), l, p).Recovered? && H.StatusOf(RowOf(After(cfg, run).db, p), Processing)
    ensures InFlightOn(After(cfg, run), p) == {}
  {
    RecoveriesAreListed(cfg, After(cfg, run), l, p);
    if cfg.maxAttempts == 1 {
      TwoAttemptsStayOrderly(cfg, r, run, p);
      ReachableRowsSound(cfg, run);
    } else {
      TimedRunsAreTidy(cfg, r, run, p);
    }
  }

  lemma {:induction false} OneAttemptFailsForGood(cfg: Config, run: seq<Label>, p: nat)
    requires cfg.maxAttempts == 1
    ensures NoHandoffs(After(cfg, run), p) && FailuresAreFinal(After(cfg, run), p)
  {
    if |run| > 0 {
      var before, l := run[..|run| - 1], run[|run| - 1];
      OneAttemptFailsForGood(cfg, before, p);
      ReachableRowsSound(cfg, before);
      StepKeepsNoHandoffs(cfg, After(cfg, before), l, p);
      StepKeepsFailuresFinal(cfg, After(cfg, before), l, p);
    }
  }

  lemma PermittedIsHarmless(cfg: Config, r: Regime, run: seq<Label>, l: Label, p: nat)
    requires Follows(cfg, r, run) && KeepsRecord(cfg, r) && Permits(r, After(cfg, run), l)
    requires !FailedByCallback(Step(cfg, After(cfg, run), l).db, p)
    ensures Harmless(cfg, After(cfg, run), l, p)
  {
    var s := After(cfg, run);
    if ClaimsRow(cfg, s, l, p) && cfg.maxAttempts == 1 {
      SerialRunsAreLocked(cfg, r, run);
      OneAttemptFailsForGood(cfg, run, p);
      DeadJobIsNotClaimed(cfg, s, l, p);
    }
    if WriteTo(cfg, s, l, p).Recovered? && H.StatusOf(RowOf(s.db, p), Processing) {
      RecoveryFindsNoCall(cfg, r, run, l, p);
    }
  }

  lemma ReportsAreKept(cfg: Config, s: State, l: Label, p: nat)
    requires FailedByCallback(s.db, p)
    ensures FailedByCallback(Step(cfg, s, l).db, p)
  {
    var i :| 0 <= i < |s.db.events| && IsReport(s.db.events[i], p, Failed);
    StepKeepsEvent(cfg, s, l, i);
  }

  lemma {:induction false} CallsAreUnthreatened(cfg: Config, r: Regime, run: seq<Label>, p: nat)
    requires Follows(cfg, r, run) && KeepsRecord(cfg, r) && !FailedByCallback(After(cfg, run).db, p)
    ensures Unthreatened(After(cfg, run), p)
  {
    if |run| > 0 {
      var before, l := run[..|run| - 1], run[|run| - 1];
      if FailedByCallback(After(cfg, before).db, p) { ReportsAreKept(cfg, After(cfg, before), l, p); }
      CallsAreUnthreatened(cfg, r, before, p);
      SerialRunsAreLocked(cfg, r, before);
      PermittedIsHarmless(cfg, r, before, l, p);
      StepKeepsUnthreatened(cfg, After(cfg, before), l, p);
    }
  }

  // ---- The record ----------------------------------------------------------------------------------------

  /** The row is SUCCESS, or still Processing with the confirmed call there to settle it. */
  ghost predicate IsRecorded(s: State, p: nat) {
    && p in s.db.payments
    && (s.db.payments[p].status == Success || (s.db.payments[p].status == Processing && HasConfirmedCall(s, p)))
  }

  ghost predicate HasConfirmedCall(s: State, p: nat) {
    exists w :: w in InFlightOn(s, p) && HoldsConfirmation(s.workers[w])
  }

  lemma ConfirmationIsRecorded(cfg: Config, s: State, l: Label, p: nat)
    requires ConfirmsCharge(s, l, p) && Sealed(Step(cfg, s, l), p) && Unthreatened(Step(cfg, s, l), p)
    ensures IsRecorded(Step(cfg, s, l), p)
  {
    assert l.w in InFlightOn(Step(cfg, s, l), p);
  }

  lemma StepKeepsRecord(cfg: Config, s: State, l: Label, p: nat)
    requires IsRecorded(s, p) && Closed(s, p) && KeepsAnswer(s, l)
    requires Sealed(Step(cfg, s, l), p) && Unthreatened(Step(cfg, s, l), p)
    ensures IsRecorded(Step(cfg, s, l), p)
  {
    StepIsAWrite(cfg, s, l, p);
    if s.db.payments[p].status == Success {
      H.TerminalRowsDoNotMove(s.db.payments[p], WriteTo(cfg, s, l, p));
    } else if WriteTo(cfg, s, l, p).Settled? {
      InFlightMoves(cfg, s, l, p);
    } else {
      var w :| w in InFlightOn(s, p) && HoldsConfirmation(s.workers[w]);
      ConfirmedCallStays(cfg, s, l, p, w);
    }
  }

  /**
   * In such a regime a confirmed charge is recorded, or its call is there to record it, in every reachable state:
   * through all retries, crashes, recoveries and failure events, unless a callback has said FAILED.
   */
  lemma {:induction false} ConfirmedChargesAreRecorded(cfg: Config, r: Regime, run: seq<Label>, p: nat)
    requires Follows(cfg, r, run) && KeepsRecord(cfg, r) && !FailedByCallback(After(cfg, run).db, p)
    requires 0 < ConfirmationsOf(cfg, run, p)
    ensures IsRecorded(After(cfg, run), p)
  {
    var before, l := run[..|run| - 1], run[|run| - 1];
    var s := After(cfg, before);
    if FailedByCallback(s.db, p) { ReportsAreKept(cfg, s, l, p); }
    ConfirmedIsSealed(cfg, r, run, p);
    ConfirmedIsSealed(cfg, r, before, p);
    CallsAreUnthreatened(cfg, r, run, p);
    if 0 < ConfirmationsOf(cfg, before, p) {
      ConfirmedChargesAreRecorded(cfg, r, before, p);
      StepKeepsRecord(cfg, s, l, p);
    } else {
      ConfirmationIsRecorded(cfg, s, l, p);
    }
  }

  // ---- Schedules: after the charge, another attempt is declined ------------------------------------------------

  const DECLINE := Refused("card_declined", false)

  /** Call `w`, which has claimed payment 0, is declined, and the payment fails. */
  lemma DeclinedNow(cfg: Config, r: Regime, before: seq<Label>, s: State, w: nat) returns (run: seq<Label>)
    requires Follows(cfg, r, before) && After(cfg, before) == s
    requires IsHolding(s, w) && s.workers[w].pid == 0
    requires 0 in s.db.payments && s.db.payments[0].status == Processing
    ensures Follows(cfg, r, run) && before <= run
    ensures H.StatusOf(RowOf(After(cfg, run).db, 0), Failed) && After(cfg, run).db.events == s.db.events
  {
    var told := RefusedNow(cfg, r, before, s, w);
    PlainIsPermitted(r, After(cfg, told), Call(w, Settle));
    OneMoreLabel(cfg, r, told, Call(w, Settle));
    run := told + [Call(w, Settle)];
    DeclineFails(WithPhase(s, w, Answered(DECLINE)), w);
  }

  lemma RefusedNow(cfg: Config, r: Regime, before: seq<Label>, s: State, w: nat) returns (run: seq<Label>)
    requires Follows(cfg, r, before) && After(cfg, before) == s && IsHolding(s, w)
    ensures Follows(cfg, r, run) && before <= run && After(cfg, run) == WithPhase(s, w, Answered(DECLINE))
  {
    var asked := before + [Call(w, CallGateway(false))];
    PlainIsPermitted(r, s, Call(w, CallGateway(false)));
    OneMoreLabel(cfg, r, before, Call(w, CallGateway(false)));
    RefusalIsHeard(cfg, s, w);
    UnchargedMayBeRefused(r, After(cfg, asked), w, DECLINE);
    OneMoreLabel(cfg, r, asked, Call(w, Answer(DECLINE)));
    run := asked + [Call(w, Answer(DECLINE))];
  }

  lemma UnchargedMayBeRefused(r: Regime, s: State, w: nat, answer: Answer)
    requires OnWorker(s, w, Calling(false))
    ensures Permits(r, s, Call(w, Answer(answer)))
  {
  }

  lemma RefusalIsHeard(cfg: Config, s: State, w: nat)
    requires IsHolding(s, w)
    ensures var s1 := Step(cfg, s, Call(w, CallGateway(false)));
            && OnWorker(s1, w, Calling(false))
            && Step(cfg, s1, Call(w, Answer(DECLINE))) == WithPhase(s, w, Answered(DECLINE))
  {
    assert Step(cfg, s, Call(w, CallGateway(false))) == WithPhase(s, w, Calling(false));
  }

  lemma DeclineFails(s: State, w: nat)
    requires OnWorker(s, w, Answered(DECLINE)) && H.StatusOf(RowOf(s.db, s.workers[w].pid), Processing)
    ensures H.StatusOf(RowOf(CallStep(s, w, Settle).db, s.workers[w].pid), Failed)
    ensures CallStep(s, w, Settle).db.events == s.db.events
  {
  }

  lemma ChargedThenFailed(cfg: Config, charged: seq<Label>, run: seq<Label>)
    requires charged <= run && 0 < ConfirmationsOf(cfg, charged, 0)
    requires H.StatusOf(RowOf(After(cfg, run).db, 0), Failed) && After(cfg, run).db.events == []
    ensures ChargedYetFailed(cfg, run, 0)
  {
    PrefixConfirmsLess(cfg, charged, run, 0);
  }

  /** The answer of call `w` is dropped, the payment is queued again, and its next call is declined. */
  lemma DroppedThenDeclined(cfg: Config, r: Regime, before: seq<Label>, s: State, k: nat, w: nat, v: nat)
    returns (run: seq<Label>)
    requires Follows(cfg, r, before) && After(cfg, before) == s && s.db.events == []
    requires ReleasedUnder(s, k, w) && v !in s.workers && MayClaim(r, s, 0)
    ensures Follows(cfg, r, run) && ChargedYetFailed(cfg, run, 0)
  {
    var charged := HolderIsCharged(cfg, r, before, s, w, []);
    var requeued := DroppedAndRequeued(cfg, r, charged, s, k, w, []);
    SameFailures(r, s, Requeued(cfg, s, k, w), 0);
    var claimed := TakenAndClaimed(cfg, r, requeued, Requeued(cfg, s, k, w), v);
    run := DeclinedNow(cfg, r, claimed, ClaimedBy(Requeued(cfg, s, k, w), v, false), v);
    ChargedThenFailed(cfg, charged, run);
  }

  lemma LostAnswerUnrecorded(cfg: Config, r: Regime) returns (run: seq<Label>)
    requires !r.answersKept
    ensures Follows(cfg, r, run) && ChargedYetFailed(cfg, run, 0)
  {
    var charged := ChargedAndDead(cfg, r, []);
    if cfg.maxAttempts == 1 {
      run := LostAnswerExhausts(cfg, r, charged);
    } else {
      run := LostAnswerDeclined(cfg, r, charged);
    }
    ChargedThenFailed(cfg, charged, run);
  }

  lemma LostAnswerExhausts(cfg: Config, r: Regime, before: seq<Label>) returns (run: seq<Label>)
    requires cfg.maxAttempts == 1 && Follows(cfg, r, before) && After(cfg, before) == DeadClaim(cfg)
    ensures Follows(cfg, r, run) && before <= run
    ensures H.StatusOf(RowOf(After(cfg, run).db, 0), Failed) && After(cfg, run).db.events == []
  {
    ClaimIsStale(cfg);
    run := SelectedNow(cfg, r, before, DeadClaim(cfg), 0);
    run := ExhaustedNow(cfg, r, run, SelectedBy(DeadClaim(cfg), 0), 0);
  }

  lemma LostAnswerDeclined(cfg: Config, r: Regime, before: seq<Label>) returns (run: seq<Label>)
    requires 2 <= cfg.maxAttempts && Follows(cfg, r, before) && After(cfg, before) == DeadClaim(cfg)
    ensures Follows(cfg, r, run) && before <= run
    ensures H.StatusOf(RowOf(After(cfg, run).db, 0), Failed) && After(cfg, run).db.events == []
  {
    var s := DeadClaim(cfg);
    ClaimIsStale(cfg);
    var released := SweptNow(cfg, r, before, s);
    var claimed := Reclaimed(cfg, r, released, ReleasedBy(s, 0), 1, false);
    run := DeclinedNow(cfg, r, claimed, ClaimedBy(ReleasedBy(s, 0), 1, false), 1);
  }

  /** A call slower than STALE_PROCESSING_MS. */
  lemma LateAnswerUnrecorded(cfg: Config, r: Regime) returns (run: seq<Label>)
    requires r.bound.Some? ==> cfg.staleMs < r.bound.value
    ensures Follows(cfg, r, run) && ChargedYetFailed(cfg, run, 0)
  {
    if cfg.maxAttempts == 1 {
      run := LateAnswerFails(cfg, r);
    } else {
      var released := OverdueReleased(cfg, r);
      run := DroppedThenDeclined(cfg, r, released, ReleasedBy(Overdue(cfg), 0), 0, 0, 1);
    }
  }

  lemma LateAnswerFails(cfg: Config, r: Regime) returns (run: seq<Label>)
    requires (r.bound.Some? ==> cfg.staleMs < r.bound.value) && cfg.maxAttempts == 1
    ensures Follows(cfg, r, run) && ChargedYetFailed(cfg, run, 0)
  {
    var s := Overdue(cfg);
    var overdue := OverdueReached(cfg, r);
    ClaimIsStale(cfg);
    var selected := SelectedNow(cfg, r, overdue, s, 0);
    var failed := ExhaustedNow(cfg, r, selected, SelectedBy(s, 0), 0);
    run := HolderIsCharged(cfg, r, failed, After(cfg, failed), 0, []);
  }

  /** Overlapping sweeps: the second one finds a live claim on its list. */
  lemma OverlapUnrecorded(cfg: Config, r: Regime) returns (run: seq<Label>)
    requires 2 <= cfg.maxAttempts && !r.oneSweep
    ensures Follows(cfg, r, run) && ChargedYetFailed(cfg, run, 0)
  {
    if cfg.maxAttempts == 2 {
      run := OverlapExhausts(cfg, r);
    } else {
      run := OverlapDrops(cfg, r);
    }
  }

  lemma OverlapDrops(cfg: Config, r: Regime) returns (run: seq<Label>)
    requires 3 <= cfg.maxAttempts && !r.oneSweep
    ensures Follows(cfg, r, run) && ChargedYetFailed(cfg, run, 0)
  {
    var released := ReleasedTwiceReached(cfg, r, false);
    run := DroppedThenDeclined(cfg, r, released, ReleasedTwice(cfg, false), 1, 1, 2);
  }

  lemma OverlapExhausts(cfg: Config, r: Regime) returns (run: seq<Label>)
    requires cfg.maxAttempts == 2 && !r.oneSweep
    ensures Follows(cfg, r, run) && ChargedYetFailed(cfg, run, 0)
  {
    var s := SelectedTwice(cfg);
    var selected := SelectedTwiceReached(cfg, r);
    var released := ReleasedNow(cfg, r, selected, s, 0);
    var claimed := Reclaimed(cfg, r, released, ReleasedBy(s, 0), 1, false);
    run := ListedCallExhausts(cfg, r, claimed, ClaimedBy(ReleasedBy(s, 0), 1, false), 1, 1);
  }

  /** Call `w` is charged, and sweep `k`, which still lists the payment, finds its attempts used up. */
  lemma ListedCallExhausts(cfg: Config, r: Regime, before: seq<Label>, s: State, k: nat, w: nat)
    returns (run: seq<Label>)
    requires Follows(cfg, r, before) && After(cfg, before) == s && s.db.events == []
    requires IsHolding(s, w) && s.workers[w].pid == 0
    requires 0 in s.db.payments && s.db.payments[0].status == Processing
    requires s.db.payments[0].attempts >= s.db.payments[0].maxAttempts
    requires k in s.sweeps && s.sweeps[k] == Sweep({0}, Idle)
    ensures Follows(cfg, r, run) && ChargedYetFailed(cfg, run, 0)
  {
    var charged := HolderIsCharged(cfg, r, before, s, w, []);
    run := ExhaustedNow(cfg, r, charged, WithPhase(s, w, Answered(Charged([]))), k);
    ChargedThenFailed(cfg, charged, run);
  }

  // ---- Schedules: a failure event strikes -------------------------------------------------------------------

  /** A call on its job's last attempt throws and ends, while another call on payment 0 has its charge confirmed. */
  lemma FailureStrikes(cfg: Config, r: Regime, charged: seq<Label>, before: seq<Label>, s: State, w: nat)
    returns (run: seq<Label>)
    requires charged <= before && 0 < ConfirmationsOf(cfg, charged, 0) && s.db.events == []
    requires Follows(cfg, r, before) && After(cfg, before) == s && ThrowsLast(s, w)
    requires 0 in s.db.payments && s.db.payments[0].status == Processing
    ensures Follows(cfg, r, run) && ChargedYetFailed(cfg, run, 0)
  {
    JobDies(cfg, r, before, s, w);
    FailureIsHandled(cfg, r, before + [Call(w, Finish)], JobDiedUnder(s, w), w);
    run := before + [Call(w, Finish)] + [HandleFailed(w)];
    ChargedThenFailed(cfg, charged, run);
  }

  /** process() is called directly while the job's own call is failing. */
  lemma DirectCallUnrecorded(cfg: Config, r: Regime) returns (run: seq<Label>)
    requires !r.queueOnly
    ensures Follows(cfg, r, run) && ChargedYetFailed(cfg, run, 0)
  {
    var w := cfg.maxAttempts - 1;
    var s := TakenBy(FailedTimes(cfg, w), w, Throwing([]));
    var failed := FailedTimesReached(cfg, r, w);
    CallBreaks(cfg, r, failed, FailedTimes(cfg, w), w);
    run := DirectCallIsStruck(cfg, r, failed + [Take(w, 0), Call(w, Break([]))], s, w, w + 1);
  }

  lemma DirectCallIsStruck(cfg: Config, r: Regime, before: seq<Label>, s: State, w: nat, v: nat)
    returns (run: seq<Label>)
    requires Follows(cfg, r, before) && After(cfg, before) == s && !r.queueOnly
    requires ThrowsLast(s, w) && Claimable(s, v) && MayClaim(r, s, 0) && s.db.events == []
    ensures Follows(cfg, r, run) && ChargedYetFailed(cfg, run, 0)
  {
    var claimed := DirectlyClaimed(cfg, r, before, s, v);
    var charged := HolderIsCharged(cfg, r, claimed, ClaimedBy(s, v, true), v, []);
    run := FailureStrikes(cfg, r, charged, charged, WithPhase(ClaimedBy(s, v, true), v, Answered(Charged([]))), w);
  }

  /** The job of the charging call is declared stalled, and fails under another call. */
  lemma LiveStallUnrecorded(cfg: Config, r: Regime) returns (run: seq<Label>)
    requires !r.stallsDead
    ensures Follows(cfg, r, run) && ChargedYetFailed(cfg, run, 0)
  {
    var w := cfg.maxAttempts - 1;
    var claimed := LastTryClaims(cfg, r);
    var charged := HolderIsCharged(cfg, r, claimed, LastTry(cfg, Holding(NEW_BILL)), w, []);
    var s := After(cfg, charged);
    Stalled(cfg, r, charged, s);
    CallBreaks(cfg, r, charged + [Stall(0)], SetJob(s, 0, Waiting), w + 1);
    var before := charged + [Stall(0)] + [Take(w + 1, 0), Call(w + 1, Break([]))];
    run := FailureStrikes(cfg, r, charged, before, TakenBy(SetJob(s, 0, Waiting), w + 1, Throwing([])), w + 1);
  }

  /** The dead job of a released payment is replaced by a fresh one, its failure still unhandled. */
  function Replaced(cfg: Config): State {
    var w := cfg.maxAttempts - 1;
    var s := LastTry(cfg, Throwing([])).(clock := cfg.staleMs + 1);
    ReleasedBy(JobDiedUnder(s, w), 0).(
      jobs := map[0 := FreshJob(0, cfg.maxAttempts)],
      sweeps := map[0 := Sweep({}, Idle)])
  }

  lemma ReplacedReached(cfg: Config, r: Regime) returns (run: seq<Label>)
    requires 2 <= cfg.maxAttempts
    ensures Follows(cfg, r, run) && After(cfg, run) == Replaced(cfg)
  {
    var w := cfg.maxAttempts - 1;
    var s := JobDiedUnder(LastTry(cfg, Throwing([])), w);
    var thrown := LastTryBreaks(cfg, r);
    JobDies(cfg, r, thrown, LastTry(cfg, Throwing([])), w);
    var stale := GrownStale(cfg, r, thrown + [Call(w, Finish)], s);
    assert StaleIds(s.db.payments, 1) == {0};
    var released := SweptNow(cfg, r, stale, s.(clock := cfg.staleMs + 1));
    run := DeadJobIsReplaced(cfg, r, released, ReleasedBy(s.(clock := cfg.staleMs + 1), 0));
  }

  lemma DeadJobIsReplaced(cfg: Config, r: Regime, before: seq<Label>, s: State) returns (run: seq<Label>)
    requires Follows(cfg, r, before) && After(cfg, before) == s
    requires s.jobs.Keys == {0} && s.jobs[0].state.Dead? && s.sweeps == map[0 := Sweep({}, MustRemove(0))]
    ensures Follows(cfg, r, run)
    ensures After(cfg, run) == s.(jobs := map[0 := FreshJob(0, cfg.maxAttempts)], sweeps := map[0 := Sweep({}, Idle)])
  {
    var cleared := before + [Reconcile(0, Clear)];
    DeadJobIsCleared(cfg, r, before, s);
    PlainIsPermitted(r, After(cfg, cleared), Reconcile(0, Requeue));
    OneMoreLabel(cfg, r, cleared, Reconcile(0, Requeue));
    run := cleared + [Reconcile(0, Requeue)];
  }

  lemma DeadJobIsCleared(cfg: Config, r: Regime, before: seq<Label>, s: State)
    requires Follows(cfg, r, before) && After(cfg, before) == s
    requires s.jobs.Keys == {0} && s.jobs[0].state.Dead? && s.sweeps == map[0 := Sweep({}, MustRemove(0))]
    ensures Follows(cfg, r, before + [Reconcile(0, Clear)])
    ensures After(cfg, before + [Reconcile(0, Clear)])
            == s.(jobs := map[], sweeps := map[0 := Sweep({}, MustEnqueue(0))])
  {
    OneMoreLabel(cfg, r, before, Reconcile(0, Clear));
    assert s.jobs - {0} == map[];
  }

  /** A failure event is handled only after another call has claimed the payment. */
  lemma LateFailureUnrecorded(cfg: Config, r: Regime) returns (run: seq<Label>)
    requires 2 <= cfg.maxAttempts && !r.failuresFirst
    ensures Follows(cfg, r, run) && ChargedYetFailed(cfg, run, 0)
  {
    var w := cfg.maxAttempts - 1;
    var replaced := ReplacedReached(cfg, r);
    run := LateFailureStrikes(cfg, r, replaced, Replaced(cfg), w, w + 1);
  }

  lemma LateFailureStrikes(cfg: Config, r: Regime, before: seq<Label>, s: State, w: nat, v: nat)
    returns (run: seq<Label>)
    requires Follows(cfg, r, before) && After(cfg, before) == s && s.db.events == [] && !r.failuresFirst
    requires Claimable(s, v) && s.jobs[0].state.Waiting? && Fails(s, w, 0)
    ensures Follows(cfg, r, run) && ChargedYetFailed(cfg, run, 0)
  {
    var claimed := TakenAndClaimed(cfg, r, before, s, v);
    var charged := HolderIsCharged(cfg, r, claimed, ClaimedBy(s, v, false), v, []);
    FailureIsHandled(cfg, r, charged, WithPhase(ClaimedBy(s, v, false), v, Answered(Charged([]))), w);
    run := charged + [HandleFailed(w)];
    ChargedThenFailed(cfg, charged, run);
  }

  // ---- The exact condition -------------------------------------------------------------------------------

  lemma SomeChargeUnrecorded(cfg: Config, r: Regime) returns (run: seq<Label>)
    requires !KeepsRecord(cfg, r)
    ensures Follows(cfg, r, run) && ChargedYetFailed(cfg, run, 0)
  {
    if !(r.bound.Some? && r.bound.value <= cfg.staleMs) {
      run := LateAnswerUnrecorded(cfg, r);
    } else if !r.answersKept {
      run := LostAnswerUnrecorded(cfg, r);
    } else if !r.queueOnly {
      run := DirectCallUnrecorded(cfg, r);
    } else if !r.stallsDead {
      run := LiveStallUnrecorded(cfg, r);
    } else if !r.oneSweep {
      run := OverlapUnrecorded(cfg, r);
    } else {
      run := LateFailureUnrecorded(cfg, r);
    }
  }

  /**
   * Under any regime, no run leaves a payment FAILED whose charge the provider has confirmed, unless a callback
   * said FAILED, exactly when the regime keeps the record.
   */
  lemma ChargesAreRecordedExactly(cfg: Config, r: Regime)
    ensures (forall run, p :: Follows(cfg, r, run) ==> !ChargedYetFailed(cfg, run, p)) <==> KeepsRecord(cfg, r)
  {
    if KeepsRecord(cfg, r) {
      forall run, p | Follows(cfg, r, run) ensures !ChargedYetFailed(cfg, run, p) {
        if ChargedYetFailed(cfg, run, p) { ConfirmedChargesAreRecorded(cfg, r, run, p); }
      }
    } else {
      var run := SomeChargeUnrecorded(cfg, r);
    }
  }
}
