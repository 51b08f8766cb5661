/** How often the provider can confirm a charge for one payment. */
module Confirmed {
  import opened StateMachine
  import opened Rows
  import H = RowHistory
  import opened Tables
  import opened Queue
  import opened Protocol
  import opened SystemRows
  import opened InFlight
  import opened Regimes
  import opened Exclusivity
  import opened Witness
  import opened Sharpness
  import opened Overlap

  predicate ConfirmsCharge(s: State, l: Label, p: nat) {
    l.Call? && l.callAct.Answer? && l.callAct.answer.Charged? && OnWorker(s, l.w, Calling(true))
        && s.workers[l.w].pid == p
  }

  /** The charges the provider confirmed for payment `p` in a run. */
  function ConfirmationsOf(cfg: Config, run: seq<Label>, p: nat): nat {
    if |run| == 0 then 0
    else
      ConfirmationsOf(cfg, run[..|run| - 1], p)
      + if ConfirmsCharge(After(cfg, run[..|run| - 1]), run[|run| - 1], p) then 1 else 0
  }

  // ---- Without a release -----------------------------------------------------------------------------

  /** After a confirmation the row is out of reach of a claim, and no call in flight can still be answered. */
  ghost predicate Closed(s: State, p: nat) {
    && p in s.db.payments && s.db.payments[p].status != Pending
    && (forall w :: w in InFlightOn(s, p) ==> HoldsConfirmation(s.workers[w]))
  }

  lemma ConfirmationCloses(cfg: Config, s: State, l: Label, p: nat)
    requires ConfirmsCharge(s, l, p) && Exclusive(s, p)
    requires p in s.db.payments && s.db.payments[p].status != Pending
    ensures Closed(Step(cfg, s, l), p)
  {
    var s' := Step(cfg, s, l);
    StepIsAWrite(cfg, s, l, p);
    assert l.w in InFlightOn(s, p);
    forall w | w in InFlightOn(s', p) ensures HoldsConfirmation(s'.workers[w]) {
      InFlightMoves(cfg, s, l, p);
      assert w in InFlightOn(s, p);
    }
  }

  lemma ConfirmedCallIsInFlight(s: State, l: Label, p: nat)
    ensures ConfirmsCharge(s, l, p) ==> l.w in InFlightOn(s, p) && !HoldsConfirmation(s.workers[l.w])
  {
  }

  lemma StepKeepsClosed(cfg: Config, s: State, l: Label, p: nat)
    requires Closed(s, p) && !H.IsRelease(RowOf(s.db, p), WriteTo(cfg, s, l, p))
    ensures Closed(Step(cfg, s, l), p) && !ConfirmsCharge(s, l, p)
  {
    var s' := Step(cfg, s, l);
    StepIsAWrite(cfg, s, l, p);
    ConfirmedCallIsInFlight(s, l, p);
    if WriteTo(cfg, s, l, p).Settled? { InFlightMoves(cfg, s, l, p); }
    forall w | w in InFlightOn(s', p) ensures HoldsConfirmation(s'.workers[w]) {
      InFlightMoves(cfg, s, l, p);
      WorkersMove(cfg, s, l, w);
    }
  }

  lemma {:induction false} ConfirmedIsClosed(cfg: Config, run: seq<Label>, p: nat)
    requires ReleasesOf(cfg, run, p) == 0
    ensures ConfirmationsOf(cfg, run, p) <= 1
    ensures ConfirmationsOf(cfg, run, p) == 1 ==> Closed(After(cfg, run), p)
  {
    if |run| > 0 {
      var before, l := run[..|run| - 1], run[|run| - 1];
      CountersAdvance(cfg, run, p);
      ConfirmedIsClosed(cfg, before, p);
      if ConfirmationsOf(cfg, before, p) == 1 {
        StepKeepsClosed(cfg, After(cfg, before), l, p);
      } else if ConfirmsCharge(After(cfg, before), l, p) {
        NoReleaseIsExclusive(cfg, before, p, l.w);
        ConfirmationCloses(cfg, After(cfg, before), l, p);
      }
    }
  }

  lemma NoReleaseIsExclusive(cfg: Config, run: seq<Label>, p: nat, w: nat)
    requires ReleasesOf(cfg, run, p) == 0
    requires OnWorker(After(cfg, run), w, Calling(true)) && After(cfg, run).workers[w].pid == p
    ensures Exclusive(After(cfg, run), p)
    ensures p in After(cfg, run).db.payments && After(cfg, run).db.payments[p].status != Pending
  {
    assert w in InFlightOn(After(cfg, run), p);
    NoReleaseNoDoubleCharge(cfg, run, p, w, w);
    forall u, v | u in InFlightOn(After(cfg, run), p) && v in InFlightOn(After(cfg, run), p) ensures u == v {
      NoReleaseNoDoubleCharge(cfg, run, p, u, v);
    }
  }

  /** Where no recovery released it, a payment has at most one charge confirmed, however often it is retried. */
  lemma ChargedAtMostOnce(cfg: Config, run: seq<Label>, p: nat)
    requires ReleasesOf(cfg, run, p) == 0
    ensures ConfirmationsOf(cfg, run, p) <= 1
  {
    ConfirmedIsClosed(cfg, run, p);
  }

  // ---- With releases, in time ----------------------------------------------------------------------------

  /** Closed, and while the row is Processing its confirmed call is still there to settle it. */
  ghost predicate Sealed(s: State, p: nat) {
    Closed(s, p) && (s.db.payments[p].status == Processing ==> InFlightOn(s, p) != {})
  }

  lemma ConfirmationSeals(cfg: Config, s: State, l: Label, p: nat)
    requires ConfirmsCharge(s, l, p) && Exclusive(s, p)
    requires p in s.db.payments && s.db.payments[p].status != Pending
    ensures Sealed(Step(cfg, s, l), p)
  {
    ConfirmationCloses(cfg, s, l, p);
    assert l.w in InFlightOn(Step(cfg, s, l), p);
  }

  lemma SettlesClose(cfg: Config, s: State, l: Label, p: nat)
    requires Closed(s, p) && WriteTo(cfg, s, l, p).Settled?
    ensures RowOf(Step(cfg, s, l).db, p).value.status != Processing
  {
    StepIsAWrite(cfg, s, l, p);
    assert l.w in InFlightOn(s, p);
  }

  lemma ConfirmedCallStays(cfg: Config, s: State, l: Label, p: nat, w: nat)
    requires Closed(s, p) && w in InFlightOn(s, p) && KeepsAnswer(s, l) && !WriteTo(cfg, s, l, p).Settled?
    ensures w in InFlightOn(Step(cfg, s, l), p)
  {
  }

  lemma StepKeepsSealed(cfg: Config, s: State, l: Label, p: nat)
    requires Sealed(s, p) && KeepsAnswer(s, l) && !H.IsRelease(RowOf(s.db, p), WriteTo(cfg, s, l, p))
    ensures Sealed(Step(cfg, s, l), p) && !ConfirmsCharge(s, l, p)
  {
    StepKeepsClosed(cfg, s, l, p);
    if WriteTo(cfg, s, l, p).Settled? {
      SettlesClose(cfg, s, l, p);
    } else if Step(cfg, s, l).db.payments[p].status == Processing {
      StepIsAWrite(cfg, s, l, p);
      var w :| w in InFlightOn(s, p);
      ConfirmedCallStays(cfg, s, l, p, w);
    }
  }

  /** No sweep releases a payment whose confirmed call is in flight: its row is not on a list, or out of attempts. */
  lemma SealedIsNotReleased(cfg: Config, r: Regime, run: seq<Label>, p: nat, l: Label)
    requires Follows(cfg, r, run) && Timely(cfg, r) && Sealed(After(cfg, run), p)
    ensures !H.IsRelease(RowOf(After(cfg, run).db, p), WriteTo(cfg, After(cfg, run), l, p))
  {
    var s := After(cfg, run);
    if WriteTo(cfg, s, l, p).Recovered? {
      RecoveriesAreListed(cfg, s, l, p);
      if r.oneSweep {
        TimedRunsAreTidy(cfg, r, run, p);
      } else {
        TwoAttemptsStayOrderly(cfg, r, run, p);
        ReachableRowsSound(cfg, run);
      }
    }
  }

  lemma TimelyCallOwnsRow(cfg: Config, r: Regime, run: seq<Label>, p: nat, w: nat)
    requires Follows(cfg, r, run) && Timely(cfg, r)
    requires OnWorker(After(cfg, run), w, Calling(true)) && After(cfg, run).workers[w].pid == p
    ensures Exclusive(After(cfg, run), p)
    ensures p in After(cfg, run).db.payments && After(cfg, run).db.payments[p].status != Pending
  {
    assert w in InFlightOn(After(cfg, run), p);
    if r.oneSweep { TimedRunsAreTidy(cfg, r, run, p); } else { TwoAttemptsStayOrderly(cfg, r, run, p); }
  }

  lemma {:induction false} ConfirmedIsSealed(cfg: Config, r: Regime, run: seq<Label>, p: nat)
    requires Follows(cfg, r, run) && Timely(cfg, r) && r.answersKept
    ensures ConfirmationsOf(cfg, run, p) <= 1
    ensures ConfirmationsOf(cfg, run, p) == 1 ==> Sealed(After(cfg, run), p)
  {
    if |run| > 0 {
      var before, l := run[..|run| - 1], run[|run| - 1];
      ConfirmedIsSealed(cfg, r, before, p);
      if ConfirmationsOf(cfg, before, p) == 1 {
        SealedIsNotReleased(cfg, r, before, p, l);
        StepKeepsSealed(cfg, After(cfg, before), l, p);
      } else if ConfirmsCharge(After(cfg, before), l, p) {
        TimelyCallOwnsRow(cfg, r, before, p, l.w);
        ConfirmationSeals(cfg, After(cfg, before), l, p);
      }
    }
  }

  /**
   * With calls and sweeps in time and no confirmed answer lost before its settle, a payment has at most one
   * charge confirmed: over all retries, all crashes of other calls and all recoveries that release it.
   */
  lemma ChargedOnceInTime(cfg: Config, r: Regime, run: seq<Label>, p: nat)
    requires Follows(cfg, r, run) && Timely(cfg, r) && r.answersKept
    ensures ConfirmationsOf(cfg, run, p) <= 1
  {
    ConfirmedIsSealed(cfg, r, run, p);
  }

  // ---- Counting in the schedules -------------------------------------------------------------------------

  lemma {:induction false} ConfirmationsNeverDrop(cfg: Config, run: seq<Label>, more: seq<Label>, p: nat)
    ensures ConfirmationsOf(cfg, run, p) <= ConfirmationsOf(cfg, run + more, p)
  {
    if |more| == 0 {
      assert run + more == run;
    } else {
      ConfirmationsNeverDrop(cfg, run, more[..|more| - 1], p);
      assert (run + more)[..|run + more| - 1] == run + more[..|more| - 1];
    }
  }

  lemma PrefixConfirmsLess(cfg: Config, run: seq<Label>, longer: seq<Label>, p: nat)
    requires run <= longer
    ensures ConfirmationsOf(cfg, run, p) <= ConfirmationsOf(cfg, longer, p)
  {
    assert longer == run + longer[|run|..];
    ConfirmationsNeverDrop(cfg, run, longer[|run|..], p);
  }

  function WithPhase(s: State, w: nat, phase: Phase): State
    requires w in s.workers
  {
    s.(workers := s.workers[w := s.workers[w].(phase := phase)])
  }

  lemma GatewayIsAsked(cfg: Config, r: Regime, before: seq<Label>, s: State, w: nat)
    requires Follows(cfg, r, before) && After(cfg, before) == s && IsHolding(s, w)
    ensures Follows(cfg, r, before + [Call(w, CallGateway(true))])
    ensures After(cfg, before + [Call(w, CallGateway(true))]) == WithPhase(s, w, Calling(true))
  {
    OneMoreLabel(cfg, r, before, Call(w, CallGateway(true)));
  }

  lemma CallerIsCharged(cfg: Config, r: Regime, before: seq<Label>, s: State, w: nat, ref: string)
    requires Follows(cfg, r, before) && After(cfg, before) == s
    requires OnWorker(s, w, Calling(true)) && s.workers[w].pid == 0
    ensures var run := before + [Call(w, Answer(Charged(ref)))];
            && Follows(cfg, r, run) && After(cfg, run) == WithPhase(s, w, Answered(Charged(ref)))
            && ConfirmationsOf(cfg, run, 0) == ConfirmationsOf(cfg, before, 0) + 1
  {
    var l := Call(w, Answer(Charged(ref)));
    OneMoreLabel(cfg, r, before, l);
    assert (before + [l])[..|before + [l]| - 1] == before;
  }

  /** Call `w`, which has claimed payment 0, asks the gateway and hears that the charge went through. */
  lemma HolderIsCharged(cfg: Config, r: Regime, before: seq<Label>, s: State, w: nat, ref: string)
    returns (run: seq<Label>)
    requires Follows(cfg, r, before) && After(cfg, before) == s
    requires IsHolding(s, w) && s.workers[w].pid == 0
    ensures Follows(cfg, r, run) && After(cfg, run) == WithPhase(s, w, Answered(Charged(ref)))
    ensures ConfirmationsOf(cfg, run, 0) >= ConfirmationsOf(cfg, before, 0) + 1
  {
    var asked := before + [Call(w, CallGateway(true))];
    GatewayIsAsked(cfg, r, before, s, w);
    ConfirmationsNeverDrop(cfg, before, [Call(w, CallGateway(true))], 0);
    CallerIsCharged(cfg, r, asked, WithPhase(s, w, Calling(true)), w, ref);
    assert WithPhase(WithPhase(s, w, Calling(true)), w, Answered(Charged(ref)))
        == WithPhase(s, w, Answered(Charged(ref)));
    run := asked + [Call(w, Answer(Charged(ref)))];
  }

  // ---- A confirmed answer that is lost -------------------------------------------------------------------

  /** Call 0 hears of its charge and crashes, and its claim grows stale. */
  lemma ChargedAndDead(cfg: Config, r: Regime, ref: string) returns (run: seq<Label>)
    requires !r.answersKept
    ensures Follows(cfg, r, run) && After(cfg, run) == DeadClaim(cfg) && ConfirmationsOf(cfg, run, 0) >= 1
  {
    var claimed := FirstClaimReached(cfg, r);
    var charged := HolderIsCharged(cfg, r, claimed, FirstClaim(cfg), 0, ref);
    CrashedAfterCharge(cfg, r, charged, ref);
    var dead := charged + [Call(0, Crash)];
    run := GrownStale(cfg, r, dead, Crashed(cfg));
    PrefixConfirmsLess(cfg, charged, run, 0);
  }

  lemma CrashedAfterCharge(cfg: Config, r: Regime, before: seq<Label>, ref: string)
    requires Follows(cfg, r, before) && !r.answersKept
    requires After(cfg, before) == WithPhase(FirstClaim(cfg), 0, Answered(Charged(ref)))
    ensures Follows(cfg, r, before + [Call(0, Crash)]) && After(cfg, before + [Call(0, Crash)]) == Crashed(cfg)
  {
    OneMoreLabel(cfg, r, before, Call(0, Crash));
  }

  /** Whatever else is assumed: a crash after the charge gets the payment charged again. */
  lemma CrashAfterChargeChargesAgain(cfg: Config, r: Regime, ref: string, ref': string) returns (run: seq<Label>)
    requires 2 <= cfg.maxAttempts && !r.answersKept
    ensures Follows(cfg, r, run) && ConfirmationsOf(cfg, run, 0) >= 2
  {
    var s := DeadClaim(cfg);
    var dead := ChargedAndDead(cfg, r, ref);
    ClaimIsStale(cfg);
    var released := SweptNow(cfg, r, dead, s);
    var claimed := Reclaimed(cfg, r, released, ReleasedBy(s, 0), 1, false);
    PrefixConfirmsLess(cfg, dead, claimed, 0);
    run := HolderIsCharged(cfg, r, claimed, ClaimedBy(ReleasedBy(s, 0), 1, false), 1, ref');
  }

  // ---- A confirmed answer that is dropped ----------------------------------------------------------------

  /** Call `w` holds the job and a claim on payment 0, which sweep `k` has released. */
  ghost predicate ReleasedUnder(s: State, k: nat, w: nat) {
    && 0 in s.db.payments && s.db.payments[0].status == Pending
    && IsHolding(s, w) && s.workers[w].pid == 0 && Holds(s, w, 0)
    && k in s.sweeps && s.sweeps[k] == Sweep({}, MustRemove(0))
  }

  /** Its answer is dropped, its job completes, and the sweep queues a fresh one. */
  function Requeued(cfg: Config, s: State, k: nat, w: nat): State
    requires w in s.workers
  {
    WithPhase(s, w, Ended).(jobs := s.jobs[0 := FreshJob(0, cfg.maxAttempts)], sweeps := s.sweeps[k := Sweep({}, Idle)])
  }

  lemma AnswerIsDropped(cfg: Config, s: State, k: nat, w: nat, ref: string)
    requires ReleasedUnder(s, k, w)
    ensures Run(cfg, WithPhase(s, w, Answered(Charged(ref))), [Call(w, Settle), Call(w, Finish)])
            == WithPhase(s, w, Ended).(jobs := s.jobs - {0})
  {
    var s0 := WithPhase(s, w, Answered(Charged(ref)));
    RunOfTwo(cfg, s0, Call(w, Settle), Call(w, Finish));
    assert s.db.payments[0 := s.db.payments[0]] == s.db.payments;
    assert CallStep(s0, w, Settle) == WithPhase(s, w, Returning);
  }

  lemma DroppedAndRequeued(cfg: Config, r: Regime, before: seq<Label>, s: State, k: nat, w: nat, ref: string)
    returns (run: seq<Label>)
    requires ReleasedUnder(s, k, w) && Follows(cfg, r, before)
    requires After(cfg, before) == WithPhase(s, w, Answered(Charged(ref)))
    ensures Follows(cfg, r, run) && After(cfg, run) == Requeued(cfg, s, k, w) && before <= run
  {
    run := before + [Call(w, Settle), Call(w, Finish)];
    AnswerIsDroppedAfter(cfg, r, before, s, k, w, ref);
    run := HandedBack(cfg, r, run, WithPhase(s, w, Ended).(jobs := s.jobs - {0}), k);
  }

  lemma AnswerIsDroppedAfter(cfg: Config, r: Regime, before: seq<Label>, s: State, k: nat, w: nat, ref: string)
    requires ReleasedUnder(s, k, w) && Follows(cfg, r, before)
    requires After(cfg, before) == WithPhase(s, w, Answered(Charged(ref)))
    ensures Follows(cfg, r, before + [Call(w, Settle), Call(w, Finish)])
    ensures After(cfg, before + [Call(w, Settle), Call(w, Finish)]) == WithPhase(s, w, Ended).(jobs := s.jobs - {0})
  {
    PlainSuffix(cfg, r, before, [Call(w, Settle), Call(w, Finish)]);
    RunAppend(cfg, INITIAL, before, [Call(w, Settle), Call(w, Finish)]);
    AnswerIsDropped(cfg, s, k, w, ref);
  }

  lemma HandedBack(cfg: Config, r: Regime, before: seq<Label>, s: State, k: nat) returns (run: seq<Label>)
    requires Follows(cfg, r, before) && After(cfg, before) == s
    requires 0 !in s.jobs && k in s.sweeps && s.sweeps[k] == Sweep({}, MustRemove(0))
    ensures Follows(cfg, r, run) && before <= run
    ensures After(cfg, run)
        == s.(jobs := s.jobs[0 := FreshJob(0, cfg.maxAttempts)], sweeps := s.sweeps[k := Sweep({}, Idle)])
  {
    var cleared := before + [Reconcile(k, Clear)];
    Cleared(cfg, r, before, s, k);
    run := cleared + [Reconcile(k, Requeue)];
    OneMoreLabel(cfg, r, cleared, Reconcile(k, Requeue));
  }

  lemma Cleared(cfg: Config, r: Regime, before: seq<Label>, s: State, k: nat)
    requires Follows(cfg, r, before) && After(cfg, before) == s
    requires 0 !in s.jobs && k in s.sweeps && s.sweeps[k] == Sweep({}, MustRemove(0))
    ensures Follows(cfg, r, before + [Reconcile(k, Clear)])
    ensures After(cfg, before + [Reconcile(k, Clear)]) == s.(sweeps := s.sweeps[k := Sweep({}, MustEnqueue(0))])
  {
    OneMoreLabel(cfg, r, before, Reconcile(k, Clear));
  }

  /** Both calls are told that the charge went through. */
  lemma DroppedAnswerChargesAgain(cfg: Config, r: Regime, before: seq<Label>, s: State, k: nat, w: nat, v: nat)
    returns (run: seq<Label>)
    requires Follows(cfg, r, before) && After(cfg, before) == s
    requires ReleasedUnder(s, k, w) && v !in s.workers && MayClaim(r, s, 0)
    ensures Follows(cfg, r, run) && ConfirmationsOf(cfg, run, 0) >= 2
  {
    var charged := HolderIsCharged(cfg, r, before, s, w, []);
    var requeued := DroppedAndRequeued(cfg, r, charged, s, k, w, []);
    SameFailures(r, s, Requeued(cfg, s, k, w), 0);
    var claimed := TakenAndClaimed(cfg, r, requeued, Requeued(cfg, s, k, w), v);
    PrefixConfirmsLess(cfg, charged, claimed, 0);
    run := HolderIsCharged(cfg, r, claimed, ClaimedBy(Requeued(cfg, s, k, w), v, false), v, []);
  }

  /** Whatever else is assumed: a call slower than STALE_PROCESSING_MS gets the payment charged again. */
  lemma LateCallChargesAgain(cfg: Config, r: Regime) returns (run: seq<Label>)
    requires 2 <= cfg.maxAttempts && (r.bound.Some? ==> cfg.staleMs < r.bound.value)
    ensures Follows(cfg, r, run) && ConfirmationsOf(cfg, run, 0) >= 2
  {
    var s := ReleasedBy(Overdue(cfg), 0);
    var released := OverdueReleased(cfg, r);
    run := DroppedAnswerChargesAgain(cfg, r, released, s, 0, 0, 1);
  }

  /** Whatever else is assumed: two overlapping sweeps get the payment charged again. */
  lemma OverlapChargesAgain(cfg: Config, r: Regime) returns (run: seq<Label>)
    requires 3 <= cfg.maxAttempts && !r.oneSweep
    ensures Follows(cfg, r, run) && ConfirmationsOf(cfg, run, 0) >= 2
  {
    var s := ReleasedTwice(cfg, false);
    var released := ReleasedTwiceReached(cfg, r, false);
    run := DroppedAnswerChargesAgain(cfg, r, released, s, 1, 1, 2);
  }

  /**
   * Under any regime, the provider confirms at most one charge per payment in every run exactly when there is
   * no second attempt, or calls and sweeps keep to their times and no confirmed answer is lost before its settle.
   */
  lemma ChargedOnceExactly(cfg: Config, r: Regime)
    ensures (forall run, p :: Follows(cfg, r, run) ==> ConfirmationsOf(cfg, run, p) <= 1)
            <==> (cfg.maxAttempts == 1 || (Timely(cfg, r) && r.answersKept))
  {
    if cfg.maxAttempts == 1 {
      forall run, p | Follows(cfg, r, run) ensures ConfirmationsOf(cfg, run, p) <= 1 {
        BudgetOfOneNeverReleases(cfg, run, p);
        ChargedAtMostOnce(cfg, run, p);
      }
    } else if Timely(cfg, r) && r.answersKept {
      forall run, p | Follows(cfg, r, run) ensures ConfirmationsOf(cfg, run, p) <= 1 {
        ChargedOnceInTime(cfg, r, run, p);
      }
    } else if !r.answersKept {
      var run := CrashAfterChargeChargesAgain(cfg, r, [], []);
    } else if r.bound.Some? && r.bound.value <= cfg.staleMs {
      var run := OverlapChargesAgain(cfg, r);
    } else {
      var run := LateCallChargesAgain(cfg, r);
    }
  }
}
