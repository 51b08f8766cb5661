/** That what carries a payment really moves it: a Pending payment can be claimed, or settled, without outside help. */
module Progress {
  import opened StateMachine
  import opened Rows
  import opened Tables
  import opened Protocol
  import opened InFlight
  import opened Regimes
  import opened JobLock
  import opened NoLoss
  import opened Stranded
  import opened Loss
  import opened Witness
  import Ledger

  /** A longer run in the same regime, without a callback for the payment or a direct call on it. */
  ghost predicate Continues(cfg: Config, r: Regime, run: seq<Label>, longer: seq<Label>, p: nat) {
    && run <= longer && Follows(cfg, r, longer)
    && (forall i :: |run| <= i < |longer| ==> NoHelp(longer[i], p))
  }

  predicate IsPending(s: State, p: nat) {
    p in s.db.payments && s.db.payments[p].status == Pending
  }

  /** Some continuation takes the payment out of Pending. */
  ghost predicate CanMove(cfg: Config, r: Regime, run: seq<Label>, p: nat) {
    exists longer :: Continues(cfg, r, run, longer, p) && !IsPending(After(cfg, longer), p)
  }

  /** Where a continuation can move the payment, so can the run it continues. */
  lemma MovesLater(cfg: Config, r: Regime, run: seq<Label>, longer: seq<Label>, p: nat)
    requires Continues(cfg, r, run, longer, p) && CanMove(cfg, r, longer, p)
    ensures CanMove(cfg, r, run, p)
  {
    var longest :| Continues(cfg, r, longer, longest, p) && !IsPending(After(cfg, longest), p);
    forall i | |run| <= i < |longest| ensures NoHelp(longest[i], p) {
      if i < |longer| { assert longest[i] == longer[i]; }
    }
    assert Continues(cfg, r, run, longest, p);
  }

  lemma OneMoreContinues(cfg: Config, r: Regime, run: seq<Label>, l: Label, p: nat)
    requires Follows(cfg, r, run) && Permits(r, After(cfg, run), l) && NoHelp(l, p)
    ensures Continues(cfg, r, run, run + [l], p)
    ensures After(cfg, run + [l]) == Step(cfg, After(cfg, run), l)
  {
    OneMoreLabel(cfg, r, run, l);
  }

  lemma PlainContinues(cfg: Config, r: Regime, run: seq<Label>, l: Label, p: nat)
    requires Follows(cfg, r, run) && Plain(l) && NoHelp(l, p)
    ensures Continues(cfg, r, run, run + [l], p)
    ensures After(cfg, run + [l]) == Step(cfg, After(cfg, run), l)
  {
    PlainIsPermitted(r, After(cfg, run), l);
    OneMoreContinues(cfg, r, run, l, p);
  }

  // ---- A failure event ---------------------------------------------------------------------------------

  lemma FailureMoves(cfg: Config, r: Regime, run: seq<Label>, p: nat, w: nat)
    requires Follows(cfg, r, run) && IsPending(After(cfg, run), p) && Fails(After(cfg, run), w, p)
    ensures CanMove(cfg, r, run, p)
  {
    PlainContinues(cfg, r, run, HandleFailed(w), p);
    HandlingSettles(cfg, After(cfg, run), p, w);
  }

  lemma HandlingSettles(cfg: Config, s: State, p: nat, w: nat)
    requires IsPending(s, p) && Fails(s, w, p)
    ensures !IsPending(Step(cfg, s, HandleFailed(w)), p)
  {
  }

  /** A call that is throwing on its job's last attempt leaves a failure event when it ends. */
  lemma DyingMoves(cfg: Config, r: Regime, run: seq<Label>, p: nat)
    requires Follows(cfg, r, run) && IsPending(After(cfg, run), p) && Dying(After(cfg, run), p)
    requires HolderIsOnPayment(After(cfg, run), p)
    ensures CanMove(cfg, r, run, p)
  {
    var w := After(cfg, run).jobs[p].state.holder;
    PlainContinues(cfg, r, run, Call(w, Finish), p);
    DyingFails(cfg, After(cfg, run), p);
    FailureMoves(cfg, r, run + [Call(w, Finish)], p, w);
    MovesLater(cfg, r, run, run + [Call(w, Finish)], p);
  }

  lemma DyingFails(cfg: Config, s: State, p: nat)
    requires IsPending(s, p) && Dying(s, p) && HolderIsOnPayment(s, p)
    ensures var w := s.jobs[p].state.holder; var s' := Step(cfg, s, Call(w, Finish));
            IsPending(s', p) && Fails(s', w, p)
  {
    assert Holds(s, s.jobs[p].state.holder, p);
  }

  // ---- A runnable job ----------------------------------------------------------------------------------

  ghost predicate HolderIsOnPayment(s: State, p: nat) {
    forall w :: Holds(s, w, p) ==> w in s.workers && s.workers[w].pid == p
  }

  lemma ClaimMoves(cfg: Config, r: Regime, run: seq<Label>, p: nat, w: nat)
    requires Follows(cfg, r, run) && IsPending(After(cfg, run), p) && MayClaim(r, After(cfg, run), p)
    requires OnWorker(After(cfg, run), w, Ready) && After(cfg, run).workers[w].pid == p
    ensures CanMove(cfg, r, run, p)
  {
    ClaimFollows(cfg, r, run, w);
    RunThrough(cfg, INITIAL, run, Call(w, Claim), []);
    assert run + [Call(w, Claim)] + [] == run + [Call(w, Claim)];
    assert Continues(cfg, r, run, run + [Call(w, Claim)], p);
    ReadyClaims(cfg, After(cfg, run), w);
  }

  lemma ReadyClaims(cfg: Config, s: State, w: nat)
    requires OnWorker(s, w, Ready) && IsPending(s, s.workers[w].pid)
    ensures !IsPending(Step(cfg, s, Call(w, Claim)), s.workers[w].pid)
  {
  }

  lemma WaitingMoves(cfg: Config, r: Regime, run: seq<Label>, p: nat)
    requires Follows(cfg, r, run) && IsPending(After(cfg, run), p) && MayClaim(r, After(cfg, run), p)
    requires p in After(cfg, run).jobs && After(cfg, run).jobs[p].state.Waiting?
    ensures CanMove(cfg, r, run, p)
  {
    var s := After(cfg, run);
    var v := Ledger.FreeName(s.workers.Keys);
    JobsAreForTheirPayments(cfg, run);
    PlainContinues(cfg, r, run, Take(v, p), p);
    SameFailures(r, s, After(cfg, run + [Take(v, p)]), p);
    ClaimMoves(cfg, r, run + [Take(v, p)], p, v);
    MovesLater(cfg, r, run, run + [Take(v, p)], p);
  }

  lemma DelayedMoves(cfg: Config, r: Regime, run: seq<Label>, p: nat)
    requires Follows(cfg, r, run) && IsPending(After(cfg, run), p) && MayClaim(r, After(cfg, run), p)
    requires p in After(cfg, run).jobs && After(cfg, run).jobs[p].state.Delayed?
    ensures CanMove(cfg, r, run, p)
  {
    PlainContinues(cfg, r, run, Promote(p), p);
    SameFailures(r, After(cfg, run), After(cfg, run + [Promote(p)]), p);
    WaitingMoves(cfg, r, run + [Promote(p)], p);
    MovesLater(cfg, r, run, run + [Promote(p)], p);
  }

  lemma StalledMoves(cfg: Config, r: Regime, run: seq<Label>, p: nat)
    requires Follows(cfg, r, run) && IsPending(After(cfg, run), p) && MayClaim(r, After(cfg, run), p)
    requires p in After(cfg, run).jobs && After(cfg, run).jobs[p].state.Active?
    requires !Live(After(cfg, run), After(cfg, run).jobs[p].state.holder)
    ensures CanMove(cfg, r, run, p)
  {
    DeadHolderMayStall(r, After(cfg, run), p);
    OneMoreContinues(cfg, r, run, Stall(p), p);
    SameFailures(r, After(cfg, run), After(cfg, run + [Stall(p)]), p);
    WaitingMoves(cfg, r, run + [Stall(p)], p);
    MovesLater(cfg, r, run, run + [Stall(p)], p);
  }

  lemma DeadHolderMayStall(r: Regime, s: State, p: nat)
    requires p in s.jobs && s.jobs[p].state.Active? && !Live(s, s.jobs[p].state.holder)
    ensures Permits(r, s, Stall(p))
  {
  }

  /** The call is throwing, and its job has another attempt. */
  lemma ThrowingMoves(cfg: Config, r: Regime, run: seq<Label>, p: nat)
    requires Follows(cfg, r, run) && IsPending(After(cfg, run), p) && MayClaim(r, After(cfg, run), p)
    requires HolderIsOnPayment(After(cfg, run), p) && Runnable(After(cfg, run), p)
    requires After(cfg, run).jobs[p].state.Active? && Live(After(cfg, run), After(cfg, run).jobs[p].state.holder)
    requires After(cfg, run).workers[After(cfg, run).jobs[p].state.holder].phase.Throwing?
    ensures CanMove(cfg, r, run, p)
  {
    var s := After(cfg, run);
    var w := s.jobs[p].state.holder;
    PlainContinues(cfg, r, run, Call(w, Finish), p);
    RetryIsDelayed(cfg, s, p);
    SameFailures(r, s, After(cfg, run + [Call(w, Finish)]), p);
    DelayedMoves(cfg, r, run + [Call(w, Finish)], p);
    MovesLater(cfg, r, run, run + [Call(w, Finish)], p);
  }

  lemma RetryIsDelayed(cfg: Config, s: State, p: nat)
    requires IsPending(s, p) && HolderIsOnPayment(s, p) && Runnable(s, p)
    requires s.jobs[p].state.Active? && Live(s, s.jobs[p].state.holder)
    requires s.workers[s.jobs[p].state.holder].phase.Throwing?
    ensures var s' := Step(cfg, s, Call(s.jobs[p].state.holder, Finish));
            IsPending(s', p) && p in s'.jobs && s'.jobs[p].state.Delayed? && s'.failures == s.failures
  {
    assert Holds(s, s.jobs[p].state.holder, p);
  }

  /** What Runnable means: through this job the payment can be claimed, in any regime. */
  lemma RunnableMoves(cfg: Config, r: Regime, run: seq<Label>, p: nat)
    requires Follows(cfg, r, run) && IsPending(After(cfg, run), p) && MayClaim(r, After(cfg, run), p)
    requires HolderIsOnPayment(After(cfg, run), p) && Runnable(After(cfg, run), p)
    ensures CanMove(cfg, r, run, p)
  {
    var s := After(cfg, run);
    match s.jobs[p].state
    case Waiting => WaitingMoves(cfg, r, run, p);
    case Delayed => DelayedMoves(cfg, r, run, p);
    case Active(w) =>
      assert Holds(s, w, p);
      if !Live(s, w) {
        StalledMoves(cfg, r, run, p);
      } else if s.workers[w].phase.Ready? {
        ClaimMoves(cfg, r, run, p, w);
      } else {
        ThrowingMoves(cfg, r, run, p);
      }
    case Dead =>
  }

  // ---- A request or a sweep about to queue it ------------------------------------------------------------

  lemma RequestMoves(cfg: Config, r: Regime, run: seq<Label>, p: nat, c: nat)
    requires Follows(cfg, r, run) && IsPending(After(cfg, run), p) && MayClaim(r, After(cfg, run), p)
    requires Queues(After(cfg, run), c, p) && p !in After(cfg, run).jobs
    ensures CanMove(cfg, r, run, p)
    decreases After(cfg, run).clients[c].stage.MustRead?
  {
    var s := After(cfg, run);
    var l := if s.clients[c].stage.MustRead? then Api(c, ReadBack) else Api(c, QueueNew);
    PlainContinues(cfg, r, run, l, p);
    RequestStep(cfg, s, c, p);
    SameFailures(r, s, After(cfg, run + [l]), p);
    if s.clients[c].stage.MustRead? {
      RequestMoves(cfg, r, run + [l], p, c);
    } else {
      WaitingMoves(cfg, r, run + [l], p);
    }
    MovesLater(cfg, r, run, run + [l], p);
  }

  lemma RequestStep(cfg: Config, s: State, c: nat, p: nat)
    requires IsPending(s, p) && Queues(s, c, p) && p !in s.jobs
    ensures var s' := Step(cfg, s, if s.clients[c].stage.MustRead? then Api(c, ReadBack) else Api(c, QueueNew));
            && IsPending(s', p) && s'.failures == s.failures
            && (if s.clients[c].stage.MustRead? then Queues(s', c, p) && s'.clients[c].stage.MustQueue? && p !in s'.jobs
                else p in s'.jobs && s'.jobs[p].state.Waiting?)
  {
  }

  lemma RequeueMoves(cfg: Config, r: Regime, run: seq<Label>, p: nat, k: nat)
    requires Follows(cfg, r, run) && IsPending(After(cfg, run), p) && MayClaim(r, After(cfg, run), p)
    requires Requeues(After(cfg, run), k, p) && p !in After(cfg, run).jobs
    ensures CanMove(cfg, r, run, p)
  {
    PlainContinues(cfg, r, run, Reconcile(k, Requeue), p);
    SameFailures(r, After(cfg, run), After(cfg, run + [Reconcile(k, Requeue)]), p);
    WaitingMoves(cfg, r, run + [Reconcile(k, Requeue)], p);
    MovesLater(cfg, r, run, run + [Reconcile(k, Requeue)], p);
  }

  lemma ClearMoves(cfg: Config, r: Regime, run: seq<Label>, p: nat, k: nat)
    requires Follows(cfg, r, run) && IsPending(After(cfg, run), p) && MayClaim(r, After(cfg, run), p)
    requires Clears(After(cfg, run), k, p)
    requires p in After(cfg, run).jobs ==> !After(cfg, run).jobs[p].state.Active?
    ensures CanMove(cfg, r, run, p)
  {
    IdleJobMayBeCleared(r, After(cfg, run), p, k);
    OneMoreContinues(cfg, r, run, Reconcile(k, Clear), p);
    SameFailures(r, After(cfg, run), After(cfg, run + [Reconcile(k, Clear)]), p);
    RequeueMoves(cfg, r, run + [Reconcile(k, Clear)], p, k);
    MovesLater(cfg, r, run, run + [Reconcile(k, Clear)], p);
  }

  lemma IdleJobMayBeCleared(r: Regime, s: State, p: nat, k: nat)
    requires Clears(s, k, p) && (p in s.jobs ==> !s.jobs[p].state.Active?)
    ensures Permits(r, s, Reconcile(k, Clear))
  {
  }

  // ---- A call past its claim, in the way of a sweep --------------------------------------------------------

  function Rank(phase: Phase): nat {
    match phase
    case Holding(_) => 4
    case Calling(_) => 3
    case Answered(_) => 2
    case Returning => 1
    case _ => 0
  }

  /** The next thing such a call does when it is left alone. */
  function NextAct(phase: Phase): CallAct {
    match phase
    case Holding(_) => CallGateway(false)
    case Calling(charged) => Answer(if charged then Charged([]) else TIMEOUT)
    case Answered(_) => Settle
    case _ => Finish
  }

  lemma NextActIsPermitted(r: Regime, s: State, w: nat)
    requires w in s.workers && (Charging(s.workers[w]) || s.workers[w].phase.Returning?)
    ensures Permits(r, s, Call(w, NextAct(s.workers[w].phase)))
  {
  }

  /** Its payment is Pending, so it ends without a write, and its job completes. */
  lemma NextActGoesOn(cfg: Config, s: State, p: nat, k: nat, w: nat)
    requires IsPending(s, p) && Clears(s, k, p) && Holds(s, w, p) && w in s.workers && s.workers[w].pid == p
    requires Charging(s.workers[w]) || s.workers[w].phase.Returning?
    ensures var s' := Step(cfg, s, Call(w, NextAct(s.workers[w].phase)));
            && IsPending(s', p) && Clears(s', k, p) && s'.failures == s.failures
            && (if s.workers[w].phase.Returning? then p !in s'.jobs
                else Holds(s', w, p) && w in s'.workers && s'.workers[w].pid == p
                     && (Charging(s'.workers[w]) || s'.workers[w].phase.Returning?)
                     && Rank(s'.workers[w].phase) < Rank(s.workers[w].phase))
  {
  }

  lemma {:induction false} BlockedClearMoves(cfg: Config, r: Regime, run: seq<Label>, p: nat, k: nat, w: nat)
    requires Follows(cfg, r, run) && IsPending(After(cfg, run), p) && MayClaim(r, After(cfg, run), p)
    requires Clears(After(cfg, run), k, p) && Holds(After(cfg, run), w, p)
    requires w in After(cfg, run).workers && After(cfg, run).workers[w].pid == p
    requires Charging(After(cfg, run).workers[w]) || After(cfg, run).workers[w].phase.Returning?
    ensures CanMove(cfg, r, run, p)
    decreases Rank(After(cfg, run).workers[w].phase)
  {
    var s := After(cfg, run);
    var l := Call(w, NextAct(s.workers[w].phase));
    NextActIsPermitted(r, s, w);
    OneMoreContinues(cfg, r, run, l, p);
    NextActGoesOn(cfg, s, p, k, w);
    SameFailures(r, s, After(cfg, run + [l]), p);
    if s.workers[w].phase.Returning? {
      ClearMoves(cfg, r, run + [l], p, k);
    } else {
      BlockedClearMoves(cfg, r, run + [l], p, k, w);
    }
    MovesLater(cfg, r, run, run + [l], p);
  }

  // ---- Whatever carries the payment ------------------------------------------------------------------------

  lemma CarriedMoves(cfg: Config, r: Regime, run: seq<Label>, p: nat)
    requires Follows(cfg, r, run) && IsPending(After(cfg, run), p) && Carried(After(cfg, run), p)
    requires Locked(After(cfg, run)) && Fresh(After(cfg, run), p)
    ensures CanMove(cfg, r, run, p)
  {
    var s := After(cfg, run);
    assert HolderIsOnPayment(s, p);
    if w :| Fails(s, w, p) {
      FailureMoves(cfg, r, run, p, w);
    } else if Runnable(s, p) {
      RunnableMoves(cfg, r, run, p);
    } else if Dying(s, p) {
      DyingMoves(cfg, r, run, p);
    } else if c :| Queues(s, c, p) {
      RequestMoves(cfg, r, run, p, c);
    } else if k :| Clears(s, k, p) {
      if HeldPastClaim(s, p) {
        assert Holds(s, s.jobs[p].state.holder, p);
        BlockedClearMoves(cfg, r, run, p, k, s.jobs[p].state.holder);
      } else {
        ClearMoves(cfg, r, run, p, k);
      }
    } else {
      var k :| Requeues(s, k, p);
      RequeueMoves(cfg, r, run, p, k);
    }
  }

  lemma UnclaimedMoves(cfg: Config, r: Regime, run: seq<Label>, p: nat)
    requires Follows(cfg, r, run) && IsPending(After(cfg, run), p) && Unclaimed(After(cfg, run), p)
    ensures CanMove(cfg, r, run, p)
  {
    var s := After(cfg, run);
    forall w | Holds(s, w, p) ensures w in s.workers && s.workers[w].pid == p { assert HasNotClaimed(s, w, p); }
    if w :| Fails(s, w, p) {
      FailureMoves(cfg, r, run, p, w);
    } else if p !in s.jobs {
      var c :| Queues(s, c, p);
      RequestMoves(cfg, r, run, p, c);
    } else if Dying(s, p) {
      DyingMoves(cfg, r, run, p);
    } else {
      if s.jobs[p].state.Active? {
        assert Holds(s, s.jobs[p].state.holder, p) ==> HasNotClaimed(s, s.jobs[p].state.holder, p);
      }
      RunnableMoves(cfg, r, run, p);
    }
  }

  /** In a lossless regime every Pending payment of every reachable state can be claimed, or settled, without help. */
  lemma EveryPaymentCanMove(cfg: Config, r: Regime, run: seq<Label>, p: nat)
    requires Lossless(cfg, r) && Follows(cfg, r, run) && IsPending(After(cfg, run), p)
    ensures CanMove(cfg, r, run, p)
  {
    if Careful(r) {
      CarefulRunsAreSafe(cfg, r, run, p);
      CarriedMoves(cfg, r, run, p);
    } else {
      OneAttemptStaysUnclaimed(cfg, r, run, p);
      UnclaimedMoves(cfg, r, run, p);
    }
  }

  lemma StrandedCannotMove(cfg: Config, r: Regime, run: seq<Label>, p: nat)
    requires IsStranded(After(cfg, run), p)
    ensures !CanMove(cfg, r, run, p)
  {
    forall longer | Continues(cfg, r, run, longer, p) ensures IsPending(After(cfg, longer), p) {
      var more := longer[|run|..];
      assert longer == run + more;
      forall i | 0 <= i < |more| ensures NoHelp(more[i], p) { assert more[i] == longer[|run| + i]; }
      RunAppend(cfg, INITIAL, run, more);
      JobsAreForTheirPayments(cfg, run);
      StrandedForever(cfg, After(cfg, run), more, p);
    }
  }

  /**
   * The exact condition once more, said of what can happen next: under any regime, every Pending payment of
   * every reachable state can still be claimed or settled without outside help exactly when the regime is lossless.
   */
  lemma EveryPaymentCanMoveExactly(cfg: Config, r: Regime)
    ensures (forall run, p :: Follows(cfg, r, run) && IsPending(After(cfg, run), p) ==> CanMove(cfg, r, run, p))
            <==> Lossless(cfg, r)
  {
    if Lossless(cfg, r) {
      forall run, p | Follows(cfg, r, run) && IsPending(After(cfg, run), p) ensures CanMove(cfg, r, run, p) {
        EveryPaymentCanMove(cfg, r, run, p);
      }
    } else {
      var run := SomethingStrandedUnder(cfg, r);
      StrandedCannotMove(cfg, r, run, 0);
    }
  }

  // ---- A released payment that gets no fresh attempt -------------------------------------------------------

  /** Its claim has gone stale, and a sweep has released it. */
  function LastTryReleased(cfg: Config): State {
    ReleasedBy(LastTry(cfg, Throwing([])).(clock := cfg.staleMs + 1), 0)
  }

  /** Every regime has a run in which a sweep releases a payment whose job is dying. */
  lemma DyingJobRemains(cfg: Config, r: Regime) returns (run: seq<Label>)
    requires 2 <= cfg.maxAttempts
    ensures Follows(cfg, r, run) && After(cfg, run) == LastTryReleased(cfg)
    ensures Clears(After(cfg, run), 0, 0) && Dying(After(cfg, run), 0)
  {
    var thrown := LastTryBreaks(cfg, r);
    LastTryIsStale(cfg);
    var stale := GrownStale(cfg, r, thrown, LastTry(cfg, Throwing([])));
    run := SweptNow(cfg, r, stale, LastTry(cfg, Throwing([])).(clock := cfg.staleMs + 1));
    ReleasedIsDying(cfg);
  }

  lemma LastTryIsStale(cfg: Config)
    requires 2 <= cfg.maxAttempts
    ensures var s := LastTry(cfg, Throwing([]));
            && StaleIds(s.db.payments, 1) == {0} && s.clock == 0 && s.sweeps == map[]
            && 0 in s.db.payments && s.db.payments[0].attempts < s.db.payments[0].maxAttempts
            && (forall w :: w in s.workers ==> !Charging(s.workers[w]))
  {
  }

  lemma ReleasedIsDying(cfg: Config)
    ensures Clears(LastTryReleased(cfg), 0, 0) && Dying(LastTryReleased(cfg), 0)
  {
  }

  /** Whatever is assumed: such a payment can fail with attempts left, since its job dies and nobody tries again. */
  lemma DyingJobDeniesAttempt(cfg: Config, r: Regime) returns (run: seq<Label>)
    requires 2 <= cfg.maxAttempts
    ensures Follows(cfg, r, run) && 0 in After(cfg, run).db.payments
    ensures var row := After(cfg, run).db.payments[0]; row.status == Failed && row.attempts < row.maxAttempts
  {
    var w := cfg.maxAttempts - 1;
    var before := DyingJobRemains(cfg, r);
    var s := LastTryReleased(cfg);
    JobDies(cfg, r, before, s, w);
    FailureIsHandled(cfg, r, before + [Call(w, Finish)], JobDiedUnder(s, w), w);
    run := before + [Call(w, Finish)] + [HandleFailed(w)];
  }
}
