/** Timed exclusivity when sweeps may overlap: recovery checks the status again, but not the age. */
module Overlap {
  import opened StateMachine
  import H = RowHistory
  import opened Tables
  import opened Protocol
  import opened SystemRows
  import opened InFlight
  import opened Regimes
  import opened Exclusivity
  import opened Witness
  import opened Sharpness

  /** A payment on a sweep list has been claimed, and while that is its first claim nobody is charging it. */
  ghost predicate Listed(s: State, p: nat) {
    && p in s.db.payments && 0 < s.db.payments[p].attempts
    && (s.db.payments[p].status == Processing && s.db.payments[p].attempts == 1 ==> InFlightOn(s, p) == {})
  }

  ghost predicate Orderly(s: State, p: nat, bound: nat) {
    && Exclusive(s, p)
    && (forall w :: w in InFlightOn(s, p) ==> Owns(s, p, w, bound))
    && (forall k :: k in s.sweeps && p in s.sweeps[k].todo ==> Listed(s, p))
  }

  lemma ListsMove(cfg: Config, s: State, l: Label, p: nat, k: nat)
    requires k in Step(cfg, s, l).sweeps && p in Step(cfg, s, l).sweeps[k].todo
    ensures (k in s.sweeps && p in s.sweeps[k].todo)
            || (l == Select(k) && p in StaleIds(s.db.payments, s.clock - cfg.staleMs))
  {
  }

  /** A recovery only ever looks at a row on its sweep's list. */
  lemma RecoveriesAreListed(cfg: Config, s: State, l: Label, p: nat)
    requires WriteTo(cfg, s, l, p).Recovered?
    ensures l.Reconcile? && l.k in s.sweeps && p in s.sweeps[l.k].todo
  {
  }

  /** With at most two attempts a release only ever happens to a row whose first claim nobody is charging. */
  lemma ReleasesAreIdle(cfg: Config, s: State, l: Label, p: nat, bound: nat)
    requires cfg.maxAttempts <= 2 && RowsSound(cfg, s) && Orderly(s, p, bound)
    requires WriteTo(cfg, s, l, p).Recovered? && InFlightOn(s, p) != {}
    ensures RowOf(Step(cfg, s, l).db, p) == RowOf(s.db, p) || H.HasSettled(RowOf(Step(cfg, s, l).db, p))
  {
    RecoveriesAreListed(cfg, s, l, p);
    StepIsAWrite(cfg, s, l, p);
  }

  lemma OrderlyCallsOwn(cfg: Config, s: State, l: Label, p: nat, w: nat, bound: nat)
    requires cfg.maxAttempts <= 2 && RowsSound(cfg, s)
    requires Orderly(s, p, bound) && Punctual(s, l, bound)
    requires w in InFlightOn(Step(cfg, s, l), p)
    ensures Owns(Step(cfg, s, l), p, w, bound)
  {
    InFlightMoves(cfg, s, l, p);
    if w in InFlightOn(s, p) {
      OldCallOwns(cfg, s, l, p, w, bound);
    } else {
      NewCallOwns(cfg, s, l, p, w, bound);
    }
  }

  /** A call that has just claimed: its stamp is now. */
  lemma NewCallOwns(cfg: Config, s: State, l: Label, p: nat, w: nat, bound: nat)
    requires ClaimsRow(cfg, s, l, p) && l.w == w && w in InFlightOn(Step(cfg, s, l), p)
    ensures Owns(Step(cfg, s, l), p, w, bound)
  {
    StepIsAWrite(cfg, s, l, p);
  }

  /** The row of a call that stays in flight moves only to settle. */
  lemma OwnedRowMoves(cfg: Config, s: State, l: Label, p: nat, w: nat, bound: nat)
    requires cfg.maxAttempts <= 2 && RowsSound(cfg, s) && Orderly(s, p, bound)
    requires w in InFlightOn(s, p) && w in InFlightOn(Step(cfg, s, l), p)
    ensures RowOf(Step(cfg, s, l).db, p) == RowOf(s.db, p) || H.HasSettled(RowOf(Step(cfg, s, l).db, p))
  {
    if WriteTo(cfg, s, l, p).Recovered? {
      ReleasesAreIdle(cfg, s, l, p, bound);
    } else {
      StepIsAWrite(cfg, s, l, p);
      InFlightMoves(cfg, s, l, p);
    }
  }

  lemma OldCallOwns(cfg: Config, s: State, l: Label, p: nat, w: nat, bound: nat)
    requires cfg.maxAttempts <= 2 && RowsSound(cfg, s)
    requires Orderly(s, p, bound) && Punctual(s, l, bound)
    requires w in InFlightOn(s, p) && w in InFlightOn(Step(cfg, s, l), p)
    ensures Owns(Step(cfg, s, l), p, w, bound)
  {
    OwnedRowMoves(cfg, s, l, p, w, bound);
    WorkersMove(cfg, s, l, w);
    ClockMoves(cfg, s, l);
  }

  /** A row that looks stale has outlived every live call. */
  lemma StaleIsListed(cfg: Config, s: State, p: nat, bound: nat)
    requires bound <= cfg.staleMs && RowsSound(cfg, s) && Orderly(s, p, bound)
    requires p in StaleIds(s.db.payments, s.clock - cfg.staleMs)
    ensures Listed(s, p)
  {
  }

  lemma ListedIsKept(cfg: Config, s: State, l: Label, p: nat)
    requires Listed(s, p)
    ensures Listed(Step(cfg, s, l), p)
  {
    StepIsAWrite(cfg, s, l, p);
    InFlightMoves(cfg, s, l, p);
  }

  lemma ListedStays(cfg: Config, s: State, l: Label, p: nat, k: nat, bound: nat)
    requires bound <= cfg.staleMs && RowsSound(cfg, s) && Orderly(s, p, bound)
    requires k in Step(cfg, s, l).sweeps && p in Step(cfg, s, l).sweeps[k].todo
    ensures Listed(Step(cfg, s, l), p)
  {
    ListsMove(cfg, s, l, p, k);
    if p in StaleIds(s.db.payments, s.clock - cfg.staleMs) { StaleIsListed(cfg, s, p, bound); }
    ListedIsKept(cfg, s, l, p);
  }

  lemma StepKeepsOrderly(cfg: Config, s: State, l: Label, p: nat, bound: nat)
    requires bound <= cfg.staleMs && cfg.maxAttempts <= 2 && RowsSound(cfg, s)
    requires Orderly(s, p, bound) && Punctual(s, l, bound)
    ensures Orderly(Step(cfg, s, l), p, bound)
  {
    var s' := Step(cfg, s, l);
    InFlightMoves(cfg, s, l, p);
    forall w | w in InFlightOn(s', p)
      ensures Owns(s', p, w, bound)
    {
      OrderlyCallsOwn(cfg, s, l, p, w, bound);
    }
    forall k | k in s'.sweeps && p in s'.sweeps[k].todo
      ensures Listed(s', p)
    {
      ListedStays(cfg, s, l, p, k, bound);
    }
  }

  lemma {:induction false} TwoAttemptsStayOrderly(cfg: Config, r: Regime, run: seq<Label>, p: nat)
    requires Follows(cfg, r, run) && r.bound.Some? && r.bound.value <= cfg.staleMs && cfg.maxAttempts <= 2
    ensures Orderly(After(cfg, run), p, r.bound.value)
  {
    if |run| > 0 {
      var before := run[..|run| - 1];
      TwoAttemptsStayOrderly(cfg, r, before, p);
      ReachableRowsSound(cfg, before);
      StepKeepsOrderly(cfg, After(cfg, before), run[|run| - 1], p, r.bound.value);
    }
  }

  // ---- Three attempts and two sweeps -------------------------------------------------------------------

  /** Sweeps 0 and 1 have both selected payment 0. */
  function SelectedTwice(cfg: Config): State {
    SelectedBy(SelectedBy(DeadClaim(cfg), 0), 1)
  }

  lemma SelectedTwiceReached(cfg: Config, r: Regime) returns (run: seq<Label>)
    requires !r.oneSweep
    ensures Follows(cfg, r, run) && After(cfg, run) == SelectedTwice(cfg)
  {
    var s := DeadClaim(cfg);
    run := DeadClaimReached(cfg, r);
    ClaimIsStale(cfg);
    run := SelectedNow(cfg, r, run, s, 0);
    run := SelectedNow(cfg, r, run, SelectedBy(s, 0), 1);
  }

  /** Both sweeps release it, the second although call 1 has claimed it meanwhile and is alive. */
  function ReleasedTwice(cfg: Config, direct: bool): State {
    ReleasedBy(ClaimedBy(ReleasedBy(SelectedTwice(cfg), 0), 1, direct), 1)
  }

  lemma ReleasedTwiceReached(cfg: Config, r: Regime, direct: bool) returns (run: seq<Label>)
    requires !r.oneSweep && 3 <= cfg.maxAttempts && (direct ==> !r.queueOnly)
    ensures Follows(cfg, r, run) && After(cfg, run) == ReleasedTwice(cfg, direct)
  {
    var s := SelectedTwice(cfg);
    run := SelectedTwiceReached(cfg, r);
    run := ReleasedNow(cfg, r, run, s, 0);
    run := Reclaimed(cfg, r, run, ReleasedBy(s, 0), 1, direct);
    run := ReleasedNow(cfg, r, run, ClaimedBy(ReleasedBy(s, 0), 1, direct), 1);
  }

  /**
   * However punctual the calls: two overlapping sweeps release one payment twice, and two live calls charge it,
   * if process() may be called directly or the job of a live call may be declared stalled.
   */
  lemma OverlapIsChargedTwice(cfg: Config, r: Regime) returns (run: seq<Label>)
    requires 3 <= cfg.maxAttempts && !r.oneSweep && !Serial(r)
    ensures Follows(cfg, r, run) && !Exclusive(After(cfg, run), 0)
  {
    var s := ReleasedTwice(cfg, !r.queueOnly);
    run := ReleasedTwiceReached(cfg, r, !r.queueOnly);
    run := Reclaimed(cfg, r, run, s, 2, !r.queueOnly);
    TwoInFlight(cfg, ClaimedBy(s, 2, !r.queueOnly), 1, 2);
  }

  /**
   * Under any regime, no run has two live charges for one payment exactly when the queue alone serialises the
   * calls, or there is no second attempt, or calls and sweeps keep to their times.
   */
  lemma ExclusiveExactly(cfg: Config, r: Regime)
    ensures (forall run, p :: Follows(cfg, r, run) ==> Exclusive(After(cfg, run), p))
            <==> (Serial(r) || cfg.maxAttempts == 1 || Timely(cfg, r))
  {
    if Serial(r) || cfg.maxAttempts == 1 || Timely(cfg, r) {
      forall run, p | Follows(cfg, r, run) ensures Exclusive(After(cfg, run), p) {
        ExclusiveUnder(cfg, r, run, p);
      }
    } else if r.bound.Some? && r.bound.value <= cfg.staleMs {
      var run := OverlapIsChargedTwice(cfg, r);
    } else {
      var run := LateCallIsChargedTwice(cfg, r);
    }
  }

  lemma ExclusiveUnder(cfg: Config, r: Regime, run: seq<Label>, p: nat)
    requires Follows(cfg, r, run) && (Serial(r) || cfg.maxAttempts == 1 || Timely(cfg, r))
    ensures Exclusive(After(cfg, run), p)
  {
    if Serial(r) {
      SerialExclusivity(cfg, r, run, p);
    } else if cfg.maxAttempts == 1 {
      BudgetOfOneIsExclusive(cfg, run, p);
    } else if r.oneSweep {
      TimedExclusivity(cfg, r, run, p);
    } else {
      TwoAttemptsStayOrderly(cfg, r, run, p);
    }
  }
}
