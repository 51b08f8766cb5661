/** How often the provider charges for one payment, whether or not anybody hears of it. */
module Provider {
  import opened StateMachine
  import opened Rows
  import H = RowHistory
  import opened Tables
  import opened Queue
  import opened Protocol
  import opened SystemRows
  import opened InFlight
  import opened Regimes
  import opened Exclusivity
  import opened Stranded
  import opened Witness
  import opened Overlap
  import opened Confirmed

  predicate Charges(s: State, l: Label, p: nat) {
    l.Call? && l.callAct == CallGateway(true) && IsHolding(s, l.w) && s.workers[l.w].pid == p
  }

  /** The charges the provider has made for payment `p` in a run. */
  function ChargesOf(cfg: Config, run: seq<Label>, p: nat): nat {
    if |run| == 0 then 0
    else
      ChargesOf(cfg, run[..|run| - 1], p)
      + if Charges(After(cfg, run[..|run| - 1]), run[|run| - 1], p) then 1 else 0
  }

  // ---- Charges and confirmations -----------------------------------------------------------------------

  /** The calls on payment `p` whose charge is made and not yet answered. */
  function Unheard(s: State, p: nat): set<nat> {
    set w | w in s.workers && s.workers[w].pid == p && s.workers[w].phase == Calling(true)
  }

  lemma UnheardCameFrom(cfg: Config, s: State, l: Label, p: nat, v: nat)
    requires v in Unheard(Step(cfg, s, l), p)
    ensures (v in Unheard(s, p) && !(ConfirmsCharge(s, l, p) && l.w == v)) || (Charges(s, l, p) && l.w == v)
  {
    WorkersMove(cfg, s, l, v);
  }

  lemma UnheardMoves(cfg: Config, s: State, l: Label, p: nat)
    ensures |Unheard(Step(cfg, s, l), p)| + (if ConfirmsCharge(s, l, p) then 1 else 0)
         <= |Unheard(s, p)| + if Charges(s, l, p) then 1 else 0
  {
    var now, later := Unheard(s, p), Unheard(Step(cfg, s, l), p);
    forall v | v in later
      ensures (v in now && !(ConfirmsCharge(s, l, p) && l.w == v)) || (Charges(s, l, p) && l.w == v)
    {
      UnheardCameFrom(cfg, s, l, p, v);
    }
    if ConfirmsCharge(s, l, p) {
      assert l.w in now;
      CardinalityOfSubset(later, now - {l.w});
    } else {
      CardinalityOfSubset(later, now + if Charges(s, l, p) then {l.w} else {});
    }
  }

  lemma {:induction false} UnheardAreCharged(cfg: Config, run: seq<Label>, p: nat)
    ensures ConfirmationsOf(cfg, run, p) + |Unheard(After(cfg, run), p)| <= ChargesOf(cfg, run, p)
  {
    if |run| > 0 {
      var before := run[..|run| - 1];
      UnheardAreCharged(cfg, before, p);
      UnheardMoves(cfg, After(cfg, before), run[|run| - 1], p);
    } else {
      assert Unheard(INITIAL, p) == {};
    }
  }

  /** Every confirmation is of a charge of its own. */
  lemma ConfirmationsAreCharges(cfg: Config, run: seq<Label>, p: nat)
    ensures ConfirmationsOf(cfg, run, p) <= ChargesOf(cfg, run, p)
  {
    UnheardAreCharged(cfg, run, p);
  }

  lemma {:induction false} ChargesAreCalls(cfg: Config, run: seq<Label>, p: nat)
    ensures ChargesOf(cfg, run, p) <= GatewayCallsOf(cfg, run, p)
  {
    if |run| > 0 { ChargesAreCalls(cfg, run[..|run| - 1], p); }
  }

  /** The provider never charges more often than the budget allows. */
  lemma ChargesStayInBudget(cfg: Config, run: seq<Label>, p: nat)
    ensures ChargesOf(cfg, run, p) <= cfg.maxAttempts
  {
    ChargesAreCalls(cfg, run, p);
    CallsAreClaimed(cfg, run, p);
    if p in After(cfg, run).db.payments {
      EveryRunKeepsTheBudget(cfg, run, p);
    } else {
      RowsFollowTheirWrites(cfg, INITIAL, run, p);
      H.AttemptsCountClaims(Writes(cfg, INITIAL, run, p));
    }
  }

  // ---- At most one charge ------------------------------------------------------------------------------

  /** The provider has charged on this call, and the call has not settled. */
  predicate HoldsCharge(x: Worker) {
    x.phase == Calling(true) || HoldsConfirmation(x)
  }

  /** No claim can reach the row, every call in flight is charged, and while the row is Processing there is one. */
  ghost predicate Paid(s: State, p: nat) {
    && p in s.db.payments && s.db.payments[p].status != Pending
    && (forall w :: w in InFlightOn(s, p) ==> HoldsCharge(s.workers[w]))
    && (s.db.payments[p].status == Processing ==> InFlightOn(s, p) != {})
  }

  lemma ChargePays(cfg: Config, s: State, l: Label, p: nat)
    requires Charges(s, l, p) && Exclusive(s, p)
    requires p in s.db.payments && s.db.payments[p].status != Pending
    ensures Paid(Step(cfg, s, l), p)
  {
    var s' := Step(cfg, s, l);
    StepIsAWrite(cfg, s, l, p);
    assert l.w in InFlightOn(s, p) && l.w in InFlightOn(s', p);
    InFlightMoves(cfg, s, l, p);
  }

  lemma ChargingCallIsUncharged(s: State, l: Label, p: nat)
    ensures Charges(s, l, p) ==> l.w in InFlightOn(s, p) && !HoldsCharge(s.workers[l.w])
  {
  }

  lemma PaidCallsStayCharged(cfg: Config, s: State, l: Label, p: nat, w: nat)
    requires Paid(s, p) && HearsCharge(s, l) && w in InFlightOn(s, p) && w in InFlightOn(Step(cfg, s, l), p)
    ensures HoldsCharge(Step(cfg, s, l).workers[w])
  {
    WorkersMove(cfg, s, l, w);
  }

  lemma ChargedCallStays(cfg: Config, s: State, l: Label, p: nat, w: nat)
    requires Paid(s, p) && w in InFlightOn(s, p) && !WriteTo(cfg, s, l, p).Settled?
    requires KeepsAnswer(s, l) && HearsCharge(s, l)
    ensures w in InFlightOn(Step(cfg, s, l), p)
  {
    assert HoldsCharge(s.workers[w]);
  }

  /** A settle is that of a confirmed charge, and takes the row out of Processing. */
  lemma PaidSettles(cfg: Config, s: State, l: Label, p: nat)
    requires Paid(s, p)
    ensures WriteTo(cfg, s, l, p).Settled? ==> !H.StatusOf(RowOf(Step(cfg, s, l).db, p), Processing)
    ensures WriteTo(cfg, s, l, p).Settled? ==> !H.StatusOf(RowOf(Step(cfg, s, l).db, p), Pending)
  {
    StepIsAWrite(cfg, s, l, p);
    if WriteTo(cfg, s, l, p).Settled? {
      InFlightMoves(cfg, s, l, p);
      assert HoldsCharge(s.workers[l.w]);
    }
  }

  lemma StepKeepsPaid(cfg: Config, s: State, l: Label, p: nat)
    requires Paid(s, p) && KeepsAnswer(s, l) && HearsCharge(s, l)
    requires !H.IsRelease(RowOf(s.db, p), WriteTo(cfg, s, l, p))
    ensures Paid(Step(cfg, s, l), p) && !Charges(s, l, p)
  {
    var s' := Step(cfg, s, l);
    StepIsAWrite(cfg, s, l, p);
    InFlightMoves(cfg, s, l, p);
    ChargingCallIsUncharged(s, l, p);
    PaidSettles(cfg, s, l, p);
    forall w | w in InFlightOn(s', p) ensures HoldsCharge(s'.workers[w]) { PaidCallsStayCharged(cfg, s, l, p, w); }
    if s'.db.payments[p].status == Processing {
      var w :| w in InFlightOn(s, p);
      ChargedCallStays(cfg, s, l, p, w);
    }
  }

  /** No sweep releases a payment while a call on it is in flight: its row is on no list, or out of attempts. */
  lemma PaidIsNotReleased(cfg: Config, r: Regime, run: seq<Label>, p: nat, l: Label)
    requires Follows(cfg, r, run) && Timely(cfg, r) && Paid(After(cfg, run), p)
    ensures !H.IsRelease(RowOf(After(cfg, run).db, p), WriteTo(cfg, After(cfg, run), l, p))
  {
    var s := After(cfg, run);
    if WriteTo(cfg, s, l, p).Recovered? {
      RecoveriesAreListed(cfg, s, l, p);
      if r.oneSweep {
        TimedRunsAreTidy(cfg, r, run, p);
      } else {
        TwoAttemptsStayOrderly(cfg, r, run, p);
        ReachableRowsSound(cfg, run);
      }
    }
  }

  lemma TimelyHolderOwnsRow(cfg: Config, r: Regime, run: seq<Label>, p: nat, w: nat)
    requires Follows(cfg, r, run) && Timely(cfg, r)
    requires IsHolding(After(cfg, run), w) && After(cfg, run).workers[w].pid == p
    ensures Exclusive(After(cfg, run), p)
    ensures p in After(cfg, run).db.payments && After(cfg, run).db.payments[p].status != Pending
  {
    assert w in InFlightOn(After(cfg, run), p);
    if r.oneSweep { TimedRunsAreTidy(cfg, r, run, p); } else { TwoAttemptsStayOrderly(cfg, r, run, p); }
  }

  /**
   * With calls and sweeps in time, and no call that dies, breaks or is refused on a charge the provider has made,
   * the provider charges a payment at most once, over all retries and recoveries.
   */
  lemma {:induction false} ProviderChargesOnceInTime(cfg: Config, r: Regime, run: seq<Label>, p: nat)
    requires Follows(cfg, r, run) && Timely(cfg, r) && r.answersKept && r.chargesHeard
    ensures ChargesOf(cfg, run, p) <= 1
    ensures ChargesOf(cfg, run, p) == 1 ==> Paid(After(cfg, run), p)
  {
    if |run| > 0 {
      var before, l := run[..|run| - 1], run[|run| - 1];
      ProviderChargesOnceInTime(cfg, r, before, p);
      if ChargesOf(cfg, before, p) == 1 {
        PaidIsNotReleased(cfg, r, before, p, l);
        StepKeepsPaid(cfg, After(cfg, before), l, p);
      } else if Charges(After(cfg, before), l, p) {
        TimelyHolderOwnsRow(cfg, r, before, p, l.w);
        ChargePays(cfg, After(cfg, before), l, p);
      }
    }
  }

  // ---- A charge behind a timeout -----------------------------------------------------------------------

  /** Call 0 has timed out on its first attempt, although the provider has charged; the retry is waiting. */
  function TimedOut(cfg: Config): State {
    FirstClaim(cfg).(
      db := OnRow(FirstClaim(cfg).db, 0, Settled(TIMEOUT)),
      jobs := map[0 := Job(0, Waiting, 1, cfg.maxAttempts)],
      workers := map[0 := Worker(0, true, 0, Ended)])
  }

  lemma ChargeTimesOut(cfg: Config, r: Regime) returns (run: seq<Label>)
    requires !r.chargesHeard
    ensures Follows(cfg, r, run) && 1 <= ChargesOf(cfg, run, 0)
    ensures After(cfg, run) == WithPhase(FirstClaim(cfg), 0, Answered(TIMEOUT))
  {
    var s := FirstClaim(cfg);
    var claimed := FirstClaimReached(cfg, r);
    ChargeIsMade(cfg, r, claimed, s, 0);
    var asked := claimed + [Call(0, CallGateway(true))];
    ChargedMayTimeOut(r, WithPhase(s, 0, Calling(true)), 0);
    OneMoreLabel(cfg, r, asked, Call(0, Answer(TIMEOUT)));
    run := asked + [Call(0, Answer(TIMEOUT))];
    assert CallStep(WithPhase(s, 0, Calling(true)), 0, Answer(TIMEOUT)) == WithPhase(s, 0, Answered(TIMEOUT));
    ChargesNeverDrop(cfg, asked, [Call(0, Answer(TIMEOUT))], 0);
  }

  lemma ChargeIsMade(cfg: Config, r: Regime, before: seq<Label>, s: State, w: nat)
    requires Follows(cfg, r, before) && After(cfg, before) == s && IsHolding(s, w) && s.workers[w].pid == 0
    ensures var run := before + [Call(w, CallGateway(true))];
            && Follows(cfg, r, run) && After(cfg, run) == WithPhase(s, w, Calling(true))
            && ChargesOf(cfg, run, 0) == ChargesOf(cfg, before, 0) + 1
  {
    var l := Call(w, CallGateway(true));
    GatewayIsAsked(cfg, r, before, s, w);
    assert (before + [l])[..|before + [l]| - 1] == before;
  }

  lemma ChargedMayTimeOut(r: Regime, s: State, w: nat)
    requires OnWorker(s, w, Calling(true)) && !r.chargesHeard
    ensures Permits(r, s, Call(w, Answer(TIMEOUT)))
  {
  }

  lemma {:induction false} ChargesNeverDrop(cfg: Config, run: seq<Label>, more: seq<Label>, p: nat)
    ensures ChargesOf(cfg, run, p) <= ChargesOf(cfg, run + more, p)
  {
    if |more| == 0 {
      assert run + more == run;
    } else {
      ChargesNeverDrop(cfg, run, more[..|more| - 1], p);
      assert (run + more)[..|run + more| - 1] == run + more[..|more| - 1];
    }
  }

  const RETRYING := [Call(0, Settle), Call(0, Finish), Promote(0)]

  lemma TimeOutIsRetried(cfg: Config)
    requires 2 <= cfg.maxAttempts
    ensures Run(cfg, WithPhase(FirstClaim(cfg), 0, Answered(TIMEOUT)), RETRYING) == TimedOut(cfg)
  {
    var s := WithPhase(FirstClaim(cfg), 0, Answered(TIMEOUT));
    RunOfThree(cfg, s, Call(0, Settle), Call(0, Finish), Promote(0));
    TimeOutSettles(cfg);
    TimeOutFinishes(cfg);
  }

  /** The row is Pending again, and the call throws its timeout. */
  function TimingOutNow(cfg: Config): State {
    WithPhase(FirstClaim(cfg), 0, Throwing("timeout")).(db := OnRow(FirstClaim(cfg).db, 0, Settled(TIMEOUT)))
  }

  lemma TimeOutSettles(cfg: Config)
    requires 2 <= cfg.maxAttempts
    ensures CallStep(WithPhase(FirstClaim(cfg), 0, Answered(TIMEOUT)), 0, Settle) == TimingOutNow(cfg)
  {
  }

  lemma TimeOutFinishes(cfg: Config)
    requires 2 <= cfg.maxAttempts
    ensures CallStep(TimingOutNow(cfg), 0, Finish) == SetJob(TimedOut(cfg), 0, Delayed)
  {
  }

  lemma RetryIsWaiting(cfg: Config, r: Regime, before: seq<Label>)
    requires 2 <= cfg.maxAttempts && Follows(cfg, r, before)
    requires After(cfg, before) == WithPhase(FirstClaim(cfg), 0, Answered(TIMEOUT))
    ensures Follows(cfg, r, before + RETRYING) && After(cfg, before + RETRYING) == TimedOut(cfg)
  {
    PlainSuffix(cfg, r, before, RETRYING);
    RunAppend(cfg, INITIAL, before, RETRYING);
    TimeOutIsRetried(cfg);
  }

  /** Whatever else is assumed: a charge that times out is made again by the retry. */
  lemma TimedOutChargesAgain(cfg: Config, r: Regime) returns (run: seq<Label>)
    requires 2 <= cfg.maxAttempts && !r.chargesHeard
    ensures Follows(cfg, r, run) && 2 <= ChargesOf(cfg, run, 0)
  {
    var charged := ChargeTimesOut(cfg, r);
    RetryIsWaiting(cfg, r, charged);
    var claimed := TakenAndClaimed(cfg, r, charged + RETRYING, TimedOut(cfg), 1);
    ChargesNeverDrop(cfg, charged, RETRYING + Claiming(1), 0);
    assert charged + RETRYING + Claiming(1) == charged + (RETRYING + Claiming(1));
    ChargeIsMade(cfg, r, claimed, ClaimedBy(TimedOut(cfg), 1, false), 1);
    run := claimed + [Call(1, CallGateway(true))];
  }

  // ---- The exact condition -----------------------------------------------------------------------------

  lemma SomethingChargedTwice(cfg: Config, r: Regime) returns (run: seq<Label>)
    requires 2 <= cfg.maxAttempts && !(Timely(cfg, r) && r.answersKept && r.chargesHeard)
    ensures Follows(cfg, r, run) && 2 <= ChargesOf(cfg, run, 0)
  {
    if !r.chargesHeard {
      run := TimedOutChargesAgain(cfg, r);
    } else {
      if !r.answersKept {
        run := CrashAfterChargeChargesAgain(cfg, r, [], []);
      } else if r.bound.Some? && r.bound.value <= cfg.staleMs {
        run := OverlapChargesAgain(cfg, r);
      } else {
        run := LateCallChargesAgain(cfg, r);
      }
      ConfirmationsAreCharges(cfg, run, 0);
    }
  }

  /**
   * Under any regime, the provider charges each payment at most once in every run exactly when there is no second
   * attempt, or calls and sweeps keep to their times and every charge made is heard and settled.
   */
  lemma ProviderChargesOnceExactly(cfg: Config, r: Regime)
    ensures (forall run, p :: Follows(cfg, r, run) ==> ChargesOf(cfg, run, p) <= 1)
            <==> (cfg.maxAttempts == 1 || (Timely(cfg, r) && r.answersKept && r.chargesHeard))
  {
    if cfg.maxAttempts == 1 {
      forall run, p | Follows(cfg, r, run) ensures ChargesOf(cfg, run, p) <= 1 {
        ChargesStayInBudget(cfg, run, p);
      }
    } else if Timely(cfg, r) && r.answersKept && r.chargesHeard {
      forall run, p | Follows(cfg, r, run) ensures ChargesOf(cfg, run, p) <= 1 {
        ProviderChargesOnceInTime(cfg, r, run, p);
      }
    } else {
      var run := SomethingChargedTwice(cfg, r);
    }
  }
}
