/** How many gateway calls can be outstanding for one payment, with no assumption on timing or on the queue. */
module InFlight {
  import opened StateMachine
  import opened Rows
  import H = RowHistory
  import opened Tables
  import opened Protocol
  import opened SystemRows

  /** Between its claim and its settle. */
  predicate Charging(x: Worker) {
    x.phase.Holding? || x.phase.Calling? || x.phase.Answered?
  }

  /** The gateway has confirmed the charge, and the call has not settled. */
  predicate HoldsConfirmation(x: Worker) {
    x.phase.Answered? && x.phase.answer.Charged?
  }

  /** The process() calls that have claimed payment `p` and not settled, failed or crashed. */
  function InFlightOn(s: State, p: nat): set<nat> {
    set w | w in s.workers && s.workers[w].pid == p && Charging(s.workers[w])
  }

  /** Those of them that have not called the gateway yet. */
  function UncalledOn(s: State, p: nat): set<nat> {
    set w | w in s.workers && s.workers[w].pid == p && s.workers[w].phase.Holding?
  }

  predicate ClaimsRow(cfg: Config, s: State, l: Label, p: nat) {
    WriteTo(cfg, s, l, p).Claimed? && H.StatusOf(RowOf(s.db, p), Pending)
  }

  lemma WorkersMove(cfg: Config, s: State, l: Label, v: nat)
    requires v in Step(cfg, s, l).workers
    ensures var x' := Step(cfg, s, l).workers[v];
            || (v !in s.workers && x'.phase.Ready?)
            || (v in s.workers && l.Call? && l.w == v
                && x' == NextCall(s.workers[v], RowOf(s.db, s.workers[v].pid), s.clock, l.callAct))
            || (v in s.workers && !(l.Call? && l.w == v) && x' == s.workers[v])
  {
  }

  /** Only an effective claim adds to the calls in flight, and a settle always takes its own call away. */
  lemma InFlightMoves(cfg: Config, s: State, l: Label, p: nat)
    ensures InFlightOn(Step(cfg, s, l), p) <= InFlightOn(s, p) + if ClaimsRow(cfg, s, l, p) then {l.w} else {}
    ensures WriteTo(cfg, s, l, p).Settled? ==> l.w in InFlightOn(s, p) && l.w !in InFlightOn(Step(cfg, s, l), p)
  {
  }

  lemma CardinalityOfSubset(a: set<nat>, b: set<nat>)
    requires a <= b
    ensures |a| <= |b|
  {
    if a != b {
      assert b == a + (b - a);
    }
  }

  lemma InFlightCount(cfg: Config, s: State, l: Label, p: nat)
    ensures |InFlightOn(Step(cfg, s, l), p)| <= |InFlightOn(s, p)| + if ClaimsRow(cfg, s, l, p) then 1 else 0
    ensures WriteTo(cfg, s, l, p).Settled? ==> |InFlightOn(Step(cfg, s, l), p)| < |InFlightOn(s, p)|
  {
    InFlightMoves(cfg, s, l, p);
    var now, later := InFlightOn(s, p), InFlightOn(Step(cfg, s, l), p);
    CardinalityOfSubset(later, now + if ClaimsRow(cfg, s, l, p) then {l.w} else {});
    if WriteTo(cfg, s, l, p).Settled? { CardinalityOfSubset(later, now - {l.w}); }
  }

  /** How many recoveries released payment `p` in a run. */
  function ReleasesOf(cfg: Config, run: seq<Label>, p: nat): nat {
    H.Releases(None, Writes(cfg, INITIAL, run, p))
  }

  lemma CountersAdvance(cfg: Config, run: seq<Label>, p: nat)
    requires |run| > 0
    ensures var before := run[..|run| - 1]; var e := WriteTo(cfg, After(cfg, before), run[|run| - 1], p);
            && ReleasesOf(cfg, run, p)
               == ReleasesOf(cfg, before, p) + (if H.IsRelease(RowOf(After(cfg, before).db, p), e) then 1 else 0)
            && ClaimsOf(cfg, run, p)
               == ClaimsOf(cfg, before, p) + (if ClaimsRow(cfg, After(cfg, before), run[|run| - 1], p) then 1 else 0)
  {
    var before := run[..|run| - 1];
    assert Writes(cfg, INITIAL, run, p)[..|run| - 1] == Writes(cfg, INITIAL, before, p);
    RowsFollowTheirWrites(cfg, INITIAL, before, p);
  }

  /** The bound that every interleaving keeps: a slot is free only while the row is Pending or not yet there. */
  ghost predicate Bounded(s: State, p: nat, releases: nat) {
    |InFlightOn(s, p)| <= releases + if p !in s.db.payments || s.db.payments[p].status == Pending then 0 else 1
  }

  lemma StepKeepsBounded(cfg: Config, s: State, l: Label, p: nat, releases: nat)
    requires Bounded(s, p, releases)
    ensures Bounded(Step(cfg, s, l), p, releases + if H.IsRelease(RowOf(s.db, p), WriteTo(cfg, s, l, p)) then 1 else 0)
  {
    InFlightCount(cfg, s, l, p);
    StepIsAWrite(cfg, s, l, p);
  }

  /**
   * In every reachable state the gateway calls outstanding for a payment are at most one more than the
   * recoveries that released it, and at most that many while it is Pending.
   */
  lemma {:induction false} OutstandingCallsAreBounded(cfg: Config, run: seq<Label>, p: nat)
    ensures Bounded(After(cfg, run), p, ReleasesOf(cfg, run, p))
  {
    if |run| > 0 {
      var before := run[..|run| - 1];
      OutstandingCallsAreBounded(cfg, before, p);
      CountersAdvance(cfg, run, p);
      StepKeepsBounded(cfg, After(cfg, before), run[|run| - 1], p, ReleasesOf(cfg, before, p));
    } else {
      assert InFlightOn(INITIAL, p) == {};
    }
  }

  /** Without a release, any number of parallel process() calls never has two gateway calls outstanding. */
  lemma NoReleaseNoDoubleCharge(cfg: Config, run: seq<Label>, p: nat, v: nat, w: nat)
    requires ReleasesOf(cfg, run, p) == 0
    requires v in InFlightOn(After(cfg, run), p) && w in InFlightOn(After(cfg, run), p)
    ensures v == w
    ensures p in After(cfg, run).db.payments && After(cfg, run).db.payments[p].status != Pending
  {
    OutstandingCallsAreBounded(cfg, run, p);
    CardinalityOfSubset({v, w}, InFlightOn(After(cfg, run), p));
  }

  // ---- Gateway calls -------------------------------------------------------------------------------

  predicate CallsGatewayFor(s: State, l: Label, p: nat) {
    l.Call? && l.callAct.CallGateway? && IsHolding(s, l.w) && s.workers[l.w].pid == p
  }

  /** How often the gateway was called for payment `p`, whether or not the answer ever arrived. */
  function GatewayCallsOf(cfg: Config, run: seq<Label>, p: nat): nat {
    if |run| == 0 then 0
    else
      GatewayCallsOf(cfg, run[..|run| - 1], p)
      + if CallsGatewayFor(After(cfg, run[..|run| - 1]), run[|run| - 1], p) then 1 else 0
  }

  lemma UncalledCameFrom(cfg: Config, s: State, l: Label, p: nat, v: nat)
    requires v in UncalledOn(Step(cfg, s, l), p)
    ensures (v in UncalledOn(s, p) && !(CallsGatewayFor(s, l, p) && l.w == v)) || (ClaimsRow(cfg, s, l, p) && l.w == v)
  {
  }

  lemma UncalledMoves(cfg: Config, s: State, l: Label, p: nat)
    ensures |UncalledOn(Step(cfg, s, l), p)| + (if CallsGatewayFor(s, l, p) then 1 else 0)
         <= |UncalledOn(s, p)| + if ClaimsRow(cfg, s, l, p) then 1 else 0
  {
    var now, later := UncalledOn(s, p), UncalledOn(Step(cfg, s, l), p);
    forall v | v in later
      ensures (v in now && !(CallsGatewayFor(s, l, p) && l.w == v)) || (ClaimsRow(cfg, s, l, p) && l.w == v)
    {
      UncalledCameFrom(cfg, s, l, p, v);
    }
    if CallsGatewayFor(s, l, p) {
      CardinalityOfSubset(later, now - {l.w});
    } else {
      CardinalityOfSubset(later, now + if ClaimsRow(cfg, s, l, p) then {l.w} else {});
    }
  }

  lemma {:induction false} CallsAreClaimed(cfg: Config, run: seq<Label>, p: nat)
    ensures GatewayCallsOf(cfg, run, p) + |UncalledOn(After(cfg, run), p)| <= ClaimsOf(cfg, run, p)
  {
    if |run| > 0 {
      var before := run[..|run| - 1];
      CallsAreClaimed(cfg, before, p);
      CountersAdvance(cfg, run, p);
      UncalledMoves(cfg, After(cfg, before), run[|run| - 1], p);
    } else {
      assert UncalledOn(INITIAL, p) == {};
    }
  }

  /** The provider is never asked more often than the attempts column says, nor more often than the budget. */
  lemma GatewayCallsStayInBudget(cfg: Config, run: seq<Label>, p: nat)
    requires p in After(cfg, run).db.payments
    ensures GatewayCallsOf(cfg, run, p) <= After(cfg, run).db.payments[p].attempts <= cfg.maxAttempts
  {
    CallsAreClaimed(cfg, run, p);
    EveryRunKeepsTheBudget(cfg, run, p);
  }

  // ---- Gateway answers are dropped only for cause ----------------------------------------------------

  /** The write that settled the row, if any did. */
  function SettlingWrite(es: seq<RowEvent>): RowEvent {
    if |es| == 0 then Untouched
    else if H.HasSettled(H.After(None, es[..|es| - 1])) then SettlingWrite(es[..|es| - 1])
    else if H.HasSettled(H.After(None, es)) then es[|es| - 1]
    else Untouched
  }

  lemma SettlingWriteAdvances(cfg: Config, run: seq<Label>, p: nat)
    requires |run| > 0
    ensures var before := run[..|run| - 1]; var s := After(cfg, before);
            SettlingWrite(Writes(cfg, INITIAL, run, p))
            == if H.HasSettled(RowOf(s.db, p)) then SettlingWrite(Writes(cfg, INITIAL, before, p))
               else if H.HasSettled(RowOf(After(cfg, run).db, p)) then WriteTo(cfg, s, run[|run| - 1], p)
               else Untouched
  {
    var before := run[..|run| - 1];
    assert Writes(cfg, INITIAL, run, p)[..|run| - 1] == Writes(cfg, INITIAL, before, p);
    RowsFollowTheirWrites(cfg, INITIAL, before, p);
    RowsFollowTheirWrites(cfg, INITIAL, run, p);
  }

  /** With one slot, a step that settles the row and leaves a call in flight is not a settle. */
  lemma OneSlotCause(cfg: Config, s: State, l: Label, p: nat, w: nat)
    requires |InFlightOn(s, p)| <= 1 && w in InFlightOn(Step(cfg, s, l), p)
    requires !H.HasSettled(RowOf(s.db, p)) && H.HasSettled(RowOf(Step(cfg, s, l).db, p))
    ensures var e := WriteTo(cfg, s, l, p); e.Reported? || e.GivenUp? || e.Recovered?
  {
    StepIsAWrite(cfg, s, l, p);
    InFlightMoves(cfg, s, l, p);
    if WriteTo(cfg, s, l, p).Settled? { CardinalityOfSubset({l.w, w}, InFlightOn(s, p)); }
  }

  /**
   * In a run without a release, a process() call that comes to settle finds its row Processing, or settled
   * by a callback, by failPayment or by an exhausted recovery: never Pending, and never settled by another call.
   */
  lemma {:induction false} AnswersAreDroppedForCause(cfg: Config, run: seq<Label>, p: nat, w: nat)
    requires ReleasesOf(cfg, run, p) == 0 && w in InFlightOn(After(cfg, run), p)
    ensures p in After(cfg, run).db.payments
    ensures var status := After(cfg, run).db.payments[p].status;
            var cause := SettlingWrite(Writes(cfg, INITIAL, run, p));
            status == Processing || (IsTerminal(status) && (cause.Reported? || cause.GivenUp? || cause.Recovered?))
  {
    NoReleaseNoDoubleCharge(cfg, run, p, w, w);
    TerminalHasNoExit(After(cfg, run).db.payments[p].status);
    if IsTerminal(After(cfg, run).db.payments[p].status) {
      var before := run[..|run| - 1];
      var s, l := After(cfg, before), run[|run| - 1];
      CountersAdvance(cfg, run, p);
      SettlingWriteAdvances(cfg, run, p);
      if H.HasSettled(RowOf(s.db, p)) {
        InFlightMoves(cfg, s, l, p);
        AnswersAreDroppedForCause(cfg, before, p, w);
      } else {
        OutstandingCallsAreBounded(cfg, before, p);
        OneSlotCause(cfg, s, l, p, w);
      }
    }
  }

  lemma SettleWritesTheCharge(s: State, w: nat, ref: string)
    requires OnWorker(s, w, Answered(Charged(ref))) && H.StatusOf(RowOf(s.db, s.workers[w].pid), Processing)
    ensures var p := s.workers[w].pid; var db := CallStep(s, w, Settle).db;
            p in db.payments && H.Outcome(db.payments[p]) == (Success, Some(ref), None)
  {
  }

  lemma WrittenChargeStays(cfg: Config, s: State, w: nat, ref: string, more: seq<Label>)
    requires OnWorker(s, w, Answered(Charged(ref))) && H.StatusOf(RowOf(s.db, s.workers[w].pid), Processing)
    ensures var p, payments := s.workers[w].pid, Run(cfg, Step(cfg, s, Call(w, Settle)), more).db.payments;
            p in payments && H.Outcome(payments[p]) == (Success, Some(ref), None)
  {
    SettleWritesTheCharge(s, w, ref);
    SettledRowsAreFrozen(cfg, Step(cfg, s, Call(w, Settle)), more, s.workers[w].pid);
  }

  /**
   * So, where no recovery released the payment and no callback, failPayment or exhausted recovery settled it,
   * a successful charge is written, and stays written through every later run.
   */
  lemma SuccessfulChargesStick(cfg: Config, run: seq<Label>, p: nat, w: nat, ref: string, more: seq<Label>)
    requires ReleasesOf(cfg, run, p) == 0
    requires var cause := SettlingWrite(Writes(cfg, INITIAL, run, p));
             !cause.Reported? && !cause.GivenUp? && !cause.Recovered?
    requires OnWorker(After(cfg, run), w, Answered(Charged(ref))) && After(cfg, run).workers[w].pid == p
    ensures p in After(cfg, run + [Call(w, Settle)] + more).db.payments
    ensures H.Outcome(After(cfg, run + [Call(w, Settle)] + more).db.payments[p]) == (Success, Some(ref), None)
  {
    var s := After(cfg, run);
    assert w in InFlightOn(s, p);
    AnswersAreDroppedForCause(cfg, run, p, w);
    WrittenChargeStays(cfg, s, w, ref, more);
    RunThrough(cfg, INITIAL, run, Call(w, Settle), more);
  }
}
