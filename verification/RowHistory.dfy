/**
 * Laws of one payment row under every finite history of writes, whoever issues them and in whatever
 * order. Nothing here assumes that a write was asked for at a sensible moment.
 */
module RowHistory {
  import opened StateMachine
  import opened Rows

  /** The row after a history of writes that starts at `r`. */
  function After(r: Option<Payment>, es: seq<RowEvent>): Option<Payment> {
    if |es| == 0 then r else Apply(After(r, es[..|es| - 1]), es[|es| - 1])
  }

  lemma {:induction false} AfterAppend(r: Option<Payment>, es: seq<RowEvent>, more: seq<RowEvent>)
    ensures After(r, es + more) == After(After(r, es), more)
  {
    if |more| == 0 {
      assert es + more == es;
    } else {
      AfterAppend(r, es, more[..|more| - 1]);
      assert (es + more)[..|es + more| - 1] == es + more[..|more| - 1];
    }
  }

  // ---- Field invariant -------------------------------------------------------------------------

  /** What is true of a row between transactions. */
  ghost predicate Sound(p: Payment) {
    && p.attempts <= p.maxAttempts
    && (p.status == Pending ==> p.attempts < p.maxAttempts && p.startedAt == None)
    && (p.status == Processing ==> 0 < p.attempts && p.startedAt.Some?)
    && (p.status != Success ==> p.providerRef == None)
    && (p.status == Success ==> p.lastError == None)
    && (p.status == Failed ==> p.lastError.Some?)
    && (p.status == Pending ==> (0 < p.attempts <==> p.lastError.Some?))
  }

  lemma AdvanceKeepsSound(p: Payment, e: RowEvent)
    requires Sound(p)
    ensures Sound(Advance(p, e))
  {
  }

  /** Every row any history builds is sound: the attempt budget, the stamps and the error columns. */
  lemma {:induction false} RowsAreSound(es: seq<RowEvent>)
    ensures After(None, es).Some? ==> Sound(After(None, es).value)
  {
    if |es| > 0 {
      var before := es[..|es| - 1];
      RowsAreSound(before);
      if After(None, before).Some? { AdvanceKeepsSound(After(None, before).value, es[|es| - 1]); }
    }
  }

  // ---- Counting --------------------------------------------------------------------------------

  predicate StatusOf(r: Option<Payment>, status: Status) {
    r.Some? && r.value.status == status
  }

  predicate HasSettled(r: Option<Payment>) {
    r.Some? && IsTerminal(r.value.status)
  }

  /** How many claims in the history took effect. */
  function Claims(r: Option<Payment>, es: seq<RowEvent>): nat {
    if |es| == 0 then 0
    else
      var before := After(r, es[..|es| - 1]);
      Claims(r, es[..|es| - 1]) + if es[|es| - 1].Claimed? && StatusOf(before, Pending) then 1 else 0
  }

  /** How many recoveries released the row back to Pending. */
  function Releases(r: Option<Payment>, es: seq<RowEvent>): nat {
    if |es| == 0 then 0
    else Releases(r, es[..|es| - 1]) + if IsRelease(After(r, es[..|es| - 1]), es[|es| - 1]) then 1 else 0
  }

  predicate IsRelease(before: Option<Payment>, e: RowEvent) {
    e.Recovered? && StatusOf(before, Processing) && StatusOf(Apply(before, e), Pending)
  }

  /** The statuses the row goes through, stutters removed. */
  function StatusHistory(r: Option<Payment>, es: seq<RowEvent>): (path: seq<Status>) {
    if |es| == 0 then (if r.Some? then [r.value.status] else [])
    else
      var path := StatusHistory(r, es[..|es| - 1]);
      var now := After(r, es);
      if now.Some? && (|path| == 0 || path[|path| - 1] != now.value.status)
      then path + [now.value.status]
      else path
  }

  /** The attempts column counts the claims, and no history claims more often than the budget allows. */
  lemma {:induction false} AttemptsCountClaims(es: seq<RowEvent>)
    ensures After(None, es).None? ==> Claims(None, es) == 0
    ensures After(None, es).Some? ==>
              Claims(None, es) == After(None, es).value.attempts <= After(None, es).value.maxAttempts
  {
    if |es| > 0 { AttemptsCountClaims(es[..|es| - 1]); }
    RowsAreSound(es);
  }

  // ---- Refinement of the state machine -----------------------------------------------------------

  /** Every status write is an edge of the table, also those that never ask CanTransition. */
  lemma EveryWriteIsAnEdge(p: Payment, e: RowEvent)
    ensures Advance(p, e).status == p.status || CanTransition(p.status, Advance(p, e).status)
  {
  }

  lemma {:induction false} HistoryEndsAtRow(es: seq<RowEvent>)
    ensures After(None, es).None? <==> |StatusHistory(None, es)| == 0
    ensures After(None, es).Some? ==>
              StatusHistory(None, es)[|StatusHistory(None, es)| - 1] == After(None, es).value.status
  {
    if |es| > 0 { HistoryEndsAtRow(es[..|es| - 1]); }
  }

  /** The status history of any row is a path in the table that starts at Pending. */
  lemma {:induction false} HistoryIsAPath(es: seq<RowEvent>)
    ensures IsPath(StatusHistory(None, es))
    ensures |StatusHistory(None, es)| > 0 ==> StatusHistory(None, es)[0] == Pending
  {
    if |es| > 0 {
      var before := es[..|es| - 1];
      HistoryIsAPath(before);
      HistoryEndsAtRow(before);
      if After(None, before).Some? { EveryWriteIsAnEdge(After(None, before).value, es[|es| - 1]); }
    }
  }

  // ---- Termination measure -----------------------------------------------------------------------

  /** Drops at every status change; an absent row has the measure of a new one. */
  function Measure(p: Payment): int {
    match p.status
    case Pending => 2 * (p.maxAttempts - p.attempts)
    case Processing => 2 * (p.maxAttempts - p.attempts) + 1
    case Success => 0
    case Failed => 0
  }

  lemma MeasureDrops(p: Payment, e: RowEvent)
    requires Sound(p)
    ensures 0 <= Measure(Advance(p, e))
    ensures Advance(p, e).status != p.status ==> Measure(Advance(p, e)) < Measure(p)
    ensures Advance(p, e).status == p.status ==> Measure(Advance(p, e)) == Measure(p)
  {
  }

  lemma OneMoreStatus(es: seq<RowEvent>)
    requires |es| > 0
    ensures var before := es[..|es| - 1];
            |StatusHistory(None, es)| == |StatusHistory(None, before)|
              + if After(None, es).Some? && !StatusOf(After(None, before), After(None, es).value.status) then 1 else 0
  {
    HistoryEndsAtRow(es[..|es| - 1]);
  }

  lemma {:induction false} HistoryWithinMeasure(es: seq<RowEvent>)
    requires After(None, es).Some?
    ensures |StatusHistory(None, es)| - 1 + Measure(After(None, es).value) <= 2 * After(None, es).value.maxAttempts
  {
    var before := es[..|es| - 1];
    OneMoreStatus(es);
    HistoryEndsAtRow(before);
    if After(None, before).Some? {
      RowsAreSound(before);
      MeasureDrops(After(None, before).value, es[|es| - 1]);
      HistoryWithinMeasure(before);
    }
  }

  /** However long the history, the status changes at most 2 * maxAttempts times. */
  lemma FewStatusChanges(es: seq<RowEvent>)
    ensures After(None, es).Some? ==> |StatusHistory(None, es)| - 1 <= 2 * After(None, es).value.maxAttempts
  {
    RowsAreSound(es);
    if After(None, es).Some? { HistoryWithinMeasure(es); }
  }

  // ---- Terminal freeze and identity ----------------------------------------------------------------

  lemma TerminalRowsDoNotMove(p: Payment, e: RowEvent)
    requires IsTerminal(p.status)
    ensures Advance(p, e) == p
  {
  }

  /** Once settled, the whole row is frozen. */
  lemma {:induction false} TerminalFreeze(p: Payment, es: seq<RowEvent>)
    requires IsTerminal(p.status)
    ensures After(Some(p), es) == Some(p)
  {
    if |es| > 0 {
      TerminalFreeze(p, es[..|es| - 1]);
      TerminalRowsDoNotMove(p, es[|es| - 1]);
    }
  }

  ghost predicate SameIdentity(p: Payment, q: Payment) {
    p.key == q.key && p.amount == q.amount && p.currency == q.currency && p.maxAttempts == q.maxAttempts
  }

  /** Key, amount, currency and budget are written once; attempts never go back. */
  lemma {:induction false} IdentityIsKept(p: Payment, es: seq<RowEvent>)
    ensures After(Some(p), es).Some?
    ensures SameIdentity(p, After(Some(p), es).value) && p.attempts <= After(Some(p), es).value.attempts
  {
    if |es| > 0 { IdentityIsKept(p, es[..|es| - 1]); }
  }

  // ---- First terminal writer -------------------------------------------------------------------

  /** The outcome columns as a callback alone determines them. */
  function ReportedOutcome(status: FinalStatus, ref: Option<string>): (Status, Option<string>, Option<Message>) {
    if status != Success then (Failed, None, Some(ViaWebhook))
    else if ref.Some? && |ref.value| > 0 then (Success, ref, None)
    else (Success, None, None)
  }

  function Outcome(p: Payment): (Status, Option<string>, Option<Message>) {
    (p.status, p.providerRef, p.lastError)
  }

  /** A callback that settles the row fixes the outcome columns for good, whatever came before and comes after. */
  lemma FirstTerminalWriterDecides(es: seq<RowEvent>, status: FinalStatus, ref: Option<string>, more: seq<RowEvent>)
    requires After(None, es).Some? && !HasSettled(After(None, es))
    ensures After(None, es + [Reported(status, ref)] + more).Some?
    ensures Outcome(After(None, es + [Reported(status, ref)] + more).value) == ReportedOutcome(status, ref)
  {
    var e := Reported(status, ref);
    RowsAreSound(es);
    TerminalHasNoExit(status);
    assert (es + [e])[..|es + [e]| - 1] == es;
    var p := After(None, es + [e]).value;
    assert After(None, es).value.status in [Pending, Processing];
    AfterAppend(None, es + [e], more);
    TerminalFreeze(p, more);
  }
}
