/** What the gateway is asked to charge: what the request that created the payment asked for. */
module Billing {
  import opened Protocol
  import opened SystemRows
  import opened InFlight

  /** A call that has claimed and not yet asked the gateway holds the amount and the currency of its row. */
  ghost predicate BillsAreTrue(s: State) {
    forall w :: IsHolding(s, w) ==> BillIsTrue(s, s.workers[w].pid, s.workers[w].phase.bill)
  }

  predicate BillIsTrue(s: State, p: nat, bill: Bill) {
    p in s.db.payments && bill.amount == s.db.payments[p].amount && bill.currency == s.db.payments[p].currency
  }

  lemma TrueBillsStay(cfg: Config, s: State, l: Label, p: nat, bill: Bill)
    requires BillIsTrue(s, p, bill)
    ensures BillIsTrue(Step(cfg, s, l), p, bill)
  {
    StepIsAWrite(cfg, s, l, p);
  }

  /** A claim reads the bill off the row it claims. */
  lemma ClaimBills(s: State, w: nat)
    requires w in s.workers && s.workers[w].phase.Ready? && IsHolding(CallStep(s, w, Claim), w)
    ensures BillIsTrue(s, s.workers[w].pid, CallStep(s, w, Claim).workers[w].phase.bill)
  {
  }

  lemma HolderClaimedOrHeld(cfg: Config, s: State, l: Label, w: nat)
    requires IsHolding(Step(cfg, s, l), w)
    ensures || (IsHolding(s, w) && Step(cfg, s, l).workers[w] == s.workers[w])
            || (l == Call(w, Claim) && w in s.workers && s.workers[w].phase.Ready?
                && s.workers[w].pid == Step(cfg, s, l).workers[w].pid)
  {
    WorkersMove(cfg, s, l, w);
  }

  lemma StepKeepsBillsTrue(cfg: Config, s: State, l: Label)
    requires BillsAreTrue(s)
    ensures BillsAreTrue(Step(cfg, s, l))
  {
    var s' := Step(cfg, s, l);
    forall w | IsHolding(s', w) ensures BillIsTrue(s', s'.workers[w].pid, s'.workers[w].phase.bill) {
      HolderClaimedOrHeld(cfg, s, l, w);
      if !IsHolding(s, w) { ClaimBills(s, w); }
      TrueBillsStay(cfg, s, l, s'.workers[w].pid, s'.workers[w].phase.bill);
    }
  }

  lemma {:induction false} EveryBillIsTrue(cfg: Config, run: seq<Label>)
    ensures BillsAreTrue(After(cfg, run))
  {
    if |run| > 0 {
      EveryBillIsTrue(cfg, run[..|run| - 1]);
      StepKeepsBillsTrue(cfg, After(cfg, run[..|run| - 1]), run[|run| - 1]);
    }
  }

  // ---- The request behind a row ------------------------------------------------------------------------

  /** Label `i` of the run is request `c` creating payment `p`, and asking for this amount in this currency. */
  ghost predicate RequestedAt(cfg: Config, run: seq<Label>, i: nat, c: nat, p: nat, bill: Bill) {
    && i < |run| && run[i] == Api(c, Insert(p)) && Inserts(After(cfg, run[..i]), c, Insert(p))
    && After(cfg, run[..i]).clients[c].amount == bill.amount
    && After(cfg, run[..i]).clients[c].currency == bill.currency
  }

  ghost predicate WasRequested(cfg: Config, run: seq<Label>, p: nat, bill: Bill) {
    exists i: nat, c: nat :: RequestedAt(cfg, run, i, c, p, bill)
  }

  lemma RequestsAreRemembered(cfg: Config, run: seq<Label>, p: nat, bill: Bill)
    requires |run| > 0 && WasRequested(cfg, run[..|run| - 1], p, bill)
    ensures WasRequested(cfg, run, p, bill)
  {
    var before := run[..|run| - 1];
    var i: nat, c: nat :| RequestedAt(cfg, before, i, c, p, bill);
    assert before[..i] == run[..i];
    assert RequestedAt(cfg, run, i, c, p, bill);
  }

  lemma NewRowIsRequested(cfg: Config, s: State, l: Label, p: nat, bill: Bill)
    requires p !in s.db.payments && BillIsTrue(Step(cfg, s, l), p, bill)
    ensures l.Api? && l.apiAct == Insert(p) && Inserts(s, l.c, l.apiAct)
    ensures s.clients[l.c].amount == bill.amount && s.clients[l.c].currency == bill.currency
  {
    StepIsAWrite(cfg, s, l, p);
  }

  lemma OldRowIsBilledTheSame(cfg: Config, s: State, l: Label, p: nat, bill: Bill)
    requires p in s.db.payments && BillIsTrue(Step(cfg, s, l), p, bill)
    ensures BillIsTrue(s, p, bill)
  {
    StepIsAWrite(cfg, s, l, p);
  }

  /** Every row bears the amount and the currency of the request that created it. */
  lemma {:induction false} RowsAreRequested(cfg: Config, run: seq<Label>, p: nat, bill: Bill)
    requires BillIsTrue(After(cfg, run), p, bill)
    ensures WasRequested(cfg, run, p, bill)
  {
    if |run| > 0 {
      var before, l := run[..|run| - 1], run[|run| - 1];
      var s := After(cfg, before);
      if p in s.db.payments {
        OldRowIsBilledTheSame(cfg, s, l, p, bill);
        RowsAreRequested(cfg, before, p, bill);
        RequestsAreRemembered(cfg, run, p, bill);
      } else {
        NewRowIsRequested(cfg, s, l, p, bill);
        assert RequestedAt(cfg, run, |run| - 1, l.c, p, bill);
      }
    }
  }

  /** No key, id or row is requested twice: the request that created a payment is one. */
  lemma RequestIsUnique(cfg: Config, run: seq<Label>, i: nat, j: nat, c: nat, d: nat, p: nat, bill: Bill, other: Bill)
    requires RequestedAt(cfg, run, i, c, p, bill) && RequestedAt(cfg, run, j, d, p, other) && i <= j
    ensures i == j && c == d && bill == other
  {
    if i < j {
      var upTo := run[..i + 1];
      assert upTo[..i] == run[..i];
      assert p in After(cfg, upTo).db.payments;
      assert run[..j] == upTo + run[i + 1..j];
      RunAppend(cfg, INITIAL, upTo, run[i + 1..j]);
      RowsKeepTheirIdentity(cfg, After(cfg, upTo), run[i + 1..j], p);
    }
  }

  /**
   * In every run, every gateway call for a payment is for the amount and in the currency of the one request that
   * created the payment.
   */
  lemma GatewayIsAskedWhatWasRequested(cfg: Config, run: seq<Label>, l: Label, p: nat)
    requires CallsGatewayFor(After(cfg, run), l, p)
    ensures WasRequested(cfg, run, p, After(cfg, run).workers[l.w].phase.bill)
  {
    EveryBillIsTrue(cfg, run);
    RowsAreRequested(cfg, run, p, After(cfg, run).workers[l.w].phase.bill);
  }
}
