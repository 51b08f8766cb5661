/** The laws of one row, carried over to every run of the whole system. */
module SystemRows {
  import opened StateMachine
  import opened Rows
  import H = RowHistory
  import opened Tables
  import opened Protocol

  /** Every row is sound and carries the configured budget. */
  ghost predicate RowsSound(cfg: Config, s: State) {
    forall p :: p in s.db.payments ==> H.Sound(s.db.payments[p]) && s.db.payments[p].maxAttempts == cfg.maxAttempts
  }

  lemma StepKeepsRowsSound(cfg: Config, s: State, l: Label)
    requires RowsSound(cfg, s)
    ensures RowsSound(cfg, Step(cfg, s, l))
  {
    var s' := Step(cfg, s, l);
    forall p | p in s'.db.payments
      ensures H.Sound(s'.db.payments[p]) && s'.db.payments[p].maxAttempts == cfg.maxAttempts
    {
      StepIsAWrite(cfg, s, l, p);
      if p in s.db.payments { H.AdvanceKeepsSound(s.db.payments[p], WriteTo(cfg, s, l, p)); }
    }
  }

  lemma {:induction false} ReachableRowsSound(cfg: Config, run: seq<Label>)
    ensures RowsSound(cfg, After(cfg, run))
  {
    if |run| > 0 {
      ReachableRowsSound(cfg, run[..|run| - 1]);
      StepKeepsRowsSound(cfg, After(cfg, run[..|run| - 1]), run[|run| - 1]);
    }
  }

  /** The statuses payment `p` goes through in a run. */
  function StatusesOf(cfg: Config, run: seq<Label>, p: nat): seq<Status> {
    H.StatusHistory(None, Writes(cfg, INITIAL, run, p))
  }

  /** How many process() calls claimed payment `p` in a run. */
  function ClaimsOf(cfg: Config, run: seq<Label>, p: nat): nat {
    H.Claims(None, Writes(cfg, INITIAL, run, p))
  }

  /** In every run a payment's statuses follow the table from Pending to its present status. */
  lemma EveryRunFollowsTheStateMachine(cfg: Config, run: seq<Label>, p: nat)
    requires p in After(cfg, run).db.payments
    ensures IsPath(StatusesOf(cfg, run, p)) && |StatusesOf(cfg, run, p)| > 0
    ensures StatusesOf(cfg, run, p)[0] == Pending
    ensures StatusesOf(cfg, run, p)[|StatusesOf(cfg, run, p)| - 1] == After(cfg, run).db.payments[p].status
  {
    var es := Writes(cfg, INITIAL, run, p);
    RowsFollowTheirWrites(cfg, INITIAL, run, p);
    H.HistoryIsAPath(es);
    H.HistoryEndsAtRow(es);
  }

  /** No run, of any length, changes a payment's status more than 2 * maxAttempts times. */
  lemma EveryRunSettlesDown(cfg: Config, run: seq<Label>, p: nat)
    requires p in After(cfg, run).db.payments
    ensures |StatusesOf(cfg, run, p)| - 1 <= 2 * cfg.maxAttempts
  {
    RowsFollowTheirWrites(cfg, INITIAL, run, p);
    ReachableRowsSound(cfg, run);
    H.FewStatusChanges(Writes(cfg, INITIAL, run, p));
  }

  /** The attempts column counts the claims of the run and stays within the budget, though no claim checks it. */
  lemma EveryRunKeepsTheBudget(cfg: Config, run: seq<Label>, p: nat)
    requires p in After(cfg, run).db.payments
    ensures After(cfg, run).db.payments[p].attempts == ClaimsOf(cfg, run, p) <= cfg.maxAttempts
  {
    RowsFollowTheirWrites(cfg, INITIAL, run, p);
    ReachableRowsSound(cfg, run);
    H.AttemptsCountClaims(Writes(cfg, INITIAL, run, p));
  }

  /** From any state, whatever happens next, a settled row never changes in any column. */
  lemma SettledRowsAreFrozen(cfg: Config, s: State, run: seq<Label>, p: nat)
    requires p in s.db.payments && IsTerminal(s.db.payments[p].status)
    ensures p in Run(cfg, s, run).db.payments && Run(cfg, s, run).db.payments[p] == s.db.payments[p]
  {
    RowsFollowTheirWrites(cfg, s, run, p);
    H.TerminalFreeze(s.db.payments[p], Writes(cfg, s, run, p));
  }

  /** Rows are never deleted, and key, amount, currency and budget are never written again. */
  lemma RowsKeepTheirIdentity(cfg: Config, s: State, run: seq<Label>, p: nat)
    requires p in s.db.payments
    ensures p in Run(cfg, s, run).db.payments
    ensures H.SameIdentity(s.db.payments[p], Run(cfg, s, run).db.payments[p])
  {
    RowsFollowTheirWrites(cfg, s, run, p);
    H.IdentityIsKept(s.db.payments[p], Writes(cfg, s, run, p));
  }

  lemma AppliedWebhookWrites(s: State, d: Delivery)
    requires WebhookReplyOf(s.db, d) == Applied && H.Sound(s.db.payments[d.paymentId])
    ensures d.paymentId in Deliver(s.db, d).payments
    ensures IsTerminal(Deliver(s.db, d).payments[d.paymentId].status)
    ensures H.Outcome(Deliver(s.db, d).payments[d.paymentId]) == H.ReportedOutcome(d.status, d.providerRef)
  {
  }

  /**
   * If a callback settles a payment, its status, provider reference and error are a function of that
   * callback alone, after any run before it and any run after it.
   */
  lemma AppliedWebhookDecides(cfg: Config, run: seq<Label>, d: Delivery, more: seq<Label>)
    requires WebhookReplyOf(After(cfg, run).db, d) == Applied
    ensures d.paymentId in After(cfg, run + [Webhook(d)] + more).db.payments
    ensures H.Outcome(After(cfg, run + [Webhook(d)] + more).db.payments[d.paymentId])
            == H.ReportedOutcome(d.status, d.providerRef)
  {
    ReachableRowsSound(cfg, run);
    AppliedWebhookWrites(After(cfg, run), d);
    RunThrough(cfg, INITIAL, run, Webhook(d), more);
    SettledRowsAreFrozen(cfg, Step(cfg, After(cfg, run), Webhook(d)), more, d.paymentId);
  }
}
