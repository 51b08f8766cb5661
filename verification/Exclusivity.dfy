/**
 * When a payment is never charged twice at once. The database guards this by time: a claim older than
 * STALE_PROCESSING_MS is taken to be dead. The queue guards it by the job lock.
 */
module Exclusivity {
  import opened StateMachine
  import opened Rows
  import opened Tables
  import opened Protocol
  import opened SystemRows
  import opened InFlight
  import opened Regimes
  import opened JobLock

  ghost predicate Exclusive(s: State, p: nat) {
    forall v, w :: v in InFlightOn(s, p) && w in InFlightOn(s, p) ==> v == w
  }

  // ---- The invariant -------------------------------------------------------------------------------

  ghost predicate OneSweep(s: State) {
    && (forall j, k :: j in s.sweeps && k in s.sweeps && !s.sweeps[j].handoff.Over? && !s.sweeps[k].handoff.Over? ==>
        j == k)
    && (forall k :: k in s.sweeps && s.sweeps[k].handoff.Over? ==> s.sweeps[k].todo == {})
  }

  /** A live call owns its row's stamp and is within its time. */
  ghost predicate Owns(s: State, p: nat, w: nat, bound: nat)
    requires w in s.workers
  {
    && p in s.db.payments && s.db.payments[p].status != Pending
    && (s.db.payments[p].status == Processing ==> s.db.payments[p].startedAt == Some(s.workers[w].stamp))
    && s.clock <= s.workers[w].stamp + bound
  }

  /** A payment on a pending sweep list has nobody charging it and cannot be claimed. */
  ghost predicate Abandoned(s: State, p: nat) {
    p in s.db.payments && s.db.payments[p].status != Pending && InFlightOn(s, p) == {}
  }

  ghost predicate Tidy(s: State, p: nat, bound: nat) {
    && Exclusive(s, p)
    && (forall w :: w in InFlightOn(s, p) ==> Owns(s, p, w, bound))
    && (forall k :: k in s.sweeps && p in s.sweeps[k].todo ==> Abandoned(s, p))
  }

  lemma StepKeepsOneSweep(cfg: Config, s: State, l: Label)
    requires OneSweep(s) && OneAtATime(s, l)
    ensures OneSweep(Step(cfg, s, l))
  {
  }

  /** Sweep lists grow at Select only, and a recovery takes its row off the one open list. */
  lemma TodoMoves(cfg: Config, s: State, l: Label, p: nat, k: nat)
    requires k in Step(cfg, s, l).sweeps && p in Step(cfg, s, l).sweeps[k].todo
    ensures (k in s.sweeps && p in s.sweeps[k].todo)
            || (l == Select(k) && k !in s.sweeps && p in StaleIds(s.db.payments, s.clock - cfg.staleMs))
    ensures OneSweep(s) ==> !WriteTo(cfg, s, l, p).Recovered?
  {
  }

  lemma AbandonedStays(cfg: Config, s: State, l: Label, p: nat)
    requires Abandoned(s, p) && !WriteTo(cfg, s, l, p).Recovered?
    ensures Abandoned(Step(cfg, s, l), p)
  {
    StepIsAWrite(cfg, s, l, p);
    InFlightMoves(cfg, s, l, p);
  }

  /** A row that looks stale has outlived every live call. */
  lemma StaleIsAbandoned(cfg: Config, s: State, p: nat, bound: nat)
    requires bound <= cfg.staleMs && Tidy(s, p, bound) && p in StaleIds(s.db.payments, s.clock - cfg.staleMs)
    ensures Abandoned(s, p)
  {
  }

  lemma ListedIsAbandoned(cfg: Config, s: State, l: Label, p: nat, bound: nat, k: nat)
    requires bound <= cfg.staleMs && OneSweep(s) && Tidy(s, p, bound)
    requires k in Step(cfg, s, l).sweeps && p in Step(cfg, s, l).sweeps[k].todo
    ensures Abandoned(Step(cfg, s, l), p)
  {
    TodoMoves(cfg, s, l, p, k);
    if p in StaleIds(s.db.payments, s.clock - cfg.staleMs) { StaleIsAbandoned(cfg, s, p, bound); }
    AbandonedStays(cfg, s, l, p);
  }

  lemma StepKeepsTidy(cfg: Config, s: State, l: Label, p: nat, bound: nat)
    requires bound <= cfg.staleMs
    requires OneSweep(s) && Tidy(s, p, bound) && Punctual(s, l, bound)
    ensures Tidy(Step(cfg, s, l), p, bound)
  {
    var s' := Step(cfg, s, l);
    StepKeepsExclusive(cfg, s, l, p, bound);
    forall w | w in InFlightOn(s', p)
      ensures Owns(s', p, w, bound)
    {
      LiveCallsOwn(cfg, s, l, p, w, bound);
    }
    forall k | k in s'.sweeps && p in s'.sweeps[k].todo
      ensures Abandoned(s', p)
    {
      ListedIsAbandoned(cfg, s, l, p, bound, k);
    }
  }

  lemma StepKeepsExclusive(cfg: Config, s: State, l: Label, p: nat, bound: nat)
    requires Tidy(s, p, bound)
    ensures Exclusive(Step(cfg, s, l), p)
  {
    InFlightMoves(cfg, s, l, p);
  }

  lemma LiveCallsOwn(cfg: Config, s: State, l: Label, p: nat, w: nat, bound: nat)
    requires OneSweep(s) && Tidy(s, p, bound) && Punctual(s, l, bound)
    requires w in InFlightOn(Step(cfg, s, l), p)
    ensures Owns(Step(cfg, s, l), p, w, bound)
  {
    StepIsAWrite(cfg, s, l, p);
    InFlightMoves(cfg, s, l, p);
    WorkersMove(cfg, s, l, w);
    ClockMoves(cfg, s, l);
  }

  lemma ClockMoves(cfg: Config, s: State, l: Label)
    ensures Step(cfg, s, l).clock == s.clock + if l.Tick? then l.dt else 0
  {
  }

  lemma {:induction false} TimedRunsAreTidy(cfg: Config, r: Regime, run: seq<Label>, p: nat)
    requires Follows(cfg, r, run)
    requires r.oneSweep && r.bound.Some? && r.bound.value <= cfg.staleMs
    ensures OneSweep(After(cfg, run)) && Tidy(After(cfg, run), p, r.bound.value)
  {
    if |run| > 0 {
      var before := run[..|run| - 1];
      TimedRunsAreTidy(cfg, r, before, p);
      StepKeepsOneSweep(cfg, After(cfg, before), run[|run| - 1]);
      StepKeepsTidy(cfg, After(cfg, before), run[|run| - 1], p, r.bound.value);
    }
  }

  // ---- The guarantee -------------------------------------------------------------------------------

  /**
   * If every live call settles or dies within a bound <= STALE_PROCESSING_MS of its claim and sweeps do not
   * overlap, no run ever has two live charges for one payment, crashes and recoveries included.
   */
  lemma TimedExclusivity(cfg: Config, r: Regime, run: seq<Label>, p: nat)
    requires Follows(cfg, r, run)
    requires r.oneSweep && r.bound.Some? && r.bound.value <= cfg.staleMs
    ensures Exclusive(After(cfg, run), p)
  {
    TimedRunsAreTidy(cfg, r, run, p);
  }

  /** If process() is called from the queue only and no job is taken from a live call, time does not matter. */
  lemma SerialExclusivity(cfg: Config, r: Regime, run: seq<Label>, p: nat)
    requires Follows(cfg, r, run) && Serial(r)
    ensures Exclusive(After(cfg, run), p)
  {
    forall v, w | v in InFlightOn(After(cfg, run), p) && w in InFlightOn(After(cfg, run), p)
      ensures v == w
    {
      QueueSerialisesCalls(cfg, r, run, v, w);
    }
  }

  /** With a budget of one attempt a recovery never releases, so time does not matter. */
  lemma {:induction false} BudgetOfOneNeverReleases(cfg: Config, run: seq<Label>, p: nat)
    requires cfg.maxAttempts == 1
    ensures ReleasesOf(cfg, run, p) == 0
  {
    if |run| > 0 {
      BudgetOfOneNeverReleases(cfg, run[..|run| - 1], p);
      CountersAdvance(cfg, run, p);
      ReachableRowsSound(cfg, run[..|run| - 1]);
    }
  }

  lemma BudgetOfOneIsExclusive(cfg: Config, run: seq<Label>, p: nat)
    requires cfg.maxAttempts == 1
    ensures Exclusive(After(cfg, run), p)
  {
    BudgetOfOneNeverReleases(cfg, run, p);
    forall v, w | v in InFlightOn(After(cfg, run), p) && w in InFlightOn(After(cfg, run), p)
      ensures v == w
    {
      NoReleaseNoDoubleCharge(cfg, run, p, v, w);
    }
  }
}
