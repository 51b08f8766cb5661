/** Short concrete schedules, from which the runs that break a guarantee are put together. */
module Witness {
  import opened StateMachine
  import opened Rows
  import opened Tables
  import opened Queue
  import opened Protocol
  import opened InFlight
  import opened Regimes

  // ---- A payment is created and queued ---------------------------------------------------------------

  const REQUEST := Arrive(0, [], 1, [])
  const NEW_BILL := Bill(1, [])
  const CREATION := [REQUEST, Api(0, Insert(0)), Api(0, ReadBack)]

  function NewRow(cfg: Config): Payment {
    NewPayment([], 1, [], cfg.maxAttempts)
  }

  /** The request has committed its row and not yet queued it. */
  function Committed(cfg: Config): State {
    INITIAL.(db := Db(map[0 := NewRow(cfg)], []), clients := map[0 := Client([], 1, [], MustQueue(0, NewRow(cfg)))])
  }

  lemma CreationCommits(cfg: Config, r: Regime)
    ensures Follows(cfg, r, CREATION) && After(cfg, CREATION) == Committed(cfg)
  {
    RunOfThree(cfg, INITIAL, REQUEST, Api(0, Insert(0)), Api(0, ReadBack));
    var s1 := Step(cfg, INITIAL, REQUEST);
    assert s1 == INITIAL.(clients := map[0 := Client([], 1, [], Arrived)]);
    var s2 := Step(cfg, s1, Api(0, Insert(0)));
    assert s2 == INITIAL.(db := Db(map[0 := NewRow(cfg)], []), clients := map[0 := Client([], 1, [], MustRead(0))]);
    PlainSuffix(cfg, r, [], CREATION);
    assert [] + CREATION == CREATION;
  }

  /** The request has returned; its job is waiting. */
  function Queued(cfg: Config): State {
    Committed(cfg).(
      jobs := map[0 := FreshJob(0, cfg.maxAttempts)],
      clients := map[0 := Client([], 1, [], Responded(0, NewRow(cfg), true))])
  }

  const SUBMISSION := CREATION + [Api(0, QueueNew)]

  lemma SubmissionQueues(cfg: Config, r: Regime)
    ensures Follows(cfg, r, SUBMISSION) && After(cfg, SUBMISSION) == Queued(cfg)
  {
    CreationCommits(cfg, r);
    OneMoreLabel(cfg, r, CREATION, Api(0, QueueNew));
    assert Step(cfg, Committed(cfg), Api(0, QueueNew)) == Queued(cfg);
  }

  // ---- A call claims the payment -----------------------------------------------------------------------

  ghost predicate Claimable(s: State, w: nat) {
    && w !in s.workers && 0 in s.jobs && s.jobs[0].paymentId == 0
    && 0 in s.db.payments && s.db.payments[0].status == Pending
  }

  /** Call `w` has claimed payment 0: through its job, or `direct`. */
  function ClaimedBy(s: State, w: nat, direct: bool): State
    requires 0 in s.jobs && 0 in s.db.payments
  {
    var bill := Bill(s.db.payments[0].amount, s.db.payments[0].currency);
    s.(db := OnRow(s.db, 0, Claimed(s.clock)),
       jobs := if direct then s.jobs else s.jobs[0 := s.jobs[0].(state := Active(w))],
       workers := s.workers[w := Worker(0, !direct, s.clock, Holding(bill))])
  }

  function Claiming(w: nat): seq<Label> {
    [Take(w, 0), Call(w, Claim)]
  }

  lemma ClaimingClaims(cfg: Config, s: State, w: nat)
    requires Claimable(s, w) && s.jobs[0].state.Waiting?
    ensures Run(cfg, s, Claiming(w)) == ClaimedBy(s, w, false)
  {
    RunOfTwo(cfg, s, Take(w, 0), Call(w, Claim));
  }

  lemma DirectClaimClaims(cfg: Config, s: State, w: nat)
    requires Claimable(s, w)
    ensures Run(cfg, s, [CallDirectly(w, 0), Call(w, Claim)]) == ClaimedBy(s, w, true)
  {
    RunOfTwo(cfg, s, CallDirectly(w, 0), Call(w, Claim));
  }

  /** Call `w` takes the waiting job and claims. */
  lemma TakenAndClaimed(cfg: Config, r: Regime, before: seq<Label>, s: State, w: nat) returns (run: seq<Label>)
    requires Follows(cfg, r, before) && After(cfg, before) == s
    requires Claimable(s, w) && s.jobs[0].state.Waiting? && MayClaim(r, s, 0)
    ensures Follows(cfg, r, run) && After(cfg, run) == ClaimedBy(s, w, false)
    ensures run == before + Claiming(w)
  {
    run := before + Claiming(w);
    TakeAndClaimFollow(cfg, r, before, w, 0);
    RunAppend(cfg, INITIAL, before, Claiming(w));
    ClaimingClaims(cfg, s, w);
  }

  /** Call `w` claims although the job is active: directly, or because the job is declared stalled. */
  lemma Reclaimed(cfg: Config, r: Regime, before: seq<Label>, s: State, w: nat, direct: bool) returns (run: seq<Label>)
    requires Follows(cfg, r, before) && After(cfg, before) == s
    requires Claimable(s, w) && s.jobs[0].state.Active? && MayClaim(r, s, 0)
    requires if direct then !r.queueOnly else !r.stallsDead || !Live(s, s.jobs[0].state.holder)
    ensures Follows(cfg, r, run) && After(cfg, run) == ClaimedBy(s, w, direct)
    ensures before <= run
  {
    if direct {
      run := DirectlyClaimed(cfg, r, before, s, w);
    } else {
      run := StalledAndClaimed(cfg, r, before, s, w);
    }
  }

  lemma Stalled(cfg: Config, r: Regime, before: seq<Label>, s: State)
    requires Follows(cfg, r, before) && After(cfg, before) == s
    requires 0 in s.jobs && s.jobs[0].state.Active?
    requires !r.stallsDead || !Live(s, s.jobs[0].state.holder)
    ensures Follows(cfg, r, before + [Stall(0)]) && After(cfg, before + [Stall(0)]) == SetJob(s, 0, Waiting)
  {
    OneMoreLabel(cfg, r, before, Stall(0));
  }

  lemma StalledAndClaimed(cfg: Config, r: Regime, before: seq<Label>, s: State, w: nat) returns (run: seq<Label>)
    requires Follows(cfg, r, before) && After(cfg, before) == s
    requires Claimable(s, w) && s.jobs[0].state.Active? && MayClaim(r, s, 0)
    requires !r.stallsDead || !Live(s, s.jobs[0].state.holder)
    ensures Follows(cfg, r, run) && After(cfg, run) == ClaimedBy(s, w, false)
    ensures before <= run
  {
    Stalled(cfg, r, before, s);
    ClaimAfterStall(s, w);
    SameFailures(r, s, SetJob(s, 0, Waiting), 0);
    run := TakenAndClaimed(cfg, r, before + [Stall(0)], SetJob(s, 0, Waiting), w);
  }

  lemma ClaimAfterStall(s: State, w: nat)
    requires 0 in s.jobs && 0 in s.db.payments
    ensures ClaimedBy(SetJob(s, 0, Waiting), w, false) == ClaimedBy(s, w, false)
  {
  }

  lemma DirectlyClaimed(cfg: Config, r: Regime, before: seq<Label>, s: State, w: nat) returns (run: seq<Label>)
    requires Follows(cfg, r, before) && After(cfg, before) == s
    requires Claimable(s, w) && !r.queueOnly && MayClaim(r, s, 0)
    ensures Follows(cfg, r, run) && After(cfg, run) == ClaimedBy(s, w, true)
    ensures before <= run
  {
    var claim := [CallDirectly(w, 0), Call(w, Claim)];
    OneMoreLabel(cfg, r, before, CallDirectly(w, 0));
    SameFailures(r, s, After(cfg, before + [CallDirectly(w, 0)]), 0);
    ClaimFollows(cfg, r, before + [CallDirectly(w, 0)], w);
    run := before + claim;
    assert run == before + [CallDirectly(w, 0)] + [Call(w, Claim)];
    RunAppend(cfg, INITIAL, before, claim);
    DirectClaimClaims(cfg, s, w);
  }

  /** Call 0 has taken the job and claimed payment 0. */
  function FirstClaim(cfg: Config): State {
    ClaimedBy(Queued(cfg), 0, false)
  }

  lemma FirstClaimReached(cfg: Config, r: Regime) returns (run: seq<Label>)
    ensures Follows(cfg, r, run) && After(cfg, run) == FirstClaim(cfg)
  {
    SubmissionQueues(cfg, r);
    run := TakenAndClaimed(cfg, r, SUBMISSION, Queued(cfg), 0);
  }

  // ---- The claim goes stale ----------------------------------------------------------------------------

  /** Call 0 is alive, and its claim is overdue. */
  function Overdue(cfg: Config): State {
    FirstClaim(cfg).(clock := cfg.staleMs + 1)
  }

  lemma OverdueReached(cfg: Config, r: Regime) returns (run: seq<Label>)
    requires r.bound.Some? ==> cfg.staleMs < r.bound.value
    ensures Follows(cfg, r, run) && After(cfg, run) == Overdue(cfg)
  {
    var before := FirstClaimReached(cfg, r);
    OneMoreLabel(cfg, r, before, Tick(cfg.staleMs + 1));
    run := before + [Tick(cfg.staleMs + 1)];
  }

  /** Call 0 has crashed after its claim. */
  function Crashed(cfg: Config): State {
    FirstClaim(cfg).(workers := map[0 := Worker(0, true, 0, Ended)])
  }

  lemma CrashReached(cfg: Config, r: Regime) returns (run: seq<Label>)
    ensures Follows(cfg, r, run) && After(cfg, run) == Crashed(cfg)
  {
    var before := FirstClaimReached(cfg, r);
    OneMoreLabel(cfg, r, before, Call(0, Crash));
    run := before + [Call(0, Crash)];
  }

  /** Call 0 has crashed, and its claim has grown stale. */
  function DeadClaim(cfg: Config): State {
    Crashed(cfg).(clock := cfg.staleMs + 1)
  }

  lemma ClaimIsStale(cfg: Config)
    ensures StaleIds(Overdue(cfg).db.payments, Overdue(cfg).clock - cfg.staleMs) == {0}
    ensures StaleIds(DeadClaim(cfg).db.payments, DeadClaim(cfg).clock - cfg.staleMs) == {0}
  {
  }

  lemma DeadClaimReached(cfg: Config, r: Regime) returns (run: seq<Label>)
    ensures Follows(cfg, r, run) && After(cfg, run) == DeadClaim(cfg)
  {
    var before := CrashReached(cfg, r);
    run := GrownStale(cfg, r, before, Crashed(cfg));
  }

  /** With no call in flight, any time may pass. */
  lemma GrownStale(cfg: Config, r: Regime, before: seq<Label>, s: State) returns (run: seq<Label>)
    requires Follows(cfg, r, before) && After(cfg, before) == s && s.clock == 0
    requires forall w :: w in s.workers ==> !Charging(s.workers[w])
    ensures Follows(cfg, r, run) && After(cfg, run) == s.(clock := cfg.staleMs + 1)
    ensures run == before + [Tick(cfg.staleMs + 1)]
  {
    OneMoreLabel(cfg, r, before, Tick(cfg.staleMs + 1));
    run := before + [Tick(cfg.staleMs + 1)];
  }

  // ---- A sweep releases it -----------------------------------------------------------------------------

  function Released(p: Payment): Payment {
    p.(status := Pending, lastError := Some(StuckReleased), startedAt := None)
  }

  function SelectedBy(s: State, k: nat): State {
    s.(sweeps := s.sweeps[k := Sweep({0}, Idle)])
  }

  /** Sweep `k` has released payment 0. */
  function ReleasedBy(s: State, k: nat): State
    requires 0 in s.db.payments
  {
    s.(db := s.db.(payments := s.db.payments[0 := Released(s.db.payments[0])]),
       sweeps := s.sweeps[k := Sweep({}, MustRemove(0))])
  }

  lemma RecoverReleases(cfg: Config, s: State, k: nat)
    requires 0 in s.db.payments && s.db.payments[0].status == Processing
    requires s.db.payments[0].attempts < s.db.payments[0].maxAttempts
    requires k in s.sweeps && s.sweeps[k] == Sweep({0}, Idle)
    ensures Step(cfg, s, Reconcile(k, Recover(0))) == ReleasedBy(s, k)
  {
    assert {0} - {0} == {};
  }

  lemma SelectedNow(cfg: Config, r: Regime, before: seq<Label>, s: State, k: nat) returns (run: seq<Label>)
    requires Follows(cfg, r, before) && After(cfg, before) == s && k !in s.sweeps
    requires StaleIds(s.db.payments, s.clock - cfg.staleMs) == {0}
    requires r.oneSweep ==> s.sweeps == map[]
    ensures Follows(cfg, r, run) && After(cfg, run) == SelectedBy(s, k)
    ensures run == before + [Select(k)]
  {
    OneMoreLabel(cfg, r, before, Select(k));
    run := before + [Select(k)];
  }

  lemma ReleasedNow(cfg: Config, r: Regime, before: seq<Label>, s: State, k: nat) returns (run: seq<Label>)
    requires Follows(cfg, r, before) && After(cfg, before) == s
    requires 0 in s.db.payments && s.db.payments[0].status == Processing
    requires s.db.payments[0].attempts < s.db.payments[0].maxAttempts
    requires k in s.sweeps && s.sweeps[k] == Sweep({0}, Idle)
    ensures Follows(cfg, r, run) && After(cfg, run) == ReleasedBy(s, k)
    ensures run == before + [Reconcile(k, Recover(0))]
  {
    OneMoreLabel(cfg, r, before, Reconcile(k, Recover(0)));
    RecoverReleases(cfg, s, k);
    run := before + [Reconcile(k, Recover(0))];
  }

  /** Sweep `k` finds the attempts used up, and fails payment 0. */
  lemma ExhaustedNow(cfg: Config, r: Regime, before: seq<Label>, s: State, k: nat) returns (run: seq<Label>)
    requires Follows(cfg, r, before) && After(cfg, before) == s
    requires 0 in s.db.payments && s.db.payments[0].status == Processing
    requires s.db.payments[0].attempts >= s.db.payments[0].maxAttempts
    requires k in s.sweeps && s.sweeps[k] == Sweep({0}, Idle)
    ensures Follows(cfg, r, run) && run == before + [Reconcile(k, Recover(0))]
    ensures After(cfg, run) == s.(db := OnRow(s.db, 0, Recovered), sweeps := s.sweeps[k := Sweep({}, Idle)])
    ensures After(cfg, run).db.payments[0].status == Failed
  {
    OneMoreLabel(cfg, r, before, Reconcile(k, Recover(0)));
    assert {0} - {0} == {};
    run := before + [Reconcile(k, Recover(0))];
  }

  /** A lone sweep selects the stale claim and releases it. */
  lemma SweptNow(cfg: Config, r: Regime, before: seq<Label>, s: State) returns (run: seq<Label>)
    requires Follows(cfg, r, before) && After(cfg, before) == s && s.sweeps == map[]
    requires StaleIds(s.db.payments, s.clock - cfg.staleMs) == {0}
    requires 0 in s.db.payments && s.db.payments[0].attempts < s.db.payments[0].maxAttempts
    ensures Follows(cfg, r, run) && After(cfg, run) == ReleasedBy(s, 0)
    ensures before <= run
  {
    run := SelectedNow(cfg, r, before, s, 0);
    assert 0 in StaleIds(s.db.payments, s.clock - cfg.staleMs);
    run := ReleasedNow(cfg, r, run, SelectedBy(s, 0), 0);
    assert ReleasedBy(SelectedBy(s, 0), 0) == ReleasedBy(s, 0);
  }
}
