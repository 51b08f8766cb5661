/** The sweep as a run of the protocol: with nothing in between, it does what the sweep of module Reconciler does. */
module SweepRun {
  import opened Rows
  import opened Tables
  import opened Queue
  import opened Protocol
  import opened Reconciler

  /** The labels that recover one row and hand it back. */
  function RowLabels(k: nat, id: nat): seq<Label> {
    [Reconcile(k, Recover(id)), Reconcile(k, Clear), Reconcile(k, Requeue)]
  }

  /** The labels of a sweep's loop over the rows it has selected, in the order given. */
  function LoopLabels(k: nat, ids: seq<nat>): seq<Label> {
    if |ids| == 0 then [] else LoopLabels(k, ids[..|ids| - 1]) + RowLabels(k, ids[|ids| - 1])
  }

  // ---- One row -----------------------------------------------------------------------------------------

  function AfterRow(cfg: Config, s: State, k: nat, id: nat): State
    requires k in s.sweeps
  {
    var swept := s.(db := OnRow(s.db, id, Recovered), sweeps := s.sweeps[k := Sweep(s.sweeps[k].todo - {id}, Idle)]);
    if RecoverReplyOf(RowOf(s.db, id)).Released?
    then swept.(jobs := AddJob(RemoveJob(s.jobs, id), id, FreshJob(id, cfg.maxAttempts)))
    else swept
  }

  lemma RecoverStep(cfg: Config, s: State, k: nat, id: nat)
    requires k in s.sweeps && s.sweeps[k].handoff.Idle? && id in s.sweeps[k].todo
    ensures Step(cfg, s, Reconcile(k, Recover(id)))
            == s.(db := OnRow(s.db, id, Recovered),
                  sweeps := s.sweeps[k := Sweep(
                    s.sweeps[k].todo - {id},
                    if RecoverReplyOf(RowOf(s.db, id)).Released? then MustRemove(id) else Idle)])
  {
  }

  lemma HandBackSteps(cfg: Config, s: State, k: nat, todo: set<nat>, id: nat)
    requires k in s.sweeps && s.sweeps[k] == Sweep(todo, MustRemove(id))
    ensures Step(cfg, Step(cfg, s, Reconcile(k, Clear)), Reconcile(k, Requeue))
            == s.(jobs := AddJob(RemoveJob(s.jobs, id), id, FreshJob(id, cfg.maxAttempts)),
                  sweeps := s.sweeps[k := Sweep(todo, Idle)])
  {
    assert Step(cfg, s, Reconcile(k, Clear))
        == s.(jobs := RemoveJob(s.jobs, id), sweeps := s.sweeps[k := Sweep(todo, MustEnqueue(id))]);
  }

  lemma IdleSteps(cfg: Config, s: State, k: nat)
    requires k in s.sweeps && s.sweeps[k].handoff.Idle?
    ensures Step(cfg, Step(cfg, s, Reconcile(k, Clear)), Reconcile(k, Requeue)) == s
  {
    assert s.sweeps[k := s.sweeps[k]] == s.sweeps;
  }

  lemma RowSteps(cfg: Config, s: State, k: nat, id: nat)
    requires k in s.sweeps && s.sweeps[k].handoff.Idle? && id in s.sweeps[k].todo
    ensures Run(cfg, s, RowLabels(k, id)) == AfterRow(cfg, s, k, id)
  {
    RunOfThree(cfg, s, Reconcile(k, Recover(id)), Reconcile(k, Clear), Reconcile(k, Requeue));
    RecoverStep(cfg, s, k, id);
    var s1 := Step(cfg, s, Reconcile(k, Recover(id)));
    if RecoverReplyOf(RowOf(s.db, id)).Released? {
      HandBackSteps(cfg, s1, k, s.sweeps[k].todo - {id}, id);
    } else {
      IdleSteps(cfg, s1, k);
    }
  }

  // ---- All rows ------------------------------------------------------------------------------------------

  /** Where the system stands when sweep `k`, alone since state `s`, is through with the rows in `done`. */
  ghost predicate SweptTo(cfg: Config, s: State, k: nat, done: set<nat>, s': State)
    requires k in s.sweeps
  {
    && s' == s.(db := s'.db, jobs := s'.jobs, sweeps := s.sweeps[k := Sweep(s.sweeps[k].todo - done, Idle)])
    && s'.db == s.db.(payments := SweptPayments(s.db.payments, done))
    && JobsAreSwept(cfg, s, done, s'.jobs)
  }

  ghost predicate JobsAreSwept(cfg: Config, s: State, done: set<nat>, jobs: map<nat, Job>) {
    forall id: nat :: JobOf(jobs, id) == SweptJob(s.db.payments, done, id, JobOf(s.jobs, id), cfg.maxAttempts)
  }

  lemma OneMoreRow(cfg: Config, s: State, k: nat, done: set<nat>, s1: State, id: nat)
    requires k in s.sweeps && SweptTo(cfg, s, k, done, s1) && id !in done
    ensures SweptTo(cfg, s, k, done + {id}, AfterRow(cfg, s1, k, id))
  {
    var s' := AfterRow(cfg, s1, k, id);
    OneMorePayment(s.db.payments, done, id);
    OneMoreJob(cfg, s, done, s1, id);
    assert s.sweeps[k].todo - done - {id} == s.sweeps[k].todo - (done + {id});
    assert s1.sweeps[k := s'.sweeps[k]] == s.sweeps[k := s'.sweeps[k]];
  }

  lemma OneMorePayment(payments: map<nat, Payment>, done: set<nat>, id: nat)
    requires id !in done
    ensures var swept := SweptPayments(payments, done);
            SweptPayments(payments, done + {id})
            == if id in payments then swept[id := Advance(swept[id], Recovered)] else swept
  {
  }

  lemma OneMoreJob(cfg: Config, s: State, done: set<nat>, s1: State, id: nat)
    requires s1.db.payments == SweptPayments(s.db.payments, done) && JobsAreSwept(cfg, s, done, s1.jobs) && id !in done
    ensures JobsAreSwept(
              cfg, s, done + {id},
              if RecoverReplyOf(RowOf(s1.db, id)).Released?
              then AddJob(RemoveJob(s1.jobs, id), id, FreshJob(id, cfg.maxAttempts)) else s1.jobs)
  {
    assert JobOf(s1.jobs, id) == JobOf(s.jobs, id);
  }

  /**
   * The rest of a sweep, from any state in which it has nothing in hand: the rows on its list are recovered and
   * handed back as RecoverEach does it, in whatever order, and nothing else changes.
   */
  lemma {:induction false} UndisturbedLoop(cfg: Config, s: State, k: nat, ids: seq<nat>)
    requires k in s.sweeps && s.sweeps[k].handoff.Idle? && Elements(ids) <= s.sweeps[k].todo
    requires forall i, j :: 0 <= i < j < |ids| ==> ids[i] != ids[j]
    ensures SweptTo(cfg, s, k, Elements(ids), Run(cfg, s, LoopLabels(k, ids)))
  {
    var n := |ids|;
    if n == 0 {
      NothingSwept(cfg, s, k);
      assert Elements(ids) == {};
    } else {
      assert ids[..n] == ids && ids[n - 1] in Elements(ids);
      OneMoreListed(ids, n - 1);
      UndisturbedLoop(cfg, s, k, ids[..n - 1]);
      var s1 := Run(cfg, s, LoopLabels(k, ids[..n - 1]));
      RunAppend(cfg, s, LoopLabels(k, ids[..n - 1]), RowLabels(k, ids[n - 1]));
      RowSteps(cfg, s1, k, ids[n - 1]);
      OneMoreRow(cfg, s, k, Elements(ids[..n - 1]), s1, ids[n - 1]);
    }
  }

  lemma NothingSwept(cfg: Config, s: State, k: nat)
    requires k in s.sweeps && s.sweeps[k].handoff.Idle?
    ensures SweptTo(cfg, s, k, {}, s)
  {
    assert s.sweeps[k].todo - {} == s.sweeps[k].todo;
    assert SweptPayments(s.db.payments, {}) == s.db.payments;
  }

  /** Nothing but sweep `k` has moved since state `s`, and it is through with the rows `listed`. */
  ghost predicate SweptSince(cfg: Config, s: State, k: nat, listed: set<nat>, handoff: Handoff, s': State) {
    && s' == s.(db := s'.db, jobs := s'.jobs, sweeps := s.sweeps[k := Sweep({}, handoff)])
    && s'.db == s.db.(payments := SweptPayments(s.db.payments, listed))
    && JobsAreSwept(cfg, s, listed, s'.jobs)
  }

  lemma SelectedAndSwept(cfg: Config, s: State, k: nat, ids: seq<nat>)
    requires k !in s.sweeps
    requires Elements(ids) == StaleIds(s.db.payments, s.clock - cfg.staleMs)
    requires forall i, j :: 0 <= i < j < |ids| ==> ids[i] != ids[j]
    ensures SweptSince(cfg, s, k, Elements(ids), Idle, Run(cfg, s, [Select(k)] + LoopLabels(k, ids)))
  {
    LoopAfterSelect(cfg, s, k, ids);
    UndisturbedLoop(cfg, Selecting(s, k, Elements(ids)), k, ids);
    SweptSinceSelect(cfg, s, k, Elements(ids), Run(cfg, s, [Select(k)] + LoopLabels(k, ids)));
  }

  lemma LoopAfterSelect(cfg: Config, s: State, k: nat, ids: seq<nat>)
    requires k !in s.sweeps && Elements(ids) == StaleIds(s.db.payments, s.clock - cfg.staleMs)
    ensures Run(cfg, s, [Select(k)] + LoopLabels(k, ids))
            == Run(cfg, Selecting(s, k, Elements(ids)), LoopLabels(k, ids))
  {
    RunFromOne(cfg, s, Select(k), LoopLabels(k, ids));
    SelectStep(cfg, s, k);
  }

  lemma SelectStep(cfg: Config, s: State, k: nat)
    requires k !in s.sweeps
    ensures Step(cfg, s, Select(k)) == Selecting(s, k, StaleIds(s.db.payments, s.clock - cfg.staleMs))
  {
  }

  /** Sweep `k` has listed its rows. */
  function Selecting(s: State, k: nat, listed: set<nat>): State {
    s.(sweeps := s.sweeps[k := Sweep(listed, Idle)])
  }

  lemma SweptSinceSelect(cfg: Config, s: State, k: nat, listed: set<nat>, s1: State)
    requires SweptTo(cfg, Selecting(s, k, listed), k, listed, s1)
    ensures SweptSince(cfg, s, k, listed, Idle, s1)
  {
    assert listed - listed == {};
    assert Selecting(s, k, listed).sweeps[k := Sweep({}, Idle)] == s.sweeps[k := Sweep({}, Idle)];
  }

  lemma SweepEnds(cfg: Config, s: State, k: nat, listed: set<nat>, s1: State)
    requires SweptSince(cfg, s, k, listed, Idle, s1)
    ensures SweptSince(cfg, s, k, listed, Over, Step(cfg, s1, Reconcile(k, EndSweep)))
  {
    assert s1.sweeps[k := Sweep({}, Over)] == s.sweeps[k := Sweep({}, Over)];
  }

  /** A whole sweep, selection included. */
  lemma UndisturbedSweep(cfg: Config, s: State, k: nat, ids: seq<nat>)
    requires k !in s.sweeps
    requires Elements(ids) == StaleIds(s.db.payments, s.clock - cfg.staleMs)
    requires forall i, j :: 0 <= i < j < |ids| ==> ids[i] != ids[j]
    ensures var run := [Select(k)] + LoopLabels(k, ids) + [Reconcile(k, EndSweep)];
            SweptSince(cfg, s, k, Elements(ids), Over, Run(cfg, s, run))
  {
    var run := [Select(k)] + LoopLabels(k, ids);
    SelectedAndSwept(cfg, s, k, ids);
    RunAppend(cfg, s, run, [Reconcile(k, EndSweep)]);
    RunOfOne(cfg, Run(cfg, s, run), Reconcile(k, EndSweep));
    SweepEnds(cfg, s, k, Elements(ids), Run(cfg, s, run));
  }

  /**
   * The two sweeps side by side: where the queue kept by job id mirrors the queue of the protocol, a sweep by
   * module Reconciler and a sweep by labels over the same rows end in the same table and in mirroring queues.
   */
  lemma SweepsMirror(
    cfg: Config, s: State, k: nat, ids: seq<nat>, stored: map<string, Job>,
    payments': map<nat, Payment>, stored': map<string, Job>)
    requires k in s.sweeps && s.sweeps[k].handoff.Idle? && Elements(ids) <= s.sweeps[k].todo
    requires forall i, j :: 0 <= i < j < |ids| ==> ids[i] != ids[j]
    requires Mirrors(stored, s.jobs)
    requires Swept(s.db.payments, stored, Elements(ids), cfg.maxAttempts, payments', stored')
    ensures Run(cfg, s, LoopLabels(k, ids)).db.payments == payments'
    ensures Mirrors(stored', Run(cfg, s, LoopLabels(k, ids)).jobs)
  {
    UndisturbedLoop(cfg, s, k, ids);
  }
}
