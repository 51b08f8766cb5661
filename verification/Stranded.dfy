/** What happens where a payment is not carried: it stays Pending for good. */
module Stranded {
  import opened StateMachine
  import opened Rows
  import opened Tables
  import opened Queue
  import opened Protocol
  import opened InFlight
  import opened Regimes
  import opened JobLock
  import opened NoLoss

  /** Pending, its job gone or dead, and no request, call, sweep or failure refers to the payment any more. */
  ghost predicate IsStranded(s: State, p: nat) {
    && p in s.db.payments && s.db.payments[p].status == Pending
    && (p in s.jobs ==> s.jobs[p].state.Dead?)
    && (forall w :: Live(s, w) ==> s.workers[w].pid != p)
    && (forall c :: !Queues(s, c, p))
    && (forall k :: !Clears(s, k, p) && !Requeues(s, k, p))
    && (forall w :: !Fails(s, w, p))
  }

  /** Neither a callback for the payment nor a call of process() by hand. */
  predicate NoHelp(l: Label, p: nat) {
    !(l.Webhook? && l.d.paymentId == p) && !(l.CallDirectly? && l.pid == p)
  }

  lemma StrandedRowStays(cfg: Config, s: State, l: Label, p: nat)
    requires IsStranded(s, p) && NoHelp(l, p)
    ensures RowOf(Step(cfg, s, l).db, p) == RowOf(s.db, p)
  {
    StepIsAWrite(cfg, s, l, p);
    if l.Call? && l.w in s.workers { assert Live(s, l.w) || s.workers[l.w].phase.Ended?; }
    if l.HandleFailed? { assert !Fails(s, l.w, p); }
  }

  lemma StrandedJobStays(cfg: Config, s: State, l: Label, p: nat)
    requires IsStranded(s, p) && NoHelp(l, p)
    ensures JobOf(Step(cfg, s, l).jobs, p) == JobOf(s.jobs, p)
  {
    JobsMove(cfg, s, l, p);
    if l.Call? && l.w in s.workers { assert Live(s, l.w) || s.workers[l.w].phase.Ended?; }
    if l.Api? { assert !Queues(s, l.c, p); }
    if l.Reconcile? { assert !Clears(s, l.k, p) && !Requeues(s, l.k, p); }
  }

  lemma StrandedStays(cfg: Config, s: State, l: Label, p: nat)
    requires Named(s) && IsStranded(s, p) && NoHelp(l, p)
    ensures IsStranded(Step(cfg, s, l), p)
    ensures Step(cfg, s, l).db.payments[p] == s.db.payments[p]
  {
    var s' := Step(cfg, s, l);
    StrandedRowStays(cfg, s, l, p);
    StrandedJobStays(cfg, s, l, p);
    if l.Call? && l.w in s.workers { assert Live(s, l.w) || s.workers[l.w].phase.Ended?; }
    forall w | Live(s', w) ensures s'.workers[w].pid != p { WorkersMove(cfg, s, l, w); }
    forall c ensures !Queues(s', c, p) { if Queues(s', c, p) { RequestsMove(cfg, s, l, c, p); } }
    forall k ensures !Clears(s', k, p) && !Requeues(s', k, p) { HandoffsMove(cfg, s, l, k, p); }
    forall w ensures !Fails(s', w, p) { FailuresMove(cfg, s, l, w, p); }
  }

  /** No retry, no repeated request and no number of sweeps ever brings a stranded payment back. */
  lemma {:induction false} StrandedForever(cfg: Config, s: State, run: seq<Label>, p: nat)
    requires Named(s) && IsStranded(s, p)
    requires forall i :: 0 <= i < |run| ==> NoHelp(run[i], p)
    ensures IsStranded(Run(cfg, s, run), p)
    ensures Run(cfg, s, run).db.payments[p] == s.db.payments[p]
  {
    if |run| > 0 {
      StrandedForever(cfg, s, run[..|run| - 1], p);
      RunKeepsNamed(cfg, s, run[..|run| - 1]);
      StrandedStays(cfg, Run(cfg, s, run[..|run| - 1]), run[|run| - 1], p);
    }
  }

  /** A stranded payment is exactly what NoPaymentIsLost excludes. */
  lemma StrandedIsNotCarried(s: State, p: nat)
    requires IsStranded(s, p)
    ensures !Carried(s, p)
  {
  }

  // ---- A request cut off before its enqueue ----------------------------------------------------------

  /**
   * After any careful run: an API process that dies between committing a row and queueing it strands the
   * payment, unless a callback has settled it already. A repeated request only fetches the row.
   */
  lemma CutOffRequestStrands(cfg: Config, r: Regime, run: seq<Label>, c: nat, p: nat, more: seq<Label>)
    requires Follows(cfg, r, run) && Careful(r) && Queues(After(cfg, run), c, p)
    requires p in After(cfg, run).db.payments && After(cfg, run).db.payments[p].status == Pending
    requires forall i :: 0 <= i < |more| ==> NoHelp(more[i], p)
    ensures IsStranded(After(cfg, run + [Api(c, CutRequest)] + more), p)
  {
    var s := After(cfg, run);
    CarefulRunsAreSafe(cfg, r, run, p);
    JobsAreForTheirPayments(cfg, run);
    CutStrands(cfg, s, c, p);
    RunThrough(cfg, INITIAL, run, Api(c, CutRequest), more);
    StepKeepsNamed(cfg, s, Api(c, CutRequest));
    StrandedForever(cfg, Step(cfg, s, Api(c, CutRequest)), more, p);
  }

  lemma CutStrands(cfg: Config, s: State, c: nat, p: nat)
    requires Locked(s) && Fresh(s, p) && Queues(s, c, p)
    requires p in s.db.payments && s.db.payments[p].status == Pending
    ensures IsStranded(Step(cfg, s, Api(c, CutRequest)), p)
  {
    var s' := Step(cfg, s, Api(c, CutRequest));
    assert Untried(s, p);
    forall w | Live(s', w) ensures s'.workers[w].pid != p { assert Live(s, w); }
    forall b ensures !Queues(s', b, p) { assert Queues(s, b, p) ==> b == c; }
    forall k ensures !Clears(s', k, p) && !Requeues(s', k, p) { assert !Clears(s, k, p) && !Requeues(s, k, p); }
    forall w ensures !Fails(s', w, p) { assert !Fails(s, w, p); }
  }

  // ---- A sweep cut off between its remove and its enqueue ----------------------------------------------

  /** The released payment has no job, and no other sweep or failure is about to deal with it. */
  ghost predicate OnlyRequeuedBy(s: State, k: nat, p: nat) {
    && p in s.db.payments && s.db.payments[p].status == Pending && p !in s.jobs
    && Requeues(s, k, p)
    && (forall j :: Clears(s, j, p) || Requeues(s, j, p) ==> j == k)
    && (forall w :: !Fails(s, w, p))
  }

  /** After any careful run: later sweeps look for Processing rows only, so they never find it again. */
  lemma CutOffSweepStrands(cfg: Config, r: Regime, run: seq<Label>, k: nat, p: nat, more: seq<Label>)
    requires Follows(cfg, r, run) && Careful(r) && OnlyRequeuedBy(After(cfg, run), k, p)
    requires forall i :: 0 <= i < |more| ==> NoHelp(more[i], p)
    ensures IsStranded(After(cfg, run + [Reconcile(k, CutSweep)] + more), p)
  {
    var s := After(cfg, run);
    CarefulRunsAreSafe(cfg, r, run, p);
    JobsAreForTheirPayments(cfg, run);
    CutSweepStrands(cfg, s, k, p);
    RunThrough(cfg, INITIAL, run, Reconcile(k, CutSweep), more);
    StepKeepsNamed(cfg, s, Reconcile(k, CutSweep));
    StrandedForever(cfg, Step(cfg, s, Reconcile(k, CutSweep)), more, p);
  }

  lemma CutSweepStrands(cfg: Config, s: State, k: nat, p: nat)
    requires Locked(s) && Fresh(s, p) && OnlyRequeuedBy(s, k, p)
    ensures IsStranded(Step(cfg, s, Reconcile(k, CutSweep)), p)
  {
    var s' := Step(cfg, s, Reconcile(k, CutSweep));
    forall w | Live(s', w) ensures s'.workers[w].pid != p { assert Live(s, w); }
    forall c ensures !Queues(s', c, p) { assert Queues(s, c, p) ==> Untried(s, p); }
    forall j ensures !Clears(s', j, p) && !Requeues(s', j, p) {
      assert Clears(s, j, p) || Requeues(s, j, p) ==> j == k;
    }
    forall w ensures !Fails(s', w, p) { assert !Fails(s, w, p); }
  }

  // ---- A `failed` event that nobody handles ------------------------------------------------------------

  /** The job is dead, and only this event stands for the payment. */
  ghost predicate OnlyFailedBy(s: State, w: nat, p: nat) {
    && p in s.db.payments && s.db.payments[p].status == Pending
    && p in s.jobs && s.jobs[p].state.Dead?
    && Fails(s, w, p)
    && (forall v :: Fails(s, v, p) ==> v == w)
    && (forall k :: !Clears(s, k, p) && !Requeues(s, k, p))
  }

  /** After any careful run: a worker that dies before its defensive failPayment leaves the payment Pending for good. */
  lemma LostFailureStrands(cfg: Config, r: Regime, run: seq<Label>, w: nat, p: nat, more: seq<Label>)
    requires Follows(cfg, r, run) && Careful(r) && OnlyFailedBy(After(cfg, run), w, p)
    requires forall i :: 0 <= i < |more| ==> NoHelp(more[i], p)
    ensures IsStranded(After(cfg, run + [LoseFailed(w)] + more), p)
  {
    var s := After(cfg, run);
    CarefulRunsAreSafe(cfg, r, run, p);
    JobsAreForTheirPayments(cfg, run);
    LoseStrands(cfg, s, w, p);
    RunThrough(cfg, INITIAL, run, LoseFailed(w), more);
    StepKeepsNamed(cfg, s, LoseFailed(w));
    StrandedForever(cfg, Step(cfg, s, LoseFailed(w)), more, p);
  }

  lemma LoseStrands(cfg: Config, s: State, w: nat, p: nat)
    requires Locked(s) && Fresh(s, p) && OnlyFailedBy(s, w, p)
    ensures IsStranded(Step(cfg, s, LoseFailed(w)), p)
  {
    var s' := Step(cfg, s, LoseFailed(w));
    forall v | Live(s', v) ensures s'.workers[v].pid != p { assert Live(s, v); }
    forall c ensures !Queues(s', c, p) { assert Queues(s, c, p) ==> Untried(s, p); }
    forall k ensures !Clears(s', k, p) && !Requeues(s', k, p) { assert !Clears(s, k, p) && !Requeues(s, k, p); }
    forall v ensures !Fails(s', v, p) { assert Fails(s, v, p) ==> v == w; }
  }

  // ---- A job that is held when a sweep would replace it ------------------------------------------------

  /**
   * Recovery gives a released payment a job through which it can be claimed, exactly when the old job is not held
   * by a live call that has claimed or bailed out, nor by one that is throwing on the job's last attempt.
   */
  lemma HandedBackExactly(cfg: Config, s: State, k: nat, p: nat)
    requires Clears(s, k, p)
    ensures Runnable(Run(cfg, s, [Reconcile(k, Clear), Reconcile(k, Requeue)]), p)
            <==> !HeldPastClaim(s, p) && !Dying(s, p)
  {
    RunOfTwo(cfg, s, Reconcile(k, Clear), Reconcile(k, Requeue));
  }

  /** Pending, and the only thing that refers to the payment is a live call `w` that will not claim it. */
  ghost predicate Doomed(s: State, w: nat, p: nat) {
    && p in s.db.payments && s.db.payments[p].status == Pending
    && Holds(s, w, p) && HeldPastClaim(s, p)
    && (forall v :: Live(s, v) && s.workers[v].pid == p ==> v == w)
    && s.workers[w].pid == p
    && (forall c :: !Queues(s, c, p))
    && (forall k :: !Clears(s, k, p) && !Requeues(s, k, p))
    && (forall v :: !Fails(s, v, p))
  }

  /** No help from outside, and call `w` is left to run to its end. */
  predicate LeftAlone(l: Label, w: nat, p: nat) {
    && NoHelp(l, p)
    && !(l.Stall? && l.pid == p)
    && !(l.Call? && l.w == w && (l.callAct.Crash? || l.callAct.Break?))
  }

  lemma DoomedRowStays(cfg: Config, s: State, l: Label, w: nat, p: nat)
    requires Doomed(s, w, p) && LeftAlone(l, w, p)
    ensures RowOf(Step(cfg, s, l).db, p) == RowOf(s.db, p)
  {
    StepIsAWrite(cfg, s, l, p);
    if l.Call? && l.w in s.workers { assert Live(s, l.w) || s.workers[l.w].phase.Ended?; }
    if l.HandleFailed? { assert !Fails(s, l.w, p); }
  }

  lemma DoomedJobMoves(cfg: Config, s: State, l: Label, w: nat, p: nat)
    requires Doomed(s, w, p) && LeftAlone(l, w, p)
    ensures if l == Call(w, Finish) && s.workers[w].phase.Returning? then p !in Step(cfg, s, l).jobs
            else JobOf(Step(cfg, s, l).jobs, p) == JobOf(s.jobs, p)
  {
    JobsMove(cfg, s, l, p);
    if l.Call? && l.w in s.workers { assert Live(s, l.w) || s.workers[l.w].phase.Ended?; }
    if l.Api? { assert !Queues(s, l.c, p); }
    if l.Reconcile? { assert !Clears(s, l.k, p) && !Requeues(s, l.k, p); }
  }

  /** The call itself: it answers, finds the row Pending, and ends. */
  lemma DoomedCallMoves(cfg: Config, s: State, l: Label, w: nat, p: nat)
    requires Doomed(s, w, p) && LeftAlone(l, w, p)
    ensures w in Step(cfg, s, l).workers && Step(cfg, s, l).workers[w].pid == p
    ensures var phase := Step(cfg, s, l).workers[w].phase;
            if l == Call(w, Finish) && s.workers[w].phase.Returning? then phase.Ended?
            else Charging(Step(cfg, s, l).workers[w]) || phase.Returning?
  {
    WorkersMove(cfg, s, l, w);
  }

  /** Nothing new comes to refer to it. */
  lemma DoomedStaysAlone(cfg: Config, s: State, l: Label, w: nat, p: nat)
    requires Doomed(s, w, p) && LeftAlone(l, w, p)
    ensures var s' := Step(cfg, s, l);
            && (forall c :: !Queues(s', c, p))
            && (forall k :: !Clears(s', k, p) && !Requeues(s', k, p))
            && (forall v :: !Fails(s', v, p))
  {
    var s' := Step(cfg, s, l);
    forall c ensures !Queues(s', c, p) { if Queues(s', c, p) { RequestsMove(cfg, s, l, c, p); } }
    forall k ensures !Clears(s', k, p) && !Requeues(s', k, p) { HandoffsMove(cfg, s, l, k, p); }
    forall v ensures !Fails(s', v, p) { FailuresMove(cfg, s, l, v, p); }
  }

  lemma OnlyDoomedCallIsLive(cfg: Config, s: State, l: Label, w: nat, p: nat, v: nat)
    requires Named(s) && Doomed(s, w, p) && LeftAlone(l, w, p)
    requires Live(Step(cfg, s, l), v) && Step(cfg, s, l).workers[v].pid == p
    ensures v == w
  {
    WorkersMove(cfg, s, l, v);
  }

  lemma DoomedStays(cfg: Config, s: State, l: Label, w: nat, p: nat)
    requires Named(s) && Doomed(s, w, p) && LeftAlone(l, w, p)
    ensures Doomed(Step(cfg, s, l), w, p) || IsStranded(Step(cfg, s, l), p)
    ensures Step(cfg, s, l).db.payments[p] == s.db.payments[p]
  {
    var s' := Step(cfg, s, l);
    DoomedRowStays(cfg, s, l, w, p);
    DoomedJobMoves(cfg, s, l, w, p);
    DoomedCallMoves(cfg, s, l, w, p);
    DoomedStaysAlone(cfg, s, l, w, p);
    forall v | Live(s', v) && s'.workers[v].pid == p ensures v == w { OnlyDoomedCallIsLive(cfg, s, l, w, p, v); }
  }

  /** Through any run that leaves it alone the payment stays Pending, and once its call is over it is stranded. */
  lemma {:induction false} DoomedForever(cfg: Config, s: State, run: seq<Label>, w: nat, p: nat)
    requires Named(s) && Doomed(s, w, p)
    requires forall i :: 0 <= i < |run| ==> LeftAlone(run[i], w, p)
    ensures Doomed(Run(cfg, s, run), w, p) || IsStranded(Run(cfg, s, run), p)
    ensures Run(cfg, s, run).db.payments[p] == s.db.payments[p]
  {
    if |run| > 0 {
      var before, l := run[..|run| - 1], run[|run| - 1];
      DoomedForever(cfg, s, before, w, p);
      RunKeepsNamed(cfg, s, before);
      if Doomed(Run(cfg, s, before), w, p) {
        DoomedStays(cfg, Run(cfg, s, before), l, w, p);
      } else {
        StrandedStays(cfg, Run(cfg, s, before), l, p);
      }
    }
  }

  /** A released payment that only sweep `k` is about to hand back, while live call `w` on it is past its claim. */
  ghost predicate SlowlyCalled(s: State, k: nat, w: nat, p: nat) {
    && p in s.db.payments && s.db.payments[p].status == Pending
    && Clears(s, k, p)
    && (forall j :: Clears(s, j, p) ==> j == k) && (forall j :: !Requeues(s, j, p))
    && (forall v :: !Fails(s, v, p))
    && w in s.workers && s.workers[w].pid == p && (Charging(s.workers[w]) || s.workers[w].phase.Returning?)
  }

  lemma SweepDooms(cfg: Config, s: State, k: nat, w: nat, p: nat)
    requires Locked(s) && Fresh(s, p) && SlowlyCalled(s, k, w, p)
    ensures Doomed(Run(cfg, s, [Reconcile(k, Clear), Reconcile(k, Requeue)]), w, p)
    ensures Run(cfg, s, [Reconcile(k, Clear), Reconcile(k, Requeue)]).db == s.db
    ensures Run(cfg, s, [Reconcile(k, Clear), Reconcile(k, Requeue)]).workers == s.workers
  {
    assert Live(s, w);
    RunOfTwo(cfg, s, Reconcile(k, Clear), Reconcile(k, Requeue));
    var s' := Run(cfg, s, [Reconcile(k, Clear), Reconcile(k, Requeue)]);
    ClearedAndRequeued(cfg, s, k, p);
    forall v | Live(s', v) && s'.workers[v].pid == p ensures v == w { assert Live(s, v) && Holds(s, v, p); }
    forall c ensures !Queues(s', c, p) { assert Queues(s, c, p) ==> Untried(s, p); }
    forall j ensures !Clears(s', j, p) && !Requeues(s', j, p) {
      assert !Requeues(s, j, p) && (Clears(s, j, p) ==> j == k);
    }
    forall v ensures !Fails(s', v, p) { assert !Fails(s, v, p); }
  }

  /** The remove fails on the active job, and the enqueue is deduplicated away. */
  lemma ClearedAndRequeued(cfg: Config, s: State, k: nat, p: nat)
    requires Clears(s, k, p) && p in s.jobs && s.jobs[p].state.Active?
    ensures Step(cfg, Step(cfg, s, Reconcile(k, Clear)), Reconcile(k, Requeue))
            == s.(sweeps := s.sweeps[k := s.sweeps[k].(handoff := Idle)])
  {
  }

  /**
   * After any careful run: the answer of a call slower than the sweep is dropped, whatever it is, and whatever
   * else goes on the payment stays Pending; once the call is over nothing refers to the payment any more.
   */
  lemma SlowCallStrands(cfg: Config, r: Regime, run: seq<Label>, k: nat, w: nat, p: nat, more: seq<Label>)
    requires Follows(cfg, r, run) && Careful(r) && SlowlyCalled(After(cfg, run), k, w, p)
    requires forall i :: 0 <= i < |more| ==> LeftAlone(more[i], w, p)
    ensures var s' := After(cfg, run + [Reconcile(k, Clear), Reconcile(k, Requeue)] + more);
            && p in s'.db.payments && s'.db.payments[p] == After(cfg, run).db.payments[p]
            && (!Live(s', w) ==> IsStranded(s', p))
  {
    var s := After(cfg, run);
    CarefulRunsAreSafe(cfg, r, run, p);
    JobsAreForTheirPayments(cfg, run);
    SweepDooms(cfg, s, k, w, p);
    RunKeepsNamed(cfg, s, [Reconcile(k, Clear), Reconcile(k, Requeue)]);
    RunAppend(cfg, INITIAL, run, [Reconcile(k, Clear), Reconcile(k, Requeue)]);
    RunAppend(cfg, INITIAL, run + [Reconcile(k, Clear), Reconcile(k, Requeue)], more);
    DoomedForever(cfg, Run(cfg, s, [Reconcile(k, Clear), Reconcile(k, Requeue)]), more, w, p);
  }

  // ---- A call that bails out and takes the job with it --------------------------------------------------

  const TIMEOUT := Refused("timeout", true)

  /** Call `v` is charging payment `p` without holding its job, which is waiting. */
  ghost predicate ChargedUnheld(s: State, v: nat, p: nat) {
    && p in s.db.payments && s.db.payments[p].status == Processing
    && s.db.payments[p].attempts < s.db.payments[p].maxAttempts
    && IsHolding(s, v) && s.workers[v].pid == p
    && p in s.jobs && s.jobs[p].state.Waiting? && s.jobs[p].paymentId == p
    && (forall u :: Live(s, u) && s.workers[u].pid == p ==> u == v)
    && (forall c :: !Queues(s, c, p))
    && (forall k :: !Clears(s, k, p) && !Requeues(s, k, p))
    && (forall u :: !Fails(s, u, p))
  }

  function BailOut(w: nat, p: nat): seq<Label> {
    [Take(w, p), Call(w, Claim)] + [Call(w, Finish)]
  }

  /** Call `w` holds the job of payment `p`. */
  function HeldBy(s: State, w: nat, p: nat, phase: Phase): State
    requires p in s.jobs
  {
    SetJob(s, p, Active(w)).(workers := s.workers[w := Worker(p, true, s.clock, phase)])
  }

  lemma ProcessingBailsOut(s: State, w: nat, p: nat)
    requires p in s.jobs && p in s.db.payments && s.db.payments[p].status == Processing
    ensures CallStep(HeldBy(s, w, p, Ready), w, Claim) == HeldBy(s, w, p, Returning)
  {
    assert s.db.payments[p := s.db.payments[p]] == s.db.payments;
  }

  lemma ReturnCompletes(s: State, w: nat, p: nat)
    requires p in s.jobs
    ensures CallStep(HeldBy(s, w, p, Returning), w, Finish)
            == s.(jobs := s.jobs - {p}, workers := s.workers[w := Worker(p, true, s.clock, Ended)])
  {
    assert HeldBy(s, w, p, Returning).jobs - {p} == s.jobs - {p};
  }

  lemma BailOutTakesTheJob(cfg: Config, s: State, v: nat, w: nat, p: nat)
    requires ChargedUnheld(s, v, p) && w !in s.workers
    ensures Run(cfg, s, BailOut(w, p))
            == s.(jobs := s.jobs - {p}, workers := s.workers[w := Worker(p, true, s.clock, Ended)])
  {
    RunOfThree(cfg, s, Take(w, p), Call(w, Claim), Call(w, Finish));
    assert BailOut(w, p) == [Take(w, p), Call(w, Claim), Call(w, Finish)];
    ProcessingBailsOut(s, w, p);
    ReturnCompletes(s, w, p);
  }

  function TimingOut(v: nat): seq<Label> {
    [Call(v, CallGateway(false)), Call(v, Answer(TIMEOUT))] + [Call(v, Settle), Call(v, Finish)]
  }

  /** The call without a job times out, gives its row back, and ends. */
  lemma TimeOutReleases(cfg: Config, s: State, v: nat)
    requires IsHolding(s, v) && s.workers[v].pid !in s.jobs
    ensures Run(cfg, s, TimingOut(v))
            == s.(db := OnRow(s.db, s.workers[v].pid, Settled(TIMEOUT)),
                  workers := s.workers[v := s.workers[v].(phase := Ended)])
  {
    RunAppend(cfg, s, [Call(v, CallGateway(false)), Call(v, Answer(TIMEOUT))], [Call(v, Settle), Call(v, Finish)]);
    var s1 := s.(workers := s.workers[v := s.workers[v].(phase := Answered(TIMEOUT))]);
    TimesOut(cfg, s, v);
    GivesBack(cfg, s1, v);
  }

  lemma TimesOut(cfg: Config, s: State, v: nat)
    requires IsHolding(s, v)
    ensures Run(cfg, s, [Call(v, CallGateway(false)), Call(v, Answer(TIMEOUT))])
            == s.(workers := s.workers[v := s.workers[v].(phase := Answered(TIMEOUT))])
  {
    RunOfTwo(cfg, s, Call(v, CallGateway(false)), Call(v, Answer(TIMEOUT)));
  }

  lemma GivesBack(cfg: Config, s: State, v: nat)
    requires OnWorker(s, v, Answered(TIMEOUT)) && s.workers[v].pid !in s.jobs
    ensures Run(cfg, s, [Call(v, Settle), Call(v, Finish)])
            == s.(db := OnRow(s.db, s.workers[v].pid, Settled(TIMEOUT)),
                  workers := s.workers[v := s.workers[v].(phase := Ended)])
  {
    RunOfTwo(cfg, s, Call(v, Settle), Call(v, Finish));
  }

  /** From any such state: a call for the waiting job finds the row Processing and completes the job. */
  lemma BailOutStrands(cfg: Config, s: State, v: nat, w: nat, p: nat)
    requires ChargedUnheld(s, v, p) && w !in s.workers
    ensures IsStranded(Run(cfg, s, BailOut(w, p) + TimingOut(v)), p)
  {
    RunAppend(cfg, s, BailOut(w, p), TimingOut(v));
    BailOutTakesTheJob(cfg, s, v, w, p);
    var s1 := Run(cfg, s, BailOut(w, p));
    TimeOutReleases(cfg, s1, v);
    var s' := Run(cfg, s1, TimingOut(v));
    forall u | Live(s', u) ensures s'.workers[u].pid != p { assert Live(s, u); }
    forall c ensures !Queues(s', c, p) { assert !Queues(s, c, p); }
    forall k ensures !Clears(s', k, p) && !Requeues(s', k, p) { assert !Clears(s, k, p) && !Requeues(s, k, p); }
    forall u ensures !Fails(s', u, p) { assert !Fails(s, u, p); }
  }
}
