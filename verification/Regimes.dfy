/**
 * Assumptions about time, about the queue and about where a process may die. The guarantees of the system
 * depend on which of them a run keeps to; a regime is any choice of them.
 */
module Regimes {
  import opened Rows
  import opened Protocol
  import opened InFlight

  // ---- What a payment can be waiting for -------------------------------------------------------------

  predicate Live(s: State, w: nat) {
    w in s.workers && !s.workers[w].phase.Ended?
  }

  /** A live call that has claimed or bailed out, and is not on its way out with an error, holds the job. */
  predicate HeldPastClaim(s: State, p: nat) {
    && p in s.jobs && s.jobs[p].state.Active?
    && var w := s.jobs[p].state.holder;
       Live(s, w) && !s.workers[w].phase.Ready? && !s.workers[w].phase.Throwing?
  }

  /** The job is held by a live call that is throwing on the job's last attempt. */
  predicate Dying(s: State, p: nat) {
    && p in s.jobs && s.jobs[p].state.Active?
    && Live(s, s.jobs[p].state.holder) && s.workers[s.jobs[p].state.holder].phase.Throwing?
    && s.jobs[p].attempts <= s.jobs[p].attemptsMade + 1
  }

  /** A job through which the payment will be claimed; module Progress shows that it can be. */
  predicate Runnable(s: State, p: nat) {
    p in s.jobs && !s.jobs[p].state.Dead? && !HeldPastClaim(s, p) && !Dying(s, p)
  }

  /** A request has committed the row and will queue it. */
  predicate Queues(s: State, c: nat, p: nat) {
    && c in s.clients
    && (s.clients[c].stage.MustRead? || s.clients[c].stage.MustQueue?) && s.clients[c].stage.id == p
  }

  predicate Clears(s: State, k: nat, p: nat) {
    k in s.sweeps && s.sweeps[k].handoff == MustRemove(p)
  }

  predicate Requeues(s: State, k: nat, p: nat) {
    k in s.sweeps && s.sweeps[k].handoff == MustEnqueue(p)
  }

  /** A `failed` event will settle the row. */
  predicate Fails(s: State, w: nat, p: nat) {
    FailureDue(s, w) && s.failures[w].pid == p
  }

  // ---- The assumptions, step by step -------------------------------------------------------------------

  /** Time does not pass the point `bound` after a claim while that call is alive and unsettled. */
  ghost predicate Punctual(s: State, l: Label, bound: nat) {
    l.Tick? ==> forall w :: w in s.workers && Charging(s.workers[w]) ==> s.clock + l.dt <= s.workers[w].stamp + bound
  }

  /** A sweep starts only when no other is under way. */
  ghost predicate OneAtATime(s: State, l: Label) {
    l.Select? ==> forall k :: k in s.sweeps ==> s.sweeps[k].handoff.Over?
  }

  /** A job is declared stalled only when its holder is dead. */
  ghost predicate StallsAreDead(s: State, l: Label) {
    l.Stall? ==> forall w :: Holds(s, w, l.pid) ==> !Live(s, w)
  }

  /** No call dies or breaks between a confirmed charge and its settle. */
  ghost predicate KeepsAnswer(s: State, l: Label) {
    l.Call? && l.w in s.workers && HoldsConfirmation(s.workers[l.w]) ==> !l.callAct.Crash? && !l.callAct.Break?
  }

  /** No request is cut off between its commit and its enqueue. */
  ghost predicate KeepsRequest(s: State, l: Label) {
    l.Api? && l.apiAct.CutRequest? ==> forall p :: !Queues(s, l.c, p)
  }

  /** No sweep is cut off between a release and its enqueue. */
  ghost predicate KeepsHandoff(s: State, l: Label) {
    l.Reconcile? && l.sweepAct.CutSweep? ==> forall p :: !Clears(s, l.k, p) && !Requeues(s, l.k, p)
  }

  /** No live call that has claimed or bailed out holds the job a sweep tries to remove. */
  ghost predicate ClearsFreely(s: State, l: Label) {
    l.Reconcile? && l.sweepAct.Clear? ==> forall p :: Clears(s, l.k, p) ==> !HeldPastClaim(s, p)
  }

  /** A `failed` event that is due is handled before another call claims its payment. */
  ghost predicate FailuresFirst(s: State, l: Label) {
    l.Call? && l.callAct.Claim? && OnWorker(s, l.w, Ready) ==> forall v :: !Fails(s, v, s.workers[l.w].pid)
  }

  /** A call whose charge the provider has made neither dies nor breaks nor is told otherwise while it waits. */
  ghost predicate HearsCharge(s: State, l: Label) {
    l.Call? && OnWorker(s, l.w, Calling(true)) ==>
      !l.callAct.Crash? && !l.callAct.Break? && !(l.callAct.Answer? && l.callAct.answer.Refused?)
  }

  // ---- Regimes -----------------------------------------------------------------------------------------

  /** `bound` limits the time of a live call from its claim to its settle; a set flag is an assumption made. */
  datatype Regime = Regime(
    bound: Option<nat>,
    oneSweep: bool,
    queueOnly: bool,
    stallsDead: bool,
    answersKept: bool,
    requestsKept: bool,
    handoffsKept: bool,
    clearsFree: bool,
    failuresHandled: bool,
    failuresFirst: bool,
    chargesHeard: bool)

  ghost predicate Permits(r: Regime, s: State, l: Label) {
    && (r.bound.Some? ==> Punctual(s, l, r.bound.value))
    && (r.oneSweep ==> OneAtATime(s, l))
    && (r.queueOnly ==> !l.CallDirectly?)
    && (r.stallsDead ==> StallsAreDead(s, l))
    && (r.answersKept ==> KeepsAnswer(s, l))
    && (r.requestsKept ==> KeepsRequest(s, l))
    && (r.handoffsKept ==> KeepsHandoff(s, l))
    && (r.clearsFree ==> ClearsFreely(s, l))
    && (r.failuresHandled ==> !l.LoseFailed?)
    && (r.failuresFirst ==> FailuresFirst(s, l))
    && (r.chargesHeard ==> HearsCharge(s, l))
  }

  ghost predicate Follows(cfg: Config, r: Regime, run: seq<Label>) {
    |run| > 0 ==>
      && Follows(cfg, r, run[..|run| - 1])
      && Permits(r, After(cfg, run[..|run| - 1]), run[|run| - 1])
  }

  /** The queue alone starts process() calls, and takes no job from a live one. */
  predicate Serial(r: Regime) {
    r.queueOnly && r.stallsDead
  }

  /** Live calls end before their claim looks stale, and a second sweep finds nothing it could release again. */
  predicate Timely(cfg: Config, r: Regime) {
    r.bound.Some? && r.bound.value <= cfg.staleMs && (r.oneSweep || cfg.maxAttempts <= 2)
  }

  /** Nothing that was to queue, free or settle a payment is lost on the way. */
  predicate Careful(r: Regime) {
    Serial(r) && r.requestsKept && r.handoffsKept && r.clearsFree && r.failuresHandled
  }

  // ---- Following a regime ------------------------------------------------------------------------------

  /** Labels that every regime permits in every state. */
  predicate Plain(l: Label) {
    match l
    case Tick(_) => false
    case Select(_) => false
    case CallDirectly(_, _) => false
    case Stall(_) => false
    case LoseFailed(_) => false
    case Api(_, act) => !act.CutRequest?
    case Call(_, act) => !act.Crash? && !act.Break? && !act.Claim? && !(act.Answer? && act.answer.Refused?)
    case Reconcile(_, act) => !act.CutSweep? && !act.Clear?
    case _ => true
  }

  lemma PlainIsPermitted(r: Regime, s: State, l: Label)
    requires Plain(l)
    ensures Permits(r, s, l)
  {
  }

  lemma FollowsOneMore(cfg: Config, r: Regime, run: seq<Label>, l: Label)
    requires Follows(cfg, r, run) && Permits(r, After(cfg, run), l)
    ensures Follows(cfg, r, run + [l])
  {
    assert (run + [l])[..|run + [l]| - 1] == run;
  }

  lemma OneMoreLabel(cfg: Config, r: Regime, run: seq<Label>, l: Label)
    requires Follows(cfg, r, run) && Permits(r, After(cfg, run), l)
    ensures Follows(cfg, r, run + [l])
    ensures After(cfg, run + [l]) == Step(cfg, After(cfg, run), l)
  {
    FollowsOneMore(cfg, r, run, l);
    assert (run + [l])[..|run + [l]| - 1] == run;
  }

  lemma {:induction false} PlainSuffix(cfg: Config, r: Regime, run: seq<Label>, more: seq<Label>)
    requires Follows(cfg, r, run) && forall i :: 0 <= i < |more| ==> Plain(more[i])
    ensures Follows(cfg, r, run + more)
  {
    if |more| == 0 {
      assert run + more == run;
    } else {
      var front, l := more[..|more| - 1], more[|more| - 1];
      PlainSuffix(cfg, r, run, front);
      PlainIsPermitted(r, After(cfg, run + front), l);
      FollowsOneMore(cfg, r, run + front, l);
      assert run + more == run + front + [l];
    }
  }

  /** No `failed` event for the payment is due, if the regime cares. */
  ghost predicate MayClaim(r: Regime, s: State, p: nat) {
    r.failuresFirst ==> forall v :: !Fails(s, v, p)
  }

  lemma ClaimFollows(cfg: Config, r: Regime, before: seq<Label>, w: nat)
    requires Follows(cfg, r, before) && w in After(cfg, before).workers
    requires MayClaim(r, After(cfg, before), After(cfg, before).workers[w].pid)
    ensures Follows(cfg, r, before + [Call(w, Claim)])
  {
    FollowsOneMore(cfg, r, before, Call(w, Claim));
  }

  /** A free call takes a waiting job and claims. */
  lemma TakeAndClaimFollow(cfg: Config, r: Regime, before: seq<Label>, w: nat, p: nat)
    requires Follows(cfg, r, before) && MayClaim(r, After(cfg, before), p)
    requires w !in After(cfg, before).workers
    requires p in After(cfg, before).jobs && After(cfg, before).jobs[p].state.Waiting?
    ensures Follows(cfg, r, before + [Take(w, p), Call(w, Claim)])
  {
    JobsAreForTheirPayments(cfg, before);
    PlainIsPermitted(r, After(cfg, before), Take(w, p));
    OneMoreLabel(cfg, r, before, Take(w, p));
    SameFailures(r, After(cfg, before), After(cfg, before + [Take(w, p)]), p);
    ClaimFollows(cfg, r, before + [Take(w, p)], w);
    assert before + [Take(w, p)] + [Call(w, Claim)] == before + [Take(w, p), Call(w, Claim)];
  }

  lemma SameFailures(r: Regime, s: State, s': State, p: nat)
    requires MayClaim(r, s, p) && s'.failures == s.failures
    ensures MayClaim(r, s', p)
  {
    forall v ensures Fails(s', v, p) ==> Fails(s, v, p) {}
  }
}
