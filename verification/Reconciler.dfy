/** The crash-recovery sweep, run with nothing else committing meanwhile. */
module Reconciler {
  import opened StateMachine
  import opened Rows
  import opened RowHistory
  import opened Tables
  import opened Queue
  import opened Services

  // ---- What a sweep over a list of rows does -----------------------------------------------------------

  /** Where a sweep over the rows `listed` leaves the table, whatever has become of them since they were listed. */
  function SweptPayments(payments: map<nat, Payment>, listed: set<nat>): map<nat, Payment> {
    map id | id in payments :: SweptRow(payments, listed, id)
  }

  function SweptRow(payments: map<nat, Payment>, listed: set<nat>, id: nat): Payment
    requires id in payments
  {
    if id in listed then Advance(payments[id], Recovered) else payments[id]
  }

  /** The rows a sweep hands back to the queue. */
  predicate HandedBack(payments: map<nat, Payment>, listed: set<nat>, id: nat) {
    id in payments && id in listed && RecoverReplyOf(Some(payments[id])).Released?
  }

  /** Where a sweep leaves the job of a payment: a fresh one if it was handed back, unless the old one is active. */
  function SweptJob(payments: map<nat, Payment>, listed: set<nat>, id: nat, job: Option<Job>, attempts: pos)
    : Option<Job>
  {
    if HandedBack(payments, listed, id) && !(job.Some? && job.value.state.Active?)
    then Some(FreshJob(id, attempts))
    else job
  }

  /** What an undisturbed sweep does to the table and to the queue. */
  ghost predicate Swept(
    before: map<nat, Payment>, jobsBefore: map<string, Job>, listed: set<nat>, attempts: pos,
    payments: map<nat, Payment>, jobs: map<string, Job>)
  {
    && payments == SweptPayments(before, listed)
    && forall id: nat ::
         JobOf(jobs, JobIdFor(id)) == SweptJob(before, listed, id, JobOf(jobsBefore, JobIdFor(id)), attempts)
  }

  // ---- One row at a time -------------------------------------------------------------------------------

  /** The body of the sweep's loop: recover one row and, if that released it, make room for a runnable job. */
  method RecoverOne(service: PaymentService, queue: PaymentQueue, id: nat) returns (r: RecoverReply)
    requires service.db.Valid() && queue.Valid()
    modifies service.db, queue
    ensures service.db.Valid() && queue.Valid() && service.db.View() == OnRow(old(service.db.View()), id, Recovered)
    ensures r == RecoverReplyOf(RowOf(old(service.db.View()), id))
    ensures queue.jobs ==
            if r.Released?
            then AddJob(RemoveJob(old(queue.jobs), JobIdFor(id)), JobIdFor(id), FreshJob(id, queue.attempts))
            else old(queue.jobs)
    ensures var jobId := "payment-" + Decimal(id);
            queue.jobs
            == if r.Released? && !(jobId in old(queue.jobs) && old(queue.jobs)[jobId].state.Active?)
               then old(queue.jobs)[jobId := Job(id, Waiting, 0, queue.attempts)]
               else old(queue.jobs)
  {
    r := service.RecoverStalePayment(id);
    if r.Released? {
      queue.Remove(JobIdFor(id));
      queue.EnqueuePayment(id);
    }
  }

  lemma OneMoreSwept(
    before: map<nat, Payment>, jobsBefore: map<string, Job>, attempts: pos, done: set<nat>,
    payments: map<nat, Payment>, jobs: map<string, Job>, id: nat, payments': map<nat, Payment>, jobs': map<string, Job>)
    requires Swept(before, jobsBefore, done, attempts, payments, jobs) && id !in done
    requires payments' == if id in payments then payments[id := Advance(payments[id], Recovered)] else payments
    requires jobs' == if id in payments && RecoverReplyOf(Some(payments[id])).Released?
                      then AddJob(RemoveJob(jobs, JobIdFor(id)), JobIdFor(id), FreshJob(id, attempts))
                      else jobs
    ensures Swept(before, jobsBefore, done + {id}, attempts, payments', jobs')
  {
    forall other: nat
      ensures JobOf(jobs', JobIdFor(other))
              == if other == id
                 then SweptJob(before, done + {id}, id, JobOf(jobs, JobIdFor(id)), attempts)
                 else JobOf(jobs, JobIdFor(other))
    {
      JobIdsAreInjective(id, other);
    }
  }

  // ---- The loop ----------------------------------------------------------------------------------------

  function Elements(ids: seq<nat>): set<nat> {
    set id | id in ids
  }

  lemma {:induction false} DistinctCount(ids: seq<nat>)
    requires forall i, j :: 0 <= i < j < |ids| ==> ids[i] != ids[j]
    ensures |ids| == |Elements(ids)|
  {
    if |ids| > 0 {
      var front, last := ids[..|ids| - 1], ids[|ids| - 1];
      assert ids == front + [last];
      DistinctCount(front);
      assert Elements(ids) == Elements(front) + {last};
    }
  }

  lemma OneMoreListed(ids: seq<nat>, i: nat)
    requires forall i, j :: 0 <= i < j < |ids| ==> ids[i] != ids[j]
    requires i < |ids|
    ensures ids[i] !in Elements(ids[..i]) && Elements(ids[..i + 1]) == Elements(ids[..i]) + {ids[i]}
  {
    assert ids[..i + 1] == ids[..i] + [ids[i]];
  }

  /** The sweep's loop over rows it has listed, each once; rows settled, released or gone since are skipped. */
  method RecoverEach(service: PaymentService, queue: PaymentQueue, stale: seq<nat>)
    requires service.db.Valid() && queue.Valid()
    requires forall i, j :: 0 <= i < j < |stale| ==> stale[i] != stale[j]
    modifies service.db, queue
    ensures service.db.Valid() && queue.Valid() && service.db.events == old(service.db.events)
    ensures Swept(old(service.db.payments), old(queue.jobs), Elements(stale), queue.attempts,
                  service.db.payments, queue.jobs)
  {
    var db := service.db;
    ghost var before, jobsBefore := db.payments, queue.jobs;
    for i := 0 to |stale|
      invariant db.Valid() && queue.Valid() && db.events == old(db.events)
      invariant Swept(before, jobsBefore, Elements(stale[..i]), queue.attempts, db.payments, queue.jobs)
    {
      ghost var payments, jobs := db.payments, queue.jobs;
      var _ := RecoverOne(service, queue, stale[i]);
      OneMoreListed(stale, i);
      OneMoreSwept(before, jobsBefore, queue.attempts, Elements(stale[..i]), payments, jobs, stale[i],
                   db.payments, queue.jobs);
    }
    assert stale[..|stale|] == stale;
  }

  /** reconcileStale: select once, then recover, clear and re-enqueue row by row. */
  method ReconcileStale(service: PaymentService, queue: PaymentQueue, now: int, staleMs: int) returns (swept: nat)
    requires service.db.Valid() && queue.Valid()
    modifies service.db, queue
    ensures service.db.Valid() && queue.Valid() && service.db.events == old(service.db.events)
    ensures var listed := StaleIds(old(service.db.payments), now - staleMs);
            && Swept(old(service.db.payments), old(queue.jobs), listed, queue.attempts, service.db.payments, queue.jobs)
            && swept == |listed|
  {
    var stale := service.db.FindStale(now, staleMs);
    assert Elements(stale) == StaleIds(service.db.payments, now - staleMs);
    DistinctCount(stale);
    RecoverEach(service, queue, stale);
    return |stale|;
  }

  // ---- What a sweep achieves -----------------------------------------------------------------------------

  /**
   * After an undisturbed sweep no row is stale at its cutoff, and sweeping again changes neither the table nor
   * the job of any payment.
   */
  lemma SweepClearsAndIsIdempotent(
    before: map<nat, Payment>, jobsBefore: map<string, Job>, cutoff: int, attempts: pos,
    payments: map<nat, Payment>, jobs: map<string, Job>)
    requires Swept(before, jobsBefore, StaleIds(before, cutoff), attempts, payments, jobs)
    ensures StaleIds(payments, cutoff) == {}
    ensures Swept(payments, jobs, StaleIds(payments, cutoff), attempts, payments, jobs)
  {
    assert SweptPayments(payments, {}) == payments;
  }

  /** A sweep settles or releases exactly the stale rows, by their budget, and leaves every other row alone. */
  lemma SweepDecidesByBudget(payments: map<nat, Payment>, cutoff: int, id: nat)
    requires id in payments && Sound(payments[id])
    ensures var listed := StaleIds(payments, cutoff);
            var p, q := payments[id], SweptPayments(payments, listed)[id];
            && (Stale(p, cutoff) ==> (q.status == Pending <==> p.attempts < p.maxAttempts))
            && (Stale(p, cutoff) ==> (q.status == Failed <==> p.attempts == p.maxAttempts))
            && (Stale(p, cutoff) ==> Sound(q))
            && (Stale(p, cutoff) ==>
                  q == p.(status := q.status, startedAt := None, lastError := q.lastError) && q.lastError.Some?)
            && (!Stale(p, cutoff) ==> q == p)
            && (HandedBack(payments, listed, id) <==> p.status == Processing && q.status == Pending)
  {
  }

  /** A row that is no longer Processing when its turn comes is left alone, and its job with it. */
  lemma SettledRowsAreSkipped(payments: map<nat, Payment>, listed: set<nat>, id: nat, job: Option<Job>, attempts: pos)
    requires id in payments && payments[id].status != Processing
    ensures SweptPayments(payments, listed)[id] == payments[id] && SweptJob(payments, listed, id, job, attempts) == job
  {
  }

  /** No stuck row stays invisible: every row in Processing becomes stale once its claim is old enough. */
  lemma {:induction false} StuckRowsBecomeStale(es: seq<RowEvent>, now: int, staleMs: nat)
    requires StatusOf(After(None, es), Processing)
    ensures After(None, es).value.startedAt.Some?
    ensures Stale(After(None, es).value, now - staleMs) <==> After(None, es).value.startedAt.value + staleMs < now
  {
    RowsAreSound(es);
  }
}
