/** One request or one process() call as a run: with nothing in between, it does what module Services says. */
module SoloRuns {
  import opened StateMachine
  import opened Rows
  import H = RowHistory
  import opened Tables
  import opened Queue
  import opened Protocol
  import Services

  // ---- process() -----------------------------------------------------------------------------------

  function CallLabels(w: nat, charged: bool, end: Services.GatewayEnd): seq<Label> {
    [Call(w, Claim), Call(w, CallGateway(charged))] + EndLabels(w, end)
  }

  /** The provider confirms only a charge that it has made. */
  predicate MayEnd(charged: bool, end: Services.GatewayEnd) {
    end.Answers? && end.answer.Charged? ==> charged
  }

  function EndLabels(w: nat, end: Services.GatewayEnd): seq<Label> {
    match end
    case Answers(answer) => [Call(w, Answer(answer)), Call(w, Settle)]
    case Breaks(error) => [Call(w, Break(error))]
  }

  /** How a call is on its way out, given what process() gives its caller. */
  function PhaseOf(outcome: Services.ProcessOutcome): Phase {
    match outcome
    case Throws(reason) => Throwing(reason)
    case Rethrows(error) => Throwing(error)
    case _ => Returning
  }

  function WithCall(s: State, w: nat, db: Db, x: Worker): State {
    s.(db := db, workers := s.workers[w := x])
  }

  function BillOf(row: Option<Payment>): Bill {
    if row.Some? then Bill(row.value.amount, row.value.currency) else Bill(0, [])
  }

  /** The call once it has tried to claim, and gone on to `phase` if it could. */
  function AfterClaim(s: State, w: nat, phase: Phase): State
    requires w in s.workers
  {
    var x := s.workers[w];
    if H.StatusOf(RowOf(s.db, x.pid), Pending)
    then WithCall(s, w, OnRow(s.db, x.pid, Claimed(s.clock)), x.(phase := phase, stamp := s.clock))
    else WithCall(s, w, s.db, x.(phase := Returning))
  }

  lemma ClaimStep(s: State, w: nat)
    requires OnWorker(s, w, Ready)
    ensures CallStep(s, w, Claim) == AfterClaim(s, w, Holding(BillOf(RowOf(s.db, s.workers[w].pid))))
  {
    var p := s.workers[w].pid;
    if p in s.db.payments { assert s.db.payments[p := s.db.payments[p]] == s.db.payments; }
  }

  lemma GatewayStep(s: State, w: nat, charged: bool, db: Db, x: Worker)
    ensures CallStep(WithCall(s, w, db, x), w, CallGateway(charged))
            == WithCall(s, w, db, if x.phase.Holding? then x.(phase := Calling(charged)) else x)
  {
  }

  lemma FirstHalf(cfg: Config, s: State, w: nat, charged: bool)
    requires OnWorker(s, w, Ready)
    ensures Run(cfg, s, [Call(w, Claim), Call(w, CallGateway(charged))]) == AfterClaim(s, w, Calling(charged))
  {
    var x := s.workers[w];
    RunOfTwo(cfg, s, Call(w, Claim), Call(w, CallGateway(charged)));
    ClaimStep(s, w);
    GatewayStep(s, w, charged, OnRow(s.db, x.pid, Claimed(s.clock)),
                x.(phase := Holding(BillOf(RowOf(s.db, x.pid))), stamp := s.clock));
    GatewayStep(s, w, charged, s.db, x.(phase := Returning));
  }

  function SettledPhase(reply: SettleReply): Phase {
    if reply.Retry? then Throwing(reply.reason) else Returning
  }

  lemma CallIsSettled(cfg: Config, s: State, w: nat, db: Db, x: Worker, answer: Answer)
    requires Hears(x, answer)
    ensures var reply := SettleReplyOf(RowOf(db, x.pid), answer);
            Run(cfg, WithCall(s, w, db, x), [Call(w, Answer(answer)), Call(w, Settle)])
            == WithCall(s, w, OnRow(db, x.pid, Settled(answer)), x.(phase := SettledPhase(reply)))
  {
    RunOfTwo(cfg, WithCall(s, w, db, x), Call(w, Answer(answer)), Call(w, Settle));
    AnswerStep(s, w, db, x, answer);
    SettleStep(s, w, db, x.(phase := Answered(answer)));
  }

  lemma AnswerStep(s: State, w: nat, db: Db, x: Worker, answer: Answer)
    requires Hears(x, answer)
    ensures CallStep(WithCall(s, w, db, x), w, Answer(answer)) == WithCall(s, w, db, x.(phase := Answered(answer)))
  {
  }

  lemma SettleStep(s: State, w: nat, db: Db, x: Worker)
    requires x.phase.Answered?
    ensures var reply := SettleReplyOf(RowOf(db, x.pid), x.phase.answer);
            CallStep(WithCall(s, w, db, x), w, Settle)
            == WithCall(s, w, OnRow(db, x.pid, Settled(x.phase.answer)), x.(phase := SettledPhase(reply)))
  {
  }

  lemma CallIsBroken(cfg: Config, s: State, w: nat, db: Db, x: Worker, error: string)
    requires x.phase.Calling?
    ensures Run(cfg, WithCall(s, w, db, x), [Call(w, Break(error))]) == WithCall(s, w, db, x.(phase := Throwing(error)))
  {
    RunOfOne(cfg, WithCall(s, w, db, x), Call(w, Break(error)));
  }

  /** A call that has bailed out is no longer moved by a gateway. */
  lemma BailedOutCallStays(cfg: Config, s: State, w: nat, end: Services.GatewayEnd)
    requires OnWorker(s, w, Returning)
    ensures Run(cfg, s, EndLabels(w, end)) == s
  {
    assert s.workers[w := s.workers[w]] == s.workers;
    match end
    case Answers(answer) => RunOfTwo(cfg, s, Call(w, Answer(answer)), Call(w, Settle));
    case Breaks(error) => RunOfOne(cfg, s, Call(w, Break(error)));
  }

  /** Claim, gateway call and settle, or another error, in a row: tables and outcome are those of process(). */
  lemma UndisturbedCall(cfg: Config, s: State, w: nat, charged: bool, end: Services.GatewayEnd)
    requires OnWorker(s, w, Ready) && MayEnd(charged, end)
    ensures var x := s.workers[w];
            Run(cfg, s, CallLabels(w, charged, end))
            == WithCall(s, w, Services.ProcessedDb(s.db, x.pid, s.clock, end),
                 x.(stamp := if H.StatusOf(RowOf(s.db, x.pid), Pending) then s.clock else x.stamp,
                    phase := PhaseOf(Services.ProcessOutcomeOf(s.db, x.pid, s.clock, end))))
  {
    RunAppend(cfg, s, [Call(w, Claim), Call(w, CallGateway(charged))], EndLabels(w, end));
    FirstHalf(cfg, s, w, charged);
    var x := s.workers[w];
    if H.StatusOf(RowOf(s.db, x.pid), Pending) {
      var x' := x.(phase := Calling(charged), stamp := s.clock);
      ClaimedCallEnds(cfg, s, w, OnRow(s.db, x.pid, Claimed(s.clock)), x', end);
    } else {
      BailedOutCallStays(cfg, WithCall(s, w, s.db, x.(phase := Returning)), w, end);
    }
  }

  lemma ClaimedCallEnds(cfg: Config, s: State, w: nat, db: Db, x: Worker, end: Services.GatewayEnd)
    requires x.phase.Calling? && MayEnd(x.phase.charged, end)
    ensures Run(cfg, WithCall(s, w, db, x), EndLabels(w, end))
            == match end
               case Answers(answer) =>
                 var reply := SettleReplyOf(RowOf(db, x.pid), answer);
                 WithCall(s, w, OnRow(db, x.pid, Settled(answer)), x.(phase := SettledPhase(reply)))
               case Breaks(error) => WithCall(s, w, db, x.(phase := Throwing(error)))
  {
    match end
    case Answers(answer) => CallIsSettled(cfg, s, w, db, x, answer);
    case Breaks(error) => CallIsBroken(cfg, s, w, db, x, error);
  }

  // ---- The failed handler --------------------------------------------------------------------------

  /** The job of call `w` once the call has thrown. */
  function FailedJob(job: Job): Job {
    job.(state := if job.attemptsMade + 1 < job.attempts then Delayed else Dead, attemptsMade := job.attemptsMade + 1)
  }

  function Thrown(s: State, w: nat, error: string): State
    requires w in s.workers && s.workers[w].pid in s.jobs
  {
    var x := s.workers[w];
    var job := FailedJob(s.jobs[x.pid]);
    s.(jobs := s.jobs[x.pid := job],
       workers := s.workers[w := x.(phase := Ended)],
       failures := if job.state.Dead? then s.failures[w := Failure(x.pid, error, true)] else s.failures)
  }

  lemma ThrowStep(s: State, w: nat, error: string)
    requires OnWorker(s, w, Throwing(error)) && Holds(s, w, s.workers[w].pid)
    ensures CallStep(s, w, Finish) == Thrown(s, w, error)
  {
  }

  lemma HandleStep(cfg: Config, s: State, w: nat)
    ensures Step(cfg, s, HandleFailed(w)).jobs == s.jobs
    ensures FailureDue(s, w) ==>
              FailedWith(s.db, s.failures[w].pid, "worker: " + s.failures[w].error, Step(cfg, s, HandleFailed(w)).db)
    ensures !FailureDue(s, w) ==> Step(cfg, s, HandleFailed(w)).db == s.db
  {
  }

  /** A throwing call ends, and its worker sees to the failure: what the failed handler does, attempt by attempt. */
  lemma UndisturbedFailure(cfg: Config, s: State, w: nat, error: string)
    requires OnWorker(s, w, Throwing(error)) && Holds(s, w, s.workers[w].pid) && w !in s.failures
    ensures var p := s.workers[w].pid;
            var job := s.jobs[p];
            var s' := Run(cfg, s, [Call(w, Finish), HandleFailed(w)]);
            && s'.jobs == s.jobs[p := job.(
                 state := if job.attemptsMade + 1 < job.attempts then Delayed else Dead,
                 attemptsMade := job.attemptsMade + 1)]
            && (job.attemptsMade + 1 < job.attempts ==> s'.db == s.db)
            && (job.attempts <= job.attemptsMade + 1 ==> FailedWith(s.db, p, "worker: " + error, s'.db))
  {
    RunOfTwo(cfg, s, Call(w, Finish), HandleFailed(w));
    ThrowStep(s, w, error);
    HandleStep(cfg, Thrown(s, w, error), w);
  }

  /** Payment `p`, unless absent or settled, has failed with this error; nothing else has changed. */
  predicate FailedWith(db: Db, p: nat, error: string, db': Db) {
    if p in db.payments && db.payments[p].status in {Pending, Processing}
    then
      && db'.events == db.events && p in db'.payments
      && db'.payments == db.payments[p := db.payments[p].(status := Failed, lastError := db'.payments[p].lastError)]
      && db'.payments[p].lastError.Some? && db'.payments[p].lastError.value.Text() == error
    else db' == db
  }

  // ---- initiatePayment -----------------------------------------------------------------------------

  function Requesting(c: nat, key: string, amount: int, currency: string, id: nat): seq<Label> {
    [Arrive(c, key, amount, currency), Api(c, Insert(id))]
  }

  /** The request has arrived and tried its INSERT. */
  function Requested(s: State, c: nat, x: Client, db: Db): State {
    s.(db := db, clients := s.clients[c := x])
  }

  lemma InsertStep(cfg: Config, s: State, c: nat, x: Client, id: nat)
    requires c in s.clients && s.clients[c] == x && x.stage.Arrived?
    requires !KeyTaken(s.db.payments, x.key) && id !in s.db.payments
    ensures ApiStep(cfg, s, c, Insert(id))
            == Requested(s, c, x.(stage := MustRead(id)),
                 s.db.(payments := s.db.payments[id := NewPayment(x.key, x.amount, x.currency, cfg.maxAttempts)]))
  {
  }

  lemma Inserted(cfg: Config, s: State, c: nat, key: string, amount: int, currency: string, id: nat)
    requires c !in s.clients && !KeyTaken(s.db.payments, key) && id !in s.db.payments
    ensures Run(cfg, s, Requesting(c, key, amount, currency, id))
            == Requested(s, c, Client(key, amount, currency, MustRead(id)),
                 s.db.(payments := s.db.payments[id := NewPayment(key, amount, currency, cfg.maxAttempts)]))
  {
    var x := Client(key, amount, currency, Arrived);
    RunOfTwo(cfg, s, Arrive(c, key, amount, currency), Api(c, Insert(id)));
    InsertStep(cfg, Requested(s, c, x, s.db), c, x, id);
  }

  lemma QueuedAndAnswered(cfg: Config, s: State, c: nat, x: Client, db: Db, id: nat)
    requires x.stage == MustRead(id) && id in db.payments
    ensures Run(cfg, Requested(s, c, x, db), [Api(c, ReadBack), Api(c, QueueNew)])
            == Requested(s, c, x.(stage := Responded(id, db.payments[id], true)), db).(
                 jobs := AddJob(s.jobs, id, FreshJob(id, cfg.maxAttempts)))
  {
    RunOfTwo(cfg, Requested(s, c, x, db), Api(c, ReadBack), Api(c, QueueNew));
    assert ApiStep(cfg, Requested(s, c, x, db), c, ReadBack)
        == Requested(s, c, x.(stage := MustQueue(id, db.payments[id])), db);
  }

  /** A request with a new key: one new row under the id the table gives out, its job, and created = true. */
  lemma UndisturbedCreation(cfg: Config, s: State, c: nat, key: string, amount: int, currency: string, id: nat)
    requires c !in s.clients && !KeyTaken(s.db.payments, key) && id !in s.db.payments
    ensures var row := NewPayment(key, amount, currency, cfg.maxAttempts);
            Run(cfg, s, Requesting(c, key, amount, currency, id) + [Api(c, ReadBack), Api(c, QueueNew)])
            == Requested(
                 s, c, Client(key, amount, currency, Responded(id, row, true)),
                 s.db.(payments := s.db.payments[id := row])).(
                 jobs := AddJob(s.jobs, id, FreshJob(id, cfg.maxAttempts)))
  {
    var db := s.db.(payments := s.db.payments[id := NewPayment(key, amount, currency, cfg.maxAttempts)]);
    RunAppend(cfg, s, Requesting(c, key, amount, currency, id), [Api(c, ReadBack), Api(c, QueueNew)]);
    Inserted(cfg, s, c, key, amount, currency, id);
    QueuedAndAnswered(cfg, s, c, Client(key, amount, currency, MustRead(id)), db, id);
  }

  /** Where the queue kept by job id mirrors the queue of the protocol, it still does after such a request. */
  lemma CreationMirrors(
    cfg: Config, s: State, c: nat, key: string, amount: int, currency: string, id: nat, stored: map<string, Job>)
    requires c !in s.clients && !KeyTaken(s.db.payments, key) && id !in s.db.payments && Mirrors(stored, s.jobs)
    ensures var s' := Run(cfg, s, Requesting(c, key, amount, currency, id) + [Api(c, ReadBack), Api(c, QueueNew)]);
            Mirrors(AddJob(stored, JobIdFor(id), FreshJob(id, cfg.maxAttempts)), s'.jobs)
  {
    UndisturbedCreation(cfg, s, c, key, amount, currency, id);
    AddAndRemoveMirror(stored, s.jobs, id, FreshJob(id, cfg.maxAttempts));
  }

  /** A request with a known key, whatever id it would have got: the existing payment, and no other change. */
  lemma UndisturbedRepeat(
    cfg: Config, s: State, c: nat, key: string, amount: int, currency: string, wanted: nat, id: nat)
    requires c !in s.clients && id in s.db.payments && s.db.payments[id].key == key
    ensures Run(cfg, s, Requesting(c, key, amount, currency, wanted) + [Api(c, Fetch(id))])
            == Requested(s, c, Client(key, amount, currency, Responded(id, s.db.payments[id], false)), s.db)
  {
    RunAppend(cfg, s, Requesting(c, key, amount, currency, wanted), [Api(c, Fetch(id))]);
    Rejected(cfg, s, c, key, amount, currency, wanted);
    var x := Client(key, amount, currency, MustFetch);
    RunOfOne(cfg, Requested(s, c, x, s.db), Api(c, Fetch(id)));
  }

  lemma Rejected(cfg: Config, s: State, c: nat, key: string, amount: int, currency: string, wanted: nat)
    requires c !in s.clients && KeyTaken(s.db.payments, key)
    ensures Run(cfg, s, Requesting(c, key, amount, currency, wanted))
            == Requested(s, c, Client(key, amount, currency, MustFetch), s.db)
  {
    RunOfTwo(cfg, s, Arrive(c, key, amount, currency), Api(c, Insert(wanted)));
    assert Step(cfg, s, Arrive(c, key, amount, currency))
        == Requested(s, c, Client(key, amount, currency, Arrived), s.db);
  }
}
