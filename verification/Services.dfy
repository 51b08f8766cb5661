/** The transactions of PaymentService, initiatePayment and handleWebhook, against the tables. */
module Services {
  import opened StateMachine
  import opened Rows
  import opened RowHistory
  import opened Tables
  import opened Storage
  import opened Queue

  const NO_EXTRA := Extra(Keep, Keep, Keep)

  /** How the gateway call ends: with a result or a GatewayError, or with any other error. */
  datatype GatewayEnd = Answers(answer: Answer) | Breaks(error: string)

  /** What process() gives its caller: a bail-out, the settle result, the retriable GatewayError, or the other error. */
  datatype ProcessOutcome =
    | NotClaimable(reply: ClaimReply)
    | Settles(settled: SettleReply)
    | Throws(reason: string)
    | Rethrows(error: string)

  /** The tables after process(), if no other transaction commits between its two. */
  function ProcessedDb(db: Db, id: nat, now: int, end: GatewayEnd): Db {
    if !StatusOf(RowOf(db, id), Pending) then db
    else
      match end
      case Answers(answer) => OnRow(OnRow(db, id, Claimed(now)), id, Settled(answer))
      case Breaks(_) => OnRow(db, id, Claimed(now))
  }

  function ProcessOutcomeOf(db: Db, id: nat, now: int, end: GatewayEnd): ProcessOutcome {
    if !StatusOf(RowOf(db, id), Pending) then NotClaimable(ClaimReplyOf(RowOf(db, id)))
    else
      match end
      case Answers(answer) =>
        var reply := SettleReplyOf(RowOf(OnRow(db, id, Claimed(now)), id), answer);
        if reply.Retry? then Throws(reply.reason) else Settles(reply)
      case Breaks(error) => Rethrows(error)
  }

  class PaymentService {
    const db: Database

    constructor (db: Database)
      ensures this.db == db
    {
      this.db := db;
    }

    /** Phase 1: take a Pending payment. */
    method Claim(id: nat, now: int) returns (r: ClaimReply)
      requires db.Valid()
      modifies db
      ensures db.Valid() && db.View() == OnRow(old(db.View()), id, Claimed(now))
      ensures r == ClaimReplyOf(RowOf(old(db.View()), id))
      ensures r.NotFound? <==> id !in old(db.payments)
      ensures r.NotPending? <==> id in old(db.payments) && old(db.payments)[id].status != Pending
      ensures r.NotPending? ==> r.status == old(db.payments)[id].status
      ensures r.IsClaimed? ==>
                var p := old(db.payments)[id];
                && db.payments == old(db.payments)[id := p.(
                     status := Processing, startedAt := Some(now), attempts := p.attempts + 1)]
                && r.amount == p.amount && r.currency == p.currency
                && r.maxAttempts == p.maxAttempts && r.attempts == db.payments[id].attempts
      ensures !r.IsClaimed? ==> db.payments == old(db.payments)
      ensures db.events == old(db.events)
    {
      var row := db.FindById(id);
      if row.None? {
        return NotFound;
      }
      if row.value.status != Pending {
        return NotPending(row.value.status);
      }
      db.UpdateStatus(id, Processing, NO_EXTRA.(startedAt := Set(Some(now))));
      db.IncrementAttempts(id);
      return IsClaimed(row.value.attempts + 1, row.value.maxAttempts, row.value.amount, row.value.currency);
    }

    /** Phase 3: write the gateway's answer, if the row is still being processed. */
    method Settle(id: nat, answer: Answer) returns (r: SettleReply)
      requires db.Valid()
      modifies db
      ensures db.Valid() && db.View() == OnRow(old(db.View()), id, Settled(answer))
      ensures r == SettleReplyOf(RowOf(old(db.View()), id), answer)
      ensures r.SettleNoop? <==> id !in old(db.payments) || old(db.payments)[id].status != Processing
      ensures r.SettleNoop? ==>
                && db.payments == old(db.payments)
                && r.status == if id in old(db.payments) then Some(old(db.payments)[id].status) else None
      ensures r.Succeeded? <==> !r.SettleNoop? && answer.Charged?
      ensures r.Succeeded? ==>
                db.payments == old(db.payments)[id := old(db.payments)[id].(
                  status := Success, providerRef := Some(answer.ref), lastError := None)]
      ensures r.Retry? <==>
                && !r.SettleNoop? && answer.Refused? && answer.retriable
                && old(db.payments)[id].attempts < old(db.payments)[id].maxAttempts
      ensures r.Retry? ==>
                && r.reason == answer.reason
                && db.payments == old(db.payments)[id := old(db.payments)[id].(
                     status := Pending, lastError := db.payments[id].lastError, startedAt := None)]
                && db.payments[id].lastError.Some?
                && db.payments[id].lastError.value.Text() == answer.reason
      ensures r.Declined? ==>
                && db.payments == old(db.payments)[id := old(db.payments)[id].(
                     status := Failed, lastError := db.payments[id].lastError)]
                && db.payments[id].lastError.Some?
                && db.payments[id].lastError.value.Text()
                   == if answer.retriable then "max attempts exhausted: " + answer.reason else answer.reason
      ensures db.events == old(db.events)
    {
      var row := db.FindById(id);
      if row.None? {
        return SettleNoop(None);
      }
      if row.value.status != Processing {
        return SettleNoop(Some(row.value.status));
      }
      match answer
      case Charged(ref) =>
        if !CanTransition(Processing, Success) {
          assert false;
          return SettleNoop(None);
        }
        db.UpdateStatus(id, Success, NO_EXTRA.(providerRef := Set(Some(ref)), lastError := Set(None)));
        return Succeeded;
      case Refused(reason, retriable) =>
        if retriable && row.value.attempts < row.value.maxAttempts {
          db.UpdateStatus(id, Pending, NO_EXTRA.(lastError := Set(Some(Verbatim(reason))), startedAt := Set(None)));
          return Retry(reason);
        }
        var lastError := if retriable then MaxAttempts(reason) else Verbatim(reason);
        db.UpdateStatus(id, Failed, NO_EXTRA.(lastError := Set(Some(lastError))));
        return Declined;
    }

    /**
     * process() when no other transaction commits between its two: how the gateway call ends is an input.
     * The interleaved case is the subject of module Protocol.
     */
    method Process(id: nat, now: int, end: GatewayEnd) returns (outcome: ProcessOutcome)
      requires db.Valid()
      modifies db
      ensures db.Valid() && db.View() == ProcessedDb(old(db.View()), id, now, end)
      ensures outcome == ProcessOutcomeOf(old(db.View()), id, now, end)
      ensures id !in old(db.payments) ==> outcome == NotClaimable(NotFound) && db.View() == old(db.View())
      ensures id in old(db.payments) && old(db.payments)[id].status != Pending ==>
                outcome == NotClaimable(NotPending(old(db.payments)[id].status)) && db.View() == old(db.View())
      ensures id in old(db.payments) && old(db.payments)[id].status == Pending ==>
                var p := old(db.payments)[id].(
                  status := Processing, startedAt := Some(now), attempts := old(db.payments)[id].attempts + 1);
                && db.payments == old(db.payments)[id := db.payments[id]] && db.events == old(db.events)
                && match end
                   case Breaks(error) => outcome == Rethrows(error) && db.payments[id] == p
                   case Answers(Charged(ref)) =>
                     && outcome == Settles(Succeeded)
                     && db.payments[id] == p.(status := Success, providerRef := Some(ref), lastError := None)
                   case Answers(Refused(reason, retriable)) =>
                     if retriable && p.attempts < p.maxAttempts
                     then
                       && outcome == Throws(reason)
                       && db.payments[id] == p.(
                            status := Pending, startedAt := None, lastError := db.payments[id].lastError)
                       && db.payments[id].lastError.Some? && db.payments[id].lastError.value.Text() == reason
                     else
                       && outcome == Settles(Declined)
                       && db.payments[id] == p.(status := Failed, lastError := db.payments[id].lastError)
                       && db.payments[id].lastError.Some?
                       && db.payments[id].lastError.value.Text()
                          == if retriable then "max attempts exhausted: " + reason else reason
    {
      var claim := Claim(id, now);
      if !claim.IsClaimed? {
        assert db.payments == old(db.payments);
        return NotClaimable(claim);
      }
      if end.Breaks? {
        return Rethrows(end.error);
      }
      var settled := Settle(id, end.answer);
      if settled.Retry? {
        return Throws(settled.reason);
      }
      return Settles(settled);
    }

    /** Terminal failure of a row whose job died of something unexpected. */
    method FailPayment(id: nat, reason: Message) returns (r: FailReply)
      requires db.Valid()
      modifies db
      ensures db.Valid() && db.View() == OnRow(old(db.View()), id, GivenUp(reason))
      ensures r == FailReplyOf(RowOf(old(db.View()), id))
      ensures r.FailNotFound? <==> id !in old(db.payments)
      ensures r.IllegalFail? <==> id in old(db.payments) && old(db.payments)[id].status in {Success, Failed}
      ensures r.IllegalFail? ==> r.status == old(db.payments)[id].status
      ensures r.GaveUp? ==>
                db.payments
                == old(db.payments)[id := old(db.payments)[id].(status := Failed, lastError := Some(reason))]
      ensures !r.GaveUp? ==> db.payments == old(db.payments)
      ensures db.events == old(db.events)
    {
      var row := db.FindById(id);
      if row.None? {
        return FailNotFound;
      }
      if !CanTransition(row.value.status, Failed) {
        assert db.payments[id := db.payments[id]] == db.payments;
        return IllegalFail(row.value.status);
      }
      db.UpdateStatus(id, Failed, NO_EXTRA.(lastError := Set(Some(reason))));
      return GaveUp;
    }

    /** Release, or fail, a row stuck in Processing. Status is checked again under the lock; age is not. */
    method RecoverStalePayment(id: nat) returns (r: RecoverReply)
      requires db.Valid()
      modifies db
      ensures db.Valid() && db.View() == OnRow(old(db.View()), id, Recovered)
      ensures r == RecoverReplyOf(RowOf(old(db.View()), id))
      ensures r.Skip? <==> id !in old(db.payments) || old(db.payments)[id].status != Processing
      ensures r.Skip? ==>
                && db.payments == old(db.payments)
                && r.status == if id in old(db.payments) then Some(old(db.payments)[id].status) else None
      ensures r.Released? <==> !r.Skip? && old(db.payments)[id].attempts < old(db.payments)[id].maxAttempts
      ensures !r.Skip? ==>
                && db.payments == old(db.payments)[id := old(db.payments)[id].(
                     status := if r.Released? then Pending else Failed,
                     lastError := db.payments[id].lastError,
                     startedAt := None)]
                && db.payments[id].lastError.Some?
                && db.payments[id].lastError.value.Text()
                   == if r.Released? then "recovered from stale processing"
                      else "recovered: stuck in processing, attempts exhausted"
      ensures db.events == old(db.events)
    {
      var row := db.FindById(id);
      if row.None? || row.value.status != Processing {
        return Skip(if row.None? then None else Some(row.value.status));
      }
      if row.value.attempts >= row.value.maxAttempts {
        db.UpdateStatus(id, Failed, NO_EXTRA.(lastError := Set(Some(StuckExhausted)), startedAt := Set(None)));
        return Exhausted;
      }
      db.UpdateStatus(id, Pending, NO_EXTRA.(lastError := Set(Some(StuckReleased)), startedAt := Set(None)));
      return Released;
    }

    /** The worker's `failed` handler; `job` is absent when BullMQ has already dropped it. */
    method OnJobFailed(job: Option<Job>, message: string)
      requires db.Valid()
      modifies db
      ensures db.Valid()
      ensures db.View() ==
              if job.Some? && job.value.attempts <= job.value.attemptsMade
              then OnRow(old(db.View()), job.value.paymentId, GivenUp(WorkerDied(message)))
              else old(db.View())
      ensures if job.Some? && job.value.attempts <= job.value.attemptsMade
                   && job.value.paymentId in old(db.payments)
                   && old(db.payments)[job.value.paymentId].status in {Pending, Processing}
              then var id := job.value.paymentId;
                   && db.payments == old(db.payments)[id := old(db.payments)[id].(
                        status := Failed, lastError := db.payments[id].lastError)]
                   && db.payments[id].lastError.Some?
                   && db.payments[id].lastError.value.Text() == "worker: " + message
              else db.payments == old(db.payments)
      ensures db.events == old(db.events)
    {
      if job.None? {
        return;
      }
      var attemptsLeft := job.value.attempts - job.value.attemptsMade;
      if attemptsLeft <= 0 {
        var _ := FailPayment(job.value.paymentId, WorkerDied(message));
      }
    }
  }

  /** Insert or fetch by idempotency key; only a first request queues work. */
  method InitiatePayment(db: Database, queue: PaymentQueue, key: string, amount: int, currency: string)
    returns (id: nat, payment: Payment, created: bool)
    requires db.Valid() && queue.Valid()
    modifies db, queue
    ensures db.Valid() && queue.Valid() && db.events == old(db.events)
    ensures id in db.payments && db.payments[id] == payment && payment.key == key
    ensures created <==> forall i :: i in old(db.payments) ==> old(db.payments)[i].key != key
    ensures created ==>
              && id !in old(db.payments)
              && db.payments == old(db.payments)[id := Payment(
                   key, amount, currency, Pending, 0, queue.attempts, None, None, None)]
              && var jobId := "payment-" + Decimal(id);
                 queue.jobs == if jobId in old(queue.jobs) then old(queue.jobs)
                               else old(queue.jobs)[jobId := Job(id, Waiting, 0, queue.attempts)]
    ensures !created ==> db.payments == old(db.payments) && queue.jobs == old(queue.jobs)
  {
    var inserted := db.Create(key, amount, currency, queue.attempts);
    match inserted
    case Inserted(newId, row) =>
      queue.EnqueuePayment(newId);
      return newId, row, true;
    case DuplicateKey =>
      var found := db.FindByIdempotencyKey(key);
      return found.value.0, found.value.1, false;
  }

  /** One provider callback, in one transaction. */
  method HandleWebhook(db: Database, d: Delivery) returns (r: WebhookReply)
    requires db.Valid()
    modifies db
    ensures db.Valid() && db.View() == Deliver(old(db.View()), d)
    ensures r == WebhookReplyOf(old(db.View()), d)
    ensures r.UnknownPayment? <==> d.paymentId !in old(db.payments)
    ensures r.Duplicate? <==>
              !r.UnknownPayment? && exists i :: 0 <= i < |old(db.events)| && old(db.events)[i].eventId == d.eventId
    ensures r.UnknownPayment? || r.Duplicate? ==> db.View() == old(db.View())
    ensures !r.UnknownPayment? && !r.Duplicate? ==>
              var p := old(db.payments)[d.paymentId];
              && (r.AlreadyInState? <==> p.status == d.status)
              && (r.Applied? <==> p.status == Pending || p.status == Processing)
              && (r.Conflict? ==> r.from == p.status && p.status in {Success, Failed} && p.status != d.status)
              && db.events == old(db.events) + [
                   Event(d.eventId, d.paymentId, if r.Applied? then Processed else Ignored, d)]
    ensures !r.Applied? ==> db.payments == old(db.payments)
    ensures r.Applied? ==>
              var p := old(db.payments)[d.paymentId];
              var q := db.payments[d.paymentId];
              && db.payments == old(db.payments)[d.paymentId := q]
              && (d.status == Success ==>
                    q == p.(
                      status := Success,
                      lastError := None,
                      providerRef := if d.providerRef.Some? && |d.providerRef.value| > 0
                                     then d.providerRef else p.providerRef))
              && (d.status != Success ==>
                    && q == p.(status := Failed, lastError := q.lastError)
                    && q.lastError.Some? && q.lastError.value.Text() == "failed via provider webhook")
  {
    var row := db.FindById(d.paymentId);
    if row.None? {
      return UnknownPayment;
    }
    var ins := db.InsertUnique(d.eventId, d.paymentId, Received, d);
    if ins.DuplicateEvent? {
      return Duplicate;
    }
    var target := d.status;
    if row.value.status == target {
      db.MarkProcessed(ins.id, Ignored);
      return AlreadyInState;
    }
    if !CanTransition(row.value.status, target) {
      db.MarkProcessed(ins.id, Ignored);
      return Conflict(row.value.status);
    }
    var extra :=
      if target == Success
      then NO_EXTRA.(providerRef := Set(OrElse(d.providerRef, row.value.providerRef)), lastError := Set(None))
      else NO_EXTRA.(lastError := Set(Some(ViaWebhook)));
    db.UpdateStatus(d.paymentId, target, extra);
    db.MarkProcessed(ins.id, Processed);
    return Applied;
  }
}
