/** The two tables as values, and each committed transaction as a function on them. */
module Tables {
  import opened StateMachine
  import opened Rows

  /** webhook_events.status: how a callback was handled. */
  datatype Handling = Received | Processed | Ignored

  /** The body of a provider callback. */
  datatype Delivery = Delivery(eventId: string, paymentId: nat, status: FinalStatus, providerRef: Option<string>)

  datatype Event = Event(eventId: string, paymentId: nat, handling: Handling, payload: Delivery)

  /** Payments by id; webhook events in the order of their ids. */
  datatype Db = Db(payments: map<nat, Payment>, events: seq<Event>)

  const EMPTY_DB := Db(map[], [])

  predicate KeyTaken(payments: map<nat, Payment>, key: string) {
    exists id :: id in payments && payments[id].key == key
  }

  predicate Seen(events: seq<Event>, eventId: string) {
    exists i :: 0 <= i < |events| && events[i].eventId == eventId
  }

  /** The rows findStale selects. */
  function StaleIds(payments: map<nat, Payment>, cutoff: int): set<nat> {
    set id | id in payments && Stale(payments[id], cutoff)
  }

  /** The unique index on idempotency_key. */
  ghost predicate KeysUnique(payments: map<nat, Payment>) {
    forall i, j :: i in payments && j in payments && payments[i].key == payments[j].key ==> i == j
  }

  /** The unique index on event_id. */
  ghost predicate EventIdsUnique(events: seq<Event>) {
    forall i, j :: 0 <= i < j < |events| ==> events[i].eventId != events[j].eventId
  }

  function RowOf(db: Db, id: nat): Option<Payment> {
    if id in db.payments then Some(db.payments[id]) else None
  }

  /** One locked-row transaction; a missing row is left missing. */
  function OnRow(db: Db, id: nat, e: RowEvent): Db {
    if e.Untouched? || id !in db.payments then db
    else db.(payments := db.payments[id := Advance(db.payments[id], e)])
  }

  // ---- Replies of the transactions ---------------------------------------------------------------

  datatype ClaimReply =
    | NotFound
    | NotPending(status: Status)
    | IsClaimed(attempts: nat, maxAttempts: pos, amount: int, currency: string)

  function ClaimReplyOf(r: Option<Payment>): ClaimReply {
    match r
    case None => NotFound
    case Some(p) =>
      if p.status != Pending then NotPending(p.status)
      else IsClaimed(p.attempts + 1, p.maxAttempts, p.amount, p.currency)
  }

  datatype SettleReply = SettleNoop(status: Option<Status>) | Succeeded | Retry(reason: string) | Declined

  function SettleReplyOf(r: Option<Payment>, answer: Answer): SettleReply {
    if r.None? then SettleNoop(None)
    else if r.value.status != Processing then SettleNoop(Some(r.value.status))
    else if answer.Charged? then Succeeded
    else if answer.retriable && r.value.attempts < r.value.maxAttempts then Retry(answer.reason)
    else Declined
  }

  datatype RecoverReply = Skip(status: Option<Status>) | Exhausted | Released

  function RecoverReplyOf(r: Option<Payment>): RecoverReply {
    if r.None? then Skip(None)
    else if r.value.status != Processing then Skip(Some(r.value.status))
    else if r.value.attempts >= r.value.maxAttempts then Exhausted
    else Released
  }

  datatype FailReply = FailNotFound | IllegalFail(status: Status) | GaveUp

  function FailReplyOf(r: Option<Payment>): FailReply {
    if r.None? then FailNotFound
    else if !CanTransition(r.value.status, Failed) then IllegalFail(r.value.status)
    else GaveUp
  }

  datatype WebhookReply = UnknownPayment | Duplicate | AlreadyInState | Conflict(from: Status) | Applied

  function WebhookReplyOf(db: Db, d: Delivery): WebhookReply {
    if d.paymentId !in db.payments then UnknownPayment
    else if Seen(db.events, d.eventId) then Duplicate
    else
      var status := db.payments[d.paymentId].status;
      if status == d.status then AlreadyInState
      else if CanTransition(status, d.status) then Applied
      else Conflict(status)
  }

  /** Callbacks that are neither unknown nor duplicate leave one event row, never in state Received. */
  function Deliver(db: Db, d: Delivery): Db {
    match WebhookReplyOf(db, d)
    case UnknownPayment => db
    case Duplicate => db
    case AlreadyInState => Record(db, d, Ignored)
    case Conflict(_) => Record(db, d, Ignored)
    case Applied => Record(OnRow(db, d.paymentId, Reported(d.status, d.providerRef)), d, Processed)
  }

  function Record(db: Db, d: Delivery, handling: Handling): Db {
    db.(events := db.events + [Event(d.eventId, d.paymentId, handling, d)])
  }
}
