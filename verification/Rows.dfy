/** A row of the payments table and everything a committed transaction can do to it. */
module Rows {
  import opened StateMachine

  datatype Option<+T> = None | Some(value: T)

  /** MAX_PAYMENT_ATTEMPTS, copied into every row and every job. */
  type pos = n: int | 0 < n witness 1

  datatype Payment = Payment(
    key: string,
    amount: int,
    currency: string,
    status: Status,
    attempts: nat,
    maxAttempts: pos,
    providerRef: Option<string>,
    lastError: Option<Message>,
    startedAt: Option<int>)

  /** What goes into last_error. */
  datatype Message =
    | Verbatim(reason: string)
    | MaxAttempts(reason: string)
    | StuckExhausted
    | StuckReleased
    | ViaWebhook
    | WorkerDied(error: string)
  {
    /** The stored text. */
    function Text(): string {
      match this
      case Verbatim(reason) => reason
      case MaxAttempts(reason) => "max attempts exhausted: " + reason
      case StuckExhausted => "recovered: stuck in processing, attempts exhausted"
      case StuckReleased => "recovered from stale processing"
      case ViaWebhook => "failed via provider webhook"
      case WorkerDied(error) => "worker: " + error
    }
  }

  /** What the gateway call ended with: a result, or a GatewayError. */
  datatype Answer = Charged(ref: string) | Refused(reason: string, retriable: bool)

  /** The write that one committed transaction asks of one row. */
  datatype RowEvent =
    | Untouched
    | Born(key: string, amount: int, currency: string, maxAttempts: pos)
    | Claimed(now: int)
    | Settled(answer: Answer)
    | Recovered
    | GivenUp(message: Message)
    | Reported(status: FinalStatus, ref: Option<string>)

  function NewPayment(key: string, amount: int, currency: string, maxAttempts: pos): Payment {
    Payment(key, amount, currency, Pending, 0, maxAttempts, None, None, None)
  }

  /** JavaScript's `ref || fallback`: an absent or empty string falls through. */
  function OrElse(ref: Option<string>, fallback: Option<string>): Option<string> {
    if ref.Some? && ref.value != "" then ref else fallback
  }

  /** The new row. A write whose guard refuses the row leaves it as it is. */
  function Advance(p: Payment, e: RowEvent): Payment {
    match e
    case Untouched => p
    case Born(_, _, _, _) => p
    case Claimed(now) =>
      if p.status == Pending
      then p.(status := Processing, startedAt := Some(now), attempts := p.attempts + 1)
      else p
    case Settled(answer) => if p.status == Processing then AdvanceSettled(p, answer) else p
    case Recovered =>
      if p.status != Processing then p
      else if p.attempts >= p.maxAttempts
      then p.(status := Failed, lastError := Some(StuckExhausted), startedAt := None)
      else p.(status := Pending, lastError := Some(StuckReleased), startedAt := None)
    case GivenUp(message) =>
      if CanTransition(p.status, Failed) then p.(status := Failed, lastError := Some(message)) else p
    case Reported(status, ref) =>
      if !CanTransition(p.status, status) then p
      else if status == Success
      then p.(status := Success, providerRef := OrElse(ref, p.providerRef), lastError := None)
      else p.(status := status, lastError := Some(ViaWebhook))
  }

  function AdvanceSettled(p: Payment, answer: Answer): Payment {
    match answer
    case Charged(ref) => p.(status := Success, providerRef := Some(ref), lastError := None)
    case Refused(reason, retriable) =>
      if retriable && p.attempts < p.maxAttempts
      then p.(status := Pending, lastError := Some(Verbatim(reason)), startedAt := None)
      else p.(status := Failed, lastError := Some(if retriable then MaxAttempts(reason) else Verbatim(reason)))
  }

  /** The row after one write, starting possibly from no row at all. */
  function Apply(r: Option<Payment>, e: RowEvent): Option<Payment> {
    match r
    case Some(p) => Some(Advance(p, e))
    case None => if e.Born? then Some(NewPayment(e.key, e.amount, e.currency, e.maxAttempts)) else None
  }

  /** What findStale's WHERE clause selects; a null stamp compares as false. */
  predicate Stale(p: Payment, cutoff: int) {
    p.status == Processing && p.startedAt.Some? && p.startedAt.value < cutoff
  }
}
