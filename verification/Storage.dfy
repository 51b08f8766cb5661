/** The MySQL tables behind PaymentRepository and WebhookEventRepository, updated in place. */
module Storage {
  import opened StateMachine
  import opened Rows
  import opened Tables

  /** A column of an UPDATE: left alone, or assigned. */
  datatype Column<+T> = Keep | Set(value: T)

  /** The `extra` columns of updateStatus. */
  datatype Extra = Extra(
    providerRef: Column<Option<string>>,
    lastError: Column<Option<Message>>,
    startedAt: Column<Option<int>>)

  function Assign<T>(old_: T, c: Column<T>): T {
    match c
    case Keep => old_
    case Set(v) => v
  }

  datatype InsertPayment = Inserted(id: nat, row: Payment) | DuplicateKey

  datatype InsertEvent = Recorded(id: nat) | DuplicateEvent | NoSuchPayment

  class Database {
    var payments: map<nat, Payment>
    var events: seq<Event>
    /** The auto-increment counter of the payments table. */
    var nextId: nat

    /** Ids come from the counter, and both unique indexes hold. */
    ghost predicate Valid()
      reads this
    {
      && (forall id :: id in payments ==> id < nextId)
      && KeysUnique(payments)
      && EventIdsUnique(events)
    }

    function View(): Db
      reads this
    {
      Db(payments, events)
    }

    constructor ()
      ensures Valid() && View() == EMPTY_DB
    {
      payments, events, nextId := map[], [], 1;
    }

    // ---- PaymentRepository -----------------------------------------------------------------------

    /** INSERT; the unique index turns a repeated key away. The counter moves on either way. */
    method Create(key: string, amount: int, currency: string, maxAttempts: pos) returns (r: InsertPayment)
      requires Valid()
      modifies this
      ensures Valid() && events == old(events)
      ensures r.DuplicateKey? <==> exists i :: i in old(payments) && old(payments)[i].key == key
      ensures r.DuplicateKey? ==> payments == old(payments)
      ensures r.Inserted? ==>
                && r.id !in old(payments)
                && r.row == Payment(key, amount, currency, Pending, 0, maxAttempts, None, None, None)
                && payments == old(payments)[r.id := r.row]
    {
      var id := nextId;
      nextId := nextId + 1;
      if KeyTaken(payments, key) {
        return DuplicateKey;
      }
      payments := payments[id := Payment(key, amount, currency, Pending, 0, maxAttempts, None, None, None)];
      var row := FindById(id);
      return Inserted(id, row.value);
    }

    method FindById(id: nat) returns (row: Option<Payment>)
      ensures row == RowOf(View(), id)
    {
      if id in payments { row := Some(payments[id]); } else { row := None; }
    }

    method FindByIdempotencyKey(key: string) returns (found: Option<(nat, Payment)>)
      ensures found.None? <==> forall i :: i in payments ==> payments[i].key != key
      ensures found.Some? ==>
                found.value.0 in payments && payments[found.value.0] == found.value.1 && found.value.1.key == key
    {
      if id :| id in payments && payments[id].key == key {
        found := Some((id, payments[id]));
      } else {
        found := None;
      }
    }

    /** Raw status write, without asking the state machine; a missing id updates no row. */
    method UpdateStatus(id: nat, status: Status, extra: Extra)
      modifies this`payments
      ensures id !in old(payments) ==> payments == old(payments)
      ensures id in old(payments) ==>
                payments == old(payments)[id := old(payments)[id].(
                  status := status,
                  providerRef := Assign(old(payments)[id].providerRef, extra.providerRef),
                  lastError := Assign(old(payments)[id].lastError, extra.lastError),
                  startedAt := Assign(old(payments)[id].startedAt, extra.startedAt))]
    {
      if id in payments {
        var row := payments[id];
        row := row.(status := status);
        if extra.providerRef.Set? { row := row.(providerRef := extra.providerRef.value); }
        if extra.lastError.Set? { row := row.(lastError := extra.lastError.value); }
        if extra.startedAt.Set? { row := row.(startedAt := extra.startedAt.value); }
        payments := payments[id := row];
      }
    }

    method IncrementAttempts(id: nat)
      modifies this`payments
      ensures id !in old(payments) ==> payments == old(payments)
      ensures id in old(payments) ==>
                payments == old(payments)[id := old(payments)[id].(attempts := old(payments)[id].attempts + 1)]
    {
      if id in payments {
        payments := payments[id := payments[id].(attempts := payments[id].attempts + 1)];
      }
    }

    /** Every stale row exactly once, in no particular order. */
    method FindStale(now: int, olderThanMs: int) returns (ids: seq<nat>)
      ensures forall id :: id in ids <==>
                             && id in payments && payments[id].status == Processing
                             && payments[id].startedAt.Some? && payments[id].startedAt.value < now - olderThanMs
      ensures forall i, j :: 0 <= i < j < |ids| ==> ids[i] != ids[j]
    {
      var cutoff := now - olderThanMs;
      ids := [];
      var rest := payments.Keys;
      while rest != {}
        invariant rest <= payments.Keys
        invariant forall id :: id in ids <==> id in payments.Keys - rest && Stale(payments[id], cutoff)
        invariant forall i, j :: 0 <= i < j < |ids| ==> ids[i] != ids[j]
        decreases rest
      {
        var id :| id in rest;
        rest := rest - {id};
        if Stale(payments[id], cutoff) { ids := ids + [id]; }
      }
    }

    // ---- WebhookEventRepository ------------------------------------------------------------------

    /** INSERT behind the foreign key and the unique index on event_id. */
    method InsertUnique(eventId: string, paymentId: nat, handling: Handling, payload: Delivery) returns (r: InsertEvent)
      requires Valid()
      modifies this`events
      ensures Valid()
      ensures r.NoSuchPayment? <==> paymentId !in payments
      ensures r.DuplicateEvent? <==>
                paymentId in payments && exists i :: 0 <= i < |old(events)| && old(events)[i].eventId == eventId
      ensures !r.Recorded? ==> events == old(events)
      ensures r.Recorded? ==>
                r.id == |old(events)| && events == old(events) + [Event(eventId, paymentId, handling, payload)]
    {
      if paymentId !in payments {
        return NoSuchPayment;
      }
      if Seen(events, eventId) {
        return DuplicateEvent;
      }
      events := events + [Event(eventId, paymentId, handling, payload)];
      return Recorded(|events| - 1);
    }

    method MarkProcessed(id: nat, handling: Handling)
      requires Valid()
      modifies this`events
      ensures Valid()
      ensures |events| == |old(events)|
      ensures forall i :: 0 <= i < |events| ==>
                            events[i] == if i == id then old(events)[i].(handling := handling) else old(events)[i]
    {
      if id < |events| {
        events := events[id := events[id].(handling := handling)];
      }
    }
  }
}
