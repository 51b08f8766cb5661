/** The webhook ledger, redelivery of callbacks, and where a SUCCESS comes from. */
module Ledger {
  import opened StateMachine
  import opened Rows
  import H = RowHistory
  import opened Tables
  import opened Protocol
  import opened SystemRows

  // ---- The ledger invariant ------------------------------------------------------------------------

  /** The committed webhook_events table against the payments table. */
  ghost predicate Balanced(db: Db) {
    && EventIdsUnique(db.events)
    && (forall i :: 0 <= i < |db.events| ==> Filed(db, db.events[i]) && Honoured(db, db.events[i]))
    && (forall i, j ::
          0 <= i < j < |db.events| && db.events[i].handling.Processed? && db.events[j].handling.Processed? ==>
          db.events[i].paymentId != db.events[j].paymentId)
  }

  /** Handled, for a known payment, and if processed then in agreement with that payment. */
  ghost predicate Filed(db: Db, e: Event) {
    && e.handling != Received
    && e.paymentId in db.payments
    && (e.handling == Processed ==> db.payments[e.paymentId].status == e.payload.status)
  }

  /** The row says what the callback said: its status, its reference if it gave one, and else no reference. */
  predicate Carries(p: Payment, d: Delivery) {
    && p.status == d.status
    && (d.status == Success && d.providerRef.Some? && |d.providerRef.value| > 0 ==> p.providerRef == d.providerRef)
    && (d.status == Success && !(d.providerRef.Some? && |d.providerRef.value| > 0) ==> p.providerRef == None)
    && (d.status == Failed ==> p.providerRef == None && p.lastError == Some(ViaWebhook))
  }

  /** A processed event has its payment carry all it said. */
  ghost predicate Honoured(db: Db, e: Event) {
    e.handling == Processed ==> e.paymentId in db.payments && Carries(db.payments[e.paymentId], e.payload)
  }

  lemma DeliveryIsHonoured(db: Db, d: Delivery)
    requires WebhookReplyOf(db, d) == Applied && H.Sound(db.payments[d.paymentId])
    ensures d.paymentId in Deliver(db, d).payments && Carries(Deliver(db, d).payments[d.paymentId], d)
  {
  }

  lemma DeliverKeepsHonoured(db: Db, d: Delivery, e: Event)
    requires Honoured(db, e)
    ensures Honoured(Deliver(db, d), e)
  {
  }

  lemma DeliverFiles(db: Db, d: Delivery)
    requires WebhookReplyOf(db, d) in [AlreadyInState, Applied] || WebhookReplyOf(db, d).Conflict?
    ensures var events := Deliver(db, d).events;
            && events[..|db.events|] == db.events && |events| == |db.events| + 1
            && Filed(Deliver(db, d), events[|db.events|])
            && events[|db.events|].paymentId == d.paymentId && events[|db.events|].eventId == d.eventId
            && (events[|db.events|].handling.Processed? ==> !IsTerminal(db.payments[d.paymentId].status))
  {
  }

  lemma DeliverKeepsBalanced(db: Db, d: Delivery)
    requires Balanced(db) && (d.paymentId in db.payments ==> H.Sound(db.payments[d.paymentId]))
    ensures Balanced(Deliver(db, d))
  {
    if WebhookReplyOf(db, d).Applied? { DeliveryIsHonoured(db, d); }
    forall i | 0 <= i < |db.events| ensures Honoured(Deliver(db, d), db.events[i]) {
      DeliverKeepsHonoured(db, d, db.events[i]);
    }
  }

  lemma OtherLabelsLeaveEvents(cfg: Config, s: State, l: Label)
    requires !l.Webhook?
    ensures Step(cfg, s, l).db.events == s.db.events
  {
  }

  lemma StepKeepsBalanced(cfg: Config, s: State, l: Label)
    requires Balanced(s.db) && RowsSound(cfg, s)
    ensures Balanced(Step(cfg, s, l).db)
  {
    if l.Webhook? {
      DeliverKeepsBalanced(s.db, l.d);
    } else {
      OtherLabelsLeaveEvents(cfg, s, l);
      forall i | 0 <= i < |s.db.events|
        ensures Filed(Step(cfg, s, l).db, s.db.events[i]) && Honoured(Step(cfg, s, l).db, s.db.events[i])
      {
        assert Filed(s.db, s.db.events[i]) && Honoured(s.db, s.db.events[i]);
        StepKeepsFiled(cfg, s, l, s.db.events[i]);
        StepKeepsHonoured(cfg, s, l, s.db.events[i]);
      }
    }
  }

  lemma StepKeepsFiled(cfg: Config, s: State, l: Label, e: Event)
    requires Filed(s.db, e)
    ensures Filed(Step(cfg, s, l).db, e)
  {
  }

  lemma StepKeepsHonoured(cfg: Config, s: State, l: Label, e: Event)
    requires Honoured(s.db, e)
    ensures Honoured(Step(cfg, s, l).db, e)
  {
    StepIsAWrite(cfg, s, l, e.paymentId);
    if e.handling == Processed {
      H.TerminalRowsDoNotMove(s.db.payments[e.paymentId], WriteTo(cfg, s, l, e.paymentId));
    }
  }

  /**
   * In every reachable state each event_id has one row, none is left Received, each payment has at most one
   * processed event, and the payment carries the status, reference and error that event reported.
   */
  lemma {:induction false} LedgerIsBalanced(cfg: Config, run: seq<Label>)
    ensures Balanced(After(cfg, run).db)
  {
    if |run| > 0 {
      LedgerIsBalanced(cfg, run[..|run| - 1]);
      ReachableRowsSound(cfg, run[..|run| - 1]);
      StepKeepsBalanced(cfg, After(cfg, run[..|run| - 1]), run[|run| - 1]);
    }
  }

  /** Event rows are never removed or rewritten, and what a processed event reported stays true for good. */
  lemma {:induction false} ProcessedEventsHoldForever(cfg: Config, s: State, run: seq<Label>, i: nat)
    requires i < |s.db.events| && Filed(s.db, s.db.events[i]) && Honoured(s.db, s.db.events[i])
    ensures i < |Run(cfg, s, run).db.events| && Run(cfg, s, run).db.events[i] == s.db.events[i]
    ensures Filed(Run(cfg, s, run).db, s.db.events[i]) && Honoured(Run(cfg, s, run).db, s.db.events[i])
  {
    if |run| > 0 {
      var before, l := run[..|run| - 1], run[|run| - 1];
      ProcessedEventsHoldForever(cfg, s, before, i);
      StepKeepsFiled(cfg, Run(cfg, s, before), l, s.db.events[i]);
      StepKeepsHonoured(cfg, Run(cfg, s, before), l, s.db.events[i]);
      StepKeepsEvent(cfg, Run(cfg, s, before), l, i);
    }
  }

  lemma StepKeepsEvent(cfg: Config, s: State, l: Label, i: nat)
    requires i < |s.db.events|
    ensures i < |Step(cfg, s, l).db.events| && Step(cfg, s, l).db.events[i] == s.db.events[i]
  {
  }

  // ---- At-least-once delivery, exactly-once effect ---------------------------------------------------

  function DeliverAll(db: Db, ds: seq<Delivery>): Db {
    if |ds| == 0 then db else Deliver(DeliverAll(db, ds[..|ds| - 1]), ds[|ds| - 1])
  }

  /** The list without later copies of a callback it already contains. */
  function FirstCopies(ds: seq<Delivery>): (r: seq<Delivery>)
    ensures forall d :: d in r <==> d in ds
  {
    if |ds| == 0 then []
    else
      var front, last := ds[..|ds| - 1], ds[|ds| - 1];
      assert ds == front + [last];
      if last in front then FirstCopies(front) else FirstCopies(front) + [last]
  }

  lemma {:induction false} DeliveredIsSeen(db: Db, ds: seq<Delivery>, d: Delivery)
    requires d in ds
    ensures DeliverAll(db, ds).payments.Keys == db.payments.Keys
    ensures d.paymentId in db.payments ==> Seen(DeliverAll(db, ds).events, d.eventId)
  {
    var front, last := ds[..|ds| - 1], ds[|ds| - 1];
    assert ds == front + [last];
    DeliverKeepsKeys(db, front);
    if d.paymentId in db.payments {
      if last == d {
        DeliverRecords(DeliverAll(db, front), d);
      } else {
        DeliveredIsSeen(db, front, d);
        SeenStays(DeliverAll(db, front), last, d.eventId);
      }
    }
  }

  lemma {:induction false} DeliverKeepsKeys(db: Db, ds: seq<Delivery>)
    ensures DeliverAll(db, ds).payments.Keys == db.payments.Keys
  {
    if |ds| > 0 { DeliverKeepsKeys(db, ds[..|ds| - 1]); }
  }

  lemma DeliverRecords(db: Db, d: Delivery)
    requires d.paymentId in db.payments
    ensures Seen(Deliver(db, d).events, d.eventId)
  {
    if !Seen(db.events, d.eventId) {
      DeliverFiles(db, d);
      assert Deliver(db, d).events[|db.events|].eventId == d.eventId;
    }
  }

  lemma SeenStays(db: Db, d: Delivery, eventId: string)
    requires Seen(db.events, eventId)
    ensures Seen(Deliver(db, d).events, eventId)
  {
    var i :| 0 <= i < |db.events| && db.events[i].eventId == eventId;
    assert Deliver(db, d).events[i] == db.events[i];
  }

  /** Any list of callbacks leaves the two tables exactly as the list without its repeats does. */
  lemma {:induction false} RedeliveryHasNoEffect(db: Db, ds: seq<Delivery>)
    ensures DeliverAll(db, ds) == DeliverAll(db, FirstCopies(ds))
  {
    if |ds| > 0 {
      var front, last := ds[..|ds| - 1], ds[|ds| - 1];
      assert ds == front + [last];
      RedeliveryHasNoEffect(db, front);
      if last in front {
        DeliveredIsSeen(db, front, last);
      } else {
        var r := FirstCopies(front);
        assert (r + [last])[..|r + [last]| - 1] == r;
      }
    }
  }

  /** The event ids that the list delivers for known payments. */
  function IdsOf(known: set<nat>, ds: seq<Delivery>): set<string> {
    set d | d in ds && d.paymentId in known :: d.eventId
  }

  /** The deliveries that count: for a known payment, the first under each event id, whatever later ones say. */
  function FirstPerEvent(known: set<nat>, ds: seq<Delivery>): seq<Delivery> {
    if |ds| == 0 then []
    else
      var front, last := ds[..|ds| - 1], ds[|ds| - 1];
      if last.paymentId in known && last.eventId !in IdsOf(known, front)
      then FirstPerEvent(known, front) + [last] else FirstPerEvent(known, front)
  }

  /** Of each event id delivered for a known payment exactly one delivery counts. */
  lemma {:induction false} EachEventCountsOnce(known: set<nat>, ds: seq<Delivery>)
    ensures forall i, j :: 0 <= i < j < |FirstPerEvent(known, ds)| ==>
                             FirstPerEvent(known, ds)[i].eventId != FirstPerEvent(known, ds)[j].eventId
    ensures forall id :: id in IdsOf(known, ds) <==> exists d :: d in FirstPerEvent(known, ds) && d.eventId == id
  {
    if |ds| > 0 {
      var front, last := ds[..|ds| - 1], ds[|ds| - 1];
      assert ds == front + [last];
      EachEventCountsOnce(known, front);
      assert IdsOf(known, ds) == IdsOf(known, front) + if last.paymentId in known then {last.eventId} else {};
      var r := FirstPerEvent(known, front);
      forall i | 0 <= i < |r| ensures r[i].eventId in IdsOf(known, front) { assert r[i] in r; }
      if FirstPerEvent(known, ds) == r + [last] {
        forall id
          ensures (exists d :: d in r + [last] && d.eventId == id) <==> id in IdsOf(known, front) || id == last.eventId
        {
          assert last in r + [last];
          if d :| d in r && d.eventId == id { assert d in r + [last]; }
        }
      }
    }
  }

  lemma DeliveredIdIsSeen(db: Db, ds: seq<Delivery>, eventId: string)
    requires eventId in IdsOf(db.payments.Keys, ds)
    ensures Seen(DeliverAll(db, ds).events, eventId)
  {
    var d :| d in ds && d.paymentId in db.payments.Keys && d.eventId == eventId;
    DeliveredIsSeen(db, ds, d);
  }

  /** Any list of callbacks leaves the two tables exactly as its first delivery per event id does. */
  lemma {:induction false} OneDeliveryPerEvent(db: Db, ds: seq<Delivery>)
    ensures DeliverAll(db, ds) == DeliverAll(db, FirstPerEvent(db.payments.Keys, ds))
  {
    if |ds| > 0 {
      var front, last := ds[..|ds| - 1], ds[|ds| - 1];
      OneDeliveryPerEvent(db, front);
      DeliverKeepsKeys(db, front);
      if last.paymentId in db.payments {
        if last.eventId in IdsOf(db.payments.Keys, front) {
          DeliveredIdIsSeen(db, front, last.eventId);
        } else {
          var r := FirstPerEvent(db.payments.Keys, front);
          assert (r + [last])[..|r + [last]| - 1] == r;
        }
      }
    }
  }

  lemma {:induction false} SeenInEveryLaterState(cfg: Config, s: State, run: seq<Label>, eventId: string)
    requires Seen(s.db.events, eventId)
    ensures Seen(Run(cfg, s, run).db.events, eventId)
  {
    if |run| > 0 {
      SeenInEveryLaterState(cfg, s, run[..|run| - 1], eventId);
      StepKeepsSeen(cfg, Run(cfg, s, run[..|run| - 1]), run[|run| - 1], eventId);
    }
  }

  lemma StepKeepsSeen(cfg: Config, s: State, l: Label, eventId: string)
    requires Seen(s.db.events, eventId)
    ensures Seen(Step(cfg, s, l).db.events, eventId)
  {
    var i :| 0 <= i < |s.db.events| && s.db.events[i].eventId == eventId;
    StepKeepsEvent(cfg, s, l, i);
  }

  /** A delivery under an event id that is on file, whatever it says and about which payment, changes nothing. */
  lemma SeenIsIgnored(db: Db, d: Delivery)
    requires Seen(db.events, d.eventId)
    ensures Deliver(db, d) == db
  {
  }

  /**
   * The same with everything else interleaved: once a callback for a known payment has been delivered, a later
   * one under its event id, be it a copy or not, can be struck from a run without changing the state it ends in.
   */
  lemma LaterDeliveriesAreInvisible(
    cfg: Config, s: State, d: Delivery, again: Delivery, between: seq<Label>, rest: seq<Label>)
    requires d.paymentId in s.db.payments || Seen(s.db.events, d.eventId)
    requires again.eventId == d.eventId
    ensures Run(cfg, s, [Webhook(d)] + between + [Webhook(again)] + rest) == Run(cfg, s, [Webhook(d)] + between + rest)
  {
    var run := [Webhook(d)] + between;
    if d.paymentId in s.db.payments { DeliverRecords(s.db, d); } else { SeenStays(s.db, d, d.eventId); }
    SeenInEveryLaterState(cfg, Step(cfg, s, Webhook(d)), between, d.eventId);
    RunFromOne(cfg, s, Webhook(d), between);
    SeenIsIgnored(Run(cfg, s, run).db, again);
    RunThrough(cfg, s, run, Webhook(again), rest);
    RunAppend(cfg, s, run, rest);
  }

  /** Two steps of a request whose key and name are new bring a payment into being under any free id. */
  lemma PaymentCanAppear(cfg: Config, s: State, p: nat) returns (between: seq<Label>)
    requires p !in s.db.payments
    ensures p in Run(cfg, s, between).db.payments && Run(cfg, s, between).db.events == s.db.events
  {
    var c := FreeName(s.clients.Keys);
    var n := FreeName(set id | id in s.db.payments :: |s.db.payments[id].key|);
    var key := seq(n, _ => 'k');
    assert !KeyTaken(s.db.payments, key) by {
      forall id | id in s.db.payments ensures s.db.payments[id].key != key {
        assert |s.db.payments[id].key| in set x | x in s.db.payments :: |s.db.payments[x].key|;
      }
    }
    between := [Arrive(c, key, 1, []), Api(c, Insert(p))];
    RunOfTwo(cfg, s, Arrive(c, key, 1, []), Api(c, Insert(p)));
    var s1 := Step(cfg, s, Arrive(c, key, 1, []));
    assert s1 == s.(clients := s.clients[c := Client(key, 1, [], Arrived)]);
  }

  lemma {:induction false} FreeName(names: set<nat>) returns (n: nat)
    ensures n !in names && forall m :: m in names ==> m < n
    decreases names
  {
    if names == {} {
      n := 0;
    } else {
      var m :| m in names;
      var above := FreeName(names - {m});
      n := if m < above then above else m + 1;
      forall x | x in names ensures x < n { assert x == m || x in names - {m}; }
    }
  }

  /**
   * Later deliveries under an event id are invisible exactly when the first one finds its payment, or its event
   * already on file. A callback for a payment that does not exist yet leaves no trace, so its repeat counts.
   */
  lemma RepeatsAreInvisibleExactly(cfg: Config, s: State, d: Delivery)
    ensures (forall again: Delivery, between, rest :: again.eventId == d.eventId ==>
               Run(cfg, s, [Webhook(d)] + between + [Webhook(again)] + rest)
                   == Run(cfg, s, [Webhook(d)] + between + rest))
            <==> (d.paymentId in s.db.payments || Seen(s.db.events, d.eventId))
  {
    if d.paymentId in s.db.payments || Seen(s.db.events, d.eventId) {
      forall again: Delivery, between, rest | again.eventId == d.eventId
        ensures Run(cfg, s, [Webhook(d)] + between + [Webhook(again)] + rest)
            == Run(cfg, s, [Webhook(d)] + between + rest)
      {
        LaterDeliveriesAreInvisible(cfg, s, d, again, between, rest);
      }
    } else {
      var between := PaymentCanAppear(cfg, s, d.paymentId);
      RepeatCounts(cfg, s, d, between);
    }
  }

  lemma RepeatCounts(cfg: Config, s: State, d: Delivery, between: seq<Label>)
    requires d.paymentId !in s.db.payments && !Seen(s.db.events, d.eventId)
    requires d.paymentId in Run(cfg, s, between).db.payments && Run(cfg, s, between).db.events == s.db.events
    ensures Run(cfg, s, [Webhook(d)] + between + [Webhook(d)] + []) != Run(cfg, s, [Webhook(d)] + between + [])
  {
    var run := [Webhook(d)] + between;
    FirstCopyIsDropped(cfg, s, d, between);
    assert run + [] == run;
    RunThrough(cfg, s, run, Webhook(d), []);
    NewsIsFiled(cfg, Run(cfg, s, between), d);
  }

  lemma NewsIsFiled(cfg: Config, s: State, d: Delivery)
    requires d.paymentId in s.db.payments && !Seen(s.db.events, d.eventId)
    ensures Run(cfg, Step(cfg, s, Webhook(d)), []) != s
  {
    DeliverFiles(s.db, d);
    assert |Deliver(s.db, d).events| == |s.db.events| + 1;
  }

  lemma FirstCopyIsDropped(cfg: Config, s: State, d: Delivery, between: seq<Label>)
    requires d.paymentId !in s.db.payments
    ensures Run(cfg, s, [Webhook(d)] + between) == Run(cfg, s, between)
  {
    RunAppend(cfg, s, [Webhook(d)], between);
    RunOfOne(cfg, s, Webhook(d));
  }

  // ---- Provenance ----------------------------------------------------------------------------------

  /** Label `i` of the run is the gateway telling call `w`, on payment `p`, that the charge went through. */
  ghost predicate ChargedAt(cfg: Config, run: seq<Label>, i: nat, w: nat, p: nat, ref: string) {
    && i < |run| && run[i] == Call(w, Answer(Charged(ref)))
    && OnWorker(After(cfg, run[..i]), w, Calling(true)) && After(cfg, run[..i]).workers[w].pid == p
  }

  ghost predicate WasCharged(cfg: Config, run: seq<Label>, p: nat, ref: string) {
    exists i: nat, w: nat :: ChargedAt(cfg, run, i, w, p, ref)
  }

  /** The processed callback that reported payment `p` as `status`. */
  predicate IsReport(e: Event, p: nat, status: Status) {
    e.paymentId == p && e.handling.Processed? && e.payload.status == status
  }

  /** A processed callback reported the payment as paid, under the reference that its row carries. */
  ghost predicate WasReported(db: Db, p: nat)
    requires p in db.payments
  {
    exists i ::
      0 <= i < |db.events| && IsReport(db.events[i], p, Success) && Carries(db.payments[p], db.events[i].payload)
  }

  lemma ChargesAreRemembered(cfg: Config, run: seq<Label>, p: nat, ref: string)
    requires |run| > 0 && WasCharged(cfg, run[..|run| - 1], p, ref)
    ensures WasCharged(cfg, run, p, ref)
  {
    var before := run[..|run| - 1];
    var i: nat, w: nat :| ChargedAt(cfg, before, i, w, p, ref);
    assert before[..i] == run[..i];
    assert ChargedAt(cfg, run, i, w, p, ref);
  }

  lemma AnswersComeFromTheGateway(cfg: Config, s: State, l: Label, w: nat, ref: string)
    requires OnWorker(Step(cfg, s, l), w, Answered(Charged(ref)))
    ensures w in s.workers && s.workers[w].pid == Step(cfg, s, l).workers[w].pid
    ensures OnWorker(s, w, Answered(Charged(ref)))
        || (l == Call(w, Answer(Charged(ref))) && OnWorker(s, w, Calling(true)))
  {
  }

  lemma {:induction false} AnsweredWasCharged(cfg: Config, run: seq<Label>, w: nat, ref: string)
    requires OnWorker(After(cfg, run), w, Answered(Charged(ref)))
    ensures WasCharged(cfg, run, After(cfg, run).workers[w].pid, ref)
  {
    if |run| > 0 {
      var before, l := run[..|run| - 1], run[|run| - 1];
      AnswersComeFromTheGateway(cfg, After(cfg, before), l, w, ref);
      if OnWorker(After(cfg, before), w, Answered(Charged(ref))) {
        AnsweredWasCharged(cfg, before, w, ref);
        ChargesAreRemembered(cfg, run, After(cfg, run).workers[w].pid, ref);
      } else {
        assert ChargedAt(cfg, run, |run| - 1, w, After(cfg, run).workers[w].pid, ref);
      }
    }
  }

  lemma SuccessIsWrittenTwoWays(cfg: Config, s: State, l: Label, p: nat)
    requires p in Step(cfg, s, l).db.payments && Step(cfg, s, l).db.payments[p].status == Success
    requires !(p in s.db.payments && s.db.payments[p].status == Success) && RowsSound(cfg, s)
    ensures || WasReported(Step(cfg, s, l).db, p)
            || (l.Call? && l.w in s.workers && s.workers[l.w].pid == p
                && s.workers[l.w].phase.Answered? && s.workers[l.w].phase.answer.Charged?
                && Step(cfg, s, l).db.payments[p].providerRef == Some(s.workers[l.w].phase.answer.ref))
  {
    StepIsAWrite(cfg, s, l, p);
    if l.Webhook? {
      DeliveryIsHonoured(s.db, l.d);
      var events := Step(cfg, s, l).db.events;
      assert IsReport(events[|s.db.events|], p, Success);
    }
  }

  /** Nobody is marked paid out of thin air: the provider confirmed a charge for that payment, or reported one. */
  lemma {:induction false} SuccessHasAProvenance(cfg: Config, run: seq<Label>, p: nat)
    requires p in After(cfg, run).db.payments && After(cfg, run).db.payments[p].status == Success
    ensures || WasReported(After(cfg, run).db, p)
            || (exists ref :: WasCharged(cfg, run, p, ref) && After(cfg, run).db.payments[p].providerRef == Some(ref))
  {
    if |run| > 0 {
      var before, l := run[..|run| - 1], run[|run| - 1];
      var s := After(cfg, before);
      if p in s.db.payments && s.db.payments[p].status == Success {
        SuccessHasAProvenance(cfg, before, p);
        OldSuccess(cfg, s, l, p);
        if ref :| WasCharged(cfg, before, p, ref) && s.db.payments[p].providerRef == Some(ref) {
          ChargesAreRemembered(cfg, run, p, ref);
        }
      } else {
        ReachableRowsSound(cfg, before);
        SuccessIsWrittenTwoWays(cfg, s, l, p);
        if !WasReported(After(cfg, run).db, p) {
          AnsweredWasCharged(cfg, before, l.w, s.workers[l.w].phase.answer.ref);
          ChargesAreRemembered(cfg, run, p, s.workers[l.w].phase.answer.ref);
        }
      }
    }
  }

  lemma OldSuccess(cfg: Config, s: State, l: Label, p: nat)
    requires p in s.db.payments && s.db.payments[p].status == Success
    ensures p in Step(cfg, s, l).db.payments && Step(cfg, s, l).db.payments[p] == s.db.payments[p]
    ensures WasReported(s.db, p) ==> WasReported(Step(cfg, s, l).db, p)
  {
    StepIsAWrite(cfg, s, l, p);
    H.TerminalRowsDoNotMove(s.db.payments[p], WriteTo(cfg, s, l, p));
    if WasReported(s.db, p) {
      var i :|
        && 0 <= i < |s.db.events| && IsReport(s.db.events[i], p, Success)
        && Carries(s.db.payments[p], s.db.events[i].payload);
      StepKeepsEvent(cfg, s, l, i);
    }
  }
}
