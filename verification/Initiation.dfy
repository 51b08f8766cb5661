/** Idempotent initiation under every interleaving of requests with each other and with everything else. */
module Initiation {
  import opened Rows
  import H = RowHistory
  import opened Tables
  import opened Protocol

  /** The payment a request has inserted or fetched, if it got that far. */
  function PaymentOf(x: Client): Option<nat> {
    match x.stage
    case MustRead(id) => Some(id)
    case MustQueue(id, _) => Some(id)
    case Responded(id, _, _) => Some(id)
    case _ => None
  }

  /** The request's own INSERT made the row. */
  predicate Created(x: Client) {
    x.stage.MustRead? || x.stage.MustQueue? || (x.stage.Responded? && x.stage.created)
  }

  /** The row as the request saw it. */
  ghost predicate SeenAs(x: Client, row: Payment) {
    (x.stage.MustQueue? || x.stage.Responded?) ==> H.SameIdentity(x.stage.payment, row)
  }

  ghost predicate Faithful(s: State, x: Client) {
    && (PaymentOf(x).Some? ==>
          && PaymentOf(x).value in s.db.payments
          && s.db.payments[PaymentOf(x).value].key == x.key
          && SeenAs(x, s.db.payments[PaymentOf(x).value])
          && (Created(x) ==>
              s.db.payments[PaymentOf(x).value].amount == x.amount
              && s.db.payments[PaymentOf(x).value].currency == x.currency))
    && (x.stage.MustFetch? ==> KeyTaken(s.db.payments, x.key))
  }

  ghost predicate Creates(s: State, c: nat, id: nat) {
    c in s.clients && Created(s.clients[c]) && PaymentOf(s.clients[c]) == Some(id)
  }

  ghost predicate NoneCut(s: State) {
    forall c :: c in s.clients ==> !s.clients[c].stage.Gone?
  }

  ghost predicate Idempotent(s: State) {
    && KeysUnique(s.db.payments)
    && (forall c :: c in s.clients ==> Faithful(s, s.clients[c]))
    && (forall b, c, id :: Creates(s, b, id) && Creates(s, c, id) ==> b == c)
    && (NoneCut(s) ==> forall id :: id in s.db.payments ==> exists c :: Creates(s, c, id))
  }

  // ---- Preservation ----------------------------------------------------------------------------------

  /** Rows other than a new one keep their identity, and a new one has a new key. */
  lemma RowsMove(cfg: Config, s: State, l: Label, id: nat)
    requires id in Step(cfg, s, l).db.payments
    ensures id in s.db.payments ==> H.SameIdentity(s.db.payments[id], Step(cfg, s, l).db.payments[id])
    ensures id !in s.db.payments ==>
              && l.Api? && Inserts(s, l.c, l.apiAct) && l.apiAct.id == id
              && Step(cfg, s, l).db.payments[id]
                  == NewPayment(s.clients[l.c].key, s.clients[l.c].amount, s.clients[l.c].currency, cfg.maxAttempts)
  {
    StepIsAWrite(cfg, s, l, id);
  }

  lemma RowsStay(cfg: Config, s: State, l: Label, id: nat)
    requires id in s.db.payments
    ensures id in Step(cfg, s, l).db.payments && H.SameIdentity(s.db.payments[id], Step(cfg, s, l).db.payments[id])
  {
    StepIsAWrite(cfg, s, l, id);
  }

  lemma StepKeepsKeysUnique(cfg: Config, s: State, l: Label)
    requires KeysUnique(s.db.payments)
    ensures KeysUnique(Step(cfg, s, l).db.payments)
  {
    var s' := Step(cfg, s, l);
    forall i, j | i in s'.db.payments && j in s'.db.payments && s'.db.payments[i].key == s'.db.payments[j].key
      ensures i == j
    {
      RowsMove(cfg, s, l, i);
      RowsMove(cfg, s, l, j);
    }
  }

  /** What a label does to one request. */
  lemma ClientsMove(cfg: Config, s: State, l: Label, c: nat)
    requires c in Step(cfg, s, l).clients
    ensures var x' := Step(cfg, s, l).clients[c];
            || (c !in s.clients && x'.stage.Arrived?)
            || (c in s.clients && l.Api? && l.c == c && x' == s.clients[c].(stage := NextStage(s, c, l.apiAct)))
            || (c in s.clients && !(l.Api? && l.c == c) && x' == s.clients[c])
  {
  }

  lemma StepKeepsFaithful(cfg: Config, s: State, l: Label, c: nat)
    requires forall b :: b in s.clients ==> Faithful(s, s.clients[b])
    requires c in Step(cfg, s, l).clients
    ensures Faithful(Step(cfg, s, l), Step(cfg, s, l).clients[c])
  {
    var s' := Step(cfg, s, l);
    var x' := s'.clients[c];
    ClientsMove(cfg, s, l, c);
    if PaymentOf(x').Some? && PaymentOf(x').value in s.db.payments { RowsStay(cfg, s, l, PaymentOf(x').value); }
    if x'.stage.MustFetch? {
      assert KeyTaken(s.db.payments, x'.key);
      var id :| id in s.db.payments && s.db.payments[id].key == x'.key;
      RowsStay(cfg, s, l, id);
    }
  }

  lemma CreatorsMove(cfg: Config, s: State, l: Label, c: nat, id: nat)
    requires Creates(Step(cfg, s, l), c, id)
    ensures Creates(s, c, id) || (l.Api? && l.c == c && Inserts(s, c, l.apiAct) && l.apiAct.id == id)
  {
  }

  lemma CreatorsStay(cfg: Config, s: State, l: Label, c: nat, id: nat)
    requires Creates(s, c, id) && NoneCut(Step(cfg, s, l))
    ensures Creates(Step(cfg, s, l), c, id)
  {
  }

  lemma CutsAreForGood(cfg: Config, s: State, l: Label)
    requires NoneCut(Step(cfg, s, l))
    ensures NoneCut(s)
  {
    forall c | c in s.clients ensures !s.clients[c].stage.Gone? {
      assert c in Step(cfg, s, l).clients;
      ClientsMove(cfg, s, l, c);
    }
  }

  lemma InsertingCreates(cfg: Config, s: State, c: nat, act: ApiAct)
    requires Inserts(s, c, act)
    ensures Creates(Step(cfg, s, Api(c, act)), c, act.id)
  {
  }

  lemma StepKeepsIdempotent(cfg: Config, s: State, l: Label)
    requires Idempotent(s)
    ensures Idempotent(Step(cfg, s, l))
  {
    var s' := Step(cfg, s, l);
    StepKeepsKeysUnique(cfg, s, l);
    forall c | c in s'.clients ensures Faithful(s', s'.clients[c]) { StepKeepsFaithful(cfg, s, l, c); }
    forall b, c, id | Creates(s', b, id) && Creates(s', c, id) ensures b == c {
      CreatorsMove(cfg, s, l, b, id);
      CreatorsMove(cfg, s, l, c, id);
      assert b in s.clients ==> Faithful(s, s.clients[b]);
      assert c in s.clients ==> Faithful(s, s.clients[c]);
    }
    if NoneCut(s') {
      CutsAreForGood(cfg, s, l);
      forall id | id in s'.db.payments ensures exists c :: Creates(s', c, id) {
        RowsMove(cfg, s, l, id);
        if id in s.db.payments {
          var c :| Creates(s, c, id);
          CreatorsStay(cfg, s, l, c, id);
        } else {
          InsertingCreates(cfg, s, l.c, l.apiAct);
        }
      }
    }
  }

  lemma {:induction false} InitiationIsIdempotent(cfg: Config, run: seq<Label>)
    ensures Idempotent(After(cfg, run))
  {
    if |run| > 0 {
      InitiationIsIdempotent(cfg, run[..|run| - 1]);
      StepKeepsIdempotent(cfg, After(cfg, run[..|run| - 1]), run[|run| - 1]);
    }
  }

  // ---- The guarantees --------------------------------------------------------------------------------

  /**
   * In every run: two responses under one key name the same payment with the same amount and currency, and
   * those are the ones of the request that created it.
   */
  lemma SameKeySamePayment(cfg: Config, run: seq<Label>, b: nat, c: nat)
    requires var s := After(cfg, run);
             && b in s.clients && s.clients[b].stage.Responded?
             && c in s.clients && s.clients[c].stage.Responded?
             && s.clients[b].key == s.clients[c].key
    ensures var x, y := After(cfg, run).clients[b], After(cfg, run).clients[c];
            && x.stage.id == y.stage.id
            && x.stage.payment.amount == y.stage.payment.amount && x.stage.payment.currency == y.stage.payment.currency
            && (x.stage.created ==> y.stage.payment.amount == x.amount && y.stage.payment.currency == x.currency)
            && (x.stage.created && y.stage.created ==> b == c)
  {
    InitiationIsIdempotent(cfg, run);
    var s := After(cfg, run);
    assert Faithful(s, s.clients[b]) && Faithful(s, s.clients[c]);
    if s.clients[b].stage.created && s.clients[c].stage.created {
      assert Creates(s, b, s.clients[b].stage.id) && Creates(s, c, s.clients[c].stage.id);
    }
  }

  /** The requests answered with created = true. */
  function Creators(s: State): set<nat> {
    set c | c in s.clients && s.clients[c].stage.Responded? && s.clients[c].stage.created
  }

  /** The keys of all requests answered. */
  function AnsweredKeys(s: State): set<string> {
    set c | c in s.clients && s.clients[c].stage.Responded? :: s.clients[c].key
  }

  lemma {:induction false} InjectiveImage(s: State, cs: set<nat>, keys: set<string>)
    requires forall c :: c in cs ==> c in s.clients && s.clients[c].key in keys
    requires forall key :: key in keys ==> exists c :: c in cs && s.clients[c].key == key
    requires forall b, c :: b in cs && c in cs && s.clients[b].key == s.clients[c].key ==> b == c
    ensures |cs| == |keys|
    decreases cs
  {
    if cs == {} {
      assert keys == {};
    } else {
      var c :| c in cs;
      var key := s.clients[c].key;
      forall k | k in keys - {key} ensures exists b :: b in cs - {c} && s.clients[b].key == k {
        var b :| b in cs && s.clients[b].key == k;
        assert b in cs - {c};
      }
      InjectiveImage(s, cs - {c}, keys - {key});
    }
  }

  lemma CreatorOf(s: State, key: string) returns (c: nat)
    requires Idempotent(s) && key in AnsweredKeys(s)
    requires forall b :: b in s.clients ==> s.clients[b].stage.Responded?
    ensures c in Creators(s) && s.clients[c].key == key
  {
    var b :| b in s.clients && s.clients[b].stage.Responded? && s.clients[b].key == key;
    assert Faithful(s, s.clients[b]);
    c :| Creates(s, c, s.clients[b].stage.id);
    assert Faithful(s, s.clients[c]);
  }

  lemma CreatorsAreDistinct(s: State, b: nat, c: nat)
    requires Idempotent(s) && b in Creators(s) && c in Creators(s) && s.clients[b].key == s.clients[c].key
    ensures b == c
  {
    assert Faithful(s, s.clients[b]) && Faithful(s, s.clients[c]);
    assert Creates(s, b, s.clients[b].stage.id) && Creates(s, c, s.clients[c].stage.id);
  }

  /** When every request has been answered, created = true was said exactly once per distinct key. */
  lemma OneCreationPerKey(cfg: Config, run: seq<Label>)
    requires forall c :: c in After(cfg, run).clients ==> After(cfg, run).clients[c].stage.Responded?
    ensures |Creators(After(cfg, run))| == |AnsweredKeys(After(cfg, run))|
  {
    InitiationIsIdempotent(cfg, run);
    var s := After(cfg, run);
    forall b, c | b in Creators(s) && c in Creators(s) && s.clients[b].key == s.clients[c].key ensures b == c {
      CreatorsAreDistinct(s, b, c);
    }
    forall key | key in AnsweredKeys(s) ensures exists c :: c in Creators(s) && s.clients[c].key == key {
      var c := CreatorOf(s, key);
    }
    InjectiveImage(s, Creators(s), AnsweredKeys(s));
  }
}
