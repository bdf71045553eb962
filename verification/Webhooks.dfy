/**
 Repeated provider events. An event that arrives again right after it was handled changes
 nothing, also when the first delivery attempt failed; so a run over any event list ends
 exactly where a run over the list without adjacent repetitions ends.
 */
module Webhooks {
  import opened Store
  import opened Fulfilment
  import opened Invariants

  /** What the database itself guarantees about payments: unique indexes and the order key. */
  ghost predicate Schema(s: State) {
    Unique(s) && forall y | y in s.payments :: s.payments[y].orderId in s.orders
  }

  /** Two event names that the handler sends down the same path. */
  function Normal(e: Event): Event {
    if e.name.PaymentConfirmed? then e.(name := PaymentReceived)
    else if e.name.PaymentRefundRequested? then e.(name := PaymentRefunded)
    else e
  }

  predicate Repeats(a: Event, b: Event) {
    Normal(a) == Normal(b)
  }

  lemma NormalHandles(s: State, s': State, e: Event, res: WebhookResult)
    ensures Handles(s, s', e, res) <==> Handles(s, s', Normal(e), res)
  {
  }

  /** Events keep payment identities, orders and provider transactions. */
  ghost predicate SameRows(s: State, s': State) {
    && s'.payments.Keys == s.payments.Keys && s.orders.Keys == s'.orders.Keys
    && forall y | y in s.payments ::
         && s'.payments[y].orderId == s.payments[y].orderId
         && s'.payments[y].amount == s.payments[y].amount
         && s'.payments[y].providerTxId == s.payments[y].providerTxId
         && s'.payments[y].expiresAt == s.payments[y].expiresAt
  }

  lemma DeliveryRows(s: State, s': State, o: Id)
    requires DeliversOrParks(s, s', o)
    ensures s'.payments == s.payments && s'.orders.Keys == s.orders.Keys
  {
    hide IsSnapshot, CanDeliver, Allocated;
  }

  lemma ApproveRows(s: State, y: Id)
    requires y in s.payments && s.payments[y].orderId in s.orders
    ensures SameRows(s, Approve(s, y)) && Approve(s, y).payments[y].status.Approved?
  {
  }

  lemma ReceivedRows(s: State, s': State, y: Id, value: EventValue, ok: bool)
    requires y in s.payments && s.payments[y].orderId in s.orders && Receives(s, s', y, value, ok)
    ensures SameRows(s, s')
    ensures s' == s || s'.payments[y].status.Approved?
  {
    if s' != s {
      ApproveRows(s, y);
      DeliveryRows(Approve(s, y), s', s.payments[y].orderId);
    }
  }

  lemma SchemaKept(s: State, s': State)
    requires Schema(s) && SameRows(s, s')
    ensures Schema(s')
  {
  }

  lemma LabelRows(s: State, s': State, y: Id)
    requires y in s.payments
    requires s' == MarkRefunded(s, y) || (s.payments[y].orderId in s.orders && s' == Reject(s, y))
    ensures SameRows(s, s')
  {
  }

  lemma HandlesRows(s: State, s': State, e: Event, res: WebhookResult)
    requires Handles(s, s', e, res)
    ensures SameRows(s, s')
  {
    if s' != s {
      match Normal(e).name
      case PaymentReceived =>
        var y, ok :| ByTx(s, e.tx.value, y) && s.payments[y].orderId in s.orders
                     && Receives(s, s', y, e.value, ok);
        ReceivedRows(s, s', y, e.value, ok);
      case PaymentCancelled =>
        var y :| ByTx(s, e.tx.value, y) && s.payments[y].orderId in s.orders && s' == Reject(s, y);
        LabelRows(s, s', y);
      case PaymentRefunded =>
        var y :| ByTx(s, e.tx.value, y) && s' == MarkRefunded(s, y);
        LabelRows(s, s', y);
    }
  }

  /** The provider transaction identifies the payment, before and after. */
  lemma SamePayment(s: State, s': State, tx: Id, y: Id, z: Id)
    requires Unique(s) && SameRows(s, s') && ByTx(s, tx, y) && ByTx(s', tx, z)
    ensures y == z
  {
  }

  lemma FoundAgain(s: State, s': State, tx: Option<Id>)
    requires SameRows(s, s')
    ensures Found(s, tx) <==> Found(s', tx)
  {
    if Found(s, tx) {
      var y :| ByTx(s, tx.value, y);
      assert ByTx(s', tx.value, y);
    }
    if Found(s', tx) {
      var y :| ByTx(s', tx.value, y);
      assert ByTx(s, tx.value, y);
    }
  }

  lemma ReceivesAgain(
    s: State, s1: State, s2: State, y: Id, value: EventValue, ok: bool, ok2: bool)
    requires y in s.payments && s.payments[y].orderId in s.orders && Receives(s, s1, y, value, ok)
    requires y in s1.payments && s1.payments[y].orderId in s1.orders
    ensures Receives(s1, s2, y, value, ok2) <==> s2 == s1 && ok2 == ok
  {
    ReceivedRows(s, s1, y, value, ok);
  }

  lemma ReceivedTwice(s: State, s1: State, s2: State, e: Event, r1: WebhookResult, r2: WebhookResult)
    requires Schema(s) && HandlesReceived(s, s1, e, r1)
    ensures HandlesReceived(s1, s2, e, r2) <==> s2 == s1 && r2 == r1
  {
    if Found(s, e.tx) {
      var y, ok :| ByTx(s, e.tx.value, y) && s.payments[y].orderId in s.orders
                   && Receives(s, s1, y, e.value, ok) && r1 == if ok then DONE else FAILED;
      ReceivedRows(s, s1, y, e.value, ok);
      FoundAgain(s, s1, e.tx);
      assert ByTx(s1, e.tx.value, y);
      ReceivesAgain(s, s1, s1, y, e.value, ok, ok);
      if HandlesReceived(s1, s2, e, r2) {
        var z, ok2 :| ByTx(s1, e.tx.value, z) && s1.payments[z].orderId in s1.orders
                      && Receives(s1, s2, z, e.value, ok2) && r2 == if ok2 then DONE else FAILED;
        SamePayment(s, s1, e.tx.value, y, z);
        ReceivesAgain(s, s1, s2, y, e.value, ok, ok2);
      }
    }
  }

  lemma RefundMarked(s: State, s1: State, y: Id)
    requires y in s.payments && s1 == if s.payments[y].status.Refunded? then s else MarkRefunded(s, y)
    ensures SameRows(s, s1) && y in s1.payments && s1.payments[y].status.Refunded?
    ensures s1.payments[y].providerTxId == s.payments[y].providerTxId
  {
  }

  lemma RefundedTwice(s: State, s1: State, s2: State, e: Event, r1: WebhookResult, r2: WebhookResult)
    requires Schema(s) && HandlesRefunded(s, s1, e, r1)
    ensures HandlesRefunded(s1, s2, e, r2) <==> s2 == s1 && r2 == r1
  {
    hide Unique, SameRows, MarkRefunded;
    if Found(s, e.tx) {
      var y :| ByTx(s, e.tx.value, y)
               && s1 == if s.payments[y].status.Refunded? then s else MarkRefunded(s, y);
      RefundMarked(s, s1, y);
      FoundAgain(s, s1, e.tx);
      assert ByTx(s1, e.tx.value, y);
      if HandlesRefunded(s1, s2, e, r2) {
        var z :| ByTx(s1, e.tx.value, z)
                 && s2 == if s1.payments[z].status.Refunded? then s1 else MarkRefunded(s1, z);
        SamePayment(s, s1, e.tx.value, y, z);
      }
    }
  }

  lemma RejectTwice(s: State, y: Id)
    requires y in s.payments && s.payments[y].orderId in s.orders
    ensures y in Reject(s, y).payments && s.payments[y].orderId in Reject(s, y).orders
    ensures SameRows(s, Reject(s, y))
    ensures Reject(Reject(s, y), y) == Reject(s, y)
  {
    var r := Reject(s, y);
    assert r.payments[y := r.payments[y]] == r.payments;
    assert r.orders[r.payments[y].orderId := r.orders[r.payments[y].orderId]] == r.orders;
  }

  lemma CancelledTwice(s: State, s1: State, s2: State, e: Event, r1: WebhookResult, r2: WebhookResult)
    requires Schema(s) && HandlesCancelled(s, s1, e, r1)
    ensures HandlesCancelled(s1, s2, e, r2) <==> s2 == s1 && r2 == r1
  {
    if Found(s, e.tx) {
      var y :| ByTx(s, e.tx.value, y) && s.payments[y].orderId in s.orders && s1 == Reject(s, y);
      RejectTwice(s, y);
      FoundAgain(s, s1, e.tx);
      assert ByTx(s1, e.tx.value, y) && Reject(s1, y) == s1;
      if HandlesCancelled(s1, s2, e, r2) {
        var z :| ByTx(s1, e.tx.value, z) && s1.payments[z].orderId in s1.orders && s2 == Reject(s1, z);
        SamePayment(s, s1, e.tx.value, y, z);
      }
    }
  }

  /** Handling an event right after it was handled does nothing, and answers the same. */
  lemma HandledTwice(s: State, s1: State, s2: State, e: Event, r1: WebhookResult, r2: WebhookResult)
    requires Schema(s) && Handles(s, s1, e, r1)
    ensures Handles(s1, s2, e, r2) <==> s2 == s1 && r2 == r1
  {
    match e.name
    case PaymentReceived => ReceivedTwice(s, s1, s2, e, r1, r2);
    case PaymentConfirmed => ReceivedTwice(s, s1, s2, e, r1, r2);
    case PaymentRefunded => RefundedTwice(s, s1, s2, e, r1, r2);
    case PaymentRefundRequested => RefundedTwice(s, s1, s2, e, r1, r2);
    case PaymentCancelled => CancelledTwice(s, s1, s2, e, r1, r2);
    case PaymentOverdue =>
    case WithdrawalRequested =>
    case CheckoutRefundRequest =>
    case Other =>
  }

  // ---- event lists ----

  ghost predicate EventRun(s: State, es: seq<Event>, s': State)
    decreases |es|
  {
    if es == [] then s' == s
    else exists m, r :: Handles(s, m, es[0], r) && EventRun(m, es[1..], s')
  }

  /** The list with every event dropped that repeats the one after it. */
  function Dedup(es: seq<Event>): seq<Event> {
    if |es| < 2 then es
    else if Repeats(es[0], es[1]) then Dedup(es[1..])
    else [es[0]] + Dedup(es[1..])
  }

  /** A repeated head can go. */
  lemma DropRepeat(s: State, es: seq<Event>, s': State)
    requires Schema(s) && |es| >= 2 && Repeats(es[0], es[1])
    ensures EventRun(s, es, s') <==> EventRun(s, es[1..], s')
  {
    var a, b, rest := es[0], es[1], es[1..][1..];
    forall m, r
      ensures Handles(s, m, a, r) <==> Handles(s, m, b, r)
      ensures Handles(s, m, a, r) ==>
        (EventRun(m, es[1..], s') <==> EventRun(m, rest, s'))
    {
      NormalHandles(s, m, a, r);
      NormalHandles(s, m, b, r);
      if Handles(s, m, b, r) {
        forall m2, r2
          ensures Handles(m, m2, b, r2) <==> m2 == m && r2 == r
        {
          HandledTwice(s, m, m2, b, r, r2);
        }
        assert Handles(m, m, b, r);
      }
    }
  }

  /** Webhook stuttering: adjacent repetitions do not change which states can be reached. */
  lemma {:induction false} Stuttering(s: State, es: seq<Event>, s': State)
    requires Schema(s)
    ensures EventRun(s, es, s') <==> EventRun(s, Dedup(es), s')
    decreases |es|
  {
    if |es| >= 2 {
      if Repeats(es[0], es[1]) {
        DropRepeat(s, es, s');
        Stuttering(s, es[1..], s');
      } else {
        var short := [es[0]] + Dedup(es[1..]);
        assert short[1..] == Dedup(es[1..]);
        forall m, r | Handles(s, m, es[0], r)
          ensures EventRun(m, es[1..], s') <==> EventRun(m, short[1..], s')
        {
          HandlesRows(s, m, es[0], r);
          SchemaKept(s, m);
          Stuttering(m, es[1..], s');
        }
        assert short != [] && short[0] == es[0];
        assert EventRun(s, es, s') <==> exists m, r :: Handles(s, m, es[0], r) && EventRun(m, es[1..], s');
        assert EventRun(s, short, s') <==>
          exists m, r :: Handles(s, m, short[0], r) && EventRun(m, short[1..], s');
      }
    }
  }
}
