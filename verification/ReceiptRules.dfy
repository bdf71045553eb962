/**
 What provider events may do, in the numbers of the events and the rows: which amounts approve a
 payment, what an approval does to the order, and how every event is answered.
 */
module ReceiptRules {
  import opened Store
  import opened Fulfilment
  import opened Invariants
  import opened OrderInvariants
  import opened PaymentInvariants
  import opened Runs
  import Refunds
  import OrderRules
  import opened UnitRules

  predicate Approved(s: State, y: Id) {
    y in s.payments && s.payments[y].status.Approved?
  }

  /** The event names the payment's provider transaction. */
  predicate Names(e: Event, pay: Payment) {
    e.tx.Some? && pay.providerTxId == e.tx
  }

  /** No amount came along, or one within a cent of what is due. */
  predicate RightAmount(due: real, v: EventValue) {
    match v
    case Missing => true
    case NotANumber => false
    case Amount(received) => due - received <= 0.01 && received - due <= 0.01
  }

  // ---- only a receipt of the right amount approves ----

  lemma ReceivesApproves(s: State, s': State, z: Id, value: EventValue, ok: bool, y: Id)
    requires z in s.payments && s.payments[z].orderId in s.orders && Receives(s, s', z, value, ok)
    requires !Approved(s, y) && Approved(s', y)
    ensures y == z && RightAmount(s.payments[z].amount, value)
    ensures !s.orders[s.payments[z].orderId].status.Paid?
  {
    hide CanDeliver, IsSnapshot, Allocated;
  }

  lemma EventApproves(s: State, s': State, e: Event, res: WebhookResult, y: Id)
    requires Handles(s, s', e, res) && !Approved(s, y) && Approved(s', y)
    ensures e.name.PaymentReceived? || e.name.PaymentConfirmed?
    ensures y in s.payments && Names(e, s.payments[y]) && RightAmount(s.payments[y].amount, e.value)
    ensures s.payments[y].orderId in s.orders && !s.orders[s.payments[y].orderId].status.Paid?
  {
    hide Receives, RightAmount;
    if (e.name.PaymentReceived? || e.name.PaymentConfirmed?) && Found(s, e.tx) {
      var z, ok :| ByTx(s, e.tx.value, z) && s.payments[z].orderId in s.orders
                   && Receives(s, s', z, e.value, ok);
      ReceivesApproves(s, s', z, e.value, ok, y);
    }
  }

  lemma RequestApprovesNothing(s: State, r: PayRequest, res: PayResult, y: Id)
    requires Pays(s, r, res) && Approved(res.state, y)
    ensures Approved(s, y)
  {
    hide Compatible, Within, TxTaken, PixStillOpen, KeptKey;
  }

  /**
   In any run a payment becomes APPROVED only by a receipt that names its transaction, with no
   amount or one within a cent of what is due, and only while its order is not PAID.
   */
  lemma ApprovedByReceipt(w: World, w': World, op: Op, y: Id)
    requires Next(w, w', op) && !Approved(w.db, y) && Approved(w'.db, y)
    ensures op.Webhook? && (op.event.name.PaymentReceived? || op.event.name.PaymentConfirmed?)
    ensures y in w.db.payments && Names(op.event, w.db.payments[y])
    ensures RightAmount(w.db.payments[y].amount, op.event.value)
    ensures w.db.payments[y].orderId in w.db.orders && !w.db.orders[w.db.payments[y].orderId].status.Paid?
  {
    if op.Webhook? {
      hide Handles, RightAmount;
      var res :| Handles(w.db, w'.db, op.event, res);
      EventApproves(w.db, w'.db, op.event, res, y);
    } else if op.Pay? {
      hide Pays;
      var res :| Pays(w.db, op.request, res) && w' == w.(db := res.state);
      RequestApprovesNothing(w.db, op.request, res, y);
    } else if op.FinishRefund? {
    } else {
      hide Next;
      Refunds.OtherPayments(w, w', op);
    }
  }

  // ---- and such a receipt does approve, deliver or park ----

  /** Every item of the order has a unit, or none has. */
  predicate AllFilled(s: State, o: Id) {
    forall i | i in s.items && s.items[i].orderId == o :: s.items[i].keyId.Some? || s.items[i].accountId.Some?
  }

  predicate NoneFilled(s: State, o: Id) {
    forall i | i in s.items && s.items[i].orderId == o :: s.items[i].keyId.None? && s.items[i].accountId.None?
  }

  lemma ReceivesRight(s: State, s': State, y: Id, value: EventValue, ok: bool)
    requires Inv(s) && y in s.payments && s.payments[y].orderId in s.orders && Receives(s, s', y, value, ok)
    requires !Approved(s, y) && !s.orders[s.payments[y].orderId].status.Paid?
    ensures ok <==> RightAmount(s.payments[y].amount, value)
    ensures !ok ==> s' == s
    ensures ok ==> Settles(s, s', y)
  {
    if ok {
      DeliveredOrParked(s, s', y);
    }
  }

  /** The payment is APPROVED; its order is DELIVERED with all items filled, or PROCESSING with none. */
  ghost predicate Settles(s: State, s': State, y: Id)
    requires y in s.payments
  {
    && s'.payments == s.payments[y := s.payments[y].(status := PaymentStatus.Approved, idempotencyKey := None)]
    && s'.coupons == s.coupons && s'.orders.Keys == s.orders.Keys && s.payments[y].orderId in s.orders
    && (forall x | x in s.orders && x != s.payments[y].orderId :: s'.orders[x] == s.orders[x])
    && var o := s.payments[y].orderId;
       || (s'.orders[o].status == OrderStatus.Delivered && AllFilled(s', o))
       || (s'.orders[o].status == OrderStatus.Processing && NoneFilled(s', o))
  }

  /** A committed delivery leaves the order DELIVERED with every item filled. */
  lemma CommittedFills(s: State, s': State, o: Id, lines: seq<Line>)
    requires IsSnapshot(s, o, lines) && Committed(s, s', o, lines)
    ensures o in s'.orders && s'.orders[o].status == OrderStatus.Delivered && AllFilled(s', o)
    ensures s'.payments == s.payments && s'.coupons == s.coupons && s'.orders.Keys == s.orders.Keys
    ensures forall x | x in s.orders && x != o :: s'.orders[x] == s.orders[x]
  {
    AllocatedKeys(s, s', lines);
    forall i | i in s'.items && s'.items[i].orderId == o
      ensures HasUnit(s'.items[i])
    {
      AllocatedItemKept(s, s', lines, i);
      assert i in ItemsOf(s, o);
      var l :| l in lines && l.id == i;
      AllocatedItem(s, s', lines, i);
      if Wants(l) {
        assert Gets(s, s', l);
      } else if i !in Served(lines) {
        assert l == LineOf(s, i);
      }
    }
  }

  lemma DeliveredOrParked(s: State, s': State, y: Id)
    requires Linked(s) && Attached(s) && AllOrNothing(s) && y in s.payments && s.payments[y].orderId in s.orders
    requires DeliversOrParks(Approve(s, y), s', s.payments[y].orderId)
    ensures Settles(s, s', y)
  {
    hide CanDeliver, Allocated, Linked, Attached, AllOrNothing, AllFilled, IsSnapshot;
    var o, s1 := s.payments[y].orderId, Approve(s, y);
    var lines :| IsSnapshot(s1, o, lines)
      && if CanDeliver(s1, o, lines) then Committed(s1, s', o, lines)
         else s' == SetStatus(s1, o, OrderStatus.Processing);
    ApproveInventory(s, y);
    if CanDeliver(s1, o, lines) {
      CommittedFills(s1, s', o, lines);
    } else {
      ParkedEmpty(s, s1, o, lines);
      assert forall i | i in s'.items && s'.items[i].orderId == o :: i in ItemsOf(s, o);
    }
  }

  /**
   A receipt for a payment that is not APPROVED, of an order that is not PAID: the right amount
   approves it and settles the order, any other amount changes nothing and is not processed.
   */
  lemma ReceiptDecides(s: State, s': State, e: Event, res: WebhookResult, y: Id)
    requires Inv(s) && Handles(s, s', e, res) && (e.name.PaymentReceived? || e.name.PaymentConfirmed?)
    requires y in s.payments && Names(e, s.payments[y])
    requires !Approved(s, y) && !s.orders[s.payments[y].orderId].status.Paid?
    ensures if RightAmount(s.payments[y].amount, e.value)
            then Settles(s, s', y) && res.processed
            else s' == s && !res.processed
  {
    hide Linked, Attached, AllOrNothing, StockAgrees, QuotaKept, Numbers, Receives, Settles, RightAmount;
    assert ByTx(s, e.tx.value, y);
    var z, ok :| ByTx(s, e.tx.value, z) && s.payments[z].orderId in s.orders
                 && Receives(s, s', z, e.value, ok) && res == if ok then DONE else FAILED;
    assert z == y;
    ReceivesRight(s, s', y, e.value, ok);
  }

  /** A receipt for a payment that is APPROVED, or whose order is PAID, changes nothing. */
  lemma ReceiptSkipped(s: State, s': State, e: Event, res: WebhookResult, y: Id)
    requires PaymentsAgree(s) && Handles(s, s', e, res) && (e.name.PaymentReceived? || e.name.PaymentConfirmed?)
    requires y in s.payments && Names(e, s.payments[y])
    requires Approved(s, y) || s.orders[s.payments[y].orderId].status.Paid?
    ensures s' == s && (res.processed <==> RightAmount(s.payments[y].amount, e.value))
  {
    hide DeliversOrParks;
    assert ByTx(s, e.tx.value, y);
    var z, ok :| ByTx(s, e.tx.value, z) && s.payments[z].orderId in s.orders
                 && Receives(s, s', z, e.value, ok) && res == if ok then DONE else FAILED;
    assert z == y;
  }

  /** The items of the order that ask for a unit of product `p`. */
  function Asking(s: State, o: Id, p: Id): set<Id> {
    set i | i in s.items && s.items[i].orderId == o && s.items[i].productId == p
            && s.items[i].keyId.None? && s.items[i].accountId.None?
  }

  /** Units enough of every product, and none that names an item of the order already. */
  ghost predicate Supplied(s: State, o: Id) {
    && (forall p | p in s.products :: |Asking(s, o, p)| <= |Sellable(s, s.products[p].productType, p)|)
    && (forall i | i in s.items && s.items[i].orderId == o && s.items[i].keyId.None? && s.items[i].accountId.None? ::
          && (forall u | u in s.keys :: s.keys[u].orderItemId != Some(i))
          && (forall u | u in s.accounts :: s.accounts[u].orderItemId != Some(i)))
  }

  lemma LinesAsking(s: State, o: Id, lines: seq<Line>, t: ProductType, p: Id)
    requires Linked(s) && Attached(s) && o in s.orders && IsSnapshot(s, o, lines)
    ensures OrderRules.Unserved(lines, t, p) <= Asking(s, o, p)
    ensures OrderRules.Unserved(lines, t, p) != {} ==> p in s.products && s.products[p].productType == t
  {
    SnapshotCurrent(s, o, lines);
    forall i | i in OrderRules.Unserved(lines, t, p)
      ensures i in Asking(s, o, p) && p in s.products && s.products[p].productType == t
    {
      var l :| l in lines && l.productType == t && l.productId == p && l.id == i && Wants(l);
      assert i in Ids(lines) && l == LineOf(s, i);
    }
  }

  lemma Smaller(a: set<Id>, b: set<Id>)
    requires a <= b
    ensures |a| <= |b|
  {
    assert b == a + (b - a);
  }

  lemma SuppliedDelivers(s: State, o: Id, lines: seq<Line>)
    requires Linked(s) && Attached(s) && o in s.orders && s.orders[o].status.Paid? && IsSnapshot(s, o, lines)
    requires Supplied(s, o)
    ensures CanDeliver(s, o, lines)
  {
    SnapshotCurrent(s, o, lines);
    forall t, p
      ensures |OrderRules.Unserved(lines, t, p)| <= |Sellable(s, t, p)|
    {
      LinesAsking(s, o, lines, t, p);
      Smaller(OrderRules.Unserved(lines, t, p), Asking(s, o, p));
    }
    forall l | l in lines
      ensures l.quantity == 1
      ensures Wants(l) ==> !OrderRules.Taken(s, l)
    {
      assert l.id in Ids(lines) && l == LineOf(s, l.id);
    }
    OrderRules.DeliverableExactly(s, o, lines);
  }

  /** When there are units enough, the approval does not park the order but delivers it. */
  lemma EnoughDelivers(s: State, s': State, e: Event, res: WebhookResult, y: Id)
    requires Inv(s) && Handles(s, s', e, res) && (e.name.PaymentReceived? || e.name.PaymentConfirmed?)
    requires y in s.payments && Names(e, s.payments[y]) && RightAmount(s.payments[y].amount, e.value)
    requires !Approved(s, y) && !s.orders[s.payments[y].orderId].status.Paid?
    requires Supplied(s, s.payments[y].orderId)
    ensures s.payments[y].orderId in s'.orders
    ensures s'.orders[s.payments[y].orderId].status == OrderStatus.Delivered
  {
    hide Linked, Attached, AllOrNothing, StockAgrees, QuotaKept, Numbers, Receives, RightAmount, Supplied;
    assert ByTx(s, e.tx.value, y);
    var z, ok :| ByTx(s, e.tx.value, z) && s.payments[z].orderId in s.orders
                 && Receives(s, s', z, e.value, ok) && res == if ok then DONE else FAILED;
    assert z == y;
    ReceivesRight(s, s', y, e.value, ok);
    DeliversWhenSupplied(s, s', y, e.value);
  }

  lemma DeliversWhenSupplied(s: State, s': State, y: Id, value: EventValue)
    requires Linked(s) && Attached(s) && y in s.payments && s.payments[y].orderId in s.orders
    requires Receives(s, s', y, value, true) && Supplied(s, s.payments[y].orderId)
    requires !Approved(s, y) && !s.orders[s.payments[y].orderId].status.Paid?
    ensures s.payments[y].orderId in s'.orders
    ensures s'.orders[s.payments[y].orderId].status == OrderStatus.Delivered
  {
    hide Linked, Attached, Supplied, IsSnapshot, CanDeliver, Allocated;
    var o, s1 := s.payments[y].orderId, Approve(s, y);
    ApproveInventory(s, y);
    SameSupplied(s, s1, o);
    var lines :| IsSnapshot(s1, o, lines)
      && if CanDeliver(s1, o, lines) then Committed(s1, s', o, lines)
         else s' == SetStatus(s1, o, OrderStatus.Processing);
    SuppliedDelivers(s1, o, lines);
  }

  lemma SameSupplied(s: State, s1: State, o: Id)
    requires Supplied(s, o)
    requires s1.items == s.items && s1.keys == s.keys && s1.accounts == s.accounts && s1.products == s.products
    ensures Supplied(s1, o)
  {
    forall p | p in s.products
      ensures Asking(s1, o, p) == Asking(s, o, p)
      ensures Sellable(s1, s1.products[p].productType, p) == Sellable(s, s.products[p].productType, p)
    {
    }
  }

  // ---- the other events, and the answers ----

  /** A refund event marks exactly the payment it names. */
  lemma RefundEventMarks(s: State, s': State, e: Event, res: WebhookResult, y: Id)
    requires Unique(s) && Handles(s, s', e, res) && y in s.payments && Names(e, s.payments[y])
    requires e.name.PaymentRefunded? || e.name.PaymentRefundRequested?
    ensures s' == s.(payments := s.payments[y := s.payments[y].(status := PaymentStatus.Refunded)])
    ensures res.processed && res.authorization.NoAnswer?
  {
    hide Unique;
    assert ByTx(s, e.tx.value, y);
    var z :| ByTx(s, e.tx.value, z) && s' == if s.payments[z].status.Refunded? then s else MarkRefunded(s, z);
    Refunds.SameTx(s, e.tx.value, y, z);
    if s.payments[y].status.Refunded? {
      assert s.payments[y := s.payments[y]] == s.payments;
    }
  }

  /** A cancellation rejects exactly the payment it names, and cancels exactly that payment's order. */
  lemma CancellationMarks(s: State, s': State, e: Event, res: WebhookResult, y: Id)
    requires Unique(s) && Handles(s, s', e, res) && y in s.payments && Names(e, s.payments[y])
    requires e.name.PaymentCancelled? && s.payments[y].orderId in s.orders
    ensures var o := s.payments[y].orderId;
      s' == s.(payments := s.payments[y := s.payments[y].(status := PaymentStatus.Rejected)],
               orders := s.orders[o := s.orders[o].(status := OrderStatus.Cancelled)])
    ensures res.processed && res.authorization.NoAnswer?
  {
    hide Unique;
    assert ByTx(s, e.tx.value, y);
    var z :| ByTx(s, e.tx.value, z) && s.payments[z].orderId in s.orders && s' == Reject(s, z);
    Refunds.SameTx(s, e.tx.value, y, z);
  }

  /** Events that name no stored payment change nothing; what the provider is told. */
  lemma EventUnknown(s: State, s': State, e: Event, res: WebhookResult)
    requires Handles(s, s', e, res)
    requires e.tx.None? || forall y | y in s.payments :: s.payments[y].providerTxId != e.tx
    ensures s' == s
    ensures e.name.PaymentReceived? || e.name.PaymentConfirmed? ==>
      !res.processed && res.authorization.AuthorizeRejected?
    ensures e.name.PaymentRefunded? || e.name.PaymentRefundRequested? || e.name.PaymentCancelled? ==>
      if e.tx.None? then res.processed && res.authorization.NoAnswer?
      else !res.processed && res.authorization.AuthorizeRejected?
  {
    assert !Found(s, e.tx);
  }

  /** Authorisation requests are granted when they carry data, refused otherwise; nothing changes. */
  lemma EventQuiet(s: State, s': State, e: Event, res: WebhookResult)
    requires Handles(s, s', e, res)
    ensures e.name.WithdrawalRequested? || e.name.CheckoutRefundRequest? ==>
      && s' == s && res.processed
      && (res.authorization.AuthorizeApproved? <==> e.hasWithdrawal)
      && (res.authorization.AuthorizeRejected? <==> !e.hasWithdrawal)
    ensures e.name.PaymentOverdue? ==> s' == s && res.processed && res.authorization.NoAnswer?
    ensures e.name.Other? ==> s' == s && !res.processed && res.authorization.NoAnswer?
  {
    hide HandlesReceived, HandlesRefunded, HandlesCancelled;
  }
}
