/** The invariant through payment requests, refunds and provider events. */
module PaymentInvariants {
  import opened Store
  import opened Fulfilment
  import opened Invariants
  import opened OrderInvariants

  // ---- payment rows ----

  /** Only payment rows and the counter differ. */
  ghost predicate PaymentStep(s: State, s': State) {
    && s' == s.(payments := s'.payments, nextId := s'.nextId)
    && s.nextId <= s'.nextId
    && (forall y | y in s'.payments :: y < s'.nextId)
    && PaymentsAgree(s')
  }

  lemma PaymentStepKeeps(s: State, s': State)
    requires Inv(s) && PaymentStep(s, s')
    ensures Inv(s') && Grows(s, s')
  {
    SameInventoryKeeps(s, s');
    SameInventoryNumbers(s, s');
    SameInventoryGrows(s, s');
    CarryingKept(s, s');
  }

  /** A pending row may come in for an order that has none, with an unused provider transaction. */
  lemma AddPayment(s: State, pay: Payment)
    requires Numbers(s) && PaymentsAgree(s) && pay.status.Pending? && pay.orderId in s.orders
    requires forall y | y in s.payments :: s.payments[y].orderId != pay.orderId
    requires pay.providerTxId.Some? ==> !TxTaken(s, pay.providerTxId.value, None)
    ensures PaymentStep(s, s.(payments := s.payments[s.nextId := pay], nextId := s.nextId + 1))
  {
  }

  /** A pending row may be rewritten for its own order, with a provider transaction no other row uses. */
  lemma RewritePayment(s: State, y: Id, pay: Payment)
    requires Numbers(s) && PaymentsAgree(s) && y in s.payments
    requires pay.status.Pending? && pay.orderId == s.payments[y].orderId
    requires pay.providerTxId.Some? ==> !TxTaken(s, pay.providerTxId.value, Some(y))
    ensures PaymentStep(s, s.(payments := s.payments[y := pay]))
  {
  }

  lemma PaysStep(s: State, r: PayRequest, res: PayResult)
    requires Numbers(s) && PaymentsAgree(s) && Pays(s, r, res)
    ensures PaymentStep(s, res.state)
  {
    hide FirstPix, NextPix, PlainPayment, Compatible, PaymentsAgree, PaymentStep;
    UnmovedStep(s);
    if PayableBy(s, r) {
      if exists y :: PaymentOf(s, r.orderId, y) {
        var y :| PaymentOf(s, r.orderId, y) && (res == NextPix(s, y, r) || res.state == s);
        NextPixStep(s, y, r);
      } else {
        FirstPayStep(s, r);
      }
    }
  }

  lemma UnmovedStep(s: State)
    requires Numbers(s) && PaymentsAgree(s)
    ensures PaymentStep(s, s)
  {
  }

  lemma NextPixStep(s: State, y: Id, r: PayRequest)
    requires Numbers(s) && PaymentsAgree(s) && PaymentOf(s, r.orderId, y)
    ensures PaymentStep(s, NextPix(s, y, r).state)
  {
    var res := NextPix(s, y, r);
    if res.outcome.Stored? {
      RewritePayment(s, y, res.state.payments[y]);
    }
  }

  lemma FirstPayStep(s: State, r: PayRequest)
    requires Numbers(s) && PaymentsAgree(s) && r.orderId in s.orders
    requires !exists y :: PaymentOf(s, r.orderId, y)
    ensures PaymentStep(s, FirstPix(s, r).state) && PaymentStep(s, PlainPayment(s, r).state)
  {
    hide PaymentsAgree, PaymentStep;
    UnmovedStep(s);
    assert forall y | y in s.payments && s.payments[y].orderId == r.orderId :: PaymentOf(s, r.orderId, y);
    if FirstPix(s, r).outcome.Stored? {
      AddPayment(s, FirstPix(s, r).state.payments[s.nextId]);
    }
    AddPayment(s, PlainPayment(s, r).state.payments[s.nextId]);
  }

  lemma PaysKeeps(s: State, r: PayRequest, res: PayResult)
    requires Inv(s) && Pays(s, r, res)
    ensures Inv(res.state) && Grows(s, res.state)
  {
    PaysStep(s, r, res);
    PaymentStepKeeps(s, res.state);
  }

  lemma WriteRefundKeeps(s: State, y: Id)
    requires Inv(s) && y in s.payments
    ensures Inv(WriteRefund(s, y)) && Grows(s, WriteRefund(s, y))
  {
    PaymentStepKeeps(s, WriteRefund(s, y));
  }

  lemma CreateCouponKeeps(s: State, c: Coupon)
    requires Inv(s)
    ensures Inv(CreateCoupon(s, c)) && Grows(s, CreateCoupon(s, c))
  {
    var s' := CreateCoupon(s, c);
    SameInventoryKeeps(s, s');
    SameInventoryNumbers(s, s');
    SameInventoryGrows(s, s');
    forall c | c in s'.coupons
      ensures Carrying(s', c) == Carrying(s, c)
    {
    }
    assert Carrying(s', s.nextId) == {};
  }

  // ---- events ----

  lemma {:induction false} NoDemand(lines: seq<Line>, t: ProductType, p: Id)
    requires forall l | l in lines :: !Wants(l)
    ensures Demand(lines, t, p) == 0
  {
    if lines != [] {
      NoDemand(lines[..|lines| - 1], t, p);
    }
  }

  /** In a fresh snapshot a filled item never asks for another unit. */
  lemma SnapshotCurrent(s: State, o: Id, lines: seq<Line>)
    requires Linked(s) && Attached(s) && o in s.orders && IsSnapshot(s, o, lines)
    ensures Current(s, lines)
  {
    forall l | l in lines && Wants(l)
      ensures !HasUnit(s.items[l.id])
    {
      if HasUnit(s.items[l.id]) {
        OwnSlot(s, l.id);
      }
    }
  }

  /** A PAID order whose items are all filled is delivered again without touching the inventory. */
  lemma FilledDelivers(s: State, o: Id, lines: seq<Line>)
    requires Linked(s) && Attached(s) && o in s.orders && s.orders[o].status.Paid? && IsSnapshot(s, o, lines)
    requires forall i | i in ItemsOf(s, o) :: HasUnit(s.items[i])
    ensures CanDeliver(s, o, lines)
  {
    SnapshotCurrent(s, o, lines);
    forall l | l in lines
      ensures !Wants(l)
    {
      assert l.id in Ids(lines);
    }
    forall t, p
      ensures Demand(lines, t, p) == 0
    {
      NoDemand(lines, t, p);
    }
  }

  lemma ApproveStatusStep(s: State, y: Id, status: OrderStatus)
    requires AllOrNothing(s) && PaymentsAgree(s) && y in s.payments
    requires var o := s.payments[y].orderId;
      status.Delivered? || (status.Processing? && forall i | i in ItemsOf(s, o) :: !HasUnit(s.items[i]))
    ensures StatusStep(s, SetStatus(Approve(s, y), s.payments[y].orderId, status))
  {
  }

  lemma ApproveInventory(s: State, y: Id)
    requires y in s.payments && s.payments[y].orderId in s.orders && Linked(s) && Attached(s)
    ensures Linked(Approve(s, y)) && Attached(Approve(s, y))
  {
    assert forall t :: Rows(Approve(s, y), t) == Rows(s, t);
  }

  lemma RejectStep(s: State, y: Id)
    requires AllOrNothing(s) && PaymentsAgree(s) && y in s.payments
    ensures StatusStep(s, Reject(s, y))
  {
  }

  lemma RejectKeeps(s: State, y: Id)
    requires Inv(s) && y in s.payments
    ensures Inv(Reject(s, y)) && Grows(s, Reject(s, y))
  {
    RejectStep(s, y);
    hide StatusStep, Linked, Attached, StockAgrees, AllOrNothing, QuotaKept, Grows;
    StatusStepKeeps(s, Reject(s, y));
  }

  lemma MarkRefundedStep(s: State, y: Id)
    requires Numbers(s) && PaymentsAgree(s) && y in s.payments
    ensures PaymentStep(s, MarkRefunded(s, y))
  {
  }

  lemma MarkRefundedKeeps(s: State, y: Id)
    requires Inv(s) && y in s.payments
    ensures Inv(MarkRefunded(s, y)) && Grows(s, MarkRefunded(s, y))
  {
    MarkRefundedStep(s, y);
    hide PaymentStep, Linked, Attached, StockAgrees, AllOrNothing, QuotaKept, Grows;
    PaymentStepKeeps(s, MarkRefunded(s, y));
  }

  /** The order and payment tables do not enter `Grows` beyond their keys. */
  lemma GrowsFromApproved(s: State, y: Id, s': State)
    requires y in s.payments && s.payments[y].orderId in s.orders && Grows(Approve(s, y), s')
    ensures Grows(s, s')
  {
    assert forall t :: Rows(Approve(s, y), t) == Rows(s, t);
  }

  lemma ReceivesKeeps(s: State, s': State, y: Id, value: EventValue, ok: bool)
    requires Inv(s) && y in s.payments && Receives(s, s', y, value, ok)
    ensures Inv(s') && Grows(s, s')
  {
    var o := s.payments[y].orderId;
    var s1 := Approve(s, y);
    hide Inv, Committed, CanDeliver, IsSnapshot, StatusStep, Grows, ReadOk, Current;
    if DeliversOrParks(s1, s', o) && s' != s {
      var lines :| IsSnapshot(s1, o, lines)
        && if CanDeliver(s1, o, lines) then Committed(s1, s', o, lines)
           else s' == SetStatus(s1, o, OrderStatus.Processing);
      ApproveStatusStep(s, y, OrderStatus.Delivered);
      StatusStepKeeps(s, SetStatus(s1, o, OrderStatus.Delivered));
      UnmarkInventory(s1, o);
      if CanDeliver(s1, o, lines) {
        SnapshotReadOk(s1, o, lines);
        SnapshotCurrent(s1, o, lines);
        CommittedKeeps(s1, s', o, lines);
        GrowsFromApproved(s, y, s');
      } else {
        ParkedEmpty(s, s1, o, lines);
        ApproveStatusStep(s, y, OrderStatus.Processing);
        StatusStepKeeps(s, s');
      }
    }
  }

  /** An order that cannot be delivered has no filled item. */
  lemma ParkedEmpty(s: State, s1: State, o: Id, lines: seq<Line>)
    requires AllOrNothing(s) && s1.items == s.items
    requires Linked(s1) && Attached(s1) && o in s1.orders && s1.orders[o].status.Paid?
    requires IsSnapshot(s1, o, lines) && !CanDeliver(s1, o, lines)
    ensures forall i | i in ItemsOf(s, o) :: !HasUnit(s.items[i])
  {
    if i :| i in ItemsOf(s, o) && HasUnit(s.items[i]) {
      FilledDelivers(s1, o, lines);
    }
  }

  lemma HandlesKeeps(s: State, s': State, e: Event, res: WebhookResult)
    requires Inv(s) && Handles(s, s', e, res)
    ensures Inv(s') && Grows(s, s')
  {
    match e.name
    case PaymentReceived => ReceivedKeeps(s, s', e, res);
    case PaymentConfirmed => ReceivedKeeps(s, s', e, res);
    case PaymentRefunded => RefundedKeeps(s, s', e, res);
    case PaymentRefundRequested => RefundedKeeps(s, s', e, res);
    case PaymentCancelled => CancelledKeeps(s, s', e, res);
    case PaymentOverdue =>
    case WithdrawalRequested =>
    case CheckoutRefundRequest =>
    case Other =>
  }

  lemma ReceivedKeeps(s: State, s': State, e: Event, res: WebhookResult)
    requires Inv(s) && HandlesReceived(s, s', e, res)
    ensures Inv(s') && Grows(s, s')
  {
    if Found(s, e.tx) {
      var y, ok :| ByTx(s, e.tx.value, y) && s.payments[y].orderId in s.orders
                   && Receives(s, s', y, e.value, ok);
      ReceivesKeeps(s, s', y, e.value, ok);
    }
  }

  lemma RefundedKeeps(s: State, s': State, e: Event, res: WebhookResult)
    requires Inv(s) && HandlesRefunded(s, s', e, res)
    ensures Inv(s') && Grows(s, s')
  {
    if s' != s {
      var y :| ByTx(s, e.tx.value, y) && s' == MarkRefunded(s, y);
      MarkRefundedKeeps(s, y);
    }
  }

  lemma CancelledKeeps(s: State, s': State, e: Event, res: WebhookResult)
    requires Inv(s) && HandlesCancelled(s, s', e, res)
    ensures Inv(s') && Grows(s, s')
  {
    if s' != s {
      var y :| ByTx(s, e.tx.value, y) && s' == Reject(s, y);
      RejectKeeps(s, y);
    }
  }
}
