/** `PaymentsRepository`, `PaymentsService` and the Asaas webhook handler. */
module Payments {
  import opened Store
  import opened Fulfilment
  import opened Invariants
  import opened PaymentInvariants
  import Orders

  class PaymentsService {
    const db: Database
    const orders: Orders.OrdersService

    constructor (db: Database)
      ensures this.db == db && Wired()
    {
      this.db := db;
      this.orders := new Orders.OrdersService(db);
    }

    predicate Wired() {
      orders.db == db && orders.repository.db == db
    }

    method FindByOrder(o: Id) returns (y: Option<Id>)
      ensures y.Some? ==> PaymentOf(db.View(), o, y.value)
      ensures y.None? ==> !exists z :: PaymentOf(db.View(), o, z)
    {
      if exists z | z in db.payments :: db.payments[z].orderId == o {
        var z :| z in db.payments && db.payments[z].orderId == o;
        return Some(z);
      }
      return None;
    }

    method FindByProviderTxId(tx: Id) returns (y: Option<Id>)
      ensures y.Some? ==> ByTx(db.View(), tx, y.value)
      ensures y.None? ==> !exists z :: ByTx(db.View(), tx, z)
    {
      if exists z | z in db.payments :: db.payments[z].providerTxId == Some(tx) {
        var z :| z in db.payments && db.payments[z].providerTxId == Some(tx);
        return Some(z);
      }
      return None;
    }

    /** `createPixPayment` after the provider was charged. */
    method CreatePix(r: PayRequest) returns (outcome: PayOutcome)
      modifies db
      ensures PayResult(db.View(), outcome, true) == FirstPix(old(db.View()), r)
    {
      if TxTaken(db.View(), r.providerTxId, None) {
        return Refused;
      }
      var id := db.nextId;
      db.payments := db.payments[id := Payment(
        r.orderId, r.amount, PaymentStatus.Pending, Pix, Some(r.providerTxId),
        Some(r.chargedAt + FIFTEEN_MINUTES), KeptKey(None, r.idempotencyKey))];
      db.nextId := id + 1;
      return Stored(id);
    }

    method CreatePlain(r: PayRequest) returns (outcome: PayOutcome)
      modifies db
      ensures PayResult(db.View(), outcome, false) == PlainPayment(old(db.View()), r)
    {
      var id := db.nextId;
      db.payments := db.payments[id := Payment(
        r.orderId, r.amount, PaymentStatus.Pending, r.paymentMethod, None, None,
        KeptKey(None, r.idempotencyKey))];
      db.nextId := id + 1;
      return Stored(id);
    }

    /** A PIX request on an existing payment. */
    method AgainPix(y: Id, r: PayRequest) returns (outcome: PayOutcome, charged: bool)
      requires y in db.payments
      modifies db
      ensures PayResult(db.View(), outcome, charged) == NextPix(old(db.View()), y, r)
      ensures charged ==> old(db.payments)[y].status.Pending? && old(db.payments)[y].expiresAt.Some?
                          && old(db.payments)[y].expiresAt.value <= r.now
      ensures !outcome.Stored? ==> db.View() == old(db.View())
    {
      var pay := db.payments[y];
      if !pay.status.Pending? {
        return Refused, false;
      }
      if pay.expiresAt.None? || pay.expiresAt.value == 0 || pay.expiresAt.value > r.now {
        return Existing(y), false;
      }
      if TxTaken(db.View(), r.providerTxId, Some(y)) {
        return Refused, true;
      }
      db.payments := db.payments[y := pay.(
        amount := r.amount, paymentMethod := Pix, providerTxId := Some(r.providerTxId),
        expiresAt := Some(r.chargedAt + FIFTEEN_MINUTES),
        idempotencyKey := KeptKey(pay.idempotencyKey, r.idempotencyKey))];
      return Stored(y), true;
    }

    method CreatePayment(r: PayRequest) returns (outcome: PayOutcome, charged: bool)
      modifies db
      ensures Pays(old(db.View()), r, PayResult(db.View(), outcome, charged))
      ensures !PayableBy(old(db.View()), r) ==> outcome == Refused && !charged
      ensures charged ==> r.paymentMethod.Pix?
      ensures !outcome.Stored? ==> db.View() == old(db.View())
    {
      if r.orderId !in db.orders || db.orders[r.orderId].userId != r.userId
         || !Within(db.orders[r.orderId].total, r.amount)
      {
        return Refused, false;
      }
      var found := FindByOrder(r.orderId);
      if found.Some? {
        var y := found.value;
        if r.paymentMethod.Pix? {
          outcome, charged := AgainPix(y, r);
          return;
        }
        var pay := db.payments[y];
        if Compatible(pay, r) && (pay.status.Approved? || pay.status.Pending?) {
          return Existing(y), false;
        }
        return Refused, false;
      }
      if r.paymentMethod.Pix? {
        outcome := CreatePix(r);
        return outcome, true;
      }
      outcome := CreatePlain(r);
      return outcome, false;
    }

    method RefundPayment(y: Id, providerAccepts: bool) returns (ok: bool)
      modifies db
      ensures ok <==> Fulfilment.RefundPayment(old(db.View()), y, providerAccepts).Some?
      ensures db.View() == if ok
        then Fulfilment.RefundPayment(old(db.View()), y, providerAccepts).value else old(db.View())
    {
      if y !in db.payments || !db.payments[y].status.Approved? || db.payments[y].providerTxId.None?
         || !providerAccepts
      {
        return false;
      }
      db.payments := db.payments[y := db.payments[y].(
        status := PaymentStatus.Refunded, idempotencyKey := None)];
      return true;
    }

    // ---- provider events ----

    method ApprovePayment(y: Id)
      requires y in db.payments && db.payments[y].orderId in db.orders
      modifies db
      ensures db.View() == Approve(old(db.View()), y)
    {
      var o := db.payments[y].orderId;
      db.payments := db.payments[y := db.payments[y].(
        status := PaymentStatus.Approved, idempotencyKey := None)];
      db.orders := db.orders[o := db.orders[o].(status := OrderStatus.Paid)];
    }

    method RejectPayment(y: Id)
      requires y in db.payments && db.payments[y].orderId in db.orders
      modifies db
      ensures db.View() == Reject(old(db.View()), y)
    {
      var o := db.payments[y].orderId;
      db.payments := db.payments[y := db.payments[y].(status := PaymentStatus.Rejected)];
      db.orders := db.orders[o := db.orders[o].(status := OrderStatus.Cancelled)];
    }

    /** Delivery after approval, with the catch that parks the order in PROCESSING. */
    method DeliverOrderByPayment(o: Id)
      requires Wired() && o in db.orders && db.orders[o].status.Paid?
      requires Linked(db.View()) && Attached(db.View())
      modifies db
      ensures DeliversOrParks(old(db.View()), db.View(), o)
    {
      ghost var s := db.View();
      var ok := orders.DeliverOrder(o);
      ghost var lines :| IsSnapshot(s, o, lines) && Delivers(s, db.View(), o, lines, ok);
      if !ok {
        var parked := orders.repository.UpdateStatus(o, OrderStatus.Processing);
        assert db.View() == SetStatus(s, o, OrderStatus.Processing);
      }
    }

    method ApproveByTx(y: Id, value: EventValue) returns (ok: bool)
      requires Wired() && y in db.payments && db.payments[y].orderId in db.orders
      requires Linked(db.View()) && Attached(db.View())
      modifies db
      ensures Receives(old(db.View()), db.View(), y, value, ok)
      ensures !ok ==> db.View() == old(db.View())
      ensures old(db.payments)[y].status.Approved? ==> db.View() == old(db.View())
    {
      ghost var s := db.View();
      var pay := db.payments[y];
      if !AmountAccepted(pay.amount, value) {
        return false;
      }
      if pay.status.Approved? || db.orders[pay.orderId].status.Paid? {
        return true;
      }
      ApprovePayment(y);
      ApproveInventory(s, y);
      DeliverOrderByPayment(pay.orderId);
      return true;
    }
  }

  class AsaasWebhookHandler {
    const db: Database
    const payments: PaymentsService

    constructor (db: Database)
      ensures this.db == db && Wired()
    {
      this.db := db;
      this.payments := new PaymentsService(db);
    }

    predicate Wired() {
      payments.db == db && payments.Wired()
    }

    method HandleReceived(e: Event) returns (res: WebhookResult)
      requires Wired() && Inv(db.View())
      modifies db
      ensures HandlesReceived(old(db.View()), db.View(), e, res)
    {
      if e.tx.None? {
        return FAILED;
      }
      var y := payments.FindByProviderTxId(e.tx.value);
      if y.None? {
        return FAILED;
      }
      var ok := payments.ApproveByTx(y.value, e.value);
      return if ok then DONE else FAILED;
    }

    method HandleRefunded(e: Event) returns (res: WebhookResult)
      requires Wired()
      modifies db
      ensures HandlesRefunded(old(db.View()), db.View(), e, res)
    {
      if e.tx.None? {
        return DONE;
      }
      var y := payments.FindByProviderTxId(e.tx.value);
      if y.None? {
        return FAILED;
      }
      if !db.payments[y.value].status.Refunded? {
        db.payments := db.payments[y.value := db.payments[y.value].(status := PaymentStatus.Refunded)];
      }
      return DONE;
    }

    method HandleCancelled(e: Event) returns (res: WebhookResult)
      requires Wired() && PaymentsAgree(db.View())
      modifies db
      ensures HandlesCancelled(old(db.View()), db.View(), e, res)
    {
      if e.tx.None? {
        return DONE;
      }
      var y := payments.FindByProviderTxId(e.tx.value);
      if y.None? {
        return FAILED;
      }
      payments.RejectPayment(y.value);
      return DONE;
    }

    /** One event to completion; the shop's invariant holds again afterwards. */
    method HandleEvent(e: Event) returns (res: WebhookResult)
      requires Wired() && Inv(db.View())
      modifies db
      ensures Handles(old(db.View()), db.View(), e, res)
      ensures Inv(db.View())
    {
      ghost var s := db.View();
      match e.name {
        case PaymentReceived => res := HandleReceived(e);
        case PaymentConfirmed => res := HandleReceived(e);
        case PaymentRefunded => res := HandleRefunded(e);
        case PaymentRefundRequested => res := HandleRefunded(e);
        case PaymentCancelled => res := HandleCancelled(e);
        case PaymentOverdue => res := DONE;
        case WithdrawalRequested => res := Authorize(e);
        case CheckoutRefundRequest => res := Authorize(e);
        case Other => res := WebhookResult(false, NoAnswer);
      }
      HandlesKeeps(s, db.View(), e, res);
    }

    method Authorize(e: Event) returns (res: WebhookResult)
      ensures HandlesWithdrawal(db.View(), db.View(), e, res)
    {
      if !e.hasWithdrawal {
        return WebhookResult(true, AuthorizeRejected);
      }
      return WebhookResult(true, AuthorizeApproved);
    }
  }
}
