/**
 Refunds over whole runs. A payment is paid back twice only by refunds that overlap, or after a
 provider event has moved it on: the handler looks at the order's status, not at the refund.
 */
module Refunds {
  import opened Store
  import opened Fulfilment
  import opened Invariants
  import opened Runs
  import PixCharges

  predicate Receipt(e: Event) {
    e.name.PaymentReceived? || e.name.PaymentConfirmed?
  }

  /** An event that takes payment `y` out of REFUNDED. */
  ghost predicate Revives(s: State, op: Op, y: Id)
    requires y in s.payments && s.payments[y].orderId in s.orders
  {
    var pay := s.payments[y];
    && op.Webhook? && op.event.tx.Some? && pay.providerTxId == op.event.tx
    && (op.event.name.PaymentCancelled?
        || (Receipt(op.event) && AmountAccepted(pay.amount, op.event.value)
            && !s.orders[pay.orderId].status.Paid?))
  }

  lemma ReceiptStep(s: State, s': State, y: Id, z: Id, value: EventValue, ok: bool)
    requires y in s.payments && s.payments[y].status.Refunded?
    requires z in s.payments && s.payments[z].orderId in s.orders && Receives(s, s', z, value, ok)
    ensures y in s'.payments
    ensures z != y ==> s'.payments[y] == s.payments[y]
    ensures z == y ==>
      (s'.payments[y].status.Refunded?
       <==> !AmountAccepted(s.payments[y].amount, value) || s.orders[s.payments[y].orderId].status.Paid?)
  {
    hide CanDeliver, IsSnapshot, Allocated, AmountAccepted;
  }

  lemma SameTx(s: State, tx: Id, y: Id, z: Id)
    requires Unique(s) && y in s.payments && ByTx(s, tx, z)
    ensures ByTx(s, tx, y) <==> y == z
  {
  }

  lemma MarkedStays(s: State, y: Id, z: Id)
    requires y in s.payments && s.payments[y].status.Refunded? && z in s.payments
    ensures y in MarkRefunded(s, z).payments && MarkRefunded(s, z).payments[y].status.Refunded?
  {
  }

  lemma EventStep(s: State, s': State, e: Event, res: WebhookResult, y: Id)
    requires PaymentsAgree(s) && y in s.payments && s.payments[y].status.Refunded?
    requires Handles(s, s', e, res)
    ensures y in s'.payments && (s'.payments[y].status.Refunded? <==> !Revives(s, Webhook(e), y))
  {
    hide Receives, AmountAccepted, Unique, MarkRefunded;
    if Found(s, e.tx) {
      if Receipt(e) {
        var z, ok :| ByTx(s, e.tx.value, z) && s.payments[z].orderId in s.orders
                     && Receives(s, s', z, e.value, ok);
        SameTx(s, e.tx.value, y, z);
        ReceiptStep(s, s', y, z, e.value, ok);
      } else if e.name.PaymentCancelled? {
        var z :| ByTx(s, e.tx.value, z) && s.payments[z].orderId in s.orders && s' == Reject(s, z);
        SameTx(s, e.tx.value, y, z);
      } else if s' != s {
        var z :| ByTx(s, e.tx.value, z) && s' == MarkRefunded(s, z);
        MarkedStays(s, y, z);
      }
    } else {
      assert s' == s;
      assert e.tx.Some? ==> !ByTx(s, e.tx.value, y);
    }
  }

  /** A payment that has left PENDING is not touched by any request. */
  lemma PayStep(s: State, r: PayRequest, res: PayResult, y: Id)
    requires y in s.payments && !s.payments[y].status.Pending? && Pays(s, r, res) && y < s.nextId
    ensures y in res.state.payments && res.state.payments[y] == s.payments[y]
  {
    hide Compatible, Within, TxTaken, PixStillOpen, KeptKey;
  }

  lemma RequestStep(w: World, w': World, op: Op, y: Id)
    requires Numbers(w.db) && Next(w, w', op) && op.Pay?
    requires y in w.db.payments && !w.db.payments[y].status.Pending?
    ensures y in w'.db.payments && w'.db.payments[y] == w.db.payments[y]
  {
    hide Pays;
    var res :| Pays(w.db, op.request, res) && w' == w.(db := res.state);
    PayStep(w.db, op.request, res, y);
  }

  lemma WebhookStep(w: World, w': World, op: Op, y: Id)
    requires PaymentsAgree(w.db) && Next(w, w', op) && op.Webhook?
    requires y in w.db.payments && w.db.payments[y].status.Refunded?
    ensures y in w'.db.payments && (w'.db.payments[y].status.Refunded? <==> !Revives(w.db, op, y))
  {
    hide Handles, Revives;
    var res :| Handles(w.db, w'.db, op.event, res);
    EventStep(w.db, w'.db, op.event, res, y);
  }

  lemma WriteStep(w: World, w': World, op: Op, y: Id)
    requires Next(w, w', op) && op.FinishRefund? && y in w.db.payments
    ensures y in w'.db.payments && (w'.db.payments[y] == w.db.payments[y] || w'.db.payments[y].status.Refunded?)
  {
  }

  /** One step of the shop leaves a refunded payment refunded, unless it is a reviving event. */
  lemma RefundedStep(w: World, w': World, op: Op, y: Id)
    requires Numbers(w.db) && PaymentsAgree(w.db) && Next(w, w', op)
    requires y in w.db.payments && w.db.payments[y].status.Refunded?
    ensures y in w'.db.payments && (w'.db.payments[y].status.Refunded? <==> !Revives(w.db, op, y))
  {
    hide Next;
    if op.Webhook? {
      WebhookStep(w, w', op, y);
    } else if op.Pay? {
      RequestStep(w, w', op, y);
    } else if op.FinishRefund? {
      WriteStep(w, w', op, y);
    } else {
      OtherPayments(w, w', op);
    }
  }

  lemma OtherPayments(w: World, w': World, op: Op)
    requires Next(w, w', op) && !op.Pay? && !op.FinishRefund? && !op.Webhook?
    ensures w'.db.payments == w.db.payments
  {
    if op.FinishDelivery? {
      hide CanDeliver, Allocated;
    } else {
      hide Next;
      PixCharges.ShopOpsKeepPayments(w, w', op);
    }
  }

  /** Between steps `k` and `m` no event revives payment `y`. */
  ghost predicate NotRevived(ws: seq<World>, ops: seq<Op>, k: nat, m: nat, y: Id)
    requires m <= |ops| < |ws|
  {
    forall j | k < j < m ::
      y in ws[j].db.payments && ws[j].db.payments[y].orderId in ws[j].db.orders ==> !Revives(ws[j].db, ops[j], y)
  }

  lemma {:induction false} StaysRefunded(ws: seq<World>, ops: seq<Op>, k: nat, m: nat, y: Id)
    requires IsRun(ws, ops) && k < m < |ws| && NotRevived(ws, ops, k, m, y)
    requires y in ws[k + 1].db.payments && ws[k + 1].db.payments[y].status.Refunded?
    ensures y in ws[m].db.payments && ws[m].db.payments[y].status.Refunded?
    decreases m
  {
    hide Next, Revives;
    if m > k + 1 {
      StaysRefunded(ws, ops, k, m - 1, y);
      RunInv(ws, ops, m - 1);
      assert StepAt(ws, ops, m - 1);
      RefundedStep(ws[m - 1], ws[m], ops[m - 1], y);
    }
  }

  // ---- refunds by several callers ----

  /** Step `k` pays back payment `y` at the provider and writes the refund. */
  ghost predicate PaysBack(ws: seq<World>, ops: seq<Op>, k: nat, y: Id)
    requires k < |ops| < |ws|
  {
    && ops[k].FinishRefund? && ops[k].accepts
    && ops[k].caller in ws[k].refunding && ws[k].refunding[ops[k].caller] == y
  }

  /** Between steps `k` and `m` the caller neither starts nor finishes a refund. */
  ghost predicate Silent(ops: seq<Op>, k: nat, m: nat, caller: Id)
    requires m <= |ops|
  {
    forall j | k < j < m ::
      && (ops[j].BeginRefund? ==> ops[j].caller != caller)
      && (ops[j].FinishRefund? ==> ops[j].caller != caller)
  }

  ghost predicate InFlight(w: World, caller: Id, y: Id) {
    caller in w.refunding && w.refunding[caller] == y
  }

  /** Only a caller's own reading of an APPROVED payment puts a refund in flight. */
  lemma RefundingStep(w: World, w': World, op: Op, caller: Id, y: Id)
    requires Next(w, w', op) && InFlight(w', caller, y)
    ensures InFlight(w, caller, y)
         || (op == BeginRefund(caller, y) && Refundable(w.db, y) && w'.db == w.db)
    ensures op.FinishRefund? ==> caller != op.caller
  {
    hide CreateProduct, UpdateProduct, DeleteProduct, Import, DeleteUnit, ReserveKey, MarkDelivered;
    hide CreateCoupon, PlaceOrder, UpdateStatus, Pays, Handles, Delivers, IsSnapshot, Checks, Refundable;
  }

  lemma PayKeepsRows(s: State, r: PayRequest, res: PayResult)
    requires Pays(s, r, res)
    ensures s.payments.Keys <= res.state.payments.Keys
  {
    forall y | y in s.payments
      ensures y in res.state.payments
    {
      PixCharges.PayKeepsRow(s, r, res, y);
    }
  }

  lemma PaymentsStay(w: World, w': World, op: Op)
    requires Next(w, w', op)
    ensures w.db.payments.Keys <= w'.db.payments.Keys
  {
    if op.Pay? {
      hide Pays;
      var res :| Pays(w.db, op.request, res) && w' == w.(db := res.state);
      PayKeepsRows(w.db, op.request, res);
    } else {
      hide Next;
      PixCharges.OtherOpsKeepCharges(w, w', op);
    }
  }

  /** A refund in flight names a payment there is. */
  lemma {:induction false} InFlightPayment(ws: seq<World>, ops: seq<Op>, k: nat, caller: Id, y: Id)
    requires IsRun(ws, ops) && k < |ws| && InFlight(ws[k], caller, y)
    ensures y in ws[k].db.payments
  {
    hide Next;
    if k > 0 {
      assert StepAt(ws, ops, k - 1);
      RefundingStep(ws[k - 1], ws[k], ops[k - 1], caller, y);
      if InFlight(ws[k - 1], caller, y) {
        InFlightPayment(ws, ops, k - 1, caller, y);
        PaymentsStay(ws[k - 1], ws[k], ops[k - 1]);
      }
    }
  }

  lemma PaidBack(ws: seq<World>, ops: seq<Op>, k: nat, y: Id)
    requires IsRun(ws, ops) && k < |ops| && PaysBack(ws, ops, k, y)
    ensures y in ws[k + 1].db.payments && ws[k + 1].db.payments[y].status.Refunded?
    ensures ws[k + 1].refunding == ws[k].refunding - {ops[k].caller}
  {
    InFlightPayment(ws, ops, k, ops[k].caller, y);
    assert StepAt(ws, ops, k);
  }

  /** After a refund was written, whoever has one in flight for the payment had it in flight before. */
  lemma {:induction false} InFlightBefore(ws: seq<World>, ops: seq<Op>, k: nat, m: nat, caller: Id, y: Id)
    requires IsRun(ws, ops) && k < m < |ws| && PaysBack(ws, ops, k, y)
    requires NotRevived(ws, ops, k, m, y) && InFlight(ws[m], caller, y)
    ensures InFlight(ws[k], caller, y) && caller != ops[k].caller
    decreases m
  {
    hide Next, Revives;
    PaidBack(ws, ops, k, y);
    if m > k + 1 {
      assert StepAt(ws, ops, m - 1);
      StaysRefunded(ws, ops, k, m - 1, y);
      RefundingStep(ws[m - 1], ws[m], ops[m - 1], caller, y);
      InFlightBefore(ws, ops, k, m - 1, caller, y);
    }
  }

  /** A refund in flight stays in flight while its caller is silent. */
  lemma {:induction false} InFlightAfter(ws: seq<World>, ops: seq<Op>, k: nat, m: nat, caller: Id, y: Id)
    requires IsRun(ws, ops) && k < m < |ws| && PaysBack(ws, ops, k, y)
    requires InFlight(ws[k], caller, y) && caller != ops[k].caller && Silent(ops, k, m, caller)
    ensures InFlight(ws[m], caller, y)
    decreases m
  {
    hide Next;
    if m > k + 1 {
      InFlightAfter(ws, ops, k, m - 1, caller, y);
      assert StepAt(ws, ops, m - 1);
      StillInFlight(ws[m - 1], ws[m], ops[m - 1], caller, y);
    } else {
      PaidBack(ws, ops, k, y);
    }
  }

  lemma StillInFlight(w: World, w': World, op: Op, caller: Id, y: Id)
    requires Next(w, w', op) && InFlight(w, caller, y)
    requires (op.BeginRefund? ==> op.caller != caller) && (op.FinishRefund? ==> op.caller != caller)
    ensures InFlight(w', caller, y)
  {
    hide CreateProduct, UpdateProduct, DeleteProduct, Import, DeleteUnit, ReserveKey, MarkDelivered;
    hide CreateCoupon, PlaceOrder, UpdateStatus, Pays, Handles, Delivers, IsSnapshot, Checks, Refundable;
  }

  /**
   When an event has not revived it, a payment is paid back a second time only by a caller that
   had read it before the first refund was written.
   */
  lemma RefundedOnce(ws: seq<World>, ops: seq<Op>, k: nat, m: nat, y: Id)
    requires IsRun(ws, ops) && k < m < |ops| && NotRevived(ws, ops, k, m, y)
    requires PaysBack(ws, ops, k, y) && PaysBack(ws, ops, m, y)
    ensures InFlight(ws[k], ops[m].caller, y) && ops[m].caller != ops[k].caller
  {
    InFlightBefore(ws, ops, k, m, ops[m].caller, y);
  }

  /** For a caller silent in between that is exact: it pays back again if and only if it had read before. */
  lemma PaidBackTwice(ws: seq<World>, ops: seq<Op>, k: nat, m: nat, y: Id)
    requires IsRun(ws, ops) && k < m < |ops| && NotRevived(ws, ops, k, m, y) && PaysBack(ws, ops, k, y)
    requires ops[m].FinishRefund? && ops[m].accepts && Silent(ops, k, m, ops[m].caller)
    ensures PaysBack(ws, ops, m, y) <==> InFlight(ws[k], ops[m].caller, y) && ops[m].caller != ops[k].caller
  {
    var caller := ops[m].caller;
    hide IsRun, NotRevived, Silent;
    if InFlight(ws[m], caller, y) {
      InFlightBefore(ws, ops, k, m, caller, y);
    }
    if InFlight(ws[k], caller, y) && caller != ops[k].caller {
      InFlightAfter(ws, ops, k, m, caller, y);
    }
  }
}
