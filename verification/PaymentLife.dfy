/**
 What a payment's status means for the rest of its order's life: no charge once it has left
 PENDING, and no unit for an order parked in PROCESSING while it stays APPROVED.
 */
module PaymentLife {
  import opened Store
  import opened Fulfilment
  import opened Invariants
  import opened OrderInvariants
  import opened Pricing
  import opened Runs
  import OrderTotals
  import PixCharges
  import Refunds

  // ---- no charge after PENDING ----

  ghost predicate LeftPending(s: State, o: Id, y: Id) {
    PaymentOf(s, o, y) && !s.payments[y].status.Pending?
  }

  lemma ReceiptNotPending(s: State, s': State, y: Id, z: Id, value: EventValue, ok: bool)
    requires y in s.payments && !s.payments[y].status.Pending?
    requires z in s.payments && s.payments[z].orderId in s.orders && Receives(s, s', z, value, ok)
    ensures y in s'.payments && !s'.payments[y].status.Pending?
  {
    hide CanDeliver, IsSnapshot, Allocated, AmountAccepted;
  }

  lemma EventNotPending(s: State, s': State, e: Event, res: WebhookResult, y: Id)
    requires y in s.payments && !s.payments[y].status.Pending? && Handles(s, s', e, res)
    ensures y in s'.payments && !s'.payments[y].status.Pending?
  {
    hide Receives, AmountAccepted;
    if Refunds.Receipt(e) && Found(s, e.tx) {
      var z, ok :| ByTx(s, e.tx.value, z) && s.payments[z].orderId in s.orders
                   && Receives(s, s', z, e.value, ok);
      ReceiptNotPending(s, s', y, z, e.value, ok);
    }
  }

  lemma WebhookNotPending(w: World, w': World, op: Op, y: Id)
    requires y in w.db.payments && !w.db.payments[y].status.Pending? && Next(w, w', op) && op.Webhook?
    ensures y in w'.db.payments && !w'.db.payments[y].status.Pending?
  {
    hide Handles;
    var res :| Handles(w.db, w'.db, op.event, res);
    EventNotPending(w.db, w'.db, op.event, res, y);
  }

  /** No operation brings a payment back to PENDING. */
  lemma LeftPendingStep(w: World, w': World, op: Op, o: Id, y: Id)
    requires Numbers(w.db) && Next(w, w', op) && LeftPending(w.db, o, y)
    ensures LeftPending(w'.db, o, y)
  {
    hide Next;
    if op.Pay? {
      Refunds.RequestStep(w, w', op, y);
    } else {
      PixCharges.OtherOpsKeepCharges(w, w', op);
      if op.Webhook? {
        WebhookNotPending(w, w', op, y);
      } else if op.FinishRefund? {
        Refunds.WriteStep(w, w', op, y);
      } else {
        Refunds.OtherPayments(w, w', op);
      }
    }
  }

  lemma {:induction false} StaysSettled(ws: seq<World>, ops: seq<Op>, k: nat, m: nat, o: Id, y: Id)
    requires IsRun(ws, ops) && k <= m < |ws| && LeftPending(ws[k].db, o, y)
    ensures LeftPending(ws[m].db, o, y)
    decreases m
  {
    hide Next;
    if k < m {
      StaysSettled(ws, ops, k, m - 1, o, y);
      PixCharges.ReachableUnique(ws, ops, m - 1);
      assert StepAt(ws, ops, m - 1);
      LeftPendingStep(ws[m - 1], ws[m], ops[m - 1], o, y);
    }
  }

  lemma NotCharged(s: State, r: PayRequest, res: PayResult, y: Id)
    requires Unique(s) && LeftPending(s, r.orderId, y) && Pays(s, r, res)
    ensures !res.charged && res.state == s
  {
    hide Compatible, Within, TxTaken, PixStillOpen, KeptKey;
  }

  /** Once an order's payment has left PENDING, the order is never charged again. */
  lemma NeverChargedAgain(ws: seq<World>, ops: seq<Op>, k: nat, m: nat, o: Id, y: Id)
    requires IsRun(ws, ops) && k <= m < |ops| && LeftPending(ws[k].db, o, y)
    ensures !PixCharges.Charges(ws, ops, m, o)
  {
    hide Next, Pays;
    StaysSettled(ws, ops, k, m, o, y);
    PixCharges.ReachableUnique(ws, ops, m);
    if PixCharges.Charges(ws, ops, m, o) {
      var res :| Pays(ws[m].db, ops[m].request, res) && ws[m + 1] == ws[m].(db := res.state) && res.charged;
      NotCharged(ws[m].db, ops[m].request, res, y);
    }
  }

  // ---- orders parked in PROCESSING ----

  /** Past the point where anything could make the order PAID again, as far as its status goes. */
  predicate Beyond(status: OrderStatus) {
    status.Processing? || status.Delivered? || status.Cancelled?
  }

  /** Order `o` is beyond delivery and its items are exactly those of `items`. */
  ghost predicate Parked(s: State, o: Id, items: map<Id, Item>) {
    && o in s.orders && Beyond(s.orders[o].status)
    && ItemsOf(s, o) == items.Keys
    && forall i | i in items :: s.items[i] == items[i]
  }

  ghost predicate Approved(s: State, o: Id, y: Id) {
    PaymentOf(s, o, y) && s.payments[y].status.Approved?
  }

  lemma SameBooksParked(s: State, s': State, o: Id, items: map<Id, Item>)
    requires Parked(s, o, items) && s'.orders == s.orders && s'.items == s.items
    ensures Parked(s', o, items)
  {
  }

  /** A delivery of another order leaves this one alone; this one is not PAID. */
  lemma DeliveryParked(s: State, s': State, d: Read, ok: bool, o: Id, items: map<Id, Item>)
    requires Parked(s, o, items) && ReadOk(s, d.orderId, d.lines) && Delivers(s, s', d.orderId, d.lines, ok)
    ensures Parked(s', o, items)
  {
    if ok {
      assert d.orderId != o;
      CommittedElsewhere(s, s', d.orderId, d.lines, o, items);
    }
  }

  lemma CommittedElsewhere(s: State, s': State, o': Id, lines: seq<Line>, o: Id, items: map<Id, Item>)
    requires Parked(s, o, items) && Committed(s, s', o', lines) && o' != o && Ids(lines) == ItemsOf(s, o')
    ensures Parked(s', o, items)
  {
    hide Gets, Avail;
    AllocatedKeys(s, s', lines);
    forall i | i in s.items
      ensures s'.items[i].orderId == s.items[i].orderId
      ensures s.items[i].orderId == o ==> s'.items[i] == s.items[i]
    {
      AllocatedItemKept(s, s', lines, i);
      if s.items[i].orderId == o {
        assert i !in Ids(lines);
        AllocatedItem(s, s', lines, i);
      }
    }
    assert ItemsOf(s', o) == ItemsOf(s, o);
  }

  lemma ReceiptParked(s: State, s': State, z: Id, value: EventValue, ok: bool, o: Id, y: Id, items: map<Id, Item>)
    requires Unique(s) && Parked(s, o, items) && Approved(s, o, y)
    requires z in s.payments && s.payments[z].orderId in s.orders && Receives(s, s', z, value, ok)
    ensures Parked(s', o, items)
  {
    if s' != s {
      var o' := s.payments[z].orderId;
      var s1 := Approve(s, z);
      ApproveParked(s, z, o, y, items);
      hide Receives, CanDeliver, Unique, Approve, Committed, Parked, IsSnapshot;
      var lines :| IsSnapshot(s1, o', lines)
        && if CanDeliver(s1, o', lines) then Committed(s1, s', o', lines)
           else s' == SetStatus(s1, o', OrderStatus.Processing);
      if CanDeliver(s1, o', lines) {
        SnapshotIds(s1, o', lines);
        CommittedElsewhere(s1, s', o', lines, o, items);
      } else {
        MarkElsewhere(s1, o', OrderStatus.Processing, o, items);
      }
    }
  }

  lemma ApproveParked(s: State, z: Id, o: Id, y: Id, items: map<Id, Item>)
    requires Unique(s) && Parked(s, o, items) && Approved(s, o, y)
    requires z in s.payments && s.payments[z].orderId in s.orders && z != y
    ensures s.payments[z].orderId != o && Parked(Approve(s, z), o, items)
  {
  }

  lemma SnapshotIds(s: State, o: Id, lines: seq<Line>)
    requires IsSnapshot(s, o, lines)
    ensures Ids(lines) == ItemsOf(s, o)
  {
  }

  lemma MarkElsewhere(s: State, o': Id, status: OrderStatus, o: Id, items: map<Id, Item>)
    requires Parked(s, o, items) && o' in s.orders && o' != o
    ensures Parked(SetStatus(s, o', status), o, items)
  {
  }

  lemma RejectParked(s: State, z: Id, o: Id, y: Id, items: map<Id, Item>)
    requires Unique(s) && Parked(s, o, items) && Approved(s, o, y)
    requires z in s.payments && s.payments[z].orderId in s.orders && Approved(Reject(s, z), o, y)
    ensures Parked(Reject(s, z), o, items)
  {
    assert z != y && s.payments[z].orderId != o;
  }

  lemma EventParked(s: State, s': State, e: Event, res: WebhookResult, o: Id, y: Id, items: map<Id, Item>)
    requires Unique(s) && Parked(s, o, items) && Approved(s, o, y) && Handles(s, s', e, res)
    requires Approved(s', o, y)
    ensures Parked(s', o, items)
  {
    hide Receives, AmountAccepted, Unique, Parked, Approved, Reject;
    if Refunds.Receipt(e) && Found(s, e.tx) {
      var z, ok :| ByTx(s, e.tx.value, z) && s.payments[z].orderId in s.orders
                   && Receives(s, s', z, e.value, ok);
      ReceiptParked(s, s', z, e.value, ok, o, y, items);
    } else if e.name.PaymentCancelled? && s' != s {
      var z :| ByTx(s, e.tx.value, z) && s.payments[z].orderId in s.orders && s' == Reject(s, z);
      RejectParked(s, z, o, y, items);
    } else {
      SameBooksParked(s, s', o, items);
    }
  }

  lemma StatusParked(s: State, o': Id, status: OrderStatus, o: Id, items: map<Id, Item>)
    requires Parked(s, o, items) && o' in s.orders && Allowed(s.orders[o'].status, status)
    ensures Parked(SetStatus(s, o', status), o, items)
  {
  }

  lemma PlacingParked(
    s: State, userId: Id, reqs: seq<Request>, coupon: Option<CouponData>, o: Id, items: map<Id, Item>)
    requires Numbers(s) && Linked(s) && Parked(s, o, items) && PlaceOrder(s, userId, reqs, coupon).Some?
    ensures Parked(PlaceOrder(s, userId, reqs, coupon).value, o, items)
  {
    var flat := Flat(s.products, s.nextId, reqs);
    OrderTotals.PlacedItems(s, userId, reqs, coupon);
    FlatShape(s.products, s.nextId, reqs);
    OrderTotals.NewItems(s, PlaceOrder(s, userId, reqs, coupon).value, flat);
    hide PlaceOrder, NewOrder, Numbered, Flat, Linked;
  }

  lemma CallParked(w: World, w': World, op: Op, o: Id, y: Id, items: map<Id, Item>)
    requires WInv(w) && Next(w, w', op) && Parked(w.db, o, items)
    requires Approved(w.db, o, y) && Approved(w'.db, o, y)
    requires op.Webhook? || op.FinishDelivery? || op.ChangeStatus? || op.Buy? || op.BuyChecked?
    ensures Parked(w'.db, o, items)
  {
    hide Handles, Delivers, PlaceOrder, UpdateStatus, Approved, Parked, Allowed, ReadOk;
    hide Numbers, Linked, Attached, AllOrNothing, StockAgrees, QuotaKept, Unique, Grows;
    if w'.db != w.db {
      match op
      case Webhook(e) =>
        var res :| Handles(w.db, w'.db, e, res);
        EventParked(w.db, w'.db, e, res, o, y, items);
      case FinishDelivery(caller) =>
        var ok :| Delivers(w.db, w'.db, w.delivering[caller].orderId, w.delivering[caller].lines, ok);
        DeliveryParked(w.db, w'.db, w.delivering[caller], ok, o, items);
      case ChangeStatus(o', status) =>
        UpdateStatusKeeps(w.db, o', status);
        StatusAllowed(w.db, o', status);
        StatusParked(w.db, o', status, o, items);
      case Buy(userId, reqs) => PlacingParked(w.db, userId, reqs, None, o, items);
      case BuyChecked(userId, caller) =>
        PlacingParked(w.db, userId, w.checks[caller].reqs, Some(w.checks[caller].coupon), o, items);
    }
  }

  lemma StatusAllowed(s: State, o: Id, status: OrderStatus)
    requires UpdateStatus(s, o, status).Some?
    ensures o in s.orders && Allowed(s.orders[o].status, status)
  {
  }

  lemma ParkedStep(w: World, w': World, op: Op, o: Id, y: Id, items: map<Id, Item>)
    requires WInv(w) && Next(w, w', op) && Parked(w.db, o, items)
    requires Approved(w.db, o, y) && Approved(w'.db, o, y)
    ensures Parked(w'.db, o, items)
  {
    hide Next, WInv, Parked, Approved;
    if op.Webhook? || op.FinishDelivery? || op.ChangeStatus? || op.Buy? || op.BuyChecked? {
      CallParked(w, w', op, o, y, items);
    } else {
      OrderTotals.QuietOpsKeepBooks(w, w', op);
      SameBooksParked(w.db, w'.db, o, items);
    }
  }

  ghost predicate ApprovedThroughout(ws: seq<World>, k: nat, m: nat, o: Id, y: Id)
    requires m < |ws|
  {
    forall j | k <= j <= m :: Approved(ws[j].db, o, y)
  }

  function ItemRows(s: State, o: Id): map<Id, Item> {
    map i | i in ItemsOf(s, o) :: s.items[i]
  }

  lemma {:induction false} StaysParked(ws: seq<World>, ops: seq<Op>, k: nat, m: nat, o: Id, y: Id)
    requires IsRun(ws, ops) && k <= m < |ws| && ApprovedThroughout(ws, k, m, o, y)
    requires o in ws[k].db.orders && ws[k].db.orders[o].status.Processing?
    ensures Parked(ws[m].db, o, ItemRows(ws[k].db, o))
    decreases m
  {
    hide Next, Approved;
    if k < m {
      StaysParked(ws, ops, k, m - 1, o, y);
      RunInv(ws, ops, m - 1);
      assert StepAt(ws, ops, m - 1);
      ParkedStep(ws[m - 1], ws[m], ops[m - 1], o, y, ItemRows(ws[k].db, o));
    }
  }

  /**
   As long as its payment stays APPROVED, an order parked in PROCESSING gets no unit: it keeps
   its items as they were, all of them empty, and is never PAID again.
   */
  lemma ParkedUnserved(ws: seq<World>, ops: seq<Op>, k: nat, m: nat, o: Id, y: Id)
    requires IsRun(ws, ops) && k <= m < |ws| && ApprovedThroughout(ws, k, m, o, y)
    requires o in ws[k].db.orders && ws[k].db.orders[o].status.Processing?
    ensures o in ws[m].db.orders && !ws[m].db.orders[o].status.Paid?
    ensures ItemsOf(ws[m].db, o) == ItemsOf(ws[k].db, o)
    ensures forall i | i in ItemsOf(ws[m].db, o) :: !HasUnit(ws[m].db.items[i])
  {
    RunInv(ws, ops, k);
    StaysParked(ws, ops, k, m, o, y);
    hide IsRun, ApprovedThroughout, Linked, Attached, StockAgrees, PaymentsAgree, QuotaKept;
    assert AllOrNothing(ws[k].db);
  }
}
