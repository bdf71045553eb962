/**
 Whole runs of the shop. Every operation is one step, except that an administrator's
 delivery, a customer's coupon check and a refund are split in two: what they read first may
 be stale by the time they write. Provider events are handled to completion.
 */
module Runs {
  import opened Store
  import opened Pricing
  import opened Fulfilment
  import opened Invariants
  import opened OrderInvariants
  import opened PaymentInvariants

  /** An order's item list, read for delivery and not yet used. */
  datatype Read = Read(orderId: Id, lines: seq<Line>)

  /** A cart whose coupon was accepted for what the cart cost at the time. */
  datatype Checkout = Checkout(reqs: seq<Request>, coupon: CouponData)

  /** The database, and by caller the deliveries, checkouts and refunds in flight. */
  datatype World = World(
    db: State, delivering: map<Id, Read>, checks: map<Id, Checkout>, refunding: map<Id, Id>)

  const OPENING := World(EMPTY_STATE, map[], map[], map[])

  datatype Op =
    | NewProduct(productType: ProductType, price: real, stock: int, isActive: bool)
    | EditProduct(product: Id, price: real, newStock: Option<int>, newActive: Option<bool>)
    | DropProduct(product: Id)
    | ImportRows(productType: ProductType, product: Id, count: nat)
    | DropUnit(productType: ProductType, unit: Id)
    | Reserve(unit: Id, itemId: Id)
    | HandOver(productType: ProductType, unit: Id)
    | NewCoupon(coupon: Coupon)
    | CheckCoupon(caller: Id, reqs: seq<Request>, code: Id, now: nat)
    | Buy(userId: Id, reqs: seq<Request>)
    | BuyChecked(userId: Id, caller: Id)
    | ChangeStatus(order: Id, status: OrderStatus)
    | BeginDelivery(caller: Id, order: Id)
    | FinishDelivery(caller: Id)
    | Pay(request: PayRequest)
    | BeginRefund(caller: Id, payment: Id)
    | FinishRefund(caller: Id, accepts: bool)
    | Webhook(event: Event)

  /** A thrown error leaves the database as it was. */
  predicate Moves(w: World, w': World, r: Option<State>) {
    w' == w.(db := if r.Some? then r.value else w.db)
  }

  ghost predicate Next(w: World, w': World, op: Op) {
    match op
    case NewProduct(t, price, stock, active) => Moves(w, w', CreateProduct(w.db, t, price, stock, active))
    case EditProduct(p, price, stock, active) => Moves(w, w', UpdateProduct(w.db, p, price, stock, active))
    case DropProduct(p) => Moves(w, w', DeleteProduct(w.db, p))
    case ImportRows(t, p, n) =>
      Moves(w, w', if p in w.db.products && w.db.products[p].productType == t
                   then Some(Import(w.db, t, p, n)) else None)
    case DropUnit(t, u) => Moves(w, w', DeleteUnit(w.db, t, u))
    case Reserve(u, i) => Moves(w, w', ReserveKey(w.db, u, i))
    case HandOver(t, u) => Moves(w, w', MarkDelivered(w.db, t, u))
    case NewCoupon(c) => Moves(w, w', Some(CreateCoupon(w.db, c)))
    case CheckCoupon(caller, reqs, code, now) =>
      if Checks(w.db, reqs, code, now)
      then w' == w.(checks := w.checks[caller := Checkout(reqs, CheckedData(w.db, reqs, code))])
      else w' == w
    case Buy(userId, reqs) => Moves(w, w', PlaceOrder(w.db, userId, reqs, None))
    case BuyChecked(userId, caller) =>
      if caller in w.checks
      then Moves(w.(checks := w.checks - {caller}), w',
                 PlaceOrder(w.db, userId, w.checks[caller].reqs, Some(w.checks[caller].coupon)))
      else w' == w
    case ChangeStatus(o, status) => Moves(w, w', UpdateStatus(w.db, o, status))
    case BeginDelivery(caller, o) =>
      if o in w.db.orders && w.db.orders[o].status.Paid?
      then exists lines :: IsSnapshot(w.db, o, lines) && w' == w.(delivering := w.delivering[caller := Read(o, lines)])
      else w' == w
    case FinishDelivery(caller) =>
      if caller in w.delivering
      then (exists ok :: Delivers(w.db, w'.db, w.delivering[caller].orderId, w.delivering[caller].lines, ok))
           && w' == w.(db := w'.db, delivering := w.delivering - {caller})
      else w' == w
    case Pay(r) => exists res :: Pays(w.db, r, res) && w' == w.(db := res.state)
    case BeginRefund(caller, y) =>
      if Refundable(w.db, y) then w' == w.(refunding := w.refunding[caller := y]) else w' == w
    case FinishRefund(caller, accepts) =>
      if caller in w.refunding
      then Moves(w.(refunding := w.refunding - {caller}), w',
                 if accepts && w.refunding[caller] in w.db.payments
                 then Some(WriteRefund(w.db, w.refunding[caller])) else None)
      else w' == w
    case Webhook(e) => (exists res :: Handles(w.db, w'.db, e, res)) && w' == w.(db := w'.db)
  }

  ghost predicate WInv(w: World) {
    && Inv(w.db)
    && (forall caller | caller in w.delivering ::
          ReadOk(w.db, w.delivering[caller].orderId, w.delivering[caller].lines))
    && (forall caller | caller in w.checks :: LimitKnown(w.db, Some(w.checks[caller].coupon)))
  }

  /** What was read before stays usable after any step of the database. */
  lemma InFlightKept(w: World, db: State)
    requires WInv(w) && Inv(db) && Grows(w.db, db)
    ensures WInv(w.(db := db))
  {
    forall caller | caller in w.delivering
      ensures ReadOk(db, w.delivering[caller].orderId, w.delivering[caller].lines)
    {
      ReadOkKept(w.db, db, w.delivering[caller].orderId, w.delivering[caller].lines);
    }
  }

  lemma FinishKeeps(s: State, s': State, d: Read, ok: bool)
    requires Inv(s) && ReadOk(s, d.orderId, d.lines) && Delivers(s, s', d.orderId, d.lines, ok)
    ensures Inv(s') && Grows(s, s')
  {
    if ok {
      assert Current(s, d.lines) by {
        forall l | l in d.lines
          ensures !HasUnit(s.items[l.id])
        {
          assert l.id in Ids(d.lines);
        }
      }
      MarkingKeeps(s, d.orderId);
      CommittedKeeps(s, s', d.orderId, d.lines);
    }
  }

  lemma MarkingStep(s: State, o: Id)
    requires AllOrNothing(s) && PaymentsAgree(s) && o in s.orders && s.orders[o].status.Paid?
    ensures StatusStep(s, SetStatus(s, o, OrderStatus.Delivered))
  {
  }

  lemma MarkingKeeps(s: State, o: Id)
    requires Inv(s) && o in s.orders && s.orders[o].status.Paid?
    ensures Inv(SetStatus(s, o, OrderStatus.Delivered))
  {
    MarkingStep(s, o);
    hide Inv, StatusStep, Grows;
    StatusStepKeeps(s, SetStatus(s, o, OrderStatus.Delivered));
  }

  /** Operations on products and their units. */
  predicate OnInventory(op: Op) {
    op.NewProduct? || op.EditProduct? || op.DropProduct? || op.ImportRows?
    || op.DropUnit? || op.Reserve? || op.HandOver?
  }

  lemma InventoryOpsKeep(w: World, w': World, op: Op)
    requires Inv(w.db) && Next(w, w', op) && OnInventory(op) && w'.db != w.db
    ensures Inv(w'.db) && Grows(w.db, w'.db)
  {
    hide Import, DeleteUnit, ReserveKey, MarkDelivered, CreateProduct, UpdateProduct, DeleteProduct, Inv, Grows;
    match op
    case NewProduct(t, price, stock, active) => CreateProductKeeps(w.db, t, price, stock, active);
    case EditProduct(p, price, stock, active) => UpdateProductKeeps(w.db, p, price, stock, active);
    case DropProduct(p) => DeleteProductKeeps(w.db, p);
    case ImportRows(t, p, n) => ImportKeeps(w.db, t, p, n);
    case DropUnit(t, u) => DeleteUnitKeeps(w.db, t, u);
    case Reserve(u, i) => ReserveKeyKeeps(w.db, u, i);
    case HandOver(t, u) => MarkDeliveredKeeps(w.db, t, u);
  }

  lemma OrderOpsKeep(w: World, w': World, op: Op)
    requires WInv(w) && Next(w, w', op) && !OnInventory(op) && w'.db != w.db
    ensures Inv(w'.db) && Grows(w.db, w'.db)
  {
    hide Handles, Delivers, Pays, PlaceOrder, UpdateStatus, CreateCoupon, WriteRefund;
    hide Inv, Grows, ReadOk, IsSnapshot, Checks, CheckedData, Refundable;
    match op
    case NewCoupon(c) => CreateCouponKeeps(w.db, c);
    case Buy(userId, reqs) => PlaceOrderKeeps(w.db, userId, reqs, None);
    case BuyChecked(userId, caller) =>
      PlaceOrderKeeps(w.db, userId, w.checks[caller].reqs, Some(w.checks[caller].coupon));
    case ChangeStatus(o, status) => UpdateStatusKeeps(w.db, o, status);
    case FinishDelivery(caller) =>
      var ok :| Delivers(w.db, w'.db, w.delivering[caller].orderId, w.delivering[caller].lines, ok);
      FinishKeeps(w.db, w'.db, w.delivering[caller], ok);
    case Pay(r) =>
      var res :| Pays(w.db, r, res) && w' == w.(db := res.state);
      PaysKeeps(w.db, r, res);
    case FinishRefund(caller, _) => WriteRefundKeeps(w.db, w.refunding[caller]);
    case Webhook(e) =>
      var res :| Handles(w.db, w'.db, e, res);
      HandlesKeeps(w.db, w'.db, e, res);
  }

  lemma DatabaseKeeps(w: World, w': World, op: Op)
    requires WInv(w) && Next(w, w', op)
    ensures Inv(w'.db) && Grows(w.db, w'.db)
  {
    hide Next, Inv, Grows;
    if w'.db == w.db {
      GrowsSelf(w.db);
    } else if OnInventory(op) {
      InventoryOpsKeep(w, w', op);
    } else {
      OrderOpsKeep(w, w', op);
    }
  }

  /** Only the two reading steps put a delivery or a checkout in flight. */
  lemma NothingRead(w: World, w': World, op: Op)
    requires Next(w, w', op) && !op.BeginDelivery? && !op.CheckCoupon?
    ensures forall c | c in w'.delivering :: c in w.delivering && w'.delivering[c] == w.delivering[c]
    ensures forall c | c in w'.checks :: c in w.checks && w'.checks[c] == w.checks[c]
  {
    hide Handles, Delivers, Pays, PlaceOrder, UpdateStatus, Import, DeleteUnit, ReserveKey, MarkDelivered;
    hide CreateProduct, UpdateProduct, DeleteProduct, CreateCoupon, WriteRefund, Refundable;
  }

  lemma SomethingRead(w: World, w': World, op: Op)
    requires WInv(w) && Next(w, w', op) && (op.BeginDelivery? || op.CheckCoupon?)
    ensures WInv(w')
  {
    hide ReadOk, IsSnapshot, Numbers, Linked, Attached, AllOrNothing, StockAgrees, PaymentsAgree, QuotaKept;
    if op.BeginDelivery? && w' != w {
      var lines :| IsSnapshot(w.db, op.order, lines)
                   && w' == w.(delivering := w.delivering[op.caller := Read(op.order, lines)]);
      SnapshotReadOk(w.db, op.order, lines);
    }
  }

  lemma NextKeeps(w: World, w': World, op: Op)
    requires WInv(w) && Next(w, w', op)
    ensures WInv(w') && Grows(w.db, w'.db)
  {
    hide Next, Inv, Grows, ReadOk, LimitKnown;
    DatabaseKeeps(w, w', op);
    if op.BeginDelivery? || op.CheckCoupon? {
      SomethingRead(w, w', op);
    } else {
      InFlightKept(w, w'.db);
      NothingRead(w, w', op);
    }
  }

  // ---- runs ----

  ghost predicate StepAt(ws: seq<World>, ops: seq<Op>, k: nat)
    requires |ws| == |ops| + 1 && k < |ops|
  {
    Next(ws[k], ws[k + 1], ops[k])
  }

  ghost predicate IsRun(ws: seq<World>, ops: seq<Op>) {
    && |ws| == |ops| + 1
    && ws[0] == OPENING
    && forall k | 0 <= k < |ops| :: StepAt(ws, ops, k)
  }

  lemma {:induction false} RunInv(ws: seq<World>, ops: seq<Op>, k: nat)
    requires IsRun(ws, ops) && k < |ws|
    ensures WInv(ws[k])
  {
    if k == 0 {
      EmptyInv();
    } else {
      RunInv(ws, ops, k - 1);
      assert StepAt(ws, ops, k - 1);
      NextKeeps(ws[k - 1], ws[k], ops[k - 1]);
    }
  }

  lemma StepGrows(ws: seq<World>, ops: seq<Op>, k: nat)
    requires IsRun(ws, ops) && k < |ops|
    ensures Numbers(ws[k].db) && Grows(ws[k].db, ws[k + 1].db)
  {
    RunInv(ws, ops, k);
    assert StepAt(ws, ops, k);
    NextKeeps(ws[k], ws[k + 1], ops[k]);
  }

  lemma SlotsDiffer(s: State, i: Id, j: Id, t: ProductType)
    requires Attached(s) && i in s.items && j in s.items && Slot(s.items[i], t).Some?
    ensures Slot(s.items[i], t) == Slot(s.items[j], t) ==> i == j
  {
    if Slot(s.items[i], t) == Slot(s.items[j], t) {
      assert Rows(s, t)[Slot(s.items[i], t).value].orderItemId == Some(i);
      assert Rows(s, t)[Slot(s.items[j], t).value].orderItemId == Some(j);
    }
  }

  lemma OneSlotOnly(s: State, i: Id)
    requires Linked(s) && Attached(s) && i in s.items
    ensures s.items[i].keyId.None? || s.items[i].accountId.None?
  {
    if s.items[i].keyId.Some? && s.items[i].accountId.Some? {
      SlotType(s, i, Key);
      SlotType(s, i, Account);
    }
  }

  /** In no reachable state do two items name the same unit, and no item names two units. */
  lemma NoUnitShared(ws: seq<World>, ops: seq<Op>, k: nat, i: Id, j: Id, t: ProductType)
    requires IsRun(ws, ops) && k < |ws| && i in ws[k].db.items && j in ws[k].db.items
    requires Slot(ws[k].db.items[i], t).Some?
    ensures Slot(ws[k].db.items[i], t) == Slot(ws[k].db.items[j], t) ==> i == j
    ensures ws[k].db.items[i].keyId.None? || ws[k].db.items[i].accountId.None?
  {
    RunInv(ws, ops, k);
    SlotsDiffer(ws[k].db, i, j, t);
    OneSlotOnly(ws[k].db, i);
  }

  /** The unit an item names, delivered and naming the item back. */
  ghost predicate Owns(s: State, i: Id, item: Item, t: ProductType) {
    && i in s.items && s.items[i] == item
    && (Slot(item, t).Some? ==>
          && Slot(item, t).value in Rows(s, t)
          && Rows(s, t)[Slot(item, t).value] == Unit(item.productId, UnitStatus.Delivered, Some(i)))
  }

  lemma ItemKept(ws: seq<World>, ops: seq<Op>, k: nat, i: Id)
    requires IsRun(ws, ops) && k < |ops| && i in ws[k].db.items && HasUnit(ws[k].db.items[i])
    ensures i in ws[k + 1].db.items && ws[k + 1].db.items[i] == ws[k].db.items[i]
  {
    StepGrows(ws, ops, k);
  }

  lemma ReachableOwns(ws: seq<World>, ops: seq<Op>, k: nat, i: Id, t: ProductType)
    requires IsRun(ws, ops) && k < |ws| && i in ws[k].db.items
    ensures Owns(ws[k].db, i, ws[k].db.items[i], t)
  {
    RunInv(ws, ops, k);
  }

  /** Once an item has a unit, it has that very unit for ever, delivered and named back. */
  lemma {:induction false} OneUnitForLife(
    ws: seq<World>, ops: seq<Op>, k: nat, m: nat, i: Id, t: ProductType)
    requires IsRun(ws, ops) && k <= m < |ws|
    requires i in ws[k].db.items && HasUnit(ws[k].db.items[i])
    ensures Owns(ws[m].db, i, ws[k].db.items[i], t)
    decreases m
  {
    if k < m {
      OneUnitForLife(ws, ops, k, m - 1, i, t);
      ItemKept(ws, ops, m - 1, i);
    }
    ReachableOwns(ws, ops, m, i, t);
  }

  /** Row `u` is as given or gone for good. */
  ghost predicate KeptOrGone(s: State, t: ProductType, u: Id, row: Unit) {
    u < s.nextId && (u in Rows(s, t) ==> Rows(s, t)[u] == row)
  }

  lemma KeptOrGoneStep(s: State, s': State, t: ProductType, u: Id, row: Unit)
    requires Grows(s, s') && KeptOrGone(s, t, u, row) && row.status.Delivered?
    ensures KeptOrGone(s', t, u, row)
  {
  }

  /** A delivered row never becomes anything else; at most it goes with its deleted product. */
  lemma {:induction false} DeliveredForEver(
    ws: seq<World>, ops: seq<Op>, k: nat, m: nat, t: ProductType, u: Id)
    requires IsRun(ws, ops) && k <= m < |ws|
    requires u in Rows(ws[k].db, t) && Rows(ws[k].db, t)[u].status.Delivered?
    ensures KeptOrGone(ws[m].db, t, u, Rows(ws[k].db, t)[u])
    decreases m
  {
    if k < m {
      DeliveredForEver(ws, ops, k, m - 1, t, u);
      StepGrows(ws, ops, m - 1);
      KeptOrGoneStep(ws[m - 1].db, ws[m].db, t, u, Rows(ws[k].db, t)[u]);
    } else {
      RunInv(ws, ops, k);
    }
  }

  /** `Product.stock` agrees with the inventory in every reachable state. */
  lemma CacheAgrees(ws: seq<World>, ops: seq<Op>, k: nat, p: Id)
    requires IsRun(ws, ops) && k < |ws| && p in ws[k].db.products
    requires exists u :: u in Rows(ws[k].db, ws[k].db.products[p].productType)
                         && Rows(ws[k].db, ws[k].db.products[p].productType)[u].productId == p
    ensures ws[k].db.products[p].stock
         == |Avail(Rows(ws[k].db, ws[k].db.products[p].productType), p)|
  {
    RunInv(ws, ops, k);
  }

  /** Payment and order status agree in every reachable state. */
  lemma PaymentAndOrderAgree(ws: seq<World>, ops: seq<Op>, k: nat, y: Id)
    requires IsRun(ws, ops) && k < |ws| && y in ws[k].db.payments
    ensures ws[k].db.payments[y].orderId in ws[k].db.orders
    ensures var status := ws[k].db.orders[ws[k].db.payments[y].orderId].status;
      && (ws[k].db.payments[y].status.Rejected? ==> status.Cancelled?)
      && (ws[k].db.payments[y].status.Approved? ==> !status.Pending? && !status.AwaitingPayment?)
  {
    RunInv(ws, ops, k);
  }

  /** A coupon's count is the number of committed orders that carry it, within its limit. */
  lemma CouponQuota(ws: seq<World>, ops: seq<Op>, k: nat, c: Id)
    requires IsRun(ws, ops) && k < |ws| && c in ws[k].db.coupons
    ensures ws[k].db.coupons[c].usedCount
         == |set o | o in ws[k].db.orders && ws[k].db.orders[o].couponId == Some(c)|
    ensures ws[k].db.coupons[c].maxUses.Some? ==>
      ws[k].db.coupons[c].usedCount <= ws[k].db.coupons[c].maxUses.value
  {
    RunInv(ws, ops, k);
    assert Carrying(ws[k].db, c) == set o | o in ws[k].db.orders && ws[k].db.orders[o].couponId == Some(c);
  }

  /** Cancelling or refunding an order never frees a unit in a reachable state. */
  lemma ReleaseNeverFires(ws: seq<World>, ops: seq<Op>, k: nat, o: Id, status: OrderStatus)
    requires IsRun(ws, ops) && k < |ws| && UpdateStatus(ws[k].db, o, status).Some?
    ensures UpdateStatus(ws[k].db, o, status).value == SetStatus(ws[k].db, o, status)
  {
    RunInv(ws, ops, k);
    UpdateStatusKeeps(ws[k].db, o, status);
  }

  /** No product that was off is on afterwards. */
  ghost predicate NoneSwitchedOn(s: State, s': State) {
    forall p | p in s.products && p in s'.products && !s.products[p].isActive :: !s'.products[p].isActive
  }

  lemma UnitSyncNeverActivates(s: State, s1: State, t: ProductType, p: Id)
    requires s1.products == s.products && p in s.products
    ensures NoneSwitchedOn(s, SyncUnitSide(s1, t, p))
  {
  }

  lemma InventoryNeverActivates(s: State, t: ProductType, p: Id, n: nat, u: Id, i: Id)
    ensures p in s.products ==> NoneSwitchedOn(s, Import(s, t, p, n))
    ensures DeleteUnit(s, t, u).Some? ==> NoneSwitchedOn(s, DeleteUnit(s, t, u).value)
    ensures ReserveKey(s, u, i).Some? ==> NoneSwitchedOn(s, ReserveKey(s, u, i).value)
    ensures MarkDelivered(s, t, u).Some? ==> NoneSwitchedOn(s, MarkDelivered(s, t, u).value)
  {
    hide SyncUnitSide, NoneSwitchedOn, Avail, Named, NewRows;
    if p in s.products {
      UnitSyncNeverActivates(s, Inserted(s, t, p, n), t, p);
    }
    if u in Rows(s, t) && Rows(s, t)[u].productId in s.products {
      var row := Rows(s, t)[u];
      UnitSyncNeverActivates(s, WithRows(s, t, Rows(s, t) - {u}), t, row.productId);
      UnitSyncNeverActivates(
        s, WithRows(s, t, Rows(s, t)[u := row.(status := UnitStatus.Delivered)]), t, row.productId);
    }
    if u in s.keys && s.keys[u].productId in s.products {
      var row := s.keys[u].(status := UnitStatus.Reserved, orderItemId := Some(i));
      UnitSyncNeverActivates(s, s.(keys := s.keys[u := row]), Key, row.productId);
    }
  }

  lemma OrdersNeverActivate(
    s: State, userId: Id, reqs: seq<Request>, coupon: Option<CouponData>, o: Id, status: OrderStatus)
    ensures PlaceOrder(s, userId, reqs, coupon).Some? ==>
      NoneSwitchedOn(s, PlaceOrder(s, userId, reqs, coupon).value)
    ensures UpdateStatus(s, o, status).Some? ==> NoneSwitchedOn(s, UpdateStatus(s, o, status).value)
  {
  }

  lemma DeliveryNeverActivates(s: State, s': State, o: Id, lines: seq<Line>, ok: bool)
    requires Delivers(s, s', o, lines, ok)
    ensures NoneSwitchedOn(s, s')
  {
  }

  lemma DeliveryOrParkNeverActivates(s: State, s': State, o: Id)
    requires DeliversOrParks(s, s', o)
    ensures NoneSwitchedOn(s, s')
  {
    hide IsSnapshot, CanDeliver, Allocated;
  }

  lemma EventsNeverActivate(s: State, s': State, e: Event, res: WebhookResult)
    requires Handles(s, s', e, res)
    ensures NoneSwitchedOn(s, s')
  {
    hide DeliversOrParks, AmountAccepted;
    if (e.name.PaymentReceived? || e.name.PaymentConfirmed?) && Found(s, e.tx) {
      var y, ok :| ByTx(s, e.tx.value, y) && s.payments[y].orderId in s.orders
                   && Receives(s, s', y, e.value, ok);
      if s' != s {
        DeliveryOrParkNeverActivates(Approve(s, y), s', s.payments[y].orderId);
      }
    }
  }

  lemma PaymentsNeverActivate(s: State, r: PayRequest, res: PayResult)
    requires Pays(s, r, res)
    ensures NoneSwitchedOn(s, res.state)
  {
    assert res.state.products == s.products;
  }

  lemma DropNeverActivates(s: State, p: Id)
    ensures DeleteProduct(s, p).Some? ==> NoneSwitchedOn(s, DeleteProduct(s, p).value)
  {
  }

  lemma InventoryOpsNeverActivate(w: World, w': World, op: Op)
    requires Numbers(w.db) && Next(w, w', op) && OnInventory(op) && !op.EditProduct?
    ensures NoneSwitchedOn(w.db, w'.db)
  {
    hide Import, DeleteUnit, ReserveKey, MarkDelivered, DeleteProduct;
    if w'.db != w.db {
      match op
      case NewProduct(_, _, _, _) =>
      case DropProduct(p) => DropNeverActivates(w.db, p);
      case ImportRows(t, p, n) => InventoryNeverActivates(w.db, t, p, n, 0, 0);
      case DropUnit(t, u) => InventoryNeverActivates(w.db, t, 0, 0, u, 0);
      case Reserve(u, i) => InventoryNeverActivates(w.db, Key, 0, 0, u, i);
      case HandOver(t, u) => InventoryNeverActivates(w.db, t, 0, 0, u, 0);
    }
  }

  lemma OrderOpsNeverActivate(w: World, w': World, op: Op)
    requires Next(w, w', op) && !OnInventory(op) && w'.db.products != w.db.products
    ensures NoneSwitchedOn(w.db, w'.db)
  {
    hide Handles, Delivers, Pays, PlaceOrder, UpdateStatus, Checks, CheckedData, Refundable, IsSnapshot;
    match op
    case Buy(userId, reqs) => OrdersNeverActivate(w.db, userId, reqs, None, 0, OrderStatus.Pending);
    case BuyChecked(userId, caller) =>
      OrdersNeverActivate(
        w.db, userId, w.checks[caller].reqs, Some(w.checks[caller].coupon), 0, OrderStatus.Pending);
    case ChangeStatus(o, status) => OrdersNeverActivate(w.db, 0, [], None, o, status);
    case FinishDelivery(caller) =>
      var ok :| Delivers(w.db, w'.db, w.delivering[caller].orderId, w.delivering[caller].lines, ok);
      DeliveryNeverActivates(w.db, w'.db, w.delivering[caller].orderId, w.delivering[caller].lines, ok);
    case Pay(r) =>
      var res :| Pays(w.db, r, res) && w' == w.(db := res.state);
      PaymentsNeverActivate(w.db, r, res);
    case Webhook(e) =>
      var res :| Handles(w.db, w'.db, e, res);
      EventsNeverActivate(w.db, w'.db, e, res);
  }

  /** Only an administrator's edit switches a product on. */
  lemma OnlyEditsActivate(w: World, w': World, op: Op)
    requires Numbers(w.db) && Next(w, w', op) && !op.EditProduct?
    ensures NoneSwitchedOn(w.db, w'.db)
  {
    hide Next;
    if OnInventory(op) {
      InventoryOpsNeverActivate(w, w', op);
    } else if w'.db.products != w.db.products {
      OrderOpsNeverActivate(w, w', op);
    }
  }
}
