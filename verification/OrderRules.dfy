/**
 What becomes of orders, step by step: which orders commit and how many units they may ask for,
 how a status may change, and when a delivery goes through.
 */
module OrderRules {
  import opened Store
  import opened Pricing
  import opened Fulfilment
  import opened Invariants
  import opened OrderInvariants
  import opened Runs
  import OrderTotals
  import Orders
  import opened UnitRules

  // ---- how a status may change ----

  /** The nine transitions an administrator may make. */
  predicate Transition(a: OrderStatus, b: OrderStatus) {
    || (a == OrderStatus.Pending && b == OrderStatus.AwaitingPayment)
    || (a == OrderStatus.Pending && b == OrderStatus.Cancelled)
    || (a == OrderStatus.AwaitingPayment && b == OrderStatus.Paid)
    || (a == OrderStatus.AwaitingPayment && b == OrderStatus.Cancelled)
    || (a == OrderStatus.Paid && b == OrderStatus.Processing)
    || (a == OrderStatus.Paid && b == OrderStatus.Delivered)
    || (a == OrderStatus.Paid && b == OrderStatus.Refunded)
    || (a == OrderStatus.Processing && b == OrderStatus.Delivered)
    || (a == OrderStatus.Processing && b == OrderStatus.Cancelled)
  }

  /** Why the status of order `o` changed from `a` to `b` in one step. */
  predicate Reason(w: World, op: Op, o: Id, a: OrderStatus, b: OrderStatus) {
    match op
    case ChangeStatus(o', status) => o' == o && status == b && Transition(a, b)
    case FinishDelivery(caller) =>
      && caller in w.delivering && w.delivering[caller].orderId == o
      && a == OrderStatus.Paid && b == OrderStatus.Delivered
    case Webhook(e) =>
      if e.name.PaymentCancelled? then b == OrderStatus.Cancelled
      else (e.name.PaymentReceived? || e.name.PaymentConfirmed?)
           && (b == OrderStatus.Delivered || b == OrderStatus.Processing)
    case _ => false
  }

  lemma DeliveryStatus(s: State, s': State, o': Id, lines: seq<Line>, o: Id)
    requires Committed(s, s', o', lines) && o in s.orders
    ensures o in s'.orders
    ensures s'.orders[o].status == if o == o' then OrderStatus.Delivered else s.orders[o].status
  {
    hide Allocated;
  }

  lemma ReceiptStatus(s: State, s': State, z: Id, value: EventValue, ok: bool, o: Id)
    requires z in s.payments && s.payments[z].orderId in s.orders && Receives(s, s', z, value, ok)
    requires o in s.orders
    ensures o in s'.orders
    ensures s'.orders[o].status == s.orders[o].status
         || s'.orders[o].status == OrderStatus.Delivered || s'.orders[o].status == OrderStatus.Processing
  {
    hide CanDeliver, IsSnapshot, Allocated, AmountAccepted;
  }

  lemma EventStatus(s: State, s': State, e: Event, res: WebhookResult, o: Id)
    requires Handles(s, s', e, res) && o in s.orders
    ensures o in s'.orders
    ensures s'.orders[o].status != s.orders[o].status ==>
      if e.name.PaymentCancelled? then s'.orders[o].status == OrderStatus.Cancelled
      else (e.name.PaymentReceived? || e.name.PaymentConfirmed?)
           && (s'.orders[o].status == OrderStatus.Delivered || s'.orders[o].status == OrderStatus.Processing)
  {
    hide Receives;
    if (e.name.PaymentReceived? || e.name.PaymentConfirmed?) && Found(s, e.tx) {
      var z, ok :| ByTx(s, e.tx.value, z) && s.payments[z].orderId in s.orders
                   && Receives(s, s', z, e.value, ok);
      ReceiptStatus(s, s', z, e.value, ok, o);
    }
  }

  /** What a status update does to the status of every order, released units or not. */
  lemma UpdateOutcome(s: State, o: Id, status: OrderStatus)
    ensures UpdateStatus(s, o, status).Some? <==> o in s.orders && Transition(s.orders[o].status, status)
    ensures UpdateStatus(s, o, status).Some? ==>
      UpdateStatus(s, o, status).value.orders == s.orders[o := s.orders[o].(status := status)]
  {
    hide SyncOrderSide, Held, Freed, Touched;
    OrderTotals.SyncKeepsBooks(
      s.(keys := Freed(s.keys, Held(s, o, Key)), accounts := Freed(s.accounts, Held(s, o, Account))),
      Touched(s, o));
  }

  /** In any step an order's status changes only for one of the reasons there are. */
  lemma StatusChange(w: World, w': World, op: Op, o: Id)
    requires Numbers(w.db) && Next(w, w', op) && o in w.db.orders && o in w'.db.orders
    requires w'.db.orders[o].status != w.db.orders[o].status
    ensures Reason(w, op, o, w.db.orders[o].status, w'.db.orders[o].status)
  {
    if op.ChangeStatus? {
      hide UpdateStatus;
      UpdateOutcome(w.db, op.order, op.status);
    } else if op.FinishDelivery? {
      hide Committed;
      DeliveryStatus(w.db, w'.db, w.delivering[op.caller].orderId, w.delivering[op.caller].lines, o);
    } else if op.Webhook? {
      hide Handles;
      var res :| Handles(w.db, w'.db, op.event, res);
      EventStatus(w.db, w'.db, op.event, res, o);
    } else if op.Buy? || op.BuyChecked? {
      hide PlaceOrder;
      PurchaseStatus(w, w', op, o);
    } else {
      hide Next;
      OrderTotals.QuietOpsKeepBooks(w, w', op);
    }
  }

  lemma PurchaseStatus(w: World, w': World, op: Op, o: Id)
    requires Numbers(w.db) && Next(w, w', op) && (op.Buy? || op.BuyChecked?) && o in w.db.orders
    ensures o in w'.db.orders && w'.db.orders[o] == w.db.orders[o]
  {
    hide Flat, Numbered, NewOrder, SyncOrderSide, EnoughStock, CouponFree;
    if op.BuyChecked? && op.caller in w.checks {
      PlacedBooks(w.db, op.userId, w.checks[op.caller].reqs, Some(w.checks[op.caller].coupon));
    } else if op.Buy? {
      PlacedBooks(w.db, op.userId, op.reqs, None);
    }
  }

  lemma PlacedBooks(s: State, userId: Id, reqs: seq<Request>, coupon: Option<CouponData>)
    ensures PlaceOrder(s, userId, reqs, coupon).Some? ==>
      && Known(s.products, reqs)
      && PlaceOrder(s, userId, reqs, coupon).value.orders
         == s.orders[s.nextId := NewOrder(s, userId, reqs, coupon)]
  {
    hide Flat, Numbered, NewOrder, SyncOrderSide, EnoughStock;
    if PlaceOrder(s, userId, reqs, coupon).Some? {
      OrderTotals.SyncKeepsBooks(OrderRows(s, userId, reqs, coupon), Asked(reqs));
    }
  }

  /** An order is PAID only after AWAITING_PAYMENT, and AWAITING_PAYMENT only after PENDING. */
  lemma PaidOnlyAfterAwaiting(ws: seq<World>, ops: seq<Op>, k: nat, o: Id)
    requires IsRun(ws, ops) && k < |ops| && o in ws[k].db.orders && o in ws[k + 1].db.orders
    requires ws[k + 1].db.orders[o].status != ws[k].db.orders[o].status
    ensures ws[k + 1].db.orders[o].status == OrderStatus.Paid ==>
      ws[k].db.orders[o].status == OrderStatus.AwaitingPayment && ops[k] == ChangeStatus(o, OrderStatus.Paid)
    ensures ws[k + 1].db.orders[o].status == OrderStatus.AwaitingPayment ==>
      ws[k].db.orders[o].status == OrderStatus.Pending && ops[k] == ChangeStatus(o, OrderStatus.AwaitingPayment)
    ensures ws[k + 1].db.orders[o].status != OrderStatus.Pending
  {
    hide Next;
    RunInv(ws, ops, k);
    assert StepAt(ws, ops, k);
    StatusChange(ws[k], ws[k + 1], ops[k], o);
  }

  // ---- when a delivery goes through ----

  /** The lines of product `p` and type `t` whose own slot was seen empty, by item. */
  function Unserved(lines: seq<Line>, t: ProductType, p: Id): set<Id> {
    set l | l in lines && l.productType == t && l.productId == p
            && !(if t.Account? then l.hasAccount else l.hasKey) :: l.id
  }

  lemma DemandExactly(lines: seq<Line>, t: ProductType, p: Id)
    requires DistinctIds(lines)
    ensures Demand(lines, t, p) == |Unserved(lines, t, p)|
  {
    Orders.DemandIsCount(lines, t, p);
    assert Orders.Asking(lines, t, p) == Unserved(lines, t, p);
  }

  /** Some unit of the line's type already names its item. */
  predicate Taken(s: State, l: Line) {
    if l.productType.Account? then exists u | u in s.accounts :: s.accounts[u].orderItemId == Some(l.id)
    else exists u | u in s.keys :: s.keys[u].orderItemId == Some(l.id)
  }

  /**
   A delivery goes through exactly when the order is PAID, every line is one unit, no unit names
   a line that still asks for one, and each product has an AVAILABLE unit for each such line.
   */
  lemma DeliverableExactly(s: State, o: Id, lines: seq<Line>)
    requires DistinctIds(lines)
    ensures CanDeliver(s, o, lines) <==>
      && o in s.orders && s.orders[o].status == OrderStatus.Paid
      && (forall l | l in lines :: l.quantity == 1)
      && (forall l | l in lines && !(if l.productType.Account? then l.hasAccount else l.hasKey) :: !Taken(s, l))
      && (forall t, p :: |Unserved(lines, t, p)| <= |Sellable(s, t, p)|)
  {
    forall t, p
      ensures Demand(lines, t, p) == |Unserved(lines, t, p)| && Avail(Rows(s, t), p) == Sellable(s, t, p)
    {
      DemandExactly(lines, t, p);
      SellableIsAvail(s, t, p);
    }
    assert forall l | l in lines :: Taken(s, l) <==> Named(Rows(s, l.productType), l.id);
  }

  /** Item `i` of the new state holds a unit of its product that was on sale before. */
  ghost predicate Sold(s: State, s': State, l: Line) {
    if l.productType.Account? then exists u ::
      && u in Sellable(s, Account, l.productId) && u in s'.accounts && l.id in s'.items
      && s'.accounts[u] == Unit(l.productId, UnitStatus.Delivered, Some(l.id))
      && s'.items[l.id].accountId == Some(u)
    else exists u ::
      && u in Sellable(s, Key, l.productId) && u in s'.keys && l.id in s'.items
      && s'.keys[u] == Unit(l.productId, UnitStatus.Delivered, Some(l.id))
      && s'.items[l.id].keyId == Some(u)
  }

  /** What a product looks like once its units have been counted again. */
  ghost predicate Recounted(before: Product, after: Product, s': State, p: Id) {
    && after.stock == |Sellable(s', before.productType, p)|
    && (after.isActive <==> before.isActive && |Sellable(s', before.productType, p)| > 0)
    && after.price == before.price && after.productType == before.productType
  }

  lemma SyncRecounts(s: State, ps: set<Id>, p: Id)
    requires p in s.products
    ensures p in SyncOrderSide(s, ps).products
    ensures p in ps ==> Recounted(s.products[p], SyncOrderSide(s, ps).products[p], SyncOrderSide(s, ps), p)
    ensures p !in ps ==> SyncOrderSide(s, ps).products[p] == s.products[p]
  {
    SellableIsAvail(s, s.products[p].productType, p);
    SellableIsAvail(SyncOrderSide(s, ps), s.products[p].productType, p);
  }

  /**
   What a delivery leaves: the order DELIVERED, every unserved line with a unit of its own that
   was on sale, and the products served recounted, switched off when nothing is left.
   */
  lemma DeliveredExactly(s: State, s': State, o: Id, lines: seq<Line>)
    requires Committed(s, s', o, lines) && DistinctIds(lines)
    ensures s'.orders == s.orders[o := s.orders[o].(status := OrderStatus.Delivered)]
    ensures s'.payments == s.payments && s'.coupons == s.coupons
    ensures forall i | i in s.items && (forall t, p :: i !in Unserved(lines, t, p)) ::
      i in s'.items && s'.items[i] == s.items[i]
    ensures forall l | l in lines && !(if l.productType.Account? then l.hasAccount else l.hasKey) :: Sold(s, s', l)
    ensures forall p | p in s.products ::
      && p in s'.products
      && if exists t :: Unserved(lines, t, p) != {}
         then Recounted(s.products[p], s'.products[p], s', p) else s'.products[p] == s.products[p]
  {
    var moved := s.(keys := s'.keys, accounts := s'.accounts, items := s'.items);
    var served := ServedProducts(lines);
    OrderTotals.SyncKeepsBooks(moved, served);
    forall l | l in lines && !(if l.productType.Account? then l.hasAccount else l.hasKey)
      ensures Sold(s, s', l)
    {
      assert Gets(s, s', l);
    }
    forall i | i in s.items && (forall t, p :: i !in Unserved(lines, t, p))
      ensures i in s'.items && s'.items[i] == s.items[i]
    {
      UnservedServed(lines, i);
      AllocatedItem(s, s', lines, i);
    }
    hide Allocated, Gets, SyncOrderSide;
    forall p | p in s.products
      ensures p in s'.products
      ensures if exists t :: Unserved(lines, t, p) != {}
              then Recounted(s.products[p], s'.products[p], s', p) else s'.products[p] == s.products[p]
    {
      ServedExactly(lines, p);
      SyncRecounts(moved, served, p);
      SyncKeepsUnits(moved, served);
    }
  }

  lemma UnservedServed(lines: seq<Line>, i: Id)
    ensures i in Served(lines) <==> exists t, p :: i in Unserved(lines, t, p)
  {
    if i in Served(lines) {
      var l :| l in lines && Wants(l) && l.id == i;
      assert i in Unserved(lines, l.productType, l.productId);
    }
  }

  lemma SyncKeepsUnits(s: State, ps: set<Id>)
    ensures SyncOrderSide(s, ps).keys == s.keys && SyncOrderSide(s, ps).accounts == s.accounts
  {
  }

  lemma ServedExactly(lines: seq<Line>, p: Id)
    ensures p in ServedProducts(lines) <==> exists t :: Unserved(lines, t, p) != {}
  {
    if p in ServedProducts(lines) {
      var l :| l in lines && Wants(l) && l.productId == p;
      assert l.id in Unserved(lines, l.productType, p);
    }
    if t :| Unserved(lines, t, p) != {} {
      var i :| i in Unserved(lines, t, p);
    }
  }

  // ---- which orders commit ----

  /** A cart passes the coupon check when all of it is on sale and the coupon is accepted for its price. */
  lemma ChecksExactly(s: State, reqs: seq<Request>, code: Id, now: nat)
    ensures Checks(s, reqs, code, now) <==>
      && (forall r | r in reqs :: r.productId in s.products && s.products[r.productId].isActive)
      && code in s.coupons && ValidForUse(s.coupons[code], Subtotal(s.products, reqs), now)
    ensures Checks(s, reqs, code, now) ==> CheckedData(s, reqs, code) == CouponData(
      code, Discount(s.coupons[code], Subtotal(s.products, reqs)), s.coupons[code].maxUses)
  {
  }

  /** The items that came in with a step, of product `p`. */
  function Arrived(s: State, s': State, p: Id): set<Id> {
    set i | i in s'.items && i !in s.items && s'.items[i].productId == p
  }

  function NumberedOf(first: Id, flat: seq<Item>, p: Id): set<Id> {
    set i | i in Numbered(first, flat) && Numbered(first, flat)[i].productId == p
  }

  lemma {:induction false} NumberedCount(first: Id, flat: seq<Item>, p: Id)
    ensures |NumberedOf(first, flat, p)| == CountOf(flat, p)
  {
    if flat != [] {
      var front, last := flat[..|flat| - 1], first + |flat| - 1;
      NumberedCount(first, front, p);
      if flat[|flat| - 1].productId == p {
        assert NumberedOf(first, flat, p) == NumberedOf(first, front, p) + {last};
        assert last !in NumberedOf(first, front, p);
      } else {
        assert NumberedOf(first, flat, p) == NumberedOf(first, front, p);
      }
    }
  }

  lemma ArrivedFlat(s: State, s': State, reqs: seq<Request>, p: Id)
    requires Numbers(s) && Known(s.products, reqs)
    requires s'.items == s.items + Numbered(s.nextId + 1, Flat(s.products, s.nextId, reqs))
    ensures |Arrived(s, s', p)| == Requested(reqs, p)
  {
    hide Flat, Numbered, Arrived, NumberedOf, Requested, CountOf, Numbers;
    var flat := Flat(s.products, s.nextId, reqs);
    NumberedCount(s.nextId + 1, flat, p);
    FlatCounts(s.products, s.nextId, reqs, p);
    ArrivedNumbered(s, s', flat, p);
  }

  /** An order that commits brings in exactly the units asked for, of each product. */
  lemma ArrivedCount(s: State, userId: Id, reqs: seq<Request>, coupon: Option<CouponData>, p: Id)
    requires Numbers(s) && Linked(s) && PlaceOrder(s, userId, reqs, coupon).Some?
    ensures |Arrived(s, PlaceOrder(s, userId, reqs, coupon).value, p)| == Requested(reqs, p)
  {
    hide Flat, Numbered, NewOrder, Arrived, Requested, SyncOrderSide, Linked, Numbers;
    OrderTotals.PlacedItems(s, userId, reqs, coupon);
    ArrivedFlat(s, PlaceOrder(s, userId, reqs, coupon).value, reqs, p);
  }

  lemma ArrivedNumbered(s: State, s': State, flat: seq<Item>, p: Id)
    requires Numbers(s) && s'.items == s.items + Numbered(s.nextId + 1, flat)
    ensures Arrived(s, s', p) == NumberedOf(s.nextId + 1, flat, p)
  {
    hide Numbered;
    var rows := Numbered(s.nextId + 1, flat);
    forall i
      ensures i in Arrived(s, s', p) <==> i in NumberedOf(s.nextId + 1, flat, p)
    {
      assert i in rows ==> i !in s.items;
    }
  }

  /** The step is a purchase that committed: there is a new order. */
  predicate Commits(w: World, w': World, op: Op) {
    (op.Buy? || op.BuyChecked?) && w.db.nextId in w'.db.orders
  }

  /** A purchase, and not one of a checkout that is not in flight. */
  predicate Prepared(w: World, op: Op) {
    op.Buy? || (op.BuyChecked? && op.caller in w.checks)
  }

  /** The cart that a purchase step buys, and its coupon. */
  function CartOf(w: World, op: Op): seq<Request>
    requires Prepared(w, op)
  {
    if op.Buy? then op.reqs else w.checks[op.caller].reqs
  }

  function CouponOf(w: World, op: Op): Option<CouponData>
    requires Prepared(w, op)
  {
    if op.Buy? then None else Some(w.checks[op.caller].coupon)
  }

  lemma PurchaseOutcome(w: World, w': World, op: Op)
    requires Numbers(w.db) && Next(w, w', op) && (op.Buy? || op.BuyChecked?)
    ensures Commits(w, w', op) ==> Prepared(w, op)
    ensures Commits(w, w', op) ==> PlaceOrder(w.db, op.userId, CartOf(w, op), CouponOf(w, op)) == Some(w'.db)
    ensures !Commits(w, w', op) ==> w'.db == w.db
    ensures !Commits(w, w', op) && Prepared(w, op) ==>
      PlaceOrder(w.db, op.userId, CartOf(w, op), CouponOf(w, op)).None?
  {
    hide PlaceOrder;
    if op.Buy? || op.caller in w.checks {
      PlacedBooks(w.db, op.userId, CartOf(w, op), CouponOf(w, op));
    }
  }

  /** There are units of the product, in any state. */
  predicate Stocked(s: State, t: ProductType, p: Id) {
    exists u | u in Rows(s, t) :: Rows(s, t)[u].productId == p
  }

  /** In any run, an order that commits takes no more units of a product than are AVAILABLE. */
  lemma OrderFitsStock(ws: seq<World>, ops: seq<Op>, k: nat, p: Id)
    requires IsRun(ws, ops) && k < |ops| && Commits(ws[k], ws[k + 1], ops[k])
    requires p in ws[k].db.products && Stocked(ws[k].db, ws[k].db.products[p].productType, p)
    ensures |Arrived(ws[k].db, ws[k + 1].db, p)| <= |Sellable(ws[k].db, ws[k].db.products[p].productType, p)|
  {
    var s := ws[k].db;
    RunInv(ws, ops, k);
    CacheAgrees(ws, ops, k, p);
    assert StepAt(ws, ops, k);
    hide IsRun, Next, Requested;
    PurchaseOutcome(ws[k], ws[k + 1], ops[k]);
    ArrivedCount(s, ops[k].userId, CartOf(ws[k], ops[k]), CouponOf(ws[k], ops[k]), p);
    SellableIsAvail(s, s.products[p].productType, p);
    NotAskedNone(CartOf(ws[k], ops[k]), p);
  }

  /** Nor more than the stock says, for a product without inventory. */
  lemma OrderFitsCache(s: State, userId: Id, reqs: seq<Request>, coupon: Option<CouponData>, p: Id)
    requires Numbers(s) && Linked(s) && PlaceOrder(s, userId, reqs, coupon).Some?
    requires exists r :: r in reqs && r.productId == p
    ensures p in s.products && |Arrived(s, PlaceOrder(s, userId, reqs, coupon).value, p)| <= s.products[p].stock
  {
    ArrivedCount(s, userId, reqs, coupon, p);
    hide Flat, Numbered, NewOrder, SyncOrderSide, Requested, Arrived, Linked, Numbers;
    assert p in Asked(reqs);
  }

  lemma NotAskedNone(reqs: seq<Request>, p: Id)
    ensures p in Asked(reqs) || Requested(reqs, p) == 0
  {
    if p !in Asked(reqs) {
      RequestedZero(reqs, p);
    }
  }

  /** Nothing stands in the way of the purchase: products on sale, units enough, a use left. */
  ghost predicate Purchasable(w: World, op: Op)
    requires Prepared(w, op)
  {
    && (forall r | r in CartOf(w, op) ::
          && r.productId in w.db.products && w.db.products[r.productId].isActive
          && Stocked(w.db, w.db.products[r.productId].productType, r.productId)
          && Requested(CartOf(w, op), r.productId)
             <= |Sellable(w.db, w.db.products[r.productId].productType, r.productId)|)
    && (op.BuyChecked? ==>
          var c := w.checks[op.caller].coupon;
          && c.couponId in w.db.coupons
          && (c.maxUses.Some? ==> w.db.coupons[c.couponId].usedCount < c.maxUses.value))
  }

  lemma StepFacts(ws: seq<World>, ops: seq<Op>, k: nat)
    requires IsRun(ws, ops) && k < |ops|
    ensures Numbers(ws[k].db) && Next(ws[k], ws[k + 1], ops[k])
  {
    hide Next;
    RunInv(ws, ops, k);
    assert StepAt(ws, ops, k);
  }

  /** And then the purchase commits. */
  lemma EnoughCommits(ws: seq<World>, ops: seq<Op>, k: nat)
    requires IsRun(ws, ops) && k < |ops|
    requires Prepared(ws[k], ops[k])
    requires Purchasable(ws[k], ops[k])
    ensures Commits(ws[k], ws[k + 1], ops[k])
  {
    hide Next, PlaceOrder, Requested, Inv;
    var s, reqs := ws[k].db, CartOf(ws[k], ops[k]);
    StepFacts(ws, ops, k);
    forall r | r in reqs
      ensures r.productId in s.products && s.products[r.productId].stock >= Requested(reqs, r.productId)
    {
      CacheAgrees(ws, ops, k, r.productId);
      SellableIsAvail(s, s.products[r.productId].productType, r.productId);
    }
    PurchaseOutcome(ws[k], ws[k + 1], ops[k]);
    NothingStands(s, ops[k].userId, reqs, CouponOf(ws[k], ops[k]));
  }

  lemma NothingStands(s: State, userId: Id, reqs: seq<Request>, coupon: Option<CouponData>)
    requires forall r | r in reqs ::
      && r.productId in s.products && s.products[r.productId].isActive
      && s.products[r.productId].stock >= Requested(reqs, r.productId)
    requires coupon.Some? ==>
      && coupon.value.couponId in s.coupons
      && (coupon.value.maxUses.Some? ==> s.coupons[coupon.value.couponId].usedCount < coupon.value.maxUses.value)
    ensures PlaceOrder(s, userId, reqs, coupon).Some?
  {
    hide Flat, Numbered, NewOrder, SyncOrderSide, Requested, Subtotal;
  }

  // ---- what a purchase leaves ----

  /** The new order row, its items, the recounted products and the counted coupon. */
  lemma PlacedExactly(s: State, userId: Id, reqs: seq<Request>, coupon: Option<CouponData>)
    requires Numbers(s) && Linked(s) && PlaceOrder(s, userId, reqs, coupon).Some?
    ensures var s', o := PlaceOrder(s, userId, reqs, coupon).value, s.nextId;
      && s'.orders.Keys == s.orders.Keys + {o} && (forall x | x in s.orders :: s'.orders[x] == s.orders[x])
      && s'.orders[o].userId == userId && s'.orders[o].status == OrderStatus.Pending
      && s'.orders[o].discountAmount == (if coupon.Some? then coupon.value.discountAmount else 0.0)
      && s'.orders[o].couponId == (if coupon.Some? then Some(coupon.value.couponId) else None)
      && (forall i | i in s'.items && i !in s.items ::
            s'.items[i].productId in s.products
            && s'.items[i] == Item(o, s'.items[i].productId, 1, s.products[s'.items[i].productId].price, None, None))
      && (forall p | p in s.products ::
            && p in s'.products
            && if exists r :: r in reqs && r.productId == p then Recounted(s.products[p], s'.products[p], s', p)
               else s'.products[p] == s.products[p])
      && (forall c | c in s.coupons ::
            && c in s'.coupons
            && s'.coupons[c] == if coupon.Some? && coupon.value.couponId == c
                                then s.coupons[c].(usedCount := s.coupons[c].usedCount + 1) else s.coupons[c])
  {
    var s' := PlaceOrder(s, userId, reqs, coupon).value;
    var s1 := OrderRows(s, userId, reqs, coupon);
    var flat := Flat(s.products, s.nextId, reqs);
    OrderTotals.PlacedItems(s, userId, reqs, coupon);
    hide Flat, Numbered, SyncOrderSide, Subtotal, EnoughStock;
    FlatRows(s.products, s.nextId, reqs);
    OrderTotals.SyncKeepsBooks(s1, Asked(reqs));
    SyncKeepsUnits(s1, Asked(reqs));
    forall i | i in s'.items && i !in s.items
      ensures s'.items[i] in flat
    {
      assert i in Numbered(s.nextId + 1, flat);
    }
    forall p | p in s.products
      ensures p in s'.products
      ensures if exists r :: r in reqs && r.productId == p then Recounted(s.products[p], s'.products[p], s', p)
              else s'.products[p] == s.products[p]
    {
      SyncRecounts(s1, Asked(reqs), p);
    }
  }

  lemma {:induction false} FlatRows(products: map<Id, Product>, o: Id, reqs: seq<Request>)
    requires Known(products, reqs)
    ensures forall it | it in Flat(products, o, reqs) ::
      it.productId in products && it == Item(o, it.productId, 1, products[it.productId].price, None, None)
  {
    if reqs != [] {
      FlatRows(products, o, reqs[..|reqs| - 1]);
    }
  }
}
