/**
 What an order costs, over whole runs of the shop: the total an order row stores is the sum
 of its items' prices less the discount its coupon was checked for. The discount comes from
 one reading of the prices and the items from a later one.
 */
module OrderTotals {
  import opened Store
  import opened Pricing
  import opened Fulfilment
  import opened Invariants
  import opened OrderInvariants
  import opened Runs

  /** The prices of a set of items, added up in any order. */
  ghost function PriceSum(items: map<Id, Item>, ids: set<Id>): real
    requires ids <= items.Keys
  {
    if ids == {} then 0.0
    else
      var i :| i in ids;
      PriceSum(items, ids - {i}) + items[i].price
  }

  lemma {:induction false} PriceSumWithout(items: map<Id, Item>, ids: set<Id>, i: Id)
    requires ids <= items.Keys && i in ids
    ensures PriceSum(items, ids) == PriceSum(items, ids - {i}) + items[i].price
  {
    var j :| j in ids && PriceSum(items, ids) == PriceSum(items, ids - {j}) + items[j].price;
    if j != i {
      PriceSumWithout(items, ids - {j}, i);
      PriceSumWithout(items, ids - {i}, j);
      assert ids - {j} - {i} == ids - {i} - {j};
    }
  }

  lemma {:induction false} PriceSumSame(items: map<Id, Item>, items': map<Id, Item>, ids: set<Id>)
    requires ids <= items.Keys && ids <= items'.Keys
    requires forall i | i in ids :: items'[i].price == items[i].price
    ensures PriceSum(items', ids) == PriceSum(items, ids)
  {
    if ids != {} {
      var i :| i in ids;
      PriceSumWithout(items, ids, i);
      PriceSumWithout(items', ids, i);
      PriceSumSame(items, items', ids - {i});
    }
  }

  /** Numbering a list of items keeps what they cost. */
  lemma {:induction false} NumberedSum(first: Id, flat: seq<Item>)
    ensures PriceSum(Numbered(first, flat), Numbered(first, flat).Keys) == SumOf(flat)
  {
    if flat != [] {
      var front := flat[..|flat| - 1];
      var last := first + |flat| - 1;
      var rows := Numbered(first, flat);
      NumberedSum(first, front);
      PriceSumWithout(rows, rows.Keys, last);
      assert rows.Keys - {last} == Numbered(first, front).Keys;
      PriceSumSame(Numbered(first, front), rows, rows.Keys - {last});
    }
  }

  /** Every order costs what its items cost, less its discount. */
  ghost predicate TotalsAgree(s: State) {
    forall o | o in s.orders :: TotalAgrees(s, o)
  }

  ghost predicate TotalAgrees(s: State, o: Id)
    requires o in s.orders
  {
    && s.orders[o].subtotal == PriceSum(s.items, ItemsOf(s, o))
    && s.orders[o].total == s.orders[o].subtotal - s.orders[o].discountAmount
  }

  // ---- operations that do not place an order ----

  /** The same orders and items, with the same amounts. */
  ghost predicate AmountsKept(s: State, s': State) {
    && s'.orders.Keys == s.orders.Keys && s'.items.Keys == s.items.Keys
    && (forall o | o in s.orders ::
          && s'.orders[o].subtotal == s.orders[o].subtotal && s'.orders[o].total == s.orders[o].total
          && s'.orders[o].discountAmount == s.orders[o].discountAmount)
    && (forall i | i in s.items ::
          s'.items[i].orderId == s.items[i].orderId && s'.items[i].price == s.items[i].price)
  }

  lemma AmountsKeptTotals(s: State, s': State)
    requires TotalsAgree(s) && AmountsKept(s, s')
    ensures TotalsAgree(s')
  {
    forall o | o in s'.orders
      ensures TotalAgrees(s', o)
    {
      assert TotalAgrees(s, o);
      assert ItemsOf(s', o) == ItemsOf(s, o);
      PriceSumSame(s.items, s'.items, ItemsOf(s, o));
    }
  }

  lemma UnitsKeepBooks(s: State, t: ProductType, p: Id, n: nat, u: Id, i: Id)
    ensures p in s.products ==> SameBooks(s, Import(s, t, p, n))
    ensures DeleteUnit(s, t, u).Some? ==> SameBooks(s, DeleteUnit(s, t, u).value)
    ensures ReserveKey(s, u, i).Some? ==> SameBooks(s, ReserveKey(s, u, i).value)
    ensures MarkDelivered(s, t, u).Some? ==> SameBooks(s, MarkDelivered(s, t, u).value)
  {
    hide Avail, Named, NewRows;
  }

  lemma DeliveryKeepsAmounts(s: State, s': State, o: Id, lines: seq<Line>)
    requires Committed(s, s', o, lines)
    ensures AmountsKept(s, s')
  {
    hide Gets, SyncOrderSide;
    AllocatedKeys(s, s', lines);
    var moved := s.(keys := s'.keys, accounts := s'.accounts, items := s'.items);
    SyncKeepsBooks(moved, ServedProducts(lines));
    forall i | i in s.items
      ensures s'.items[i].orderId == s.items[i].orderId && s'.items[i].price == s.items[i].price
    {
      ServedPrice(s, s', lines, i);
    }
  }

  lemma SyncKeepsBooks(s: State, ps: set<Id>)
    ensures SameBooks(s, SyncOrderSide(s, ps)) && SyncOrderSide(s, ps).nextId == s.nextId
  {
  }

  lemma ServedPrice(s: State, s': State, lines: seq<Line>, i: Id)
    requires Allocated(s, s', lines) && i in s.items
    ensures i in s'.items && s'.items[i].orderId == s.items[i].orderId && s'.items[i].price == s.items[i].price
  {
    AllocatedItem(s, s', lines, i);
  }

  lemma EventsKeepAmounts(s: State, s': State, e: Event, res: WebhookResult)
    requires Handles(s, s', e, res)
    ensures AmountsKept(s, s')
  {
    hide Receives, AmountsKept;
    if (e.name.PaymentReceived? || e.name.PaymentConfirmed?) && Found(s, e.tx) {
      var y, ok :| ByTx(s, e.tx.value, y) && s.payments[y].orderId in s.orders
                   && Receives(s, s', y, e.value, ok);
      ReceiptKeepsAmounts(s, s', y, e.value, ok);
    } else if e.name.PaymentCancelled? && s' != s {
      var y :| ByTx(s, e.tx.value, y) && s.payments[y].orderId in s.orders && s' == Reject(s, y);
      LabelKeepsAmounts(s, y);
    } else {
      SameBooksAmounts(s, s');
    }
  }

  lemma SameBooksAmounts(s: State, s': State)
    requires s'.orders == s.orders && s'.items == s.items
    ensures AmountsKept(s, s')
  {
  }

  lemma LabelKeepsAmounts(s: State, y: Id)
    requires y in s.payments && s.payments[y].orderId in s.orders
    ensures AmountsKept(s, Approve(s, y)) && AmountsKept(s, Reject(s, y))
  {
  }

  lemma ReceiptKeepsAmounts(s: State, s': State, y: Id, value: EventValue, ok: bool)
    requires y in s.payments && s.payments[y].orderId in s.orders && Receives(s, s', y, value, ok)
    ensures AmountsKept(s, s')
  {
    hide DeliversOrParks, AmountAccepted;
    LabelKeepsAmounts(s, y);
    if s' != s {
      DeliversOrParksAmounts(Approve(s, y), s', s.payments[y].orderId);
    }
  }

  lemma DeliversOrParksAmounts(s: State, s': State, o: Id)
    requires DeliversOrParks(s, s', o)
    ensures AmountsKept(s, s')
  {
    hide Committed, CanDeliver, IsSnapshot;
    var lines :| IsSnapshot(s, o, lines)
      && if CanDeliver(s, o, lines) then Committed(s, s', o, lines)
         else s' == SetStatus(s, o, OrderStatus.Processing);
    if CanDeliver(s, o, lines) {
      DeliveryKeepsAmounts(s, s', o, lines);
    }
  }

  /** Most operations write neither orders nor items. */
  lemma QuietOpsKeepBooks(w: World, w': World, op: Op)
    requires Next(w, w', op) && !op.Buy? && !op.BuyChecked?
    requires !op.ChangeStatus? && !op.FinishDelivery? && !op.Webhook?
    ensures w'.db.orders == w.db.orders && w'.db.items == w.db.items
  {
    hide Import, DeleteUnit, ReserveKey, MarkDelivered, Pays, UpdateProduct, IsSnapshot, Checks, Refundable;
    match op
    case ImportRows(t, p, n) => UnitsKeepBooks(w.db, t, p, n, 0, 0);
    case DropUnit(t, u) => UnitsKeepBooks(w.db, t, 0, 0, u, 0);
    case Reserve(u, i) => UnitsKeepBooks(w.db, Key, 0, 0, u, i);
    case HandOver(t, u) => UnitsKeepBooks(w.db, t, 0, 0, u, 0);
    case EditProduct(p, price, stock, active) => EditKeepsBooks(w.db, p, price, stock, active);
    case Pay(r) =>
      var res :| Pays(w.db, r, res) && w' == w.(db := res.state);
      PayKeepsBooks(w.db, r, res);
    case _ =>
  }

  lemma OtherOpsKeepAmounts(w: World, w': World, op: Op)
    requires Next(w, w', op) && !op.Buy? && !op.BuyChecked?
    ensures AmountsKept(w.db, w'.db)
  {
    hide Handles, Committed, CanDeliver, UpdateStatus;
    match op
    case ChangeStatus(o, status) => StatusKeepsAmounts(w.db, o, status);
    case FinishDelivery(caller) =>
      if w'.db != w.db {
        DeliveryKeepsAmounts(w.db, w'.db, w.delivering[caller].orderId, w.delivering[caller].lines);
      }
    case Webhook(e) =>
      var res :| Handles(w.db, w'.db, e, res);
      EventsKeepAmounts(w.db, w'.db, e, res);
    case _ =>
      hide Next;
      QuietOpsKeepBooks(w, w', op);
      SameBooksAmounts(w.db, w'.db);
  }

  lemma EditKeepsBooks(s: State, p: Id, price: real, stock: Option<int>, active: Option<bool>)
    ensures UpdateProduct(s, p, price, stock, active).Some? ==>
      SameBooks(s, UpdateProduct(s, p, price, stock, active).value)
  {
    hide Avail, HasRows, StockOf;
  }

  lemma StatusKeepsAmounts(s: State, o: Id, status: OrderStatus)
    ensures UpdateStatus(s, o, status).Some? ==> AmountsKept(s, UpdateStatus(s, o, status).value)
  {
    hide SyncOrderSide, Held, Freed, Touched, Allowed;
    SyncKeepsBooks(
      s.(keys := Freed(s.keys, Held(s, o, Key)), accounts := Freed(s.accounts, Held(s, o, Account))),
      Touched(s, o));
  }

  lemma PayKeepsBooks(s: State, r: PayRequest, res: PayResult)
    requires Pays(s, r, res)
    ensures res.state.orders == s.orders && res.state.items == s.items
  {
    hide Compatible, Within, TxTaken, PixStillOpen;
  }

  // ---- placing an order ----

  /** The new order's items are exactly the numbered ones, and nothing else changed hands. */
  lemma PlacedItems(s: State, userId: Id, reqs: seq<Request>, coupon: Option<CouponData>)
    requires Numbers(s) && Linked(s) && PlaceOrder(s, userId, reqs, coupon).Some?
    ensures var s' := PlaceOrder(s, userId, reqs, coupon).value;
      && s'.orders == s.orders[s.nextId := NewOrder(s, userId, reqs, coupon)]
      && s'.items == s.items + Numbered(s.nextId + 1, Flat(s.products, s.nextId, reqs))
  {
    hide Flat, Numbered, NewOrder, SyncOrderSide, EnoughStock;
    SyncKeepsBooks(OrderRows(s, userId, reqs, coupon), Asked(reqs));
  }

  /** A committed order's subtotal is the sum over the items that came in with it. */
  lemma PlacedTotal(s: State, userId: Id, reqs: seq<Request>, coupon: Option<CouponData>)
    requires Numbers(s) && Linked(s) && PlaceOrder(s, userId, reqs, coupon).Some?
    ensures var s' := PlaceOrder(s, userId, reqs, coupon).value;
      s.nextId in s'.orders && TotalAgrees(s', s.nextId)
  {
    hide Flat, Numbered, PriceSum, SumOf, Linked, Numbers;
    var s' := PlaceOrder(s, userId, reqs, coupon).value;
    var flat := Flat(s.products, s.nextId, reqs);
    var rows := Numbered(s.nextId + 1, flat);
    PlacedItems(s, userId, reqs, coupon);
    FlatSums(s.products, s.nextId, reqs);
    FlatShape(s.products, s.nextId, reqs);
    NumberedSum(s.nextId + 1, flat);
    NewItems(s, s', flat);
    PriceSumSame(rows, s'.items, rows.Keys);
  }

  lemma NewItems(s: State, s': State, flat: seq<Item>)
    requires Numbers(s) && Linked(s) && s'.items == s.items + Numbered(s.nextId + 1, flat)
    requires forall it | it in flat :: it.orderId == s.nextId
    ensures ItemsOf(s', s.nextId) == Numbered(s.nextId + 1, flat).Keys
    ensures forall o | o in s.orders :: ItemsOf(s', o) == ItemsOf(s, o)
    ensures forall i | i in s.items :: s'.items[i] == s.items[i]
  {
    hide Numbered;
    var rows := Numbered(s.nextId + 1, flat);
    forall i | i in rows
      ensures rows[i].orderId == s.nextId && i !in s.items
    {
      assert rows[i] == flat[i - (s.nextId + 1)];
    }
  }

  lemma PlacingKeepsTotals(s: State, userId: Id, reqs: seq<Request>, coupon: Option<CouponData>)
    requires Numbers(s) && Linked(s) && TotalsAgree(s) && PlaceOrder(s, userId, reqs, coupon).Some?
    ensures TotalsAgree(PlaceOrder(s, userId, reqs, coupon).value)
  {
    var s' := PlaceOrder(s, userId, reqs, coupon).value;
    var flat := Flat(s.products, s.nextId, reqs);
    PlacedItems(s, userId, reqs, coupon);
    PlacedTotal(s, userId, reqs, coupon);
    FlatShape(s.products, s.nextId, reqs);
    NewItems(s, s', flat);
    hide PlaceOrder, NewOrder, Numbered, Flat, Linked;
    forall o | o in s'.orders
      ensures TotalAgrees(s', o)
    {
      if o in s.orders && o != s.nextId {
        assert TotalAgrees(s, o);
        PriceSumSame(s.items, s'.items, ItemsOf(s, o));
      }
    }
  }

  lemma NextKeepsTotals(w: World, w': World, op: Op)
    requires WInv(w) && TotalsAgree(w.db) && Next(w, w', op)
    ensures TotalsAgree(w'.db)
  {
    hide PlaceOrder, TotalsAgree;
    if w'.db != w.db {
      if op.Buy? {
        PlacingKeepsTotals(w.db, op.userId, op.reqs, None);
      } else if op.BuyChecked? {
        PlacingKeepsTotals(w.db, op.userId, w.checks[op.caller].reqs, Some(w.checks[op.caller].coupon));
      } else {
        OtherOpsKeepAmounts(w, w', op);
        AmountsKeptTotals(w.db, w'.db);
      }
    }
  }

  lemma {:induction false} RunTotals(ws: seq<World>, ops: seq<Op>, k: nat)
    requires IsRun(ws, ops) && k < |ws|
    ensures TotalsAgree(ws[k].db)
  {
    hide Next, WInv;
    if k > 0 {
      RunInv(ws, ops, k - 1);
      RunTotals(ws, ops, k - 1);
      assert StepAt(ws, ops, k - 1);
      NextKeepsTotals(ws[k - 1], ws[k], ops[k - 1]);
    }
  }

  /**
   In every reachable state an order's total is the sum of its items' prices less its
   discount; so it is not negative exactly when the discount is at most that sum.
   */
  lemma OrderTotal(ws: seq<World>, ops: seq<Op>, k: nat, o: Id)
    requires IsRun(ws, ops) && k < |ws| && o in ws[k].db.orders
    ensures var s, order := ws[k].db, ws[k].db.orders[o];
      && order.total == PriceSum(s.items, ItemsOf(s, o)) - order.discountAmount
      && (order.total >= 0.0 <==> order.discountAmount <= PriceSum(s.items, ItemsOf(s, o)))
  {
    RunTotals(ws, ops, k);
    assert TotalAgrees(ws[k].db, o);
  }

  // ---- an order with a checked coupon ----

  /** Between steps `k` and `m` the caller neither checks another cart nor buys. */
  ghost predicate CallerIdle(ops: seq<Op>, k: nat, m: nat, caller: Id)
    requires m <= |ops|
  {
    forall j | k < j < m ::
      && (ops[j].CheckCoupon? ==> ops[j].caller != caller)
      && (ops[j].BuyChecked? ==> ops[j].caller != caller)
  }

  lemma {:induction false} CheckoutKept(ws: seq<World>, ops: seq<Op>, k: nat, m: nat, caller: Id)
    requires IsRun(ws, ops) && k < m <= |ops| && CallerIdle(ops, k, m, caller)
    requires ops[k].CheckCoupon? && ops[k].caller == caller
    requires Checks(ws[k].db, ops[k].reqs, ops[k].code, ops[k].now)
    ensures caller in ws[m].checks
    ensures ws[m].checks[caller] == Checkout(ops[k].reqs, CheckedData(ws[k].db, ops[k].reqs, ops[k].code))
    decreases m
  {
    hide Checks, CheckedData;
    assert StepAt(ws, ops, m - 1);
    if m > k + 1 {
      CheckoutKept(ws, ops, k, m - 1, caller);
    }
  }

  /**
   A cart checked in state `s0` and bought in state `s`: the total is the new sum less the old
   discount, and it is not negative exactly when the discount still fits.
   */
  lemma CheckedTotal(s0: State, s: State, userId: Id, reqs: seq<Request>, code: Id, now: nat)
    requires Checks(s0, reqs, code, now) && Numbers(s) && Linked(s)
    requires PlaceOrder(s, userId, reqs, Some(CheckedData(s0, reqs, code))).Some?
    ensures var s' := PlaceOrder(s, userId, reqs, Some(CheckedData(s0, reqs, code))).value;
      var discount := Discount(s0.coupons[code], Subtotal(s0.products, reqs));
      var order := s'.orders[s.nextId];
      && order.subtotal == PriceSum(s'.items, ItemsOf(s', s.nextId)) == Subtotal(s.products, reqs)
      && order.total == order.subtotal - discount
      && (order.total >= 0.0 <==> discount <= Subtotal(s.products, reqs))
  {
    PlacedItems(s, userId, reqs, Some(CheckedData(s0, reqs, code)));
    PlacedTotal(s, userId, reqs, Some(CheckedData(s0, reqs, code)));
  }

  /** No product of the cart has changed its price, and no price is negative. */
  predicate SamePrices(s0: State, s: State, reqs: seq<Request>) {
    forall p | p in Asked(reqs) ::
      p in s0.products && p in s.products && s.products[p].price == s0.products[p].price >= 0.0
  }

  lemma {:induction false} SubtotalSame(before: map<Id, Product>, after: map<Id, Product>, reqs: seq<Request>)
    requires Known(before, reqs) && Known(after, reqs)
    requires forall p | p in Asked(reqs) :: after[p].price == before[p].price
    ensures Subtotal(after, reqs) == Subtotal(before, reqs)
  {
    if reqs != [] {
      var front, last := reqs[..|reqs| - 1], reqs[|reqs| - 1];
      assert last in reqs && forall r | r in front :: r in reqs;
      SubtotalSame(before, after, front);
    }
  }

  /**
   With the same prices at both reads, and none of them negative, the order's total is never
   negative; it is at most the subtotal exactly when the coupon's value is not negative, or it
   is a percentage of nothing.
   */
  lemma SamePricesTotal(s0: State, s: State, userId: Id, reqs: seq<Request>, code: Id, now: nat)
    requires Checks(s0, reqs, code, now) && Numbers(s) && Linked(s)
    requires PlaceOrder(s, userId, reqs, Some(CheckedData(s0, reqs, code))).Some?
    requires SamePrices(s0, s, reqs)
    ensures var order := PlaceOrder(s, userId, reqs, Some(CheckedData(s0, reqs, code))).value.orders[s.nextId];
      var coupon := s0.coupons[code];
      && 0.0 <= order.total
      && (order.total <= order.subtotal
          <==> coupon.value >= 0.0 || (coupon.kind.Percentage? && order.subtotal == 0.0))
  {
    CheckedTotal(s0, s, userId, reqs, code, now);
    SubtotalSame(s0.products, s.products, reqs);
    SubtotalNotNegative(s0.products, reqs);
    DiscountBounds(s0.coupons[code], Subtotal(s0.products, reqs));
  }

  /** The same over a run: check at step `k`, purchase at step `m`, anything in between. */
  lemma CheckedOrder(ws: seq<World>, ops: seq<Op>, k: nat, m: nat)
    requires IsRun(ws, ops) && k < m < |ops|
    requires ops[k].CheckCoupon? && Checks(ws[k].db, ops[k].reqs, ops[k].code, ops[k].now)
    requires ops[m].BuyChecked? && ops[m].caller == ops[k].caller && CallerIdle(ops, k, m, ops[k].caller)
    requires ws[m + 1].db != ws[m].db
    ensures Known(ws[m].db.products, ops[k].reqs)
    ensures var o := ws[m].db.nextId;
      var subtotal := Subtotal(ws[k].db.products, ops[k].reqs);
      var coupon := ws[k].db.coupons[ops[k].code];
      && o in ws[m + 1].db.orders
      && var order := ws[m + 1].db.orders[o];
         && order.subtotal == Subtotal(ws[m].db.products, ops[k].reqs)
         && order.subtotal == PriceSum(ws[m + 1].db.items, ItemsOf(ws[m + 1].db, o))
         && order.total == order.subtotal - Discount(coupon, subtotal)
         && (order.total >= 0.0 <==> Discount(coupon, subtotal) <= Subtotal(ws[m].db.products, ops[k].reqs))
         && (SamePrices(ws[k].db, ws[m].db, ops[k].reqs) ==>
              && 0.0 <= order.total
              && (order.total <= order.subtotal
                  <==> coupon.value >= 0.0 || (coupon.kind.Percentage? && order.subtotal == 0.0)))
  {
    var reqs, code, now := ops[k].reqs, ops[k].code, ops[k].now;
    RunInv(ws, ops, m);
    CheckoutKept(ws, ops, k, m, ops[k].caller);
    assert StepAt(ws, ops, m);
    hide IsRun, CallerIdle, Checks, CheckedData, Numbers, Linked, Discount, PriceSum;
    CheckedTotal(ws[k].db, ws[m].db, ops[m].userId, reqs, code, now);
    if SamePrices(ws[k].db, ws[m].db, reqs) {
      SamePricesTotal(ws[k].db, ws[m].db, ops[m].userId, reqs, code, now);
    }
  }

  // ---- the total does go below zero when a price falls in between ----

  const KEY_AT_100 := Product(100.0, 1, true, Key)
  const HUNDRED_OFF := Coupon(Fixed, 100.0, None, None, 0, None, None, true)
  const ONE_KEY := [Request(0, 1)]
  const NEW_KEY := Unit(0, Available, None)

  /** One key at 100.00 on sale, and a coupon for 100.00. */
  const OFFERED := EMPTY_STATE.(
    products := map[0 := KEY_AT_100], keys := map[1 := NEW_KEY], coupons := map[2 := HUNDRED_OFF], nextId := 3)

  const CHEAPER := OFFERED.(products := map[0 := KEY_AT_100.(price := 10.0)])

  const CREATED := EMPTY_STATE.(products := map[0 := Product(100.0, 0, false, Key)], nextId := 1)
  const STOCKED := EMPTY_STATE.(
    products := map[0 := KEY_AT_100.(isActive := false)], keys := map[1 := NEW_KEY], nextId := 2)
  const ON_SALE := STOCKED.(products := map[0 := KEY_AT_100])

  lemma OneKeyStocked()
    ensures CreateProduct(EMPTY_STATE, Key, 100.0, 0, false) == Some(CREATED)
    ensures Import(CREATED, Key, 0, 1) == STOCKED
  {
    var s1 := Inserted(CREATED, Key, 0, 1);
    assert NewRows(1, 0, 1) == map[1 := NEW_KEY];
    assert s1 == CREATED.(keys := map[1 := NEW_KEY], nextId := 2);
    OnlyRow(s1);
    assert SyncUnitSide(s1, Key, 0).products == STOCKED.products;
  }

  lemma OnlyRow(s: State)
    requires s.keys == map[1 := NEW_KEY] && s.accounts == map[]
    ensures Avail(s.keys, 0) == {1} && HasRows(s, Key, 0) && !HasRows(s, Account, 0)
  {
    assert 1 in Rows(s, Key) && Rows(s, Key)[1].productId == 0;
  }

  lemma PutOnSale()
    ensures UpdateProduct(STOCKED, 0, 100.0, None, Some(true)) == Some(ON_SALE)
    ensures CreateCoupon(ON_SALE, HUNDRED_OFF) == OFFERED
    ensures UpdateProduct(OFFERED, 0, 10.0, None, None) == Some(CHEAPER)
  {
    OnlyRow(STOCKED);
    OnlyRow(OFFERED);
    assert StockOf(STOCKED, 0) == 1 && StockOf(OFFERED, 0) == 1;
    assert STOCKED.products[0 := KEY_AT_100] == ON_SALE.products;
    assert OFFERED.products[0 := KEY_AT_100.(price := 10.0)] == CHEAPER.products;
  }

  lemma BoughtCheaper()
    ensures Checks(OFFERED, ONE_KEY, 2, 0) && CheckedData(OFFERED, ONE_KEY, 2) == CouponData(2, 100.0, None)
    ensures PlaceOrder(CHEAPER, 0, ONE_KEY, Some(CouponData(2, 100.0, None))).Some?
    ensures var s' := PlaceOrder(CHEAPER, 0, ONE_KEY, Some(CouponData(2, 100.0, None))).value;
      3 in s'.orders && s'.orders[3].total == -90.0
  {
    assert ONE_KEY[..0] == [];
    assert Cost(100.0, 1) == 100.0 && Cost(10.0, 1) == 10.0 by {
      CostIsProduct(100.0, 1);
      CostIsProduct(10.0, 1);
    }
    assert Subtotal(OFFERED.products, ONE_KEY) == 100.0;
    assert Subtotal(CHEAPER.products, ONE_KEY) == 10.0;
    assert Requested(ONE_KEY, 0) == 1;
  }

  const CHECKOUTS := map[5 := Checkout(ONE_KEY, CouponData(2, 100.0, None))]

  const OPS := [
    NewProduct(Key, 100.0, 0, false), ImportRows(Key, 0, 1), EditProduct(0, 100.0, None, Some(true)),
    NewCoupon(HUNDRED_OFF), CheckCoupon(5, ONE_KEY, 2, 0), EditProduct(0, 10.0, None, None), BuyChecked(0, 5)]

  function Worlds(last: State): seq<World> {
    [OPENING, OPENING.(db := CREATED), OPENING.(db := STOCKED), OPENING.(db := ON_SALE),
     OPENING.(db := OFFERED), OPENING.(db := OFFERED, checks := CHECKOUTS),
     OPENING.(db := CHEAPER, checks := CHECKOUTS), OPENING.(db := last)]
  }

  lemma Offering(last: State)
    ensures forall k | 0 <= k < 4 :: StepAt(Worlds(last), OPS, k)
  {
    OneKeyStocked();
    PutOnSale();
    hide CreateProduct, Import, UpdateProduct, CreateCoupon;
    var ws := Worlds(last);
    assert StepAt(ws, OPS, 0) && StepAt(ws, OPS, 1) && StepAt(ws, OPS, 2) && StepAt(ws, OPS, 3);
  }

  /** A run that commits an order with a total of -90.00. */
  lemma TotalBelowZero() returns (ws: seq<World>)
    ensures IsRun(ws, OPS)
    ensures 3 in ws[7].db.orders && ws[7].db.orders[3].total == -90.0
  {
    PutOnSale();
    BoughtCheaper();
    hide UpdateProduct, PlaceOrder, Checks, CheckedData;
    ws := Worlds(PlaceOrder(CHEAPER, 0, ONE_KEY, Some(CouponData(2, 100.0, None))).value);
    Offering(ws[7].db);
    assert CHECKOUTS - {5} == map[];
    assert StepAt(ws, OPS, 4) && StepAt(ws, OPS, 5) && StepAt(ws, OPS, 6);
  }
}
