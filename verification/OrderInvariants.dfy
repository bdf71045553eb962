/**
 The invariant through orders, delivery and payments. The delivery lemma takes the
 invariant of the state with the order already marked DELIVERED, so that it serves both
 an administrator's delivery and the delivery that follows an approval.
 */
module OrderInvariants {
  import opened Store
  import opened Pricing
  import opened Fulfilment
  import opened Invariants

  // ---- placing an order ----

  lemma SyncStock(s: State, s1: State, ps: set<Id>)
    requires StockAgrees(s) && s1.products == s.products && s1.keys == s.keys && s1.accounts == s.accounts
    ensures StockAgrees(SyncOrderSide(s1, ps))
  {
    var s' := SyncOrderSide(s1, ps);
    assert forall t :: Rows(s', t) == Rows(s, t);
    StockKept(s, s');
  }

  /** One order and its unattached one-unit items come in; everything else stays. */
  ghost predicate OrderAdded(s: State, s1: State) {
    && s1.products == s.products && s1.keys == s.keys && s1.accounts == s.accounts
    && s1.coupons == s.coupons && s1.payments == s.payments
    && s.nextId < s1.nextId && s.nextId in s1.orders
    && (forall o | o in s1.orders :: o in s.orders || o == s.nextId)
    && (forall o | o in s.orders :: o in s1.orders && s1.orders[o] == s.orders[o])
    && (forall i | i in s.items :: i in s1.items && s1.items[i] == s.items[i])
    && (forall i | i in s1.items && i !in s.items ::
          && i < s1.nextId && s1.items[i].orderId == s.nextId && s1.items[i].productId in s.products
          && s1.items[i].quantity == 1 && !HasUnit(s1.items[i]))
  }

  lemma OrderRowsAdd(s: State, userId: Id, reqs: seq<Request>, coupon: Option<CouponData>)
    requires Numbers(s) && Known(s.products, reqs)
    ensures OrderAdded(s, OrderRows(s, userId, reqs, coupon))
  {
    hide Flat, Numbered, NewOrder;
    var s1 := OrderRows(s, userId, reqs, coupon);
    var flat := Flat(s.products, s.nextId, reqs);
    var added := Numbered(s.nextId + 1, flat);
    FlatShape(s.products, s.nextId, reqs);
    forall i | i in s1.items && i !in s.items
      ensures i < s1.nextId && s1.items[i] in flat
    {
      assert i in added && added[i] == flat[i - (s.nextId + 1)];
    }
  }

  lemma OrderAddedStructure(s: State, s1: State)
    requires Numbers(s) && Linked(s) && Attached(s) && OrderAdded(s, s1)
    ensures Numbers(s1) && Linked(s1) && Attached(s1) && Grows(s, s1)
  {
    assert forall t :: Rows(s1, t) == Rows(s, t);
  }

  lemma OrderAddedBooks(s: State, s1: State)
    requires Numbers(s) && Linked(s) && AllOrNothing(s) && PaymentsAgree(s) && OrderAdded(s, s1)
    ensures AllOrNothing(s1) && PaymentsAgree(s1)
  {
  }

  /** The committed order and the counted use come together. */
  lemma OrderQuota(s: State, s': State, o: Id, row: Order)
    requires Numbers(s) && QuotaKept(s) && s.nextId == o && s'.orders == s.orders[o := row]
    requires row.couponId.Some? ==> row.couponId.value in s.coupons && UsesLeft(s.coupons[row.couponId.value])
    requires s'.coupons == if row.couponId.Some? then CountUse(s, row.couponId.value).coupons else s.coupons
    ensures QuotaKept(s')
  {
    forall c | c in s.coupons
      ensures |Carrying(s', c)| == |Carrying(s, c)| + if row.couponId == Some(c) then 1 else 0
    {
      if row.couponId == Some(c) {
        assert Carrying(s', c) == Carrying(s, c) + {o};
      } else {
        assert Carrying(s', c) == Carrying(s, c);
      }
    }
  }

  predicate LimitKnown(s: State, coupon: Option<CouponData>) {
    coupon.Some? ==> coupon.value.couponId in s.coupons
                     && coupon.value.maxUses == s.coupons[coupon.value.couponId].maxUses
  }

  lemma SyncStructure(s: State, ps: set<Id>)
    requires Numbers(s) && Linked(s) && Attached(s) && AllOrNothing(s)
    ensures var s' := SyncOrderSide(s, ps);
      Numbers(s') && Linked(s') && Attached(s') && AllOrNothing(s')
  {
    var s' := SyncOrderSide(s, ps);
    assert forall t :: Rows(s', t) == Rows(s, t);
  }

  lemma SyncGrows(s: State, ps: set<Id>)
    ensures Grows(s, SyncOrderSide(s, ps))
  {
    hide Avail;
    assert forall t :: Rows(SyncOrderSide(s, ps), t) == Rows(s, t);
  }

  /** Everything but the coupon count, after the stock sync. */
  lemma OrderSynced(s: State, s1: State, ps: set<Id>)
    requires Inv(s) && OrderAdded(s, s1)
    ensures var s2 := SyncOrderSide(s1, ps);
      && Numbers(s2) && Linked(s2) && Attached(s2) && AllOrNothing(s2)
      && StockAgrees(s2) && PaymentsAgree(s2) && Grows(s, s2)
  {
    OrderAddedStructure(s, s1);
    OrderAddedBooks(s, s1);
    SyncStructure(s1, ps);
    SyncGrows(s1, ps);
    SyncStock(s, s1, ps);
    GrowsTrans(s, s1, SyncOrderSide(s1, ps));
  }

  lemma PlaceOrderKeeps(s: State, userId: Id, reqs: seq<Request>, coupon: Option<CouponData>)
    requires Inv(s) && PlaceOrder(s, userId, reqs, coupon).Some? && LimitKnown(s, coupon)
    ensures Inv(PlaceOrder(s, userId, reqs, coupon).value)
    ensures Grows(s, PlaceOrder(s, userId, reqs, coupon).value)
  {
    hide Linked, Attached, AllOrNothing, StockAgrees, PaymentsAgree, Numbered, Flat, Subtotal, EnoughStock, Grows;
    var s2 := SyncOrderSide(OrderRows(s, userId, reqs, coupon), Asked(reqs));
    var s' := PlaceOrder(s, userId, reqs, coupon).value;
    OrderRowsAdd(s, userId, reqs, coupon);
    OrderSynced(s, OrderRows(s, userId, reqs, coupon), Asked(reqs));
    OrderQuota(s, s', s.nextId, NewOrder(s, userId, reqs, coupon));
    CouponsOnly(s2, s');
    GrowsTrans(s, s2, s');
  }

  /** Only the coupon table differs. */
  lemma CouponsOnly(s: State, s': State)
    requires s' == s.(coupons := s'.coupons) && s'.coupons.Keys == s.coupons.Keys
    requires forall c | c in s.coupons :: s'.coupons[c].maxUses == s.coupons[c].maxUses
    requires Numbers(s) && Linked(s) && Attached(s) && AllOrNothing(s) && StockAgrees(s) && PaymentsAgree(s)
    ensures Numbers(s') && Linked(s') && Attached(s') && AllOrNothing(s') && StockAgrees(s') && PaymentsAgree(s')
    ensures Grows(s, s')
  {
    SameInventoryKeeps(s, s');
    SameInventoryNumbers(s, s');
    SameInventoryGrows(s, s');
  }

  lemma GrowsTrans(s: State, s1: State, s2: State)
    requires Numbers(s) && Grows(s, s1) && Grows(s1, s2)
    requires forall p | p in s.products && p in s2.products :: p in s1.products
    requires forall t, u | u in Rows(s, t) && u in Rows(s2, t) :: u in Rows(s1, t)
    ensures Grows(s, s2)
  {
  }

  // ---- status changes ----

  /** An order that may still change status holds no unit, so the release branch frees nothing. */
  lemma ReleaseFreesNothing(s: State, o: Id)
    requires AllOrNothing(s) && o in s.orders && !Settled(s.orders[o].status)
    ensures Held(s, o, Key) == {} && Held(s, o, Account) == {} && Touched(s, o) == {}
    ensures Release(s, o) == s
  {
    assert forall i | i in ItemsOf(s, o) :: !HasUnit(s.items[i]);
    assert Held(s, o, Key) == {} && Held(s, o, Account) == {} && Touched(s, o) == {};
    assert Freed(s.keys, {}) == s.keys && Freed(s.accounts, {}) == s.accounts;
    assert SyncOrderSide(s, {}).products == s.products;
  }

  /** Order and payment rows change in status only; inventory does not move. */
  ghost predicate StatusStep(s: State, s': State) {
    && s'.products == s.products && s'.keys == s.keys && s'.accounts == s.accounts
    && s'.items == s.items && s'.coupons == s.coupons && s'.nextId == s.nextId
    && s'.orders.Keys == s.orders.Keys && s'.payments.Keys == s.payments.Keys
    && (forall o | o in s.orders :: s'.orders[o].couponId == s.orders[o].couponId)
    && (forall i | i in s.items && HasUnit(s.items[i]) && s.items[i].orderId in s'.orders ::
          Settled(s'.orders[s.items[i].orderId].status))
    && PaymentsAgree(s')
  }

  lemma StatusStepKeeps(s: State, s': State)
    requires Inv(s) && StatusStep(s, s')
    ensures Inv(s') && Grows(s, s')
  {
    SameInventoryKeeps(s, s');
    SameInventoryNumbers(s, s');
    SameInventoryGrows(s, s');
    assert AllOrNothing(s');
    CarryingKept(s, s');
  }

  lemma CarryingKept(s: State, s': State)
    requires QuotaKept(s) && s'.coupons == s.coupons && s'.orders.Keys == s.orders.Keys
    requires forall o | o in s.orders :: s'.orders[o].couponId == s.orders[o].couponId
    ensures QuotaKept(s')
  {
    forall c | c in s.coupons
      ensures Carrying(s', c) == Carrying(s, c)
    {
    }
  }

  lemma UpdateStatusStep(s: State, o: Id, status: OrderStatus)
    requires AllOrNothing(s) && PaymentsAgree(s) && o in s.orders && Allowed(s.orders[o].status, status)
    ensures StatusStep(s, SetStatus(s, o, status))
  {
  }

  lemma UpdateStatusKeeps(s: State, o: Id, status: OrderStatus)
    requires Inv(s) && UpdateStatus(s, o, status).Some?
    ensures Inv(UpdateStatus(s, o, status).value) && Grows(s, UpdateStatus(s, o, status).value)
    ensures UpdateStatus(s, o, status).value == SetStatus(s, o, status)
  {
    ReleaseFreesNothing(s, o);
    UpdateStatusStep(s, o, status);
    StatusStepKeeps(s, SetStatus(s, o, status));
  }

  // ---- delivery ----

  /** An item list read earlier: still the order's items, and it never claims too many units. */
  ghost predicate ReadOk(s: State, o: Id, lines: seq<Line>) {
    && o in s.orders && DistinctIds(lines) && Ids(lines) == ItemsOf(s, o)
    && forall l | l in lines ::
         && l.id in s.items
         && l.productId == s.items[l.id].productId && l.quantity == s.items[l.id].quantity
         && l.productId in s.products && l.productType == s.products[l.productId].productType
         && (l.hasKey ==> s.items[l.id].keyId.Some?)
         && (l.hasAccount ==> s.items[l.id].accountId.Some?)
  }

  lemma SnapshotReadOk(s: State, o: Id, lines: seq<Line>)
    requires Linked(s) && o in s.orders && IsSnapshot(s, o, lines)
    ensures ReadOk(s, o, lines)
  {
  }

  /** A read stays usable however the shop moves on. */
  lemma ReadOkKept(s: State, s': State, o: Id, lines: seq<Line>)
    requires Numbers(s) && ReadOk(s, o, lines) && Grows(s, s') && Linked(s')
    ensures ReadOk(s', o, lines)
  {
    assert ItemsOf(s', o) == ItemsOf(s, o);
  }

  lemma SlotType(s: State, i: Id, t: ProductType)
    requires Linked(s) && Attached(s) && i in s.items && Slot(s.items[i], t).Some?
    ensures s.items[i].productId in s.products && s.products[s.items[i].productId].productType == t
  {
    var u := Slot(s.items[i], t).value;
    assert u in Rows(s, t) && Rows(s, t)[u].productId == s.items[i].productId;
  }

  /** A filled item's unit is in the slot of its own product type. */
  lemma OwnSlot(s: State, i: Id)
    requires Linked(s) && Attached(s) && i in s.items && HasUnit(s.items[i])
    ensures Slot(s.items[i], s.products[s.items[i].productId].productType).Some?
  {
    SlotType(s, i, if s.items[i].keyId.Some? then Key else Account);
  }

  /** Wanting lines are unattached in the current state, so nothing can be overwritten. */
  ghost predicate Current(s: State, lines: seq<Line>) {
    forall l | l in lines && Wants(l) :: l.id in s.items && !HasUnit(s.items[l.id])
  }

  /** A row that an allocation changed was AVAILABLE and belongs to a product that was served. */
  lemma AllocatedRow(s: State, s': State, lines: seq<Line>, t: ProductType, u: Id)
    requires Allocated(s, s', lines) && u in Rows(s, t)
    ensures u in Rows(s', t) && Rows(s', t)[u].productId == Rows(s, t)[u].productId
    ensures Rows(s', t)[u] == Rows(s, t)[u]
         || (&& Rows(s, t)[u].status.Available? && Rows(s', t)[u].status.Delivered?
             && Rows(s, t)[u].productId in ServedProducts(lines))
  {
    if Rows(s', t)[u] != Rows(s, t)[u] {
      var l :| l in lines && Took(s', l, t, u);
      assert Gets(s, s', l);
    }
  }

  lemma AllocatedItem(s: State, s': State, lines: seq<Line>, i: Id)
    requires Allocated(s, s', lines) && i in s.items
    ensures i in s'.items
    ensures i in Served(lines) ==> exists l :: l in lines && Wants(l) && l.id == i && Gets(s, s', l)
    ensures i !in Served(lines) ==> s'.items[i] == s.items[i]
  {
    if i in Served(lines) {
      var l :| l in lines && Wants(l) && l.id == i;
      assert Gets(s, s', l);
    }
  }

  lemma AllocatedItemKept(s: State, s': State, lines: seq<Line>, i: Id)
    requires Allocated(s, s', lines) && i in s.items
    ensures i in s'.items && s'.items[i].orderId == s.items[i].orderId
    ensures s'.items[i].productId == s.items[i].productId && s'.items[i].quantity == s.items[i].quantity
  {
    AllocatedItem(s, s', lines, i);
  }

  lemma AllocatedKeys(s: State, s': State, lines: seq<Line>)
    requires Allocated(s, s', lines)
    ensures s'.items.Keys == s.items.Keys && s'.keys.Keys == s.keys.Keys && s'.accounts.Keys == s.accounts.Keys
    ensures forall t :: Rows(s', t).Keys == Rows(s, t).Keys
  {
  }

  lemma CommittedLinks(s: State, s': State, o: Id, lines: seq<Line>)
    requires Numbers(s) && Linked(s) && Committed(s, s', o, lines)
    ensures Numbers(s') && Linked(s')
  {
    hide ServedProducts, Served, Allocated, Gets;
    AllocatedKeys(s, s', lines);
    forall t, u | u in Rows(s', t)
      ensures u in Rows(s, t) && Rows(s', t)[u].productId == Rows(s, t)[u].productId
      ensures Rows(s', t)[u] == Rows(s, t)[u] || Rows(s', t)[u].status.Delivered?
    {
      AllocatedRow(s, s', lines, t, u);
    }
    forall i | i in s'.items
      ensures i in s.items && s'.items[i].orderId == s.items[i].orderId
      ensures s'.items[i].productId == s.items[i].productId && s'.items[i].quantity == s.items[i].quantity
    {
      AllocatedItemKept(s, s', lines, i);
    }
  }

  ghost predicate AttachedAt(s: State, i: Id, t: ProductType)
    requires i in s.items
  {
    Slot(s.items[i], t).Some? ==>
      && Slot(s.items[i], t).value in Rows(s, t)
      && Rows(s, t)[Slot(s.items[i], t).value]
         == Unit(s.items[i].productId, UnitStatus.Delivered, Some(i))
  }

  lemma AttachedEverywhere(s: State)
    requires forall i, t | i in s.items :: AttachedAt(s, i, t)
    ensures Attached(s)
  {
    forall i, t | i in s.items && Slot(s.items[i], t).Some?
      ensures Slot(s.items[i], t).value in Rows(s, t)
      ensures Rows(s, t)[Slot(s.items[i], t).value] == Unit(s.items[i].productId, UnitStatus.Delivered, Some(i))
    {
      assert AttachedAt(s, i, t);
    }
  }

  lemma ServedAttached(s: State, s': State, l: Line, t: ProductType)
    requires Gets(s, s', l) && !HasUnit(s.items[l.id]) && l.productId == s.items[l.id].productId
    ensures AttachedAt(s', l.id, t)
  {
    if t == l.productType {
    } else {
      assert Slot(s'.items[l.id], t) == Slot(s.items[l.id], t) == None;
    }
  }

  lemma KeptAttached(s: State, s': State, lines: seq<Line>, i: Id, t: ProductType)
    requires i in s.items && AttachedAt(s, i, t) && i !in Served(lines) && Allocated(s, s', lines)
    ensures i in s'.items && AttachedAt(s', i, t)
  {
    AllocatedItem(s, s', lines, i);
    if Slot(s.items[i], t).Some? {
      AllocatedRow(s, s', lines, t, Slot(s.items[i], t).value);
    }
  }

  lemma CommittedAttached(s: State, s': State, o: Id, lines: seq<Line>)
    requires Attached(s) && ReadOk(s, o, lines) && Current(s, lines)
    requires Committed(s, s', o, lines)
    ensures Attached(s')
  {
    hide Gets;
    forall i, t | i in s'.items
      ensures AttachedAt(s', i, t)
    {
      AllocatedItem(s, s', lines, i);
      if i in Served(lines) {
        var l :| l in lines && Wants(l) && l.id == i && Gets(s, s', l);
        ServedAttached(s, s', l, t);
      } else {
        assert AttachedAt(s, i, t);
        KeptAttached(s, s', lines, i, t);
      }
    }
    AttachedEverywhere(s');
  }

  lemma CommittedGrows(s: State, s': State, o: Id, lines: seq<Line>)
    requires Current(s, lines) && Committed(s, s', o, lines)
    ensures Grows(s, s')
  {
    forall t, u | u in Rows(s, t)
      ensures Rows(s, t)[u].status.Delivered? ==> u in Rows(s', t) && Rows(s', t)[u] == Rows(s, t)[u]
    {
      AllocatedRow(s, s', lines, t, u);
    }
    forall i | i in s.items
      ensures i in s'.items && (HasUnit(s.items[i]) ==> s'.items[i] == s.items[i])
      ensures s'.items[i].orderId == s.items[i].orderId
      ensures s'.items[i].productId == s.items[i].productId && s'.items[i].quantity == s.items[i].quantity
    {
      AllocatedItem(s, s', lines, i);
    }
  }

  lemma CommittedAllOrNothing(s: State, s': State, o: Id, lines: seq<Line>)
    requires ReadOk(s, o, lines) && Committed(s, s', o, lines)
    requires Linked(s) && AllOrNothing(SetStatus(s, o, OrderStatus.Delivered))
    ensures AllOrNothing(s')
  {
    forall i | i in s.items
      ensures i in s'.items && s'.items[i].orderId == s.items[i].orderId
      ensures s.items[i].orderId == o ==> HasUnit(s'.items[i])
      ensures s.items[i].orderId != o ==> s'.items[i] == s.items[i]
    {
      AllocatedItem(s, s', lines, i);
      if s.items[i].orderId == o {
        assert i in ItemsOf(s, o);
        var l :| l in lines && l.id == i;
      } else {
        assert i !in Ids(lines);
      }
    }
    var marked := SetStatus(s, o, OrderStatus.Delivered);
    assert marked.items == s.items && s'.orders == marked.orders;
  }

  lemma CommittedStock(s: State, s': State, o: Id, lines: seq<Line>)
    requires StockAgrees(s) && Committed(s, s', o, lines)
    ensures StockAgrees(s')
  {
    forall p, t | p !in ServedProducts(lines)
      ensures Avail(Rows(s', t), p) == Avail(Rows(s, t), p)
      ensures HasRows(s', t, p) ==> HasRows(s, t, p)
    {
      forall u | u in Rows(s, t)
        ensures u in Rows(s', t) && Rows(s', t)[u].productId == Rows(s, t)[u].productId
        ensures Rows(s, t)[u].productId == p ==> Rows(s', t)[u] == Rows(s, t)[u]
      {
        AllocatedRow(s, s', lines, t, u);
      }
    }
    StockKept(s, s');
  }

  /** A committed delivery keeps the invariant. */
  lemma CommittedKeeps(s: State, s': State, o: Id, lines: seq<Line>)
    requires o in s.orders && Inv(SetStatus(s, o, OrderStatus.Delivered))
    requires ReadOk(s, o, lines) && Current(s, lines) && Committed(s, s', o, lines)
    ensures Inv(s') && Grows(s, s')
  {
    var marked := SetStatus(s, o, OrderStatus.Delivered);
    UnmarkInventory(s, o);
    CommittedLinks(s, s', o, lines);
    CommittedAttached(s, s', o, lines);
    CommittedGrows(s, s', o, lines);
    CommittedAllOrNothing(s, s', o, lines);
    CommittedStock(s, s', o, lines);
    SameLedgers(marked, s');
  }

  /** The status of an order does not enter the inventory part of the invariant. */
  lemma UnmarkInventory(s: State, o: Id)
    requires o in s.orders
    requires var m := SetStatus(s, o, OrderStatus.Delivered);
      Numbers(m) && Linked(m) && Attached(m) && StockAgrees(m)
    ensures Numbers(s) && Linked(s) && Attached(s) && StockAgrees(s)
  {
    var marked := SetStatus(s, o, OrderStatus.Delivered);
    assert marked.orders.Keys == s.orders.Keys;
    assert forall t :: Rows(marked, t) == Rows(s, t);
    hide SetStatus, Linked, Attached, StockAgrees;
    SameInventoryKeeps(marked, s);
  }

  lemma SameLedgers(s: State, s': State)
    requires PaymentsAgree(s) && QuotaKept(s)
    requires s'.orders == s.orders && s'.payments == s.payments && s'.coupons == s.coupons
    ensures PaymentsAgree(s') && QuotaKept(s')
  {
    forall c | c in s.coupons
      ensures Carrying(s', c) == Carrying(s, c)
    {
    }
  }
}
