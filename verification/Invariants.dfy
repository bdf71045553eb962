/**
 The inductive invariant of the shop, and the proof that every operation keeps it.
 `Grows` is what one operation may change about units that customers already hold.
 */
module Invariants {
  import opened Store
  import opened Fulfilment

  /** Identifiers in use are below the counter. */
  ghost predicate Numbers(s: State) {
    && (forall p | p in s.products :: p < s.nextId)
    && (forall t, u | u in Rows(s, t) :: u < s.nextId)
    && (forall o | o in s.orders :: o < s.nextId)
    && (forall i | i in s.items :: i < s.nextId)
    && (forall y | y in s.payments :: y < s.nextId)
    && (forall c | c in s.coupons :: c < s.nextId)
  }

  /** Foreign keys; inventory rows sit in the table of their product's type; items are single units. */
  ghost predicate Linked(s: State) {
    && (forall i | i in s.items ::
          s.items[i].orderId in s.orders && s.items[i].productId in s.products && s.items[i].quantity == 1)
    && (forall t, u | u in Rows(s, t) ::
          && Rows(s, t)[u].productId in s.products
          && s.products[Rows(s, t)[u].productId].productType == t)
    && FreeRows(s)
  }

  /** An AVAILABLE row names no item. */
  ghost predicate FreeRows(s: State) {
    forall t, u | u in Rows(s, t) && Rows(s, t)[u].status.Available? :: Rows(s, t)[u].orderItemId.None?
  }

  /** A unit an item names is delivered, of the item's product, and names the item back. */
  ghost predicate Attached(s: State) {
    forall i, t | i in s.items && Slot(s.items[i], t).Some? ::
      && Slot(s.items[i], t).value in Rows(s, t)
      && Rows(s, t)[Slot(s.items[i], t).value]
         == Unit(s.items[i].productId, UnitStatus.Delivered, Some(i))
  }

  ghost predicate Settled(status: OrderStatus) {
    status.Delivered? || status.Cancelled?
  }

  /** An order with an attached item is DELIVERED or CANCELLED and has all its items attached. */
  ghost predicate AllOrNothing(s: State) {
    && (forall i | i in s.items && HasUnit(s.items[i]) ::
          s.items[i].orderId in s.orders && Settled(s.orders[s.items[i].orderId].status))
    && (forall i, j | i in s.items && j in s.items
                   && s.items[i].orderId == s.items[j].orderId && HasUnit(s.items[i]) :: HasUnit(s.items[j]))
  }

  /** A product with inventory rows has exactly its AVAILABLE rows as stock. */
  ghost predicate StockAgrees(s: State) {
    forall p | p in s.products && HasRows(s, s.products[p].productType, p) ::
      s.products[p].stock == StockOf(s, p)
  }

  /** Payments: the unique indexes, and the joint condition on payment and order status. */
  ghost predicate PaymentsAgree(s: State) {
    && (forall y | y in s.payments ::
          && s.payments[y].orderId in s.orders
          && var status := s.orders[s.payments[y].orderId].status;
          && (s.payments[y].status.Rejected? ==> status.Cancelled?)
          && (s.payments[y].status.Approved? ==> !status.Pending? && !status.AwaitingPayment?))
    && Unique(s)
  }

  /** One payment per order, and one payment per provider transaction. */
  ghost predicate Unique(s: State) {
    forall y, z | y in s.payments && z in s.payments && y != z ::
      && s.payments[y].orderId != s.payments[z].orderId
      && (s.payments[y].providerTxId.Some? ==> s.payments[y].providerTxId != s.payments[z].providerTxId)
  }

  ghost function Carrying(s: State, c: Id): set<Id> {
    set o | o in s.orders && s.orders[o].couponId == Some(c)
  }

  /** `usedCount` counts the committed orders that carry the coupon and respects the limit. */
  ghost predicate QuotaKept(s: State) {
    && (forall o | o in s.orders && s.orders[o].couponId.Some? :: s.orders[o].couponId.value in s.coupons)
    && (forall c | c in s.coupons ::
          && s.coupons[c].usedCount == |Carrying(s, c)|
          && (s.coupons[c].maxUses.Some? ==> s.coupons[c].usedCount <= s.coupons[c].maxUses.value))
  }

  ghost predicate Inv(s: State) {
    && Numbers(s) && Linked(s) && Attached(s) && AllOrNothing(s)
    && StockAgrees(s) && PaymentsAgree(s) && QuotaKept(s)
  }

  /** What one operation may do: new identifiers only, delivered rows and filled items stay as they are. */
  ghost predicate Grows(s: State, s': State) {
    && s.nextId <= s'.nextId
    && (forall t, u | u in Rows(s', t) && u !in Rows(s, t) :: s.nextId <= u)
    && (forall t, u | u in Rows(s, t) && u in Rows(s', t) && Rows(s, t)[u].status.Delivered? ::
          Rows(s', t)[u] == Rows(s, t)[u])
    && (forall i | i in s.items ::
          && i in s'.items && (HasUnit(s.items[i]) ==> s'.items[i] == s.items[i])
          && s'.items[i].orderId == s.items[i].orderId && s'.items[i].productId == s.items[i].productId
          && s'.items[i].quantity == s.items[i].quantity)
    && (forall i | i in s'.items && i !in s.items :: s.nextId <= s'.items[i].orderId)
    && (forall p | p in s.products && p in s'.products ::
          s'.products[p].productType == s.products[p].productType)
    && s.orders.Keys <= s'.orders.Keys
    && (forall c | c in s.coupons :: c in s'.coupons && s'.coupons[c].maxUses == s.coupons[c].maxUses)
  }

  lemma GrowsSelf(s: State)
    ensures Grows(s, s)
  {
  }

  lemma EmptyInv()
    ensures Inv(EMPTY_STATE)
  {
  }

  /** Tables other than products, keys and accounts are untouched. */
  ghost predicate SameBooks(s: State, s': State) {
    && s'.orders == s.orders && s'.items == s.items
    && s'.payments == s.payments && s'.coupons == s.coupons
  }

  lemma BooksKept(s: State, s': State)
    requires AllOrNothing(s) && PaymentsAgree(s) && QuotaKept(s) && SameBooks(s, s')
    ensures AllOrNothing(s') && PaymentsAgree(s') && QuotaKept(s')
  {
    forall c | c in s.coupons
      ensures Carrying(s', c) == Carrying(s, c)
    {
    }
  }

  /** A change to products and inventory rows that leaves delivered rows in place. */
  ghost predicate InventoryStep(s: State, s': State) {
    && SameBooks(s, s') && s.nextId <= s'.nextId
    && (forall p | p in s'.products ::
          if p in s.products then s'.products[p].productType == s.products[p].productType
          else s.nextId <= p < s'.nextId)
    && (forall i | i in s.items :: s.items[i].productId in s'.products)
    && (forall t, u | u in Rows(s', t) ::
          if u in Rows(s, t) then Rows(s', t)[u].productId == Rows(s, t)[u].productId
          else s.nextId <= u < s'.nextId)
    && (forall t, u | u in Rows(s', t) ::
          && Rows(s', t)[u].productId in s'.products
          && s'.products[Rows(s', t)[u].productId].productType == t)
    && (forall t, u | u in Rows(s, t) && Rows(s, t)[u].status.Delivered? ::
          if u in Rows(s', t) then Rows(s', t)[u] == Rows(s, t)[u]
          else Rows(s, t)[u].productId !in s'.products)
    && FreeRows(s')
  }

  lemma StructureKept(s: State, s': State)
    requires Numbers(s) && Linked(s) && Attached(s) && InventoryStep(s, s')
    ensures Numbers(s') && Linked(s') && Attached(s') && Grows(s, s')
  {
    InventoryLinked(s, s');
    InventoryAttached(s, s');
  }

  lemma InventoryLinked(s: State, s': State)
    requires Linked(s) && InventoryStep(s, s')
    ensures Linked(s')
  {
  }

  /** A filled item's product is not deleted, so the unit it names stays. */
  lemma InventoryAttached(s: State, s': State)
    requires Attached(s) && InventoryStep(s, s')
    ensures Attached(s')
  {
  }

  /** Every product was either synced, or keeps its stock and its AVAILABLE rows. */
  ghost predicate StockStep(s: State, s': State) {
    forall p | p in s'.products && HasRows(s', s'.products[p].productType, p) ::
      var t := s'.products[p].productType;
      || s'.products[p].stock == StockOf(s', p)
      || (&& p in s.products && s.products[p].productType == t
          && s'.products[p].stock == s.products[p].stock
          && HasRows(s, t, p) && Avail(Rows(s', t), p) == Avail(Rows(s, t), p))
  }

  lemma StockKept(s: State, s': State)
    requires StockAgrees(s) && StockStep(s, s')
    ensures StockAgrees(s')
  {
  }

  lemma InventoryKeeps(s: State, s': State)
    requires Inv(s) && InventoryStep(s, s') && StockStep(s, s')
    ensures Inv(s') && Grows(s, s')
  {
    BooksKept(s, s');
    StructureKept(s, s');
    StockKept(s, s');
  }

  /** Products, inventory and items are the same tables. */
  ghost predicate SameInventory(s: State, s': State) {
    && s'.products == s.products && s'.keys == s.keys && s'.accounts == s.accounts
    && s'.items == s.items && s.nextId <= s'.nextId && s.orders.Keys <= s'.orders.Keys
  }

  lemma SameInventoryLinks(s: State, s': State)
    requires Linked(s) && Attached(s) && SameInventory(s, s')
    ensures Linked(s') && Attached(s')
  {
    assert forall t :: Rows(s', t) == Rows(s, t);
  }

  lemma SameInventoryStock(s: State, s': State)
    requires StockAgrees(s) && SameInventory(s, s')
    ensures StockAgrees(s')
  {
    assert forall t :: Rows(s', t) == Rows(s, t);
    StockKept(s, s');
  }

  lemma SameInventoryKeeps(s: State, s': State)
    requires Linked(s) && Attached(s) && StockAgrees(s) && SameInventory(s, s')
    ensures Linked(s') && Attached(s') && StockAgrees(s')
  {
    hide Linked, Attached, StockAgrees, SameInventory;
    SameInventoryLinks(s, s');
    SameInventoryStock(s, s');
  }

  lemma SameInventoryGrows(s: State, s': State)
    requires SameInventory(s, s')
    requires forall c | c in s.coupons :: c in s'.coupons && s'.coupons[c].maxUses == s.coupons[c].maxUses
    ensures Grows(s, s')
  {
    assert forall t :: Rows(s', t) == Rows(s, t);
  }

  lemma SameInventoryNumbers(s: State, s': State)
    requires Numbers(s) && SameInventory(s, s')
    requires forall id | id in s'.orders || id in s'.payments || id in s'.coupons :: id < s'.nextId
    ensures Numbers(s')
  {
    assert forall t :: Rows(s', t) == Rows(s, t);
  }

  // ---- products ----

  lemma CreateProductKeeps(s: State, t: ProductType, price: real, stock: int, isActive: bool)
    requires Inv(s) && CreateProduct(s, t, price, stock, isActive).Some?
    ensures Inv(CreateProduct(s, t, price, stock, isActive).value)
    ensures Grows(s, CreateProduct(s, t, price, stock, isActive).value)
  {
    var s' := CreateProduct(s, t, price, stock, isActive).value;
    assert forall t' :: Rows(s', t') == Rows(s, t');
    assert !HasRows(s, t, s.nextId);
    InventoryKeeps(s, s');
  }

  lemma UpdateProductKeeps(s: State, p: Id, price: real, stock: Option<int>, isActive: Option<bool>)
    requires Inv(s) && UpdateProduct(s, p, price, stock, isActive).Some?
    ensures Inv(UpdateProduct(s, p, price, stock, isActive).value)
    ensures Grows(s, UpdateProduct(s, p, price, stock, isActive).value)
  {
    hide UpdateProduct, InventoryStep, StockStep, Grows, Attached, AllOrNothing, PaymentsAgree, QuotaKept;
    UpdateProductInventory(s, p, price, stock, isActive);
    UpdateProductStock(s, p, price, stock, isActive);
    InventoryKeeps(s, UpdateProduct(s, p, price, stock, isActive).value);
  }

  lemma UpdateProductInventory(s: State, p: Id, price: real, stock: Option<int>, isActive: Option<bool>)
    requires Linked(s) && UpdateProduct(s, p, price, stock, isActive).Some?
    ensures InventoryStep(s, UpdateProduct(s, p, price, stock, isActive).value)
  {
    hide Avail, HasRows;
    var s' := UpdateProduct(s, p, price, stock, isActive).value;
    assert forall t :: Rows(s', t) == Rows(s, t);
  }

  lemma UpdateProductStock(s: State, p: Id, price: real, stock: Option<int>, isActive: Option<bool>)
    requires Linked(s) && UpdateProduct(s, p, price, stock, isActive).Some?
    ensures StockStep(s, UpdateProduct(s, p, price, stock, isActive).value)
  {
    hide Avail;
    var s' := UpdateProduct(s, p, price, stock, isActive).value;
    assert forall t :: Rows(s', t) == Rows(s, t);
    assert forall t | HasRows(s, t, p) :: t == s.products[p].productType;
  }

  lemma DeleteProductStock(s: State, p: Id)
    requires DeleteProduct(s, p).Some?
    ensures StockStep(s, DeleteProduct(s, p).value)
  {
    var s' := DeleteProduct(s, p).value;
    forall q, t | q != p
      ensures Avail(Rows(s', t), q) == Avail(Rows(s, t), q)
      ensures HasRows(s', t, q) ==> HasRows(s, t, q)
    {
      assert Rows(s', t) == RowsWithout(Rows(s, t), p);
    }
  }

  lemma DeleteProductInventory(s: State, p: Id)
    requires Numbers(s) && Linked(s) && DeleteProduct(s, p).Some?
    ensures InventoryStep(s, DeleteProduct(s, p).value)
  {
    var s' := DeleteProduct(s, p).value;
    assert forall t :: Rows(s', t) == RowsWithout(Rows(s, t), p);
  }

  lemma DeleteProductKeeps(s: State, p: Id)
    requires Inv(s) && DeleteProduct(s, p).Some?
    ensures Inv(DeleteProduct(s, p).value)
    ensures Grows(s, DeleteProduct(s, p).value)
  {
    DeleteProductStock(s, p);
    DeleteProductInventory(s, p);
    InventoryKeeps(s, DeleteProduct(s, p).value);
  }

  // ---- inventory ----

  /** Table `t` changes from `s` to `s1` for product `p` only; delivered rows stay. */
  ghost predicate TableStep(s: State, s1: State, t: ProductType, p: Id) {
    && SameBooks(s, s1) && s1.products == s.products && s.nextId <= s1.nextId
    && p in s.products && s.products[p].productType == t
    && (forall t' | t' != t :: Rows(s1, t') == Rows(s, t'))
    && (forall u | u in Rows(s1, t) && u !in Rows(s, t) ::
          s.nextId <= u < s1.nextId && Rows(s1, t)[u].productId == p)
    && (forall u | u in Rows(s, t) && (Rows(s, t)[u].status.Delivered? || Rows(s, t)[u].productId != p) ::
          u in Rows(s1, t) && Rows(s1, t)[u] == Rows(s, t)[u])
    && (forall u | u in Rows(s, t) && u in Rows(s1, t) :: Rows(s1, t)[u].productId == Rows(s, t)[u].productId)
    && FreeRows(s1)
  }

  lemma OtherStockKept(s: State, s1: State, t: ProductType, p: Id, t': ProductType, q: Id)
    requires TableStep(s, s1, t, p) && (q != p || t' != t)
    ensures Avail(Rows(s1, t'), q) == Avail(Rows(s, t'), q)
    ensures HasRows(s1, t', q) ==> HasRows(s, t', q)
  {
  }

  lemma TableStepStock(s: State, s1: State, t: ProductType, p: Id)
    requires TableStep(s, s1, t, p)
    ensures StockStep(s, SyncUnitSide(s1, t, p))
  {
    var s' := SyncUnitSide(s1, t, p);
    assert forall t' :: Rows(s', t') == Rows(s1, t');
    forall q | q in s'.products && q != p && HasRows(s', s'.products[q].productType, q)
      ensures var t' := s'.products[q].productType;
        HasRows(s, t', q) && Avail(Rows(s', t'), q) == Avail(Rows(s, t'), q)
    {
      OtherStockKept(s, s1, t, p, s'.products[q].productType, q);
    }
  }

  lemma TableStepInventory(s: State, s1: State, t: ProductType, p: Id)
    requires Linked(s) && TableStep(s, s1, t, p)
    ensures InventoryStep(s, SyncUnitSide(s1, t, p))
  {
    TableRows(s, s1, t, p);
    SyncedRows(s, s1, t, p);
  }

  lemma TableRows(s: State, s1: State, t: ProductType, p: Id)
    requires Linked(s) && TableStep(s, s1, t, p)
    ensures InventoryStep(s, s1)
  {
  }

  lemma SyncedRows(s: State, s1: State, t: ProductType, p: Id)
    requires InventoryStep(s, s1) && p in s1.products
    ensures InventoryStep(s, SyncUnitSide(s1, t, p))
  {
    hide Avail, FreeRows;
    var s' := SyncUnitSide(s1, t, p);
    assert forall t' :: Rows(s', t') == Rows(s1, t');
    SameFreeRows(s1, s');
  }

  lemma SameFreeRows(s: State, s': State)
    requires FreeRows(s) && s'.keys == s.keys && s'.accounts == s.accounts
    ensures FreeRows(s')
  {
    assert forall t :: Rows(s', t) == Rows(s, t);
  }

  lemma TableStepKeeps(s: State, s1: State, t: ProductType, p: Id)
    requires Inv(s) && TableStep(s, s1, t, p)
    ensures Inv(SyncUnitSide(s1, t, p)) && Grows(s, SyncUnitSide(s1, t, p))
  {
    TableStepStock(s, s1, t, p);
    TableStepInventory(s, s1, t, p);
    InventoryKeeps(s, SyncUnitSide(s1, t, p));
  }

  lemma InsertedRows(s: State, t: ProductType, p: Id, n: nat, t': ProductType, u: Id)
    requires Numbers(s) && u in Rows(Inserted(s, t, p, n), t')
    ensures if u in Rows(s, t') then Rows(Inserted(s, t, p, n), t')[u] == Rows(s, t')[u]
            else t' == t && s.nextId <= u < s.nextId + n
                 && Rows(Inserted(s, t, p, n), t')[u] == Unit(p, Available, None)
  {
    assert Rows(Inserted(s, t, p, n), t) == Rows(s, t) + NewRows(s.nextId, p, n);
  }

  lemma InsertedStep(s: State, t: ProductType, p: Id, n: nat)
    requires Numbers(s) && FreeRows(s) && p in s.products && s.products[p].productType == t
    ensures TableStep(s, Inserted(s, t, p, n), t, p)
  {
    var s1 := Inserted(s, t, p, n);
    forall t', u | u in Rows(s1, t')
      ensures if u in Rows(s, t') then Rows(s1, t')[u] == Rows(s, t')[u]
              else t' == t && s.nextId <= u < s1.nextId && Rows(s1, t')[u] == Unit(p, Available, None)
    {
      InsertedRows(s, t, p, n, t', u);
    }
  }

  lemma ImportKeeps(s: State, t: ProductType, p: Id, n: nat)
    requires Inv(s) && p in s.products && s.products[p].productType == t
    ensures Inv(Import(s, t, p, n)) && Grows(s, Import(s, t, p, n))
  {
    InsertedStep(s, t, p, n);
    TableStepKeeps(s, Inserted(s, t, p, n), t, p);
  }

  lemma DeletedStep(s: State, t: ProductType, u: Id)
    requires Linked(s) && u in Rows(s, t) && Rows(s, t)[u].status.Available?
    ensures TableStep(s, WithRows(s, t, Rows(s, t) - {u}), t, Rows(s, t)[u].productId)
  {
    var s1 := WithRows(s, t, Rows(s, t) - {u});
    assert Rows(s1, t) == Rows(s, t) - {u};
    assert forall t' | t' != t :: Rows(s1, t') == Rows(s, t');
    assert FreeRows(s1);
  }

  lemma DeleteUnitKeeps(s: State, t: ProductType, u: Id)
    requires Inv(s) && DeleteUnit(s, t, u).Some?
    ensures Inv(DeleteUnit(s, t, u).value) && Grows(s, DeleteUnit(s, t, u).value)
  {
    hide Grows, SyncUnitSide, Numbers, Attached, AllOrNothing, StockAgrees, PaymentsAgree, QuotaKept, TableStep;
    DeletedStep(s, t, u);
    TableStepKeeps(s, WithRows(s, t, Rows(s, t) - {u}), t, Rows(s, t)[u].productId);
  }

  lemma ReservedStep(s: State, u: Id, row: Unit)
    requires Linked(s) && u in s.keys && s.keys[u].status.Available?
    requires row.status.Reserved? && row.productId == s.keys[u].productId
    ensures TableStep(s, s.(keys := s.keys[u := row]), Key, row.productId)
  {
    var s1 := s.(keys := s.keys[u := row]);
    assert Rows(s, Key) == s.keys && Rows(s1, Key) == s1.keys && Rows(s1, Account) == Rows(s, Account);
    assert FreeRows(s1);
  }

  lemma ReserveKeyKeeps(s: State, u: Id, itemId: Id)
    requires Inv(s) && ReserveKey(s, u, itemId).Some?
    ensures Inv(ReserveKey(s, u, itemId).value) && Grows(s, ReserveKey(s, u, itemId).value)
  {
    hide Grows, SyncUnitSide, Numbers, Attached, AllOrNothing, StockAgrees, PaymentsAgree, QuotaKept, TableStep;
    var row := s.keys[u].(status := UnitStatus.Reserved, orderItemId := Some(itemId));
    ReservedStep(s, u, row);
    TableStepKeeps(s, s.(keys := s.keys[u := row]), Key, row.productId);
  }

  lemma DeliveredStep(s: State, t: ProductType, u: Id)
    requires Linked(s) && u in Rows(s, t)
    ensures TableStep(s, WithRows(s, t, Rows(s, t)[u := Rows(s, t)[u].(status := UnitStatus.Delivered)]), t,
                      Rows(s, t)[u].productId)
  {
    var row := Rows(s, t)[u].(status := UnitStatus.Delivered);
    var s1 := WithRows(s, t, Rows(s, t)[u := row]);
    assert Rows(s1, t) == Rows(s, t)[u := row];
    assert forall t' | t' != t :: Rows(s1, t') == Rows(s, t');
    assert FreeRows(s1);
  }

  lemma MarkDeliveredKeeps(s: State, t: ProductType, u: Id)
    requires Inv(s) && MarkDelivered(s, t, u).Some?
    ensures Inv(MarkDelivered(s, t, u).value) && Grows(s, MarkDelivered(s, t, u).value)
  {
    hide Grows, SyncUnitSide, Numbers, Attached, AllOrNothing, StockAgrees, PaymentsAgree, QuotaKept, TableStep;
    var row := Rows(s, t)[u].(status := UnitStatus.Delivered);
    DeliveredStep(s, t, u);
    TableStepKeeps(s, WithRows(s, t, Rows(s, t)[u := row]), t, row.productId);
  }
}
