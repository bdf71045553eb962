/** What the inventory operations mean for one another: import, deletion, reservation, delivery. */
module UnitRules {
  import opened Store
  import opened Fulfilment
  import opened Invariants

  /** The units of product `p` that can be sold, from the table of type `t`. */
  function Sellable(s: State, t: ProductType, p: Id): set<Id> {
    if t.Account?
    then set u | u in s.accounts && s.accounts[u].productId == p && s.accounts[u].status == UnitStatus.Available
    else set u | u in s.keys && s.keys[u].productId == p && s.keys[u].status == UnitStatus.Available
  }

  lemma SellableIsAvail(s: State, t: ProductType, p: Id)
    ensures Avail(Rows(s, t), p) == Sellable(s, t, p)
  {
  }

  // ---- each operation, in the rows it reads and writes ----

  /** The inventory sync counts the product's units in its table, and changes nothing else. */
  lemma SyncExactly(s: State, t: ProductType, p: Id)
    requires p in s.products
    ensures SyncUnitSide(s, t, p) == s.(products := s.products[p := Product(
      s.products[p].price, |Sellable(s, t, p)|, s.products[p].isActive, s.products[p].productType)])
  {
    SellableIsAvail(s, t, p);
  }

  /** An import brings in `n` new rows of the product, AVAILABLE and naming no item; old rows stay. */
  lemma ImportExactly(s: State, t: ProductType, p: Id, n: nat, u: Id)
    requires Numbers(s) && p in s.products
    ensures var rows, rows' := Rows(s, t), Rows(Import(s, t, p, n), t);
      && (u in rows' <==> u in rows || s.nextId <= u < s.nextId + n)
      && (u in rows ==> rows'[u] == rows[u])
      && (s.nextId <= u < s.nextId + n ==> rows'[u] == Unit(p, UnitStatus.Available, None))
  {
    hide SyncUnitSide, Avail;
    assert Rows(Inserted(s, t, p, n), t) == Rows(s, t) + NewRows(s.nextId, p, n);
    SyncKeepsTables(Inserted(s, t, p, n), t, p);
  }

  lemma SyncKeepsTables(s: State, t: ProductType, p: Id)
    requires p in s.products
    ensures SyncUnitSide(s, t, p).keys == s.keys && SyncUnitSide(s, t, p).accounts == s.accounts
  {
  }

  /** Exactly AVAILABLE rows can be deleted, and only that row goes. */
  lemma DeleteExactly(s: State, t: ProductType, u: Id)
    ensures DeleteUnit(s, t, u).Some? <==>
      u in Rows(s, t) && Rows(s, t)[u].status == UnitStatus.Available && Rows(s, t)[u].productId in s.products
    ensures DeleteUnit(s, t, u).Some? ==> Rows(DeleteUnit(s, t, u).value, t) == Rows(s, t) - {u}
  {
  }

  /** Exactly an AVAILABLE key can be reserved, for an item that no key names. */
  lemma ReserveExactly(s: State, u: Id, i: Id)
    ensures ReserveKey(s, u, i).Some? <==>
      && u in s.keys && s.keys[u].status == UnitStatus.Available && s.keys[u].productId in s.products
      && forall v | v in s.keys :: s.keys[v].orderItemId != Some(i)
    ensures ReserveKey(s, u, i).Some? ==>
      ReserveKey(s, u, i).value.keys == s.keys[u := Unit(s.keys[u].productId, UnitStatus.Reserved, Some(i))]
  {
  }

  /** Any row can be handed over, whatever its status; it keeps the item it names. */
  lemma HandOverExactly(s: State, t: ProductType, u: Id)
    ensures MarkDelivered(s, t, u).Some? <==> u in Rows(s, t) && Rows(s, t)[u].productId in s.products
    ensures MarkDelivered(s, t, u).Some? ==>
      Rows(MarkDelivered(s, t, u).value, t) == Rows(s, t)[u :=
        Unit(Rows(s, t)[u].productId, UnitStatus.Delivered, Rows(s, t)[u].orderItemId)]
  {
  }

  /** A product may start on sale exactly when some unit of its type, of any product, is AVAILABLE. */
  lemma CreateExactly(s: State, t: ProductType, price: real, stock: int, isActive: bool)
    ensures CreateProduct(s, t, price, stock, isActive).Some? <==>
      isActive ==> exists u :: u in Rows(s, t) && Rows(s, t)[u].status == UnitStatus.Available
    ensures CreateProduct(s, t, price, stock, isActive).Some? ==>
      CreateProduct(s, t, price, stock, isActive).value
      == s.(products := s.products[s.nextId := Product(price, stock, isActive, t)], nextId := s.nextId + 1)
  {
  }

  /**
   An update is refused exactly when it would leave the product on sale with nothing to sell. It
   sets price and sale as asked; the stock is the one given, or the old one, only without rows.
   */
  lemma UpdateExactly(s: State, p: Id, price: real, stock: Option<int>, isActive: Option<bool>)
    requires p in s.products
    ensures var active := if isActive.Some? then isActive.value else s.products[p].isActive;
      && (UpdateProduct(s, p, price, stock, isActive).Some? <==>
            (active ==> |Sellable(s, s.products[p].productType, p)| > 0))
      && (UpdateProduct(s, p, price, stock, isActive).Some? ==>
            var s' := UpdateProduct(s, p, price, stock, isActive).value;
            && s' == s.(products := s'.products) && s'.products.Keys == s.products.Keys
            && (forall q | q in s.products && q != p :: s'.products[q] == s.products[q])
            && s'.products[p].price == price && s'.products[p].isActive == active
            && s'.products[p].productType == s.products[p].productType
            && ((forall t, u | u in Rows(s, t) :: Rows(s, t)[u].productId != p) ==>
                  s'.products[p].stock == if stock.Some? then stock.value else s.products[p].stock))
  {
    SellableIsAvail(s, s.products[p].productType, p);
  }

  /** A product that no item names can be dropped; exactly its own rows go with it. */
  lemma DropExactly(s: State, p: Id)
    ensures DeleteProduct(s, p).Some? <==>
      p in s.products && forall i | i in s.items :: s.items[i].productId != p
    ensures DeleteProduct(s, p).Some? ==>
      var s' := DeleteProduct(s, p).value;
      && s'.products == s.products - {p}
      && (forall u :: u in s'.keys <==> u in s.keys && s.keys[u].productId != p)
      && (forall u :: u in s'.accounts <==> u in s.accounts && s.accounts[u].productId != p)
      && (forall u | u in s'.keys :: s'.keys[u] == s.keys[u])
      && (forall u | u in s'.accounts :: s'.accounts[u] == s.accounts[u])
  {
  }

  /** A new coupon starts unused, with the rest as given. */
  lemma CouponExactly(s: State, c: Coupon)
    ensures CreateCoupon(s, c).coupons == s.coupons[s.nextId := Coupon(
      c.kind, c.value, c.minPurchase, c.maxUses, 0, c.validFrom, c.validTo, c.isActive)]
  {
  }

  /** A refund starts exactly for an APPROVED payment that the provider knows. */
  lemma RefundExactly(s: State, y: Id)
    ensures Refundable(s, y) <==>
      y in s.payments && s.payments[y].status == PaymentStatus.Approved && s.payments[y].providerTxId != None
    ensures y in s.payments ==> WriteRefund(s, y) == s.(payments := s.payments[y :=
      s.payments[y].(status := PaymentStatus.Refunded, idempotencyKey := None)])
  {
  }

  /** A release frees exactly the units that the order's items name. */
  lemma ReleaseExactly(s: State, o: Id, u: Id)
    ensures var s' := Release(s, o);
      && s'.orders == s.orders && s'.items == s.items
      && (u in s.keys ==>
            && u in s'.keys
            && s'.keys[u] == if exists i :: i in s.items && s.items[i].orderId == o && s.items[i].keyId == Some(u)
                             then Unit(s.keys[u].productId, UnitStatus.Available, None) else s.keys[u])
      && (u in s.accounts ==>
            && u in s'.accounts
            && s'.accounts[u] ==
               if exists i :: i in s.items && s.items[i].orderId == o && s.items[i].accountId == Some(u)
               then Unit(s.accounts[u].productId, UnitStatus.Available, None) else s.accounts[u])
  {
    hide Synced;
    HeldExactly(s, o, u);
  }

  lemma HeldExactly(s: State, o: Id, u: Id)
    ensures u in Held(s, o, Key) <==>
      exists i :: i in s.items && s.items[i].orderId == o && s.items[i].keyId == Some(u)
    ensures u in Held(s, o, Account) <==>
      exists i :: i in s.items && s.items[i].orderId == o && s.items[i].accountId == Some(u)
  {
    if i :| i in s.items && s.items[i].orderId == o && s.items[i].keyId == Some(u) {
      assert i in ItemsOf(s, o) && Slot(s.items[i], Key) == Some(u);
    }
    if i :| i in s.items && s.items[i].orderId == o && s.items[i].accountId == Some(u) {
      assert i in ItemsOf(s, o) && Slot(s.items[i], Account) == Some(u);
    }
  }

  // ---- what they mean for one another ----

  lemma InsertedRow(s: State, t: ProductType, p: Id)
    requires Numbers(s)
    ensures Rows(Inserted(s, t, p, 1), t) == Rows(s, t)[s.nextId := Unit(p, Available, None)]
    ensures Rows(Inserted(s, t, p, 1), t) - {s.nextId} == Rows(s, t)
  {
    assert NewRows(s.nextId, p, 1) == map[s.nextId := Unit(p, Available, None)];
  }

  lemma SyncTwice(s: State, s1: State, t: ProductType, p: Id)
    requires p in s.products && s1.products == s.products
    ensures SyncUnitSide(s, t, p).products[p := SyncUnitSide(s1, t, p).products[p]] == SyncUnitSide(s1, t, p).products
  {
  }

  /** Deleting the row an import has just brought puts the table back and synchronises the stock. */
  lemma ImportThenDelete(s: State, t: ProductType, p: Id)
    requires Numbers(s) && p in s.products
    ensures DeleteUnit(Import(s, t, p, 1), t, s.nextId)
         == Some(SyncUnitSide(s, t, p).(nextId := s.nextId + 1))
  {
    hide Avail, NewRows, Numbers;
    InsertedRow(s, t, p);
    SyncTwice(Inserted(s, t, p, 1), s, t, p);
  }

  /** Deletion takes one AVAILABLE unit off sale, and that unit cannot be deleted or delivered again. */
  lemma DeletedOnce(s: State, t: ProductType, u: Id)
    requires DeleteUnit(s, t, u).Some?
    ensures var s' := DeleteUnit(s, t, u).value;
      var p := Rows(s, t)[u].productId;
      && s'.products[p].stock == |Avail(Rows(s, t), p)| - 1
      && Avail(Rows(s', t), p) == Avail(Rows(s, t), p) - {u}
      && DeleteUnit(s', t, u) == MarkDelivered(s', t, u) == None
  {
    var s' := DeleteUnit(s, t, u).value;
    var p := Rows(s, t)[u].productId;
    assert Rows(s', t) == Rows(s, t) - {u};
    assert Avail(Rows(s', t), p) == Avail(Rows(s, t), p) - {u};
  }

  /**
   A reserved key is off sale: the stock falls by one, it can be neither reserved again nor
   deleted, the item can reserve no other key, and an order in which the item still asks for
   a key can no longer be delivered.
   */
  lemma ReservedOnce(s: State, u: Id, i: Id)
    requires ReserveKey(s, u, i).Some?
    ensures var s' := ReserveKey(s, u, i).value;
      var p := s.keys[u].productId;
      && s'.products[p].stock == |Avail(s.keys, p)| - 1
      && Avail(s'.keys, p) == Avail(s.keys, p) - {u}
      && DeleteUnit(s', Key, u).None?
      && (forall j :: ReserveKey(s', u, j).None?)
      && (forall v :: ReserveKey(s', v, i).None?)
      && (forall o, lines: seq<Line>, l: Line | l in lines && l.id == i && l.productType.Key? && Wants(l) ::
            !CanDeliver(s', o, lines))
  {
    hide Demand;
    var s' := ReserveKey(s, u, i).value;
    var p := s.keys[u].productId;
    assert Avail(s'.keys, p) == Avail(s.keys, p) - {u};
    assert s'.keys[u].orderItemId == Some(i) && Rows(s', Key) == s'.keys;
    assert Named(s'.keys, i);
  }

  /**
   Handing a unit over takes it off sale for good: it is no longer counted, can be neither
   reserved nor deleted, and handing it over again changes nothing.
   */
  lemma HandedOver(s: State, t: ProductType, u: Id)
    requires MarkDelivered(s, t, u).Some?
    ensures var s' := MarkDelivered(s, t, u).value;
      var p := Rows(s, t)[u].productId;
      && Avail(Rows(s', t), p) == Avail(Rows(s, t), p) - {u}
      && s'.products[p].stock == |Avail(Rows(s, t), p) - {u}|
      && DeleteUnit(s', t, u).None?
      && (forall i :: t.Key? ==> ReserveKey(s', u, i).None?)
      && MarkDelivered(s', t, u) == Some(s')
  {
    hide Avail, Named;
    var s' := MarkDelivered(s, t, u).value;
    var p := Rows(s, t)[u].productId;
    assert Rows(s', t) == Rows(s, t)[u := Rows(s, t)[u].(status := UnitStatus.Delivered)];
    OffSale(Rows(s, t), u);
    assert Rows(s', t)[u := Rows(s', t)[u]] == Rows(s', t);
    assert s'.products[p := s'.products[p]] == s'.products;
  }

  lemma OffSale(rows: map<Id, Unit>, u: Id)
    requires u in rows
    ensures var p := rows[u].productId;
      Avail(rows[u := rows[u].(status := UnitStatus.Delivered)], p) == Avail(rows, p) - {u}
  {
  }

  /**
   An update never leaves a product on sale without a unit to sell: an active product has as
   its stock the positive number of AVAILABLE rows of its own type. Repeating it changes nothing.
   */
  lemma UpdatedHonestly(s: State, p: Id, price: real, stock: Option<int>, isActive: Option<bool>)
    requires Linked(s) && UpdateProduct(s, p, price, stock, isActive).Some?
    ensures var s' := UpdateProduct(s, p, price, stock, isActive).value;
      && (s'.products[p].isActive ==>
            s'.products[p].stock == |Sellable(s', s'.products[p].productType, p)| > 0)
      && (forall u | u in Rows(s, s.products[p].productType)
                     && Rows(s, s.products[p].productType)[u].productId == p ::
            s'.products[p].stock == |Sellable(s', s'.products[p].productType, p)|)
      && UpdateProduct(s', p, price, stock, isActive) == Some(s')
  {
    var s' := UpdateProduct(s, p, price, stock, isActive).value;
    assert forall t :: Rows(s', t) == Rows(s, t);
    assert forall t | HasRows(s, t, p) :: t == s.products[p].productType;
    assert s'.products[p := s'.products[p]] == s'.products;
    SellableIsAvail(s, s.products[p].productType, p);
    SellableIsAvail(s', s.products[p].productType, p);
    if StockOf(s, p) > 0 {
      SellableHasRows(s, p);
    }
  }

  lemma SellableHasRows(s: State, p: Id)
    requires p in s.products && StockOf(s, p) > 0
    ensures HasRows(s, s.products[p].productType, p)
  {
    var u :| u in Avail(Rows(s, s.products[p].productType), p);
  }
}
