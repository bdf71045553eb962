/** `OrdersRepository` and `OrdersService`: the same branches and loops over the tables. */
module Orders {
  import opened Store
  import opened Pricing
  import opened Fulfilment
  import opened Invariants
  import opened Allocation

  class OrdersRepository {
    const db: Database

    constructor (db: Database)
      ensures this.db == db
    {
      this.db := db;
    }

    method SyncProductStock(p: Id)
      requires p in db.products
      modifies db
      ensures db.View() == SyncOrderSide(old(db.View()), {p})
    {
      var rows := if db.products[p].productType.Account? then db.accounts else db.keys;
      var availableCount :=
        |set u | u in rows && rows[u].productId == p && rows[u].status.Available?|;
      assert Avail(rows, p) == set u | u in rows && rows[u].productId == p && rows[u].status.Available?;
      var product := db.products[p];
      db.products := db.products[p :=
        product.(stock := availableCount, isActive := availableCount > 0 && product.isActive)];
      assert db.products == SyncOrderSide(old(db.View()), {p}).products;
    }

    /** The loop over the affected products. */
    method SyncAll(ps: set<Id>)
      requires ps <= db.products.Keys
      modifies db
      ensures db.View() == SyncOrderSide(old(db.View()), ps)
    {
      ghost var s0 := db.View();
      var todo := ps;
      SyncNone(s0);
      while todo != {}
        invariant todo <= ps
        invariant db.View() == SyncOrderSide(s0, ps - todo)
        decreases todo
      {
        var p :| p in todo;
        SyncMore(s0, ps - todo, p);
        SyncProductStock(p);
        assert ps - (todo - {p}) == ps - todo + {p};
        todo := todo - {p};
      }
      assert ps - {} == ps;
    }

    method StockSuffices(requested: map<Id, nat>) returns (ok: bool)
      requires requested.Keys <= db.products.Keys
      ensures ok <==> forall p | p in requested :: db.products[p].stock >= requested[p]
    {
      var unchecked := requested.Keys;
      while unchecked != {}
        invariant unchecked <= requested.Keys
        invariant forall p | p in requested.Keys - unchecked :: db.products[p].stock >= requested[p]
        decreases unchecked
      {
        var p :| p in unchecked;
        if db.products[p].stock < requested[p] {
          return false;
        }
        unchecked := unchecked - {p};
      }
      return true;
    }

    /** `order.create` with its items. */
    method InsertOrder(
      userId: Id, subtotal: real, flat: seq<Item>, coupon: Option<CouponData>, ghost reqs: seq<Request>)
      requires Known(db.products, reqs) && subtotal == Subtotal(db.products, reqs)
      requires flat == Flat(db.products, db.nextId, reqs)
      modifies db
      ensures db.View() == OrderRows(old(db.View()), userId, reqs, coupon)
    {
      hide Flat, Numbered, Subtotal, Known, OrderRows;
      ghost var s := db.View();
      var id := db.nextId;
      var discountAmount := if coupon.Some? then coupon.value.discountAmount else 0.0;
      var order := Order(
        userId, OrderStatus.Pending, subtotal, discountAmount, subtotal - discountAmount,
        if coupon.Some? then Some(coupon.value.couponId) else None);
      OrderRowsAre(s, userId, reqs, coupon, order, flat);
      db.orders := db.orders[id := order];
      db.items := db.items + Numbered(id + 1, flat);
      db.nextId := id + 1 + |flat|;
    }

    /** The order transaction without the coupon count; `ok` is false for a thrown error. */
    method Create(userId: Id, reqs: seq<Request>, coupon: Option<CouponData>) returns (ok: bool)
      modifies db
      ensures ok <==> Orderable(old(db.products), reqs) && EnoughStock(old(db.View()), reqs)
      ensures db.View() == if ok
        then SyncOrderSide(OrderRows(old(db.View()), userId, reqs, coupon), Asked(reqs))
        else old(db.View())
    {
      hide Flat, NewOrder, Subtotal, Requested, SyncOrderSide;
      var requested := GroupByProduct(reqs);
      var priced := CalculateSubtotal(db.products, reqs);
      if priced.None? {
        return false;
      }
      var flat := FlattenItems(db.products, db.nextId, reqs);
      var enough := StockSuffices(requested);
      if !enough {
        return false;
      }
      InsertOrder(userId, priced.value, flat, coupon, reqs);
      SyncAll(Asked(reqs));
      return true;
    }

    /** `updateMany` on the given units of one table, skipped when there are none. */
    method FreeUnits(t: ProductType, units: set<Id>)
      modifies db
      ensures db.View() == WithRows(old(db.View()), t, Freed(Rows(old(db.View()), t), units))
    {
      var rows := db.Table(t);
      if units != {} {
        db.SetTable(t, map u | u in rows ::
          if u in units then rows[u].(status := Available, orderItemId := None) else rows[u]);
      } else {
        assert Freed(rows, units) == rows;
      }
    }

    /** The units the order's items name become AVAILABLE again, and their products are synced. */
    method Release(id: Id)
      requires forall i | i in db.items :: db.items[i].productId in db.products
      modifies db
      ensures db.View() == Fulfilment.Release(old(db.View()), id)
    {
      hide SyncOrderSide;
      ghost var s0 := db.View();
      var items := set i | i in db.items && db.items[i].orderId == id && HasUnit(db.items[i]);
      var affected := set i | i in items :: db.items[i].productId;
      var keyIds := set i | i in items && db.items[i].keyId.Some? :: db.items[i].keyId.value;
      var accountIds := set i | i in items && db.items[i].accountId.Some? :: db.items[i].accountId.value;
      assert affected == Touched(s0, id);
      assert keyIds == Held(s0, id, Key);
      assert accountIds == Held(s0, id, Account);
      FreeUnits(Key, keyIds);
      FreeUnits(Account, accountIds);
      SyncAll(affected);
    }

    method UpdateStatus(id: Id, status: OrderStatus) returns (ok: bool)
      requires forall i | i in db.items :: db.items[i].productId in db.products
      modifies db
      ensures ok <==> Fulfilment.UpdateStatus(old(db.View()), id, status).Some?
      ensures db.View() == if ok
        then Fulfilment.UpdateStatus(old(db.View()), id, status).value else old(db.View())
      ensures var s := if id in old(db.orders) then Some(old(db.orders)[id].status) else None;
        && (status.Pending? ==> !ok)
        && (status.AwaitingPayment? ==> (ok <==> s == Some(OrderStatus.Pending)))
        && (status.Paid? ==> (ok <==> s == Some(OrderStatus.AwaitingPayment)))
        && (status.Processing? || status.Refunded? ==> (ok <==> s == Some(OrderStatus.Paid)))
        && (status.Delivered? ==> (ok <==> s == Some(OrderStatus.Paid) || s == Some(OrderStatus.Processing)))
        && (status.Cancelled? ==> (ok <==>
              || s == Some(OrderStatus.Pending) || s == Some(OrderStatus.AwaitingPayment)
              || s == Some(OrderStatus.Processing)))
      ensures ok ==> id in db.orders && db.orders[id] == old(db.orders)[id].(status := status)
    {
      if id !in db.orders || !Allowed(db.orders[id].status, status) {
        return false;
      }
      if status.Cancelled? || status.Refunded? {
        Release(id);
      }
      db.orders := db.orders[id := db.orders[id].(status := status)];
      return true;
    }

    method Cancel(id: Id) returns (ok: bool)
      requires forall i | i in db.items :: db.items[i].productId in db.products
      modifies db
      ensures ok <==> Fulfilment.UpdateStatus(old(db.View()), id, OrderStatus.Cancelled).Some?
      ensures db.View() == if ok
        then Fulfilment.UpdateStatus(old(db.View()), id, OrderStatus.Cancelled).value else old(db.View())
      ensures ok <==> id in old(db.orders) && var status := old(db.orders)[id].status;
        status.Pending? || status.AwaitingPayment? || status.Processing?
    {
      ok := UpdateStatus(id, OrderStatus.Cancelled);
    }

    /** The item list that `findById` returns. */
    method ReadItems(id: Id) returns (lines: seq<Line>)
      ensures IsSnapshot(db.View(), id, lines)
    {
      var s := db.View();
      var todo := ItemsOf(s, id);
      lines := [];
      while todo != {}
        invariant todo <= ItemsOf(s, id) && s == db.View()
        invariant DistinctIds(lines) && Ids(lines) == ItemsOf(s, id) - todo
        invariant forall l | l in lines :: l.id in s.items && l == LineOf(s, l.id)
        decreases todo
      {
        var i :| i in todo;
        var l := LineOf(s, i);
        assert forall x :: x in lines + [l] <==> x in lines || x == l;
        assert Ids(lines + [l]) == Ids(lines) + {i};
        forall a | 0 <= a < |lines|
          ensures lines[a].id != i
        {
          assert lines[a].id in Ids(lines);
        }
        lines := lines + [l];
        todo := todo - {i};
      }
    }

    /**
     The delivery transaction. It commits exactly when `CanDeliver` holds of the state it
     starts in; then each wanting line has its own AVAILABLE unit of its own product, and
     every product has lost exactly the units asked for. Otherwise nothing has changed.
     */
    method DeliverOrderAtomic(id: Id, items: seq<Line>) returns (ok: bool)
      requires DistinctIds(items)
      requires forall l | l in items :: l.id in db.items && l.productId in db.products
      requires Attached(db.View()) && FreeRows(db.View())
      modifies db
      ensures Delivers(old(db.View()), db.View(), id, items, ok)
      ensures ok ==> Balanced(old(db.View()), db.View(), items)
    {
      hide CanDeliver, Allocated, Balanced, Named;
      var saved := db.View();
      if id !in db.orders || !db.orders[id].status.Paid? {
        Refuses(saved, id, items);
        return false;
      }
      var affected: set<Id> := {};
      ProgressStart(saved);
      for n := 0 to |items|
        invariant Progress(saved, db.View(), items[..n])
        invariant affected == ServedProducts(items[..n])
        invariant forall l | l in items[..n] ::
          l.quantity == 1 && (Wants(l) ==> !Named(Rows(saved, l.productType), l.id))
      {
        var item := items[n];
        assert items[..n + 1] == items[..n] + [item];
        if item.quantity != 1 {
          Refuses(saved, id, items);
          db.Rollback(saved);
          return false;
        }
        ghost var before := db.View();
        if !Wants(item) {
          ProgressSkip(saved, before, items[..n], item);
          continue;
        }
        var rows := db.Table(item.productType);
        var available := Avail(rows, item.productId);
        if available == {} {
          OutOfUnits(saved, before, id, items, n);
          db.Rollback(saved);
          return false;
        }
        NamedFromStart(saved, before, items, n);
        if Named(rows, item.id) {
          Refuses(saved, id, items);
          db.Rollback(saved);
          return false;
        }
        var u :| u in available;
        forall a | 0 <= a < n
          ensures items[a].id != item.id
        {
        }
        ProgressTake(saved, before, items[..n], item, u);
        db.SetTable(item.productType,
          rows[u := rows[u].(status := UnitStatus.Delivered, orderItemId := Some(item.id))]);
        db.items := db.items[item.id := WithSlot(db.items[item.id], item.productType, u)];
        affected := affected + {item.productId};
        assert db.View() == Take(before, item, u);
      }
      assert items[..|items|] == items;
      ghost var moved := db.View();
      SyncAll(affected);
      db.orders := db.orders[id := db.orders[id].(status := OrderStatus.Delivered)];
      Commits(saved, moved, db.View(), id, items);
      return true;
    }
  }

  lemma OrderRowsAre(
    s: State, userId: Id, reqs: seq<Request>, coupon: Option<CouponData>, order: Order, flat: seq<Item>)
    requires Known(s.products, reqs) && flat == Flat(s.products, s.nextId, reqs)
    requires order == NewOrder(s, userId, reqs, coupon)
    ensures OrderRows(s, userId, reqs, coupon)
         == s.(orders := s.orders[s.nextId := order], items := s.items + Numbered(s.nextId + 1, flat),
               nextId := s.nextId + 1 + |flat|)
  {
    hide Flat, Numbered, NewOrder, Subtotal;
  }

  /** Not PAID, a line of several, or a line that a unit names already: no delivery. */
  lemma Refuses(s: State, o: Id, lines: seq<Line>)
    requires o !in s.orders || !s.orders[o].status.Paid? || exists l ::
      l in lines && (l.quantity != 1 || (Wants(l) && Named(Rows(s, l.productType), l.id)))
    ensures !CanDeliver(s, o, lines)
  {
  }

  lemma SyncNone(s: State)
    ensures SyncOrderSide(s, {}) == s
  {
    assert SyncOrderSide(s, {}).products == s.products;
  }

  lemma SyncMore(s: State, ps: set<Id>, p: Id)
    requires p !in ps && p in s.products
    ensures p in SyncOrderSide(s, ps).products
    ensures SyncOrderSide(SyncOrderSide(s, ps), {p}) == SyncOrderSide(s, ps + {p})
  {
    var s1 := SyncOrderSide(s, ps);
    assert forall t :: Rows(s1, t) == Rows(s, t);
    assert SyncOrderSide(s1, {p}).products == SyncOrderSide(s, ps + {p}).products;
  }

  lemma Commits(s0: State, moved: State, s': State, o: Id, lines: seq<Line>)
    requires Progress(s0, moved, lines) && o in s0.orders && s0.orders[o].status.Paid?
    requires s' == SetStatus(SyncOrderSide(moved, ServedProducts(lines)), o, OrderStatus.Delivered)
    requires forall l | l in lines ::
      l.quantity == 1 && (Wants(l) ==> !Named(Rows(s0, l.productType), l.id))
    ensures CanDeliver(s0, o, lines) && Committed(s0, s', o, lines) && Balanced(s0, s', lines)
  {
    assert forall t :: Rows(s', t) == Rows(moved, t);
    forall t, p
      ensures Demand(lines, t, p) <= |Avail(Rows(s0, t), p)|
    {
      assert |Avail(Rows(moved, t), p)| + Demand(lines, t, p) == |Avail(Rows(s0, t), p)|;
    }
    AllocatedSame(s0, moved, s', lines);
  }

  lemma AllocatedSame(s0: State, s: State, s': State, lines: seq<Line>)
    requires Allocated(s0, s, lines)
    requires s'.keys == s.keys && s'.accounts == s.accounts && s'.items == s.items
    ensures Allocated(s0, s', lines)
  {
    assert forall t :: Rows(s', t) == Rows(s, t);
    forall t, u | u in Rows(s0, t)
      ensures Rows(s', t)[u] == Rows(s0, t)[u] || exists l :: l in lines && Took(s', l, t, u)
    {
      if Rows(s, t)[u] != Rows(s0, t)[u] {
        var l :| l in lines && Took(s, l, t, u);
        assert Took(s', l, t, u);
      }
    }
    forall l | l in lines && Wants(l)
      ensures Gets(s0, s', l)
    {
      assert Gets(s0, s, l);
    }
  }

  class OrdersService {
    const db: Database
    const repository: OrdersRepository

    constructor (db: Database)
      ensures this.db == db && repository.db == db
    {
      this.db := db;
      this.repository := new OrdersRepository(db);
    }

    /** The coupon check that `create` makes before its transaction, from its own reading of the prices. */
    method CheckCart(reqs: seq<Request>, code: Id, now: nat) returns (r: Option<CouponData>)
      ensures r.Some? <==> Checks(db.View(), reqs, code, now)
      ensures r.Some? ==> r.value == CheckedData(db.View(), reqs, code)
    {
      var subtotal := CalculateSubtotal(db.products, reqs);
      if subtotal.None? {
        return None;
      }
      r := ValidateAndCalculate(db.coupons, code, subtotal.value, now);
    }

    /** `incrementUsageIfAvailableTx`: a guarded increment. */
    method IncrementUsage(c: Id, maxUses: Option<nat>) returns (ok: bool)
      modifies db
      ensures ok <==> CouponFree(old(db.View()), CouponData(c, 0.0, maxUses))
      ensures db.View() == if ok then CountUse(old(db.View()), c) else old(db.View())
    {
      if c !in db.coupons || (maxUses.Some? && db.coupons[c].usedCount >= maxUses.value) {
        return false;
      }
      db.coupons := db.coupons[c := db.coupons[c].(usedCount := db.coupons[c].usedCount + 1)];
      return true;
    }

    /** Order and coupon count in one transaction: a failed increment leaves no order behind. */
    method Create(userId: Id, reqs: seq<Request>, coupon: Option<CouponData>) returns (ok: bool)
      requires repository.db == db
      modifies db
      ensures ok <==> PlaceOrder(old(db.View()), userId, reqs, coupon).Some?
      ensures db.View() == if ok
        then PlaceOrder(old(db.View()), userId, reqs, coupon).value else old(db.View())
    {
      var saved := db.View();
      var created := repository.Create(userId, reqs, coupon);
      if !created {
        return false;
      }
      if coupon.Some? {
        var incremented := IncrementUsage(coupon.value.couponId, coupon.value.maxUses);
        if !incremented {
          db.Rollback(saved);
          return false;
        }
      }
      return true;
    }

    /** Reads the order, then runs the delivery transaction on what was read. */
    method DeliverOrder(id: Id) returns (ok: bool)
      requires repository.db == db && Linked(db.View()) && Attached(db.View())
      modifies db
      ensures ok ==> exists lines ::
        IsSnapshot(old(db.View()), id, lines) && CanDeliver(old(db.View()), id, lines)
      ensures !ok ==> !exists lines ::
        IsSnapshot(old(db.View()), id, lines) && CanDeliver(old(db.View()), id, lines)
      ensures if id in old(db.orders) && old(db.orders)[id].status.Paid?
        then (exists lines ::
          IsSnapshot(old(db.View()), id, lines) && Delivers(old(db.View()), db.View(), id, lines, ok))
        else !ok && db.View() == old(db.View())
    {
      if id !in db.orders || !db.orders[id].status.Paid? {
        return false;
      }
      ghost var s0 := db.View();
      var items := repository.ReadItems(id);
      SnapshotsAgree(s0, id, items);
      ok := repository.DeliverOrderAtomic(id, items);
      assert IsSnapshot(s0, id, items) && Delivers(s0, db.View(), id, items, ok);
    }
  }

  /** Whether an order can be delivered does not depend on the order its items are listed in. */
  lemma SnapshotsAgree(s: State, o: Id, lines: seq<Line>)
    requires IsSnapshot(s, o, lines)
    ensures forall other | IsSnapshot(s, o, other) :: CanDeliver(s, o, other) <==> CanDeliver(s, o, lines)
  {
    forall other | IsSnapshot(s, o, other)
      ensures CanDeliver(s, o, other) <==> CanDeliver(s, o, lines)
    {
      SameMembers(s, o, lines, other);
      forall t, p
        ensures Demand(lines, t, p) == Demand(other, t, p)
      {
        DemandIsCount(lines, t, p);
        DemandIsCount(other, t, p);
        assert Asking(lines, t, p) == Asking(other, t, p);
      }
    }
  }

  lemma SameMembers(s: State, o: Id, lines: seq<Line>, other: seq<Line>)
    requires IsSnapshot(s, o, lines) && IsSnapshot(s, o, other)
    ensures forall l :: l in lines <==> l in other
  {
    forall l | l in lines
      ensures l in other
    {
      assert l.id in Ids(other);
    }
    forall l | l in other
      ensures l in lines
    {
      assert l.id in Ids(lines);
    }
  }

  function Asking(lines: seq<Line>, t: ProductType, p: Id): set<Id> {
    set l | l in lines && Wants(l) && l.productType == t && l.productId == p :: l.id
  }

  lemma {:induction false} DemandIsCount(lines: seq<Line>, t: ProductType, p: Id)
    requires DistinctIds(lines)
    ensures Demand(lines, t, p) == |Asking(lines, t, p)|
  {
    if lines != [] {
      var front, l := lines[..|lines| - 1], lines[|lines| - 1];
      DemandIsCount(front, t, p);
      assert forall x :: x in lines <==> x in front || x == l;
      assert l.id !in Ids(front);
      if Wants(l) && l.productType == t && l.productId == p {
        assert Asking(lines, t, p) == Asking(front, t, p) + {l.id};
        assert l.id !in Asking(front, t, p);
      } else {
        assert Asking(lines, t, p) == Asking(front, t, p);
      }
    }
  }
}
