/**
 Approval and the delivery that follows it, taken as two steps with something in between. The
 database's unique index still keeps a filled item from a second unit; but a refund that comes
 in between takes a delivered unit back exactly when the order had one.
 */
module SplitApproval {
  import opened Store
  import opened Fulfilment
  import opened Invariants
  import opened OrderInvariants

  /** However stale the list, a line of a filled item that asks for a unit stops the delivery. */
  lemma SecondUnitRefused(s: State, o: Id, lines: seq<Line>, l: Line)
    requires Linked(s) && Attached(s) && ReadOk(s, o, lines)
    requires l in lines && Wants(l) && HasUnit(s.items[l.id])
    ensures !CanDeliver(s, o, lines)
  {
    OwnSlot(s, l.id);
    var u := Slot(s.items[l.id], l.productType).value;
    assert u in Rows(s, l.productType) && Rows(s, l.productType)[u].orderItemId == Some(l.id);
  }

  /**
   After the approval alone the order is PAID, so it may be refunded. That leaves the inventory
   alone exactly when no item of the order is filled.
   */
  lemma RefundBetween(s: State, y: Id)
    requires Inv(s) && y in s.payments
    ensures UpdateStatus(Approve(s, y), s.payments[y].orderId, OrderStatus.Refunded).Some?
    ensures var o := s.payments[y].orderId;
      var s' := UpdateStatus(Approve(s, y), o, OrderStatus.Refunded).value;
      (s'.keys == s.keys && s'.accounts == s.accounts) <==> forall i | i in ItemsOf(s, o) :: !HasUnit(s.items[i])
  {
    hide SyncOrderSide, Numbers, Linked, Attached, AllOrNothing, StockAgrees, QuotaKept, Unique;
    var o := s.payments[y].orderId;
    var s1 := Approve(s, y);
    assert ItemsOf(s1, o) == ItemsOf(s, o);
    if i :| i in ItemsOf(s, o) && HasUnit(s.items[i]) {
      RefundFrees(s, y, i, if s.items[i].keyId.Some? then Key else Account);
    } else {
      assert Held(s1, o, Key) == {} && Held(s1, o, Account) == {};
      assert Freed(s.keys, {}) == s.keys && Freed(s.accounts, {}) == s.accounts;
      SyncKeepsRows(s1, Touched(s1, o));
    }
  }

  /** The unit of a filled item was delivered, and after such a refund it is on sale again. */
  lemma RefundFrees(s: State, y: Id, i: Id, t: ProductType)
    requires Inv(s) && y in s.payments && i in ItemsOf(s, s.payments[y].orderId) && Slot(s.items[i], t).Some?
    ensures var s' := UpdateStatus(Approve(s, y), s.payments[y].orderId, OrderStatus.Refunded).value;
      var u := Slot(s.items[i], t).value;
      && u in Rows(s, t) && Rows(s, t)[u].status.Delivered?
      && u in Rows(s', t) && Rows(s', t)[u].status.Available? && s'.items == s.items
  {
    hide SyncOrderSide, AllOrNothing, StockAgrees, QuotaKept, Numbers;
    var o := s.payments[y].orderId;
    assert i in ItemsOf(Approve(s, y), o);
    assert Slot(s.items[i], t).value in Held(Approve(s, y), o, t);
    SyncKeepsRows(
      Approve(s, y).(keys := Freed(s.keys, Held(Approve(s, y), o, Key)),
                     accounts := Freed(s.accounts, Held(Approve(s, y), o, Account))),
      Touched(Approve(s, y), o));
  }

  lemma SyncKeepsRows(s: State, ps: set<Id>)
    ensures var s' := SyncOrderSide(s, ps);
      s'.keys == s.keys && s'.accounts == s.accounts && s'.items == s.items && s'.orders == s.orders
  {
  }
}
