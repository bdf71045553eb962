/**
 One run, from the empty shop, in which two callers pay the same payment back and a late receipt
 then approves it again; and what a refund between approval and delivery does from there.
 */
module RefundRun {
  import opened Store
  import opened Pricing
  import opened Fulfilment
  import opened Invariants
  import opened Runs
  import opened OrderTotals
  import Refunds
  import SplitApproval

  const PLACED := Order(0, OrderStatus.Pending, 100.0, 0.0, 100.0, None)
  const EMPTY_ITEM := Item(2, 0, 1, 100.0, None, None)
  const REQUEST := PayRequest(2, 0, 100.0, Pix, None, 0, 0, 77)
  const CHARGED := Payment(2, 100.0, PaymentStatus.Pending, Pix, Some(77), Some(FIFTEEN_MINUTES), None)
  const RECEIPT := Event(PaymentReceived, Some(77), Missing, false)

  const BOUGHT := ON_SALE.(orders := map[2 := PLACED], items := map[3 := EMPTY_ITEM], nextId := 4)
  const PAYABLE := BOUGHT.(payments := map[4 := CHARGED], nextId := 5)

  /** Paid and delivered: item 3 has key 1. */
  const SERVED := PAYABLE.(
    products := map[0 := KEY_AT_100.(stock := 0, isActive := false)],
    keys := map[1 := Unit(0, UnitStatus.Delivered, Some(3))],
    orders := map[2 := PLACED.(status := OrderStatus.Delivered)],
    items := map[3 := EMPTY_ITEM.(keyId := Some(1))],
    payments := map[4 := CHARGED.(status := PaymentStatus.Approved)])

  const PAID_BACK := SERVED.(payments := map[4 := CHARGED.(status := PaymentStatus.Refunded)])

  lemma BoughtItem()
    ensures Flat(ON_SALE.products, 2, ONE_KEY) == [EMPTY_ITEM]
    ensures Numbered(3, [EMPTY_ITEM]) == map[3 := EMPTY_ITEM]
  {
    assert ONE_KEY[..0] == [] && [EMPTY_ITEM][..0] == [];
    assert UnitItem(ON_SALE.products, 2, 0) == EMPTY_ITEM;
    assert Repeat(1, EMPTY_ITEM) == [EMPTY_ITEM];
    assert Flat(ON_SALE.products, 2, []) == [];
  }

  lemma BoughtRows()
    ensures OrderRows(ON_SALE, 0, ONE_KEY, None) == BOUGHT
  {
    BoughtItem();
    assert ONE_KEY[..0] == [];
    CostIsProduct(100.0, 1);
    assert Subtotal(ON_SALE.products, ONE_KEY) == 100.0;
    assert NewOrder(ON_SALE, 0, ONE_KEY, None) == PLACED;
    assert OrderRows(ON_SALE, 0, ONE_KEY, None).items == BOUGHT.items;
    assert OrderRows(ON_SALE, 0, ONE_KEY, None).orders == BOUGHT.orders;
  }

  lemma Bought()
    ensures PlaceOrder(ON_SALE, 0, ONE_KEY, None) == Some(BOUGHT)
  {
    BoughtRows();
    assert ONE_KEY[..0] == [];
    assert Requested(ONE_KEY, 0) == 1;
    OnlyRow(BOUGHT);
    assert Rows(BOUGHT, Key) == BOUGHT.keys;
    assert Asked(ONE_KEY) == {0};
    assert SyncOrderSide(BOUGHT, {0}).products == BOUGHT.products;
  }

  lemma Requested100()
    ensures Pays(BOUGHT, REQUEST, PayResult(PAYABLE, Stored(4), true))
  {
    assert FirstPix(BOUGHT, REQUEST).state.payments == PAYABLE.payments;
  }

  // ---- the first receipt ----

  const WANTING := Line(3, 0, 1, Key, false, false)
  const FILLED := Line(3, 0, 1, Key, true, false)

  lemma OneItem(s: State, l: Line)
    requires s.items.Keys == {3} && s.items[3].orderId == 2 && l.id == 3 && l == LineOf(s, 3)
    ensures IsSnapshot(s, 2, [l])
  {
    assert Ids([l]) == {3} && ItemsOf(s, 2) == {3};
  }

  lemma DemandOfOne(l: Line, t: ProductType, p: Id)
    ensures Demand([l], t, p) == if Wants(l) && l.productType == t && l.productId == p then 1 else 0
  {
    assert [l][..0] == [];
  }

  lemma ApprovedUnserved()
    ensures var s1 := Approve(PAYABLE, 4);
      IsSnapshot(s1, 2, [WANTING]) && CanDeliver(s1, 2, [WANTING])
  {
    var s1 := Approve(PAYABLE, 4);
    OneItem(s1, WANTING);
    OnlyRow(s1);
    assert Rows(s1, Key) == s1.keys;
    forall t, p
      ensures Demand([WANTING], t, p) <= |Avail(Rows(s1, t), p)|
    {
      DemandOfOne(WANTING, t, p);
    }
  }

  lemma FirstAllocated()
    ensures Allocated(Approve(PAYABLE, 4), SERVED, [WANTING])
  {
    var s1 := Approve(PAYABLE, 4);
    assert Rows(s1, Key) == s1.keys && Rows(SERVED, Key) == SERVED.keys;
    assert Served([WANTING]) == {3};
    assert WANTING in [WANTING] && Took(SERVED, WANTING, Key, 1);
    assert Gets(s1, SERVED, WANTING);
  }

  lemma FirstCommitted()
    ensures Committed(Approve(PAYABLE, 4), SERVED, 2, [WANTING])
  {
    FirstAllocated();
    var s1 := Approve(PAYABLE, 4);
    var moved := s1.(keys := SERVED.keys, accounts := SERVED.accounts, items := SERVED.items);
    assert ServedProducts([WANTING]) == {0};
    assert Avail(SERVED.keys, 0) == {};
    assert Rows(moved, Key) == SERVED.keys;
    assert SyncOrderSide(moved, {0}).products == SERVED.products;
    assert SetStatus(SyncOrderSide(moved, {0}), 2, OrderStatus.Delivered).orders == SERVED.orders;
    assert s1.payments == SERVED.payments;
  }

  lemma FirstReceipt()
    ensures Handles(PAYABLE, SERVED, RECEIPT, DONE)
  {
    ApprovedUnserved();
    FirstCommitted();
    hide CanDeliver, Committed, IsSnapshot;
    assert DeliversOrParks(Approve(PAYABLE, 4), SERVED, 2);
    hide DeliversOrParks;
    assert Receives(PAYABLE, SERVED, 4, Missing, true);
    assert ByTx(PAYABLE, 77, 4);
  }

  // ---- the late receipt ----

  lemma LateCommitted()
    ensures var s1 := Approve(PAID_BACK, 4);
      IsSnapshot(s1, 2, [FILLED]) && CanDeliver(s1, 2, [FILLED]) && Committed(s1, SERVED, 2, [FILLED])
  {
    var s1 := Approve(PAID_BACK, 4);
    OneItem(s1, FILLED);
    forall t, p
      ensures Demand([FILLED], t, p) == 0
    {
      DemandOfOne(FILLED, t, p);
    }
    assert ServedProducts([FILLED]) == {} && Served([FILLED]) == {};
    assert SyncOrderSide(SERVED, {}).products == SERVED.products;
    assert s1.payments == SERVED.payments;
    assert SetStatus(s1, 2, OrderStatus.Delivered).orders == SERVED.orders;
  }

  lemma LateReceipt()
    ensures Handles(PAID_BACK, SERVED, RECEIPT, DONE)
  {
    LateCommitted();
    hide CanDeliver, Committed, IsSnapshot;
    assert DeliversOrParks(Approve(PAID_BACK, 4), SERVED, 2);
    hide DeliversOrParks;
    assert Receives(PAID_BACK, SERVED, 4, Missing, true);
    assert ByTx(PAID_BACK, 77, 4);
  }

  // ---- the run ----

  const CALLS := [
    NewProduct(Key, 100.0, 0, false), ImportRows(Key, 0, 1), EditProduct(0, 100.0, None, Some(true)),
    Buy(0, ONE_KEY), Pay(REQUEST), Webhook(RECEIPT), BeginRefund(6, 4), BeginRefund(7, 4),
    FinishRefund(6, true), FinishRefund(7, true), Webhook(RECEIPT)]

  const BOTH_READ := OPENING.(db := SERVED, refunding := map[6 := 4, 7 := 4])
  const ONE_LEFT := OPENING.(db := PAID_BACK, refunding := map[7 := 4])

  function Steps(): seq<World> {
    [OPENING, OPENING.(db := CREATED), OPENING.(db := STOCKED), OPENING.(db := ON_SALE),
     OPENING.(db := BOUGHT), OPENING.(db := PAYABLE), OPENING.(db := SERVED),
     OPENING.(db := SERVED, refunding := map[6 := 4]), BOTH_READ, ONE_LEFT,
     OPENING.(db := PAID_BACK), OPENING.(db := SERVED)]
  }

  lemma Stocking()
    ensures Next(OPENING, OPENING.(db := CREATED), CALLS[0])
    ensures Next(OPENING.(db := CREATED), OPENING.(db := STOCKED), CALLS[1])
  {
    OneKeyStocked();
    hide CreateProduct, Import;
  }

  lemma Selling()
    ensures Next(OPENING.(db := STOCKED), OPENING.(db := ON_SALE), CALLS[2])
    ensures Next(OPENING.(db := ON_SALE), OPENING.(db := BOUGHT), CALLS[3])
  {
    PutOnSale();
    Bought();
    hide UpdateProduct, PlaceOrder;
  }

  lemma Asking()
    ensures Next(OPENING.(db := BOUGHT), OPENING.(db := PAYABLE), CALLS[4])
  {
    Requested100();
    hide Pays;
    assert PayResult(PAYABLE, Stored(4), true).state == PAYABLE;
  }

  lemma Paying()
    ensures Next(OPENING.(db := PAYABLE), OPENING.(db := SERVED), CALLS[5])
    ensures Next(OPENING.(db := PAID_BACK), OPENING.(db := SERVED), CALLS[10])
  {
    FirstReceipt();
    LateReceipt();
    hide Handles;
  }

  lemma Reading()
    ensures Next(OPENING.(db := SERVED), OPENING.(db := SERVED, refunding := map[6 := 4]), CALLS[6])
    ensures Next(OPENING.(db := SERVED, refunding := map[6 := 4]), BOTH_READ, CALLS[7])
  {
    assert Refundable(SERVED, 4);
    hide Refundable;
  }

  lemma PayingBack()
    ensures Next(BOTH_READ, ONE_LEFT, CALLS[8])
  {
    WrittenTwice();
    hide WriteRefund;
    assert BOTH_READ.refunding - {6} == ONE_LEFT.refunding;
  }

  lemma PayingBackAgain()
    ensures Next(ONE_LEFT, OPENING.(db := PAID_BACK), CALLS[9])
  {
    WrittenTwice();
    hide WriteRefund;
    assert ONE_LEFT.refunding - {7} == map[];
  }

  lemma WrittenTwice()
    ensures WriteRefund(SERVED, 4) == PAID_BACK && WriteRefund(PAID_BACK, 4) == PAID_BACK
  {
    assert WriteRefund(SERVED, 4).payments == PAID_BACK.payments;
    assert WriteRefund(PAID_BACK, 4).payments == PAID_BACK.payments;
  }

  lemma ItIsARun()
    ensures IsRun(Steps(), CALLS)
  {
    Stocking();
    Selling();
    Asking();
    Paying();
    Reading();
    PayingBack();
    PayingBackAgain();
    hide Next;
    forall k | 0 <= k < |CALLS|
      ensures StepAt(Steps(), CALLS, k)
    {
    }
  }

  /**
   Payment 4 is paid back at two steps, by callers that overlap; and the late receipt, in a state
   where the payment is REFUNDED and the order DELIVERED, approves it again.
   */
  lemma RefundedTwiceAndRevived() returns (ws: seq<World>)
    ensures IsRun(ws, CALLS)
    ensures Refunds.PaysBack(ws, CALLS, 8, 4) && Refunds.PaysBack(ws, CALLS, 9, 4)
    ensures ws[10].db == PAID_BACK && Refunds.Revives(PAID_BACK, CALLS[10], 4)
    ensures ws[11].db == SERVED && SERVED.payments[4].status.Approved?
  {
    ItIsARun();
    ws := Steps();
    hide IsRun;
  }

  lemma ReachedInv()
    ensures Inv(PAID_BACK)
  {
    ItIsARun();
    RunInv(Steps(), CALLS, 10);
    hide IsRun, Inv;
  }

  /**
   In the state that the late receipt finds, its approval alone followed by a refund puts the
   delivered key on sale again, while the item still names it.
   */
  lemma SoldKeyFreed()
    ensures Inv(PAID_BACK) && !PAID_BACK.payments[4].status.Approved? && !PAID_BACK.orders[2].status.Paid?
    ensures PAID_BACK.items[3].keyId == Some(1) && PAID_BACK.keys[1].status.Delivered?
    ensures UpdateStatus(Approve(PAID_BACK, 4), 2, OrderStatus.Refunded).Some?
    ensures var s' := UpdateStatus(Approve(PAID_BACK, 4), 2, OrderStatus.Refunded).value;
      && 1 in s'.keys && s'.keys[1].status.Available?
      && 3 in s'.items && s'.items[3].keyId == Some(1)
  {
    ReachedInv();
    hide Inv, UpdateStatus;
    SplitApproval.RefundBetween(PAID_BACK, 4);
    SplitApproval.RefundFrees(PAID_BACK, 4, 3, Key);
  }
}
