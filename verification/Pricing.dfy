/**
 Order arithmetic: what a request costs, how it is flattened into one-unit items,
 and what a coupon takes off.
 */
module Pricing {
  import opened Store

  datatype Request = Request(productId: Id, quantity: nat)

  /** A coupon as validated before the order transaction starts. */
  datatype CouponData = CouponData(couponId: Id, discountAmount: real, maxUses: Option<nat>)

  predicate Known(products: map<Id, Product>, reqs: seq<Request>) {
    forall r | r in reqs :: r.productId in products
  }

  predicate Orderable(products: map<Id, Product>, reqs: seq<Request>) {
    Known(products, reqs) && forall r | r in reqs :: products[r.productId].isActive
  }

  function Asked(reqs: seq<Request>): set<Id> {
    set r | r in reqs :: r.productId
  }

  /** `price * quantity`, as the sum of `quantity` prices. */
  function Cost(price: real, quantity: nat): real {
    if quantity == 0 then 0.0 else Cost(price, quantity - 1) + price
  }

  lemma {:induction false} CostIsProduct(price: real, quantity: nat)
    ensures Cost(price, quantity) == price * (quantity as real)
  {
    if quantity > 0 {
      CostIsProduct(price, quantity - 1);
      var q := (quantity - 1) as real;
      assert quantity as real == q + 1.0;
      assert price * (q + 1.0) == price * q + price;
    }
  }

  /** Units of product `p` asked for by the whole request. */
  function Requested(reqs: seq<Request>, p: Id): nat {
    if reqs == [] then 0
    else Requested(reqs[..|reqs| - 1], p)
         + if reqs[|reqs| - 1].productId == p then reqs[|reqs| - 1].quantity else 0
  }

  function Subtotal(products: map<Id, Product>, reqs: seq<Request>): real
    requires Known(products, reqs)
  {
    if reqs == [] then 0.0
    else
      var r := reqs[|reqs| - 1];
      Subtotal(products, reqs[..|reqs| - 1]) + Cost(products[r.productId].price, r.quantity)
  }

  function Repeat(n: nat, it: Item): seq<Item> {
    seq(n, _ => it)
  }

  function UnitItem(products: map<Id, Product>, orderId: Id, p: Id): Item
    requires p in products
  {
    Item(orderId, p, 1, products[p].price, None, None)
  }

  /** One item of quantity 1 per unit asked for. */
  function Flat(products: map<Id, Product>, orderId: Id, reqs: seq<Request>): (flat: seq<Item>)
    requires Known(products, reqs)
  {
    if reqs == [] then []
    else
      var r := reqs[|reqs| - 1];
      Flat(products, orderId, reqs[..|reqs| - 1])
      + Repeat(r.quantity, UnitItem(products, orderId, r.productId))
  }

  function CountOf(items: seq<Item>, p: Id): nat {
    if items == [] then 0
    else CountOf(items[..|items| - 1], p) + if items[|items| - 1].productId == p then 1 else 0
  }

  /** The prices of one-unit items added up. */
  function SumOf(items: seq<Item>): real {
    if items == [] then 0.0
    else SumOf(items[..|items| - 1]) + items[|items| - 1].price
  }

  lemma {:induction false} AppendCount(items: seq<Item>, n: nat, it: Item, p: Id)
    ensures CountOf(items + Repeat(n, it), p)
         == CountOf(items, p) + if it.productId == p then n else 0
  {
    var all := items + Repeat(n, it);
    if n == 0 {
      assert all == items;
    } else {
      AppendCount(items, n - 1, it, p);
      assert all[..|all| - 1] == items + Repeat(n - 1, it);
    }
  }

  lemma {:induction false} AppendSum(items: seq<Item>, n: nat, it: Item)
    ensures SumOf(items + Repeat(n, it)) == SumOf(items) + Cost(it.price, n)
  {
    var all := items + Repeat(n, it);
    if n == 0 {
      assert all == items;
    } else {
      AppendSum(items, n - 1, it);
      assert all[..|all| - 1] == items + Repeat(n - 1, it);
      assert all[|all| - 1] == it;
    }
  }

  /** Flattening keeps the number of units of every product. */
  lemma {:induction false} FlatCounts(products: map<Id, Product>, orderId: Id, reqs: seq<Request>, p: Id)
    requires Known(products, reqs)
    ensures CountOf(Flat(products, orderId, reqs), p) == Requested(reqs, p)
  {
    if reqs != [] {
      var r, front := reqs[|reqs| - 1], reqs[..|reqs| - 1];
      var f, it := Flat(products, orderId, front), UnitItem(products, orderId, r.productId);
      FlatCounts(products, orderId, front, p);
      AppendCount(f, r.quantity, it, p);
      assert Flat(products, orderId, reqs) == f + Repeat(r.quantity, it);
    }
  }

  /** Flattening keeps the price of the whole order. */
  lemma {:induction false} FlatSums(products: map<Id, Product>, orderId: Id, reqs: seq<Request>)
    requires Known(products, reqs)
    ensures SumOf(Flat(products, orderId, reqs)) == Subtotal(products, reqs)
  {
    if reqs != [] {
      var r, front := reqs[|reqs| - 1], reqs[..|reqs| - 1];
      var f, it := Flat(products, orderId, front), UnitItem(products, orderId, r.productId);
      FlatSums(products, orderId, front);
      AppendSum(f, r.quantity, it);
      assert Flat(products, orderId, reqs) == f + Repeat(r.quantity, it);
    }
  }

  lemma {:induction false} FlatShape(products: map<Id, Product>, orderId: Id, reqs: seq<Request>)
    requires Known(products, reqs)
    ensures forall it | it in Flat(products, orderId, reqs) ::
              && it.orderId == orderId && it.quantity == 1 && !HasUnit(it)
              && it.productId in Asked(reqs)
  {
    if reqs != [] {
      FlatShape(products, orderId, reqs[..|reqs| - 1]);
    }
  }

  lemma {:induction false} RequestedZero(reqs: seq<Request>, p: Id)
    requires p !in Asked(reqs)
    ensures Requested(reqs, p) == 0
  {
    if reqs != [] {
      assert reqs[|reqs| - 1] in reqs;
      assert forall r | r in reqs[..|reqs| - 1] :: r in reqs;
      RequestedZero(reqs[..|reqs| - 1], p);
    }
  }

  /** A request whose prices are not negative does not cost less than nothing. */
  lemma {:induction false} SubtotalNotNegative(products: map<Id, Product>, reqs: seq<Request>)
    requires Known(products, reqs)
    requires forall p | p in Asked(reqs) :: products[p].price >= 0.0
    ensures Subtotal(products, reqs) >= 0.0
  {
    if reqs != [] {
      var r := reqs[|reqs| - 1];
      assert r in reqs && forall x | x in reqs[..|reqs| - 1] :: x in reqs;
      SubtotalNotNegative(products, reqs[..|reqs| - 1]);
      CostIsProduct(products[r.productId].price, r.quantity);
    }
  }

  // ---- coupons ----

  predicate UsesLeft(c: Coupon) {
    c.maxUses.Some? ==> c.usedCount < c.maxUses.value
  }

  predicate ValidForUse(c: Coupon, subtotal: real, now: nat) {
    && c.isActive
    && (c.validFrom.Some? ==> c.validFrom.value <= now)
    && (c.validTo.Some? ==> now <= c.validTo.value)
    && UsesLeft(c)
    && (c.minPurchase.Some? ==> subtotal >= c.minPurchase.value)
  }

  function Discount(c: Coupon, subtotal: real): real {
    var amount := if c.kind.Percentage? then subtotal * (c.value / 100.0) else c.value;
    if amount > subtotal then subtotal else amount
  }

  /**
   For a subtotal that is not negative the total never drops below zero, whatever the
   coupon; it stays at or below the subtotal exactly when the coupon's value is not
   negative, or it is a percentage of nothing.
   */
  lemma DiscountBounds(c: Coupon, subtotal: real)
    requires subtotal >= 0.0
    ensures 0.0 <= subtotal - Discount(c, subtotal)
    ensures subtotal - Discount(c, subtotal) <= subtotal
       <==> c.value >= 0.0 || (c.kind.Percentage? && subtotal == 0.0)
  {
    if c.kind.Percentage? {
      var rate := c.value / 100.0;
      if rate >= 0.0 {
        assert subtotal * rate >= 0.0;
      } else if subtotal > 0.0 {
        assert subtotal * rate < 0.0;
      }
    }
  }

  /** A coupon is accepted exactly while it is active, in its dates, in its limit and on its minimum. */
  lemma AcceptedExactly(c: Coupon, subtotal: real, now: nat)
    ensures ValidForUse(c, subtotal, now) <==>
      && c.isActive
      && (c.validFrom == None || c.validFrom.value <= now) && (c.validTo == None || now <= c.validTo.value)
      && (c.maxUses == None || c.usedCount + 1 <= c.maxUses.value)
      && (c.minPurchase == None || c.minPurchase.value <= subtotal)
  {
  }

  /** Fixed coupons take off their value, percentages their hundredth parts, and never more than there is. */
  lemma DiscountExactly(c: Coupon, subtotal: real)
    ensures c.kind.Fixed? ==> Discount(c, subtotal) == if c.value <= subtotal then c.value else subtotal
    ensures c.kind.Percentage? && subtotal * c.value <= 100.0 * subtotal ==>
      100.0 * Discount(c, subtotal) == subtotal * c.value
    ensures c.kind.Percentage? && subtotal * c.value > 100.0 * subtotal ==> Discount(c, subtotal) == subtotal
  {
    var rate := c.value / 100.0;
    var amount := subtotal * rate;
    assert c.value == 100.0 * rate;
    HundredTimes(subtotal, rate);
    assert 100.0 * amount == subtotal * c.value;
    if c.kind.Percentage? && subtotal * c.value > 100.0 * subtotal {
      assert 100.0 * amount > 100.0 * subtotal;
      assert amount > subtotal;
      assert Discount(c, subtotal) == if amount > subtotal then subtotal else amount;
    }
  }

  lemma HundredTimes(x: real, rate: real)
    ensures x * (100.0 * rate) == 100.0 * (x * rate)
  {
  }

  /** One hundred percent makes the total zero, and below that discounts add up in the value. */
  lemma DiscountsAdd(c: Coupon, a: real, b: real, subtotal: real)
    requires subtotal >= 0.0 && c.kind.Percentage? && 0.0 <= a && 0.0 <= b && a + b <= 100.0
    ensures Discount(c.(value := a + b), subtotal)
         == Discount(c.(value := a), subtotal) + Discount(c.(value := b), subtotal)
    ensures Discount(c.(value := 100.0), subtotal) == subtotal
  {
    MoreIsMore(subtotal, a, 100.0);
    MoreIsMore(subtotal, b, 100.0);
    MoreIsMore(subtotal, a + b, 100.0);
    DiscountExactly(c.(value := a), subtotal);
    DiscountExactly(c.(value := b), subtotal);
    DiscountExactly(c.(value := a + b), subtotal);
    DiscountExactly(c.(value := 100.0), subtotal);
    assert subtotal * (a + b) == subtotal * a + subtotal * b;
  }

  lemma MoreIsMore(x: real, a: real, b: real)
    requires x >= 0.0 && a <= b
    ensures x * a <= x * b
  {
  }

  // ---- the loops that compute these ----

  /** `requestedByProduct`: a map filled while walking the request. */
  method GroupByProduct(reqs: seq<Request>) returns (requested: map<Id, nat>)
    ensures requested.Keys == Asked(reqs)
    ensures forall p | p in requested :: requested[p] == Requested(reqs, p)
  {
    requested := map[];
    for n := 0 to |reqs|
      invariant requested.Keys == Asked(reqs[..n])
      invariant forall p | p in requested :: requested[p] == Requested(reqs[..n], p)
    {
      var r := reqs[n];
      assert reqs[..n + 1][..n] == reqs[..n];
      if r.productId !in requested {
        RequestedZero(reqs[..n], r.productId);
      }
      assert Asked(reqs[..n + 1]) == Asked(reqs[..n]) + {r.productId};
      requested := requested[r.productId :=
        (if r.productId in requested then requested[r.productId] else 0) + r.quantity];
    }
    assert reqs[..|reqs|] == reqs;
  }

  /** The price loop shared by the service and the repository; fails on a missing or inactive product. */
  method CalculateSubtotal(products: map<Id, Product>, reqs: seq<Request>) returns (r: Option<real>)
    ensures r.Some? <==> Orderable(products, reqs)
    ensures r.Some? ==> r.value == Subtotal(products, reqs)
  {
    var subtotal := 0.0;
    for n := 0 to |reqs|
      invariant Orderable(products, reqs[..n])
      invariant subtotal == Subtotal(products, reqs[..n])
    {
      var p := reqs[n].productId;
      if p !in products || !products[p].isActive {
        return None;
      }
      assert reqs[..n + 1][..n] == reqs[..n];
      assert reqs[..n + 1] == reqs[..n] + [reqs[n]];
      CostIsProduct(products[p].price, reqs[n].quantity);
      subtotal := subtotal + products[p].price * (reqs[n].quantity as real);
    }
    assert reqs[..|reqs|] == reqs;
    return Some(subtotal);
  }

  /** `items.flatMap(...)` as the loop it performs. */
  method FlattenItems(products: map<Id, Product>, orderId: Id, reqs: seq<Request>) returns (flat: seq<Item>)
    requires Known(products, reqs)
    ensures flat == Flat(products, orderId, reqs)
  {
    flat := [];
    for n := 0 to |reqs|
      invariant flat == Flat(products, orderId, reqs[..n])
    {
      var r := reqs[n];
      assert reqs[..n + 1][..n] == reqs[..n];
      flat := flat
        + Repeat(r.quantity, UnitItem(products, orderId, r.productId));
    }
    assert reqs[..|reqs|] == reqs;
  }

  /** Coupon check and discount, before anything is written. `None` is the thrown refusal. */
  method ValidateAndCalculate(coupons: map<Id, Coupon>, code: Id, subtotal: real, now: nat)
    returns (r: Option<CouponData>)
    ensures r.Some? <==> code in coupons && ValidForUse(coupons[code], subtotal, now)
    ensures r.Some? ==>
      r.value == CouponData(code, Discount(coupons[code], subtotal), coupons[code].maxUses)
  {
    if code !in coupons {
      return None;
    }
    var c := coupons[code];
    if !c.isActive
       || (c.validFrom.Some? && c.validFrom.value > now)
       || (c.validTo.Some? && c.validTo.value < now)
       || (c.maxUses.Some? && c.usedCount >= c.maxUses.value)
       || (c.minPurchase.Some? && subtotal < c.minPurchase.value)
    {
      return None;
    }
    var amount;
    if c.kind.Percentage? {
      amount := subtotal * (c.value / 100.0);
    } else {
      amount := c.value;
    }
    if amount > subtotal {
      amount := subtotal;
    }
    return Some(CouponData(code, amount, c.maxUses));
  }
}
