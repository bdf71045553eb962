/**
 The tables the shop keeps in its database, as values, and the mutable `Database`
 that the repositories share. Identifiers are drawn from a counter that never
 repeats, which is what the original relies on UUIDs for. Money is exact.
 */
module Store {
  type Id = nat

  datatype Option<+T> = None | Some(value: T)

  datatype ProductType = Key | Account

  datatype UnitStatus = Available | Reserved | Delivered | Archived

  datatype OrderStatus =
    | Pending | AwaitingPayment | Paid | Processing | Delivered | Cancelled | Refunded

  datatype PaymentStatus = Pending | Approved | Rejected | Refunded

  datatype PaymentMethod = Pix | CreditCard | DebitCard | Boleto | BankTransfer

  datatype CouponType = Percentage | Fixed

  datatype Product = Product(price: real, stock: int, isActive: bool, productType: ProductType)

  /** A row of the `Key` table or of the `Account` table; both have the same shape. */
  datatype Unit = Unit(productId: Id, status: UnitStatus, orderItemId: Option<Id>)

  datatype Item = Item(
    orderId: Id, productId: Id, quantity: int, price: real,
    keyId: Option<Id>, accountId: Option<Id>)

  datatype Order = Order(
    userId: Id, status: OrderStatus, subtotal: real, discountAmount: real, total: real,
    couponId: Option<Id>)

  datatype Payment = Payment(
    orderId: Id, amount: real, status: PaymentStatus, paymentMethod: PaymentMethod,
    providerTxId: Option<Id>, expiresAt: Option<nat>, idempotencyKey: Option<string>)

  datatype Coupon = Coupon(
    kind: CouponType, value: real, minPurchase: Option<real>, maxUses: Option<nat>,
    usedCount: nat, validFrom: Option<nat>, validTo: Option<nat>, isActive: bool)

  datatype State = State(
    products: map<Id, Product>,
    keys: map<Id, Unit>,
    accounts: map<Id, Unit>,
    orders: map<Id, Order>,
    items: map<Id, Item>,
    payments: map<Id, Payment>,
    coupons: map<Id, Coupon>,
    nextId: Id)

  const EMPTY_STATE := State(map[], map[], map[], map[], map[], map[], map[], 0)

  /** The inventory table a product of type `t` draws from. */
  function Rows(s: State, t: ProductType): map<Id, Unit> {
    if t.Account? then s.accounts else s.keys
  }

  function WithRows(s: State, t: ProductType, rows: map<Id, Unit>): State {
    if t.Account? then s.(accounts := rows) else s.(keys := rows)
  }

  /** The column of an order item that names its unit of type `t`. */
  function Slot(item: Item, t: ProductType): Option<Id> {
    if t.Account? then item.accountId else item.keyId
  }

  function WithSlot(item: Item, t: ProductType, u: Id): Item {
    if t.Account? then item.(accountId := Some(u)) else item.(keyId := Some(u))
  }

  predicate HasUnit(item: Item) {
    item.keyId.Some? || item.accountId.Some?
  }

  /** The AVAILABLE rows of product `p`. */
  function Avail(rows: map<Id, Unit>, p: Id): set<Id> {
    set u | u in rows && rows[u].productId == p && rows[u].status.Available?
  }

  /** What `Product.stock` caches: the AVAILABLE rows of the product's own table. */
  function StockOf(s: State, p: Id): nat
    requires p in s.products
  {
    |Avail(Rows(s, s.products[p].productType), p)|
  }

  /** The unique index on `orderItemId` already holds item `i`. */
  predicate Named(rows: map<Id, Unit>, i: Id) {
    exists u | u in rows :: rows[u].orderItemId == Some(i)
  }

  /** The mutable tables. Repositories hold a reference to one of these. */
  class Database {
    var products: map<Id, Product>
    var keys: map<Id, Unit>
    var accounts: map<Id, Unit>
    var orders: map<Id, Order>
    var items: map<Id, Item>
    var payments: map<Id, Payment>
    var coupons: map<Id, Coupon>
    var nextId: Id

    constructor ()
      ensures View() == EMPTY_STATE
    {
      products, keys, accounts := map[], map[], map[];
      orders, items, payments, coupons := map[], map[], map[], map[];
      nextId := 0;
    }

    function View(): State
      reads this
    {
      State(products, keys, accounts, orders, items, payments, coupons, nextId)
    }

    function Table(t: ProductType): (rows: map<Id, Unit>)
      reads this
      ensures rows == Rows(View(), t)
    {
      if t.Account? then accounts else keys
    }

    method SetTable(t: ProductType, rows: map<Id, Unit>)
      modifies this
      ensures View() == WithRows(old(View()), t, rows)
    {
      if t.Account? { accounts := rows; } else { keys := rows; }
    }

    /** What a failed transaction does: every table goes back to the state at its start. */
    method Rollback(saved: State)
      modifies this
      ensures View() == saved
    {
      products, keys, accounts := saved.products, saved.keys, saved.accounts;
      orders, items, payments := saved.orders, saved.items, saved.payments;
      coupons, nextId := saved.coupons, saved.nextId;
    }
  }
}
