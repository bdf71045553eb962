/**
 What each operation on orders, inventory, products and payments does to the tables.
 `None` stands for a thrown error, which leaves the tables as they were.
 */
module Fulfilment {
  import opened Store
  import opened Pricing

  // ---- the stock cache ----

  /** Order-side sync: rewrites the cache and may switch a product off, never on. */
  function Synced(s: State, p: Id): Product
    requires p in s.products
  {
    s.products[p].(stock := StockOf(s, p), isActive := StockOf(s, p) > 0 && s.products[p].isActive)
  }

  function SyncOrderSide(s: State, ps: set<Id>): State {
    s.(products := map p | p in s.products :: if p in ps then Synced(s, p) else s.products[p])
  }

  /** Inventory-side sync: rewrites the cache of one product from table `t`, and nothing else. */
  function SyncUnitSide(s: State, t: ProductType, p: Id): State
    requires p in s.products
  {
    s.(products := s.products[p := s.products[p].(stock := |Avail(Rows(s, t), p)|)])
  }

  // ---- products ----

  function AnyAvailable(s: State, t: ProductType): bool {
    exists u | u in Rows(s, t) :: Rows(s, t)[u].status.Available?
  }

  function CreateProduct(s: State, t: ProductType, price: real, stock: int, isActive: bool): Option<State> {
    if isActive && !AnyAvailable(s, t) then None
    else Some(s.(products := s.products[s.nextId := Product(price, stock, isActive, t)],
                 nextId := s.nextId + 1))
  }

  predicate HasRows(s: State, t: ProductType, p: Id) {
    exists u | u in Rows(s, t) :: Rows(s, t)[u].productId == p
  }

  /** Update with the product type left alone. */
  function UpdateProduct(
    s: State, p: Id, price: real, stock: Option<int>, isActive: Option<bool>): Option<State>
  {
    if p !in s.products then None
    else
      var old' := s.products[p];
      var active := if isActive.Some? then isActive.value else old'.isActive;
      var fromAccounts := old'.productType.Account? || (HasRows(s, Account, p) && !HasRows(s, Key, p));
      var derived := |Avail(Rows(s, if fromAccounts then Account else Key), p)|;
      var manual := if stock.Some? then stock.value else old'.stock;
      if active && StockOf(s, p) <= 0 then None
      else Some(s.(products := s.products[p := Product(
        price, if HasRows(s, Key, p) || HasRows(s, Account, p) then derived else manual,
        active, old'.productType)]))
  }

  function RowsWithout(rows: map<Id, Unit>, p: Id): map<Id, Unit> {
    map u | u in rows && rows[u].productId != p :: rows[u]
  }

  /** Refused while an order item names the product; the inventory rows go with it. */
  function DeleteProduct(s: State, p: Id): Option<State> {
    if p !in s.products || exists i | i in s.items :: s.items[i].productId == p then None
    else Some(s.(products := s.products - {p},
                 keys := RowsWithout(s.keys, p), accounts := RowsWithout(s.accounts, p)))
  }

  // ---- inventory ----

  /** `n` new AVAILABLE rows, numbered from the counter. */
  function NewRows(first: Id, p: Id, n: nat): (rows: map<Id, Unit>)
    ensures forall u :: u in rows <==> first <= u < first + n
    ensures forall u | u in rows :: rows[u] == Unit(p, Available, None)
  {
    if n == 0 then map[] else NewRows(first, p, n - 1)[first + n - 1 := Unit(p, Available, None)]
  }

  function Inserted(s: State, t: ProductType, p: Id, n: nat): State {
    WithRows(s, t, Rows(s, t) + NewRows(s.nextId, p, n)).(nextId := s.nextId + n)
  }

  /** An import that stored `n` rows: the rows, then the stock sync. */
  function Import(s: State, t: ProductType, p: Id, n: nat): State
    requires p in s.products
  {
    SyncUnitSide(Inserted(s, t, p, n), t, p)
  }

  function DeleteUnit(s: State, t: ProductType, u: Id): Option<State> {
    if u !in Rows(s, t) || !Rows(s, t)[u].status.Available? || Rows(s, t)[u].productId !in s.products then None
    else Some(SyncUnitSide(WithRows(s, t, Rows(s, t) - {u}), t, Rows(s, t)[u].productId))
  }

  /** `reserveKey`: only an AVAILABLE key, and `orderItemId` is unique in the table. */
  function ReserveKey(s: State, u: Id, itemId: Id): Option<State> {
    if u !in s.keys || !s.keys[u].status.Available? || Named(s.keys, itemId)
       || s.keys[u].productId !in s.products
    then None
    else Some(SyncUnitSide(
      s.(keys := s.keys[u := s.keys[u].(status := UnitStatus.Reserved, orderItemId := Some(itemId))]),
      Key, s.keys[u].productId))
  }

  /** `deliverKey` and `deliverAccount` of the inventory repositories. */
  function MarkDelivered(s: State, t: ProductType, u: Id): Option<State> {
    if u !in Rows(s, t) || Rows(s, t)[u].productId !in s.products then None
    else
      var row := Rows(s, t)[u];
      Some(SyncUnitSide(
        WithRows(s, t, Rows(s, t)[u := row.(status := UnitStatus.Delivered)]), t, row.productId))
  }

  // ---- orders ----

  predicate EnoughStock(s: State, reqs: seq<Request>) {
    forall p | p in Asked(reqs) :: p in s.products && s.products[p].stock >= Requested(reqs, p)
  }

  predicate CouponFree(s: State, c: CouponData) {
    && c.couponId in s.coupons
    && (c.maxUses.Some? ==> s.coupons[c.couponId].usedCount < c.maxUses.value)
  }

  /** The coupon check that precedes an order transaction: it prices the cart from its own read. */
  predicate Checks(s: State, reqs: seq<Request>, code: Id, now: nat) {
    && Orderable(s.products, reqs)
    && code in s.coupons && ValidForUse(s.coupons[code], Subtotal(s.products, reqs), now)
  }

  function CheckedData(s: State, reqs: seq<Request>, code: Id): CouponData
    requires Known(s.products, reqs) && code in s.coupons
  {
    CouponData(code, Discount(s.coupons[code], Subtotal(s.products, reqs)), s.coupons[code].maxUses)
  }

  function NewOrder(s: State, userId: Id, reqs: seq<Request>, coupon: Option<CouponData>): Order
    requires Known(s.products, reqs)
  {
    var subtotal := Subtotal(s.products, reqs);
    var discount := if coupon.Some? then coupon.value.discountAmount else 0.0;
    Order(userId, OrderStatus.Pending, subtotal, discount, subtotal - discount,
          if coupon.Some? then Some(coupon.value.couponId) else None)
  }

  function Numbered(first: Id, flat: seq<Item>): (rows: map<Id, Item>)
    ensures forall i :: i in rows <==> first <= i < first + |flat|
    ensures forall i | i in rows :: rows[i] == flat[i - first]
  {
    if flat == [] then map[]
    else Numbered(first, flat[..|flat| - 1])[first + |flat| - 1 := flat[|flat| - 1]]
  }

  /** Order row and item rows, before the stock sync and the coupon count. */
  function OrderRows(s: State, userId: Id, reqs: seq<Request>, coupon: Option<CouponData>): State
    requires Known(s.products, reqs)
  {
    s.(orders := s.orders[s.nextId := NewOrder(s, userId, reqs, coupon)],
       items := s.items + Numbered(s.nextId + 1, Flat(s.products, s.nextId, reqs)),
       nextId := s.nextId + 1 + |Flat(s.products, s.nextId, reqs)|)
  }

  function CountUse(s: State, c: Id): State
    requires c in s.coupons
  {
    s.(coupons := s.coupons[c := s.coupons[c].(usedCount := s.coupons[c].usedCount + 1)])
  }

  /** The order transaction: order, items, stock sync and coupon count, or nothing at all. */
  function PlaceOrder(
    s: State, userId: Id, reqs: seq<Request>, coupon: Option<CouponData>): Option<State>
  {
    if !Orderable(s.products, reqs) || !EnoughStock(s, reqs)
       || (coupon.Some? && !CouponFree(s, coupon.value))
    then None
    else
      var placed := SyncOrderSide(OrderRows(s, userId, reqs, coupon), Asked(reqs));
      Some(if coupon.Some? then CountUse(placed, coupon.value.couponId) else placed)
  }

  predicate Allowed(a: OrderStatus, b: OrderStatus) {
    match a
    case Pending => b.AwaitingPayment? || b.Cancelled?
    case AwaitingPayment => b.Paid? || b.Cancelled?
    case Paid => b.Processing? || b.Delivered? || b.Refunded?
    case Processing => b.Delivered? || b.Cancelled?
    case Delivered => false
    case Cancelled => false
    case Refunded => false
  }

  function ItemsOf(s: State, o: Id): set<Id> {
    set i | i in s.items && s.items[i].orderId == o
  }

  /** Units of type `t` that the items of order `o` name. */
  function Held(s: State, o: Id, t: ProductType): set<Id> {
    set i | i in ItemsOf(s, o) && Slot(s.items[i], t).Some? :: Slot(s.items[i], t).value
  }

  function Touched(s: State, o: Id): set<Id> {
    set i | i in ItemsOf(s, o) && HasUnit(s.items[i]) :: s.items[i].productId
  }

  function Freed(rows: map<Id, Unit>, us: set<Id>): map<Id, Unit> {
    map u | u in rows :: if u in us then rows[u].(status := Available, orderItemId := None) else rows[u]
  }

  /** The release branch of a cancellation or refund. */
  function Release(s: State, o: Id): State {
    SyncOrderSide(
      s.(keys := Freed(s.keys, Held(s, o, Key)), accounts := Freed(s.accounts, Held(s, o, Account))),
      Touched(s, o))
  }

  function SetStatus(s: State, o: Id, status: OrderStatus): State
    requires o in s.orders
  {
    s.(orders := s.orders[o := s.orders[o].(status := status)])
  }

  function UpdateStatus(s: State, o: Id, status: OrderStatus): Option<State> {
    if o !in s.orders || !Allowed(s.orders[o].status, status) then None
    else Some(SetStatus(if status.Cancelled? || status.Refunded? then Release(s, o) else s, o, status))
  }

  // ---- delivery ----

  /** An order item as read before the delivery transaction. */
  datatype Line = Line(
    id: Id, productId: Id, quantity: int, productType: ProductType, hasKey: bool, hasAccount: bool)

  function LineOf(s: State, i: Id): Line
    requires i in s.items
  {
    var item := s.items[i];
    Line(i, item.productId, item.quantity,
         if item.productId in s.products then s.products[item.productId].productType else Key,
         item.keyId.Some?, item.accountId.Some?)
  }

  predicate DistinctIds(lines: seq<Line>) {
    forall a, b | 0 <= a < b < |lines| :: lines[a].id != lines[b].id
  }

  function Ids(lines: seq<Line>): set<Id> {
    set l | l in lines :: l.id
  }

  /** `lines` is the item list of order `o`, in some order, as of state `s`. */
  predicate IsSnapshot(s: State, o: Id, lines: seq<Line>) {
    && DistinctIds(lines)
    && Ids(lines) == ItemsOf(s, o)
    && forall l | l in lines :: l.id in s.items && l == LineOf(s, l.id)
  }

  /** The snapshot shows no unit of the line's own type yet. */
  predicate Wants(l: Line) {
    if l.productType.Account? then !l.hasAccount else !l.hasKey
  }

  function Served(lines: seq<Line>): set<Id> {
    set l | l in lines && Wants(l) :: l.id
  }

  function ServedProducts(lines: seq<Line>): set<Id> {
    set l | l in lines && Wants(l) :: l.productId
  }

  /** Units of product `p` from table `t` that the lines still need. */
  function Demand(lines: seq<Line>, t: ProductType, p: Id): nat {
    if lines == [] then 0
    else
      var l := lines[|lines| - 1];
      Demand(lines[..|lines| - 1], t, p)
      + if Wants(l) && l.productType == t && l.productId == p then 1 else 0
  }

  /** Exactly when the delivery transaction commits. */
  ghost predicate CanDeliver(s: State, o: Id, lines: seq<Line>) {
    && o in s.orders && s.orders[o].status.Paid?
    && (forall l | l in lines :: l.quantity == 1)
    && (forall l | l in lines && Wants(l) :: !Named(Rows(s, l.productType), l.id))
    && (forall t, p :: Demand(lines, t, p) <= |Avail(Rows(s, t), p)|)
  }

  /** Line `l` took an AVAILABLE unit of its own product, which now names the item. */
  ghost predicate Gets(s: State, s': State, l: Line) {
    && l.id in s.items && l.id in s'.items
    && var slot := Slot(s'.items[l.id], l.productType);
    && slot.Some?
    && slot.value in Rows(s, l.productType)
    && slot.value in Rows(s', l.productType)
    && Rows(s, l.productType)[slot.value].status.Available?
    && Rows(s, l.productType)[slot.value].productId == l.productId
    && Rows(s', l.productType)[slot.value] == Unit(l.productId, UnitStatus.Delivered, Some(l.id))
    && s'.items[l.id] == WithSlot(s.items[l.id], l.productType, slot.value)
  }

  /** Line `l` wanted a unit of type `t`, and row `u` is the one its item now names. */
  predicate Took(s': State, l: Line, t: ProductType, u: Id) {
    Wants(l) && l.productType == t && l.id in s'.items && Slot(s'.items[l.id], t) == Some(u)
  }

  /** From `s` to `s'` exactly the wanting lines were served, one unit each. */
  ghost predicate Allocated(s: State, s': State, lines: seq<Line>) {
    && s'.items.Keys == s.items.Keys
    && s'.keys.Keys == s.keys.Keys
    && s'.accounts.Keys == s.accounts.Keys
    && (forall l | l in lines && Wants(l) :: Gets(s, s', l))
    && (forall i | i in s.items && i !in Served(lines) :: s'.items[i] == s.items[i])
    && (forall t, u | u in Rows(s, t) ::
          || Rows(s', t)[u] == Rows(s, t)[u]
          || exists l :: l in lines && Took(s', l, t, u))
  }

  /** A committed delivery: the allocation, the sync of the products served, the new status. */
  ghost predicate Committed(s: State, s': State, o: Id, lines: seq<Line>) {
    && o in s.orders
    && Allocated(s, s', lines)
    && var moved := s.(keys := s'.keys, accounts := s'.accounts, items := s'.items);
       s' == SetStatus(SyncOrderSide(moved, ServedProducts(lines)), o, OrderStatus.Delivered)
  }

  /** `deliverOrderAtomic` with the item list it was handed. */
  ghost predicate Delivers(s: State, s': State, o: Id, lines: seq<Line>, ok: bool) {
    && (ok <==> CanDeliver(s, o, lines))
    && (if ok then Committed(s, s', o, lines) else s' == s)
  }

  // ---- payments ----

  datatype PayRequest = PayRequest(
    orderId: Id, userId: Id, amount: real, paymentMethod: PaymentMethod,
    idempotencyKey: Option<string>, now: nat, chargedAt: nat, providerTxId: Id)

  datatype PayOutcome = Refused | Existing(paymentId: Id) | Stored(paymentId: Id)

  datatype PayResult = PayResult(state: State, outcome: PayOutcome, charged: bool)

  const FIFTEEN_MINUTES: nat := 15 * 60 * 1000

  function Within(a: real, b: real): bool {
    -0.01 <= a - b <= 0.01
  }

  predicate Compatible(y: Payment, r: PayRequest) {
    && y.amount == r.amount && y.paymentMethod == r.paymentMethod
    && (y.idempotencyKey.None? || r.idempotencyKey.None? || y.idempotencyKey == r.idempotencyKey)
  }

  /** An empty idempotency key is not stored; an absent one keeps what is there. */
  function KeptKey(previous: Option<string>, given: Option<string>): Option<string> {
    if given.Some? && given.value != "" then given else previous
  }

  predicate TxTaken(s: State, tx: Id, except: Option<Id>) {
    exists y | y in s.payments :: Some(y) != except && s.payments[y].providerTxId == Some(tx)
  }

  predicate PaymentOf(s: State, o: Id, y: Id) {
    y in s.payments && s.payments[y].orderId == o
  }

  predicate PixStillOpen(y: Payment, now: nat) {
    y.expiresAt.None? || y.expiresAt.value == 0 || y.expiresAt.value > now
  }

  /** A PIX request when the order has no payment: the provider is charged, then the row is written. */
  function FirstPix(s: State, r: PayRequest): PayResult {
    if TxTaken(s, r.providerTxId, None) then PayResult(s, Refused, true)
    else
      var y := Payment(r.orderId, r.amount, PaymentStatus.Pending, Pix, Some(r.providerTxId),
                       Some(r.chargedAt + FIFTEEN_MINUTES), KeptKey(None, r.idempotencyKey));
      PayResult(s.(payments := s.payments[s.nextId := y], nextId := s.nextId + 1), Stored(s.nextId), true)
  }

  /** A PIX request when payment `y` exists: refused, answered from the row, or re-issued. */
  function NextPix(s: State, y: Id, r: PayRequest): PayResult
    requires y in s.payments
  {
    var pay := s.payments[y];
    if !pay.status.Pending? then PayResult(s, Refused, false)
    else if PixStillOpen(pay, r.now) then PayResult(s, Existing(y), false)
    else if TxTaken(s, r.providerTxId, Some(y)) then PayResult(s, Refused, true)
    else
      var renewed := pay.(amount := r.amount, paymentMethod := Pix, providerTxId := Some(r.providerTxId),
                        expiresAt := Some(r.chargedAt + FIFTEEN_MINUTES),
                        idempotencyKey := KeptKey(pay.idempotencyKey, r.idempotencyKey));
      PayResult(s.(payments := s.payments[y := renewed]), Stored(y), true)
  }

  function PlainPayment(s: State, r: PayRequest): PayResult {
    var y := Payment(r.orderId, r.amount, PaymentStatus.Pending, r.paymentMethod, None, None,
                     KeptKey(None, r.idempotencyKey));
    PayResult(s.(payments := s.payments[s.nextId := y], nextId := s.nextId + 1), Stored(s.nextId), false)
  }

  predicate PayableBy(s: State, r: PayRequest) {
    && r.orderId in s.orders && s.orders[r.orderId].userId == r.userId
    && Within(s.orders[r.orderId].total, r.amount)
  }

  /** `createPayment`; a second row for the same order is refused by the unique index. */
  ghost predicate Pays(s: State, r: PayRequest, res: PayResult) {
    if !PayableBy(s, r) then res == PayResult(s, Refused, false)
    else if exists y :: PaymentOf(s, r.orderId, y) then
      exists y :: PaymentOf(s, r.orderId, y) && res ==
        if r.paymentMethod.Pix? then NextPix(s, y, r)
        else if Compatible(s.payments[y], r)
                && (s.payments[y].status.Approved? || s.payments[y].status.Pending?)
        then PayResult(s, Existing(y), false)
        else PayResult(s, Refused, false)
    else res == if r.paymentMethod.Pix? then FirstPix(s, r) else PlainPayment(s, r)
  }

  /** What a refund reads before it calls the provider. */
  predicate Refundable(s: State, y: Id) {
    y in s.payments && s.payments[y].status.Approved? && s.payments[y].providerTxId.Some?
  }

  /** What a refund writes once the provider has paid back, whatever the payment's status is by then. */
  function WriteRefund(s: State, y: Id): State
    requires y in s.payments
  {
    s.(payments := s.payments[y := s.payments[y].(status := PaymentStatus.Refunded, idempotencyKey := None)])
  }

  function RefundPayment(s: State, y: Id, providerAccepts: bool): Option<State> {
    if Refundable(s, y) && providerAccepts then Some(WriteRefund(s, y)) else None
  }

  // ---- provider events ----

  /** The amount field of an event: absent or null, not a number, or an amount. */
  datatype EventValue = Missing | NotANumber | Amount(amount: real)

  datatype EventName =
    | PaymentReceived | PaymentConfirmed | PaymentRefunded | PaymentRefundRequested
    | PaymentOverdue | PaymentCancelled | WithdrawalRequested | CheckoutRefundRequest | Other

  /** `payment.id` and `payment.value`, and whether any withdrawal data came along. */
  datatype Event = Event(name: EventName, tx: Option<Id>, value: EventValue, hasWithdrawal: bool)

  datatype Authorization = NoAnswer | AuthorizeApproved | AuthorizeRejected

  datatype WebhookResult = WebhookResult(processed: bool, authorization: Authorization)

  predicate AmountAccepted(expected: real, v: EventValue) {
    v.Missing? || (v.Amount? && Within(expected, v.amount))
  }

  predicate ByTx(s: State, tx: Id, y: Id) {
    y in s.payments && s.payments[y].providerTxId == Some(tx)
  }

  /** The approval transaction: payment APPROVED and order PAID, whatever the order's status was. */
  function Approve(s: State, y: Id): State
    requires y in s.payments && s.payments[y].orderId in s.orders
  {
    SetStatus(
      s.(payments := s.payments[y := s.payments[y].(
        status := PaymentStatus.Approved, idempotencyKey := None)]),
      s.payments[y].orderId, OrderStatus.Paid)
  }

  /** The rejection transaction: payment REJECTED and order CANCELLED. */
  function Reject(s: State, y: Id): State
    requires y in s.payments && s.payments[y].orderId in s.orders
  {
    SetStatus(
      s.(payments := s.payments[y := s.payments[y].(status := PaymentStatus.Rejected)]),
      s.payments[y].orderId, OrderStatus.Cancelled)
  }

  function MarkRefunded(s: State, y: Id): State
    requires y in s.payments
  {
    s.(payments := s.payments[y := s.payments[y].(status := PaymentStatus.Refunded)])
  }

  /** Delivery right after approval; when it fails the order is parked in PROCESSING. */
  ghost predicate DeliversOrParks(s: State, s': State, o: Id) {
    o in s.orders && exists lines ::
      && IsSnapshot(s, o, lines)
      && if CanDeliver(s, o, lines) then Committed(s, s', o, lines)
         else s' == SetStatus(s, o, OrderStatus.Processing)
  }

  /** `approvePaymentByProviderTxId` for the payment found. */
  ghost predicate Receives(s: State, s': State, y: Id, value: EventValue, ok: bool)
    requires y in s.payments && s.payments[y].orderId in s.orders
  {
    var o := s.payments[y].orderId;
    && (ok <==> AmountAccepted(s.payments[y].amount, value))
    && if !ok || s.payments[y].status.Approved? || s.orders[o].status.Paid? then s' == s
       else DeliversOrParks(Approve(s, y), s', o)
  }

  /** One provider event, handled to completion. */
  ghost predicate Handles(s: State, s': State, e: Event, res: WebhookResult) {
    match e.name
    case PaymentReceived => HandlesReceived(s, s', e, res)
    case PaymentConfirmed => HandlesReceived(s, s', e, res)
    case PaymentRefunded => HandlesRefunded(s, s', e, res)
    case PaymentRefundRequested => HandlesRefunded(s, s', e, res)
    case PaymentCancelled => HandlesCancelled(s, s', e, res)
    case PaymentOverdue => s' == s && res == WebhookResult(true, NoAnswer)
    case WithdrawalRequested => HandlesWithdrawal(s, s', e, res)
    case CheckoutRefundRequest => HandlesWithdrawal(s, s', e, res)
    case Other => s' == s && res == WebhookResult(false, NoAnswer)
  }

  const FAILED := WebhookResult(false, AuthorizeRejected)
  const DONE := WebhookResult(true, NoAnswer)

  ghost predicate Found(s: State, tx: Option<Id>) {
    tx.Some? && exists y :: ByTx(s, tx.value, y)
  }

  ghost predicate HandlesReceived(s: State, s': State, e: Event, res: WebhookResult) {
    if !Found(s, e.tx) then s' == s && res == FAILED
    else exists y, ok ::
      && ByTx(s, e.tx.value, y) && s.payments[y].orderId in s.orders
      && Receives(s, s', y, e.value, ok) && res == if ok then DONE else FAILED
  }

  /** An event without an id is acknowledged and ignored. */
  ghost predicate HandlesRefunded(s: State, s': State, e: Event, res: WebhookResult) {
    if e.tx.None? then s' == s && res == DONE
    else if !Found(s, e.tx) then s' == s && res == FAILED
    else res == DONE && exists y ::
      && ByTx(s, e.tx.value, y)
      && s' == if s.payments[y].status.Refunded? then s else MarkRefunded(s, y)
  }

  ghost predicate HandlesCancelled(s: State, s': State, e: Event, res: WebhookResult) {
    if e.tx.None? then s' == s && res == DONE
    else if !Found(s, e.tx) then s' == s && res == FAILED
    else res == DONE && exists y ::
      ByTx(s, e.tx.value, y) && s.payments[y].orderId in s.orders && s' == Reject(s, y)
  }

  /** Authorisation requests change nothing; they are refused only when they carry no data. */
  ghost predicate HandlesWithdrawal(s: State, s': State, e: Event, res: WebhookResult) {
    s' == s && res == WebhookResult(true, if e.hasWithdrawal then AuthorizeApproved else AuthorizeRejected)
  }

  // ---- coupons ----

  function CreateCoupon(s: State, c: Coupon): State {
    s.(coupons := s.coupons[s.nextId := c.(usedCount := 0)], nextId := s.nextId + 1)
  }
}
