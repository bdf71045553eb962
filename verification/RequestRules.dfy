/**
 What a payment request is answered with, in the numbers of the request and the rows: who may pay
 what, when an existing payment is the answer, and when the provider is charged.
 */
module RequestRules {
  import opened Store
  import opened Fulfilment
  import opened Invariants

  /** The requester's own order, and its total to within a cent. */
  predicate Payable(s: State, r: PayRequest) {
    && r.orderId in s.orders && s.orders[r.orderId].userId == r.userId
    && s.orders[r.orderId].total - r.amount <= 0.01 && r.amount - s.orders[r.orderId].total <= 0.01
  }

  /** The key that is stored: none for an absent or empty one. */
  function StoredKey(given: Option<string>): Option<string> {
    if given == Some("") then None else given
  }

  /** Anybody else's order and any other amount are refused without a charge. */
  lemma NotPayable(s: State, r: PayRequest, res: PayResult)
    requires Pays(s, r, res) && !Payable(s, r)
    ensures res.state == s && res.outcome == Refused && !res.charged
  {
  }

  predicate NoPayment(s: State, o: Id) {
    forall y | y in s.payments :: s.payments[y].orderId != o
  }

  predicate FreshTx(s: State, tx: Id) {
    forall y | y in s.payments :: s.payments[y].providerTxId != Some(tx)
  }

  /** A first PIX request is charged, and its payment is open for 900000 milliseconds. */
  lemma FirstPixCharged(s: State, r: PayRequest, res: PayResult)
    requires Pays(s, r, res) && Payable(s, r) && NoPayment(s, r.orderId)
    requires r.paymentMethod.Pix? && FreshTx(s, r.providerTxId)
    ensures res.charged && res.outcome == Stored(s.nextId)
    ensures res.state == s.(nextId := s.nextId + 1, payments := s.payments[s.nextId :=
      Payment(r.orderId, r.amount, PaymentStatus.Pending, Pix, Some(r.providerTxId),
              Some(r.chargedAt + 900000), StoredKey(r.idempotencyKey))])
  {
  }

  /** A first request by another method stores a PENDING payment and charges nothing. */
  lemma FirstOtherStored(s: State, r: PayRequest, res: PayResult)
    requires Pays(s, r, res) && Payable(s, r) && NoPayment(s, r.orderId) && !r.paymentMethod.Pix?
    ensures !res.charged && res.outcome == Stored(s.nextId)
    ensures res.state == s.(nextId := s.nextId + 1, payments := s.payments[s.nextId :=
      Payment(r.orderId, r.amount, PaymentStatus.Pending, r.paymentMethod, None, None,
              StoredKey(r.idempotencyKey))])
  {
  }

  lemma TheirPayment(s: State, r: PayRequest, res: PayResult, y: Id)
    requires Unique(s) && Pays(s, r, res) && Payable(s, r)
    requires y in s.payments && s.payments[y].orderId == r.orderId
    ensures r.paymentMethod.Pix? ==> res == NextPix(s, y, r)
    ensures !r.paymentMethod.Pix? ==> (res ==
      if Compatible(s.payments[y], r) && (s.payments[y].status.Approved? || s.payments[y].status.Pending?)
      then PayResult(s, Existing(y), false) else PayResult(s, Refused, false))
  {
    hide NextPix, Compatible;
    assert PaymentOf(s, r.orderId, y);
    assert forall z | PaymentOf(s, r.orderId, z) :: z == y;
  }

  /**
   An expired PIX is re-issued: the provider is charged again, and the payment carries the new
   transaction, amount and 900000 milliseconds from the charge. It keeps its idempotency key
   unless a new one is given.
   */
  lemma ExpiredReissued(s: State, r: PayRequest, res: PayResult, y: Id)
    requires Unique(s) && Pays(s, r, res) && Payable(s, r) && r.paymentMethod.Pix?
    requires y in s.payments && s.payments[y].orderId == r.orderId && s.payments[y].status.Pending?
    requires s.payments[y].expiresAt.Some? && 0 < s.payments[y].expiresAt.value <= r.now
    requires FreshTx(s, r.providerTxId)
    ensures res.charged && res.outcome == Stored(y)
    ensures res.state == s.(payments := s.payments[y :=
      Payment(r.orderId, r.amount, PaymentStatus.Pending, Pix, Some(r.providerTxId), Some(r.chargedAt + 900000),
              if StoredKey(r.idempotencyKey).Some? then r.idempotencyKey else s.payments[y].idempotencyKey)])
  {
    TheirPayment(s, r, res, y);
  }

  /** A PIX that is still open, or never expires, is the answer itself. */
  lemma OpenAnswered(s: State, r: PayRequest, res: PayResult, y: Id)
    requires Unique(s) && Pays(s, r, res) && Payable(s, r) && r.paymentMethod.Pix?
    requires y in s.payments && s.payments[y].orderId == r.orderId && s.payments[y].status.Pending?
    requires s.payments[y].expiresAt.None? || s.payments[y].expiresAt.value == 0
             || s.payments[y].expiresAt.value > r.now
    ensures res.state == s && res.outcome == Existing(y) && !res.charged
  {
    TheirPayment(s, r, res, y);
  }

  /** A PIX request for a payment that has left PENDING is refused without a charge. */
  lemma SettledRefused(s: State, r: PayRequest, res: PayResult, y: Id)
    requires Unique(s) && Pays(s, r, res) && Payable(s, r) && r.paymentMethod.Pix?
    requires y in s.payments && s.payments[y].orderId == r.orderId && !s.payments[y].status.Pending?
    ensures res.state == s && res.outcome == Refused && !res.charged
  {
    TheirPayment(s, r, res, y);
  }

  /**
   By another method nothing is charged or written: the existing payment is the answer when it
   is PENDING or APPROVED, of the same amount and method, and no two keys disagree.
   */
  lemma OtherAnswered(s: State, r: PayRequest, res: PayResult, y: Id)
    requires Unique(s) && Pays(s, r, res) && Payable(s, r) && !r.paymentMethod.Pix?
    requires y in s.payments && s.payments[y].orderId == r.orderId
    ensures res.state == s && !res.charged && (res.outcome == Existing(y) || res.outcome == Refused)
    ensures res.outcome == Existing(y) <==>
      && (s.payments[y].status.Pending? || s.payments[y].status.Approved?)
      && s.payments[y].amount == r.amount && s.payments[y].paymentMethod == r.paymentMethod
      && (s.payments[y].idempotencyKey.Some? && r.idempotencyKey.Some? ==>
            s.payments[y].idempotencyKey.value == r.idempotencyKey.value)
  {
    TheirPayment(s, r, res, y);
  }
}
