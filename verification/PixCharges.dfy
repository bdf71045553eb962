/**
 How often the provider is charged for one order. The claim is about whole runs of the
 shop: any other operation, and requests for other orders, may happen between two PIX requests.
 */
module PixCharges {
  import opened Store
  import opened Fulfilment
  import opened Invariants
  import opened Runs
  import Webhooks

  /** The same payment rows, each with its order, expiry and provider transaction. */
  ghost predicate ChargesKept(s: State, s': State) {
    && s'.payments.Keys == s.payments.Keys
    && forall y | y in s.payments ::
         && s'.payments[y].orderId == s.payments[y].orderId
         && s'.payments[y].expiresAt == s.payments[y].expiresAt
         && s'.payments[y].providerTxId == s.payments[y].providerTxId
  }

  /** Step `k` charges the provider for order `o`. */
  ghost predicate Charges(ws: seq<World>, ops: seq<Op>, k: nat, o: Id)
    requires |ws| == |ops| + 1 && k < |ops|
  {
    && ops[k].Pay? && ops[k].request.orderId == o
    && exists res :: Pays(ws[k].db, ops[k].request, res) && ws[k + 1] == ws[k].(db := res.state) && res.charged
  }

  /** The provider's transaction id is stored with another order's payment. */
  ghost predicate ForeignTx(s: State, r: PayRequest) {
    exists y :: y in s.payments && s.payments[y].orderId != r.orderId
                && s.payments[y].providerTxId == Some(r.providerTxId)
  }

  /**
   A charge for order `o` comes after its request was read, and the provider does not hand out
   for it a transaction id that another order's payment carries.
   */
  ghost predicate Clocked(ws: seq<World>, ops: seq<Op>, o: Id)
    requires |ws| == |ops| + 1
  {
    forall k | 0 <= k < |ops| && ops[k].Pay? && ops[k].request.orderId == o ::
      ops[k].request.now <= ops[k].request.chargedAt && !ForeignTx(ws[k].db, ops[k].request)
  }

  lemma UnitsKeepPayments(s: State, t: ProductType, p: Id, n: nat, u: Id, i: Id)
    ensures p in s.products ==> Import(s, t, p, n).payments == s.payments
    ensures DeleteUnit(s, t, u).Some? ==> DeleteUnit(s, t, u).value.payments == s.payments
    ensures ReserveKey(s, u, i).Some? ==> ReserveKey(s, u, i).value.payments == s.payments
    ensures MarkDelivered(s, t, u).Some? ==> MarkDelivered(s, t, u).value.payments == s.payments
  {
    hide Avail, Named, NewRows;
  }

  /** Operations on products, inventory and orders do not write payment rows. */
  lemma ShopOpsKeepPayments(w: World, w': World, op: Op)
    requires Next(w, w', op) && !op.Pay? && !op.FinishRefund? && !op.Webhook? && !op.FinishDelivery?
    ensures w'.db.payments == w.db.payments
  {
    hide Import, DeleteUnit, ReserveKey, MarkDelivered, Avail, HasRows, AnyAvailable, Named, StockOf;
    hide Freed, Held, Touched, RowsWithout, EnoughStock, CouponFree, NewOrder, Numbered, Allowed, IsSnapshot;
    match op
    case ImportRows(t, p, n) => UnitsKeepPayments(w.db, t, p, n, 0, 0);
    case DropUnit(t, u) => UnitsKeepPayments(w.db, t, 0, 0, u, 0);
    case Reserve(u, i) => UnitsKeepPayments(w.db, Key, 0, 0, u, i);
    case HandOver(t, u) => UnitsKeepPayments(w.db, t, 0, 0, u, 0);
    case _ =>
  }

  lemma OtherOpsKeepCharges(w: World, w': World, op: Op)
    requires Next(w, w', op) && !op.Pay?
    ensures ChargesKept(w.db, w'.db)
  {
    hide Handles, CanDeliver, Allocated, CreateProduct, UpdateProduct, DeleteProduct, Import;
    hide DeleteUnit, ReserveKey, MarkDelivered, CreateCoupon, PlaceOrder, UpdateStatus, IsSnapshot;
    if op.Webhook? {
      var res :| Handles(w.db, w'.db, op.event, res);
      Webhooks.HandlesRows(w.db, w'.db, op.event, res);
    } else if op.FinishDelivery? {
      if op.caller in w.delivering {
        var ok :| Delivers(w.db, w'.db, w.delivering[op.caller].orderId, w.delivering[op.caller].lines, ok);
      }
    } else if !op.FinishRefund? {
      ShopOpsKeepPayments(w, w', op);
    }
  }

  /** Order `o` has a payment whose expiry is at `t` or later. */
  ghost predicate OpenUntil(s: State, o: Id, t: nat) {
    exists y :: PaymentOf(s, o, y) && s.payments[y].expiresAt.Some? && s.payments[y].expiresAt.value >= t
  }

  /**
   A charge leaves the order open for fifteen minutes from the time it was made, unless its
   transaction id is already another order's: then the provider was charged and no row says so.
   */
  lemma ChargeOpens(s: State, r: PayRequest, res: PayResult)
    requires Unique(s) && Pays(s, r, res) && res.charged
    ensures !ForeignTx(s, r) ==> OpenUntil(res.state, r.orderId, r.chargedAt + FIFTEEN_MINUTES)
    ensures ForeignTx(s, r) ==> res == PayResult(s, Refused, true)
  {
    if exists y :: PaymentOf(s, r.orderId, y) {
      var y :| PaymentOf(s, r.orderId, y) && res == NextPix(s, y, r);
      assert TxTaken(s, r.providerTxId, Some(y)) <==> ForeignTx(s, r);
      assert !ForeignTx(s, r) ==> PaymentOf(res.state, r.orderId, y);
    } else {
      assert forall y | y in s.payments && s.payments[y].orderId == r.orderId :: PaymentOf(s, r.orderId, y);
      assert !ForeignTx(s, r) ==> PaymentOf(res.state, r.orderId, s.nextId);
    }
  }

  lemma NextPixWhileOpen(s: State, y: Id, z: Id, r: PayRequest, t: nat)
    requires y in s.payments && s.payments[y].expiresAt.Some? && s.payments[y].expiresAt.value >= t > 0
    requires z in s.payments && (z == y ==> r.now <= r.chargedAt)
    ensures var res := NextPix(s, z, r);
      && y in res.state.payments && res.state.payments[y].orderId == s.payments[y].orderId
      && res.state.payments[y].expiresAt.Some? && res.state.payments[y].expiresAt.value >= t
      && (res.charged && z == y ==> r.now >= t)
  {
  }

  /** While the order's payment is open there is no charge, and afterwards the expiry only grows. */
  lemma PayWhileOpen(s: State, r: PayRequest, res: PayResult, o: Id, t: nat)
    requires Unique(s) && OpenUntil(s, o, t) && t > 0 && Numbers(s)
    requires Pays(s, r, res) && (r.orderId == o ==> r.now <= r.chargedAt)
    ensures r.orderId == o && res.charged ==> r.now >= t
    ensures OpenUntil(res.state, o, t)
  {
    hide NextPix, Compatible, Within, TxTaken;
    var y :| PaymentOf(s, o, y) && s.payments[y].expiresAt.Some? && s.payments[y].expiresAt.value >= t;
    if PayableBy(s, r) && exists z :: PaymentOf(s, r.orderId, z) {
      var z :| PaymentOf(s, r.orderId, z) && (res == NextPix(s, z, r) || (res.state == s && !res.charged));
      assert r.orderId == o <==> z == y;
      NextPixWhileOpen(s, y, z, r, t);
    }
    assert PaymentOf(res.state, o, y);
  }

  lemma OpenStep(w: World, w': World, op: Op, o: Id, t: nat)
    requires Unique(w.db) && Numbers(w.db) && Next(w, w', op) && OpenUntil(w.db, o, t) && t > 0
    requires op.Pay? && op.request.orderId == o ==> op.request.now <= op.request.chargedAt
    ensures OpenUntil(w'.db, o, t)
  {
    if op.Pay? {
      var res :| Pays(w.db, op.request, res) && w' == w.(db := res.state);
      PayWhileOpen(w.db, op.request, res, o, t);
    } else {
      OtherOpsKeepCharges(w, w', op);
      var y :| PaymentOf(w.db, o, y) && w.db.payments[y].expiresAt.Some?
               && w.db.payments[y].expiresAt.value >= t;
      assert PaymentOf(w'.db, o, y);
    }
  }

  lemma ReachableUnique(ws: seq<World>, ops: seq<Op>, k: nat)
    requires IsRun(ws, ops) && k < |ws|
    ensures Unique(ws[k].db) && Numbers(ws[k].db)
  {
    hide IsRun;
    RunInv(ws, ops, k);
  }

  lemma {:induction false} OpenAfterCharge(ws: seq<World>, ops: seq<Op>, k: nat, m: nat, o: Id)
    requires IsRun(ws, ops) && Clocked(ws, ops, o) && k < m < |ws| && Charges(ws, ops, k, o)
    ensures OpenUntil(ws[m].db, o, ops[k].request.chargedAt + FIFTEEN_MINUTES)
    decreases m
  {
    hide Next, Pays, OpenUntil;
    if m == k + 1 {
      assert k < |ops|;
      ReachableUnique(ws, ops, k);
      var res :| Pays(ws[k].db, ops[k].request, res) && ws[k + 1] == ws[k].(db := res.state) && res.charged;
      ChargeOpens(ws[k].db, ops[k].request, res);
    } else {
      OpenAfterCharge(ws, ops, k, m - 1, o);
      ReachableUnique(ws, ops, m - 1);
      assert StepAt(ws, ops, m - 1);
      OpenStep(ws[m - 1], ws[m], ops[m - 1], o, ops[k].request.chargedAt + FIFTEEN_MINUTES);
    }
  }

  /** Two charges for one order are at least fifteen minutes apart. */
  lemma ChargesSpaced(ws: seq<World>, ops: seq<Op>, k: nat, m: nat, o: Id)
    requires IsRun(ws, ops) && Clocked(ws, ops, o) && k < m < |ops|
    requires Charges(ws, ops, k, o) && Charges(ws, ops, m, o)
    ensures ops[k].request.chargedAt + FIFTEEN_MINUTES <= ops[m].request.now <= ops[m].request.chargedAt
  {
    OpenAfterCharge(ws, ops, k, m, o);
    RunInv(ws, ops, m);
    var res :| Pays(ws[m].db, ops[m].request, res) && ws[m + 1] == ws[m].(db := res.state) && res.charged;
    PayWhileOpen(ws[m].db, ops[m].request, res, o, ops[k].request.chargedAt + FIFTEEN_MINUTES);
  }

  ghost predicate ChargeStep(ws: seq<World>, ops: seq<Op>, o: Id, ks: seq<nat>, a: nat)
    requires |ws| == |ops| + 1 && a < |ks|
  {
    ks[a] < |ops| && Charges(ws, ops, ks[a], o)
  }

  /** `ks` lists steps that charge for order `o`, in order. */
  ghost predicate ChargeSteps(ws: seq<World>, ops: seq<Op>, o: Id, ks: seq<nat>)
    requires |ws| == |ops| + 1
  {
    && (forall a | 0 <= a < |ks| :: ChargeStep(ws, ops, o, ks, a))
    && (forall a, b | 0 <= a < b < |ks| :: ks[a] < ks[b])
  }

  lemma {:induction false} GapsAdd(times: seq<nat>, gap: nat, n: nat)
    requires n < |times| && forall a | 0 < a < |times| :: times[a - 1] + gap <= times[a]
    ensures times[0] + n * gap <= times[n]
  {
    if n > 0 {
      GapsAdd(times, gap, n - 1);
    }
  }

  lemma NeighboursSpaced(ws: seq<World>, ops: seq<Op>, o: Id, ks: seq<nat>, a: nat)
    requires IsRun(ws, ops) && Clocked(ws, ops, o) && ChargeSteps(ws, ops, o, ks) && 0 < a < |ks|
    ensures ks[a - 1] < |ops| && ks[a] < |ops| && ops[ks[a - 1]].Pay? && ops[ks[a]].Pay?
    ensures ops[ks[a - 1]].request.chargedAt + FIFTEEN_MINUTES <= ops[ks[a]].request.chargedAt
  {
    assert ChargeStep(ws, ops, o, ks, a - 1) && ChargeStep(ws, ops, o, ks, a);
    ChargesSpaced(ws, ops, ks[a - 1], ks[a], o);
  }

  function ChargedAt(op: Op): nat {
    if op.Pay? then op.request.chargedAt else 0
  }

  /** A window of `length` milliseconds sees at most one charge per fifteen minutes, plus one. */
  lemma ChargesInWindow(ws: seq<World>, ops: seq<Op>, o: Id, ks: seq<nat>, from: nat, length: nat)
    requires IsRun(ws, ops) && Clocked(ws, ops, o) && ChargeSteps(ws, ops, o, ks)
    requires forall a | 0 <= a < |ks| :: ks[a] < |ops| && from <= ChargedAt(ops[ks[a]]) <= from + length
    ensures |ks| <= length / FIFTEEN_MINUTES + 1
  {
    hide IsRun, Clocked, Charges;
    if |ks| > 0 {
      var times := seq(|ks|, a requires 0 <= a < |ks| => ChargedAt(ops[ks[a]]));
      forall a | 0 < a < |times|
        ensures times[a - 1] + FIFTEEN_MINUTES <= times[a]
      {
        NeighboursSpaced(ws, ops, o, ks, a);
      }
      GapsAdd(times, FIFTEEN_MINUTES, |ks| - 1);
      assert from <= times[0] && times[|ks| - 1] <= from + length;
    }
  }

  // ---- superseded charges ----

  /** Step `k` puts another provider transaction in the place of `tx`. */
  ghost predicate Supersedes(ws: seq<World>, ops: seq<Op>, k: nat, tx: Id)
    requires |ws| == |ops| + 1 && k < |ops|
  {
    ops[k].Pay? && exists y ::
      && ByTx(ws[k].db, tx, y) && y in ws[k + 1].db.payments
      && ws[k + 1].db.payments[y].providerTxId != Some(tx)
  }

  ghost predicate Unknown(s: State, tx: Id) {
    forall y | y in s.payments :: s.payments[y].providerTxId != Some(tx)
  }

  /** A request only ever stores the transaction the provider has just handed out for it. */
  lemma PayStoresOwnTx(s: State, r: PayRequest, res: PayResult, y: Id)
    requires Pays(s, r, res) && y in res.state.payments
    ensures
      || res.state.payments[y].providerTxId == Some(r.providerTxId)
      || res.state.payments[y].providerTxId == None
      || (y in s.payments && res.state.payments[y].providerTxId == s.payments[y].providerTxId)
  {
    hide Compatible, Within, TxTaken, PixStillOpen;
  }

  lemma NextPixKeepsRow(s: State, z: Id, r: PayRequest, y: Id)
    requires z in s.payments && y in s.payments
    ensures y in NextPix(s, z, r).state.payments
  {
    hide TxTaken, PixStillOpen, KeptKey;
  }

  lemma PayKeepsRow(s: State, r: PayRequest, res: PayResult, y: Id)
    requires Pays(s, r, res) && y in s.payments
    ensures y in res.state.payments
  {
    hide NextPix, Compatible, Within, TxTaken;
    if PayableBy(s, r) && exists z :: PaymentOf(s, r.orderId, z) {
      var z :| PaymentOf(s, r.orderId, z) && (res == NextPix(s, z, r) || res.state == s);
      NextPixKeepsRow(s, z, r, y);
    }
  }

  lemma PayKeepsUnknown(s: State, r: PayRequest, res: PayResult, tx: Id)
    requires Pays(s, r, res) && Unknown(s, tx) && r.providerTxId != tx
    ensures Unknown(res.state, tx)
  {
    forall y | y in res.state.payments
      ensures res.state.payments[y].providerTxId != Some(tx)
    {
      PayStoresOwnTx(s, r, res, y);
    }
  }

  /** The payment that carried `tx` was the only one, and now carries the new transaction. */
  lemma ReplacedUnknown(s: State, r: PayRequest, res: PayResult, y: Id, tx: Id)
    requires Unique(s) && Pays(s, r, res) && ByTx(s, tx, y)
    requires y in res.state.payments && res.state.payments[y].providerTxId != Some(tx)
    ensures Unknown(res.state, tx)
  {
    PayStoresOwnTx(s, r, res, y);
    OnlyOneRow(s, r, res, y);
    forall z | z in res.state.payments
      ensures res.state.payments[z].providerTxId != Some(tx)
    {
      if z != y {
        assert z in s.payments && res.state.payments[z] == s.payments[z];
      }
    }
  }

  /** A request that changes row `y` writes no other row. */
  lemma OnlyOneRow(s: State, r: PayRequest, res: PayResult, y: Id)
    requires Pays(s, r, res) && y in s.payments && y in res.state.payments
    requires res.state.payments[y] != s.payments[y]
    ensures res.state.payments == s.payments[y := res.state.payments[y]]
  {
    hide Compatible, Within, TxTaken, PixStillOpen;
  }

  lemma StepKeepsUnknown(w: World, w': World, op: Op, tx: Id)
    requires Next(w, w', op) && Unknown(w.db, tx)
    requires op.Pay? ==> op.request.providerTxId != tx
    ensures Unknown(w'.db, tx)
  {
    hide Pays, Handles, Delivers;
    if op.Pay? {
      var res :| Pays(w.db, op.request, res) && w' == w.(db := res.state);
      PayKeepsUnknown(w.db, op.request, res, tx);
    } else {
      OtherOpsKeepCharges(w, w', op);
    }
  }

  /** No request strictly between steps `k` and `m` was handed `tx` by the provider. */
  ghost predicate NotReissued(ops: seq<Op>, k: nat, m: nat, tx: Id)
    requires m <= |ops|
  {
    forall j | k < j < m && ops[j].Pay? :: ops[j].request.providerTxId != tx
  }

  /** Once superseded, a transaction is on no payment, whatever the shop did since. */
  lemma {:induction false} SupersededGone(ws: seq<World>, ops: seq<Op>, k: nat, m: nat, tx: Id)
    requires IsRun(ws, ops) && k < m < |ws| && Supersedes(ws, ops, k, tx) && NotReissued(ops, k, m, tx)
    ensures Unknown(ws[m].db, tx)
    decreases m
  {
    hide Next, Pays, Unknown;
    assert StepAt(ws, ops, m - 1);
    if m == k + 1 {
      ReachableUnique(ws, ops, k);
      SupersedingStep(ws, ops, k, tx);
    } else {
      SupersededGone(ws, ops, k, m - 1, tx);
      StepKeepsUnknown(ws[m - 1], ws[m], ops[m - 1], tx);
    }
  }

  lemma SupersedingStep(ws: seq<World>, ops: seq<Op>, k: nat, tx: Id)
    requires |ws| == |ops| + 1 && k < |ops| && StepAt(ws, ops, k) && Unique(ws[k].db)
    requires Supersedes(ws, ops, k, tx)
    ensures Unknown(ws[k + 1].db, tx)
  {
    hide Pays, Unknown, Unique;
    var y :| ByTx(ws[k].db, tx, y) && y in ws[k + 1].db.payments
             && ws[k + 1].db.payments[y].providerTxId != Some(tx);
    var res :| Pays(ws[k].db, ops[k].request, res) && ws[k + 1] == ws[k].(db := res.state);
    ReplacedUnknown(ws[k].db, ops[k].request, res, y, tx);
  }

  /** However late it arrives, an event naming a superseded charge changes nothing. */
  lemma SupersededIgnored(ws: seq<World>, ops: seq<Op>, k: nat, m: nat, tx: Id)
    requires IsRun(ws, ops) && k < m < |ops| && Supersedes(ws, ops, k, tx) && NotReissued(ops, k, m, tx)
    requires ops[m].Webhook? && ops[m].event.tx == Some(tx)
    ensures Unknown(ws[m].db, tx)
    ensures ws[m + 1] == ws[m]
  {
    SupersededGone(ws, ops, k, m, tx);
    assert StepAt(ws, ops, m);
    assert !Found(ws[m].db, Some(tx));
  }
}
