/** The wallet ledger, and walking its records page by page. */
module Wallet {
  import opened Arithmetic
  import opened Store

  datatype Kind = Credit | Debit | Cashback

  datatype Record = Record(userId: Id, kind: Kind, amount: real)

  datatype Balance = Balance(balance: real, cashback: real)

  datatype Books = Books(wallets: map<Id, Balance>, records: seq<Record>)

  datatype Op =
    | Open(userId: Id)
    | Add(userId: Id, amount: real)
    | Deduct(userId: Id, amount: real)
    | AddCashback(userId: Id, amount: real)

  datatype Outcome = Accepted | WalletNotFound | InsufficientFunds

  function OutcomeOf(b: Books, op: Op): Outcome {
    if op.Open? then Accepted
    else if op.userId !in b.wallets then WalletNotFound
    else if op.Deduct? && b.wallets[op.userId].balance < op.amount then InsufficientFunds
    else Accepted
  }

  function Entry(op: Op): Record
    requires !op.Open?
  {
    Record(op.userId, if op.Add? then Credit else if op.Deduct? then Debit else Cashback, op.amount)
  }

  /** An accepted change moves one amount and leaves one record; a refused one leaves nothing. */
  function Apply(b: Books, op: Op): Books {
    if OutcomeOf(b, op) != Accepted then b
    else if op.Open? then
      if op.userId in b.wallets then b else b.(wallets := b.wallets[op.userId := Balance(0.0, 0.0)])
    else
      var w := b.wallets[op.userId];
      var w' := match op
        case Add(_, amount) => w.(balance := w.balance + amount)
        case Deduct(_, amount) => w.(balance := w.balance - amount)
        case AddCashback(_, amount) => w.(cashback := w.cashback + amount);
      Books(b.wallets[op.userId := w'], b.records + [Entry(op)])
  }

  function Run(ops: seq<Op>): Books {
    if ops == [] then Books(map[], []) else Apply(Run(ops[..|ops| - 1]), ops[|ops| - 1])
  }

  /** The records of one user and kind added up. */
  function Total(records: seq<Record>, userId: Id, kind: Kind): real {
    if records == [] then 0.0
    else
      var r := records[|records| - 1];
      Total(records[..|records| - 1], userId, kind)
      + if r.userId == userId && r.kind == kind then r.amount else 0.0
  }

  /** The ledger explains a user's balance, and a user without a wallet has no records. */
  ghost predicate AgreesFor(b: Books, u: Id) {
    if u in b.wallets then
      && b.wallets[u].balance == Total(b.records, u, Credit) - Total(b.records, u, Debit)
      && b.wallets[u].cashback == Total(b.records, u, Cashback)
    else forall k :: Total(b.records, u, k) == 0.0
  }

  ghost predicate Agrees(b: Books) {
    forall u :: AgreesFor(b, u)
  }

  lemma TotalAppend(records: seq<Record>, r: Record, userId: Id, kind: Kind)
    ensures Total(records + [r], userId, kind)
         == Total(records, userId, kind) + if r.userId == userId && r.kind == kind then r.amount else 0.0
  {
    assert (records + [r])[..|records|] == records;
  }

  lemma ApplyAgrees(b: Books, op: Op, u: Id)
    requires AgreesFor(b, u)
    ensures AgreesFor(Apply(b, op), u)
  {
    if OutcomeOf(b, op) == Accepted && !op.Open? {
      TotalAppend(b.records, Entry(op), u, Credit);
      TotalAppend(b.records, Entry(op), u, Debit);
      TotalAppend(b.records, Entry(op), u, Cashback);
    }
  }

  /** Over any run, with any amounts, balances and cashback are what the records add up to. */
  lemma {:induction false} LedgerAgrees(ops: seq<Op>)
    ensures Agrees(Run(ops))
  {
    if ops != [] {
      var before := Run(ops[..|ops| - 1]);
      LedgerAgrees(ops[..|ops| - 1]);
      forall u
        ensures AgreesFor(Run(ops), u)
      {
        assert AgreesFor(before, u);
        ApplyAgrees(before, ops[|ops| - 1], u);
      }
    }
  }

  /** No balance goes below zero, as long as nothing negative is added; deductions may be anything. */
  lemma {:induction false} NeverOverdrawn(ops: seq<Op>, u: Id)
    requires forall op | op in ops && op.Add? :: op.amount >= 0.0
    requires u in Run(ops).wallets
    ensures Run(ops).wallets[u].balance >= 0.0
  {
    if ops != [] {
      var front, op := ops[..|ops| - 1], ops[|ops| - 1];
      assert op in ops;
      assert forall x | x in front :: x in ops;
      if u in Run(front).wallets {
        NeverOverdrawn(front, u);
      }
    }
  }

  /** A debit goes through exactly for a wallet that holds at least the amount: down to nothing. */
  lemma DebitExactly(b: Books, u: Id, amount: real)
    ensures OutcomeOf(b, Deduct(u, amount)) == Accepted <==> u in b.wallets && amount <= b.wallets[u].balance
    ensures OutcomeOf(b, Deduct(u, amount)) == WalletNotFound <==> u !in b.wallets
    ensures u in b.wallets && amount == b.wallets[u].balance ==>
      Apply(b, Deduct(u, amount)).wallets == b.wallets[u := Balance(0.0, b.wallets[u].cashback)]
  {
  }

  /** A credit and a debit of the same amount leave the balance, and two records. */
  lemma CreditThenDebit(b: Books, u: Id, amount: real)
    requires u in b.wallets && b.wallets[u].balance >= 0.0
    ensures var b' := Apply(Apply(b, Add(u, amount)), Deduct(u, amount));
      && b'.wallets == b.wallets
      && b'.records == b.records + [Record(u, Credit, amount), Record(u, Debit, amount)]
  {
    var b1 := Apply(b, Add(u, amount));
    assert b1.wallets[u].balance == b.wallets[u].balance + amount;
    var b' := Apply(b1, Deduct(u, amount));
    assert b'.wallets[u] == b.wallets[u];
    assert b'.wallets == b.wallets;
  }

  /** Credits and cashback need a wallet and nothing else; each goes to its own column, with its record. */
  lemma CreditExactly(b: Books, u: Id, amount: real)
    ensures OutcomeOf(b, Add(u, amount)) == OutcomeOf(b, AddCashback(u, amount))
         == if u in b.wallets then Accepted else WalletNotFound
    ensures u in b.wallets ==>
      && Apply(b, Add(u, amount)) == Books(
           b.wallets[u := Balance(b.wallets[u].balance + amount, b.wallets[u].cashback)],
           b.records + [Record(u, Credit, amount)])
      && Apply(b, AddCashback(u, amount)) == Books(
           b.wallets[u := Balance(b.wallets[u].balance, b.wallets[u].cashback + amount)],
           b.records + [Record(u, Cashback, amount)])
  {
  }

  /** Opening is idempotent, and a new wallet is empty. */
  lemma OpenExactly(b: Books, u: Id)
    ensures u in b.wallets ==> Apply(b, Open(u)) == b
    ensures u !in b.wallets ==> Apply(b, Open(u)) == b.(wallets := b.wallets[u := Balance(0.0, 0.0)])
  {
  }

  class WalletRepository {
    var wallets: map<Id, Balance>
    var records: seq<Record>

    constructor ()
      ensures View() == Books(map[], [])
    {
      wallets, records := map[], [];
    }

    function View(): Books
      reads this
    {
      Books(wallets, records)
    }

    /** `upsert`: a second call changes nothing. */
    method CreateWallet(userId: Id)
      modifies this
      ensures View() == Apply(old(View()), Open(userId))
    {
      if userId !in wallets {
        wallets := wallets[userId := Balance(0.0, 0.0)];
      }
    }

    method AddBalance(userId: Id, amount: real) returns (r: Outcome)
      modifies this
      ensures r == OutcomeOf(old(View()), Add(userId, amount))
      ensures View() == Apply(old(View()), Add(userId, amount))
    {
      if userId !in wallets {
        return WalletNotFound;
      }
      wallets := wallets[userId := wallets[userId].(balance := wallets[userId].balance + amount)];
      records := records + [Record(userId, Credit, amount)];
      return Accepted;
    }

    method DeductBalance(userId: Id, amount: real) returns (r: Outcome)
      modifies this
      ensures r == OutcomeOf(old(View()), Deduct(userId, amount))
      ensures View() == Apply(old(View()), Deduct(userId, amount))
      ensures r != Accepted ==> View() == old(View())
      ensures r == Accepted ==> wallets[userId].balance >= 0.0
    {
      if userId !in wallets {
        return WalletNotFound;
      }
      var currentBalance := wallets[userId].balance;
      if currentBalance < amount {
        return InsufficientFunds;
      }
      wallets := wallets[userId := wallets[userId].(balance := currentBalance - amount)];
      records := records + [Record(userId, Debit, amount)];
      return Accepted;
    }

    method AddCashback(userId: Id, amount: real) returns (r: Outcome)
      modifies this
      ensures r == OutcomeOf(old(View()), Op.AddCashback(userId, amount))
      ensures View() == Apply(old(View()), Op.AddCashback(userId, amount))
    {
      if userId !in wallets {
        return WalletNotFound;
      }
      wallets := wallets[userId := wallets[userId].(cashback := wallets[userId].cashback + amount)];
      records := records + [Record(userId, Cashback, amount)];
      return Accepted;
    }
  }

  // ---- pagination ----

  datatype Page = Page(data: seq<Id>, nextCursor: Option<Id>)

  predicate Distinct(list: seq<Id>) {
    forall a, b | 0 <= a < b < |list| :: list[a] != list[b]
  }

  /** Where a page starts: at the head, or just after the cursor row; past the end for an unknown one. */
  function StartOf(list: seq<Id>, cursor: Option<Id>): (n: nat)
    ensures n <= |list|
    ensures cursor.Some? && cursor.value in list ==> n > 0 && list[n - 1] == cursor.value
    decreases |list|
  {
    if cursor.None? then 0
    else if list == [] then 0
    else if list[0] == cursor.value then 1
    else 1 + StartOf(list[1..], cursor)
  }

  /** One row more than the limit is fetched, to know whether there is more. */
  method GetTransactions(list: seq<Id>, limit: nat, cursor: Option<Id>) returns (page: Page)
    ensures page == PageAt(list, limit, cursor)
  {
    var start := StartOf(list, cursor);
    var transactions := list[start..Min(start + limit + 1, |list|)];
    assert transactions == list[start..][..|transactions|];
    var hasMore := |transactions| > limit;
    var result := if hasMore then transactions[..limit] else transactions;
    page := Page(result, if hasMore && result != [] then Some(result[|result| - 1]) else None);
  }

  function PageAt(list: seq<Id>, limit: nat, cursor: Option<Id>): Page {
    var rest := list[StartOf(list, cursor)..];
    var data := rest[..Min(limit, |rest|)];
    Page(data, if |rest| > limit && data != [] then Some(data[|data| - 1]) else None)
  }

  lemma {:induction false} StartAfter(list: seq<Id>, n: nat)
    requires Distinct(list) && 0 < n <= |list|
    ensures StartOf(list, Some(list[n - 1])) == n
  {
    if n > 1 {
      assert list[1..][n - 2] == list[n - 1];
      StartAfter(list[1..], n - 1);
    }
  }

  /** The pages met by following `nextCursor`, at most `fuel` of them. */
  function Walk(list: seq<Id>, limit: nat, cursor: Option<Id>, fuel: nat): seq<seq<Id>>
    decreases fuel
  {
    if fuel == 0 then []
    else
      var page := PageAt(list, limit, cursor);
      [page.data] + if page.nextCursor.None? then [] else Walk(list, limit, page.nextCursor, fuel - 1)
  }

  function Concat(pages: seq<seq<Id>>): seq<Id> {
    if pages == [] then [] else pages[0] + Concat(pages[1..])
  }

  /** `max(1, ceil(n / limit))` */
  function PageCount(n: nat, limit: nat): nat
    requires limit > 0
  {
    if n <= limit then 1 else 1 + PageCount(n - limit, limit)
  }

  lemma {:induction false} PageCountIsCeiling(n: nat, limit: nat)
    requires limit > 0
    ensures (PageCount(n, limit) - 1) * limit <= n <= PageCount(n, limit) * limit
    ensures n > 0 ==> (PageCount(n, limit) - 1) * limit < n
  {
    if n > limit {
      PageCountIsCeiling(n - limit, limit);
    }
  }

  /** What one page shows from a given start. */
  lemma PageFrom(list: seq<Id>, limit: nat, start: nat, cursor: Option<Id>)
    requires limit > 0 && start <= |list| && StartOf(list, cursor) == start
    ensures PageAt(list, limit, cursor)
         == if |list| - start <= limit then Page(list[start..], None)
            else Page(list[start..start + limit], Some(list[start + limit - 1]))
  {
    hide StartOf;
    var rest := list[start..];
    assert rest[..|rest|] == rest;
    if |rest| > limit {
      assert rest[..limit] == list[start..start + limit];
    }
  }

  lemma {:induction false} WalkFrom(list: seq<Id>, limit: nat, start: nat, cursor: Option<Id>, fuel: nat)
    requires Distinct(list) && limit > 0 && start <= |list| && StartOf(list, cursor) == start
    requires fuel >= PageCount(|list| - start, limit)
    ensures |Walk(list, limit, cursor, fuel)| == PageCount(|list| - start, limit)
    ensures Concat(Walk(list, limit, cursor, fuel)) == list[start..]
    decreases |list| - start
  {
    hide StartOf, PageAt, Distinct, Concat;
    PageFrom(list, limit, start, cursor);
    if |list| - start <= limit {
      ConcatOne(list[start..], []);
      assert Walk(list, limit, cursor, fuel) == [list[start..]] + [];
    } else {
      var next := start + limit;
      StartAfter(list, next);
      WalkFrom(list, limit, next, Some(list[next - 1]), fuel - 1);
      ConcatOne(list[start..next], Walk(list, limit, Some(list[next - 1]), fuel - 1));
      assert Walk(list, limit, cursor, fuel)
          == [list[start..next]] + Walk(list, limit, Some(list[next - 1]), fuel - 1);
      assert list[start..next] + list[next..] == list[start..];
    }
  }

  lemma ConcatOne(page: seq<Id>, pages: seq<seq<Id>>)
    ensures Concat([]) == [] && Concat([page] + pages) == page + Concat(pages)
  {
    assert ([page] + pages)[1..] == pages;
  }

  /** A cursor that is not in the list shows nothing and leads nowhere. */
  lemma {:induction false} UnknownCursor(list: seq<Id>, limit: nat, cursor: Id)
    requires cursor !in list
    ensures StartOf(list, Some(cursor)) == |list|
    ensures PageAt(list, limit, Some(cursor)) == Page([], None)
  {
    if list != [] {
      UnknownCursor(list[1..], limit, cursor);
    }
  }

  /** Following the cursors ends after the right number of pages and shows every row exactly once. */
  lemma PagesCoverList(list: seq<Id>, limit: nat, fuel: nat)
    requires Distinct(list) && limit > 0 && fuel >= PageCount(|list|, limit)
    ensures |Walk(list, limit, None, fuel)| == PageCount(|list|, limit)
    ensures Concat(Walk(list, limit, None, fuel)) == list
  {
    WalkFrom(list, limit, 0, None, fuel);
  }

  /** `WalletService.getTransactions` forwards the page number but no cursor. */
  function ServicePage(list: seq<Id>, page: nat, limit: nat): Page {
    PageAt(list, limit, None)
  }

  /** So page numbers reach the whole history exactly when it fits on the first page. */
  lemma PageNumbersReachAll(list: seq<Id>, limit: nat)
    requires Distinct(list)
    ensures (forall x | x in list :: exists page: nat :: x in ServicePage(list, page, limit).data)
       <==> |list| <= limit
  {
    assert list[0..] == list;
    if |list| > limit {
      var x := list[limit];
      assert x in list && x !in list[..limit];
      forall page: nat
        ensures x !in ServicePage(list, page, limit).data
      {
        assert ServicePage(list, page, limit).data == list[..limit];
      }
    } else {
      forall x | x in list
        ensures exists page: nat :: x in ServicePage(list, page, limit).data
      {
        assert list[..|list|] == list;
        assert x in ServicePage(list, 1, limit).data;
      }
    }
  }
}
