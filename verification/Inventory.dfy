/** `KeysRepository`, `AccountsRepository` and `ProductsRepository` over the tables. */
module Inventory {
  import opened Store
  import opened Fulfilment
  import opened Text

  datatype ImportResult = ImportResult(imported: nat, failed: nat, errors: seq<string>)

  /** How many of the attempts succeed. */
  function Successes(attempts: seq<bool>): nat {
    if attempts == [] then 0
    else Successes(attempts[..|attempts| - 1]) + if attempts[|attempts| - 1] then 1 else 0
  }

  /** It is the number of attempts that are true. */
  lemma {:induction false} SuccessesExactly(attempts: seq<bool>)
    ensures Successes(attempts) == |set n | 0 <= n < |attempts| && attempts[n]|
  {
    if attempts != [] {
      var front := attempts[..|attempts| - 1];
      SuccessesExactly(front);
      var before := set n | 0 <= n < |front| && front[n];
      var after := set n | 0 <= n < |attempts| && attempts[n];
      if attempts[|attempts| - 1] {
        assert after == before + {|attempts| - 1};
      } else {
        assert after == before;
      }
    }
  }

  lemma RowsGrow(rows: map<Id, Unit>, first: Id, p: Id, n: nat)
    ensures rows + NewRows(first, p, n) + NewRows(first + n, p, 1) == rows + NewRows(first, p, n + 1)
  {
    hide NewRows;
    var left := rows + NewRows(first, p, n) + NewRows(first + n, p, 1);
    var right := rows + NewRows(first, p, n + 1);
    assert forall u :: u in left <==> u in right;
    assert forall u | u in left :: left[u] == right[u];
  }

  lemma InsertedOneMore(s: State, t: ProductType, p: Id, n: nat)
    ensures Inserted(Inserted(s, t, p, n), t, p, 1) == Inserted(s, t, p, n + 1)
  {
    hide NewRows, Rows, WithRows;
    var rows, first := Rows(s, t), s.nextId;
    RowsGrow(rows, first, p, n);
    var some, one := rows + NewRows(first, p, n), NewRows(first + n, p, 1);
    SetTwice(s, t, some, some + one, first + n, first + n + 1);
  }

  lemma SetTwice(s: State, t: ProductType, a: map<Id, Unit>, b: map<Id, Unit>, m: Id, n: Id)
    ensures var s1 := WithRows(s, t, a).(nextId := m);
      Rows(s1, t) == a && WithRows(s1, t, b).(nextId := n) == WithRows(s, t, b).(nextId := n)
  {
  }

  lemma InsertedNone(s: State, t: ProductType, p: Id)
    ensures Inserted(s, t, p, 0) == s
  {
    assert Rows(s, t) + NewRows(s.nextId, p, 0) == Rows(s, t);
  }

  class UnitTable {
    const db: Database
    const kind: ProductType

    constructor (db: Database, kind: ProductType)
      ensures this.db == db && this.kind == kind
    {
      this.db := db;
      this.kind := kind;
    }

    method SyncProductStock(p: Id)
      requires p in db.products
      modifies db
      ensures db.View() == SyncUnitSide(old(db.View()), kind, p)
    {
      var rows := db.Table(kind);
      var available := |set u | u in rows && rows[u].productId == p && rows[u].status.Available?|;
      assert Avail(rows, p) == set u | u in rows && rows[u].productId == p && rows[u].status.Available?;
      db.products := db.products[p := db.products[p].(stock := available)];
    }

    /** `createMany`: all rows at once. */
    method InsertMany(p: Id, n: nat)
      modifies db
      ensures db.View() == Inserted(old(db.View()), kind, p, n)
    {
      var first := db.nextId;
      var rows := db.Table(kind);
      db.SetTable(kind, rows + NewRows(first, p, n));
      db.nextId := first + n;
    }

    method InsertOne(p: Id, ghost s0: State, ghost n: nat)
      requires db.View() == Inserted(s0, kind, p, n)
      modifies db
      ensures db.View() == Inserted(s0, kind, p, n + 1)
    {
      InsertedOneMore(s0, kind, p, n);
      InsertMany(p, 1);
    }

    /** The fallback after a failed bulk insert: row by row, counting what is stored. */
    method InsertEach(p: Id, attempts: seq<bool>, message: string)
      returns (stored: nat, failed: nat, errors: seq<string>)
      modifies db
      ensures stored == Successes(attempts) && stored + failed == |attempts| && |errors| == failed
      ensures db.View() == Inserted(old(db.View()), kind, p, stored)
    {
      hide Inserted;
      ghost var s0 := db.View();
      stored, failed, errors := 0, 0, [];
      InsertedNone(s0, kind, p);
      for n := 0 to |attempts|
        invariant stored == Successes(attempts[..n]) && stored + failed == n && |errors| == failed
        invariant db.View() == Inserted(s0, kind, p, stored)
      {
        assert attempts[..n + 1][..n] == attempts[..n];
        if attempts[n] {
          InsertOne(p, s0, stored);
          stored := stored + 1;
        } else {
          failed := failed + 1;
          errors := errors + [message];
        }
      }
      assert attempts[..|attempts|] == attempts;
    }

    method Delete(u: Id) returns (ok: bool)
      modifies db
      ensures ok <==> DeleteUnit(old(db.View()), kind, u).Some?
      ensures db.View() == if ok then DeleteUnit(old(db.View()), kind, u).value else old(db.View())
    {
      var rows := db.Table(kind);
      if u !in rows || !rows[u].status.Available? || rows[u].productId !in db.products {
        return false;
      }
      db.SetTable(kind, rows - {u});
      SyncProductStock(rows[u].productId);
      return true;
    }

    /** `deliverKey` and `deliverAccount`. */
    method Deliver(u: Id) returns (ok: bool)
      modifies db
      ensures ok <==> MarkDelivered(old(db.View()), kind, u).Some?
      ensures db.View() == if ok then MarkDelivered(old(db.View()), kind, u).value else old(db.View())
    {
      var rows := db.Table(kind);
      if u !in rows || rows[u].productId !in db.products {
        return false;
      }
      db.SetTable(kind, rows[u := rows[u].(status := UnitStatus.Delivered)]);
      SyncProductStock(rows[u].productId);
      return true;
    }
  }

  class KeysRepository {
    const db: Database
    const table: UnitTable

    constructor (db: Database)
      ensures this.db == db && table.db == db && table.kind == Key
    {
      this.db := db;
      this.table := new UnitTable(db, Key);
    }

    /**
     Import of a list of keys. `encrypts` says which keys the encryption accepts, `bulk`
     whether the bulk insert works, `usable` whether the transaction still takes statements after
     a bulk insert that did not, and `attempts` which single inserts would work then. `None` is the
     error that the closing stock update raises, for a missing product or an unusable transaction.
     */
    method CreateBatch(
      p: Id, keys: seq<string>, encrypts: string -> bool, bulk: bool, usable: bool, attempts: seq<bool>)
      returns (r: Option<ImportResult>)
      requires table.db == db && table.kind == Key
      requires |attempts| == Successes(seq(|keys|, i requires 0 <= i < |keys| => encrypts(keys[i])))
      modifies db
      ensures r.None? <==> |attempts| > 0 && (p !in old(db.products) || (!bulk && !usable))
      ensures r.Some? ==> r.value.imported + r.value.failed == |keys| && |r.value.errors| == r.value.failed
      ensures r.Some? ==> r.value.imported == if bulk then |attempts| else Successes(attempts)
      ensures db.View() == if r.Some? && |attempts| > 0
        then Import(old(db.View()), Key, p, r.value.imported) else old(db.View())
    {
      var failed, errors, encrypted := 0, [], 0;
      ghost var accepted := seq(|keys|, i requires 0 <= i < |keys| => encrypts(keys[i]));
      for n := 0 to |keys|
        invariant encrypted == Successes(accepted[..n])
        invariant encrypted + failed == n && |errors| == failed
      {
        assert accepted[..n + 1][..n] == accepted[..n];
        if encrypts(keys[n]) {
          encrypted := encrypted + 1;
        } else {
          failed := failed + 1;
          errors := errors + ["Failed to encrypt key"];
        }
      }
      assert accepted[..|keys|] == accepted;
      if encrypted == 0 {
        return Some(ImportResult(0, failed, errors));
      }
      if p !in db.products || (!bulk && !usable) {
        return None;
      }
      var imported := encrypted;
      if bulk {
        table.InsertMany(p, encrypted);
      } else {
        var bad, messages;
        imported, bad, messages := table.InsertEach(p, attempts, "Failed to import key");
        failed, errors := failed + bad, errors + messages;
      }
      table.SyncProductStock(p);
      return Some(ImportResult(imported, failed, errors));
    }

    method ReserveKey(u: Id, itemId: Id) returns (ok: bool)
      requires table.db == db && table.kind == Key
      modifies db
      ensures ok <==> Fulfilment.ReserveKey(old(db.View()), u, itemId).Some?
      ensures db.View() == if ok
        then Fulfilment.ReserveKey(old(db.View()), u, itemId).value else old(db.View())
    {
      if u !in db.keys || !db.keys[u].status.Available?
         || Named(db.keys, itemId) || db.keys[u].productId !in db.products
      {
        return false;
      }
      var p := db.keys[u].productId;
      db.keys := db.keys[u := db.keys[u].(status := UnitStatus.Reserved, orderItemId := Some(itemId))];
      table.SyncProductStock(p);
      return true;
    }
  }

  // ---- accounts ----

  datatype AccountLine =
    | Credentials(email: string, password: string, metadata: Option<string>)
    | BadLine(error: string)

  /** `email:password` or `email:password:json`; `isJson` stands for `JSON.parse` succeeding. */
  function ParseAccountLine(line: string, isJson: string -> bool): AccountLine {
    var trimmed := Trim(line);
    if trimmed == "" || trimmed[0] == '#' then BadLine("Empty or comment line")
    else
      var first := IndexOf(trimmed, ':');
      if first == -1 then BadLine("Invalid format. Expected email:password")
      else
        var email := Trim(trimmed[..first]);
        var rest := Trim(trimmed[first + 1..]);
        var second := IndexOf(rest, ':');
        var password := if second == -1 then rest else Trim(rest[..second]);
        var metadata := if second == -1 then None else Some(Trim(rest[second + 1..]));
        if metadata.Some? && !isJson(metadata.value) then BadLine("Invalid JSON metadata after password")
        else if email == "" || password == "" then BadLine("Email and password are required")
        else Credentials(email, password, metadata)
  }

  /** A field that can be written into a line and read back. */
  predicate Plain(s: string) {
    s != "" && Tidy(s) && ':' !in s
  }

  lemma FirstColon(a: string, b: string)
    requires ':' !in a
    ensures IndexOf(a + ":" + b, ':') == |a|
    ensures (a + ":" + b)[..|a|] == a && (a + ":" + b)[|a| + 1..] == b
  {
    var s := a + ":" + b;
    assert s[..|a|] == a && s[|a|] == ':' && s[|a| + 1..] == b;
    IndexIsFirst(s, ':', |a|);
  }

  /** Reading back a printed account line; a comment sign may not open the line. */
  lemma AccountLineRoundTrip(email: string, password: string, isJson: string -> bool)
    requires Plain(email) && Plain(password) && email[0] != '#'
    ensures ParseAccountLine(email + ":" + password, isJson) == Credentials(email, password, None)
  {
    var line := email + ":" + password;
    assert line[0] == email[0] && line[|line| - 1] == password[|password| - 1];
    TidyIsTrimmed(line);
    FirstColon(email, password);
    TidyIsTrimmed(email);
    TidyIsTrimmed(password);
  }

  /** The metadata may contain colons: only the first two separate fields. */
  lemma AccountMetadataRoundTrip(email: string, password: string, json: string, isJson: string -> bool)
    requires Plain(email) && Plain(password) && email[0] != '#'
    requires json != "" && Tidy(json)
    ensures ParseAccountLine(email + ":" + password + ":" + json, isJson)
         == if isJson(json) then Credentials(email, password, Some(json))
            else BadLine("Invalid JSON metadata after password")
  {
    var rest := password + ":" + json;
    var line := email + ":" + password + ":" + json;
    assert line == email + ":" + rest;
    assert line[0] == email[0] && line[|line| - 1] == json[|json| - 1];
    assert rest[0] == password[0] && rest[|rest| - 1] == json[|json| - 1];
    TidyIsTrimmed(line);
    TidyIsTrimmed(rest);
    FirstColon(email, rest);
    FirstColon(password, json);
    TidyIsTrimmed(email);
    TidyIsTrimmed(password);
    TidyIsTrimmed(json);
  }

  /** A line of white space, or one that begins with a comment sign, is refused as such. */
  lemma CommentRefused(line: string, isJson: string -> bool)
    requires Trim(line) == "" || Trim(line)[0] == '#'
    ensures ParseAccountLine(line, isJson) == BadLine("Empty or comment line")
  {
  }

  /** A line without a colon is refused as having the wrong format. */
  lemma NoColonRefused(line: string, isJson: string -> bool)
    requires Trim(line) != "" && Trim(line)[0] != '#' && ':' !in Trim(line)
    ensures ParseAccountLine(line, isJson) == BadLine("Invalid format. Expected email:password")
  {
  }

  /** Two parts, with white space around them: both are needed. */
  lemma TwoParts(line: string, email: string, password: string, isJson: string -> bool)
    requires Trim(line) == email + ":" + password && ':' !in email && ':' !in password
    requires Trim(line)[0] != '#'
    ensures ParseAccountLine(line, isJson) ==
      if Trim(email) == "" || Trim(password) == "" then BadLine("Email and password are required")
      else Credentials(Trim(email), Trim(password), None)
  {
    hide IndexOf, Trim;
    FirstColon(email, password);
    NoColonIn(password);
  }

  /** Three parts: the third must be JSON, and only then are the other two looked at. */
  lemma ThreeParts(line: string, email: string, rest: string, password: string, json: string, isJson: string -> bool)
    requires Trim(line) == email + ":" + rest && ':' !in email && Trim(line)[0] != '#'
    requires Trim(rest) == password + ":" + json && ':' !in password
    ensures ParseAccountLine(line, isJson) ==
      if !isJson(Trim(json)) then BadLine("Invalid JSON metadata after password")
      else if Trim(email) == "" || Trim(password) == "" then BadLine("Email and password are required")
      else Credentials(Trim(email), Trim(password), Some(Trim(json)))
  {
    hide IndexOf, Trim;
    FirstColon(email, rest);
    FirstColon(password, json);
  }

  lemma NoColonIn(s: string)
    requires ':' !in s
    ensures IndexOf(Trim(s), ':') == -1
  {
    hide IndexOf, Trim;
    TrimChars(s);
  }

  function Parsed(lines: seq<string>, isJson: string -> bool): nat {
    Successes(seq(|lines|, i requires 0 <= i < |lines| => ParseAccountLine(lines[i], isJson).Credentials?))
  }

  class AccountsRepository {
    const db: Database
    const table: UnitTable

    constructor (db: Database)
      ensures this.db == db && table.db == db && table.kind == Account
    {
      this.db := db;
      this.table := new UnitTable(db, Account);
    }

    /**
     Import of account lines. Every line ends up imported or failed, with one message per
     failure; exactly `imported` AVAILABLE rows are new, and the stock is synchronised whenever
     a line parsed. `None` is the error for a product that is missing or not of type ACCOUNT.
     */
    method CreateBatch(p: Id, lines: seq<string>, isJson: string -> bool, bulk: bool, attempts: seq<bool>)
      returns (r: Option<ImportResult>)
      requires table.db == db && table.kind == Account
      requires |attempts| == Parsed(lines, isJson)
      modifies db
      ensures r.None? <==>
        |attempts| > 0 && (p !in old(db.products) || !old(db.products)[p].productType.Account?)
      ensures r.Some? ==> r.value.imported + r.value.failed == |lines| && |r.value.errors| == r.value.failed
      ensures r.Some? ==> r.value.imported == if bulk then |attempts| else Successes(attempts)
      ensures db.View() == if r.Some? && |attempts| > 0
        then Import(old(db.View()), Account, p, r.value.imported) else old(db.View())
    {
      hide ParseAccountLine, SyncUnitSide;
      var failed, errors, parsed := 0, [], 0;
      ghost var accepted :=
        seq(|lines|, i requires 0 <= i < |lines| => ParseAccountLine(lines[i], isJson).Credentials?);
      for n := 0 to |lines|
        invariant parsed == Successes(accepted[..n])
        invariant parsed + failed == n && |errors| == failed
      {
        assert accepted[..n + 1][..n] == accepted[..n];
        var line := ParseAccountLine(lines[n], isJson);
        if line.Credentials? {
          parsed := parsed + 1;
        } else {
          failed := failed + 1;
          errors := errors + [line.error];
        }
      }
      assert accepted[..|lines|] == accepted;
      if parsed == 0 {
        return Some(ImportResult(0, failed, errors));
      }
      if p !in db.products || !db.products[p].productType.Account? {
        return None;
      }
      var imported := parsed;
      if bulk {
        table.InsertMany(p, parsed);
      } else {
        var bad, messages;
        imported, bad, messages := table.InsertEach(p, attempts, "Failed to import");
        failed, errors := failed + bad, errors + messages;
      }
      table.SyncProductStock(p);
      return Some(ImportResult(imported, failed, errors));
    }
  }

  // ---- products ----

  class ProductsRepository {
    const db: Database

    constructor (db: Database)
      ensures this.db == db
    {
      this.db := db;
    }

    /** A new product may start active only if some unit of its type is AVAILABLE, for any product. */
    method Create(t: ProductType, price: real, stock: int, isActive: bool) returns (ok: bool)
      modifies db
      ensures ok <==> CreateProduct(old(db.View()), t, price, stock, isActive).Some?
      ensures db.View() == if ok
        then CreateProduct(old(db.View()), t, price, stock, isActive).value else old(db.View())
    {
      var rows := db.Table(t);
      if isActive && !exists u | u in rows :: rows[u].status.Available? {
        return false;
      }
      db.products := db.products[db.nextId := Product(price, stock, isActive, t)];
      db.nextId := db.nextId + 1;
      return true;
    }

    /** Stock follows the inventory rows when there are any; otherwise it is the number given. */
    method Update(p: Id, price: real, stock: Option<int>, isActive: Option<bool>) returns (ok: bool)
      modifies db
      ensures ok <==> UpdateProduct(old(db.View()), p, price, stock, isActive).Some?
      ensures db.View() == if ok
        then UpdateProduct(old(db.View()), p, price, stock, isActive).value else old(db.View())
    {
      if p !in db.products {
        return false;
      }
      ghost var s := db.View();
      assert Rows(s, Key) == db.keys && Rows(s, Account) == db.accounts;
      var product := db.products[p];
      var hasKeys := exists u | u in db.keys :: db.keys[u].productId == p;
      var hasAccounts := exists u | u in db.accounts :: db.accounts[u].productId == p;
      assert hasKeys == HasRows(s, Key, p) && hasAccounts == HasRows(s, Account, p);
      var keys, accounts := |Avail(db.keys, p)|, |Avail(db.accounts, p)|;
      var shouldBeActive := if isActive.Some? then isActive.value else product.isActive;
      if shouldBeActive && (if product.productType.Account? then accounts else keys) <= 0 {
        return false;
      }
      var derived := if product.productType.Account? || (hasAccounts && !hasKeys) then accounts else keys;
      var manual := if stock.Some? then stock.value else product.stock;
      db.products := db.products[p := Product(
        price, if hasKeys || hasAccounts then derived else manual, shouldBeActive, product.productType)];
      return true;
    }

    method Delete(p: Id) returns (ok: bool)
      modifies db
      ensures ok <==> DeleteProduct(old(db.View()), p).Some?
      ensures db.View() == if ok then DeleteProduct(old(db.View()), p).value else old(db.View())
    {
      if p !in db.products || exists i | i in db.items :: db.items[i].productId == p {
        return false;
      }
      db.products := db.products - {p};
      db.keys := map u | u in db.keys && db.keys[u].productId != p :: db.keys[u];
      db.accounts := map u | u in db.accounts && db.accounts[u].productId != p :: db.accounts[u];
      assert db.keys == RowsWithout(old(db.keys), p) && db.accounts == RowsWithout(old(db.accounts), p);
      return true;
    }
  }
}
