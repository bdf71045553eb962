/** The allocator's progress through an item list, one line at a time. */
module Allocation {
  import opened Store
  import opened Fulfilment
  import opened Invariants

  /** Unit `u` is delivered to line `l`. */
  function Take(s: State, l: Line, u: Id): State
    requires u in Rows(s, l.productType) && l.id in s.items
  {
    var t := l.productType;
    WithRows(s, t, Rows(s, t)[u := Rows(s, t)[u].(status := UnitStatus.Delivered, orderItemId := Some(l.id))])
      .(items := s.items[l.id := WithSlot(s.items[l.id], t, u)])
  }

  /** AVAILABLE rows now, plus what the lines took, are the AVAILABLE rows at the start. */
  ghost predicate Balanced(s0: State, s: State, lines: seq<Line>) {
    forall t, p :: |Avail(Rows(s, t), p)| + Demand(lines, t, p) == |Avail(Rows(s0, t), p)|
  }

  /** From `s0` to `s` exactly the given lines were served; orders and products have not moved. */
  ghost predicate Progress(s0: State, s: State, lines: seq<Line>) {
    && s == s0.(keys := s.keys, accounts := s.accounts, items := s.items)
    && Allocated(s0, s, lines) && Balanced(s0, s, lines)
  }

  lemma ProgressStart(s0: State)
    ensures Progress(s0, s0, [])
  {
  }

  lemma AppendServed(pre: seq<Line>, l: Line)
    ensures Served(pre + [l]) == Served(pre) + if Wants(l) then {l.id} else {}
    ensures forall t, p ::
      Demand(pre + [l], t, p)
      == Demand(pre, t, p) + (if Wants(l) && l.productType == t && l.productId == p then 1 else 0)
  {
    var all := pre + [l];
    assert all[..|all| - 1] == pre && all[|all| - 1] == l;
    assert forall x :: x in all <==> x in pre || x == l;
  }

  lemma ProgressSkip(s0: State, s: State, pre: seq<Line>, l: Line)
    requires Progress(s0, s, pre) && !Wants(l)
    ensures Progress(s0, s, pre + [l])
  {
    AppendServed(pre, l);
    assert forall x :: x in pre + [l] <==> x in pre || x == l;
  }

  /** A row that moved is delivered and names the line that took it. */
  lemma MovedRow(s0: State, s: State, pre: seq<Line>, t: ProductType, u: Id)
    requires Allocated(s0, s, pre) && u in Rows(s0, t)
    ensures u in Rows(s, t)
    ensures Rows(s, t)[u] == Rows(s0, t)[u]
         || (Rows(s, t)[u].status.Delivered? && exists l :: l in pre && Rows(s, t)[u].orderItemId == Some(l.id))
  {
    if Rows(s, t)[u] != Rows(s0, t)[u] {
      var l :| l in pre && Took(s, l, t, u);
      assert Gets(s0, s, l);
    }
  }

  lemma TakeAvail(s: State, l: Line, u: Id, t: ProductType, p: Id)
    requires l.id in s.items && u in Avail(Rows(s, l.productType), l.productId)
    ensures Avail(Rows(Take(s, l, u), t), p)
         == Avail(Rows(s, t), p) - if t == l.productType && p == l.productId then {u} else {}
  {
  }

  lemma TakeBalanced(s0: State, s: State, pre: seq<Line>, l: Line, u: Id)
    requires Balanced(s0, s, pre) && Wants(l) && l.id in s.items
    requires u in Avail(Rows(s, l.productType), l.productId)
    ensures Balanced(s0, Take(s, l, u), pre + [l])
  {
    AppendServed(pre, l);
    forall t, p
      ensures |Avail(Rows(Take(s, l, u), t), p)| + Demand(pre + [l], t, p) == |Avail(Rows(s0, t), p)|
    {
      TakeAvail(s, l, u, t, p);
      assert |Avail(Rows(s, t), p)| + Demand(pre, t, p) == |Avail(Rows(s0, t), p)|;
    }
  }

  lemma TakeGets(s0: State, s: State, pre: seq<Line>, l: Line, u: Id)
    requires Allocated(s0, s, pre) && Wants(l) && l.id in s0.items && l.id !in Ids(pre)
    requires u in Avail(Rows(s, l.productType), l.productId)
    ensures l.id in s.items && Gets(s0, Take(s, l, u), l)
  {
    assert u in Rows(s0, l.productType);
    MovedRow(s0, s, pre, l.productType, u);
    assert s.items[l.id] == s0.items[l.id];
  }

  /** A line served before keeps its unit. */
  lemma StillGets(s0: State, s: State, l: Line, u: Id, x: Line)
    requires Gets(s0, s, x) && l.id in s.items && x.id != l.id
    requires u in Avail(Rows(s, l.productType), l.productId)
    ensures Gets(s0, Take(s, l, u), x)
  {
  }

  lemma AllGet(s0: State, s: State, pre: seq<Line>, l: Line, u: Id)
    requires Allocated(s0, s, pre) && Wants(l) && l.id in s0.items && l.id !in Ids(pre)
    requires u in Avail(Rows(s, l.productType), l.productId)
    ensures l.id in s.items
    ensures forall x | x in pre + [l] && Wants(x) :: Gets(s0, Take(s, l, u), x)
  {
    forall x | x in pre + [l] && Wants(x)
      ensures Gets(s0, Take(s, l, u), x)
    {
      TakeGets(s0, s, pre, l, u);
      if x in pre {
        assert Gets(s0, s, x) && x.id in Ids(pre);
        StillGets(s0, s, l, u, x);
      }
    }
  }

  lemma TakeRows(s0: State, s: State, pre: seq<Line>, l: Line, u: Id, t: ProductType, v: Id)
    requires Allocated(s0, s, pre) && Wants(l) && l.id in s.items && l.id !in Ids(pre)
    requires u in Avail(Rows(s, l.productType), l.productId) && v in Rows(s0, t)
    ensures v in Rows(Take(s, l, u), t)
    ensures Rows(Take(s, l, u), t)[v] == Rows(s0, t)[v]
         || exists x :: x in pre + [l] && Took(Take(s, l, u), x, t, v)
  {
    hide Gets, Served;
    var s', all := Take(s, l, u), pre + [l];
    if t == l.productType && v == u {
      assert l in all && Took(s', l, t, v);
    } else if Rows(s, t)[v] != Rows(s0, t)[v] {
      var x :| x in pre && Took(s, x, t, v);
      assert x.id in Ids(pre);
      assert x in all && Took(s', x, t, v);
    }
  }

  /** No key appears or goes, and only items that were served have changed. */
  lemma TakeItems(s0: State, s: State, pre: seq<Line>, l: Line, u: Id)
    requires Allocated(s0, s, pre) && Wants(l) && l.id in s0.items
    requires u in Avail(Rows(s, l.productType), l.productId)
    ensures l.id in s.items
    ensures var s' := Take(s, l, u);
      && s'.items.Keys == s0.items.Keys && s'.keys.Keys == s0.keys.Keys && s'.accounts.Keys == s0.accounts.Keys
      && forall i | i in s0.items && i !in Served(pre + [l]) :: s'.items[i] == s0.items[i]
  {
    hide Gets, Took, Wants, Demand, Served;
    AppendServed(pre, l);
  }

  lemma TakeAllocated(s0: State, s: State, pre: seq<Line>, l: Line, u: Id)
    requires Allocated(s0, s, pre) && Wants(l) && l.id in s0.items && l.id !in Ids(pre)
    requires u in Avail(Rows(s, l.productType), l.productId)
    ensures l.id in s.items && Allocated(s0, Take(s, l, u), pre + [l])
  {
    var s', all := Take(s, l, u), pre + [l];
    hide Gets, Took, Served;
    AllGet(s0, s, pre, l, u);
    TakeItems(s0, s, pre, l, u);
    forall t, v | v in Rows(s0, t)
      ensures v in Rows(s', t)
      ensures Rows(s', t)[v] == Rows(s0, t)[v] || exists x :: x in all && Took(s', x, t, v)
    {
      TakeRows(s0, s, pre, l, u, t, v);
    }
  }

  lemma ProgressTake(s0: State, s: State, pre: seq<Line>, l: Line, u: Id)
    requires Progress(s0, s, pre) && Wants(l) && l.id in s0.items && l.id !in Ids(pre)
    requires u in Avail(Rows(s, l.productType), l.productId)
    ensures l.id in s.items && Progress(s0, Take(s, l, u), pre + [l])
  {
    TakeAllocated(s0, s, pre, l, u);
    TakeBalanced(s0, s, pre, l, u);
  }

  lemma {:induction false} DemandGrows(lines: seq<Line>, n: nat, t: ProductType, p: Id)
    requires n <= |lines|
    ensures Demand(lines[..n], t, p) <= Demand(lines, t, p)
  {
    if n < |lines| {
      DemandGrows(lines[..|lines| - 1], n, t, p);
      assert lines[..|lines| - 1][..n] == lines[..n];
    } else {
      assert lines[..n] == lines;
    }
  }

  /** No AVAILABLE unit left for line `n`: the whole order asks for more than there was. */
  lemma OutOfUnits(s0: State, s: State, o: Id, lines: seq<Line>, n: nat)
    requires n < |lines| && Progress(s0, s, lines[..n]) && Wants(lines[n])
    requires Avail(Rows(s, lines[n].productType), lines[n].productId) == {}
    ensures !CanDeliver(s0, o, lines)
  {
    var l := lines[n];
    AppendServed(lines[..n], l);
    assert lines[..n + 1] == lines[..n] + [l];
    DemandGrows(lines, n + 1, l.productType, l.productId);
  }

  /** The unique index refuses line `n` exactly because it refused it at the start. */
  lemma NamedFromStart(s0: State, s: State, lines: seq<Line>, n: nat)
    requires n < |lines| && DistinctIds(lines) && Allocated(s0, s, lines[..n]) && FreeRows(s0)
    ensures Named(Rows(s, lines[n].productType), lines[n].id)
       <==> Named(Rows(s0, lines[n].productType), lines[n].id)
  {
    var t, i := lines[n].productType, lines[n].id;
    if Named(Rows(s, t), i) {
      var u :| u in Rows(s, t) && Rows(s, t)[u].orderItemId == Some(i);
      assert u in Rows(s0, t);
      MovedRow(s0, s, lines[..n], t, u);
    }
    if Named(Rows(s0, t), i) {
      var u :| u in Rows(s0, t) && Rows(s0, t)[u].orderItemId == Some(i);
      NamedStays(s0, s, lines[..n], t, u);
    }
  }

  lemma NamedStays(s0: State, s: State, pre: seq<Line>, t: ProductType, u: Id)
    requires Allocated(s0, s, pre) && u in Rows(s0, t)
    ensures u in Rows(s, t)
    ensures Rows(s0, t)[u].orderItemId != Rows(s, t)[u].orderItemId ==> Rows(s0, t)[u].status.Available?
  {
    if Rows(s, t)[u] != Rows(s0, t)[u] {
      var l :| l in pre && Took(s, l, t, u);
      assert Gets(s0, s, l);
    }
  }
}
