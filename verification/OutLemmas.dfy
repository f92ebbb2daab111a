/** Facts about outstanding items and about the sum of block tables. */
module OutLemmas {
  import opened Types
  import opened Blocks
  import opened State
  import opened Invariant

  lemma {:induction false} OfConcat(a: seq<WorkItem>, b: seq<WorkItem>, q: SeqId)
    ensures Of(a + b, q) == Of(a, q) + Of(b, q)
    decreases |a|
  {
    if a == [] {
      assert a + b == b;
    } else {
      OfConcat(a[1..], b, q);
      assert (a + b)[1..] == a[1..] + b;
    }
  }

  lemma {:induction false} TotalsConcat(a: seq<WorkItem>, b: seq<WorkItem>)
    ensures var x, y := Totals(a), Totals(b);
      Totals(a + b) == Reservation(x.leases + y.leases, x.prompt + y.prompt, x.gen + y.gen, x.kv + y.kv)
    decreases |a|
  {
    if a == [] {
      assert a + b == b;
    } else {
      TotalsConcat(a[1..], b);
      assert (a + b)[1..] == a[1..] + b;
    }
  }

  /** Position after the last item. */
  function End(items: seq<WorkItem>, lo: nat): nat
    decreases |items|
  {
    if items == [] then lo else End(items[1..], items[0].context + KvCount(items[0]))
  }

  lemma {:induction false} OrderedConcat(a: seq<WorkItem>, b: seq<WorkItem>, lo: nat)
    ensures Ordered(a + b, lo) <==> Ordered(a, lo) && Ordered(b, End(a, lo))
    decreases |a|
  {
    if a == [] {
      assert a + b == b;
    } else {
      OrderedConcat(a[1..], b, a[0].context + KvCount(a[0]));
      assert (a + b)[1..] == a[1..] + b;
    }
  }

  lemma OrderedLower(items: seq<WorkItem>, lo: nat, lo': nat)
    requires Ordered(items, lo) && lo' <= lo
    ensures Ordered(items, lo')
  {
  }

  lemma {:induction false} EndGrows(items: seq<WorkItem>, lo: nat)
    requires Ordered(items, lo)
    ensures lo <= End(items, lo)
    decreases |items|
  {
    if items != [] {
      EndGrows(items[1..], items[0].context + KvCount(items[0]));
    }
  }

  /** Dropping an item anywhere keeps the order. */
  lemma OrderedDrop(a: seq<WorkItem>, x: WorkItem, b: seq<WorkItem>, lo: nat)
    requires Ordered(a + [x] + b, lo)
    ensures Ordered(a + b, lo)
  {
    OrderedConcat(a + [x], b, lo);
    OrderedConcat(a, [x], lo);
    OrderedConcat(a, b, lo);
    EndConcat(a, [x], lo);
    EndGrows([x], End(a, lo));
    assert Ordered([x][1..], 0);
    OrderedLower(b, End(a + [x], lo), End(a, lo));
  }

  lemma {:induction false} EndConcat(a: seq<WorkItem>, b: seq<WorkItem>, lo: nat)
    ensures End(a + b, lo) == End(b, End(a, lo))
    decreases |a|
  {
    if a == [] {
      assert a + b == b;
    } else {
      EndConcat(a[1..], b, a[0].context + KvCount(a[0]));
      assert (a + b)[1..] == a[1..] + b;
    }
  }

  // ---------------------------------------------------------------- lists of an active sequence

  lemma {:induction false} PrefillItemsOrdered(items: seq<WorkItem>, from: nat, prompt: seq<Token>, silent: bool)
    requires PrefillItems(items, from, prompt, silent) && from <= |prompt|
    ensures Ordered(items, from)
    ensures End(items, from) == from + Totals(items).kv <= |prompt|
    ensures Totals(items).prompt == Totals(items).kv
    ensures from + Totals(items).kv < |prompt| || silent ==> Totals(items).gen == 0
    ensures from < |prompt| ==> Totals(items).gen <= 1
    ensures from == |prompt| ==> items == []
    decreases |items|
  {
    if items != [] {
      PrefillItemsOrdered(items[1..], from + |items[0].tokens|, prompt, silent);
    }
  }

  lemma {:induction false} PrefillItemsSnoc(items: seq<WorkItem>, x: WorkItem, from: nat, prompt: seq<Token>,
          silent: bool)
    requires PrefillItems(items, from, prompt, silent)
    requires PrefillItems([x], from + Totals(items).kv, prompt, silent)
    ensures PrefillItems(items + [x], from, prompt, silent)
    decreases |items|
  {
    if items == [] {
      assert items + [x] == [x];
    } else {
      PrefillItemsSnoc(items[1..], x, from + |items[0].tokens|, prompt, silent);
      assert (items + [x])[1..] == items[1..] + [x] && (items + [x])[0] == items[0];
    }
  }

  lemma {:induction false} DecodeItemsOrdered(items: seq<WorkItem>, from: nat)
    requires DecodeItems(items, from)
    ensures Ordered(items, from)
    ensures End(items, from) == from + Totals(items).kv
    ensures Totals(items).kv == Totals(items).gen == |items|
    ensures Totals(items).prompt == 0
    decreases |items|
  {
    if items != [] {
      DecodeItemsOrdered(items[1..], from + 1);
    }
  }

  lemma {:induction false} DecodeItemsSnoc(items: seq<WorkItem>, x: WorkItem, from: nat)
    requires DecodeItems(items, from)
    requires DecodeItems([x], from + |items|)
    ensures DecodeItems(items + [x], from)
    decreases |items|
  {
    if items == [] {
      assert items + [x] == [x];
    } else {
      DecodeItemsSnoc(items[1..], x, from + 1);
      assert (items + [x])[1..] == items[1..] + [x];
    }
  }

  // ---------------------------------------------------------------- sums of tables

  lemma {:induction false} OwnedFrame(objs: map<Ticket, Request>, objs': map<Ticket, Request>, n: nat, b: BlockId)
    requires forall t: Ticket | t < n :: TableOf(objs, t) == TableOf(objs', t)
    ensures Owned(objs, n, b) == Owned(objs', n, b)
  {
    if n > 0 {
      OwnedFrame(objs, objs', n - 1, b);
    }
  }

  lemma {:induction false} OwnedUpdate(objs: map<Ticket, Request>, objs': map<Ticket, Request>, t: Ticket, n: nat,
          b: BlockId)
    requires t < n
    requires forall u: Ticket | u < n && u != t :: TableOf(objs, u) == TableOf(objs', u)
    ensures Owned(objs', n, b) + multiset(TableOf(objs, t))[b] == Owned(objs, n, b) + multiset(TableOf(objs', t))[b]
  {
    if t == n - 1 {
      OwnedFrame(objs, objs', n - 1, b);
    } else {
      OwnedUpdate(objs, objs', t, n - 1, b);
    }
  }

  lemma {:induction false} OwnedAtLeast(objs: map<Ticket, Request>, t: Ticket, n: nat, b: BlockId)
    requires t < n
    ensures multiset(TableOf(objs, t))[b] <= Owned(objs, n, b)
  {
    if t < n - 1 {
      OwnedAtLeast(objs, t, n - 1, b);
    }
  }

  lemma {:induction false} OwnedTwo(objs: map<Ticket, Request>, t: Ticket, u: Ticket, n: nat, b: BlockId)
    requires t < u < n
    ensures multiset(TableOf(objs, t))[b] + multiset(TableOf(objs, u))[b] <= Owned(objs, n, b)
  {
    if u == n - 1 {
      OwnedAtLeast(objs, t, n - 1, b);
    } else {
      OwnedTwo(objs, t, u, n - 1, b);
    }
  }
}
