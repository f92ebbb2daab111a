/** What building and retiring one work item does to one sequence. */
module SequenceLemmas {
  import opened Types
  import opened Blocks
  import opened State
  import opened Scheduling
  import opened Invariant
  import opened OutLemmas

  lemma ReserveTotals(q: Sequence, items: seq<WorkItem>, x: WorkItem)
    requires q.res == Totals(items)
    ensures Reserve(q, x).res == Totals(items + [x])
  {
    TotalsConcat(items, [x]);
    assert [x][1..] == [];
  }

  /** Appending an item at the end of the claimed positions keeps the booking. */
  lemma BookedSnoc(c: Config, r: Request, q: Sequence, items: seq<WorkItem>, x: WorkItem)
    requires Booked(c, r, q, items)
    requires End(items, q.frontier) <= x.context == q.frontier + q.res.kv
    requires x.seqId == q.seqId && x.table == q.table && (x.PrefillChunk? ==> 0 < |x.tokens|)
    requires x.context + KvCount(x) <= Cap(c, |q.table|)
    requires x.context + KvCount(x) <= r.maxContext
    requires |r.generated| + q.res.gen + GenCount(x) <= r.maxTokens
    ensures Booked(c, r, Reserve(q, x), items + [x])
  {
    assert q.table != [];
    hide Cap;
    ReserveTotals(q, items, x);
    OrderedConcat(items, [x], q.frontier);
    assert Ordered([x][1..], 0);
    forall y | y in items + [x] ensures ItemFits(c, y, Reserve(q, x)) {
      assert y in items || y == x;
    }
  }

  lemma BuildPrefillSeq(c: Config, r: Request, q: Sequence, items: seq<WorkItem>, budget: nat)
    requires Booked(c, r, q, items) && Live(r, q, items)
    requires IsPrefill(q.phase) && q.cursor + q.res.prompt < |r.prompt|
    requires |r.generated| < r.maxTokens && budget > 0
    ensures var x := NextChunk(c, r, q, budget);
      && Booked(c, r, Reserve(q, x), items + [x])
      && Live(r, Reserve(q, x), items + [x])
      && x.start + |x.tokens| <= |r.prompt|
  {
    hide Cap;
    var silent := q.phase == ReplayPrefill;
    PrefillItemsOrdered(items, q.frontier, r.prompt, silent);
    var x := NextChunk(c, r, q, budget);
    BookedSnoc(c, r, q, items, x);
    PrefillItemsSnoc(items, x, q.frontier, r.prompt, silent);
  }

  lemma BuildDecodeSeq(c: Config, r: Request, q: Sequence, items: seq<WorkItem>)
    requires Booked(c, r, q, items) && Live(r, q, items)
    requires !IsPrefill(q.phase)
    requires |r.generated| + q.res.gen < r.maxTokens
    requires q.phase == Bootstrap ==> q.res.gen == 0
    requires |r.prompt| + |r.generated| - q.genInPrompt + q.res.gen < r.maxContext
    requires BlocksFor(c, q.frontier + q.res.kv + if q.phase == Bootstrap then 0 else 1) <= |q.table|
    requires c.blockSize > 0
    ensures var x := NextDecode(r, q);
      && Booked(c, r, Reserve(q, x), items + [x])
      && Live(r, Reserve(q, x), items + [x])
  {
    var x := NextDecode(r, q);
    var k := BlocksFor(c, q.frontier + q.res.kv + if q.phase == Bootstrap then 0 else 1);
    CapMono(c, k, |q.table|);
    hide Cap, BlocksFor;
    if q.phase == Bootstrap {
      assert items == [];
      assert items + [x] == [x];
      BookedSnoc(c, r, q, items, x);
    } else {
      DecodeItemsOrdered(items, q.frontier);
      BookedSnoc(c, r, q, items, x);
      assert [x][1..] == [];
      DecodeItemsSnoc(items, x, q.frontier);
    }
  }

  /** The table may grow. */
  lemma BookedGrow(c: Config, r: Request, q: Sequence, items: seq<WorkItem>, more: seq<BlockId>)
    requires Booked(c, r, q, items)
    ensures Booked(c, r, q.(table := q.table + more), items)
    ensures Live(r, q, items) ==> Live(r, q.(table := q.table + more), items)
  {
    var q' := q.(table := q.table + more);
    CapMono(c, |q.table|, |q'.table|);
    hide Cap;
  }

  lemma HashedGrow(c: Config, cached: map<BlockId, Hash>, cached': map<BlockId, Hash>, q: Sequence, more: seq<BlockId>)
    requires Hashed(c, cached, q)
    requires forall b :: b in cached' ==> b in cached
    requires forall b :: b in more ==> b !in cached'
    ensures Hashed(c, cached', q.(table := q.table + more))
  {
    var table := q.table + more;
    assert forall i | |q.table| <= i < |table| :: table[i] in more;
    hide Cap;
  }

  // ---------------------------------------------------------------- retirement

  /** The request after its reservation gave up item x. */
  lemma ReleaseTotals(r: Request, a: seq<WorkItem>, x: WorkItem, b: seq<WorkItem>)
    requires r.sched.Some? && r.sched.value.res == Totals(a + [x] + b)
    ensures RetireReservation(r, x).sched == Some(r.sched.value.(res := Totals(a + b)))
    ensures RetireReservation(r, x) == r.(sched := RetireReservation(r, x).sched)
  {
    TotalsConcat(a + [x], b);
    TotalsConcat(a, [x]);
    TotalsConcat(a, b);
    assert [x][1..] == [];
  }

  lemma BookedDrop(c: Config, r: Request, r': Request, q: Sequence, a: seq<WorkItem>, x: WorkItem, b: seq<WorkItem>)
    requires Booked(c, r, q, a + [x] + b)
    requires r' == r.(status := r'.status, sched := r'.sched)
    ensures Booked(c, r', q.(res := Totals(a + b)), a + b)
  {
    hide Cap;
    OrderedDrop(a, x, b, q.frontier);
    TotalsConcat(a + [x], b);
    TotalsConcat(a, [x]);
    TotalsConcat(a, b);
    assert [x][1..] == [];
    var q' := q.(res := Totals(a + b));
    forall y | y in a + b ensures ItemFits(c, y, q') {
      assert y in a + [x] + b;
    }
  }

  /** The oldest item of an active sequence starts exactly at the executed frontier; a prefill chunk
      starts at the prefill cursor. */
  lemma HeadPosition(r: Request, q: Sequence, x: WorkItem, rest: seq<WorkItem>)
    requires Live(r, q, [x] + rest)
    ensures x.context == q.frontier
    ensures x.PrefillChunk? <==> IsPrefill(q.phase)
    ensures x.PrefillChunk? ==> x.start == q.cursor && q.cursor + |x.tokens| <= |r.prompt|
    ensures x.PrefillChunk? ==> x.tokens == r.prompt[x.start..x.start + |x.tokens|]
    ensures KvCount(x) == 0 <==> q.phase == Bootstrap
    ensures x.DecodeOneToken? && q.phase == Decode ==> r.generated != []
  {
    assert ([x] + rest)[1..] == rest;
  }

  lemma RetireChunkSeq(c: Config, r: Request, q: Sequence, x: WorkItem, rest: seq<WorkItem>)
    requires Booked(c, r, q, [x] + rest) && Live(r, q, [x] + rest)
    requires x.PrefillChunk? && q.cursor + |x.tokens| < |r.prompt|
    ensures var q1 := Advance(r, q.(res := Totals(rest)), x);
      && Booked(c, r, q1, rest) && Live(r, q1, rest)
      && q1.frontier == q.frontier + |x.tokens| && q1.table == q.table && q1.pending == q.pending
  {
    hide Cap;
    HeadPosition(r, q, x, rest);
    assert ([x] + rest)[1..] == rest;
    BookedDrop(c, r, r, q, [], x, rest);
    assert [] + [x] + rest == [x] + rest && [] + rest == rest;
  }

  /** Nothing of the prompt is outstanding after its last chunk. */
  lemma LastChunk(r: Request, q: Sequence, x: WorkItem, rest: seq<WorkItem>)
    requires Live(r, q, [x] + rest)
    requires x.PrefillChunk? && q.cursor + |x.tokens| >= |r.prompt|
    ensures rest == [] && q.cursor + |x.tokens| == |r.prompt|
    ensures GenCount(x) == 0 ==> r.generated != []
  {
    HeadPosition(r, q, x, rest);
    assert ([x] + rest)[1..] == rest;
    PrefillItemsOrdered(rest, |r.prompt|, r.prompt, q.phase == ReplayPrefill);
  }

  /** Retiring an item that completes the prompt or generates a token. */
  lemma RetireTokenSeq(c: Config, r: Request, q: Sequence, x: WorkItem, rest: seq<WorkItem>, r': Request,
          sampled: seq<Token>)
    requires Booked(c, r, q, [x] + rest) && Live(r, q, [x] + rest)
    requires x.PrefillChunk? ==> q.cursor + |x.tokens| >= |r.prompt|
    requires |sampled| == GenCount(x)
    requires r' == r.(generated := r.generated + sampled, status := r'.status, sched := r'.sched)
    ensures var q1 := Advance(r, q.(res := Totals(rest)), x).(phase := Decode);
      && Booked(c, r', q1, rest) && Live(r', q1, rest)
      && q1.frontier == q.frontier + KvCount(x)
      && Advance(r, q.(res := Totals(rest)), x).phase == if q.phase == Bootstrap then Bootstrap else Decode
  {
    hide Cap, PrefillItems;
    HeadPosition(r, q, x, rest);
    assert ([x] + rest)[1..] == rest;
    assert [] + [x] + rest == [x] + rest && [] + rest == rest;
    BookedDrop(c, r, r, q, [], x, rest);
    if x.PrefillChunk? {
      LastChunk(r, q, x, rest);
    }
  }
}
