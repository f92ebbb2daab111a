/** Which KV slots a work item can write, and what writing does to the others. */
module MemoryLemmas {
  import opened Types
  import opened Blocks
  import opened State
  import opened Invariant
  import opened AccountLemmas
  import opened BuildLemmas
  import opened StepLemmas
  import opened Engine
  import opened Faithful

  // ---------------------------------------------------------------- slots

  lemma SlotInInjective(c: Config, a: BlockId, i: nat, b: BlockId, j: nat)
    requires i < c.blockSize && j < c.blockSize && SlotIn(c, a, i) == SlotIn(c, b, j)
    ensures a == b && i == j
  {
    RowsApart(c, a, b);
    RowsApart(c, b, a);
  }

  lemma RowsApart(c: Config, a: BlockId, b: BlockId)
    ensures a < b ==> a * c.blockSize + c.blockSize <= b * c.blockSize
  {
    if a < b { assert (a + 1) * c.blockSize <= b * c.blockSize; }
  }

  lemma SlotAt(c: Config, table: seq<BlockId>, p: nat)
    requires c.blockSize > 0 && p < Cap(c, |table|)
    ensures BlockAt(c, p) < |table| && OffsetAt(c, p) < c.blockSize
    ensures Slot(c, table, p) == SlotIn(c, table[BlockAt(c, p)], OffsetAt(c, p))
  {
    BlockIndex(c, p, |table|);
  }

  /** Equal slots are the same offset in the same block. */
  lemma SameSlot(c: Config, a: seq<BlockId>, p: nat, b: seq<BlockId>, p': nat)
    requires c.blockSize > 0 && p < Cap(c, |a|) && p' < Cap(c, |b|) && Slot(c, a, p) == Slot(c, b, p')
    ensures BlockAt(c, p) < |a| && BlockAt(c, p') < |b| && a[BlockAt(c, p)] == b[BlockAt(c, p')]
    ensures BlockAt(c, p) == BlockAt(c, p') ==> p == p'
  {
    hide Slot, SlotIn, BlockAt, OffsetAt, Cap;
    SlotAt(c, a, p);
    SlotAt(c, b, p');
    SlotInInjective(c, a[BlockAt(c, p)], OffsetAt(c, p), b[BlockAt(c, p')], OffsetAt(c, p'));
    BlockIndex(c, p, 0);
    BlockIndex(c, p', 0);
  }

  /** A position an item writes. */
  predicate Writes(x: WorkItem, p: nat) {
    x.context <= p < x.context + KvCount(x)
  }

  /** The block behind a position an item writes belongs to its sequence alone, at one index, and is
      not cached. */
  ghost predicate Exclusive(s: Sched, t: Ticket, i: nat) {
    && i < |TableOf(s.objs, t)|
    && var b := TableOf(s.objs, t)[i];
       && !s.blocks.Cached(b)
       && (forall u: Ticket | u < s.nextTicket && u != t :: b !in TableOf(s.objs, u))
       && (forall j | 0 <= j < |TableOf(s.objs, t)| && j != i :: TableOf(s.objs, t)[j] != b)
  }

  lemma {:induction false} OrderedAbove(items: seq<WorkItem>, lo: nat, x: WorkItem)
    requires Ordered(items, lo) && x in items
    ensures lo <= x.context
    decreases |items|
  {
    if x != items[0] { OrderedAbove(items[1..], items[0].context + KvCount(items[0]), x); }
  }

  lemma WriteExclusive(c: Config, s: Sched, out: seq<WorkItem>, x: WorkItem, t: Ticket, p: nat)
    requires Steady(c, s, out) && x in out && HasSeq(s, t, x.seqId) && t < s.nextTicket && Writes(x, p)
    ensures c.blockSize > 0 && p < Cap(c, |x.table|) && x.table <= TableOf(s.objs, t)
    ensures Exclusive(s, t, BlockAt(c, p))
  {
    hide Places, Accounted, Sound, Of, ReqOk, Cap, BlockAt;
    SoundAt(c, s, out, t);
    ItemPlace(c, s, s.objs[t].sched.value, out, x, t, p);
    TableBlock(c, s, multiset{}, t, BlockAt(c, p));
  }

  lemma ItemPlace(c: Config, s: Sched, q: Sequence, out: seq<WorkItem>, x: WorkItem, t: Ticket, p: nat)
    requires c.blockSize > 0 && t in s.objs && s.objs[t].sched == Some(q) && q.seqId == x.seqId && x in out
    requires ReqOk(c, s.blocks.cache.byBlock, s.objs[t], out) && Writes(x, p)
    ensures p < Cap(c, |x.table|) && x.table <= q.table && BlockAt(c, p) < |q.table|
    ensures !s.blocks.Cached(q.table[BlockAt(c, p)])
  {
    hide Cap, Totals, Live, BlockAt;
    var items := Of(out, q.seqId);
    assert x in items;
    hide Of;
    OrderedAbove(items, q.frontier, x);
    assert ItemFits(c, x, q);
    BlockIndex(c, p, |x.table|);
    var i := BlockAt(c, p);
    BlockIndex(c, p, i + 1);
    assert Frozen(c, s.blocks.cache.byBlock, q);
  }

  // ---------------------------------------------------------------- writing

  /** Memory changes only in slots these items write. */
  ghost predicate Confined(c: Config, mem: map<nat, Kv>, mem': map<nat, Kv>, items: seq<WorkItem>) {
    forall k: nat :: Read(mem', k) != Read(mem, k) ==> InSlots(c, items, k)
  }

  ghost predicate InSlots(c: Config, items: seq<WorkItem>, k: nat) {
    exists x, p: nat :: x in items && Writes(x, p) && k == Slot(c, x.table, p)
  }

  lemma {:induction false} WriteFrame(c: Config, mem: map<nat, Kv>, table: seq<BlockId>, pos: nat,
          tokens: seq<Token>, k: nat)
    requires forall p: nat | pos <= p < pos + |tokens| :: Slot(c, table, p) != k
    ensures Read(WriteTokens(c, mem, table, pos, tokens), k) == Read(mem, k)
    decreases |tokens|
  {
    if tokens != [] {
      var mem1 := mem[Slot(c, table, pos) := Kv(tokens[0], Attended(c, mem, table, pos))];
      WriteFrame(c, mem1, table, pos + 1, tokens[1..], k);
    }
  }

  /** Position n is no other position's slot. */
  ghost predicate Lone(c: Config, table: seq<BlockId>, n: nat) {
    forall p: nat | p < Cap(c, |table|) && p != n :: Slot(c, table, p) != Slot(c, table, n)
  }

  lemma ExclusiveLone(c: Config, s: Sched, t: Ticket, p: nat)
    requires c.blockSize > 0 && p < Cap(c, |TableOf(s.objs, t)|) && Exclusive(s, t, BlockAt(c, p))
    ensures Lone(c, TableOf(s.objs, t), p)
  {
    hide Slot, BlockAt, OffsetAt, Cap, TableOf;
    var table := TableOf(s.objs, t);
    forall p': nat | p' < Cap(c, |table|) && p' != p ensures Slot(c, table, p') != Slot(c, table, p) {
      if Slot(c, table, p') == Slot(c, table, p) {
        SameSlot(c, table, p, table, p');
      }
    }
  }

  /** Writing the next tokens of a stream extends what the table holds. */
  lemma {:induction false} WriteHolds(c: Config, mem: map<nat, Kv>, small: seq<BlockId>, table: seq<BlockId>,
          stream: seq<Token>, n: nat, tokens: seq<Token>)
    requires small <= table && Holds(c, mem, table, stream, n)
    requires n + |tokens| <= Cap(c, |small|) && n + |tokens| <= |stream| && tokens == stream[n..n + |tokens|]
    requires forall p: nat | n <= p < n + |tokens| :: Lone(c, table, p)
    ensures Holds(c, WriteTokens(c, mem, small, n, tokens), table, stream, n + |tokens|)
    decreases |tokens|
  {
    if tokens != [] {
      CapMono(c, |small|, |table|);
      WriteOne(c, mem, small, table, stream, n, tokens[0]);
      var mem1 := mem[Slot(c, small, n) := Kv(tokens[0], Attended(c, mem, small, n))];
      hide Holds, Lone;
      assert tokens[1..] == stream[n + 1..n + 1 + |tokens[1..]|];
      WriteHolds(c, mem1, small, table, stream, n + 1, tokens[1..]);
    }
  }

  lemma WriteOne(c: Config, mem: map<nat, Kv>, small: seq<BlockId>, table: seq<BlockId>, stream: seq<Token>, n: nat,
          token: Token)
    requires small <= table && Holds(c, mem, table, stream, n)
    requires n < Cap(c, |small|) && n < |stream| && token == stream[n] && Lone(c, table, n)
    ensures Holds(c, mem[Slot(c, small, n) := Kv(token, Attended(c, mem, small, n))], table, stream, n + 1)
  {
    CapMono(c, |small|, |table|);
    var entry := Kv(token, Attended(c, mem, small, n));
    forall i: nat | i < n ensures Read(mem, Slot(c, small, i)) == Canon(stream, i) {
      SlotPrefix(c, small, table, i);
    }
    assert Attended(c, mem, small, n) == seq(n, i requires 0 <= i < n => Canon(stream, i));
    assert entry == Canon(stream, n);
    var mem1 := mem[Slot(c, small, n) := entry];
    forall p: nat | p < n + 1 ensures Read(mem1, Slot(c, table, p)) == Canon(stream, p) {
      SlotPrefix(c, small, table, n);
    }
  }

  // ---------------------------------------------------------------- what survives

  lemma HoldsStream(c: Config, mem: map<nat, Kv>, table: seq<BlockId>, a: seq<Token>, b: seq<Token>, n: nat)
    requires Holds(c, mem, table, a, n) && a <= b
    ensures Holds(c, mem, table, b, n)
  {
    forall p: nat | p < n ensures Read(mem, Slot(c, table, p)) == Canon(b, p) {
      CanonPrefix(a, b, p);
    }
  }

  /** No slot written by the items is among the first n positions of this table. */
  lemma HoldsConfined(c: Config, mem: map<nat, Kv>, mem': map<nat, Kv>, items: seq<WorkItem>, table: seq<BlockId>,
          stream: seq<Token>, n: nat)
    requires Holds(c, mem, table, stream, n) && Confined(c, mem, mem', items)
    requires forall p: nat | p < n :: !InSlots(c, items, Slot(c, table, p))
    ensures Holds(c, mem', table, stream, n)
  {
  }

  /** A position of another table, or an earlier position of the same one, is not written by x. */
  lemma NotWritten(c: Config, s: Sched, out: seq<WorkItem>, x: WorkItem, t: Ticket, u: Ticket, p: nat, p': nat)
    requires Steady(c, s, out) && x in out && HasSeq(s, t, x.seqId) && t < s.nextTicket && Writes(x, p)
    requires u < s.nextTicket && p' < Cap(c, |TableOf(s.objs, u)|) && (u == t ==> p' != p)
    ensures Slot(c, TableOf(s.objs, u), p') != Slot(c, x.table, p)
  {
    hide Steady, Slot, BlockAt, OffsetAt, Cap, TableOf;
    WriteExclusive(c, s, out, x, t, p);
    var table := TableOf(s.objs, t);
    CapMono(c, |x.table|, |table|);
    SlotPrefix(c, x.table, table, p);
    if Slot(c, TableOf(s.objs, u), p') == Slot(c, table, p) {
      SameSlot(c, table, p, TableOf(s.objs, u), p');
    }
  }

  lemma CachedNotWritten(c: Config, s: Sched, out: seq<WorkItem>, x: WorkItem, t: Ticket, p: nat, b: BlockId, o: nat)
    requires Steady(c, s, out) && x in out && HasSeq(s, t, x.seqId) && t < s.nextTicket && Writes(x, p)
    requires s.blocks.Cached(b) && o < c.blockSize
    ensures SlotIn(c, b, o) != Slot(c, x.table, p)
  {
    hide Steady, Slot, SlotIn, BlockAt, OffsetAt, Cap, TableOf;
    WriteExclusive(c, s, out, x, t, p);
    var table := TableOf(s.objs, t);
    CapMono(c, |x.table|, |table|);
    SlotPrefix(c, x.table, table, p);
    SlotAt(c, table, p);
    if SlotIn(c, b, o) == Slot(c, table, p) {
      SlotInInjective(c, b, o, table[BlockAt(c, p)], OffsetAt(c, p));
    }
  }

  /** Every outstanding item belongs to a known request. */
  lemma ItemOwner(c: Config, s: Sched, out: seq<WorkItem>, x: WorkItem)
    requires Steady(c, s, out) && x in out
    ensures x.seqId in s.bySeq && HasSeq(s, s.bySeq[x.seqId], x.seqId) && s.bySeq[x.seqId] < s.nextTicket
    ensures x.seqId < s.nextSeq
    ensures forall u :: u in s.objs ==> u < s.nextTicket
    ensures forall u :: u in s.objs && s.objs[u].sched.Some? && s.objs[u].sched.value.seqId == x.seqId ==>
        u == s.bySeq[x.seqId]
  {
    hide Accounted, Sound, Named;
    forall u | u in s.objs && s.objs[u].sched.Some? && s.objs[u].sched.value.seqId == x.seqId
        ensures u == s.bySeq[x.seqId] {
      assert HasSeq(s, u, x.seqId) && HasSeq(s, s.bySeq[x.seqId], x.seqId);
    }
  }

  lemma CacheConfined(c: Config, s: Sched, out: seq<WorkItem>, items: seq<WorkItem>, mem: map<nat, Kv>,
          mem': map<nat, Kv>)
    requires Steady(c, s, out) && (forall x :: x in items ==> x in out)
    requires CacheTells(c, s, mem) && Confined(c, mem, mem', items)
    ensures CacheTells(c, s, mem')
  {
    hide Steady, Slot;
    forall b | b in s.blocks.cache.byBlock && b !in s.hist.tainted
      ensures Tells(c, s.hist, s.blocks.cache.byBlock, mem', b)
    {
      assert Tells(c, s.hist, s.blocks.cache.byBlock, mem, b);
      forall o: nat | o < c.blockSize ensures Read(mem', SlotIn(c, b, o)) == Read(mem, SlotIn(c, b, o)) {
        if InSlots(c, items, SlotIn(c, b, o)) {
          var x, p: nat :| x in items && Writes(x, p) && SlotIn(c, b, o) == Slot(c, x.table, p);
          ItemOwner(c, s, out, x);
          CachedNotWritten(c, s, out, x, s.bySeq[x.seqId], p, b, o);
        }
      }
    }
  }

  lemma HoldsOutstanding(c: Config, s: Sched, out: seq<WorkItem>, items: seq<WorkItem>, mem: map<nat, Kv>,
          mem': map<nat, Kv>, u: Ticket, stream: seq<Token>, n: nat)
    requires Steady(c, s, out) && (forall x :: x in items ==> x in out)
    requires Confined(c, mem, mem', items) && u in s.objs && s.objs[u].sched.Some?
    requires Holds(c, mem, s.objs[u].sched.value.table, stream, n)
    requires forall x :: x in items && x.seqId == s.objs[u].sched.value.seqId ==> n <= x.context
    ensures Holds(c, mem', s.objs[u].sched.value.table, stream, n)
  {
    hide Steady, Slot, Confined;
    var table := s.objs[u].sched.value.table;
    forall p': nat | p' < n ensures !InSlots(c, items, Slot(c, table, p')) {
      if InSlots(c, items, Slot(c, table, p')) {
        var x, p: nat :| x in items && Writes(x, p) && Slot(c, table, p') == Slot(c, x.table, p);
        ItemOwner(c, s, out, x);
        NotWritten(c, s, out, x, s.bySeq[x.seqId], u, p, p');
      }
    }
    HoldsConfined(c, mem, mem', items, table, stream, n);
  }
}
