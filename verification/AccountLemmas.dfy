/** Reference counting: every way a block reference changes hands. */
module AccountLemmas {
  import opened Types
  import opened Seqs
  import opened Blocks
  import opened BlockLemmas
  import opened State
  import opened Scheduling
  import opened Invariant
  import opened OutLemmas

  lemma AccountedFrame(c: Config, s: Sched, s': Sched, held: multiset<BlockId>)
    requires Accounted(c, s, held)
    requires s'.blocks == s.blocks && s'.hist.leaked == s.hist.leaked
    requires s.nextTicket <= s'.nextTicket <= s.nextTicket + 1
    requires forall t: Ticket | t < s'.nextTicket :: TableOf(s'.objs, t) == TableOf(s.objs, t)
    requires TableOf(s'.objs, s.nextTicket) == []
    ensures Accounted(c, s', held)
  {
    hide Valid;
    forall b: BlockId ensures Owned(s'.objs, s'.nextTicket, b) == Owned(s.objs, s.nextTicket, b) {
      OwnedFrame(s.objs, s'.objs, s.nextTicket, b);
    }
  }

  /** References of a table move between the operation in progress and request t. */
  lemma AccountedMove(c: Config, s: Sched, s': Sched, held: multiset<BlockId>, held': multiset<BlockId>, t: Ticket)
    requires Accounted(c, s, held)
    requires s'.blocks == s.blocks && s'.hist.leaked == s.hist.leaked && s'.nextTicket == s.nextTicket
    requires t < s.nextTicket
    requires forall u: Ticket | u != t :: TableOf(s'.objs, u) == TableOf(s.objs, u)
    requires held + multiset(TableOf(s.objs, t)) == held' + multiset(TableOf(s'.objs, t))
    ensures Accounted(c, s', held')
  {
    hide Valid;
    forall b: BlockId
      ensures Owned(s'.objs, s.nextTicket, b) + held'[b] == Owned(s.objs, s.nextTicket, b) + held[b]
    {
      OwnedUpdate(s.objs, s'.objs, t, s.nextTicket, b);
      assert (held + multiset(TableOf(s.objs, t)))[b] == (held' + multiset(TableOf(s'.objs, t)))[b];
    }
  }

  lemma AccountedRelease(c: Config, s: Sched, s': Sched, held: multiset<BlockId>, table: seq<BlockId>)
    requires Accounted(c, s, held) && multiset(table) <= held
    requires s'.blocks == ReleaseTable(s.blocks, table)
    requires s'.objs == s.objs && s'.hist == s.hist && s'.nextTicket == s.nextTicket
    ensures Accounted(c, s', held - multiset(table))
    ensures s'.blocks.cache.byBlock == s.blocks.cache.byBlock
  {
    hide Valid, ReleaseTable;
    assert Releasable(s.blocks, table) by {
      forall b: BlockId ensures multiset(table)[b] <= s.blocks.Refs(b) {}
    }
    ReleaseTableOk(s.blocks, table);
  }

  /** Blocks an allocation hands out are fresh; it may evict, but only unreferenced entries. */
  ghost predicate TakenOk(s: Sched, n: nat, k: Taken) {
    && NoDup(k.table)
    && (k.ok ==> |k.table| == n)
    && (!k.ok ==> k.table == [])
    && (forall b :: b in k.table ==> !k.s.blocks.Cached(b))
    && k.s == s.(blocks := k.s.blocks, hist := s.hist.(leaked := k.s.hist.leaked))
    && (forall b: BlockId :: k.s.blocks.Cached(b) ==>
      s.blocks.Cached(b)
      && k.s.blocks.cache.byBlock[b] == s.blocks.cache.byBlock[b])
    && (forall b: BlockId :: s.blocks.Cached(b) && s.blocks.Refs(b) > 0 ==> k.s.blocks.Cached(b))
  }

  lemma TakeFresh(c: Config, s: Sched, n: nat, held: multiset<BlockId>)
    requires Accounted(c, s, held)
    ensures TakenOk(s, n, TakeBlocks(s, n))
  {
    hide Valid, AllocateKv, Conserved, Private;
    if n > 0 {
      AllocateKvOk(s.blocks, n);
    }
  }

  lemma AccountedGrant(c: Config, s: Sched, s': Sched, g: Grant, held: multiset<BlockId>, ok: bool)
    requires Accounted(c, s, held)
    requires Valid(g.store) && NoDup(g.taken) && |g.store.pool.refs| == c.maxBlocks
    requires forall b :: b in g.taken ==> s.blocks.Refs(b) == 0 && !g.store.Cached(b)
    requires forall b: BlockId :: g.store.Refs(b) == s.blocks.Refs(b) + if b in g.taken then 1 else 0
    requires forall b: BlockId :: g.store.Cached(b) ==> s.blocks.Cached(b)
    requires forall b: BlockId :: s.blocks.Cached(b) && s.blocks.Refs(b) > 0 ==> g.store.Cached(b)
    requires s'.blocks == g.store && s'.objs == s.objs && s'.nextTicket == s.nextTicket
    requires s'.hist.leaked == if ok then s.hist.leaked else s.hist.leaked + set b | b in g.taken
    ensures Accounted(c, s', if ok then held + multiset(g.taken) else held)
  {
    hide Valid;
    forall b: BlockId ensures multiset(g.taken)[b] == if b in g.taken then 1 else 0 {
      NoDupCount(g.taken, b);
    }
    forall b | b in g.taken ensures b !in s.hist.leaked {
      assert s.blocks.Refs(b) == 0;
    }
  }

  lemma AccountedTake(c: Config, s: Sched, n: nat, held: multiset<BlockId>)
    requires Accounted(c, s, held)
    ensures Accounted(c, TakeBlocks(s, n).s, held + multiset(TakeBlocks(s, n).table))
    ensures TakenOk(s, n, TakeBlocks(s, n))
  {
    TakeFresh(c, s, n, held);
    assert held + multiset([]) == held;
    if n > 0 {
      hide Valid, AllocateKv, TakenOk, Conserved, Private;
      AllocateKvOk(s.blocks, n);
      var g := AllocateKv(s.blocks, n);
      AccountedGrant(c, s, TakeBlocks(s, n).s, g, held, g.ok);
    }
  }

  lemma AccountedLookup(c: Config, s: Sched, s': Sched, hs: seq<Hash>, held: multiset<BlockId>)
    requires Accounted(c, s, held)
    requires s'.blocks == LookupPrefix(s.blocks, hs).store
    requires s'.objs == s.objs && s'.hist.leaked == s.hist.leaked && s'.nextTicket == s.nextTicket
    ensures Accounted(c, s', held + multiset(LookupPrefix(s.blocks, hs).table))
    ensures s'.blocks.cache.byBlock == s.blocks.cache.byBlock
  {
    hide Valid, LookupPrefix, Owned;
    LookupPrefixOk(s.blocks, hs);
    var r := LookupPrefix(s.blocks, hs);
    forall b: BlockId | !s.blocks.Cached(b) ensures multiset(r.table)[b] == 0 {
      LookupUncached(s.blocks, hs, b);
    }
  }

  lemma LookupUncached(st: Store, hs: seq<Hash>, b: BlockId)
    requires Valid(st) && !st.Cached(b)
    ensures multiset(LookupPrefix(st, hs).table)[b] == 0
  {
    hide Valid, LookupPrefix;
    var table := LookupPrefix(st, hs).table;
    if b in table {
      var i :| 0 <= i < |table| && table[i] == b;
      LookupCached(st, hs, i);
    }
  }

  lemma AccountedPublish(c: Config, s: Sched, s': Sched, held: multiset<BlockId>, h: Hash, b: BlockId)
    requires Accounted(c, s, held) && b !in s.hist.leaked && s.blocks.Refs(b) > 0
    requires s'.blocks == Publish(s.blocks, h, b)
    requires s'.objs == s.objs && s'.hist.leaked == s.hist.leaked && s'.nextTicket == s.nextTicket
    ensures Accounted(c, s', held)
  {
    hide Valid, Publish, Owned;
    PublishOk(s.blocks, h, b);
    assert s'.blocks.pool == s.blocks.pool && forall x: BlockId :: s'.blocks.Refs(x) == s.blocks.Refs(x);
    assert forall x: BlockId :: s'.blocks.Cached(x) <==> s.blocks.Cached(x) || x == b;
  }

  /** A block in a table has a reference, is not lost, and if it has no cache entry it occurs nowhere
      else: not in another table, not twice in this one. */
  lemma TableBlock(c: Config, s: Sched, held: multiset<BlockId>, t: Ticket, i: nat)
    requires Accounted(c, s, held) && t < s.nextTicket && i < |TableOf(s.objs, t)|
    ensures var b := TableOf(s.objs, t)[i];
      && s.blocks.Refs(b) > 0
      && (!s.blocks.Cached(b) ==>
        && b !in s.hist.leaked && held[b] == 0
        && (forall u: Ticket | u < s.nextTicket && u != t :: b !in TableOf(s.objs, u))
        && (forall j | 0 <= j < |TableOf(s.objs, t)| && j != i :: TableOf(s.objs, t)[j] != b))
  {
    hide Valid;
    var table := TableOf(s.objs, t);
    var b := table[i];
    OwnedAtLeast(s.objs, t, s.nextTicket, b);
    assert b in table;
    assert multiset(table)[b] > 0;
    if !s.blocks.Cached(b) {
      forall u: Ticket | u < s.nextTicket && u != t ensures b !in TableOf(s.objs, u) {
        OwnedTwo(s.objs, if t < u then t else u, if t < u then u else t, s.nextTicket, b);
      }
      forall j | 0 <= j < |table| && j != i ensures table[j] != b {
        if table[j] == b {
          TwoOccurrences(table, i, j);
        }
      }
    }
  }

  lemma TwoOccurrences(table: seq<BlockId>, i: nat, j: nat)
    requires i < |table| && j < |table| && i != j && table[i] == table[j]
    ensures multiset(table)[table[i]] >= 2
  {
    var lo, hi := if i < j then i else j, if i < j then j else i;
    assert table == table[..lo + 1] + table[lo + 1..];
    assert table[lo] in table[..lo + 1] by { assert table[..lo + 1][lo] == table[lo]; }
    assert table[hi] in table[lo + 1..] by { assert table[lo + 1..][hi - lo - 1] == table[hi]; }
  }
}
