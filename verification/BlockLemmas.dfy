/** What every operation on the block pool and prefix cache keeps. */
module BlockLemmas {
  import opened Types
  import opened Seqs
  import opened Blocks

  lemma FreshStoreValid(n: nat)
    ensures Valid(FreshStore(n))
    ensures forall b: BlockId :: FreshStore(n).Refs(b) == 0
  {
    var st := FreshStore(n);
    forall b: BlockId ensures b in st.pool.free <==> b < n {
      if b < n { assert st.pool.free[b] == b; }
    }
  }

  // ---------------------------------------------------------------- allocation

  lemma FreeOrIdle(st: Store, b: BlockId)
    requires Valid(st)
    ensures b in st.pool.free ==> b < |st.pool.refs| && st.Refs(b) == 0 && !st.Cached(b)
    ensures b in st.cache.idle ==> b < |st.pool.refs| && st.Refs(b) == 0 && st.Cached(b)
    ensures st.Cached(b) ==> b < |st.pool.refs|
  {
  }

  lemma AllocateBlocksOk(st: Store, n: nat)
    requires Valid(st)
    ensures var g := AllocateBlocks(st, n);
      && Valid(g.store) && g.store.cache == st.cache
      && NoDup(g.taken)
      && (forall b :: b in g.taken ==> b in st.pool.free)
      && |g.store.pool.refs| == |st.pool.refs|
      && (forall b: BlockId :: g.store.Refs(b) == st.Refs(b) + if b in g.taken then 1 else 0)
      && g.ok == (n <= |st.pool.free|)
      && (g.ok ==> |g.taken| == n)
      && (!g.ok ==> g.taken == st.pool.free)
  {
    var g := AllocateBlocks(st, n);
    var k := |g.taken|;
    var free := st.pool.free;
    assert free == g.taken + free[k..];
    forall b: BlockId
      ensures b in g.store.pool.free <==> b in free && b !in g.taken
    {
      if b in free[k..] {
        var i :| 0 <= i < |free[k..]| && free[k..][i] == b;
        assert free[i + k] == b;
      }
    }
  }

  // ---------------------------------------------------------------- eviction

  lemma {:induction false} DropEntryOk(es: seq<Entry>, b: BlockId)
    requires forall i, j | 0 <= i < j < |es| :: es[i].block != es[j].block
    ensures var r := DropEntry(es, b);
      && (forall i, j | 0 <= i < j < |r| :: r[i].block != r[j].block)
      && (forall e :: e in r <==> e in es && e.block != b)
  {
    if es != [] {
      var tail := es[1..];
      assert forall i | 0 <= i < |tail| :: tail[i] == es[i + 1];
      assert es == [es[0]] + tail;
      if es[0].block != b {
        DropEntryOk(tail, b);
        var r := DropEntry(tail, b);
        assert forall i | 0 <= i < |r| :: r[i] in tail;
      }
    }
  }

  lemma EraseEntryListed(c: Cache, b: BlockId)
    requires Listed(c.entries, c.byBlock) && b in c.byBlock
    ensures Listed(EraseEntry(c, b).entries, EraseEntry(c, b).byBlock)
  {
    hide DropEntry, SwapRemove, Without;
    DropEntryOk(c.entries, b);
  }

  lemma EraseEntryBucketed(c: Cache, b: BlockId)
    requires Bucketed(c.byHash, c.byBlock) && b in c.byBlock
    ensures Bucketed(EraseEntry(c, b).byHash, EraseEntry(c, b).byBlock)
  {
    hide DropEntry, SwapRemove, Without;
    var h := c.byBlock[b];
    var c' := EraseEntry(c, b);
    assert InBucket(c.byHash, h, b);
    SwapRemoveOk(c.byHash[h], b);
    var bucket := SwapRemove(c.byHash[h], b);
    forall g, x ensures InBucket(c'.byHash, g, x) <==> InBucket(c.byHash, g, x) && x != b {
      if g == h {
        assert bucket == [] ==> forall y :: y !in bucket;
      } else if x == b && InBucket(c.byHash, g, x) {
        assert false;
      }
    }
  }

  lemma IdleTail(idle: seq<BlockId>)
    requires idle != [] && NoDup(idle)
    ensures Without(idle, idle[0]) == idle[1..] && NoDup(idle[1..])
    ensures forall b: BlockId :: b in idle[1..] <==> b in idle && b != idle[0]
  {
    assert forall i | 0 <= i < |idle[1..]| :: idle[1..][i] == idle[i + 1];
    WithoutAbsent(idle[1..], idle[0]);
    assert idle == [idle[0]] + idle[1..];
  }

  lemma EvictOnePlaced(st: Store)
    requires Placed(st, {}) && st.cache.idle != []
    ensures Placed(EvictOne(st), {})
    ensures var st' := EvictOne(st); var victim := st.cache.idle[0];
      && st'.pool.refs == st.pool.refs
      && st'.pool.free == st.pool.free + [victim]
      && st'.cache.idle == st.cache.idle[1..]
      && st'.cache.byBlock == st.cache.byBlock - {victim}
  {
    hide DropEntry, SwapRemove;
    var idle := st.cache.idle;
    var victim := idle[0];
    assert victim in idle;
    assert victim !in st.pool.free;
    IdleTail(idle);
    hide Without;
  }

  lemma EvictOneOk(st: Store)
    requires Valid(st) && st.cache.idle != []
    ensures var st' := EvictOne(st); var victim := st.cache.idle[0];
      && Valid(st')
      && st'.pool.refs == st.pool.refs
      && st'.pool.free == st.pool.free + [victim]
      && st'.cache.idle == st.cache.idle[1..]
      && st'.cache.byBlock == st.cache.byBlock - {victim}
  {
    var victim := st.cache.idle[0];
    assert victim in st.cache.byBlock by { assert victim in st.cache.idle; }
    hide Listed, Bucketed, EraseEntry;
    EraseEntryListed(st.cache, victim);
    EraseEntryBucketed(st.cache, victim);
    EvictOnePlaced(st);
  }

  lemma {:induction false} EvictManyOk(st: Store, k: nat)
    requires Valid(st) && k <= |st.cache.idle|
    ensures var st' := EvictMany(st, k);
      && Valid(st')
      && st'.pool.refs == st.pool.refs
      && st'.pool.free == st.pool.free + st.cache.idle[..k]
      && st'.cache.idle == st.cache.idle[k..]
      && st'.cache.byBlock == st.cache.byBlock - set b | b in st.cache.idle[..k]
    decreases k
  {
    hide Valid, EvictOne;
    var idle := st.cache.idle;
    if k == 0 {
      assert st.pool.free + idle[..0] == st.pool.free;
    } else {
      EvictOneOk(st);
      EvictManyOk(EvictOne(st), k - 1);
      assert idle[1..][..k - 1] == idle[1..k];
      assert idle[..k] == [idle[0]] + idle[1..k];
      assert idle[1..][k - 1..] == idle[k..];
    }
  }

  /** allocate_kv_blocks succeeds exactly when free and idle blocks suffice. When they do not, the
      whole reserve is taken and nobody owns it: the leak is exactly the free list plus the idle LRU. */
  lemma AllocateKvOk(st: Store, n: nat)
    requires Valid(st)
    ensures var g := AllocateKv(st, n);
      && Valid(g.store)
      && NoDup(g.taken)
      && |g.store.pool.refs| == |st.pool.refs|
      && (forall b :: b in g.taken ==> b < |st.pool.refs| && st.Refs(b) == 0 && !g.store.Cached(b))
      && (forall b: BlockId :: g.store.Refs(b) == st.Refs(b) + if b in g.taken then 1 else 0)
      && (forall b: BlockId :: g.store.Cached(b) ==> st.Cached(b) && g.store.cache.byBlock[b] == st.cache.byBlock[b])
      && (forall b: BlockId :: st.Cached(b) && st.Refs(b) > 0 ==> g.store.Cached(b))
      && g.ok == (n <= |st.pool.free| + |st.cache.idle|)
      && (g.ok ==> |g.taken| == n)
      && (!g.ok ==> g.taken == st.pool.free + st.cache.idle)
  {
    hide Valid, EvictMany, AllocateBlocks;
    var short := if n <= |st.pool.free| then 0 else n - |st.pool.free|;
    var k := if short <= |st.cache.idle| then short else |st.cache.idle|;
    EvictManyOk(st, k);
    var st' := EvictMany(st, k);
    AllocateBlocksOk(st', n);
    var idle := st.cache.idle;
    assert idle[..|idle|] == idle;
    assert forall b: BlockId :: st'.Refs(b) == st.Refs(b);
    assert forall b: BlockId :: b in idle[..k] ==> b in idle;
    forall b: BlockId
      ensures b in st'.pool.free ==> b < |st.pool.refs| && st.Refs(b) == 0 && !st'.Cached(b)
      ensures b in idle ==> st.Refs(b) == 0
    {
      FreeOrIdle(st, b);
      FreeOrIdle(st', b);
    }
  }

  /** The documented contract of a failed allocation, that the pool is unchanged, holds exactly when
      there was nothing to take. */
  lemma FailedAllocationKeepsPoolIff(st: Store, n: nat)
    requires Valid(st)
    requires !AllocateKv(st, n).ok
    ensures AllocateKv(st, n).store.pool.refs == st.pool.refs <==>
            st.pool.free == [] && st.cache.idle == []
  {
    AllocateKvOk(st, n);
    var g := AllocateKv(st, n);
    if st.pool.free == [] && st.cache.idle == [] {
      assert g.taken == [];
      forall b | 0 <= b < |st.pool.refs| ensures g.store.pool.refs[b] == st.pool.refs[b] {
        assert g.store.Refs(b) == st.Refs(b);
      }
    } else {
      var b := g.taken[0];
      assert b in g.taken;
      assert g.store.Refs(b) != st.Refs(b);
    }
  }

  // ---------------------------------------------------------------- release

  ghost predicate Releasable(st: Store, table: seq<BlockId>) {
    forall b: BlockId :: multiset(table)[b] <= st.Refs(b)
  }

  /** Blocks of table[i..] that have no reference left and no home yet. */
  ghost function Homeless(st: Store, table: seq<BlockId>, i: nat): set<BlockId>
    requires i <= |table|
  {
    set b | b in table[i..] && b !in table[..i] && st.Refs(b) == 0
  }

  lemma {:induction false} SettleOk(st: Store, table: seq<BlockId>, i: nat)
    requires i <= |table|
    requires Indexed(st.cache) && Placed(st, Homeless(st, table, i))
    requires forall b :: b in table ==> b < |st.pool.refs|
    ensures var st' := Settle(st, table, i);
      && Valid(st')
      && st'.pool.refs == st.pool.refs
      && st'.cache == st.cache.(idle := st'.cache.idle)
    decreases |table| - i
  {
    hide Listed, Bucketed;
    if i == |table| {
      assert Homeless(st, table, i) == {};
    } else {
      var b := table[i];
      assert table[i..] == [b] + table[i + 1..];
      assert table[..i + 1] == table[..i] + [b];
      var home := Homeless(st, table, i);
      if b in table[..i] || st.Refs(b) != 0 {
        assert Homeless(st, table, i + 1) == home;
        SettleOk(st, table, i + 1);
      } else {
        var st1 := if st.Cached(b) then st.(cache := st.cache.(idle := st.cache.idle + [b]))
                   else st.(pool := Recycle(st.pool, b));
        assert b in home;
        assert Homeless(st1, table, i + 1) == home - {b};
        SettleOk(st1, table, i + 1);
      }
    }
  }

  lemma ReleaseTableOk(st: Store, table: seq<BlockId>)
    requires Valid(st) && Releasable(st, table)
    ensures var st' := ReleaseTable(st, table);
      && Valid(st')
      && |st'.pool.refs| == |st.pool.refs|
      && (forall b: BlockId :: st'.Refs(b) == st.Refs(b) - multiset(table)[b])
      && st'.cache == st.cache.(idle := st'.cache.idle)
  {
    var st1 := st.(pool := st.pool.(refs := ReleaseRefs(st.pool.refs, table)));
    forall b: BlockId
      ensures st1.Refs(b) == st.Refs(b) - multiset(table)[b]
      ensures b in table ==> b < |st.pool.refs|
      ensures b !in table ==> multiset(table)[b] == 0
    {
      assert multiset(table)[b] <= st.Refs(b);
      assert b in table <==> multiset(table)[b] > 0;
    }
    assert table[0..] == table && table[..0] == [];
    var home := Homeless(st1, table, 0);
    assert Placed(st1, home) by {
      forall b: BlockId | b in table ensures st.Refs(b) > 0 {}
      forall b: BlockId | b < |st.pool.refs|
        ensures st1.pool.refs[b] == 0 <==> st.pool.refs[b] == 0 || b in home
        ensures b in home ==> st.pool.refs[b] > 0
      {
        assert st1.Refs(b) == st1.pool.refs[b];
      }
    }
    SettleOk(st1, table, 0);
    assert forall b: BlockId :: ReleaseTable(st, table).Refs(b) == st1.Refs(b);
  }

  // ---------------------------------------------------------------- lookup

  lemma RetainOk(st: Store, b: BlockId)
    requires Valid(st) && st.Cached(b)
    ensures var st' := Retain(st, b);
      && Valid(st')
      && |st'.pool.refs| == |st.pool.refs|
      && (forall x: BlockId :: st'.Refs(x) == st.Refs(x) + if x == b then 1 else 0)
      && st'.cache.byHash == st.cache.byHash && st'.cache.byBlock == st.cache.byBlock
      && st'.cache.entries == st.cache.entries
      && st'.pool.free == st.pool.free
  {
    WithoutNoDup(st.cache.idle, b);
  }

  lemma BucketFront(st: Store, h: Hash)
    requires Valid(st) && h in st.cache.byHash
    ensures st.cache.byHash[h] != []
    ensures var b := st.cache.byHash[h][0]; st.Cached(b) && st.cache.byBlock[b] == h
  {
    assert InBucket(st.cache.byHash, h, st.cache.byHash[h][0]);
  }

  /** Lookup changes no index and keeps the store valid. */
  lemma {:induction false} LookupValid(st: Store, hs: seq<Hash>)
    requires Valid(st)
    ensures var r := LookupPrefix(st, hs);
      && Valid(r.store) && |r.table| <= |hs|
      && |r.store.pool.refs| == |st.pool.refs| && r.store.pool.free == st.pool.free
      && r.store.cache.byHash == st.cache.byHash && r.store.cache.byBlock == st.cache.byBlock
      && r.store.cache.entries == st.cache.entries
    decreases |hs|
  {
    hide Valid, Retain;
    if hs != [] {
      MissOk(st);
      if hs[0] in st.cache.byHash {
        BucketFront(st, hs[0]);
        var b := st.cache.byHash[hs[0]][0];
        RetainOk(st, b);
        LookupValid(Retain(st, b), hs[1..]);
      }
    }
  }

  /** One reference more for every returned occurrence. */
  lemma {:induction false} LookupRefs(st: Store, hs: seq<Hash>)
    requires Valid(st)
    ensures var r := LookupPrefix(st, hs); forall b: BlockId :: r.store.Refs(b) == st.Refs(b) + multiset(r.table)[b]
    decreases |hs|
  {
    hide Valid, Retain;
    if hs != [] && hs[0] in st.cache.byHash {
      BucketFront(st, hs[0]);
      var b := st.cache.byHash[hs[0]][0];
      RetainOk(st, b);
      LookupRefs(Retain(st, b), hs[1..]);
      var rest := LookupPrefix(Retain(st, b), hs[1..]);
      CountSplit([b], rest.table);
      assert LookupPrefix(st, hs) == Lookup(rest.store, [b] + rest.table);
    }
  }

  /** The table is the run of leading hashes that have an entry, up to the first that has none. */
  lemma {:induction false} LookupRun(st: Store, hs: seq<Hash>)
    requires Valid(st)
    ensures var r := LookupPrefix(st, hs);
      && |r.table| <= |hs|
      && (forall i | 0 <= i < |r.table| :: hs[i] in st.cache.byHash && r.table[i] == st.cache.byHash[hs[i]][0])
      && (|r.table| < |hs| ==> hs[|r.table|] !in st.cache.byHash)
    decreases |hs|
  {
    hide Valid, Retain;
    if hs != [] && hs[0] in st.cache.byHash {
      BucketFront(st, hs[0]);
      var b := st.cache.byHash[hs[0]][0];
      RetainOk(st, b);
      LookupRun(Retain(st, b), hs[1..]);
      var rest := LookupPrefix(Retain(st, b), hs[1..]);
      assert LookupPrefix(st, hs).table == [b] + rest.table;
    }
  }

  /** Lookup returns the longest run of leading prefixes that are cached, takes one reference for every
      block it returns, and changes nothing else. */
  lemma LookupPrefixOk(st: Store, hs: seq<Hash>)
    requires Valid(st)
    ensures var r := LookupPrefix(st, hs);
      && Valid(r.store)
      && |r.table| <= |hs|
      && (forall i | 0 <= i < |r.table| :: hs[i] in st.cache.byHash && r.table[i] == st.cache.byHash[hs[i]][0])
      && (|r.table| < |hs| ==> hs[|r.table|] !in st.cache.byHash)
      && |r.store.pool.refs| == |st.pool.refs|
      && (forall b: BlockId :: r.store.Refs(b) == st.Refs(b) + multiset(r.table)[b])
      && r.store.cache.byHash == st.cache.byHash && r.store.cache.byBlock == st.cache.byBlock
      && r.store.cache.entries == st.cache.entries
      && r.store.pool.free == st.pool.free
  {
    hide Valid, LookupPrefix;
    LookupValid(st, hs);
    LookupRefs(st, hs);
    LookupRun(st, hs);
  }

  lemma MissOk(st: Store)
    requires Valid(st)
    ensures Valid(st.(cache := st.cache.(misses := st.cache.misses + 1)))
  {
    hide Listed, Bucketed, NoDup;
  }

  /** Every returned block is cached under the hash it was asked for. */
  lemma LookupCached(st: Store, hs: seq<Hash>, i: nat)
    requires Valid(st) && i < |LookupPrefix(st, hs).table|
    ensures i < |hs|
    ensures var b := LookupPrefix(st, hs).table[i]; st.Cached(b) && st.cache.byBlock[b] == hs[i]
  {
    LookupPrefixOk(st, hs);
    BucketFront(st, hs[i]);
  }

  // ---------------------------------------------------------------- publish

  lemma PublishOk(st: Store, h: Hash, b: BlockId)
    requires Valid(st) && st.Refs(b) > 0
    ensures var st' := Publish(st, h, b);
      && Valid(st')
      && st'.pool == st.pool
      && (!st.Cached(b) ==> st'.cache.byBlock == st.cache.byBlock[b := h])
      && (st.Cached(b) ==> st' == st)
  {
    if !st.Cached(b) {
      var c, c' := st.cache, Publish(st, h, b).cache;
      assert Listed(c'.entries, c'.byBlock) by {
        forall e ensures e in c'.entries <==> e in c.entries || e == Entry(h, b) {}
      }
      assert Bucketed(c'.byHash, c'.byBlock) by {
        forall g, x ensures InBucket(c'.byHash, g, x) <==> InBucket(c.byHash, g, x) || (g == h && x == b) {}
        assert !InBucket(c.byHash, h, b);
      }
    }
  }

  // ---------------------------------------------------------------- accounting

  function ActiveBlocks(st: Store): int {
    |st.pool.refs| - |st.pool.free| - |st.cache.idle|
  }

  /** stats().block_active is exactly the number of blocks with a positive reference count. */
  lemma ActiveBlocksCount(st: Store)
    requires Valid(st)
    ensures ActiveBlocks(st) == |set b: BlockId | b < |st.pool.refs| && st.pool.refs[b] > 0|
  {
    hide Valid;
    var n := |st.pool.refs|;
    var active := set b: BlockId | b < n && st.pool.refs[b] > 0;
    var free := set b | b in st.pool.free;
    var idle := set b | b in st.cache.idle;
    Partition(st);
    assert Ids(n) == active + free + idle;
    DisjointSizes(active, free, idle);
    assert |free| == |st.pool.free| by { NoDupCardinality(st.pool.free); }
    assert |idle| == |st.cache.idle| by { NoDupCardinality(st.cache.idle); }
  }

  /** Every block is active, free or idle, and only one of them. */
  lemma Partition(st: Store)
    requires Valid(st)
    ensures NoDup(st.pool.free) && NoDup(st.cache.idle)
    ensures forall b: BlockId ::
      && (b < |st.pool.refs| <==>
        (b < |st.pool.refs| && st.pool.refs[b] > 0) || b in st.pool.free
        || b in st.cache.idle)
      && (st.Refs(b) > 0 ==> b !in st.pool.free && b !in st.cache.idle)
      && (b in st.pool.free ==> b !in st.cache.idle)
  {
  }

  lemma DisjointSizes<T>(a: set<T>, b: set<T>, c: set<T>)
    requires a !! b && a !! c && b !! c
    ensures |a + b + c| == |a| + |b| + |c|
  {
    assert (a + b) !! c;
  }

  ghost function Ids(n: nat): (r: set<BlockId>)
    ensures |r| == n
    ensures forall b: BlockId :: b in r <==> b < n
  {
    if n == 0 then {} else Ids(n - 1) + {n - 1}
  }
}
