/** The block pool and the prefix cache as objects; their methods compute the functions of Blocks. */
module BlockClasses {
  import opened Types
  import opened Seqs
  import opened Hashing
  import opened Blocks
  import BlockLemmas

  // ---------------------------------------------------------------- hashes

  /** chain_hashes: one running hash, recorded at the end of every full block. */
  method ComputeChainHashes(c: Config, tokens: seq<Token>, parent: Hash, seed: Hash) returns (hashes: seq<Hash>)
    requires c.blockSize > 0
    ensures hashes == ChainHashes(c, tokens, parent, seed)
  {
    var blocks := |tokens| / c.blockSize;
    var start := if seed != 0 then c.combine(parent, seed) else parent;
    var h := start;
    hashes := [];
    var b := 0;
    CapMono(c, 0, blocks);
    while b < blocks
      invariant 0 <= b <= blocks && |hashes| == b && Cap(c, b) <= Cap(c, blocks) <= |tokens|
      invariant h == Chain(c, start, tokens[..Cap(c, b)])
      invariant forall i | 0 <= i < b :: hashes[i] == ChainHashes(c, tokens, parent, seed)[i]
    {
      CapMono(c, b + 1, blocks);
      assert Cap(c, b + 1) == Cap(c, b) + c.blockSize;
      var t := 0;
      while t < c.blockSize
        invariant 0 <= t <= c.blockSize
        invariant h == Chain(c, start, tokens[..Cap(c, b) + t])
      {
        MixOne(c, start, tokens, Cap(c, b) + t);
        h := c.combine(h, tokens[Cap(c, b) + t]);
        t := t + 1;
      }
      hashes := hashes + [h];
      b := b + 1;
    }
  }

  lemma MixOne(c: Config, start: Hash, tokens: seq<Token>, k: nat)
    requires k < |tokens|
    ensures Chain(c, start, tokens[..k + 1]) == c.combine(Chain(c, start, tokens[..k]), tokens[k])
  {
    assert tokens[..k + 1] == tokens[..k] + [tokens[k]];
    ChainConcat(c, start, tokens[..k], [tokens[k]]);
    assert [tokens[k]][1..] == [];
  }

  // ---------------------------------------------------------------- pool

  /** The pool after the first i blocks of the free list were taken. */
  function TakenPool(p: Pool, i: nat): Pool
    requires i <= |p.free|
  {
    Pool(TakeRefs(p.refs, p.free[..i]), TakeUse(p.inUse, p.free[..i]), p.free[i..])
  }

  lemma TakeNext(p: Pool, i: nat)
    requires i < |p.free| && |p.inUse| == |p.refs| && p.free[i] < |p.refs|
    ensures var q := TakenPool(p, i); var b := p.free[i];
      q.free != [] && q.free[0] == b && |q.refs| == |p.refs| == |q.inUse|
      && TakenPool(p, i + 1) == Pool(q.refs[b := 1], q.inUse[b := true], q.free[1..])
  {
    assert p.free[..i + 1] == p.free[..i] + [p.free[i]];
  }

  lemma TakeNone(p: Pool)
    ensures TakenPool(p, 0) == p
  {
    assert TakeRefs(p.refs, []) == p.refs && TakeUse(p.inUse, []) == p.inUse;
    assert p.free[..0] == [] && p.free[0..] == p.free;
  }

  lemma ReleaseNext(refs: seq<nat>, table: seq<BlockId>, i: nat)
    requires i < |table| && table[i] < |refs| && forall b: BlockId | b < |refs| :: multiset(table)[b] <= refs[b]
    ensures var b := table[i]; var now := ReleaseRefs(refs, table[..i]);
      now[b] > 0 && ReleaseRefs(refs, table[..i + 1]) == now[b := now[b] - 1]
  {
    var b := table[i];
    assert table[..i + 1] == table[..i] + [b];
    assert table == table[..i + 1] + table[i + 1..];
    forall x: BlockId | x < |refs| ensures multiset(table[..i + 1])[x] <= refs[x] {}
    assert multiset(table[..i + 1])[b] == multiset(table[..i])[b] + 1;
  }

  class BlockPool {
    const refs: array<nat>
    const inUse: array<bool>
    var free: seq<BlockId>

    ghost predicate Valid()
      reads this
    {
      refs.Length == inUse.Length && forall i | 0 <= i < |free| :: free[i] < refs.Length
    }

    function View(): Pool
      reads this, refs, inUse
    {
      Pool(refs[..], inUse[..], free)
    }

    constructor (n: nat)
      ensures Valid() && View() == FreshPool(n) && fresh(refs) && fresh(inUse)
    {
      refs := new nat[n](_ => 0);
      inUse := new bool[n](_ => false);
      free := seq(n, i requires 0 <= i => i);
    }

    /** allocate: the first free block, with one reference. */
    method Allocate() returns (r: Option<BlockId>)
      requires Valid()
      modifies this, refs, inUse
      ensures Valid()
      ensures old(free) == [] ==> r == None && View() == old(View())
      ensures old(free) != [] ==>
        var b := old(free)[0];
        r == Some(b) && View() == Pool(old(refs[..])[b := 1], old(inUse[..])[b := true], old(free)[1..])
    {
      if free == [] { return None; }
      var b := free[0];
      free := free[1..];
      inUse[b] := true;
      refs[b] := 1;
      return Some(b);
    }

    /** allocate_blocks: one by one, without giving anything back when the list runs out. */
    method AllocateBlocks(n: nat) returns (table: seq<BlockId>, ok: bool)
      requires Valid()
      modifies this, refs, inUse
      ensures Valid()
      ensures var g := Blocks.AllocateBlocks(Store(old(View()), EMPTY_CACHE), n);
        View() == g.store.pool && ok == g.ok && table == if ok then g.taken else []
    {
      ghost var p := View();
      table, ok := [], true;
      TakeNone(p);
      var i := 0;
      while i < n
        invariant 0 <= i <= n && i <= |p.free| && ok && Valid()
        invariant View() == TakenPool(p, i) && table == p.free[..i]
      {
        if i < |p.free| {
          assert View().free[0] == p.free[i];
          TakeNext(p, i);
        }
        var id := Allocate();
        if id.None? { return [], false; }
        table := table + [id.value];
        i := i + 1;
      }
    }

    /** retain_request. The source also asserts a positive count, which a cached block need not have. */
    method RetainRequest(b: BlockId)
      requires Valid() && b < refs.Length && inUse[b]
      modifies refs
      ensures View() == old(View()).(refs := old(refs[..])[b := old(refs[b]) + 1])
    {
      refs[b] := refs[b] + 1;
    }

    method ReleaseRequest(b: BlockId) returns (left: nat)
      requires Valid() && b < refs.Length && refs[b] > 0
      modifies refs
      ensures View() == old(View()).(refs := old(refs[..])[b := left]) && left == old(refs[b]) - 1
    {
      refs[b] := refs[b] - 1;
      left := refs[b];
    }

    /** release_blocks: one reference per occurrence. */
    method ReleaseBlocks(table: seq<BlockId>)
      requires Valid() && (forall b :: b in table ==> b < refs.Length)
      requires forall b: BlockId | b < refs.Length :: multiset(table)[b] <= refs[b]
      modifies refs
      ensures View() == old(View()).(refs := ReleaseRefs(old(refs[..]), table))
    {
      ghost var r0 := refs[..];
      assert ReleaseRefs(r0, table[..0]) == r0;
      var i := 0;
      while i < |table|
        invariant 0 <= i <= |table| && Valid() && |r0| == refs.Length
        invariant refs[..] == ReleaseRefs(r0, table[..i]) && inUse[..] == old(inUse[..]) && free == old(free)
      {
        assert table[i] in table;
        ReleaseNext(r0, table, i);
        var left := ReleaseRequest(table[i]);
        i := i + 1;
      }
      assert table[..i] == table;
    }

    method RecycleBlock(b: BlockId)
      requires Valid() && b < refs.Length && inUse[b] && refs[b] == 0
      modifies this, inUse
      ensures Valid() && View() == Recycle(old(View()), b)
    {
      inUse[b] := false;
      free := free + [b];
    }
  }

  // ---------------------------------------------------------------- cache

  lemma EvictStep(st: Store, j: nat)
    ensures EvictMany(st, j + 1) == EvictOne(EvictMany(st, j))
    decreases j
  {
    if j > 0 { EvictStep(EvictOne(st), j - 1); }
  }

  lemma NothingIdle(st: Store)
    requires st.cache.idle == []
    ensures EvictOne(st) == st
  {
  }

  lemma ValidFree(st: Store)
    requires Blocks.Valid(st)
    ensures |st.pool.inUse| == |st.pool.refs|
    ensures forall i | 0 <= i < |st.pool.free| :: st.pool.free[i] < |st.pool.refs|
    ensures forall i | 0 <= i < |st.cache.idle| :: st.cache.idle[i] < |st.pool.refs|
    ensures forall b :: b in st.cache.byBlock ==> b < |st.pool.refs|
  {
    hide Listed, Bucketed, NoDup;
    forall i | 0 <= i < |st.pool.free| ensures st.pool.free[i] < |st.pool.refs| {
      assert st.pool.free[i] in st.pool.free;
    }
    forall i | 0 <= i < |st.cache.idle| ensures st.cache.idle[i] < |st.pool.refs| {
      assert st.cache.idle[i] in st.cache.idle;
    }
  }

  /** Only free blocks are not in use. */
  lemma CachedInUse(st: Store, b: BlockId)
    requires Blocks.Valid(st) && (st.Cached(b) || st.Refs(b) > 0)
    ensures b < |st.pool.inUse| && st.pool.inUse[b]
  {
    hide Indexed, NoDup;
  }

  lemma TableInUse(st: Store, table: seq<BlockId>)
    requires Blocks.Valid(st) && BlockLemmas.Releasable(st, table)
    ensures forall b :: b in table ==> b < |st.pool.inUse| && st.pool.inUse[b]
  {
    hide Blocks.Valid;
    forall b | b in table ensures b < |st.pool.inUse| && st.pool.inUse[b] {
      assert 0 < multiset(table)[b] <= st.Refs(b);
      CachedInUse(st, b);
    }
  }

  class BlockCache {
    const pool: BlockPool
    var entries: seq<Entry>
    var idle: seq<BlockId>
    var byHash: map<Hash, seq<BlockId>>
    var byBlock: map<BlockId, Hash>
    var hits: nat
    var misses: nat
    var evictions: nat

    function View(): Store
      reads this, pool, pool.refs, pool.inUse
    {
      Store(pool.View(), Cache(entries, idle, byHash, byBlock, hits, misses, evictions))
    }

    ghost predicate Valid()
      reads this, pool, pool.refs, pool.inUse
    {
      pool.Valid() && Blocks.Valid(View())
    }

    /** A valid store lies in a valid pool. */
    lemma PoolValid()
      requires Blocks.Valid(View())
      ensures Valid()
    {
      hide Blocks.Valid;
      ValidFree(View());
    }

    constructor (p: BlockPool)
      requires p.Valid() && p.View() == FreshPool(p.refs.Length)
      ensures Valid() && pool == p && View() == FreshStore(p.refs.Length)
    {
      pool := p;
      entries, idle, byHash, byBlock, hits, misses, evictions := [], [], map[], map[], 0, 0, 0;
      new;
      BlockLemmas.FreshStoreValid(p.refs.Length);
    }

    /** Position of b in its bucket. */
    static method Find(bucket: seq<BlockId>, b: BlockId) returns (pos: nat)
      requires b in bucket
      ensures pos == IndexOf(bucket, b)
    {
      pos := 0;
      while bucket[pos] != b
        invariant 0 <= pos < |bucket| && pos <= IndexOf(bucket, b)
        invariant forall j | 0 <= j < pos :: bucket[j] != b
        decreases |bucket| - pos
      {
        pos := pos + 1;
      }
    }

    /** erase_entry: out of the LRU, out of its bucket by swapping with the last, out of both indexes. */
    method EraseEntry(b: BlockId)
      requires Valid() && b in byBlock
      modifies this
      ensures View() == old(View()).(cache := Blocks.EraseEntry(old(View()).cache, b))
    {
      hide Listed, Placed, NoDup;
      var h := byBlock[b];
      assert InBucket(byHash, h, b);
      var bucket := byHash[h];
      idle := Without(idle, b);
      var pos := Find(bucket, b);
      bucket := bucket[pos := bucket[|bucket| - 1]][..|bucket| - 1];
      if bucket == [] { byHash := byHash - {h}; } else { byHash := byHash[h := bucket]; }
      byBlock := byBlock - {b};
      entries := DropEntry(entries, b);
    }

    /** evict_one: the least recently idle block is uncached and free again. */
    method EvictOne() returns (ok: bool)
      requires Valid()
      modifies this, pool, pool.inUse
      ensures Valid() && View() == Blocks.EvictOne(old(View())) && (ok <==> old(idle) != [])
    {
      hide Blocks.Valid, Blocks.EraseEntry;
      if idle == [] { return false; }
      BlockLemmas.EvictOneOk(View());
      ValidFree(View());
      var victim := idle[0];
      BlockLemmas.FreeOrIdle(View(), victim);
      CachedInUse(View(), victim);
      ghost var st := View();
      EraseKeeps(st.cache, victim);
      EraseEntry(victim);
      pool.RecycleBlock(victim);
      evictions := evictions + 1;
      assert View() == Store(Recycle(st.pool, victim),
          Blocks.EraseEntry(st.cache, victim).(evictions := st.cache.evictions + 1));
      ok := true;
    }

    /** A block found gets a reference more and leaves the idle list. */
    method RetainHit(b: BlockId)
      requires Valid() && b in byBlock
      modifies this, pool.refs
      ensures Valid() && View() == Retain(old(View()), b)
    {
      hide Blocks.Valid, Retain;
      ghost var st := View();
      BlockLemmas.RetainOk(st, b);
      CachedInUse(st, b);
      ValidFree(st);
      if pool.refs[b] == 0 { idle := Without(idle, b); }
      pool.RetainRequest(b);
      hits := hits + 1;
      RetainForm(st, View(), b);
    }

    /** lookup_prefix_cache: takes cached blocks as long as the chain hashes are found. */
    method LookupPrefixCache(c: Config, tokens: seq<Token>, seed: Hash) returns (table: seq<BlockId>, parent: Hash)
      requires Valid() && c.blockSize > 0
      modifies this, pool.refs
      ensures Valid()
      ensures var hs := ChainHashes(c, tokens, 0, seed); var r := LookupPrefix(old(View()), hs);
        && View() == r.store && table == r.table
        && parent == if table == [] || |table| > |hs| then 0 else hs[|table| - 1]
    {
      hide Blocks.Valid, Retain, LookupPrefix, ChainHashes, Found;
      var hs := ComputeChainHashes(c, tokens, 0, seed);
      ghost var goal := LookupPrefix(View(), hs);
      table, parent := [], 0;
      var i := 0;
      assert hs[0..] == hs;
      FoundNone(goal);
      while i < |hs|
        invariant 0 <= i <= |hs| && |table| == i && Valid()
        invariant goal == Found(table, LookupPrefix(View(), hs[i..]))
        invariant parent == if i == 0 then 0 else hs[i - 1]
      {
        ghost var st := View();
        LookupNext(st, hs, i);
        if hs[i] !in byHash || byHash[hs[i]] == [] {
          BlockLemmas.MissOk(st);
          misses := misses + 1;
          FoundMore(table, 0, Lookup(View(), []));
          return;
        }
        BlockLemmas.BucketFront(st, hs[i]);
        var b := byHash[hs[i]][0];
        RetainHit(b);
        FoundMore(table, b, LookupPrefix(View(), hs[i + 1..]));
        table, parent := table + [b], hs[i];
        i := i + 1;
      }
      LookupNext(View(), hs, i);
      FoundMore(table, 0, Lookup(View(), []));
    }

    /** publish_full_block: a block that is cached already keeps its entry. */
    method PublishFullBlock(c: Config, parent: Hash, tokens: seq<Token>, b: BlockId, seed: Hash) returns (hash: Hash)
      requires Valid() && 0 < c.blockSize <= |tokens|
      requires b !in byBlock ==> b < pool.refs.Length && pool.refs[b] > 0
      requires b in byBlock ==> byBlock[b] == Chain(c, Seeded(c, parent, seed), tokens[..c.blockSize])
      modifies this
      ensures Valid() && hash == Chain(c, Seeded(c, parent, seed), tokens[..c.blockSize])
      ensures View() == Publish(old(View()), hash, b)
    {
      hide Blocks.Valid;
      var hs := ComputeChainHashes(c, tokens[..c.blockSize], parent, seed);
      OneHash(c, tokens[..c.blockSize], parent, seed);
      hash := hs[0];
      if b in byBlock { return; }
      BlockLemmas.PublishOk(View(), hash, b);
      entries := entries + [Entry(hash, b)];
      byBlock := byBlock[b := hash];
      byHash := byHash[hash := (if hash in byHash then byHash[hash] else []) + [b]];
    }

    /** stats().block_active: the blocks with a positive reference count. */
    method CountActive() returns (n: int)
      requires Valid()
      ensures n == |set b: BlockId | b < pool.refs.Length && pool.refs[b] > 0|
    {
      hide Blocks.Valid;
      n := pool.refs.Length - |pool.free| - |idle|;
      BlockLemmas.ActiveBlocksCount(View());
      assert (set b: BlockId | b < pool.refs.Length && pool.refs[b] > 0) == set b: BlockId | b < |View().pool.refs|
          && View().pool.refs[b] > 0;
    }

    // -------------------------------------------------------------- the scheduler's use of both

    /** allocate_kv_blocks: idle blocks are evicted while the free list is too short. */
    method AllocateKvBlocks(n: nat) returns (table: seq<BlockId>, ok: bool)
      requires Valid()
      modifies this, pool, pool.refs, pool.inUse
      ensures Valid()
      ensures n == 0 ==> table == [] && ok && View() == old(View())
      ensures n > 0 ==> var g := AllocateKv(old(View()), n); View() == g.store && ok == g.ok && table == if ok
          then g.taken else []
    {
      hide Blocks.Valid, Blocks.EvictOne;
      if n == 0 { return [], true; }
      ghost var st := View();
      ghost var short := if n <= |st.pool.free| then 0 else n - |st.pool.free|;
      ghost var k := if short <= |st.cache.idle| then short else |st.cache.idle|;
      ghost var j := 0;
      BlockLemmas.EvictManyOk(st, k);
      while |pool.free| < n
        invariant 0 <= j <= k && Valid() && View() == EvictMany(st, j)
        invariant |pool.free| == |st.pool.free| + j && |idle| == |st.cache.idle| - j
        decreases k - j
      {
        if idle != [] { BlockLemmas.EvictOneOk(View()); } else { NothingIdle(View()); }
        EvictStep(st, j);
        var evicted := EvictOne();
        if !evicted { break; }
        j := j + 1;
      }
      ghost var st1 := View();
      assert st1 == EvictMany(st, k);
      BlockLemmas.AllocateBlocksOk(st1, n);
      AllocatePool(st1, n);
      hide Blocks.AllocateBlocks, EvictMany;
      table, ok := pool.AllocateBlocks(n);
      assert View() == Store(pool.View(), st1.cache);
    }

    /** release_request_blocks: one reference per occurrence, then every block without references goes to
        the idle LRU or the free list, once. */
    method ReleaseRequestBlocks(table: seq<BlockId>)
      requires Valid() && BlockLemmas.Releasable(View(), table)
      modifies this, pool, pool.refs, pool.inUse
      ensures Valid() && View() == ReleaseTable(old(View()), table)
    {
      hide Blocks.Valid, Settle, ReleaseRefs;
      BlockLemmas.ReleaseTableOk(View(), table);
      ValidFree(View());
      ReleasableBounds(View(), table);
      TableInUse(View(), table);
      ghost var goal := ReleaseTable(View(), table);
      pool.ReleaseBlocks(table);
      var seen: set<BlockId> := {};
      var i := 0;
      while i < |table|
        invariant 0 <= i <= |table| && pool.Valid() && seen == set b | b in table[..i]
        invariant Settle(View(), table, i) == goal
        invariant forall b :: b in table && b !in seen ==> b < pool.inUse.Length && pool.inUse[b]
        invariant forall b :: b in table ==> b < pool.refs.Length
      {
        var b := table[i];
        assert b in table;
        SettleNext(View(), table, i);
        assert table[..i + 1] == table[..i] + [b];
        if b !in seen && pool.refs[b] == 0 {
          if b in byBlock { idle := idle + [b]; } else { pool.RecycleBlock(b); }
        }
        seen := seen + {b};
        i := i + 1;
      }
      SettleNext(View(), table, i);
    }
  }

  lemma EraseKeeps(c: Cache, b: BlockId)
    ensures Blocks.EraseEntry(c, b).evictions == c.evictions
  {
  }

  lemma LookupNext(st: Store, hs: seq<Hash>, i: nat)
    requires i <= |hs|
    ensures LookupPrefix(st, hs[i..]) ==
      if i == |hs| then Lookup(st, [])
      else if hs[i] !in st.cache.byHash || st.cache.byHash[hs[i]] == [] then
        Lookup(st.(cache := st.cache.(misses := st.cache.misses + 1)), [])
      else
        var b := st.cache.byHash[hs[i]][0];
        var rest := LookupPrefix(Retain(st, b), hs[i + 1..]);
        Lookup(rest.store, [b] + rest.table)
  {
    if i < |hs| { assert hs[i..][0] == hs[i] && hs[i..][1..] == hs[i + 1..]; }
  }

  /** Blocks found so far, before those still to be found. */
  function Found(table: seq<BlockId>, rest: Lookup): Lookup {
    Lookup(rest.store, table + rest.table)
  }

  lemma FoundNone(r: Lookup)
    ensures Found([], r) == r
  {
    assert [] + r.table == r.table;
  }

  lemma FoundMore(table: seq<BlockId>, b: BlockId, rest: Lookup)
    ensures Found(table, Lookup(rest.store, [b] + rest.table)) == Found(table + [b], rest)
    ensures Found(table, Lookup(rest.store, [])) == Lookup(rest.store, table)
  {
    assert table + ([b] + rest.table) == table + [b] + rest.table;
    assert table + [] == table;
  }

  lemma RetainForm(st: Store, st': Store, b: BlockId)
    requires b < |st.pool.refs|
    requires st'.pool == st.pool.(refs := st.pool.refs[b := st.pool.refs[b] + 1])
    requires st'.cache == st.cache.(idle := if st.pool.refs[b] == 0 then Without(st.cache.idle, b)
        else st.cache.idle, hits := st.cache.hits + 1)
    ensures st' == Retain(st, b)
  {
  }

  lemma OneHash(c: Config, tokens: seq<Token>, parent: Hash, seed: Hash)
    requires c.blockSize > 0 && |tokens| == c.blockSize
    ensures ChainHashes(c, tokens, parent, seed) == [Chain(c, Seeded(c, parent, seed), tokens)]
  {
    assert FullBlocks(c, |tokens|) == 1;
    assert Cap(c, 1) == c.blockSize;
    assert tokens[..c.blockSize] == tokens;
  }

  lemma AllocatePool(st: Store, n: nat)
    ensures AllocateBlocks(st, n).store.pool == AllocateBlocks(Store(st.pool, EMPTY_CACHE), n).store.pool
    ensures AllocateBlocks(st, n).taken == AllocateBlocks(Store(st.pool, EMPTY_CACHE), n).taken
    ensures AllocateBlocks(st, n).ok == AllocateBlocks(Store(st.pool, EMPTY_CACHE), n).ok
    ensures AllocateBlocks(st, n).store.cache == st.cache
  {
  }

  lemma ReleasableBounds(st: Store, table: seq<BlockId>)
    requires BlockLemmas.Releasable(st, table)
    ensures forall b :: b in table ==> b < |st.pool.refs|
    ensures forall b: BlockId | b < |st.pool.refs| :: multiset(table)[b] <= st.pool.refs[b]
  {
    forall b | b in table ensures b < |st.pool.refs| {
      assert multiset(table)[b] > 0;
      assert multiset(table)[b] <= st.Refs(b);
    }
    forall b: BlockId | b < |st.pool.refs| ensures multiset(table)[b] <= st.pool.refs[b] {
      assert multiset(table)[b] <= st.Refs(b);
    }
  }

  lemma SettleNext(st: Store, table: seq<BlockId>, i: nat)
    requires i <= |table|
    ensures Settle(st, table, i) ==
      if i == |table| then st
      else
        var b := table[i];
        if b in table[..i] || st.Refs(b) != 0 then Settle(st, table, i + 1)
        else if st.Cached(b) then Settle(st.(cache := st.cache.(idle := st.cache.idle + [b])), table, i + 1)
        else Settle(st.(pool := Recycle(st.pool, b)), table, i + 1)
  {
  }
}
