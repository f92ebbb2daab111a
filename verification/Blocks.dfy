/**
 The KV block pool and the prefix cache over it, as values.

 `Pool` is the block metadata (reference count and status of every block) and the free list.
 `Cache` is the cached subset: the entry list, the idle LRU, the hash buckets and the block index.
 An entry iterator of the source is identified by its block id, since a block has one entry.
 */
module Blocks {
  import opened Types
  import opened Seqs

  datatype Entry = Entry(hash: Hash, block: BlockId)

  datatype Pool = Pool(refs: seq<nat>, inUse: seq<bool>, free: seq<BlockId>)

  datatype Cache = Cache(entries: seq<Entry>, idle: seq<BlockId>,
                         byHash: map<Hash, seq<BlockId>>, byBlock: map<BlockId, Hash>,
                         hits: nat, misses: nat, evictions: nat)

  datatype Store = Store(pool: Pool, cache: Cache) {
    function Refs(b: BlockId): nat {
      if b < |pool.refs| then pool.refs[b] else 0
    }

    predicate Cached(b: BlockId) {
      b in cache.byBlock
    }
  }

  function FreshPool(n: nat): Pool {
    Pool(seq(n, _ => 0), seq(n, _ => false), seq(n, i => i))
  }

  const EMPTY_CACHE := Cache([], [], map[], map[], 0, 0, 0)

  function FreshStore(n: nat): Store {
    Store(FreshPool(n), EMPTY_CACHE)
  }

  // ---------------------------------------------------------------- invariants

  /** The entry list and the block index hold the same entries, once each. */
  ghost predicate Listed(entries: seq<Entry>, byBlock: map<BlockId, Hash>) {
    && (forall i, j | 0 <= i < j < |entries| :: entries[i].block != entries[j].block)
    && (forall e :: e in entries <==> e.block in byBlock && byBlock[e.block] == e.hash)
  }

  ghost predicate InBucket(byHash: map<Hash, seq<BlockId>>, h: Hash, b: BlockId) {
    h in byHash && b in byHash[h]
  }

  /** The hash buckets and the block index hold the same entries, once each; no bucket is empty. */
  ghost predicate Bucketed(byHash: map<Hash, seq<BlockId>>, byBlock: map<BlockId, Hash>) {
    && (forall h :: h in byHash ==> byHash[h] != [] && NoDup(byHash[h]))
    && (forall h, b :: InBucket(byHash, h, b) ==> b in byBlock && byBlock[b] == h)
    && (forall b :: b in byBlock ==> InBucket(byHash, byBlock[b], b))
  }

  ghost predicate Indexed(c: Cache) {
    Listed(c.entries, c.byBlock) && Bucketed(c.byHash, c.byBlock)
  }

  /** Every zero-reference block has exactly one home, except those in limbo, which are on their
      way: the free list when it has no cache entry, the idle LRU when it has one. */
  ghost predicate Placed(st: Store, limbo: set<BlockId>) {
    var n := |st.pool.refs|;
    && |st.pool.inUse| == n
    && NoDup(st.pool.free) && NoDup(st.cache.idle)
    && (forall b: BlockId :: b in st.pool.free <==>
      b < n && st.pool.refs[b] == 0 && b !in st.cache.byBlock
      && b !in limbo)
    && (forall b: BlockId :: b in st.cache.idle <==>
      b < n && b in st.cache.byBlock && st.pool.refs[b] == 0
      && b !in limbo)
    && (forall b: BlockId :: b in st.cache.byBlock ==> b < n)
    && (forall b | 0 <= b < n :: st.pool.inUse[b] <==> b !in st.pool.free)
    && (forall b: BlockId :: b in limbo ==> b < n && st.pool.refs[b] == 0)
  }

  ghost predicate Valid(st: Store) {
    Indexed(st.cache) && Placed(st, {})
  }

  // ---------------------------------------------------------------- allocation

  /** allocate_blocks: takes blocks from the front of the free list until enough or none are left.
      There is no rollback: on failure every taken block keeps its reference. */
  datatype Grant = Grant(store: Store, taken: seq<BlockId>, ok: bool)

  function TakeRefs(refs: seq<nat>, taken: seq<BlockId>): (r: seq<nat>) {
    seq(|refs|, b requires 0 <= b < |refs| => if b in taken then 1 else refs[b])
  }

  function TakeUse(inUse: seq<bool>, taken: seq<BlockId>): (r: seq<bool>) {
    seq(|inUse|, b requires 0 <= b < |inUse| => b in taken || inUse[b])
  }

  function AllocateBlocks(st: Store, n: nat): Grant {
    var k := if n <= |st.pool.free| then n else |st.pool.free|;
    var taken := st.pool.free[..k];
    Grant(st.(pool := Pool(TakeRefs(st.pool.refs, taken), TakeUse(st.pool.inUse, taken), st.pool.free[k..])),
          taken, n <= |st.pool.free|)
  }

  // ---------------------------------------------------------------- eviction

  /** The first entry for b removed. */
  function DropEntry(es: seq<Entry>, b: BlockId): seq<Entry> {
    if es == [] then []
    else if es[0].block == b then es[1..]
    else [es[0]] + DropEntry(es[1..], b)
  }

  /** Removal by moving the last element into the hole. */
  function SwapRemove(bucket: seq<BlockId>, b: BlockId): (r: seq<BlockId>) {
    if b !in bucket then bucket
    else
      var pos := IndexOf(bucket, b);
      bucket[pos := bucket[|bucket| - 1]][..|bucket| - 1]
  }

  function IndexOf(s: seq<BlockId>, b: BlockId): (i: nat)
    requires b in s
    ensures i < |s| && s[i] == b
    ensures forall j | 0 <= j < i :: s[j] != b
  {
    if s[0] == b then 0 else 1 + IndexOf(s[1..], b)
  }

  lemma SwapRemoveOk(bucket: seq<BlockId>, b: BlockId)
    requires NoDup(bucket) && b in bucket
    ensures NoDup(SwapRemove(bucket, b))
    ensures |SwapRemove(bucket, b)| == |bucket| - 1
    ensures forall x :: x in SwapRemove(bucket, b) <==> x in bucket && x != b
  {
    var pos := IndexOf(bucket, b);
    var last := |bucket| - 1;
    var r := SwapRemove(bucket, b);
    assert forall i | 0 <= i < last :: r[i] == if i == pos then bucket[last] else bucket[i];
    forall x | x in bucket && x != b ensures x in r {
      var i :| 0 <= i < |bucket| && bucket[i] == x;
      assert if i == last then r[pos] == x else r[i] == x;
    }
  }

  function EraseEntry(c: Cache, b: BlockId): Cache {
    if b !in c.byBlock then c
    else
      var h := c.byBlock[b];
      var bucket := SwapRemove(if h in c.byHash then c.byHash[h] else [], b);
      c.(idle := Without(c.idle, b),
         byHash := if bucket == [] then c.byHash - {h} else c.byHash[h := bucket],
         byBlock := c.byBlock - {b},
         entries := DropEntry(c.entries, b))
  }

  function Recycle(p: Pool, b: BlockId): Pool {
    if b < |p.inUse| then p.(inUse := p.inUse[b := false], free := p.free + [b]) else p
  }

  function EvictOne(st: Store): Store {
    if st.cache.idle == [] then st
    else
      var victim := st.cache.idle[0];
      Store(Recycle(st.pool, victim),
            EraseEntry(st.cache, victim).(evictions := st.cache.evictions + 1))
  }

  function EvictMany(st: Store, k: nat): Store
    decreases k
  {
    if k == 0 then st else EvictMany(EvictOne(st), k - 1)
  }

  /** allocate_kv_blocks: evict idle blocks while the free list is short, then allocate. */
  function AllocateKv(st: Store, n: nat): Grant {
    var short := if n <= |st.pool.free| then 0 else n - |st.pool.free|;
    var k := if short <= |st.cache.idle| then short else |st.cache.idle|;
    AllocateBlocks(EvictMany(st, k), n)
  }

  // ---------------------------------------------------------------- release

  function ReleaseRefs(refs: seq<nat>, table: seq<BlockId>): (r: seq<nat>) {
    seq(|refs|, b requires 0 <= b < |refs| =>
      var k := multiset(table)[b]; if k <= refs[b] then refs[b] - k else 0)
  }

  /** Gives the zero-reference blocks of table[i..] their home, first occurrence first. */
  function Settle(st: Store, table: seq<BlockId>, i: nat): Store
    decreases |table| - i
  {
    if i >= |table| then st
    else
      var b := table[i];
      if b in table[..i] || st.Refs(b) != 0 then Settle(st, table, i + 1)
      else if st.Cached(b) then Settle(st.(cache := st.cache.(idle := st.cache.idle + [b])), table, i + 1)
      else Settle(st.(pool := Recycle(st.pool, b)), table, i + 1)
  }

  function ReleaseTable(st: Store, table: seq<BlockId>): Store {
    Settle(st.(pool := st.pool.(refs := ReleaseRefs(st.pool.refs, table))), table, 0)
  }

  // ---------------------------------------------------------------- lookup and publish

  datatype Lookup = Lookup(store: Store, table: seq<BlockId>)

  function Retain(st: Store, b: BlockId): Store {
    if b >= |st.pool.refs| then st
    else
      var idle := if st.pool.refs[b] == 0 then Without(st.cache.idle, b) else st.cache.idle;
      Store(st.pool.(refs := st.pool.refs[b := st.pool.refs[b] + 1]),
            st.cache.(idle := idle, hits := st.cache.hits + 1))
  }

  /** lookup_prefix_cache on the chain hashes of the prompt. */
  function LookupPrefix(st: Store, hs: seq<Hash>): Lookup
    decreases |hs|
  {
    if hs == [] then Lookup(st, [])
    else if hs[0] !in st.cache.byHash || st.cache.byHash[hs[0]] == [] then
      Lookup(st.(cache := st.cache.(misses := st.cache.misses + 1)), [])
    else
      var b := st.cache.byHash[hs[0]][0];
      var rest := LookupPrefix(Retain(st, b), hs[1..]);
      Lookup(rest.store, [b] + rest.table)
  }

  function Publish(st: Store, h: Hash, b: BlockId): Store {
    if st.Cached(b) then st
    else
      var c := st.cache;
      st.(cache := c.(entries := c.entries + [Entry(h, b)],
                      byBlock := c.byBlock[b := h],
                      byHash := c.byHash[h := (if h in c.byHash then c.byHash[h] else []) + [b]]))
  }
}
