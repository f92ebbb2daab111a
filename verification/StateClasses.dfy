/** The state pool and the snapshot cache as objects. */
module StateClasses {
  import opened Types
  import opened Seqs
  import opened StateStore
  import opened SnapshotCache

  /** Bookkeeping of slots: a free slot is in its free list, and only there. */
  datatype Slots = Slots(inUse: seq<bool>, mutableFree: seq<nat>, snapshotFree: seq<nat>, active: map<SeqId, nat>)

  ghost predicate Sorted(t: Slots, maxActive: nat) {
    && NoDup(t.mutableFree) && NoDup(t.snapshotFree) && maxActive <= |t.inUse|
    && (forall s: nat :: s in t.mutableFree <==> s < maxActive && !t.inUse[s])
    && (forall s: nat :: s in t.snapshotFree <==> maxActive <= s < |t.inUse| && !t.inUse[s])
    && (forall q :: q in t.active ==> t.active[q] < maxActive && t.inUse[t.active[q]])
    && (forall p, q :: p in t.active && q in t.active && t.active[p] == t.active[q] ==> p == q)
    && (forall s: nat :: s < maxActive && t.inUse[s] ==> s in t.active.Values)
  }

  /** Take the first free slot of a list, or give one back at its end. */
  lemma SlotTaken(t: Slots, maxActive: nat, s: nat)
    requires Sorted(t, maxActive) && t.snapshotFree != [] && s == t.snapshotFree[0]
    ensures maxActive <= s < |t.inUse| && !t.inUse[s]
    ensures Sorted(t.(inUse := t.inUse[s := true], snapshotFree := t.snapshotFree[1..]), maxActive)
    ensures forall x :: x in t.snapshotFree[1..] <==> x in t.snapshotFree && x != s
  {
    assert s in t.snapshotFree;
    ListTail(t.snapshotFree);
  }

  lemma ListTail(list: seq<nat>)
    requires list != [] && NoDup(list)
    ensures NoDup(list[1..]) && forall x :: x in list[1..] <==> x in list && x != list[0]
  {
    assert list == [list[0]] + list[1..];
    assert forall i | 0 <= i < |list[1..]| :: list[1..][i] == list[i + 1];
  }

  lemma SlotGiven(t: Slots, maxActive: nat, s: nat)
    requires Sorted(t, maxActive) && maxActive <= s < |t.inUse| && t.inUse[s]
    ensures Sorted(t.(inUse := t.inUse[s := false], snapshotFree := t.snapshotFree + [s]), maxActive)
  {
  }

  lemma ActiveTaken(t: Slots, maxActive: nat, q: SeqId, s: nat)
    requires Sorted(t, maxActive) && t.mutableFree != [] && s == t.mutableFree[0] && q !in t.active
    ensures s < maxActive && !t.inUse[s]
    ensures Sorted(t.(inUse := t.inUse[s := true], mutableFree := t.mutableFree[1..], active := t.active[q := s]),
        maxActive)
    ensures Sorted(t.(mutableFree := t.mutableFree[1..] + [s]), maxActive)
  {
    assert s in t.mutableFree;
    ListTail(t.mutableFree);
    var t' := t.(inUse := t.inUse[s := true], mutableFree := t.mutableFree[1..], active := t.active[q := s]);
    forall x: nat | x < maxActive && t'.inUse[x] ensures x in t'.active.Values {
      if x == s {
        assert t'.active[q] == s;
      } else {
        var p :| p in t.active && t.active[p] == x;
        assert t'.active[p] == x;
      }
    }
  }

  lemma ActiveGiven(t: Slots, maxActive: nat, q: SeqId)
    requires Sorted(t, maxActive) && q in t.active
    ensures var s := t.active[q];
      Sorted(t.(inUse := t.inUse[s := false], mutableFree := t.mutableFree + [s], active := t.active - {q}), maxActive)
  {
    var s := t.active[q];
    var t' := t.(inUse := t.inUse[s := false], mutableFree := t.mutableFree + [s], active := t.active - {q});
    forall x: nat | x < maxActive && t'.inUse[x] ensures x in t'.active.Values {
      var p :| p in t.active && t.active[p] == x;
      assert p != q && t'.active[p] == x;
    }
  }

  lemma FreshSlots(t: Slots, active: nat, snapshots: nat)
    requires t.inUse == seq(active + snapshots, _ => false) && t.active == map[]
    requires t.mutableFree == seq(active, i requires 0 <= i => i)
        && t.snapshotFree == seq(snapshots, i requires 0 <= i => active + i)
    ensures Sorted(t, active)
  {
    forall s: nat | s < active ensures s in t.mutableFree { assert t.mutableFree[s] == s; }
    forall s: nat | active <= s < active + snapshots ensures s in t.snapshotFree {
      var i := s - active;
      assert t.snapshotFree[i] == s;
    }
  }

  // ---------------------------------------------------------------- the pool

  class StatePool {
    const maxActive: nat
    const maxSnapshots: nat
    const storage: StateStorage
    var slots: Slots

    ghost predicate Valid()
      reads this, storage
    {
      && storage.Valid() && storage.numStates == maxActive + maxSnapshots == |slots.inUse|
      && Sorted(slots, maxActive)
    }

    function StateAt(s: nat): State
      requires Valid() && s < maxActive + maxSnapshots
      reads this, storage
    {
      storage.StateAt(s)
    }

    constructor (active: nat, snapshots: nat, widths: seq<nat>)
      requires 0 < active
      ensures Valid() && fresh(storage) && maxActive == active && maxSnapshots == snapshots
      ensures slots.active == map[] && |slots.snapshotFree| == snapshots
      ensures |storage.layers| == |widths|
    {
      maxActive, maxSnapshots := active, snapshots;
      storage := new StateStorage(active + snapshots, widths);
      slots := Slots(seq(active + snapshots, _ => false), seq(active, i requires 0 <= i => i),
                     seq(snapshots, i requires 0 <= i => active + i), map[]);
      new;
      FreshSlots(slots, active, snapshots);
    }

    /** acquire_active: a sequence keeps the state it has; a new one gets a zeroed state. */
    method AcquireActive(q: SeqId, budget: nat) returns (r: Option<ErrorCode>)
      requires Valid()
      modifies this, storage
      ensures Valid() && |storage.layers| == old(|storage.layers|)
      ensures r.None? ==> q in slots.active
      ensures q in old(slots.active) ==> r.None? && slots == old(slots) && storage.layers == old(storage.layers)
      ensures q !in old(slots.active) ==>
        (r.None? <==> old(slots.mutableFree) != [] && |storage.layers| <= budget)
      ensures q !in old(slots.active) && r.None? ==>
        && slots.active == old(slots.active)[q := old(slots.mutableFree)[0]]
          && slots.mutableFree == old(slots.mutableFree)[1..]
        && slots.inUse == old(slots.inUse)[slots.active[q] := true]
        && forall i | 0 <= i < |storage.layers| ::
          StateAt(slots.active[q])[i] == Zeros(Width(storage.numStates, storage.layers[i]))
      ensures r.Some? ==>
        && slots.active == old(slots.active) && slots.inUse == old(slots.inUse)
        && slots.mutableFree == if old(slots.mutableFree) == [] then []
          else old(slots.mutableFree)[1..] + [old(slots.mutableFree)[0]]
      ensures slots.snapshotFree == old(slots.snapshotFree)
      ensures forall s: nat | s < maxActive + maxSnapshots && old(slots.inUse)[s] ::
          StateAt(s) == old(Held(storage.numStates, storage.layers, s))
    {
      if q in slots.active { return None; }
      if slots.mutableFree == [] { return Some(MaxSequencesReached); }
      var s := slots.mutableFree[0];
      ActiveTaken(slots, maxActive, q, s);
      hide Sorted;
      var ok := storage.ZeroState(s, budget);
      if !ok {
        slots := slots.(mutableFree := slots.mutableFree[1..] + [s]);
        return Some(InternalError);
      }
      slots := slots.(inUse := slots.inUse[s := true], mutableFree := slots.mutableFree[1..],
          active := slots.active[q := s]);
      return None;
    }

    /** release_active: idempotent. */
    method ReleaseActive(q: SeqId)
      requires Valid()
      modifies this
      ensures Valid() && q !in slots.active
      ensures forall p :: p != q ==>
          (p in slots.active <==> p in old(slots.active))
          && (p in slots.active ==> slots.active[p] == old(slots.active)[p])
      ensures q in old(slots.active) ==>
        slots.mutableFree == old(slots.mutableFree) + [old(slots.active)[q]]
            && slots.inUse == old(slots.inUse)[old(slots.active)[q] := false]
      ensures q !in old(slots.active) ==> slots == old(slots)
      ensures slots.snapshotFree == old(slots.snapshotFree)
    {
      if q in slots.active {
        var s := slots.active[q];
        ActiveGiven(slots, maxActive, q);
        hide Sorted;
        slots := slots.(inUse := slots.inUse[s := false], mutableFree := slots.mutableFree + [s],
            active := slots.active - {q});
      }
    }

    method AcquireSnapshot() returns (r: Option<nat>)
      requires Valid()
      modifies this
      ensures Valid() && slots.active == old(slots.active) && slots.mutableFree == old(slots.mutableFree)
      ensures r.None? <==> old(slots.snapshotFree) == []
      ensures r.None? ==> slots == old(slots)
      ensures r.Some? ==>
          old(slots.snapshotFree) == [r.value] + slots.snapshotFree
          && maxActive <= r.value < maxActive + maxSnapshots
      ensures r.Some? ==> !old(slots.inUse)[r.value] && slots.inUse == old(slots.inUse)[r.value := true]
    {
      if slots.snapshotFree == [] { return None; }
      var s := slots.snapshotFree[0];
      SlotTaken(slots, maxActive, s);
      hide Sorted;
      slots := slots.(inUse := slots.inUse[s := true], snapshotFree := slots.snapshotFree[1..]);
      return Some(s);
    }

    method ReleaseSnapshot(s: int) returns (ok: bool)
      requires Valid() && (maxActive <= s < maxActive + maxSnapshots ==> slots.inUse[s])
      modifies this
      ensures Valid() && slots.active == old(slots.active) && slots.mutableFree == old(slots.mutableFree)
      ensures ok <==> maxActive <= s < maxActive + maxSnapshots
      ensures !ok ==> slots == old(slots)
      ensures ok ==> slots.snapshotFree == old(slots.snapshotFree) + [s] && slots.inUse == old(slots.inUse)[s := false]
    {
      if s < maxActive || s >= maxActive + maxSnapshots { return false; }
      SlotGiven(slots, maxActive, s);
      hide Sorted;
      slots := slots.(inUse := slots.inUse[s := false], snapshotFree := slots.snapshotFree + [s]);
      return true;
    }

    method CopyActiveToSnapshot(a: int, s: int, budget: nat) returns (ok: bool)
      requires Valid()
      modifies storage
      ensures Valid() && |storage.layers| == old(|storage.layers|)
      ensures ok <==> 0 <= a < maxActive && maxActive <= s < maxActive + maxSnapshots && |storage.layers| <= budget
      ensures ok ==> StateAt(s) == old(Held(storage.numStates, storage.layers, a))
      ensures forall t: nat | t < maxActive + maxSnapshots && t != s ::
          StateAt(t) == old(Held(storage.numStates, storage.layers, t))
    {
      if a < 0 || a >= maxActive { return false; }
      if s < maxActive || s >= maxActive + maxSnapshots { return false; }
      ok := storage.CopyState(a, s, budget);
    }

    method RestoreSnapshotToActive(s: int, a: int, budget: nat) returns (ok: bool)
      requires Valid()
      modifies storage
      ensures Valid() && |storage.layers| == old(|storage.layers|)
      ensures ok <==> 0 <= a < maxActive && maxActive <= s < maxActive + maxSnapshots && |storage.layers| <= budget
      ensures ok ==> StateAt(a) == old(Held(storage.numStates, storage.layers, s))
      ensures forall t: nat | t < maxActive + maxSnapshots && (t != a || t >= maxActive) ::
          StateAt(t) == old(Held(storage.numStates, storage.layers, t))
    {
      if a < 0 || a >= maxActive { return false; }
      if s < maxActive || s >= maxActive + maxSnapshots { return false; }
      ok := storage.CopyState(s, a, budget);
    }
  }

  // ---------------------------------------------------------------- the cache

  datatype Entry = Entry(hash: Hash, frontier: int, state: nat)

  /** The entries and their index, over the slots of a pool. */
  ghost predicate Filed(entries: seq<Entry>, byHash: map<Hash, Entry>, lru: seq<Hash>, t: Slots, maxActive: nat) {
    && NoDup(lru) && (forall h :: h in lru <==> h in byHash)
    && (forall e :: e in entries <==> e.hash in byHash && byHash[e.hash] == e)
    && (forall h :: h in byHash ==>
      byHash[h].hash == h && maxActive <= byHash[h].state < |t.inUse|
      && t.inUse[byHash[h].state])
    && (forall g, h :: g in byHash && h in byHash && byHash[g].state == byHash[h].state ==> g == h)
    && |lru| + |t.snapshotFree| == |t.inUse| - maxActive
  }

  function DropHash(entries: seq<Entry>, h: Hash): (r: seq<Entry>)
    ensures forall e :: e in r <==> e in entries && e.hash != h
  {
    if entries == [] then []
    else if entries[0].hash == h then DropHash(entries[1..], h)
    else [entries[0]] + DropHash(entries[1..], h)
  }

  lemma FiledInsert(entries: seq<Entry>, byHash: map<Hash, Entry>, lru: seq<Hash>, t: Slots, t': Slots,
          maxActive: nat, e: Entry)
    requires Filed(entries, byHash, lru, t, maxActive) && e.hash !in byHash
    requires maxActive <= e.state < |t.inUse| && !t.inUse[e.state] && t'.inUse == t.inUse[e.state := true]
    requires |t.snapshotFree| == |t'.snapshotFree| + 1
    ensures Filed(entries + [e], byHash[e.hash := e], lru + [e.hash], t', maxActive)
  {
  }

  lemma FiledDrop(entries: seq<Entry>, byHash: map<Hash, Entry>, lru: seq<Hash>, t: Slots, t': Slots, maxActive: nat)
    requires Filed(entries, byHash, lru, t, maxActive) && lru != [] && lru[0] in byHash
    requires t'.inUse == t.inUse[byHash[lru[0]].state := false] && |t'.snapshotFree| == |t.snapshotFree| + 1
    ensures Filed(DropHash(entries, lru[0]), byHash - {lru[0]}, lru[1..], t', maxActive)
  {
    var h := lru[0];
    assert lru == [h] + lru[1..];
    assert forall i | 0 <= i < |lru[1..]| :: lru[1..][i] == lru[i + 1];
  }

  lemma FiledTouch(entries: seq<Entry>, byHash: map<Hash, Entry>, lru: seq<Hash>, t: Slots, maxActive: nat, h: Hash)
    requires Filed(entries, byHash, lru, t, maxActive) && h in byHash
    ensures Filed(entries, byHash, Without(lru, h) + [h], t, maxActive)
  {
    WithoutNoDup(lru, h);
  }

  /** What the cached slots hold. */
  function Stored(byHash: map<Hash, Entry>, n: nat, layers: seq<Layer>): map<Hash, State>
    requires Shaped(n, layers) && forall h :: h in byHash ==> byHash[h].state < n
  {
    map h | h in byHash :: Held(n, layers, byHash[h].state)
  }

  lemma FiledBounds(entries: seq<Entry>, byHash: map<Hash, Entry>, lru: seq<Hash>, t: Slots, maxActive: nat)
    requires Filed(entries, byHash, lru, t, maxActive)
    ensures forall h :: h in byHash ==> maxActive <= byHash[h].state < |t.inUse| && t.inUse[byHash[h].state]
    ensures forall h :: h in lru <==> h in byHash
  {
  }

  lemma StoredSame(byHash: map<Hash, Entry>, n: nat, layers: seq<Layer>, layers': seq<Layer>)
    requires Shaped(n, layers) && Shaped(n, layers') && forall h :: h in byHash ==> byHash[h].state < n
    requires forall h :: h in byHash ==> Held(n, layers', byHash[h].state) == Held(n, layers, byHash[h].state)
    ensures Stored(byHash, n, layers') == Stored(byHash, n, layers)
  {
    hide Held;
  }

  lemma StoredInsert(byHash: map<Hash, Entry>, n: nat, layers: seq<Layer>, e: Entry)
    requires Shaped(n, layers) && (forall h :: h in byHash ==> byHash[h].state < n) && e.state < n
    ensures Stored(byHash[e.hash := e], n, layers) == Stored(byHash, n, layers)[e.hash := Held(n, layers, e.state)]
  {
    hide Held;
  }

  lemma StoredKeys(byHash: map<Hash, Entry>, n: nat, layers: seq<Layer>)
    requires Shaped(n, layers) && forall g :: g in byHash ==> byHash[g].state < n
    ensures Stored(byHash, n, layers).Keys == byHash.Keys
  {
  }

  lemma FiledRoom(entries: seq<Entry>, byHash: map<Hash, Entry>, lru: seq<Hash>, t: Slots, maxActive: nat)
    requires Filed(entries, byHash, lru, t, maxActive)
    ensures |lru| + |t.snapshotFree| == |t.inUse| - maxActive
  {
  }

  lemma StoredAt(byHash: map<Hash, Entry>, n: nat, layers: seq<Layer>, h: Hash)
    requires Shaped(n, layers) && (forall g :: g in byHash ==> byHash[g].state < n) && h in byHash
    ensures h in Stored(byHash, n, layers) && Stored(byHash, n, layers)[h] == Held(n, layers, byHash[h].state)
  {
    hide Held;
  }

  lemma FiledAgain(entries: seq<Entry>, byHash: map<Hash, Entry>, lru: seq<Hash>, t: Slots, t': Slots, maxActive: nat)
    requires Filed(entries, byHash, lru, t, maxActive) && t'.inUse == t.inUse && |t'.snapshotFree| == |t.snapshotFree|
    ensures Filed(entries, byHash, lru, t', maxActive)
  {
  }

  lemma StoredDrop(byHash: map<Hash, Entry>, n: nat, layers: seq<Layer>, h: Hash)
    requires Shaped(n, layers) && forall g :: g in byHash ==> byHash[g].state < n
    ensures Stored(byHash - {h}, n, layers) == Stored(byHash, n, layers) - {h}
  {
    hide Held;
  }

  class StateCache {
    const pool: StatePool
    const frontierDepth: nat
    var entries: seq<Entry>
    var lru: seq<Hash>
    var byHash: map<Hash, Entry>
    var hits: nat
    var misses: nat
    var evictions: nat
    /** What was done with the cache so far. */
    ghost var ops: seq<Op>

    ghost predicate Sound()
      reads this, pool, pool.storage
    {
      pool.Valid() && Filed(entries, byHash, lru, pool.slots, pool.maxActive)
    }

    /** The cache is the bounded LRU map of its history. */
    ghost predicate Valid()
      reads this, pool, pool.storage
    {
      Sound() && View() == History(pool.maxSnapshots, ops)
    }

    /** The map the cache stands for. */
    function View(): Lru
      requires Sound()
      reads this, pool, pool.storage
    {
      Lru(lru, Stored(byHash, pool.storage.numStates, pool.storage.layers))
    }

    constructor (p: StatePool, depth: nat)
      requires p.Valid() && |p.slots.snapshotFree| == p.maxSnapshots
      ensures Valid() && pool == p && frontierDepth == depth && ops == []
    {
      pool, frontierDepth := p, depth;
      entries, lru, byHash, hits, misses, evictions, ops := [], [], map[], 0, 0, 0, [];
    }

    /** evict_one: the least recently used snapshot goes. */
    method EvictOne() returns (ok: bool)
      requires Valid()
      modifies this, pool
      ensures Valid() && ops == old(ops) + [Evict] && (ok <==> old(lru) != [])
      ensures View() == DropOldest(old(View()))
      ensures pool.slots.active == old(pool.slots.active)
      ensures !ok ==> pool.slots == old(pool.slots)
      ensures ok ==> |pool.slots.snapshotFree| == old(|pool.slots.snapshotFree|) + 1
      ensures hits == old(hits) && misses == old(misses)
    {
      hide Filed, Sorted, Stored, History, Divides;
      FiledBounds(entries, byHash, lru, pool.slots, pool.maxActive);
      Appended(pool.maxSnapshots, ops, Evict);
      ops := ops + [Evict];
      if lru == [] { return false; }
      var h := lru[0];
      assert h in lru;
      var s := byHash[h].state;
      ghost var t := pool.slots;
      var released := pool.ReleaseSnapshot(s);
      FiledDrop(entries, byHash, lru, t, pool.slots, pool.maxActive);
      StoredDrop(byHash, pool.storage.numStates, pool.storage.layers, h);
      entries, byHash, lru := DropHash(entries, h), byHash - {h}, lru[1..];
      evictions := evictions + 1;
      FiledBounds(entries, byHash, lru, pool.slots, pool.maxActive);
      ok := true;
    }

    /** snapshot: a cached prefix is left alone; otherwise the oldest entry makes room if there is none. */
    method Snapshot(h: Hash, frontier: int, a: int, budget: nat) returns (r: Option<ErrorCode>)
      requires Valid()
      modifies this, pool, pool.storage
      ensures Valid() && pool.slots.active == old(pool.slots.active)
      ensures !(0 <= frontier < frontierDepth) ==> r == Some(InvalidArgument) && ops == old(ops)
      ensures 0 <= frontier < frontierDepth && h in old(byHash) ==> r == None && ops == old(ops)
      ensures 0 <= frontier < frontierDepth && h !in old(byHash) ==>
        && (r.None? <==> 0 < pool.maxSnapshots && 0 <= a < pool.maxActive && old(|pool.storage.layers|) <= budget)
        && (r.None? ==> ops == old(ops) + [Snap(h, old(Held(pool.storage.numStates, pool.storage.layers, a)))])
        && (r.Some? ==> ops == old(ops) + if 0 < pool.maxSnapshots == old(|lru|) then [Evict] else [])
      ensures forall s: nat | s < pool.maxActive ::
        pool.StateAt(s) == old(Held(pool.storage.numStates, pool.storage.layers, s))
    {
      hide Sorted, Stored, Held, Filed, History, Divides;
      FiledRoom(entries, byHash, lru, pool.slots, pool.maxActive);
      FiledBounds(entries, byHash, lru, pool.slots, pool.maxActive);
      StoredKeys(byHash, pool.storage.numStates, pool.storage.layers);
      if frontier < 0 || frontier >= frontierDepth { return Some(InvalidArgument); }
      if h in byHash { return None; }
      if |pool.slots.snapshotFree| == 0 {
        if lru == [] { return Some(MaxSequencesReached); }
        r := Replace(h, frontier, a, budget);
      } else {
        r := Fill(h, frontier, a, budget);
      }
    }

    /** Makes room, then takes the slot that became free. */
    method Replace(h: Hash, frontier: int, a: int, budget: nat) returns (r: Option<ErrorCode>)
      requires Valid() && h !in byHash && |lru| == pool.maxSnapshots > 0
      modifies this, pool, pool.storage
      ensures Valid() && pool.slots.active == old(pool.slots.active)
      ensures r.None? <==> 0 <= a < pool.maxActive && old(|pool.storage.layers|) <= budget
      ensures r.None? ==> ops == old(ops) + [Snap(h, old(Held(pool.storage.numStates, pool.storage.layers, a)))]
      ensures r.Some? ==> ops == old(ops) + [Evict]
      ensures forall s: nat | s < pool.maxActive ::
        pool.StateAt(s) == old(Held(pool.storage.numStates, pool.storage.layers, s))
    {
      hide Sorted, Stored, Held, Filed, History, DropOldest, Divides;
      ghost var v := if 0 <= a < pool.maxActive then Held(pool.storage.numStates, pool.storage.layers, a) else [];
      FiledBounds(entries, byHash, lru, pool.slots, pool.maxActive);
      StoredKeys(byHash, pool.storage.numStates, pool.storage.layers);
      RoomMade(pool.maxSnapshots, ops, h, v);
      var made := EvictOne();
      FiledBounds(entries, byHash, lru, pool.slots, pool.maxActive);
      StoredKeys(byHash, pool.storage.numStates, pool.storage.layers);
      r := Fill(h, frontier, a, budget);
      if r.None? { ops := old(ops) + [Snap(h, v)]; }
    }

    /** Takes a free snapshot slot and copies the active state into it. */
    method Fill(h: Hash, frontier: int, a: int, budget: nat) returns (r: Option<ErrorCode>)
      requires Valid() && h !in byHash && |pool.slots.snapshotFree| > 0
      modifies this, pool, pool.storage
      ensures Valid() && pool.slots.active == old(pool.slots.active)
      ensures r.None? <==> 0 <= a < pool.maxActive && old(|pool.storage.layers|) <= budget
      ensures r.None? ==> ops == old(ops) + [Snap(h, old(Held(pool.storage.numStates, pool.storage.layers, a)))]
      ensures r.Some? ==> ops == old(ops)
      ensures forall s: nat | s < pool.maxActive ::
        pool.StateAt(s) == old(Held(pool.storage.numStates, pool.storage.layers, s))
    {
      hide Filed, Sorted, Stored, Held, History, Divides;
      FiledBounds(entries, byHash, lru, pool.slots, pool.maxActive);
      FiledRoom(entries, byHash, lru, pool.slots, pool.maxActive);
      StoredKeys(byHash, pool.storage.numStates, pool.storage.layers);
      ghost var t, layers := pool.slots, pool.storage.layers;
      ghost var n := pool.storage.numStates;
      var got := pool.AcquireSnapshot();
      var s := got.value;
      var ok := pool.CopyActiveToSnapshot(a, s, budget);
      assert forall g :: g in byHash ==> byHash[g].state != s;
      StoredSame(byHash, n, layers, pool.storage.layers);
      if !ok {
        var released := pool.ReleaseSnapshot(s);
        FiledAgain(entries, byHash, lru, t, pool.slots, pool.maxActive);
        return Some(InternalError);
      }
      var e := Entry(h, frontier, s);
      FiledInsert(entries, byHash, lru, t, pool.slots, pool.maxActive, e);
      StoredInsert(byHash, n, pool.storage.layers, e);
      entries, byHash, lru := entries + [e], byHash[h := e], lru + [h];
      FiledBounds(entries, byHash, lru, pool.slots, pool.maxActive);
      Appended(pool.maxSnapshots, ops, Snap(h, pool.StateAt(s)));
      ops := ops + [Snap(h, pool.StateAt(s))];
      return None;
    }

    /** restore: a hit becomes the most recently used entry, and its state is copied out. */
    method Restore(h: Hash, a: int, budget: nat) returns (r: Option<ErrorCode>)
      requires Valid()
      modifies this, pool.storage
      ensures Valid() && pool.slots == old(pool.slots) && ops == old(ops) + [Use(h)]
      ensures h !in old(byHash) ==> r == Some(InvalidArgument) && misses == old(misses) + 1
      ensures h in old(byHash) ==>
        && hits == old(hits) + 1
        && (r.None? <==> 0 <= a < pool.maxActive && old(|pool.storage.layers|) <= budget)
        && (r.None? ==> pool.StateAt(a) == old(View()).values[h])
      ensures forall s: nat | s < pool.maxActive && s != a ::
        pool.StateAt(s) == old(Held(pool.storage.numStates, pool.storage.layers, s))
    {
      hide Filed, Sorted, Stored, Held, History, Divides;
      FiledBounds(entries, byHash, lru, pool.slots, pool.maxActive);
      StoredKeys(byHash, pool.storage.numStates, pool.storage.layers);
      Appended(pool.maxSnapshots, ops, Use(h));
      ops := ops + [Use(h)];
      if h !in byHash {
        misses := misses + 1;
        return Some(InvalidArgument);
      }
      hits := hits + 1;
      r := CopyOut(h, a, budget);
    }

    /** Moves a cached entry to the end of the LRU list and copies its state into an active slot. */
    method CopyOut(h: Hash, a: int, budget: nat) returns (r: Option<ErrorCode>)
      requires Sound() && h in byHash
      modifies this`lru, pool.storage
      ensures Sound() && View() == Touch(old(View()), h)
      ensures r.None? <==> 0 <= a < pool.maxActive && old(|pool.storage.layers|) <= budget
      ensures r.None? ==> h in old(View()).values && pool.StateAt(a) == old(View()).values[h]
      ensures forall s: nat | s < pool.maxActive && s != a ::
        pool.StateAt(s) == old(Held(pool.storage.numStates, pool.storage.layers, s))
    {
      hide Filed, Sorted, Stored, Held, Divides;
      FiledBounds(entries, byHash, lru, pool.slots, pool.maxActive);
      ghost var layers := pool.storage.layers;
      StoredAt(byHash, pool.storage.numStates, layers, h);
      FiledTouch(entries, byHash, lru, pool.slots, pool.maxActive, h);
      lru := Without(lru, h) + [h];
      var ok := pool.RestoreSnapshotToActive(byHash[h].state, a, budget);
      StoredSame(byHash, pool.storage.numStates, layers, pool.storage.layers);
      r := if ok then None else Some(InternalError);
    }

    /** The model overwrites an active state: no cached snapshot changes. */
    method WriteActive(a: nat, data: State, budget: nat) returns (ok: bool)
      requires Valid() && a < pool.maxActive && |data| == |pool.storage.layers|
      requires forall i | 0 <= i < |data| :: |data[i]| == Width(pool.storage.numStates, pool.storage.layers[i])
      modifies pool.storage
      ensures Valid()
      ensures ok ==> pool.StateAt(a) == data
    {
      hide Filed, Sorted, Stored, Held, History, Divides;
      FiledBounds(entries, byHash, lru, pool.slots, pool.maxActive);
      ghost var layers := pool.storage.layers;
      ok := pool.storage.Write(a, data, budget);
      StoredSame(byHash, pool.storage.numStates, layers, pool.storage.layers);
    }
  }

  // ---------------------------------------------------------------- the worker's use of both

  lemma FiledBeside(entries: seq<Entry>, byHash: map<Hash, Entry>, lru: seq<Hash>, t: Slots, t': Slots, maxActive: nat)
    requires Filed(entries, byHash, lru, t, maxActive) && |t'.inUse| == |t.inUse| && t'.snapshotFree == t.snapshotFree
    requires forall s: nat | maxActive <= s < |t.inUse| :: t'.inUse[s] == t.inUse[s]
    ensures Filed(entries, byHash, lru, t', maxActive)
  {
  }

  lemma SlotBounds(t: Slots, maxActive: nat)
    requires Sorted(t, maxActive)
    ensures maxActive <= |t.inUse| && forall q :: q in t.active ==> t.active[q] < maxActive && t.inUse[t.active[q]]
    ensures t.mutableFree != [] ==> t.mutableFree[0] < maxActive
  {
    if t.mutableFree != [] { assert t.mutableFree[0] in t.mutableFree; }
  }

  /** A state no token has touched. */
  ghost predicate Blank(v: State) {
    forall i, j | 0 <= i < |v| && 0 <= j < |v[i]| :: v[i][j] == 0
  }

  lemma ZeroedBlank(n: nat, layers: seq<Layer>, s: nat)
    requires Shaped(n, layers) && s < n
    ensures (forall i | 0 <= i < |layers| :: Held(n, layers, s)[i] == Zeros(Width(n, layers[i]))) ==>
        Blank(Held(n, layers, s))
  {
  }

  /** The pool of sequence states and the snapshot cache, as the worker owns them. */
  class SequenceStates {
    const pool: StatePool
    const cache: StateCache

    ghost predicate Valid()
      reads this, cache, pool, pool.storage
    {
      cache.pool == pool && cache.Valid()
    }

    constructor (active: nat, snapshots: nat, widths: seq<nat>)
      requires 0 < active
      ensures Valid() && cache.ops == [] && pool.slots.active == map[]
      ensures pool.maxActive == active && pool.maxSnapshots == cache.frontierDepth == snapshots
      ensures fresh(pool) && fresh(cache) && fresh(pool.storage)
    {
      var p := new StatePool(active, snapshots, widths);
      pool := p;
      cache := new StateCache(p, snapshots);
    }

    /** What the model finds for a sequence. */
    ghost function StateOf(q: SeqId): State
      requires Valid()
      reads this, cache, pool, pool.storage
    {
      if q in pool.slots.active && pool.slots.active[q] < pool.maxActive then pool.StateAt(pool.slots.active[q]) else []
    }

    /** One sequence gets a state; no other state changes, and no snapshot. */
    method Acquire(q: SeqId, budget: nat) returns (r: Option<ErrorCode>)
      requires Valid()
      modifies pool, pool.storage
      ensures Valid() && (r.None? ==> q in pool.slots.active)
      ensures pool.slots.active.Keys == old(pool.slots.active.Keys) + if r.None? then {q} else {}
      ensures forall p :: p in old(pool.slots.active) ==> StateOf(p) == old(StateOf(p))
      ensures r.None? && q !in old(pool.slots.active) ==> Blank(StateOf(q))
    {
      hide Filed, Sorted, Stored, Held, History, Blank, Shaped, Zeros;
      FiledBounds(cache.entries, cache.byHash, cache.lru, pool.slots, pool.maxActive);
      ghost var t, layers := pool.slots, pool.storage.layers;
      SlotBounds(t, pool.maxActive);
      r := pool.AcquireActive(q, budget);
      SlotBounds(pool.slots, pool.maxActive);
      FiledBeside(cache.entries, cache.byHash, cache.lru, t, pool.slots, pool.maxActive);
      StoredSame(cache.byHash, pool.storage.numStates, layers, pool.storage.layers);
      if r.None? { ZeroedBlank(pool.storage.numStates, pool.storage.layers, pool.slots.active[q]); }
    }

    /** Every sequence of a batch gets a state, or the first failure ends it. */
    method AcquireAll(qs: seq<SeqId>, budgets: seq<nat>) returns (r: Option<ErrorCode>)
      requires Valid() && |budgets| == |qs|
      modifies pool, pool.storage
      ensures Valid()
      ensures r.None? ==> forall q :: q in qs ==> q in pool.slots.active
      ensures forall p :: p in old(pool.slots.active) ==> p in pool.slots.active && StateOf(p) == old(StateOf(p))
      ensures forall p :: p in pool.slots.active && p !in old(pool.slots.active) ==> p in qs && Blank(StateOf(p))
    {
      hide Filed, Sorted, Stored, Held, History, Blank;
      var i := 0;
      while i < |qs|
        invariant 0 <= i <= |qs| && Valid()
        invariant forall j | 0 <= j < i :: qs[j] in pool.slots.active
        invariant forall p :: p in old(pool.slots.active) ==> p in pool.slots.active && StateOf(p) == old(StateOf(p))
        invariant forall p :: p in pool.slots.active && p !in old(pool.slots.active) ==> p in qs && Blank(StateOf(p))
      {
        r := Acquire(qs[i], budgets[i]);
        if r.Some? { return; }
        i := i + 1;
      }
      r := None;
    }

    /** release_sequence: the others keep their states, and the cache its snapshots. */
    method Release(q: SeqId)
      requires Valid()
      modifies pool
      ensures Valid() && pool.slots.active.Keys == old(pool.slots.active.Keys) - {q}
      ensures forall p :: p in pool.slots.active ==> StateOf(p) == old(StateOf(p))
    {
      hide Filed, Sorted, Stored, Held, History, Divides;
      FiledBounds(cache.entries, cache.byHash, cache.lru, pool.slots, pool.maxActive);
      ghost var t := pool.slots;
      SlotBounds(t, pool.maxActive);
      pool.ReleaseActive(q);
      FiledBeside(cache.entries, cache.byHash, cache.lru, t, pool.slots, pool.maxActive);
    }
  }
}
