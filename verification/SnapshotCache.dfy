/** The pool of state slots and the snapshot cache over it, which is a bounded LRU map. */
module SnapshotCache {
  import opened Types
  import opened Seqs
  import opened StateStore

  type State = seq<Layer>

  // ---------------------------------------------------------------- the map it refines

  /** Cached states, least recently inserted or restored first. */
  datatype Lru = Lru(order: seq<Hash>, values: map<Hash, State>)

  ghost predicate Consistent(l: Lru) {
    NoDup(l.order) && forall h :: h in l.order <==> h in l.values
  }

  function Insert(l: Lru, h: Hash, v: State): Lru {
    Lru(l.order + [h], l.values[h := v])
  }

  function DropOldest(l: Lru): Lru {
    if l.order == [] then l else Lru(l.order[1..], l.values - {l.order[0]})
  }

  function DropOldestIf(l: Lru, capacity: nat): Lru {
    if |l.order| >= capacity then DropOldest(l) else l
  }

  function Touch(l: Lru, h: Hash): Lru {
    Lru(Without(l.order, h) + [h], l.values)
  }

  /** What a snapshot does to the map when it succeeds. One that fails after making room is an eviction. */
  function Capture(l: Lru, capacity: nat, h: Hash, v: State): Lru {
    if h in l.values then l
    else if capacity == 0 then l
    else Insert(DropOldestIf(l, capacity), h, v)
  }

  datatype Op = Snap(hash: Hash, state: State) | Use(hash: Hash) | Evict

  function Apply(l: Lru, capacity: nat, op: Op): Lru {
    match op
    case Snap(h, v) => Capture(l, capacity, h, v)
    case Use(h) => if h in l.values then Touch(l, h) else l
    case Evict => DropOldest(l)
  }

  function History(capacity: nat, ops: seq<Op>): Lru
    decreases |ops|
  {
    if ops == [] then Lru([], map[]) else Apply(History(capacity, ops[..|ops| - 1]), capacity, ops[|ops| - 1])
  }

  /** Index of the last operation that captured h; the state it holds now is from there. */
  ghost predicate CapturedAt(capacity: nat, ops: seq<Op>, h: Hash, k: nat) {
    && k < |ops| && ops[k].Snap? && ops[k].hash == h && h !in History(capacity, ops[..k]).values
    && (forall j | k < j <= |ops| :: h in History(capacity, ops[..j]).values)
  }

  lemma HistoryStep(capacity: nat, ops: seq<Op>, j: nat)
    requires j < |ops|
    ensures History(capacity, ops[..j + 1]) == Apply(History(capacity, ops[..j]), capacity, ops[j])
  {
    var pre := ops[..j + 1];
    assert pre[..|pre| - 1] == ops[..j] && pre[|pre| - 1] == ops[j];
  }

  lemma {:induction false} HistoryConsistent(capacity: nat, ops: seq<Op>)
    ensures Consistent(History(capacity, ops)) && |History(capacity, ops).order| <= capacity
    decreases |ops|
  {
    if ops != [] {
      HistoryConsistent(capacity, ops[..|ops| - 1]);
      ApplyConsistent(History(capacity, ops[..|ops| - 1]), capacity, ops[|ops| - 1]);
    }
  }

  lemma ApplyConsistent(l: Lru, capacity: nat, op: Op)
    requires Consistent(l) && |l.order| <= capacity
    ensures Consistent(Apply(l, capacity, op)) && |Apply(l, capacity, op).order| <= capacity
  {
    match op
    case Snap(h, v) =>
      if h !in l.values && capacity > 0 {
        DropConsistent(l);
        InsertConsistent(DropOldestIf(l, capacity), h, v);
      }
    case Use(h) => if h in l.values { TouchConsistent(l, h); }
    case Evict => DropConsistent(l);
  }

  lemma DropConsistent(l: Lru)
    requires Consistent(l)
    ensures Consistent(DropOldest(l)) && (l.order != [] ==> |DropOldest(l).order| == |l.order| - 1)
    ensures forall h :: h in DropOldest(l).values ==> h in l.values && DropOldest(l).values[h] == l.values[h]
  {
    if l.order != [] {
      assert l.order == [l.order[0]] + l.order[1..];
      assert forall i | 0 <= i < |l.order[1..]| :: l.order[1..][i] == l.order[i + 1];
    }
  }

  lemma InsertConsistent(l: Lru, h: Hash, v: State)
    requires Consistent(l) && h !in l.values
    ensures Consistent(Insert(l, h, v)) && |Insert(l, h, v).order| == |l.order| + 1
  {
  }

  lemma TouchConsistent(l: Lru, h: Hash)
    requires Consistent(l) && h in l.values
    ensures Consistent(Touch(l, h)) && |Touch(l, h).order| == |l.order|
  {
    WithoutNoDup(l.order, h);
  }

  /** As long as h is not evicted, it keeps the state that was captured for it. */
  lemma {:induction false} CapturedStays(capacity: nat, ops: seq<Op>, h: Hash, k: nat)
    requires CapturedAt(capacity, ops, h, k)
    ensures h in History(capacity, ops).values && History(capacity, ops).values[h] == ops[k].state
    decreases |ops|
  {
    hide History, Apply;
    var n := |ops|;
    assert ops[..n] == ops;
    if k == n - 1 {
      HistoryStep(capacity, ops, k);
      CaptureNew(History(capacity, ops[..k]), capacity, ops[k]);
    } else {
      var before := ops[..n - 1];
      CapturedBefore(capacity, ops, h, k);
      CapturedStays(capacity, before, h, k);
      HistoryConsistent(capacity, before);
      HistoryStep(capacity, ops, n - 1);
      ApplyKeeps(History(capacity, before), capacity, ops[n - 1], h);
    }
  }

  lemma CapturedBefore(capacity: nat, ops: seq<Op>, h: Hash, k: nat)
    requires CapturedAt(capacity, ops, h, k) && k < |ops| - 1
    ensures CapturedAt(capacity, ops[..|ops| - 1], h, k)
  {
    hide History;
    var before := ops[..|ops| - 1];
    forall j | 0 <= j <= |before| ensures before[..j] == ops[..j] {}
  }

  lemma CaptureNew(l: Lru, capacity: nat, op: Op)
    requires op.Snap? && op.hash !in l.values && op.hash in Apply(l, capacity, op).values
    ensures Apply(l, capacity, op).values[op.hash] == op.state
  {
  }

  lemma ApplyKeeps(l: Lru, capacity: nat, op: Op, h: Hash)
    requires Consistent(l) && h in l.values && h in Apply(l, capacity, op).values
    ensures Apply(l, capacity, op).values[h] == l.values[h]
  {
    DropConsistent(l);
  }

  /** A use of h, or a snapshot that inserts it; a snapshot of a cached hash is neither. */
  predicate Touches(l: Lru, op: Op, h: Hash) {
    match op
    case Snap(g, _) => g == h && h !in l.values
    case Use(g) => g == h
    case Evict => false
  }

  /** How many operations had happened when h was last touched. */
  function LastTouch(capacity: nat, ops: seq<Op>, h: Hash): nat
    decreases |ops|
  {
    if ops == [] then 0
    else
      var before := ops[..|ops| - 1];
      if Touches(History(capacity, before), ops[|ops| - 1], h) then |ops|
      else LastTouch(capacity, before, h)
  }

  lemma {:induction false} TouchBound(capacity: nat, ops: seq<Op>, h: Hash)
    ensures LastTouch(capacity, ops, h) <= |ops|
    decreases |ops|
  {
    if ops != [] { TouchBound(capacity, ops[..|ops| - 1], h); }
  }

  ghost predicate ByAge(capacity: nat, ops: seq<Op>, order: seq<Hash>) {
    forall i, j | 0 <= i < j < |order| :: LastTouch(capacity, ops, order[i]) < LastTouch(capacity, ops, order[j])
  }

  /** The other entries do not age. */
  lemma Untouched(capacity: nat, ops: seq<Op>, h: Hash)
    requires ops != []
    requires !Touches(History(capacity, ops[..|ops| - 1]), ops[|ops| - 1], h)
    ensures LastTouch(capacity, ops, h) == LastTouch(capacity, ops[..|ops| - 1], h) < |ops|
  {
    TouchBound(capacity, ops[..|ops| - 1], h);
  }

  lemma AppendAge(capacity: nat, ops: seq<Op>, kept: seq<Hash>, h: Hash)
    requires ops != [] && ByAge(capacity, ops[..|ops| - 1], kept) && LastTouch(capacity, ops, h) == |ops|
    requires forall x :: x in kept ==> LastTouch(capacity, ops, x) == LastTouch(capacity, ops[..|ops| - 1], x) < |ops|
    ensures ByAge(capacity, ops, kept + [h])
  {
    hide LastTouch;
    var all := kept + [h];
    forall i, j | 0 <= i < j < |all| ensures LastTouch(capacity, ops, all[i]) < LastTouch(capacity, ops, all[j]) {
      assert all[i] == kept[i] && kept[i] in kept;
      if j < |kept| { assert kept[j] in kept; }
    }
  }

  lemma SameAge(capacity: nat, ops: seq<Op>, order: seq<Hash>)
    requires ops != [] && ByAge(capacity, ops[..|ops| - 1], order)
    requires forall x :: x in order ==> LastTouch(capacity, ops, x) == LastTouch(capacity, ops[..|ops| - 1], x)
    ensures ByAge(capacity, ops, order)
  {
    hide LastTouch;
    forall i, j | 0 <= i < j < |order| ensures LastTouch(capacity, ops, order[i]) < LastTouch(capacity, ops, order[j]) {
      assert order[i] in order && order[j] in order;
    }
  }

  lemma TailAge(capacity: nat, ops: seq<Op>, order: seq<Hash>)
    requires order != [] && ByAge(capacity, ops, order)
    ensures ByAge(capacity, ops, order[1..])
  {
    hide LastTouch;
    var tail := order[1..];
    forall i, j | 0 <= i < j < |tail| ensures LastTouch(capacity, ops, tail[i]) < LastTouch(capacity, ops, tail[j]) {
      assert tail[i] == order[i + 1] && tail[j] == order[j + 1];
    }
  }

  /** The entries an operation leaves in place, and the one it inserts or restores, if any. */
  lemma Moved(capacity: nat, ops: seq<Op>)
    requires ops != []
    ensures var op := ops[|ops| - 1]; var l := History(capacity, ops[..|ops| - 1]); var l' := History(capacity, ops);
      if op.Use? && op.hash in l.values then
        l'.order == Without(l.order, op.hash) + [op.hash] && LastTouch(capacity, ops, op.hash) == |ops|
      else if op.Snap? && op.hash !in l.values && capacity > 0 then
        l'.order == DropOldestIf(l, capacity).order + [op.hash] && LastTouch(capacity, ops, op.hash) == |ops|
      else if op.Evict? then l'.order == DropOldest(l).order
      else l'.order == l.order
  {
  }

  /** The order is that of the last insertion or restore, so the entry evicted is the oldest. */
  lemma {:induction false} EvictsOldest(capacity: nat, ops: seq<Op>)
    ensures ByAge(capacity, ops, History(capacity, ops).order)
    decreases |ops|
  {
    if ops == [] {
      assert History(capacity, ops).order == [];
    } else {
      var before, op := ops[..|ops| - 1], ops[|ops| - 1];
      EvictsOldest(capacity, before);
      HistoryConsistent(capacity, before);
      Moved(capacity, ops);
      var l := History(capacity, before);
      assert forall x :: x in l.order <==> x in l.values;
      hide History, ByAge, NoDup;
      forall x | x in l.order && !Touches(l, op, x)
        ensures LastTouch(capacity, ops, x) == LastTouch(capacity, before, x) < |ops|
      {
        Untouched(capacity, ops, x);
      }
      hide LastTouch;
      if l.order != [] { TailAge(capacity, before, l.order); }
      if op.Use? && op.hash in l.values {
        WithoutAge(capacity, before, l.order, op.hash);
        AppendAge(capacity, ops, Without(l.order, op.hash), op.hash);
      } else if op.Snap? && op.hash !in l.values && capacity > 0 {
        AppendAge(capacity, ops, DropOldestIf(l, capacity).order, op.hash);
      } else {
        SameAge(capacity, ops, if op.Evict? then DropOldest(l).order else l.order);
      }
    }
  }

  lemma {:induction false} WithoutAge(capacity: nat, ops: seq<Op>, order: seq<Hash>, h: Hash)
    requires ByAge(capacity, ops, order)
    ensures ByAge(capacity, ops, Without(order, h))
    decreases |order|
  {
    if order != [] {
      var tail := order[1..];
      forall i, j | 0 <= i < j < |tail| ensures LastTouch(capacity, ops, tail[i]) < LastTouch(capacity, ops, tail[j]) {
        assert tail[i] == order[i + 1] && tail[j] == order[j + 1];
      }
      WithoutAge(capacity, ops, tail, h);
      if order[0] != h {
        var rest := Without(tail, h);
        assert Without(order, h) == [order[0]] + rest;
        forall j | 0 <= j < |rest| ensures LastTouch(capacity, ops, order[0]) < LastTouch(capacity, ops, rest[j]) {
          assert rest[j] in rest && rest[j] in tail;
          var i :| 0 <= i < |tail| && tail[i] == rest[j];
          assert tail[i] == order[i + 1];
        }
      }
    }
  }

  /** A snapshot that makes room first is an eviction and then a snapshot into the free slot. */
  lemma RoomMade(capacity: nat, ops: seq<Op>, h: Hash, v: State)
    requires h !in History(capacity, ops).values && |History(capacity, ops).order| == capacity > 0
    ensures History(capacity, ops + [Evict]) == DropOldest(History(capacity, ops))
    ensures h !in History(capacity, ops + [Evict]).values
    ensures History(capacity, ops + [Evict] + [Snap(h, v)]) == History(capacity, ops + [Snap(h, v)])
  {
    Appended(capacity, ops, Evict);
    Appended(capacity, ops, Snap(h, v));
    Appended(capacity, ops + [Evict], Snap(h, v));
    HistoryConsistent(capacity, ops);
    DropConsistent(History(capacity, ops));
  }

  lemma Appended(capacity: nat, ops: seq<Op>, op: Op)
    ensures History(capacity, ops + [op]) == Apply(History(capacity, ops), capacity, op)
  {
    var all := ops + [op];
    assert all[..|all| - 1] == ops;
  }
}
