/**
 What every reachable scheduler state satisfies.

 `out` is the list of work items that were built and not yet retired, oldest first. `hand` holds the
 requests an operation has taken out of a queue and not yet put back, and `held` the block references
 it has acquired and not yet given to a table; both are empty between operations.
 */
module Invariant {
  import opened Types
  import opened Seqs
  import opened Blocks
  import opened State
  import opened Scheduling

  // ---------------------------------------------------------------- outstanding items

  /** The outstanding items of one sequence. */
  function Of(out: seq<WorkItem>, q: SeqId): (r: seq<WorkItem>)
    ensures forall x :: x in r <==> x in out && x.seqId == q
  {
    if out == [] then []
    else if out[0].seqId == q then [out[0]] + Of(out[1..], q)
    else Of(out[1..], q)
  }

  /** What a list of items has reserved in all. */
  function Totals(items: seq<WorkItem>): (r: Reservation)
    ensures r.leases == |items|
  {
    if items == [] then NO_RESERVATION
    else
      var rest := Totals(items[1..]);
      Reservation(1 + rest.leases, PromptCount(items[0]) + rest.prompt,
                  GenCount(items[0]) + rest.gen, KvCount(items[0]) + rest.kv)
  }

  /** The KV positions written are disjoint, in order, and start at lo or later. */
  ghost predicate Ordered(items: seq<WorkItem>, lo: nat)
    decreases |items|
  {
    items == [] || (lo <= items[0].context && Ordered(items[1..], items[0].context + KvCount(items[0])))
  }

  /** Chunks of the prompt from position `from` on, without gaps; only the last one samples. */
  ghost predicate PrefillItems(items: seq<WorkItem>, from: nat, prompt: seq<Token>, silent: bool)
    decreases |items|
  {
    items != [] ==>
    var x := items[0];
    && x.PrefillChunk? && x.start == x.context == from && 0 < |x.tokens| && from + |x.tokens| <= |prompt|
    && x.tokens == prompt[from..from + |x.tokens|]
    && (x.needsSample <==> from + |x.tokens| == |prompt| && !silent)
    && PrefillItems(items[1..], from + |x.tokens|, prompt, silent)
  }

  /** One-token steps at consecutive positions. */
  ghost predicate DecodeItems(items: seq<WorkItem>, from: nat)
    decreases |items|
  {
    items != [] ==>
    && items[0].DecodeOneToken? && items[0].writeKv && items[0].lateBind && items[0].context == from
    && DecodeItems(items[1..], from + 1)
  }

  ghost predicate BootItems(items: seq<WorkItem>, from: nat, input: Token) {
    items == [] ||
    (|items| == 1 && items[0].DecodeOneToken? && !items[0].writeKv && !items[0].lateBind
     && items[0].context == from && items[0].inputToken == input)
  }

  // ---------------------------------------------------------------- one sequence

  ghost predicate ItemFits(c: Config, item: WorkItem, q: Sequence) {
    && item.seqId == q.seqId
    && item.table <= q.table && item.table != []
    && item.context + KvCount(item) <= Cap(c, |item.table|)
    && (item.PrefillChunk? ==> 0 < |item.tokens|)
  }

  /** Cached blocks of the table lie wholly below the positions still to be hashed or written. */
  ghost predicate Frozen(c: Config, cached: map<BlockId, Hash>, q: Sequence) {
    forall i | 0 <= i < |q.table| :: q.table[i] in cached ==> Cap(c, i + 1) <= q.frontier - |q.pending|
  }

  /** Phase-specific shape of an active sequence and its outstanding items. */
  ghost predicate Live(r: Request, q: Sequence, items: seq<WorkItem>) {
    match q.phase
    case Prefill =>
      && q.frontier == q.cursor < |r.prompt| && q.pending == []
      && PrefillItems(items, q.frontier, r.prompt, false)
    case ReplayPrefill =>
      && q.frontier == q.cursor < |r.prompt| && q.pending == [] && r.generated != []
      && PrefillItems(items, q.frontier, r.prompt, true)
    case Bootstrap =>
      && q.frontier == |r.prompt| && q.pending == [] && r.generated == [] && q.genInPrompt == 0
      && BootItems(items, q.frontier, Last(r.prompt, 0))
    case Decode =>
      && r.generated != []
      && DecodeItems(items, q.frontier)
      && q.frontier + q.res.kv + 1 <= |r.prompt| + |r.generated| - q.genInPrompt + q.res.gen
  }

  /** The reservation is exactly what the outstanding items claim, and everything claimed fits. */
  ghost predicate Booked(c: Config, r: Request, q: Sequence, items: seq<WorkItem>) {
    && (forall x :: x in items ==> ItemFits(c, x, q))
    && Ordered(items, q.frontier)
    && q.res == Totals(items)
    && 0 < |r.prompt| <= Cap(c, |q.table|)
    && q.frontier + q.res.kv <= Cap(c, |q.table|)
    && q.frontier + q.res.kv <= r.maxContext <= Cap(c, c.maxBlocks)
    && |r.prompt| <= r.maxContext
    && |r.generated| + q.res.gen <= r.maxTokens
    && q.genInPrompt <= (if r.generated == [] then 0 else |r.generated| - 1)
  }

  ghost predicate Hashed(c: Config, cached: map<BlockId, Hash>, q: Sequence) {
    |q.pending| <= q.frontier && |q.pending| < c.blockSize && Frozen(c, cached, q)
  }

  ghost predicate SeqOk(c: Config, cached: map<BlockId, Hash>, r: Request, q: Sequence, items: seq<WorkItem>) {
    && Booked(c, r, q, items)
    && Hashed(c, cached, q)
    && (r.status == Active ==> Live(r, q, items))
  }

  /** Never more tokens than asked for. */
  predicate WithinLimit(r: Request) {
    r.generated != [] ==> |r.generated| <= r.maxTokens
  }

  ghost predicate ReqOk(c: Config, cached: map<BlockId, Hash>, r: Request, out: seq<WorkItem>) {
    && WithinLimit(r)
    && (r.sched.Some? ==> SeqOk(c, cached, r, r.sched.value, Of(out, r.sched.value.seqId)))
  }

  // ---------------------------------------------------------------- queues and indexes

  predicate Open(st: Status) {
    st == Active || st == Cancelled
  }

  /** Every live request is in exactly one queue or in hand. */
  ghost predicate Queued(s: Sched, hand: set<Ticket>) {
    && NoDup(s.waiting) && NoDup(s.skip) && NoDup(s.running)
    && (forall t :: t in s.objs <==> t in s.waiting || t in s.skip || t in s.running || t in hand)
    && (forall t :: t in s.waiting ==> t !in s.skip && t !in s.running && t !in hand)
    && (forall t :: t in s.skip ==> t !in s.running && t !in hand)
    && (forall t :: t in s.running ==> t !in hand)
    && (forall t :: t in s.objs ==> t < s.nextTicket)
  }

  /** The registry indexes exactly the live requests. */
  ghost predicate Named(s: Sched) {
    && (forall id :: id in s.registry ==> s.registry[id] in s.objs && s.objs[s.registry[id]].id == id)
    && (forall t :: t in s.objs ==> s.objs[t].id in s.registry && s.registry[s.objs[t].id] == t)
  }

  ghost predicate HasSeq(s: Sched, t: Ticket, q: SeqId) {
    t in s.objs && s.objs[t].sched.Some? && s.objs[t].sched.value.seqId == q
  }

  /** bySeq indexes exactly the running requests; waiting requests have no sequence, skipped ones do. */
  ghost predicate Sequenced(s: Sched) {
    && (forall t :: t in s.waiting ==> t in s.objs && s.objs[t].sched.None? && Open(s.objs[t].status))
    && (forall t :: t in s.skip ==> t in s.objs && s.objs[t].sched.Some? && Open(s.objs[t].status))
    && (forall t :: t in s.running ==> t in s.objs && s.objs[t].sched.Some? && s.objs[t].sched.value.seqId in s.bySeq
                                       && s.bySeq[s.objs[t].sched.value.seqId] == t)
    && (forall q :: q in s.bySeq ==> s.bySeq[q] in s.running && HasSeq(s, s.bySeq[q], q))
  }

  /** Sequence ids are never shared. */
  ghost predicate Distinct(s: Sched) {
    && (forall t: Ticket, u: Ticket, q: SeqId :: HasSeq(s, t, q) && HasSeq(s, u, q) ==> t == u)
    && (forall t: Ticket, q: SeqId :: HasSeq(s, t, q) ==> q < s.nextSeq)
  }

  ghost predicate Places(s: Sched, hand: set<Ticket>) {
    Queued(s, hand) && Named(s) && Sequenced(s) && Distinct(s)
  }

  // ---------------------------------------------------------------- references

  function TableOf(objs: map<Ticket, Request>, t: Ticket): seq<BlockId> {
    if t in objs && objs[t].sched.Some? then objs[t].sched.value.table else []
  }

  /** Occurrences of b in the block tables of requests with ticket below n. */
  function Owned(objs: map<Ticket, Request>, n: nat, b: BlockId): nat {
    if n == 0 then 0 else Owned(objs, n - 1, b) + multiset(TableOf(objs, n - 1))[b]
  }

  /** Every reference is accounted for. */
  ghost predicate Conserved(s: Sched, held: multiset<BlockId>) {
    forall b: BlockId :: s.blocks.Refs(b) ==
      Owned(s.objs, s.nextTicket, b) + held[b] + if b in s.hist.leaked then 1 else 0
  }

  /** A block without a cache entry has at most one reference, and lost blocks have no entry. */
  ghost predicate Private(s: Sched) {
    && (forall b: BlockId :: !s.blocks.Cached(b) ==> s.blocks.Refs(b) <= 1)
    && (forall b :: b in s.hist.leaked ==> !s.blocks.Cached(b))
  }

  ghost predicate Accounted(c: Config, s: Sched, held: multiset<BlockId>) {
    && Valid(s.blocks) && |s.blocks.pool.refs| == c.maxBlocks
    && Conserved(s, held) && Private(s)
  }

  // ---------------------------------------------------------------- the whole

  ghost predicate OutIndexed(s: Sched, out: seq<WorkItem>) {
    forall x :: x in out ==> x.seqId in s.bySeq
  }

  ghost predicate Sound(c: Config, s: Sched, out: seq<WorkItem>) {
    forall t :: t in s.objs ==> ReqOk(c, s.blocks.cache.byBlock, s.objs[t], out)
  }

  ghost predicate Core(c: Config, s: Sched, out: seq<WorkItem>, hand: set<Ticket>, held: multiset<BlockId>) {
    && c.Valid()
    && Places(s, hand)
    && Accounted(c, s, held)
    && OutIndexed(s, out)
    && Sound(c, s, out)
  }
}
