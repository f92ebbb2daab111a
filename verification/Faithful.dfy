/**
 What the tokens, the hashes and the KV memory mean.

 For every active sequence the worker has sampled exactly the tokens the scheduler has received since its
 admission plus those still under way, and its decode steps were fed exactly those, after one lead token if
 the sequence was readmitted onto a cached prompt. In a run without hash collisions the KV memory of every
 active sequence not admitted over a misfiled block holds what a computation from scratch over the tokens it
 was fed would have put there, and so does every cached block that is not misfiled for the tokens its hash
 stands for.
 */
module Faithful {
  import opened Types
  import opened Blocks
  import opened Hashing
  import opened State
  import opened Scheduling
  import opened Engine
  import opened CalmLemmas
  import opened Marks

  // ---------------------------------------------------------------- meaning

  /** The KV entry at position p of a computation over these tokens and nothing else. */
  function Canon(tokens: seq<Token>, p: nat): Kv
    requires p < |tokens|
    decreases p
  {
    Kv(tokens[p], seq(p, i requires 0 <= i < p => Canon(tokens, i)))
  }

  lemma {:induction false} CanonPrefix(a: seq<Token>, b: seq<Token>, p: nat)
    requires p < |a| <= |b| && a[..p + 1] == b[..p + 1]
    ensures Canon(a, p) == Canon(b, p)
    decreases p
  {
    forall i | 0 <= i < p ensures Canon(a, i) == Canon(b, i) {
      assert a[..i + 1] == a[..p + 1][..i + 1];
      assert b[..i + 1] == b[..p + 1][..i + 1];
      CanonPrefix(a, b, i);
    }
    assert a[p] == a[..p + 1][p] == b[..p + 1][p] == b[p];
  }

  /** Tokens sampled by the answers that count: those before the first item that was lost. */
  function Samples(ms: seq<Mark>): seq<Token> {
    if ms == [] || !ms[0].verdict.Good? then [] else ms[0].verdict.sampled + Samples(ms[1..])
  }

  /** KV positions written once these answers count. */
  function Reach(ms: seq<Mark>, from: nat): nat {
    if ms == [] || !ms[0].verdict.Good? then from else Reach(ms[1..], from + KvCount(ms[0].item))
  }

  /** The tokens a sequence has been fed, prompt first. */
  function Stream(r: Request, w: Worker, q: SeqId): seq<Token> {
    r.prompt + FedTo(w, q)
  }

  // ---------------------------------------------------------------- one sequence

  /** How the executed positions and the tokens since admission relate. */
  predicate Stands(st: Start, r: Request, q: Sequence) {
    && st.before <= |r.generated| && (!st.Cold? ==> 0 < st.before)
    && if q.phase == Decode then
         |r.prompt| + |Since(st, r)| == q.frontier + (if st.Cold? then 1 else 0) && (st.Cold? ==> Since(st, r) != [])
       else
         Since(st, r) == [] && (q.phase == ReplayPrefill <==> st.Warm?) && !st.Blind?
  }

  /** The token the worker would bind next. */
  predicate Ready(st: Start, r: Request, q: Sequence, w: Worker, ms: seq<Mark>) {
    var made := Made(w, q.seqId);
    && (made != [] ==> q.seqId in w.latest && w.latest[q.seqId] == Last(made, 0))
    && (made == [] && st.Warm? && |r.prompt| <= Reach(ms, q.frontier) ==>
          q.seqId in w.latest && w.latest[q.seqId] == Last(r.prompt, 0))
    && (made == [] && st.Blind? ==> q.seqId !in w.latest)
  }

  /** The worker and the scheduler agree on the tokens of a sequence. */
  predicate Bound(st: Start, r: Request, q: Sequence, w: Worker, ms: seq<Mark>) {
    var made := Made(w, q.seqId);
    && made == Since(st, r) + Samples(ms)
    && FedTo(w, q.seqId) == (if made == [] then [] else Lead(st, r) + made[..|made| - 1])
    && Ready(st, r, q, w, ms) && Stands(st, r, q)
  }

  /** The first n positions of a table hold a computation over the stream. */
  ghost predicate Holds(c: Config, mem: map<nat, Kv>, table: seq<BlockId>, stream: seq<Token>, n: nat) {
    && n <= |stream| && n <= Cap(c, |table|)
    && (forall p: nat | p < n :: Read(mem, Slot(c, table, p)) == Canon(stream, p))
  }

  /** The tokens of a sequence as the scheduler hashes them: the prompt, the token generated last before the
      sequence was admitted, if it was readmitted onto a cached prompt, and those generated since. */
  function Told(st: Start, r: Request): seq<Token> {
    r.prompt + Echo(st, r) + Since(st, r)
  }

  /** Executed positions whose tokens were never recorded: those of chunks that did not end their prompt. */
  function Gap(h: History, q: Sequence): nat {
    if q.seqId in h.chain then Sub(q.frontier, |h.chain[q.seqId]| + |q.pending|) else 0
  }

  /** The first n tokens, but for g of them from d on. */
  function Spliced(told: seq<Token>, d: nat, g: nat, n: nat): seq<Token>
    requires d + g <= n <= |told|
  {
    told[..d] + told[d + g..n]
  }

  /** The tokens hashed and pending are those of the sequence, but for the gap after its cached prefix. */
  ghost predicate Recorded(st: Start, r: Request, q: Sequence, chain: seq<Token>, d: nat) {
    && d <= |r.prompt| && d <= |chain| && |chain| + |q.pending| <= q.frontier
    && (if q.phase != Decode then d <= q.frontier && q.pending == [] && chain == r.prompt[..d]
        else
          var g := q.frontier - |chain| - |q.pending|;
          && d + g <= |r.prompt| <= q.frontier <= |Told(st, r)|
          && chain + q.pending == Spliced(Told(st, r), d, g, q.frontier))
  }

  /** The lead token of a sequence the worker has never seen. */
  ghost predicate Leads(c: Config, st: Start, q: SeqId) {
    st.Blind? ==> st.lead == c.unseen(q)
  }

  /** The parent hash is the hash of the recorded tokens, whole blocks of them. */
  ghost predicate Linked(c: Config, h: History, r: Request, q: Sequence) {
    && q.seqId in h.starts && q.seqId in h.chain && q.seqId in h.base
    && Leads(c, h.starts[q.seqId], q.seqId)
    && q.parent == Chain(c, 0, h.chain[q.seqId]) && Aligned(c, |h.chain[q.seqId]|)
    && Recorded(h.starts[q.seqId], r, q, h.chain[q.seqId], h.base[q.seqId])
  }

  /** Whole blocks of tokens. */
  predicate Aligned(c: Config, n: nat) {
    c.blockSize > 0 && n == Cap(c, BlockAt(c, n))
  }

  ghost predicate Settled(c: Config, r: Request, q: Sequence, w: Worker, ms: seq<Mark>) {
    Holds(c, w.mem, q.table, Stream(r, w, q.seqId), Reach(ms, q.frontier))
  }

  // ---------------------------------------------------------------- the cache

  /** A cached block holds the last block of a computation over the tokens its hash stands for. */
  ghost predicate Tells(c: Config, h: History, byBlock: map<BlockId, Hash>, mem: map<nat, Kv>, b: BlockId)
    requires b in byBlock
  {
    && b in h.meaning && h.meaning[b] in h.hashed
    && var tokens := h.meaning[b];
       && 0 < c.blockSize <= |tokens| && byBlock[b] == Chain(c, 0, tokens)
       && (forall o: nat | o < c.blockSize :: Read(mem, SlotIn(c, b, o)) == Canon(tokens, |tokens| - c.blockSize + o))
  }

  ghost predicate CacheTells(c: Config, s: Sched, mem: map<nat, Kv>) {
    forall b :: b in s.blocks.cache.byBlock && b !in s.hist.tainted ==> Tells(c, s.hist, s.blocks.cache.byBlock, mem, b)
  }

  // ---------------------------------------------------------------- the whole

  /** No two token prefixes hashed in the run collide. */
  ghost predicate Injective(c: Config, hashed: set<seq<Token>>) {
    forall a, b :: a in hashed && b in hashed && Chain(c, 0, a) == Chain(c, 0, b) ==> a == b
  }

  ghost predicate AllBound(s: Sched, w: Worker, ms: seq<Mark>) {
    forall t :: Going(s, t) ==>
      var q := s.objs[t].sched.value;
      q.seqId in s.hist.starts && Bound(s.hist.starts[q.seqId], s.objs[t], q, w, MarksFor(ms, q.seqId))
  }

  ghost predicate AllLinked(c: Config, s: Sched) {
    forall t :: Going(s, t) ==> Linked(c, s.hist, s.objs[t], s.objs[t].sched.value)
  }

  /** An active sequence that was not admitted over a misfiled block. */
  ghost predicate Pure(s: Sched, t: Ticket) {
    Going(s, t) && s.objs[t].sched.value.seqId !in s.hist.touched
  }

  ghost predicate AllSettled(c: Config, s: Sched, w: Worker, ms: seq<Mark>) {
    forall t :: Pure(s, t) ==>
      Settled(c, s.objs[t], s.objs[t].sched.value, w, MarksFor(ms, s.objs[t].sched.value.seqId))
  }

  ghost predicate Truthful(c: Config, s: Sched, w: Worker, ms: seq<Mark>) {
    CacheTells(c, s, w.mem) && AllSettled(c, s, w, ms)
  }

  /** The worker only knows sequences that were issued. */
  ghost predicate Issued(n: SeqId, w: Worker, ms: seq<Mark>) {
    && Below(w.failed, n) && Below(w.made.Keys, n) && Below(w.fed.Keys, n) && Below(w.latest.Keys, n)
    && (forall m :: m in ms ==> m.item.seqId < n && (m.verdict.Good? ==> |m.verdict.sampled| == GenCount(m.item)))
  }

  /** What the scheduler and the worker owe each other. */
  ghost predicate Pact(c: Config, s: Sched, w: Worker, ms: seq<Mark>) {
    && Issued(s.nextSeq, w, ms) && Below(s.hist.starts.Keys, s.nextSeq)
    && Shaped(s, ms, w) && AllBound(s, w, ms) && AllLinked(c, s)
    && (Injective(c, s.hist.hashed) ==> Truthful(c, s, w, ms))
  }

  // ---------------------------------------------------------------- calm operations

  lemma SlotPrefix(c: Config, a: seq<BlockId>, b: seq<BlockId>, p: nat)
    requires a <= b && p < Cap(c, |a|)
    ensures Slot(c, a, p) == Slot(c, b, p)
    ensures c.blockSize > 0 && BlockAt(c, p) < |a|
  {
    if c.blockSize > 0 { BlockIndex(c, p, |a|); }
  }

  lemma BlockIndex(c: Config, p: nat, k: nat)
    requires c.blockSize > 0
    ensures p < Cap(c, k) <==> BlockAt(c, p) < k
    ensures p == Cap(c, BlockAt(c, p)) + OffsetAt(c, p) && OffsetAt(c, p) < c.blockSize
  {
    var i := p / c.blockSize;
    assert p == i * c.blockSize + p % c.blockSize;
    if i < k { CapMono(c, i + 1, k); assert Cap(c, i + 1) == Cap(c, i) + c.blockSize; }
    else { CapMono(c, k, i); }
  }

  lemma HoldsLonger(c: Config, mem: map<nat, Kv>, a: seq<BlockId>, b: seq<BlockId>, stream: seq<Token>, n: nat)
    requires Holds(c, mem, a, stream, n) && a <= b
    ensures Holds(c, mem, b, stream, n)
  {
    CapMono(c, |a|, |b|);
    forall p: nat | p < n ensures Read(mem, Slot(c, b, p)) == Canon(stream, p) {
      SlotPrefix(c, a, b, p);
    }
  }

  lemma InjectiveBefore(c: Config, a: set<seq<Token>>, b: set<seq<Token>>)
    requires a <= b && Injective(c, b)
    ensures Injective(c, a)
  {
  }

  lemma SettledKept(c: Config, r: Request, r': Request, w: Worker, ms: seq<Mark>)
    requires KeptSeq(r, r') && Settled(c, r, r.sched.value, w, ms)
    ensures Settled(c, r', r'.sched.value, w, ms)
  {
    hide Holds, Reach;
    var q := r.sched.value;
    HoldsLonger(c, w.mem, q.table, r'.sched.value.table, Stream(r, w, q.seqId), Reach(ms, q.frontier));
  }

  lemma CacheTellsCalm(c: Config, s: Sched, s': Sched, mem: map<nat, Kv>)
    requires CacheTells(c, s, mem) && Calm(s, s')
    ensures CacheTells(c, s', mem)
  {
    hide CalmObjs;
    forall b | b in s'.blocks.cache.byBlock && b !in s'.hist.tainted
      ensures Tells(c, s'.hist, s'.blocks.cache.byBlock, mem, b)
    {
      assert Tells(c, s.hist, s.blocks.cache.byBlock, mem, b);
    }
  }

  lemma TruthfulCalm(c: Config, s: Sched, s': Sched, w: Worker, ms: seq<Mark>)
    requires Truthful(c, s, w, ms) && Calm(s, s')
    ensures Truthful(c, s', w, ms)
  {
    hide CacheTells, Settled, MarksFor;
    CacheTellsCalm(c, s, s', w.mem);
    forall t | Pure(s', t)
      ensures Settled(c, s'.objs[t], s'.objs[t].sched.value, w, MarksFor(ms, s'.objs[t].sched.value.seqId))
    {
      assert Pure(s, t);
      SettledKept(c, s.objs[t], s'.objs[t], w, MarksFor(ms, s.objs[t].sched.value.seqId));
    }
  }

  lemma AllBoundCalm(s: Sched, s': Sched, w: Worker, ms: seq<Mark>)
    requires AllBound(s, w, ms) && Calm(s, s')
    ensures AllBound(s', w, ms)
  {
    hide MarksFor, Samples, Reach;
    forall t | Going(s', t)
      ensures var q := s'.objs[t].sched.value;
        q.seqId in s'.hist.starts && Bound(s'.hist.starts[q.seqId], s'.objs[t], q, w, MarksFor(ms, q.seqId))
    {
      assert Going(s, t);
    }
  }

  lemma AllLinkedCalm(c: Config, s: Sched, s': Sched)
    requires AllLinked(c, s) && Calm(s, s')
    ensures AllLinked(c, s')
  {
    hide Chain, Aligned;
    forall t | Going(s', t) ensures Linked(c, s'.hist, s'.objs[t], s'.objs[t].sched.value) {
      assert Going(s, t);
    }
  }

  lemma PactCalm(c: Config, s: Sched, s': Sched, w: Worker, ms: seq<Mark>)
    requires Pact(c, s, w, ms) && Calm(s, s')
    ensures Pact(c, s', w, ms)
  {
    ShapedCalm(s, s', ms, w);
    AllBoundCalm(s, s', w, ms);
    AllLinkedCalm(c, s, s');
    hide Shaped, AllBound, AllLinked, Truthful, Injective;
    if Injective(c, s'.hist.hashed) {
      InjectiveBefore(c, s.hist.hashed, s'.hist.hashed);
      TruthfulCalm(c, s, s', w, ms);
    }
  }

  // ---------------------------------------------------------------- admission

  /** The cached blocks a prompt was given are filed under the hashes of its own prefixes. */
  ghost predicate HitOk(c: Config, s: Sched, prompt: seq<Token>, hits: nat, parent: Hash, table: seq<BlockId>) {
    && hits <= |table| && Cap(c, hits) <= |prompt| && parent == Chain(c, 0, prompt[..Cap(c, hits)])
    && (forall i | 0 <= i < hits :: FiledUnder(c, s, PrefixOf(c, prompt, i + 1), table[i]))
  }

  ghost predicate FiledUnder(c: Config, s: Sched, tokens: seq<Token>, b: BlockId) {
    && b in s.blocks.cache.byBlock && s.blocks.cache.byBlock[b] == Chain(c, 0, tokens)
    && tokens in s.hist.hashed
  }

  /** A cache hit yields what recomputing the prompt would have yielded, unless a block was misfiled. */
  lemma HitHolds(c: Config, s: Sched, mem: map<nat, Kv>, prompt: seq<Token>, hits: nat, parent: Hash,
          table: seq<BlockId>)
    requires c.blockSize > 0 && HitOk(c, s, prompt, hits, parent, table) && !Soiled(s.hist, table, hits)
    requires CacheTells(c, s, mem) && Injective(c, s.hist.hashed)
    ensures Holds(c, mem, table, prompt, Cap(c, hits))
  {
    CapMono(c, hits, |table|);
    forall p: nat | p < Cap(c, hits) ensures Read(mem, Slot(c, table, p)) == Canon(prompt, p) {
      BlockIndex(c, p, hits);
      HitPosition(c, s, mem, prompt, hits, parent, table, p);
    }
  }

  /** Without collisions, a block filed under these tokens holds their last block. */
  lemma FiledTells(c: Config, s: Sched, mem: map<nat, Kv>, tokens: seq<Token>, b: BlockId, o: nat)
    requires FiledUnder(c, s, tokens, b) && b !in s.hist.tainted && o < c.blockSize
    requires CacheTells(c, s, mem) && Injective(c, s.hist.hashed)
    ensures c.blockSize <= |tokens| && Read(mem, SlotIn(c, b, o)) == Canon(tokens, |tokens| - c.blockSize + o)
  {
    hide Chain, Canon, Read, SlotIn;
    assert Tells(c, s.hist, s.blocks.cache.byBlock, mem, b);
    assert s.hist.meaning[b] == tokens;
  }

  lemma HitFiled(c: Config, s: Sched, prompt: seq<Token>, hits: nat, parent: Hash, table: seq<BlockId>, i: nat)
    requires HitOk(c, s, prompt, hits, parent, table) && i < hits
    ensures i < |table| && Cap(c, hits) <= |prompt| && FiledUnder(c, s, PrefixOf(c, prompt, i + 1), table[i])
  {
    hide Chain, FiledUnder;
  }

  lemma HitPosition(c: Config, s: Sched, mem: map<nat, Kv>, prompt: seq<Token>, hits: nat, parent: Hash,
                    table: seq<BlockId>, p: nat)
    requires c.blockSize > 0 && HitOk(c, s, prompt, hits, parent, table) && p < Cap(c, hits)
    requires BlockAt(c, p) < |table| && table[BlockAt(c, p)] !in s.hist.tainted
    requires CacheTells(c, s, mem) && Injective(c, s.hist.hashed)
    ensures p < |prompt| && Read(mem, Slot(c, table, p)) == Canon(prompt, p)
  {
    hide HitOk, FiledUnder, CacheTells, Injective, Canon, Read;
    BlockIndex(c, p, hits);
    var i, o := BlockAt(c, p), OffsetAt(c, p);
    CapMono(c, i + 1, hits);
    assert Cap(c, i + 1) == Cap(c, i) + c.blockSize;
    HitFiled(c, s, prompt, hits, parent, table, i);
    var tokens := PrefixOf(c, prompt, i + 1);
    FiledTells(c, s, mem, tokens, table[i], o);
    assert tokens[..p + 1] == prompt[..p + 1];
    CanonPrefix(tokens, prompt, p);
  }

  lemma AlignedCap(c: Config, k: nat)
    requires c.blockSize > 0
    ensures Aligned(c, Cap(c, k))
  {
    BlockIndex(c, Cap(c, k), k);
    BlockIndex(c, Cap(c, k), k + 1);
    assert Cap(c, k + 1) == Cap(c, k) + c.blockSize;
  }

  lemma EnlistSettled(c: Config, s: Sched, w: Worker, r: Request, hits: nat, parent: Hash, table: seq<BlockId>)
    requires c.blockSize > 0 && HitOk(c, s, r.prompt, hits, parent, table) && !Soiled(s.hist, table, hits)
    requires CacheTells(c, s, w.mem) && Injective(c, s.hist.hashed) && FedTo(w, s.nextSeq) == []
    ensures Settled(c, r, Admitted(c, s, r, hits, parent, table), w, [])
  {
    hide Holds, HitOk, CacheTells, Injective, Soiled;
    HitHolds(c, s, w.mem, r.prompt, hits, parent, table);
    assert r.prompt + [] == r.prompt;
  }

  lemma HitParent(c: Config, s: Sched, prompt: seq<Token>, hits: nat, parent: Hash, table: seq<BlockId>)
    requires HitOk(c, s, prompt, hits, parent, table)
    ensures Cap(c, hits) <= |prompt| && parent == Chain(c, 0, prompt[..Cap(c, hits)])
  {
  }

  lemma EnlistBound(c: Config, s: Sched, w: Worker, r: Request, hits: nat, parent: Hash, table: seq<BlockId>)
    requires Made(w, s.nextSeq) == [] && FedTo(w, s.nextSeq) == [] && s.nextSeq !in w.latest
    requires Cap(c, hits) <= |r.prompt|
    ensures var q := Admitted(c, s, r, hits, parent, table); Bound(StartOf(c, r, q), r, q, w, [])
  {
    hide Cap;
    assert r.generated[|r.generated|..] == [];
  }

  lemma AdmittedForm(c: Config, s: Sched, r: Request, hits: nat, parent: Hash, table: seq<BlockId>)
    ensures var q := Admitted(c, s, r, hits, parent, table);
      && q.seqId == s.nextSeq && q.frontier == Cap(c, hits) && q.pending == [] && q.parent == parent
      && (q.phase == Decode ==> |r.prompt| <= Cap(c, hits))
  {
    hide Cap;
  }

  lemma EnlistRecorded(st: Start, r: Request, q: Sequence, d: nat)
    requires d <= |r.prompt| && q.frontier == d && q.pending == [] && (q.phase == Decode ==> |r.prompt| <= d)
    ensures Recorded(st, r, q, r.prompt[..d], d)
  {
    hide Echo, Since;
    var told := Told(st, r);
    assert told[..d] + told[d..d] == told[..d] == r.prompt[..d];
  }

  lemma EnlistLinked(c: Config, s: Sched, h: History, r: Request, hits: nat, parent: Hash, table: seq<BlockId>)
    requires c.blockSize > 0 && HitOk(c, s, r.prompt, hits, parent, table)
    requires var q := Admitted(c, s, r, hits, parent, table);
      && q.seqId in h.starts && h.starts[q.seqId] == StartOf(c, r, q)
      && q.seqId in h.chain && h.chain[q.seqId] == PrefixOf(c, r.prompt, hits)
      && q.seqId in h.base && h.base[q.seqId] == |PrefixOf(c, r.prompt, hits)|
    ensures Linked(c, h, r, Admitted(c, s, r, hits, parent, table))
  {
    hide HitOk, Cap, Chain, Aligned, Recorded, Admitted;
    HitParent(c, s, r.prompt, hits, parent, table);
    AlignedCap(c, hits);
    AdmittedForm(c, s, r, hits, parent, table);
    var q := Admitted(c, s, r, hits, parent, table);
    EnlistRecorded(StartOf(c, r, q), r, q, Cap(c, hits));
  }

  lemma FreshSeq(n: SeqId, w: Worker, ms: seq<Mark>)
    requires Issued(n, w, ms)
    ensures Made(w, n) == [] && FedTo(w, n) == [] && MarksFor(ms, n) == [] && n !in w.failed && n !in w.latest
    ensures Issued(n + 1, w, ms)
  {
    MarksForNone(ms, n);
  }

  lemma EnlistShape(c: Config, s: Sched, t: Ticket, hits: nat, parent: Hash, table: seq<BlockId>, s': Sched)
    requires t in s.objs && s' == Enlist(c, s, t, s.objs[t], hits, parent, table)
    ensures var q := Admitted(c, s, s.objs[t], hits, parent, table);
      && t in s'.objs && s'.objs[t] == s.objs[t].(sched := Some(q)) && q.seqId == s.nextSeq
      && s'.hist.starts == s.hist.starts[s.nextSeq := StartOf(c, s.objs[t], q)]
    ensures s'.blocks == s.blocks && s'.nextSeq == s.nextSeq + 1
    ensures forall u :: u != t ==> (u in s'.objs <==> u in s.objs) && (u in s.objs ==> s'.objs[u] == s.objs[u])
    ensures s'.hist.chain == s.hist.chain[s.nextSeq := PrefixOf(c, s.objs[t].prompt, hits)]
    ensures s'.hist.base == s.hist.base[s.nextSeq := |PrefixOf(c, s.objs[t].prompt, hits)|]
    ensures s'.hist.touched == if Soiled(s.hist, table, hits) then s.hist.touched + {s.nextSeq} else s.hist.touched
    ensures s'.hist == s.hist.(chain := s'.hist.chain, starts := s'.hist.starts, base := s'.hist.base,
                                  touched := s'.hist.touched)
  {
    hide Soiled, PrefixOf, StartOf;
  }

  lemma PactEnlist(c: Config, s: Sched, w: Worker, ms: seq<Mark>, t: Ticket, hits: nat, parent: Hash,
          table: seq<BlockId>)
    requires Pact(c, s, w, ms) && t in s.objs && s.objs[t].sched.None? && c.blockSize > 0
    requires HitOk(c, s, s.objs[t].prompt, hits, parent, table)
    requires forall u :: Going(s, u) ==> s.objs[u].sched.value.seqId < s.nextSeq
    ensures Pact(c, Enlist(c, s, t, s.objs[t], hits, parent, table), w, ms)
  {
    hide HitOk, MarksFor, Admitted, Shape, Bound, Settled, Linked, Injective, CacheTells, Soiled, StartOf, PrefixOf;
    var s' := Enlist(c, s, t, s.objs[t], hits, parent, table);
    EnlistShape(c, s, t, hits, parent, table, s');
    hide Enlist;
    FreshSeq(s.nextSeq, w, ms);
    assert Shape([], false, w.halted) by { ShapeNil(w.halted); }
    HitParent(c, s, s.objs[t].prompt, hits, parent, table);
    EnlistBound(c, s, w, s.objs[t], hits, parent, table);
    BoundSched(StartOf(c, s.objs[t], s'.objs[t].sched.value), s.objs[t], s'.objs[t], s'.objs[t].sched.value, w, []);
    EnlistAllBound(s, s', w, ms, t);
    EnlistLinked(c, s, s'.hist, s.objs[t], hits, parent, table);
    LinkedSched(c, s'.hist, s.objs[t], s'.objs[t], s'.objs[t].sched.value);
    EnlistAllLinked(c, s, s', t);
    hide AllBound, AllLinked, Shaped, Issued, Truthful;
    if Injective(c, s'.hist.hashed) { TruthEnlist(c, s, w, ms, t, hits, parent, table, s'); }
  }

  lemma TruthEnlist(c: Config, s: Sched, w: Worker, ms: seq<Mark>, t: Ticket, hits: nat, parent: Hash,
          table: seq<BlockId>, s': Sched)
    requires Truthful(c, s, w, ms) && t in s.objs && c.blockSize > 0
    requires HitOk(c, s, s.objs[t].prompt, hits, parent, table)
    requires s' == Enlist(c, s, t, s.objs[t], hits, parent, table) && Injective(c, s.hist.hashed)
    requires FedTo(w, s.nextSeq) == [] && MarksFor(ms, s.nextSeq) == []
    requires forall u :: Going(s, u) ==> s.objs[u].sched.value.seqId < s.nextSeq
    ensures Truthful(c, s', w, ms)
  {
    hide HitOk, MarksFor, Admitted, Settled, Injective, CacheTells, AllSettled, Soiled, StartOf, PrefixOf, FedTo;
    EnlistShape(c, s, t, hits, parent, table, s');
    hide Enlist;
    if !Soiled(s.hist, table, hits) {
      EnlistSettled(c, s, w, s.objs[t], hits, parent, table);
      SettledSched(c, s.objs[t], s'.objs[t], s'.objs[t].sched.value, w, []);
    }
    EnlistTruthful(c, s, s', w, ms, t);
  }

  lemma ShapeNil(halted: bool)
    ensures Shape([], false, halted)
  {
  }

  lemma BoundSched(st: Start, r: Request, r': Request, q: Sequence, w: Worker, ms: seq<Mark>)
    requires Bound(st, r, q, w, ms) && r' == r.(sched := r'.sched)
    ensures Bound(st, r', q, w, ms)
  {
  }

  lemma LinkedSched(c: Config, h: History, r: Request, r': Request, q: Sequence)
    requires Linked(c, h, r, q) && r' == r.(sched := r'.sched)
    ensures Linked(c, h, r', q)
  {
    hide Chain, Aligned;
  }

  lemma SettledSched(c: Config, r: Request, r': Request, q: Sequence, w: Worker, ms: seq<Mark>)
    requires Settled(c, r, q, w, ms) && r' == r.(sched := r'.sched)
    ensures Settled(c, r', q, w, ms)
  {
  }

  /** Everything recorded of other sequences stays. */
  ghost predicate SameRecord(h: History, h': History, q: SeqId) {
    && (q in h.starts ==> q in h'.starts && h'.starts[q] == h.starts[q])
    && (q in h.chain ==> q in h'.chain && h'.chain[q] == h.chain[q])
    && (q in h.base ==> q in h'.base && h'.base[q] == h.base[q])
  }

  lemma LinkedOther(c: Config, h: History, h': History, r: Request, q: Sequence)
    requires Linked(c, h, r, q) && SameRecord(h, h', q.seqId)
    ensures Linked(c, h', r, q)
  {
    hide Chain, Aligned;
  }

  lemma EnlistAllBound(s: Sched, s': Sched, w: Worker, ms: seq<Mark>, t: Ticket)
    requires AllBound(s, w, ms) && t in s'.objs && s'.objs[t].sched.Some?
    requires s'.objs[t].sched.value.seqId == s.nextSeq && MarksFor(ms, s.nextSeq) == []
    requires forall u :: u != t && Going(s', u) ==> Going(s, u) && s'.objs[u] == s.objs[u]
    requires forall u :: Going(s, u) ==> s.objs[u].sched.value.seqId < s.nextSeq
    requires forall q :: q != s.nextSeq ==> SameRecord(s.hist, s'.hist, q)
    requires s.nextSeq in s'.hist.starts
    requires Bound(s'.hist.starts[s.nextSeq], s'.objs[t], s'.objs[t].sched.value, w, [])
    ensures AllBound(s', w, ms)
  {
    hide MarksFor, Bound;
    forall u | Going(s', u)
      ensures var q := s'.objs[u].sched.value;
        q.seqId in s'.hist.starts && Bound(s'.hist.starts[q.seqId], s'.objs[u], q, w, MarksFor(ms, q.seqId))
    {
      if u != t { assert SameRecord(s.hist, s'.hist, s.objs[u].sched.value.seqId); }
    }
  }

  lemma EnlistAllLinked(c: Config, s: Sched, s': Sched, t: Ticket)
    requires AllLinked(c, s) && t in s'.objs && s'.objs[t].sched.Some? && s'.objs[t].sched.value.seqId == s.nextSeq
    requires forall u :: u != t && Going(s', u) ==> Going(s, u) && s'.objs[u] == s.objs[u]
    requires forall u :: Going(s, u) ==> s.objs[u].sched.value.seqId < s.nextSeq
    requires forall q :: q != s.nextSeq ==> SameRecord(s.hist, s'.hist, q)
    requires Linked(c, s'.hist, s'.objs[t], s'.objs[t].sched.value)
    ensures AllLinked(c, s')
  {
    hide Linked;
    forall u | Going(s', u) ensures Linked(c, s'.hist, s'.objs[u], s'.objs[u].sched.value) {
      if u != t {
        assert SameRecord(s.hist, s'.hist, s.objs[u].sched.value.seqId);
        LinkedOther(c, s.hist, s'.hist, s.objs[u], s.objs[u].sched.value);
      }
    }
  }

  lemma EnlistTruthful(c: Config, s: Sched, s': Sched, w: Worker, ms: seq<Mark>, t: Ticket)
    requires Truthful(c, s, w, ms) && t in s'.objs && s'.objs[t].sched.Some?
    requires s'.objs[t].sched.value.seqId == s.nextSeq && MarksFor(ms, s.nextSeq) == []
    requires s'.blocks == s.blocks && s'.hist.meaning == s.hist.meaning && s'.hist.hashed == s.hist.hashed
    requires s'.hist.tainted == s.hist.tainted && s.hist.touched <= s'.hist.touched
    requires forall u :: u != t && Going(s', u) ==> Going(s, u) && s'.objs[u] == s.objs[u]
    requires s.nextSeq !in s'.hist.touched ==> Settled(c, s'.objs[t], s'.objs[t].sched.value, w, [])
    ensures Truthful(c, s', w, ms)
  {
    hide MarksFor, Settled;
    assert CacheTells(c, s', w.mem) by {
      forall b | b in s'.blocks.cache.byBlock && b !in s'.hist.tainted
        ensures Tells(c, s'.hist, s'.blocks.cache.byBlock, w.mem, b)
      {
        assert Tells(c, s.hist, s.blocks.cache.byBlock, w.mem, b);
      }
    }
    forall u | Pure(s', u)
      ensures Settled(c, s'.objs[u], s'.objs[u].sched.value, w, MarksFor(ms, s'.objs[u].sched.value.seqId))
    {
      if u != t { assert Pure(s, u); }
    }
  }
}
