/** Retiring work keeps the pact: received tokens are the sampled ones, published blocks tell the truth. */
module TruthLemmas {
  import opened Types
  import opened Blocks
  import opened Hashing
  import opened State
  import opened Scheduling
  import opened SchedulerLoops
  import opened Invariant
  import opened OutLemmas
  import opened SequenceLemmas
  import opened BuildLemmas
  import opened RetireLemmas
  import opened StepLemmas
  import opened ProtocolSteps
  import opened Engine
  import opened CalmLemmas
  import opened Marks
  import opened Faithful
  import opened PactLemmas
  import opened ExecuteLemmas

  // ---------------------------------------------------------------- publishing

  /** What publishing may do to the history: other sequences keep their chains. */
  ghost predicate HistGrows(h: History, h': History, q: SeqId) {
    && h'.starts == h.starts && h'.base == h.base && h'.touched == h.touched && h.hashed <= h'.hashed
    && (forall k :: k != q ==> (k in h.chain <==> k in h'.chain) && (k in h.chain ==> h'.chain[k] == h.chain[k]))
  }

  lemma OffsetIn(c: Config, i: nat, o: nat)
    requires o < c.blockSize
    ensures BlockAt(c, Cap(c, i) + o) == i && OffsetAt(c, Cap(c, i) + o) == o
  {
    BlockIndex(c, Cap(c, i) + o, i);
    BlockIndex(c, Cap(c, i) + o, i + 1);
    assert Cap(c, i + 1) == Cap(c, i) + c.blockSize;
  }

  /** A full block of the executed stream holds what the hash of the prefix ending there stands for. */
  lemma BlockTells(c: Config, mem: map<nat, Kv>, table: seq<BlockId>, stream: seq<Token>, n: nat, i: nat, o: nat)
    requires Holds(c, mem, table, stream, n) && i < |table| && Cap(c, i) + c.blockSize <= n && o < c.blockSize
    ensures var tokens := stream[..Cap(c, i) + c.blockSize];
      Read(mem, SlotIn(c, table[i], o)) == Canon(tokens, |tokens| - c.blockSize + o)
  {
    var tokens := stream[..Cap(c, i) + c.blockSize];
    var p := Cap(c, i) + o;
    OffsetIn(c, i, o);
    assert Slot(c, table, p) == SlotIn(c, table[i], o);
    assert Read(mem, Slot(c, table, p)) == Canon(stream, p);
    assert tokens[..p + 1] == stream[..p + 1];
    CanonPrefix(tokens, stream, p);
  }

  /** The tokens recorded for a sequence: those hashed, then those pending. */
  function Trail(h: History, q: Sequence): seq<Token> {
    (if q.seqId in h.chain then h.chain[q.seqId] else []) + q.pending
  }

  /** The parent hash is that of the recorded tokens, whole blocks of them. */
  ghost predicate Rooted(c: Config, h: History, q: Sequence) {
    q.seqId in h.chain && q.parent == Chain(c, 0, h.chain[q.seqId]) && Aligned(c, |h.chain[q.seqId]|)
  }

  lemma AlignedNext(c: Config, n: nat)
    requires Aligned(c, n)
    ensures Aligned(c, n + c.blockSize) && BlockAt(c, n + c.blockSize) == BlockAt(c, n) + 1
  {
    var i := BlockAt(c, n);
    AlignedCap(c, i + 1);
    assert Cap(c, i + 1) == n + c.blockSize;
    BlockIndex(c, n + c.blockSize, i + 1);
    BlockIndex(c, n + c.blockSize, i + 2);
    assert Cap(c, i + 2) == n + c.blockSize + c.blockSize;
  }

  lemma StepRooted(c: Config, s: Sched, q: Sequence, i: nat)
    requires 0 < c.blockSize <= |q.pending| && i < |q.table| && Rooted(c, s.hist, q)
    ensures var p := PublishStep(c, s, q, i);
      && Rooted(c, p.s.hist, p.q) && Trail(p.s.hist, p.q) == Trail(s.hist, q) && HistGrows(s.hist, p.s.hist, q.seqId)
      && p.s.hist.chain[q.seqId] == s.hist.chain[q.seqId] + q.pending[..c.blockSize]
  {
    hide Publish, Aligned, Cap, BlockAt;
    var chain := s.hist.chain[q.seqId];
    var full := q.pending[..c.blockSize];
    ChainConcat(c, 0, chain, full);
    hide Chain;
    AlignedNext(c, |chain|);
    assert full + q.pending[c.blockSize..] == q.pending;
    assert chain + full + q.pending[c.blockSize..] == chain + q.pending;
  }

  lemma StepForm(c: Config, s: Sched, q: Sequence, i: nat)
    requires 0 < c.blockSize <= |q.pending| && i < |q.table| && Rooted(c, s.hist, q)
    ensures var p := PublishStep(c, s, q, i); var b := q.table[i];
      var tokens := s.hist.chain[q.seqId] + q.pending[..c.blockSize];
      && tokens in p.s.hist.hashed && s.hist.hashed <= p.s.hist.hashed
      && (if s.blocks.Cached(b) then
            && p.s.blocks.cache.byBlock == s.blocks.cache.byBlock && p.s.hist.meaning == s.hist.meaning
            && p.s.hist.tainted == s.hist.tainted
          else
            && p.s.blocks.cache.byBlock == s.blocks.cache.byBlock[b := Chain(c, 0, tokens)]
            && p.s.hist.meaning == s.hist.meaning[b := tokens]
            && p.s.hist.tainted == if Reliable(c, s, q.seqId, i, tokens) then s.hist.tainted - {b}
                                   else s.hist.tainted + {b})
  {
    hide Aligned, Reliable;
    ChainConcat(c, 0, s.hist.chain[q.seqId], q.pending[..c.blockSize]);
    hide Chain;
  }

  lemma TellsSame(c: Config, h: History, h': History, byBlock: map<BlockId, Hash>, byBlock': map<BlockId, Hash>,
          mem: map<nat, Kv>, b: BlockId)
    requires b in byBlock && Tells(c, h, byBlock, mem, b) && b in byBlock' && byBlock'[b] == byBlock[b]
    requires b in h.meaning && b in h'.meaning && h'.meaning[b] == h.meaning[b] && h.hashed <= h'.hashed
    ensures Tells(c, h', byBlock', mem, b)
  {
    hide Chain;
  }

  lemma NewTells(c: Config, h: History, byBlock: map<BlockId, Hash>, mem: map<nat, Kv>, table: seq<BlockId>,
          stream: seq<Token>, n: nat, i: nat)
    requires 0 < c.blockSize && i < |table| && Holds(c, mem, table, stream, n) && Cap(c, i) + c.blockSize <= n
    requires var b := table[i]; var tokens := stream[..Cap(c, i) + c.blockSize];
      b in byBlock && byBlock[b] == Chain(c, 0, tokens) && b in h.meaning && h.meaning[b] == tokens
          && tokens in h.hashed
    ensures Tells(c, h, byBlock, mem, table[i])
  {
    var b := table[i];
    var tokens := stream[..Cap(c, i) + c.blockSize];
    forall o: nat | o < c.blockSize ensures Read(mem, SlotIn(c, b, o)) == Canon(tokens, |tokens| - c.blockSize + o) {
      BlockTells(c, mem, table, stream, n, i, o);
    }
  }

  /** If the sequence was not admitted over a misfiled block, what is about to be published starts at block i
      or later, and what it was fed is what the memory holds. */
  ghost predicate Backed(c: Config, s: Sched, q: Sequence, i: nat, stream: seq<Token>, mem: map<nat, Kv>, n: nat) {
    q.seqId !in s.hist.touched ==>
      && Holds(c, mem, q.table, stream, n) && Cap(c, i) + |q.pending| <= q.frontier <= n
      && q.frontier <= |Script(s, q.seqId)| && Script(s, q.seqId)[..q.frontier] == stream[..q.frontier]
  }

  lemma StepTells(c: Config, s: Sched, q: Sequence, i: nat, stream: seq<Token>, mem: map<nat, Kv>, n: nat)
    requires 0 < c.blockSize <= |q.pending| && i < |q.table| && Rooted(c, s.hist, q)
    requires CacheTells(c, s, mem) && Backed(c, s, q, i, stream, mem, n)
    ensures CacheTells(c, PublishStep(c, s, q, i).s, mem)
  {
    hide PublishStep, Holds, Chain, Cap, Tells, Reliable, Script, Backed;
    StepForm(c, s, q, i);
    var p := PublishStep(c, s, q, i);
    var b := q.table[i];
    forall b' | b' in p.s.blocks.cache.byBlock && b' !in p.s.hist.tainted
      ensures Tells(c, p.s.hist, p.s.blocks.cache.byBlock, mem, b')
    {
      if b' == b && !s.blocks.Cached(b) {
        BackedFront(c, s, q, i, stream, mem, n, s.hist.chain[q.seqId] + q.pending[..c.blockSize]);
        NewTells(c, p.s.hist, p.s.blocks.cache.byBlock, mem, q.table, stream, n, i);
      } else {
        TellsMeans(c, s.hist, s.blocks.cache.byBlock, mem, b');
        TellsSame(c, s.hist, p.s.hist, s.blocks.cache.byBlock, p.s.blocks.cache.byBlock, mem, b');
      }
    }
  }

  lemma BackedFront(c: Config, s: Sched, q: Sequence, i: nat, stream: seq<Token>, mem: map<nat, Kv>, n: nat,
          tokens: seq<Token>)
    requires 0 < c.blockSize <= |q.pending| && Backed(c, s, q, i, stream, mem, n) && Reliable(c, s, q.seqId, i, tokens)
    ensures Holds(c, mem, q.table, stream, n) && Cap(c, i) + c.blockSize <= n <= |stream|
    ensures tokens == stream[..Cap(c, i) + c.blockSize]
  {
    hide Holds, Script;
    HoldsRoom(c, mem, q.table, stream, n);
    assert Cap(c, i + 1) == Cap(c, i) + c.blockSize;
    var e := Cap(c, i + 1);
    assert Script(s, q.seqId)[..e] == Script(s, q.seqId)[..q.frontier][..e];
    assert stream[..e] == stream[..q.frontier][..e];
  }

  lemma HoldsRoom(c: Config, mem: map<nat, Kv>, table: seq<BlockId>, stream: seq<Token>, n: nat)
    requires Holds(c, mem, table, stream, n)
    ensures n <= |stream|
  {
  }

  lemma TellsMeans(c: Config, h: History, byBlock: map<BlockId, Hash>, mem: map<nat, Kv>, b: BlockId)
    requires b in byBlock && Tells(c, h, byBlock, mem, b)
    ensures b in h.meaning
  {
  }

  lemma {:induction false} PublishRooted(c: Config, s: Sched, q: Sequence, i: nat)
    requires c.blockSize > 0 && Rooted(c, s.hist, q)
    ensures var p := PublishPending(c, s, q, i);
      && Rooted(c, p.s.hist, p.q) && Trail(p.s.hist, p.q) == Trail(s.hist, q) && HistGrows(s.hist, p.s.hist, q.seqId)
      && q.seqId in s.hist.chain && q.seqId in p.s.hist.chain && s.hist.chain[q.seqId] <= p.s.hist.chain[q.seqId]
    decreases |q.pending|
  {
    hide Trail, PublishStep, Aligned, Chain;
    PublishNext(c, s, q, i);
    if c.blockSize <= |q.pending| && i < |q.table| {
      StepRooted(c, s, q, i);
      StepPhase(c, s, q, i);
      hide PublishPending;
      var p := PublishStep(c, s, q, i);
      PublishRooted(c, p.s, p.q, i + 1);
    }
  }

  lemma StepPhase(c: Config, s: Sched, q: Sequence, i: nat)
    requires 0 < c.blockSize <= |q.pending| && i < |q.table|
    ensures var p := PublishStep(c, s, q, i);
      p.q == q.(parent := p.q.parent, pending := p.q.pending) && |p.q.pending| == |q.pending| - c.blockSize
  {
    hide Chain, Publish, Reliable;
  }

  lemma StepScript(c: Config, s: Sched, q: Sequence, i: nat)
    requires 0 < c.blockSize <= |q.pending| && i < |q.table|
    ensures var p := PublishStep(c, s, q, i);
      && p.s == s.(blocks := p.s.blocks, hist := p.s.hist) && p.s.hist.starts == s.hist.starts
      && p.s.hist.touched == s.hist.touched && Script(p.s, q.seqId) == Script(s, q.seqId)
  {
    hide Chain, Publish, Reliable, Lead, Since;
  }

  lemma StepBacked(c: Config, s: Sched, q: Sequence, i: nat, stream: seq<Token>, mem: map<nat, Kv>, n: nat)
    requires 0 < c.blockSize <= |q.pending| && i < |q.table| && Backed(c, s, q, i, stream, mem, n)
    ensures var p := PublishStep(c, s, q, i); Backed(c, p.s, p.q, i + 1, stream, mem, n)
  {
    hide Holds, PublishStep, Script;
    StepScript(c, s, q, i);
    StepPhase(c, s, q, i);
    assert Cap(c, i + 1) == Cap(c, i) + c.blockSize;
  }

  lemma {:induction false} PublishTruth(c: Config, s: Sched, q: Sequence, i: nat, stream: seq<Token>, mem: map<nat,
          Kv>, n: nat)
    requires c.blockSize > 0 && Rooted(c, s.hist, q) && CacheTells(c, s, mem) && Backed(c, s, q, i, stream, mem, n)
    ensures CacheTells(c, PublishPending(c, s, q, i).s, mem)
    decreases |q.pending|
  {
    hide CacheTells, Rooted, Backed, PublishStep;
    PublishNext(c, s, q, i);
    if c.blockSize <= |q.pending| && i < |q.table| {
      var p := PublishStep(c, s, q, i);
      StepRooted(c, s, q, i);
      StepPhase(c, s, q, i);
      StepTells(c, s, q, i, stream, mem, n);
      StepBacked(c, s, q, i, stream, mem, n);
      hide PublishPending;
      PublishTruth(c, p.s, p.q, i + 1, stream, mem, n);
    }
  }

  /** Hashing what an item wrote keeps the record. */
  lemma HashRooted(c: Config, s: Sched, r: Request, q: Sequence, q1: Sequence, x: WorkItem)
    requires c.blockSize > 0 && Rooted(c, s.hist, q) && |WrittenTokens(r, x)| == KvCount(x)
    requires q1.seqId == q.seqId && q1.pending == q.pending && q1.parent == q.parent
    requires q1.frontier == q.frontier + KvCount(x)
    ensures var p := HashWritten(c, s, r, q1, x);
      && Rooted(c, p.s.hist, p.q) && Trail(p.s.hist, p.q) == Trail(s.hist, q) + WrittenTokens(r, x)
      && HistGrows(s.hist, p.s.hist, q.seqId)
      && q.seqId in p.s.hist.chain && s.hist.chain[q.seqId] <= p.s.hist.chain[q.seqId]
  {
    hide PublishPending, WrittenTokens, Chain, Aligned;
    var written := WrittenTokens(r, x);
    if KvCount(x) > 0 {
      var q2 := q1.(pending := q1.pending + written);
      assert s.hist.chain[q.seqId] + (q.pending + written) == Trail(s.hist, q) + written;
      PublishRooted(c, s, q2, Sub(x.context, |q1.pending|) / c.blockSize);
    }
  }

  /** Where hashing what an item wrote starts. */
  lemma HashStart(c: Config, q: Sequence, q1: Sequence, x: WorkItem, written: seq<Token>)
    requires c.blockSize > 0 && x.context == q.frontier && |q.pending| <= q.frontier && |written| == KvCount(x)
    requires q1.pending == q.pending && q1.frontier == q.frontier + KvCount(x)
    ensures Cap(c, Sub(x.context, |q1.pending|) / c.blockSize) + |q1.pending + written| <= q1.frontier
  {
    var d := x.context - |q.pending|;
    BlockIndex(c, d, 0);
    assert BlockAt(c, d) == d / c.blockSize;
  }

  /** Hashing what an item wrote files it under what the memory holds, or marks the block as misfiled. */
  lemma HashTruth(c: Config, s: Sched, r: Request, q: Sequence, q1: Sequence, x: WorkItem, stream: seq<Token>,
          mem: map<nat, Kv>, n: nat)
    requires c.blockSize > 0 && Rooted(c, s.hist, q) && |WrittenTokens(r, x)| == KvCount(x) && x.context == q.frontier
    requires q1.seqId == q.seqId && q1.pending == q.pending && q1.parent == q.parent && |q.pending| <= q.frontier
    requires q1.frontier == q.frontier + KvCount(x)
    requires CacheTells(c, s, mem)
    requires q.seqId !in s.hist.touched ==>
      && Holds(c, mem, q1.table, stream, n) && q1.frontier <= n && q1.frontier <= |Script(s, q.seqId)|
      && n <= |stream| && Script(s, q.seqId)[..q1.frontier] == stream[..q1.frontier]
    ensures CacheTells(c, HashWritten(c, s, r, q1, x).s, mem)
  {
    hide CacheTells, Holds, PublishPending, WrittenTokens, Chain, Script, Cap;
    if KvCount(x) > 0 {
      var written := WrittenTokens(r, x);
      var q2 := q1.(pending := q1.pending + written);
      HashStart(c, q, q1, x, written);
      PublishTruth(c, s, q2, Sub(x.context, |q1.pending|) / c.blockSize, stream, mem, n);
    }
  }

  // ---------------------------------------------------------------- the retired request

  /** The request and the scheduler after its oldest item delivered. */
  ghost predicate TokenForm(s: Sched, s': Sched, t: Ticket, x: WorkItem, p: Published, sampled: seq<Token>)
    requires t in s.objs && s.objs[t].sched.Some?
  {
    && t in s'.objs && s'.objs == s.objs[t := s'.objs[t]] && s'.blocks == p.s.blocks && s'.hist == p.s.hist
      && s'.nextSeq == s.nextSeq
    && var r, r' := s.objs[t], s'.objs[t];
       && r'.prompt == r.prompt && r'.generated == r.generated + sampled
       && r'.sched == Some(p.q.(phase := Decode))
  }

  lemma DeliveredForm(r: Request, q: Sequence, result: ItemResult)
    requires |result.sampled| <= 1 && (q.phase == Decode || (q.phase == Bootstrap && result.sampled != []))
    ensures var r' := Delivered(r, q, result);
      r'.prompt == r.prompt && r'.generated == r.generated + result.sampled && r'.sched == Some(q.(phase := Decode))
  {
  }

  lemma RetiredToken(c: Config, s: Sched, x: WorkItem, rest: seq<WorkItem>, t: Ticket, result: ItemResult)
    requires Steady(c, s, [x] + rest) && ResultOk(x, result) && !result.stale
    requires x.seqId in s.bySeq && t == s.bySeq[x.seqId] && Going(s, t) && s.objs[t].sched.value.seqId == x.seqId
    requires x.PrefillChunk? ==> s.objs[t].sched.value.cursor + |x.tokens| >= |s.objs[t].prompt|
    ensures var r := s.objs[t]; var q := r.sched.value; var r1 := RetireReservation(r, x);
      r1.sched.Some? &&
      var q1 := Advance(r1, r1.sched.value, x); var p := HashWritten(c, Put(s, t, r1), r1, q1, x);
      && TokenForm(s, RetireWork(c, s, x, result), t, x, p, result.sampled)
      && q1.seqId == q.seqId && q1.table == q.table && q1.pending == q.pending && q1.parent == q.parent
      && q1.frontier == q.frontier + KvCount(x) && r1.generated == r.generated && x.context == q.frontier
      && r1.prompt == r.prompt
  {
    hide Places, Accounted, Sound, Booked, Hashed, HashWritten, Deliver, Of, Delivered;
    var r := s.objs[t];
    var q := r.sched.value;
    ActiveSeq(c, s, [x] + rest, t);
    OfConcat([x], rest, x.seqId);
    assert Of([x], x.seqId) == [x] by { OfSelf(x); }
    HeadPosition(r, q, x, Of(rest, x.seqId));
    hide Live;
    var r1 := RetireReservation(r, x);
    RetiredKept(r, x);
    var s1 := Put(s, t, r1);
    var q1 := Advance(r1, r1.sched.value, x);
    var p := HashWritten(c, s1, r1, q1, x);
    HashSeq(c, s1, r1, q1, x);
    HashFrame(c, s1, r1, q1, x);
    HashPhase(c, s1, r1, q1, x);
    DeliverPlaces(p.s, t, r1, p.q, result);
    DeliveredForm(r1, p.q, result);
  }

  lemma OfSelf(x: WorkItem)
    ensures Of([x], x.seqId) == [x]
  {
    assert [x][1..] == [];
  }

  lemma {:induction false} PublishPhase(c: Config, s: Sched, q: Sequence, i: nat)
    ensures var p := PublishPending(c, s, q, i); p.q == q.(parent := p.q.parent, pending := p.q.pending)
    decreases |q.pending|
  {
    if 0 < c.blockSize <= |q.pending| && i < |q.table| {
      PublishPhase(c, PublishStep(c, s, q, i).s, PublishStep(c, s, q, i).q, i + 1);
    }
  }

  lemma HashPhase(c: Config, s: Sched, r: Request, q: Sequence, x: WorkItem)
    ensures var p := HashWritten(c, s, r, q, x); p.q == q.(parent := p.q.parent, pending := p.q.pending)
  {
    hide PublishPending, WrittenTokens;
    if KvCount(x) > 0 && c.blockSize > 0 {
      PublishPhase(c, s, q.(pending := q.pending + WrittenTokens(r, x)), Sub(x.context, |q.pending|) / c.blockSize);
    }
  }

  lemma SinceMore(st: Start, r: Request, r': Request, sampled: seq<Token>)
    requires st.before <= |r.generated| && r'.generated == r.generated + sampled
    ensures Since(st, r') == Since(st, r) + sampled
  {
  }

  lemma BoundRetired(st: Start, r: Request, q: Sequence, w: Worker, x: WorkItem, rest: seq<WorkItem>,
          sampled: seq<Token>, ms: seq<Mark>, r': Request, q': Sequence)
    requires Bound(st, r, q, w, [Mark(x, Good(sampled))] + ms) && Live(r, q, [x] + rest) && |sampled| == GenCount(x)
    requires x.PrefillChunk? ==> q.cursor + |x.tokens| >= |r.prompt|
    requires r'.prompt == r.prompt && r'.generated == r.generated + sampled
    requires q'.seqId == q.seqId && q'.phase == Decode && q'.frontier == q.frontier + KvCount(x)
    ensures Bound(st, r', q', w, ms)
  {
    hide Bound, Live, Samples, Reach, Lead, Stands, Made, FedTo, Since;
    var m := Mark(x, Good(sampled));
    BoundParts(st, r, q, w, [m] + ms);
    MarkNext(m, ms, q.frontier);
    StandsRetired(st, r, q, x, rest, sampled, r', q');
    StandsBefore(st, r, q);
    SinceMore(st, r, r', sampled);
    Associate(Since(st, r), sampled, Samples(ms));
    LeadSame(st, r, r');
    BoundMake(st, r', q', w, ms);
  }

  lemma StandsBefore(st: Start, r: Request, q: Sequence)
    requires Stands(st, r, q)
    ensures st.before <= |r.generated|
  {
  }

  lemma LeadSame(st: Start, r: Request, r': Request)
    requires r'.prompt == r.prompt
    ensures Lead(st, r') == Lead(st, r)
  {
  }

  lemma MarkNext(m: Mark, ms: seq<Mark>, from: nat)
    requires m.verdict.Good?
    ensures Samples([m] + ms) == m.verdict.sampled + Samples(ms)
    ensures Reach([m] + ms, from) == Reach(ms, from + KvCount(m.item))
  {
    assert ([m] + ms)[1..] == ms;
  }

  lemma StandsRetired(st: Start, r: Request, q: Sequence, x: WorkItem, rest: seq<WorkItem>, sampled: seq<Token>,
          r': Request, q': Sequence)
    requires Stands(st, r, q) && Live(r, q, [x] + rest) && |sampled| == GenCount(x)
    requires x.PrefillChunk? ==> q.cursor + |x.tokens| >= |r.prompt|
    requires r'.prompt == r.prompt && r'.generated == r.generated + sampled
    requires q'.phase == Decode && q'.frontier == q.frontier + KvCount(x)
    ensures Stands(st, r', q')
  {
    assert ([x] + rest)[1..] == rest;
    HeadPosition(r, q, x, rest);
    SinceMore(st, r, r', sampled);
  }

  lemma HeadTokens(r: Request, q: Sequence, x: WorkItem, rest: seq<WorkItem>)
    requires Live(r, q, [x] + rest)
    ensures x.PrefillChunk? ==>
        q.cursor == q.frontier && q.frontier + |x.tokens| <= |r.prompt|
        && x.tokens == r.prompt[q.frontier..q.frontier + |x.tokens|]
    ensures x.DecodeOneToken? && KvCount(x) > 0 ==> q.phase == Decode && r.generated != []
    ensures x.DecodeOneToken? && KvCount(x) == 0 ==> q.phase == Bootstrap && q.frontier == |r.prompt|
  {
    assert ([x] + rest)[1..] == rest;
  }

  /** The scheduler records one token for each position the item wrote. */
  lemma WrittenCount(r: Request, q: Sequence, x: WorkItem, rest: seq<WorkItem>)
    requires Live(r, q, [x] + rest)
    ensures KvCount(x) > 0 ==> |WrittenTokens(r, x)| == KvCount(x)
  {
    HeadTokens(r, q, x, rest);
  }

  lemma EchoCount(st: Start, r: Request, q: Sequence)
    requires Stands(st, r, q)
    ensures |Echo(st, r)| == |Lead(st, r)| == if st.Cold? then 0 else 1
    ensures q.phase == Decode ==> |Told(st, r)| == q.frontier + 1
    ensures q.phase == Decode && r.generated != [] ==> Told(st, r)[q.frontier] == Last(r.generated, 0)
  {
  }

  /** The tokens recorded are those at the positions written, as the scheduler knows them. */
  lemma WrittenTold(st: Start, r: Request, q: Sequence, x: WorkItem, rest: seq<WorkItem>)
    requires Stands(st, r, q) && Live(r, q, [x] + rest)
    ensures var told := Told(st, r); var e := q.frontier + KvCount(x);
      e <= |told| && (KvCount(x) > 0 ==> WrittenTokens(r, x) == told[q.frontier..e])
  {
    hide Live, Stands, Echo, Since, Told, Last;
    HeadTokens(r, q, x, rest);
    EchoCount(st, r, q);
    ToldPrompt(st, r);
    if x.PrefillChunk? {
      SliceOf(r.prompt, Told(st, r), q.frontier, q.frontier + |x.tokens|);
    }
  }

  lemma ToldPrompt(st: Start, r: Request)
    ensures r.prompt <= Told(st, r)
  {
  }

  lemma SliceOf(a: seq<Token>, b: seq<Token>, i: nat, j: nat)
    requires a <= b && i <= j <= |a|
    ensures b[i..j] == a[i..j]
  {
  }

  /** What a request's sequence is fed, as far as the request has received it. */
  function Line(st: Start, r: Request): seq<Token> {
    r.prompt + Lead(st, r) + Since(st, r)
  }

  lemma ScriptAt(s: Sched, t: Ticket, q: SeqId, r: Request)
    requires q in s.bySeq && s.bySeq[q] == t && t in s.objs && q in s.hist.starts
    requires s.objs[t].prompt == r.prompt && s.objs[t].generated == r.generated
    ensures Script(s, q) == Line(s.hist.starts[q], r)
  {
  }

  /** Up to the end of the oldest item this is what the worker fed it. */
  lemma LineStream(st: Start, r: Request, q: Sequence, w: Worker, x: WorkItem, rest: seq<WorkItem>,
          sampled: seq<Token>, ms: seq<Mark>)
    requires Bound(st, r, q, w, [Mark(x, Good(sampled))] + ms) && Live(r, q, [x] + rest) && |sampled| == GenCount(x)
    ensures var e := q.frontier + KvCount(x);
      e <= |Line(st, r)| && e <= |Stream(r, w, q.seqId)| && Line(st, r)[..e] == Stream(r, w, q.seqId)[..e]
  {
    hide Bound, Live, Reach, Samples, Made, FedTo, Lead, Echo, Since, Told, Ready;
    var m := Mark(x, Good(sampled));
    BoundParts(st, r, q, w, [m] + ms);
    EchoCount(st, r, q);
    HeadTokens(r, q, x, rest);
    MarkNext(m, ms, 0);
    LineLength(st, r, q);
    FedPrefix(st, r, Made(w, q.seqId), FedTo(w, q.seqId), sampled, Samples(ms), q.frontier + KvCount(x));
  }

  lemma LineLength(st: Start, r: Request, q: Sequence)
    requires Stands(st, r, q)
    ensures |Line(st, r)| == |Told(st, r)|
  {
    EchoCount(st, r, q);
  }

  lemma FedPrefix(st: Start, r: Request, made: seq<Token>, fed: seq<Token>, sampled: seq<Token>, more: seq<Token>,
          e: nat)
    requires made == Since(st, r) + (sampled + more) && e <= |Line(st, r)|
    requires fed == if made == [] then [] else Lead(st, r) + made[..|made| - 1]
    requires e <= |r.prompt| || sampled != []
    ensures e <= |r.prompt + fed| && Line(st, r)[..e] == (r.prompt + fed)[..e]
  {
    hide Since, Lead;
    if e > |r.prompt| {
      assert made[..|made| - 1][..|Since(st, r)|] == Since(st, r);
      assert fed[..|Lead(st, r)| + |Since(st, r)|] == Lead(st, r) + Since(st, r);
      assert (r.prompt + fed)[..|Line(st, r)|] == Line(st, r);
    }
  }

  /** The record of a sequence after its oldest item, with the tokens it wrote appended. */
  lemma RecordedRetired(st: Start, r: Request, q: Sequence, chain: seq<Token>, d: nat, x: WorkItem,
          rest: seq<WorkItem>, sampled: seq<Token>, r': Request, q': Sequence, chain': seq<Token>)
    requires Recorded(st, r, q, chain, d) && Stands(st, r, q) && Live(r, q, [x] + rest)
    requires x.PrefillChunk? ==> q.cursor + |x.tokens| >= |r.prompt|
    requires r'.prompt == r.prompt && r'.generated == r.generated + sampled
    requires q'.phase == Decode && q'.frontier == q.frontier + KvCount(x) && d <= |chain'|
    requires chain' + q'.pending == chain + q.pending + if KvCount(x) > 0 then WrittenTokens(r, x) else []
    ensures Recorded(st, r', q', chain', d)
  {
    hide Live, Stands, WrittenTokens, Told, Recorded, Spliced;
    HeadPosition(r, q, x, rest);
    HeadTokens(r, q, x, rest);
    WrittenTold(st, r, q, x, rest);
    WrittenCount(r, q, x, rest);
    StandsBefore(st, r, q);
    ToldMore(st, r, r', sampled);
    ToldPrompt(st, r);
    RecordedChain(st, r, q, chain, d);
    var told, e := Told(st, r), q'.frontier;
    var g := if q.phase == Decode then q.frontier - |chain| - |q.pending| else q.frontier - d;
    RecordedSplice(st, r, q, chain, d, g);
    SplicedMore(told, d, g, q.frontier, e, sampled);
    RecordedMake(st, r', q', chain', d, g);
  }

  /** Before the first token as after it, the record is spliced. */
  lemma RecordedSplice(st: Start, r: Request, q: Sequence, chain: seq<Token>, d: nat, g: nat)
    requires Recorded(st, r, q, chain, d) && q.frontier <= |Told(st, r)|
    requires q.phase != Decode ==> q.frontier <= |r.prompt|
    requires g == if q.phase == Decode then q.frontier - |chain| - |q.pending| else q.frontier - d
    ensures d + g <= q.frontier && d + g <= |r.prompt| && |chain| + |q.pending| + g == q.frontier
    ensures chain + q.pending == Spliced(Told(st, r), d, g, q.frontier)
  {
    if q.phase != Decode {
      assert Told(st, r)[..d] == r.prompt[..d];
      assert chain + [] == chain;
    }
  }

  lemma RecordedMake(st: Start, r: Request, q: Sequence, chain: seq<Token>, d: nat, g: nat)
    requires q.phase == Decode && d + g <= |r.prompt| <= q.frontier <= |Told(st, r)| && d <= |chain|
    requires |chain| + |q.pending| + g == q.frontier
    requires chain + q.pending == Spliced(Told(st, r), d, g, q.frontier)
    ensures Recorded(st, r, q, chain, d)
  {
  }

  lemma SplicedMore(told: seq<Token>, d: nat, g: nat, a: nat, e: nat, sampled: seq<Token>)
    requires d + g <= a <= e <= |told|
    ensures Spliced(told + sampled, d, g, e) == Spliced(told, d, g, a) + told[a..e]
    ensures d + g == a ==> Spliced(told, d, g, a) == told[..d]
  {
  }

  lemma ToldMore(st: Start, r: Request, r': Request, sampled: seq<Token>)
    requires st.before <= |r.generated| && r'.prompt == r.prompt && r'.generated == r.generated + sampled
    ensures Told(st, r') == Told(st, r) + sampled
  {
    SinceMore(st, r, r', sampled);
    assert Echo(st, r') == Echo(st, r);
    Associate(r.prompt + Echo(st, r), Since(st, r), sampled);
  }

  /** The record of the retired sequence. */
  lemma LinkedRetired(c: Config, s: Sched, r: Request, r1: Request, q: Sequence, q1: Sequence, x: WorkItem,
          rest: seq<WorkItem>, sampled: seq<Token>, r': Request)
    requires c.blockSize > 0 && Linked(c, s.hist, r, q) && Live(r, q, [x] + rest)
        && Stands(s.hist.starts[q.seqId], r, q)
    requires x.PrefillChunk? ==> q.cursor + |x.tokens| >= |r.prompt|
    requires r1.generated == r.generated && r1.prompt == r.prompt
    requires q1.seqId == q.seqId && q1.pending == q.pending && q1.parent == q.parent
        && q1.frontier == q.frontier + KvCount(x)
    requires r'.prompt == r.prompt && r'.generated == r.generated + sampled
    ensures var p := HashWritten(c, s, r1, q1, x);
      Linked(c, p.s.hist, r', p.q.(phase := Decode)) && HistGrows(s.hist, p.s.hist, q.seqId)
  {
    hide HashWritten, Live, Chain, Aligned, WrittenTokens, Stands, Recorded;
    WrittenCount(r, q, x, rest);
    WrittenSame(r, r1, x);
    HashKept(c, s, r1, q, q1, x);
    var p := HashWritten(c, s, r1, q1, x);
    HashPhase(c, s, r1, q1, x);
    RecordedChain(s.hist.starts[q.seqId], r, q, s.hist.chain[q.seqId], s.hist.base[q.seqId]);
    RecordedRetired(s.hist.starts[q.seqId], r, q, s.hist.chain[q.seqId], s.hist.base[q.seqId], x, rest, sampled, r',
                    p.q.(phase := Decode), p.s.hist.chain[q.seqId]);
  }

  lemma RecordedChain(st: Start, r: Request, q: Sequence, chain: seq<Token>, d: nat)
    requires Recorded(st, r, q, chain, d)
    ensures d <= |chain| && |chain| + |q.pending| <= q.frontier && d <= q.frontier
    ensures q.phase == Decode ==> |r.prompt| <= q.frontier
  {
  }

  lemma WrittenSame(r: Request, r1: Request, x: WorkItem)
    requires r1.generated == r.generated
    ensures WrittenTokens(r1, x) == WrittenTokens(r, x)
  {
  }

  lemma HashKept(c: Config, s: Sched, r: Request, q: Sequence, q1: Sequence, x: WorkItem)
    requires c.blockSize > 0 && Rooted(c, s.hist, q) && (KvCount(x) > 0 ==> |WrittenTokens(r, x)| == KvCount(x))
    requires q1.seqId == q.seqId && q1.pending == q.pending && q1.parent == q.parent
    requires q1.frontier == q.frontier + KvCount(x)
    ensures var p := HashWritten(c, s, r, q1, x);
      && Rooted(c, p.s.hist, p.q) && HistGrows(s.hist, p.s.hist, q.seqId)
      && Trail(p.s.hist, p.q) == Trail(s.hist, q) + (if KvCount(x) > 0 then WrittenTokens(r, x) else [])
      && q.seqId in p.s.hist.chain && s.hist.chain[q.seqId] <= p.s.hist.chain[q.seqId]
  {
    hide Chain, Aligned, WrittenTokens;
    if KvCount(x) > 0 {
      HashRooted(c, s, r, q, q1, x);
    }
  }

  /** The cache after retiring the oldest item of a sequence. */
  lemma CacheRetired(c: Config, s: Sched, r: Request, r1: Request, q: Sequence, q1: Sequence, w: Worker, x: WorkItem,
          rest: seq<WorkItem>, sampled: seq<Token>, ms: seq<Mark>)
    requires c.blockSize > 0 && CacheTells(c, s, w.mem) && Linked(c, s.hist, r, q) && Live(r, q, [x] + rest)
    requires Bound(s.hist.starts[q.seqId], r, q, w, [Mark(x, Good(sampled))] + ms) && |sampled| == GenCount(x)
    requires q.seqId !in s.hist.touched ==> Settled(c, r, q, w, [Mark(x, Good(sampled))] + ms)
    requires x.context == q.frontier && r1.generated == r.generated && q1.table == q.table
    requires q1.seqId == q.seqId && q1.pending == q.pending && q1.parent == q.parent
        && q1.frontier == q.frontier + KvCount(x)
    requires Script(s, q.seqId) == Line(s.hist.starts[q.seqId], r)
    ensures CacheTells(c, HashWritten(c, s, r1, q1, x).s, w.mem)
  {
    hide CacheTells, Live, Chain, Aligned, WrittenTokens, Bound, Holds, FedTo, PublishPending, Script, Line, Recorded;
    if KvCount(x) > 0 {
      WrittenCount(r, q, x, rest);
      WrittenSame(r, r1, x);
      RecordedChain(s.hist.starts[q.seqId], r, q, s.hist.chain[q.seqId], s.hist.base[q.seqId]);
      var stream := Stream(r, w, q.seqId);
      var n := Reach([Mark(x, Good(sampled))] + ms, q.frontier);
      if q.seqId !in s.hist.touched {
        LineStream(s.hist.starts[q.seqId], r, q, w, x, rest, sampled, ms);
        MarkNext(Mark(x, Good(sampled)), ms, q.frontier);
        ReachUp(ms, q1.frontier);
        HoldsRoom(c, w.mem, q.table, stream, n);
      }
      hide Reach;
      HashTruth(c, s, r1, q, q1, x, stream, w.mem, n);
    }
  }
}
