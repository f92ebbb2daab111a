/**
 What every published block is filed under, and exactly when it holds that, for every result of every batch of
 every run.
 */
module FilingTheorems {
  import opened Types
  import opened Blocks
  import opened Hashing
  import opened State
  import opened Scheduling
  import opened SchedulerLoops
  import opened Invariant
  import opened AccountLemmas
  import opened SequenceLemmas
  import opened RetireLemmas
  import opened StepLemmas
  import opened Engine
  import opened CalmLemmas
  import opened Marks
  import opened Faithful
  import opened PactLemmas
  import opened TruthLemmas
  import opened PactRetire
  import opened RetireTheorems

  // ---------------------------------------------------------------- what a block holds

  /** The KV entry of a computation determines all tokens up to its position. */
  lemma {:induction false} CanonTells(a: seq<Token>, b: seq<Token>, p: nat, p': nat)
    requires p < |a| && p' < |b| && Canon(a, p) == Canon(b, p')
    ensures p == p' && a[..p + 1] == b[..p + 1]
    decreases p
  {
    var x, y := Canon(a, p), Canon(b, p');
    assert |x.context| == p && |y.context| == p';
    forall i | 0 <= i < p ensures a[i] == b[i] {
      assert x.context[i] == Canon(a, i) && y.context[i] == Canon(b, i);
      CanonTells(a, b, i, i);
      assert a[i] == a[..i + 1][i] && b[i] == b[..i + 1][i];
    }
  }

  /** A block holds what its hash stands for. */
  ghost predicate HoldsFiled(c: Config, mem: map<nat, Kv>, b: BlockId, tokens: seq<Token>)
    requires c.blockSize <= |tokens|
  {
    forall o: nat | o < c.blockSize :: Read(mem, SlotIn(c, b, o)) == Canon(tokens, |tokens| - c.blockSize + o)
  }

  lemma SameCanon(c: Config, a: seq<Token>, b: seq<Token>)
    requires 0 < c.blockSize <= |a| && c.blockSize <= |b|
    ensures Canon(a, |a| - 1) == Canon(b, |b| - 1) <==> a == b
  {
    if Canon(a, |a| - 1) == Canon(b, |b| - 1) {
      CanonTells(a, b, |a| - 1, |b| - 1);
      assert a[..|a|] == a && b[..|b|] == b;
    }
  }

  /** A block of a computation holds what it is filed under exactly when it was computed for it. */
  lemma FiledExact(c: Config, mem: map<nat, Kv>, table: seq<BlockId>, stream: seq<Token>, n: nat, j: nat,
          tokens: seq<Token>)
    requires 0 < c.blockSize <= |tokens| && Holds(c, mem, table, stream, n) && j < |table| && Cap(c, j + 1) <= n
    ensures Cap(c, j + 1) <= |stream|
    ensures HoldsFiled(c, mem, table[j], tokens) <==> tokens == stream[..Cap(c, j + 1)]
  {
    hide Holds, Read, SlotIn, Canon, Cap;
    assert Cap(c, j + 1) == Cap(c, j) + c.blockSize by { CapNext(c, j); }
    HoldsRoom(c, mem, table, stream, n);
    var own := stream[..Cap(c, j + 1)];
    forall o: nat | o < c.blockSize ensures Read(mem, SlotIn(c, table[j], o)) == Canon(own, |own| - c.blockSize + o) {
      BlockTells(c, mem, table, stream, n, j, o);
    }
    SameCanon(c, own, tokens);
    var o := c.blockSize - 1;
    assert Read(mem, SlotIn(c, table[j], o)) == Canon(own, |own| - c.blockSize + o);
    assert |tokens| - c.blockSize + o == |tokens| - 1 && |own| - c.blockSize + o == |own| - 1;
    assert own == tokens ==> HoldsFiled(c, mem, table[j], tokens);
    assert HoldsFiled(c, mem, table[j], tokens) ==> Canon(own, |own| - 1) == Canon(tokens, |tokens| - 1);
  }

  lemma CapNext(c: Config, j: nat)
    ensures Cap(c, j + 1) == Cap(c, j) + c.blockSize
  {
  }

  // ---------------------------------------------------------------- the m-th block published

  /** The entry of a block: its hash, the tokens behind it, and whether they are right. */
  ghost predicate Entered(c: Config, s: Sched, b: BlockId, tokens: seq<Token>, right: bool) {
    && b in s.blocks.cache.byBlock && s.blocks.cache.byBlock[b] == Chain(c, 0, tokens)
    && b in s.hist.meaning && s.hist.meaning[b] == tokens && (b in s.hist.tainted <==> !right)
  }

  lemma StepKeeps(c: Config, s: Sched, q: Sequence, i: nat, b: BlockId, tokens: seq<Token>, right: bool)
    requires 0 < c.blockSize <= |q.pending| && i < |q.table| && Entered(c, s, b, tokens, right)
    ensures Entered(c, PublishStep(c, s, q, i).s, b, tokens, right)
  {
    hide Chain, Reliable;
  }

  /** Publishing keeps the entries there are. */
  lemma {:induction false} PublishKeeps(c: Config, s: Sched, q: Sequence, i: nat, b: BlockId, tokens: seq<Token>,
          right: bool)
    requires Entered(c, s, b, tokens, right)
    ensures Entered(c, PublishPending(c, s, q, i).s, b, tokens, right)
    decreases |q.pending|
  {
    hide PublishPending, Entered, PublishStep;
    PublishNext(c, s, q, i);
    if 0 < c.blockSize <= |q.pending| && i < |q.table| {
      StepKeeps(c, s, q, i, b, tokens, right);
      var p := PublishStep(c, s, q, i);
      PublishKeeps(c, p.s, p.q, i + 1, b, tokens, right);
    }
  }

  lemma StepEnters(c: Config, s: Sched, q: Sequence, i: nat)
    requires 0 < c.blockSize <= |q.pending| && i < |q.table| && Rooted(c, s.hist, q) && !s.blocks.Cached(q.table[i])
    ensures var tokens := s.hist.chain[q.seqId] + q.pending[..c.blockSize];
      Entered(c, PublishStep(c, s, q, i).s, q.table[i], tokens, Reliable(c, s, q.seqId, i, tokens))
  {
    hide PublishStep, Reliable, Chain;
    StepForm(c, s, q, i);
  }

  lemma StepUncached(c: Config, s: Sched, q: Sequence, i: nat, b: BlockId)
    requires 0 < c.blockSize <= |q.pending| && i < |q.table| && b != q.table[i] && !s.blocks.Cached(b)
    ensures !PublishStep(c, s, q, i).s.blocks.Cached(b)
  {
    hide Chain, Reliable;
  }

  /** Block i + m is filed under the recorded tokens up to the end of m + 1 blocks of pending ones. */
  lemma {:induction false} PublishedAt(c: Config, s: Sched, q: Sequence, i: nat, m: nat)
    requires 0 < c.blockSize && Rooted(c, s.hist, q) && Cap(c, m + 1) <= |q.pending| && i + m < |q.table|
    requires !s.blocks.Cached(q.table[i + m])
    requires forall k | 0 <= k < |q.table| && k != i + m :: q.table[k] != q.table[i + m]
    ensures var tokens := Trail(s.hist, q)[..|s.hist.chain[q.seqId]| + Cap(c, m + 1)];
      Entered(c, PublishPending(c, s, q, i).s, q.table[i + m], tokens, Reliable(c, s, q.seqId, i + m, tokens))
    decreases m
  {
    hide PublishPending, PublishStep, Entered, Reliable, Chain, Aligned;
    CapMono(c, 1, m + 1);
    assert Cap(c, 1) == c.blockSize;
    PublishNext(c, s, q, i);
    var p := PublishStep(c, s, q, i);
    var chain := s.hist.chain[q.seqId];
    if m == 0 {
      StepEnters(c, s, q, i);
      var tokens := chain + q.pending[..c.blockSize];
      assert tokens == Trail(s.hist, q)[..|chain| + c.blockSize];
      PublishKeeps(c, p.s, p.q, i + 1, q.table[i], tokens, Reliable(c, s, q.seqId, i, tokens));
    } else {
      StepRooted(c, s, q, i);
      StepPhase(c, s, q, i);
      StepScript(c, s, q, i);
      assert q.table[i] != q.table[i + m];
      StepUncached(c, s, q, i, q.table[i + m]);
      CapNext(c, m);
      PublishedAt(c, p.s, p.q, i + 1, m - 1);
      var tokens := Trail(s.hist, q)[..|chain| + Cap(c, m + 1)];
      assert |p.s.hist.chain[q.seqId]| + Cap(c, m) == |chain| + Cap(c, m + 1);
      SameReliable(c, s, p.s, q.seqId, i + m, tokens);
    }
  }

  lemma SameReliable(c: Config, s: Sched, s': Sched, q: SeqId, i: nat, tokens: seq<Token>)
    requires Script(s', q) == Script(s, q) && s'.hist.touched == s.hist.touched
    ensures Reliable(c, s', q, i, tokens) == Reliable(c, s, q, i, tokens)
  {
    hide Script;
  }

  // ---------------------------------------------------------------- the condition

  /** The tokens hashed for block j are those it was computed for: fewer than a block of tokens went unhashed,
      and from the cached prefix on each token hashed is the one fed that much earlier. */
  ghost predicate Rightly(c: Config, told: seq<Token>, line: seq<Token>, d: nat, g: nat, j: nat) {
    g < c.blockSize && forall p: nat | d <= p < Cap(c, j + 1) && p + g < |told| && p < |line| :: told[p + g] == line[p]
  }

  /** The positions compared exist. */
  predicate Fits(c: Config, told: seq<Token>, g: nat, j: nat) {
    Cap(c, j + 1) <= |told| && (g < c.blockSize ==> Cap(c, j + 1) + g <= |told|)
  }

  lemma RightlyTokens(c: Config, told: seq<Token>, line: seq<Token>, d: nat, g: nat, e: nat, j: nat)
    requires 0 < c.blockSize && d <= e && e + g <= |told| == |line| && told[..d] == line[..d]
    requires Cap(c, j + 1) <= |line| && Cap(c, j + 1) == e + Cap(c, g / c.blockSize)
    ensures Spliced(told, d, g, e + g) == line[..Cap(c, j + 1)] <==> Rightly(c, told, line, d, g, j)
  {
    var tokens, own := Spliced(told, d, g, e + g), line[..Cap(c, j + 1)];
    assert |tokens| == e;
    BlockIndex(c, g, 1);
    assert Cap(c, 1) == c.blockSize && BlockAt(c, g) == g / c.blockSize;
    if g < c.blockSize {
      assert Cap(c, 0) == 0 && |own| == e;
      forall p: nat | p < e ensures tokens[p] == if p < d then own[p] else told[p + g] {
        if p < d { assert told[..d][p] == line[..d][p]; }
      }
    } else {
      CapMono(c, 1, g / c.blockSize);
    }
  }

  /** The condition in each case. Nothing unhashed: right for a sequence admitted without a replay, and for a
      replayed one as long as it is prompt only, or if the lead token happens to be the last one generated. A whole
      block or more unhashed: wrong. In between: right only if the tokens repeat at that distance. */
  lemma RightlyCases(c: Config, st: Start, r: Request, d: nat, g: nat, j: nat)
    requires c.blockSize > 0 && |Lead(st, r)| == |Echo(st, r)| && d <= |r.prompt| && Fits(c, Told(st, r), g, j)
    ensures g == 0 && st.Cold? ==> Rightly(c, Told(st, r), Line(st, r), d, g, j)
    ensures g == 0 && !st.Cold? ==>
      (Rightly(c, Told(st, r), Line(st, r), d, g, j) <==> Cap(c, j + 1) <= |r.prompt| || Lead(st, r) == Echo(st, r))
    ensures g >= c.blockSize ==> !Rightly(c, Told(st, r), Line(st, r), d, g, j)
    ensures st.Cold? && 0 < g < c.blockSize ==>
      (Rightly(c, Told(st, r), Line(st, r), d, g, j) <==>
       forall p: nat | d <= p < Cap(c, j + 1) :: Told(st, r)[p + g] == Told(st, r)[p])
  {
    hide Cap, Since;
    var told, line := Told(st, r), Line(st, r);
    assert |told| == |line|;
    if st.Cold? {
      assert told == line;
    } else if g == 0 {
      LeadEcho(st, r);
      if Cap(c, j + 1) > |r.prompt| && Rightly(c, told, line, d, g, j) {
        var p: nat := |r.prompt|;
        assert told[p + g] == line[p];
      }
    }
  }

  lemma LeadEcho(st: Start, r: Request)
    requires !st.Cold? && |Lead(st, r)| == |Echo(st, r)|
    ensures |r.prompt| < |Told(st, r)| == |Line(st, r)|
    ensures forall p: nat | p < |Told(st, r)| && p != |r.prompt| :: Told(st, r)[p] == Line(st, r)[p]
    ensures Lead(st, r) == Echo(st, r) <==> Told(st, r)[|r.prompt|] == Line(st, r)[|r.prompt|]
  {
    hide Since;
  }

  // ---------------------------------------------------------------- retiring one item

  /** Number of tokens behind the hash of block j. */
  function Covered(c: Config, h: History, q: Sequence, x: WorkItem, j: nat): nat
    requires q.seqId in h.chain && FirstDue(c, q, x) <= j
  {
    |h.chain[q.seqId]| + Cap(c, j - FirstDue(c, q, x) + 1)
  }

  lemma DueIndex(c: Config, n: nat, g: nat, m: nat)
    requires Aligned(c, n)
    ensures Cap(c, (n + g) / c.blockSize + m + 1) == n + Cap(c, m + 1) + Cap(c, g / c.blockSize)
    ensures Cap(c, g / c.blockSize) <= g && (g < c.blockSize ==> Cap(c, g / c.blockSize) == 0)
  {
    hide Cap;
    var a, k := BlockAt(c, n), BlockAt(c, g);
    BlockIndex(c, g, 1);
    CapAdd(c, a, k);
    CapNext(c, a + k);
    CapNext(c, 0);
    CapAdd(c, 0, 0);
    BlockIndex(c, n + g, a + k);
    BlockIndex(c, n + g, a + k + 1);
    assert BlockAt(c, n + g) == a + k;
    CapAdd(c, a + k, m + 1);
  }

  lemma CapAdd(c: Config, a: nat, b: nat)
    ensures Cap(c, a + b) == Cap(c, a) + Cap(c, b)
  {
  }

  /** The tokens recorded and those written are the sequence's, but for the gap. */
  lemma TrailSpliced(st: Start, r: Request, q: Sequence, chain: seq<Token>, d: nat, g: nat, x: WorkItem,
          rest: seq<WorkItem>)
    requires Recorded(st, r, q, chain, d) && Stands(st, r, q) && Live(r, q, [x] + rest) && KvCount(x) > 0
    requires g == Sub(q.frontier, |chain| + |q.pending|)
    ensures var e := q.frontier + KvCount(x);
      && d + g <= |r.prompt| && d + g <= q.frontier && e <= |Told(st, r)| == |Line(st, r)| && d <= |chain|
      && |chain| + |q.pending| + g == q.frontier
      && chain + (q.pending + WrittenTokens(r, x)) == Spliced(Told(st, r), d, g, e)
      && |Lead(st, r)| == |Echo(st, r)| && Told(st, r)[..d] == Line(st, r)[..d]
  {
    hide Live, Stands, WrittenTokens, Told, Recorded, Spliced, Line;
    HeadPosition(r, q, x, rest);
    HeadTokens(r, q, x, rest);
    WrittenTold(st, r, q, x, rest);
    ToldPrompt(st, r);
    LineLength(st, r, q);
    EchoCount(st, r, q);
    RecordedChain(st, r, q, chain, d);
    PhaseGap(st, r, q, chain, d, g);
    RecordedSplice(st, r, q, chain, d, g);
    var told, e := Told(st, r), q.frontier + KvCount(x);
    SplicedMore(told, d, g, q.frontier, e, []);
    assert told + [] == told;
    Grouped(chain, q.pending, WrittenTokens(r, x));
    SamePrompt(st, r, d);
  }

  lemma Grouped(a: seq<Token>, b: seq<Token>, c: seq<Token>)
    ensures a + b + c == a + (b + c)
  {
  }

  lemma PhaseGap(st: Start, r: Request, q: Sequence, chain: seq<Token>, d: nat, g: nat)
    requires Recorded(st, r, q, chain, d) && g == Sub(q.frontier, |chain| + |q.pending|)
    ensures g == if q.phase == Decode then q.frontier - |chain| - |q.pending| else q.frontier - d
  {
  }

  lemma SamePrompt(st: Start, r: Request, d: nat)
    requires d <= |r.prompt|
    ensures Told(st, r)[..d] == r.prompt[..d] == Line(st, r)[..d]
  {
    hide Echo, Lead, Since;
  }

  /** A block is only due when the item writes. */
  lemma DueWrites(c: Config, r: Request, q: Sequence, x: WorkItem, rest: seq<WorkItem>)
    requires Live(r, q, [x] + rest) && BlocksDue(c, q, x) > 0
    ensures KvCount(x) > 0
  {
    HeadPosition(r, q, x, rest);
  }

  /** An uncached block of a table occurs there only once. */
  lemma HeadAlone(c: Config, s: Sched, out: seq<WorkItem>, t: Ticket, j: nat)
    requires Steady(c, s, out) && t in s.objs && s.objs[t].sched.Some? && j < |s.objs[t].sched.value.table|
    requires !s.blocks.Cached(s.objs[t].sched.value.table[j])
    ensures var table := s.objs[t].sched.value.table; forall k | 0 <= k < |table| && k != j :: table[k] != table[j]
  {
    hide Accounted, Sound, Named, Sequenced, Distinct;
    TableBlock(c, s, multiset{}, t, j);
  }

  /** What hashing the written tokens enters for block j. */
  lemma HashedAt(c: Config, s: Sched, r: Request, q: Sequence, x: WorkItem, j: nat)
    requires 0 < c.blockSize && Rooted(c, s.hist, q) && KvCount(x) > 0 && |WrittenTokens(r, x)| == KvCount(x)
    requires FirstDue(c, q, x) <= j < FirstDue(c, q, x) + BlocksDue(c, q, x) && j < |q.table|
    requires !s.blocks.Cached(q.table[j]) && forall k | 0 <= k < |q.table| && k != j :: q.table[k] != q.table[j]
    ensures var all := s.hist.chain[q.seqId] + (q.pending + WrittenTokens(r, x)); var e := Covered(c, s.hist, q, x, j);
      e <= |all| && Entered(c, HashWritten(c, s, r, q, x).s, q.table[j], all[..e], Reliable(c, s, q.seqId, j, all[..e]))
  {
    hide PublishPending, WrittenTokens, Chain, Aligned, Entered, Reliable, Cap;
    var m := j - FirstDue(c, q, x);
    var q2 := q.(pending := q.pending + WrittenTokens(r, x));
    DueCount(c, |q2.pending|, m);
    RootedMore(c, s.hist, q, q2.pending);
    PublishedAt(c, s, q2, FirstDue(c, q, x), m);
  }

  lemma DueCount(c: Config, n: nat, m: nat)
    requires c.blockSize > 0 && m < n / c.blockSize
    ensures Cap(c, m + 1) <= n
  {
    CapMono(c, m + 1, n / c.blockSize);
  }

  lemma RootedMore(c: Config, h: History, q: Sequence, more: seq<Token>)
    requires Rooted(c, h, q)
    ensures Rooted(c, h, q.(pending := more))
  {
  }

  /** The reservation and the position of an item do not change what is due. */
  lemma DueSame(c: Config, q: Sequence, q1: Sequence, x: WorkItem)
    requires q1.pending == q.pending
    ensures FirstDue(c, q1, x) == FirstDue(c, q, x) && BlocksDue(c, q1, x) == BlocksDue(c, q, x)
  {
  }

  /** Block j as a retired item leaves it, before its tokens are compared. */
  lemma HeadEntered(c: Config, s: Sched, x: WorkItem, rest: seq<WorkItem>, t: Ticket, result: ItemResult, j: nat)
    requires Steady(c, s, [x] + rest) && Retiring(s, x, t) && ResultOk(x, result) && !result.stale
    requires x.PrefillChunk? ==> x.context + |x.tokens| >= |s.objs[t].prompt|
    requires Linked(c, s.hist, s.objs[t], s.objs[t].sched.value)
    requires var q := s.objs[t].sched.value; FirstDue(c, q, x) <= j < FirstDue(c, q, x) + BlocksDue(c, q, x)
    ensures var r := s.objs[t]; var q := r.sched.value; var st := s.hist.starts[q.seqId];
      var all := s.hist.chain[q.seqId] + (q.pending + WrittenTokens(r, x)); var e := Covered(c, s.hist, q, x, j);
      && KvCount(x) > 0 && j < |q.table| && e <= |all|
      && Entered(c, RetireWork(c, s, x, result), q.table[j], all[..e],
                 q.seqId !in s.hist.touched && Cap(c, j + 1) <= |Line(st, r)|
                 && all[..e] == Line(st, r)[..Cap(c, j + 1)])
  {
    hide Steady, RetireWork, HashWritten, RetireReservation, Advance, Chain, Aligned, Recorded, Booked, Hashed, Live,
        WrittenTokens, Entered, FirstDue, BlocksDue, Cap, Line, Script;
    var r := s.objs[t];
    var q := r.sched.value;
    RetiringLive(c, s, x, rest, t);
    HeadDue(c, s, x, rest, t, j);
    HeadAlone(c, s, [x] + rest, t, j);
    DueWrites(c, r, q, x, Of(rest, x.seqId));
    TruthLemmas.WrittenCount(r, q, x, Of(rest, x.seqId));
    HeadTokens(r, q, x, Of(rest, x.seqId));
    HeadPosition(r, q, x, Of(rest, x.seqId));
    RetiredToken(c, s, x, rest, t, result);
    var r1 := RetireReservation(r, x);
    var q1 := Advance(r1, r1.sched.value, x);
    var s1 := Put(s, t, r1);
    WrittenSame(r, r1, x);
    DueSame(c, q, q1, x);
    HashedAt(c, s1, r1, q1, x, j);
    ScriptAt(s1, t, q.seqId, r);
    var p := HashWritten(c, s1, r1, q1, x);
    EnteredAs(c, p.s, RetireWork(c, s, x, result), q.table[j]);
  }

  lemma EnteredAs(c: Config, s: Sched, s': Sched, b: BlockId)
    requires s'.blocks == s.blocks && s'.hist == s.hist
    ensures forall tokens, right :: Entered(c, s, b, tokens, right) ==> Entered(c, s', b, tokens, right)
  {
  }

  /** What the memory holds up to the end of the item. */
  lemma HeadHolds(c: Config, s: Sched, x: WorkItem, rest: seq<WorkItem>, t: Ticket, w: Worker, result: ItemResult,
          ms: seq<Mark>)
    requires Steady(c, s, [x] + rest) && Retiring(s, x, t) && ResultOk(x, result)
    requires Pact(c, s, w, [Mark(x, VerdictOf(result))] + ms) && Injective(c, s.hist.hashed) && Pure(s, t)
    ensures var r := s.objs[t]; var q := r.sched.value; var stream := Stream(r, w, q.seqId);
      q.seqId in s.hist.starts && var line := Line(s.hist.starts[q.seqId], r); var e := q.frontier + KvCount(x);
      && e <= |line| && e <= |stream| && line[..e] == stream[..e]
      && exists n: nat :: e <= n && Holds(c, w.mem, q.table, stream, n)
  {
    hide Steady, Live, Bound, Linked, Injective, MarksFor, Holds, CacheTells, Issued, Shaped, AllBound, AllLinked, Line;
    Answered(c, s, x, rest, result, ms, w, t);
    var r := s.objs[t];
    var q := r.sched.value;
    var m := Mark(x, VerdictOf(result));
    var mine := MarksFor(ms, q.seqId);
    SettledAt(c, s, w, [m] + ms, t);
    LineStream(s.hist.starts[q.seqId], r, q, w, x, Of(rest, x.seqId), result.sampled, mine);
    MarkNext(m, mine, q.frontier);
    ReachUp(mine, q.frontier + KvCount(x));
  }

  /** How block j is filed when item x of request t is retired: under the sequence's tokens but for the gap after
      its cached prefix, and rightly exactly when the block then holds what those tokens give. */
  ghost predicate FiledAs(c: Config, s: Sched, s': Sched, t: Ticket, x: WorkItem, mem: map<nat, Kv>, j: nat)
    requires Going(s, t)
  {
    var r, h := s.objs[t], s.hist;
    var q := r.sched.value;
    && q.seqId in h.starts && q.seqId in h.chain && q.seqId in h.base && FirstDue(c, q, x) <= j < |q.table|
    && var st, d, g, e := h.starts[q.seqId], h.base[q.seqId], Gap(h, q), Covered(c, h, q, x, j);
       && d + g <= |r.prompt| && d <= e && e + g <= |Told(st, r)| && |Lead(st, r)| == |Echo(st, r)|
       && var tokens, right := Spliced(Told(st, r), d, g, e + g), Rightly(c, Told(st, r), Line(st, r), d, g, j);
          && c.blockSize <= |tokens| && Fits(c, Told(st, r), g, j)
          && Entered(c, s', q.table[j], tokens, q.seqId !in h.touched && right)
          && (Injective(c, h.hashed) && Pure(s, t) ==> (HoldsFiled(c, mem, q.table[j], tokens) <==> right))
  }

  /** What is known of the sequence. */
  lemma HeadSure(c: Config, s: Sched, x: WorkItem, rest: seq<WorkItem>, t: Ticket, w: Worker, result: ItemResult,
          ms: seq<Mark>)
    requires Steady(c, s, [x] + rest) && Retiring(s, x, t) && ResultOk(x, result)
    requires Pact(c, s, w, [Mark(x, VerdictOf(result))] + ms)
    ensures var r := s.objs[t]; var q := r.sched.value;
      && !result.stale && c.blockSize > 0 && q.seqId == x.seqId && Linked(c, s.hist, r, q)
      && Stands(s.hist.starts[q.seqId], r, q) && Live(r, q, [x] + Of(rest, x.seqId)) && x.context == q.frontier
  {
    hide Steady, Pact, Live, Bound, Linked, Stands, MarksFor;
    Answered(c, s, x, rest, result, ms, w, t);
    var r := s.objs[t];
    BoundStands(s.hist.starts[x.seqId], r, r.sched.value, w, [Mark(x, VerdictOf(result))] + MarksFor(ms, x.seqId));
    HeadPosition(r, r.sched.value, x, Of(rest, x.seqId));
  }

  /** Where block j ends: as a position, and in tokens hashed. */
  lemma DueEnds(c: Config, n: nat, q: Sequence, x: WorkItem, g: nat, j: nat)
    requires Aligned(c, n) && n + |q.pending| + g == q.frontier == x.context
    requires FirstDue(c, q, x) <= j < FirstDue(c, q, x) + BlocksDue(c, q, x)
    ensures var e := n + Cap(c, j - FirstDue(c, q, x) + 1);
      && Cap(c, j + 1) == e + Cap(c, g / c.blockSize) <= e + g <= q.frontier + KvCount(x) && n + c.blockSize <= e
      && (g < c.blockSize ==> Cap(c, j + 1) == e)
  {
    var m := j - FirstDue(c, q, x);
    DueIndex(c, n, g, m);
    DueCount(c, |q.pending| + KvCount(x), m);
    CapMono(c, 1, m + 1);
    assert Cap(c, 1) == c.blockSize;
  }

  lemma SplicedFront(told: seq<Token>, d: nat, g: nat, e: nat, n: nat)
    requires d + g <= n <= |told| && d <= e && e + g <= n
    ensures Spliced(told, d, g, n)[..e] == Spliced(told, d, g, e + g)
  {
  }

  lemma HeadExact(c: Config, s: Sched, x: WorkItem, rest: seq<WorkItem>, t: Ticket, w: Worker, result: ItemResult,
          ms: seq<Mark>, j: nat, tokens: seq<Token>)
    requires Steady(c, s, [x] + rest) && Retiring(s, x, t) && ResultOk(x, result)
    requires s.objs[t].sched.value.seqId in s.hist.starts
    requires Pact(c, s, w, [Mark(x, VerdictOf(result))] + ms) && Injective(c, s.hist.hashed) && Pure(s, t)
    requires 0 < c.blockSize <= |tokens| && j < |s.objs[t].sched.value.table|
    requires Cap(c, j + 1) <= s.objs[t].sched.value.frontier + KvCount(x)
    ensures var q := s.objs[t].sched.value; var line := Line(s.hist.starts[q.seqId], s.objs[t]);
      Cap(c, j + 1) <= |line| && (HoldsFiled(c, w.mem, q.table[j], tokens) <==> tokens == line[..Cap(c, j + 1)])
  {
    hide Steady, Pact, Holds, HoldsFiled, Injective, Line, Cap;
    HeadHolds(c, s, x, rest, t, w, result, ms);
    var r := s.objs[t];
    var q := r.sched.value;
    var stream, line, e := Stream(r, w, q.seqId), Line(s.hist.starts[q.seqId], r), q.frontier + KvCount(x);
    var n: nat :| e <= n && Holds(c, w.mem, q.table, stream, n);
    FiledExact(c, w.mem, q.table, stream, n, j, tokens);
    assert line[..Cap(c, j + 1)] == line[..e][..Cap(c, j + 1)];
    assert stream[..Cap(c, j + 1)] == stream[..e][..Cap(c, j + 1)];
  }

  /** Every block that retiring the oldest item of an active request files. */
  lemma HeadFiled(c: Config, s: Sched, x: WorkItem, rest: seq<WorkItem>, t: Ticket, w: Worker, result: ItemResult,
          ms: seq<Mark>, j: nat)
    requires Steady(c, s, [x] + rest) && Retiring(s, x, t) && ResultOk(x, result)
    requires Pact(c, s, w, [Mark(x, VerdictOf(result))] + ms)
    requires x.PrefillChunk? ==> x.context + |x.tokens| >= |s.objs[t].prompt|
    requires var q := s.objs[t].sched.value; FirstDue(c, q, x) <= j < FirstDue(c, q, x) + BlocksDue(c, q, x)
    ensures FiledAs(c, s, RetireWork(c, s, x, result), t, x, w.mem, j)
  {
    hide Steady, Pact, RetireWork, Live, Bound, Chain, Aligned, Recorded, WrittenTokens, Entered, Rightly, Cap,
        HoldsFiled, Injective, Told, Line, Spliced, Reach, MarksFor, Stands, Lead, Echo, FirstDue, BlocksDue;
    HeadSure(c, s, x, rest, t, w, result, ms);
    var r := s.objs[t];
    var q := r.sched.value;
    var h := s.hist;
    var st, d, g := h.starts[q.seqId], h.base[q.seqId], Gap(h, q);
    HeadEntered(c, s, x, rest, t, result, j);
    TrailSpliced(st, r, q, h.chain[q.seqId], d, g, x, Of(rest, x.seqId));
    DueEnds(c, |h.chain[q.seqId]|, q, x, g, j);
    var e := Covered(c, h, q, x, j);
    SplicedFront(Told(st, r), d, g, e, q.frontier + KvCount(x));
    SplicedSize(Told(st, r), d, g, e);
    RightlyTokens(c, Told(st, r), Line(st, r), d, g, e, j);
    if Injective(c, h.hashed) && Pure(s, t) {
      HeadExact(c, s, x, rest, t, w, result, ms, j, Spliced(Told(st, r), d, g, e + g));
    }
  }

  lemma SplicedSize(told: seq<Token>, d: nat, g: nat, e: nat)
    requires d <= e && e + g <= |told|
    ensures |Spliced(told, d, g, e + g)| == e
  {
  }

  // ---------------------------------------------------------------- on every run

  /** On every run, every block that retiring a result files, be it of the chunk that ends a prompt or of a decode
      step: it is entered under the sequence's tokens without the gap after its cached prefix; for a sequence not
      admitted over a misfiled block it holds what those tokens give exactly when `Rightly` holds, and is recorded
      as misfiled exactly when it does not. Without a gap that is always so for a sequence admitted without a
      replay, and for a replayed one exactly when the block is prompt only or the lead token is the token generated
      last; with a gap of a block or more never; with a smaller one only if the tokens repeat at that distance. */
  lemma BlockFiled(c: Config, steps: seq<Step>, k: nat, t: Ticket, j: nat)
    requires c.Valid() && Arrived(Run(c, steps)) && k < |Run(c, steps).current.value.items|
    requires var s := Midway(c, Run(c, steps), k); var x := Run(c, steps).current.value.items[k];
      && Retiring(s, x, t) && (x.PrefillChunk? ==> x.context + |x.tokens| >= |s.objs[t].prompt|)
      && FirstDue(c, s.objs[t].sched.value, x) <= j
      && j < FirstDue(c, s.objs[t].sched.value, x) + BlocksDue(c, s.objs[t].sched.value, x)
    ensures var y := Run(c, steps);
      FiledAs(c, Midway(c, y, k), Midway(c, y, k + 1), t, y.current.value.items[k], y.w.mem, j)
    ensures var s := Midway(c, Run(c, steps), k); var r, h := s.objs[t], s.hist; var q := r.sched.value;
      var st, d, g := h.starts[q.seqId], h.base[q.seqId], Gap(h, q);
      var right := Rightly(c, Told(st, r), Line(st, r), d, g, j);
      && (g == 0 && st.Cold? ==> right)
      && (g == 0 && !st.Cold? ==> (right <==> Cap(c, j + 1) <= |r.prompt| || Lead(st, r) == Echo(st, r)))
      && (g >= c.blockSize ==> !right)
      && (st.Cold? && 0 < g < c.blockSize ==>
            (right <==> forall p: nat | d <= p < Cap(c, j + 1) :: Told(st, r)[p + g] == Told(st, r)[p]))
  {
    hide Run, Steady, Pact, Midway, ItemsOf, MarksOf, FirstDue, BlocksDue, ResultOk, RetireWork, Entered, HoldsFiled,
        Rightly, Told, Line, Spliced, Cap, Injective, Lead, Echo, Gap;
    MidwayHead(c, steps, k, t);
    var y := Run(c, steps);
    var f := y.current.value;
    MidwayStep(c, y, k);
    var s, x := Midway(c, y, k), f.items[k];
    HeadFiled(c, s, x, f.items[k + 1..] + ItemsOf(y.flights), t, y.w, f.outcome.value.results[k],
              ZipMarks(f.items[k + 1..], f.outcome.value.results[k + 1..]) + MarksOf(y.flights), j);
    var q := s.objs[t].sched.value;
    RightlyCases(c, s.hist.starts[q.seqId], s.objs[t], s.hist.base[q.seqId], Gap(s.hist, q), j);
  }
}
