/**
 Places where the code does less than its comments say, each with the exact condition under which it
 does what they say. Runs that show them are in ChunkRun, ReplayRun and LossRun.
 */
module Shortfalls {
  import opened Types
  import opened Seqs
  import opened Blocks
  import opened Hashing
  import opened State
  import opened Scheduling
  import opened Invariant
  import opened AccountLemmas
  import opened BuildLemmas
  import opened StepLemmas
  import opened Engine
  import opened CalmLemmas
  import opened Marks
  import opened Faithful
  import opened PactLemmas
  import opened ExecuteLemmas
  import opened Theorems
  import opened TokenTheorems
  import opened RetireTheorems
  import opened RecordLemmas

  // ---------------------------------------------------------------- chunked prompts

  /** The prefix of the prompt that ends with the block a position falls in. */
  function TruePrefix(c: Config, prompt: seq<Token>, start: nat): seq<Token> {
    PrefixOf(c, prompt, BlockAt(c, start) + 1)
  }

  /** The tokens a final chunk's first block is filed under, when the hash covers the first d tokens of the prompt. */
  function Filed(c: Config, prompt: seq<Token>, d: nat, start: nat): seq<Token>
    requires d <= |prompt| && start + c.blockSize <= |prompt|
  {
    prompt[..d] + prompt[start..start + c.blockSize]
  }

  /** For prompts of any one length, what a final chunk is filed under is the true prefix for every prompt exactly
      when the chunk starts where the hash left off, that is, when the uncached part is one chunk. */
  lemma OneChunkExact(c: Config, n: nat, d: nat, start: nat)
    requires c.blockSize > 0 && Aligned(c, d) && d <= start && start + c.blockSize <= n
    ensures (forall prompt: seq<Token> | |prompt| == n ::
        Filed(c, prompt, d, start) == TruePrefix(c, prompt, start)) <==> start == d
  {
    BlockIndex(c, start, BlockAt(c, start) + 1);
    assert Cap(c, BlockAt(c, start) + 1) == Cap(c, BlockAt(c, start)) + c.blockSize;
    if start == d {
      forall prompt: seq<Token> | |prompt| == n ensures Filed(c, prompt, d, start) == TruePrefix(c, prompt, start) {
        assert prompt[..d] + prompt[d..d + c.blockSize] == prompt[..d + c.blockSize];
      }
    } else {
      var prompt: seq<Token> := seq(n, i => i);
      assert |prompt| == n;
      assert Filed(c, prompt, d, start)[d] == prompt[start] == start;
      assert TruePrefix(c, prompt, start)[d] == d;
    }
  }

  // ---------------------------------------------------------------- readmission with generated tokens

  /** How a request is admitted depends on how much of its prompt is cached: with generated tokens it starts over
      with nothing cached, replays the rest of a partly cached prompt, or replays nothing. */
  lemma ReadmissionGuard(c: Config, s: Sched, r: Request, hits: nat, parent: Hash, table: seq<BlockId>)
    requires r.prompt != []
    ensures var q := Admitted(c, s, r, hits, parent, table); var n := |r.generated|;
      StartOf(c, r, q) ==
        if n == 0 || Cap(c, hits) == 0 then Cold(n)
        else if Cap(c, hits) < |r.prompt| then Warm(n)
        else Blind(n, c.unseen(q.seqId))
  {
    hide Cap;
  }

  /** The token before the last one a readmitted request had generated. */
  function SecondLast(r: Request, before: nat): Token
    requires 0 < before <= |r.generated|
  {
    if before == 1 then Last(r.initial, 0) else r.generated[before - 2]
  }

  lemma ReadmittedPrompt(c: Config, steps: seq<Step>, t: Ticket)
    requires c.Valid() && Going(Run(c, steps).s, t) && StartedAs(Run(c, steps).s, t).before > 0
    ensures var s := Run(c, steps).s; var r := s.objs[t]; var n := StartedAs(s, t).before;
      n <= |r.generated| && r.prompt == r.initial + r.generated[..n - 1] && Last(r.prompt, 0) == SecondLast(r, n)
  {
    hide Run;
    RunWorded(c, steps, t);
    var s := Run(c, steps).s;
    var r := s.objs[t];
    var n := StartedAs(s, t).before;
    RunStarted(c, steps, t);
    assert r.generated[..n][..n - 1] == r.generated[..n - 1];
  }

  lemma RunStarted(c: Config, steps: seq<Step>, t: Ticket)
    requires c.Valid() && Going(Run(c, steps).s, t)
    ensures Run(c, steps).s.objs[t].sched.value.seqId in Run(c, steps).s.hist.starts
  {
    hide Run, Bound, MarksFor, MarksOf;
    RunBound(c, steps, t);
  }

  lemma RunLeads(c: Config, steps: seq<Step>, t: Ticket)
    requires c.Valid() && Going(Run(c, steps).s, t)
    ensures Leads(c, StartedAs(Run(c, steps).s, t), Run(c, steps).s.objs[t].sched.value.seqId)
  {
    hide Run, Truthful, Issued, Shaped, Injective, AllBindable, AllBound, MarksOf, Recorded, Aligned, Chain;
    RunPact(c, steps);
    LinkedLeads(c, Run(c, steps).s, t);
  }

  /** The first decode step after a readmission, on every run: what it is fed, and exactly when that is the last
      token the request had generated. With nothing cached it is fed the sample of the replayed prompt, with a
      partly cached prompt the second-last token, with a wholly cached one whatever the worker takes for a
      sequence it has never seen. */
  lemma ReadmissionFeeds(c: Config, steps: seq<Step>, t: Ticket)
    requires c.Valid() && Going(Run(c, steps).s, t) && StartedAs(Run(c, steps).s, t).before > 0
    requires FedTo(Run(c, steps).w, Run(c, steps).s.objs[t].sched.value.seqId) != []
    ensures var y := Run(c, steps); var r := y.s.objs[t]; var q := r.sched.value.seqId; var st := StartedAs(y.s, t);
      && st.before <= |r.generated| && Made(y.w, q) != []
      && var first, last := FedTo(y.w, q)[0], r.generated[st.before - 1];
         && (first == last <==> match st
                                case Cold(_) => Made(y.w, q)[0] == last
                                case Warm(n) => SecondLast(r, n) == last
                                case Blind(_, _) => c.unseen(q) == last)
         && (st.Cold? ==> first == Made(y.w, q)[0])
  {
    hide Run, Samples, MarksFor, MarksOf, Made, FedTo, Since;
    ReadmittedPrompt(c, steps, t);
    TokensAgree(c, steps, t);
    RunLeads(c, steps, t);
    var y := Run(c, steps);
    var r := y.s.objs[t];
    var q := r.sched.value.seqId;
    var made := Made(y.w, q);
    assert made != [];
    if StartedAs(y.s, t).Cold? { assert made[..|made| - 1][0] == made[0]; }
  }

  // ---------------------------------------------------------------- lost blocks

  /** A lost block never comes back. */
  lemma LostForever(c: Config, steps: seq<Step>, more: seq<Step>, b: BlockId)
    requires c.Valid() && b in Run(c, steps).s.hist.leaked
    ensures var s := Run(c, steps + more).s; b in s.hist.leaked && s.blocks.Refs(b) > 0 && !s.blocks.Cached(b)
  {
    hide Run, Steady, Worded, Owned;
    RunKeeps(c, steps, more);
    RunSteady(c, steps + more);
    SteadyConserved(c, Run(c, steps + more).s, Run(c, steps + more).Out(), b);
  }

  lemma NothingHeld(c: Config, s: Sched, out: seq<WorkItem>)
    requires Steady(c, s, out) && forall b: BlockId | b < c.maxBlocks :: b in s.hist.leaked
    ensures forall t :: t in s.objs ==> s.objs[t].sched.None?
  {
    hide Core;
    forall t | t in s.objs ensures s.objs[t].sched.None? {
      if s.objs[t].sched.Some? { HeldNotLost(c, s, out, t); }
    }
  }

  lemma HeldNotLost(c: Config, s: Sched, out: seq<WorkItem>, t: Ticket)
    requires Steady(c, s, out) && t in s.objs && s.objs[t].sched.Some?
    ensures exists b: BlockId :: b < c.maxBlocks && b !in s.hist.leaked
  {
    hide Places, Accounted, Sound, Cap, Totals, Hashed, Of, Ordered, Live, Owned;
    SoundAt(c, s, out, t);
    var table := s.objs[t].sched.value.table;
    CapZero(c);
    TicketIssued(c, s, out, t);
    TableBlock(c, s, multiset{}, t, 0);
    SteadyConserved(c, s, out, table[0]);
    assert table[0] < c.maxBlocks;
  }

  lemma CapZero(c: Config)
    ensures Cap(c, 0) == 0
  {
  }

  /** Once every block is lost, nothing runs any more, whatever happens. */
  lemma AllLost(c: Config, steps: seq<Step>, more: seq<Step>)
    requires c.Valid() && forall b: BlockId | b < c.maxBlocks :: b in Run(c, steps).s.hist.leaked
    ensures var y := Run(c, steps + more); y.s.running == [] && y.s.skip == [] && y.Out() == []
  {
    hide Run, Steady, Worded;
    RunKeeps(c, steps, more);
    RunSteady(c, steps + more);
    var y := Run(c, steps + more);
    NothingHeld(c, y.s, y.Out());
    NothingRuns(c, y.s, y.Out());
  }

  lemma NothingRuns(c: Config, s: Sched, out: seq<WorkItem>)
    requires Steady(c, s, out) && forall t :: t in s.objs ==> s.objs[t].sched.None?
    ensures s.running == [] && s.skip == [] && out == []
  {
    hide Steady;
    RunnersHold(c, s, out);
    HeadIn(s.running);
    HeadIn(s.skip);
    HeadIn(out);
  }

  lemma RunnersHold(c: Config, s: Sched, out: seq<WorkItem>)
    requires Steady(c, s, out)
    ensures forall t :: t in s.running || t in s.skip ==> t in s.objs && s.objs[t].sched.Some?
    ensures forall x :: x in out ==> x.seqId in s.bySeq && s.bySeq[x.seqId] in s.running
  {
    hide Accounted, Sound, Named, Queued, Distinct;
  }

  lemma HeadIn<T>(s: seq<T>)
    ensures s != [] ==> s[0] in s
  {
  }

  // ---------------------------------------------------------------- seeds

  /** Hash of the second of two blocks when the first was published before it. */
  function PublishedTwice(c: Config, a: seq<Token>, b: seq<Token>, seed: Hash): Hash {
    Chain(c, Seeded(c, Chain(c, Seeded(c, 0, seed), a), seed), b)
  }

  /** Hash a lookup computes for the two blocks together. */
  function LookedUp(c: Config, a: seq<Token>, b: seq<Token>, seed: Hash): Hash {
    Chain(c, Seeded(c, 0, seed), a + b)
  }

  lemma {:induction false} CountingChain(c: Config, h: Hash, tokens: seq<Token>)
    requires forall x: Hash, v: int :: c.combine(x, v) == x + 1
    ensures Chain(c, h, tokens) == h + |tokens|
    decreases |tokens|
  {
    if tokens != [] { CountingChain(c, c.combine(h, tokens[0]), tokens[1..]); }
  }

  /** Publishing block by block and looking up agree for every mixing function exactly when the seed is 0. */
  lemma SeedExact(a: seq<Token>, b: seq<Token>, seed: Hash)
    ensures (forall c: Config :: PublishedTwice(c, a, b, seed) == LookedUp(c, a, b, seed)) <==> seed == 0
  {
    if seed == 0 {
      forall c: Config ensures PublishedTwice(c, a, b, seed) == LookedUp(c, a, b, seed) {
        ChainConcat(c, 0, a, b);
      }
    } else {
      var c := Config(1, 1, 1, 1, 1, 1, 1, 0, 1, (h: Hash, v: int) => h + 1, _ => 0);
      CountingChain(c, Seeded(c, 0, seed), a);
      CountingChain(c, Seeded(c, Chain(c, Seeded(c, 0, seed), a), seed), b);
      CountingChain(c, Seeded(c, 0, seed), a + b);
      assert PublishedTwice(c, a, b, seed) != LookedUp(c, a, b, seed);
    }
  }

  // ---------------------------------------------------------------- retaining a cached block

  /** A cached block is always marked in use, as the interface documents; it also has a reference, as the
      assertion in retain demands, exactly when it is not idle. */
  lemma RetainContract(st: Store, b: BlockId)
    requires Valid(st) && st.Cached(b)
    ensures b < |st.pool.inUse| && st.pool.inUse[b]
    ensures st.Refs(b) > 0 <==> b !in st.cache.idle
  {
    hide Listed, Bucketed, NoDup;
  }
}
