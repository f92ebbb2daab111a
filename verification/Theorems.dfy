/**
 The main results, for every state of every run: any number of clients, any interleaving of client
 calls, engine rounds and worker batches, any sampled tokens, any failures, and shutdown at any moment.
 */
module Theorems {
  import opened Types
  import opened Blocks
  import BlockLemmas
  import opened State
  import opened Scheduling
  import opened Invariant
  import opened OutLemmas
  import opened AccountLemmas
  import opened CoreLemmas
  import opened BuildLemmas
  import opened StepLemmas
  import opened Protocol
  import opened Engine
  import opened Marks
  import opened EngineInvariant
  import opened Faithful
  import opened PactLemmas
  import opened MemoryLemmas
  import opened ExecuteLemmas
  import opened BatchLemmas
  import opened SystemInvariant

  // ---------------------------------------------------------------- access to the invariant

  lemma RunSteady(c: Config, steps: seq<Step>)
    requires c.Valid()
    ensures var y := Run(c, steps); Steady(c, y.s, y.Out())
  {
    hide Steady, Tidy, Flying, Paced, Orderly, Pact, AllBindable, Run;
    RunOk(c, steps);
  }

  lemma RunPact(c: Config, steps: seq<Step>)
    requires c.Valid()
    ensures var y := Run(c, steps); Pact(c, y.s, y.w, MarksOf(y.Aloft())) && AllBindable(y.s.hist, y.w, y.Out())
  {
    hide Steady, Tidy, Flying, Paced, Orderly, Pact, AllBindable, Run;
    RunOk(c, steps);
  }

  lemma RunRest(c: Config, steps: seq<Step>)
    requires c.Valid()
    ensures var y := Run(c, steps); Tidy(c, Seen(y)) && Flying(c, y) && Paced(y) && Orderly(y)
  {
    hide Steady, Tidy, Flying, Paced, Orderly, Pact, AllBindable, Run;
    RunOk(c, steps);
  }

  // ---------------------------------------------------------------- in-flight safety

  /** No block of an unretired work item is free, idle or evicted: its request is still running, still
      holds the table the item was built from, and every block of it has a reference. */
  lemma InFlightSafety(c: Config, steps: seq<Step>, x: WorkItem, b: BlockId)
    requires c.Valid() && x in Run(c, steps).Out() && b in x.table
    ensures var s := Run(c, steps).s;
      && x.seqId in s.bySeq && s.bySeq[x.seqId] in s.running && HasSeq(s, s.bySeq[x.seqId], x.seqId)
      && x.table <= s.objs[s.bySeq[x.seqId]].sched.value.table
      && s.blocks.Refs(b) > 0 && b !in s.blocks.pool.free && b !in s.blocks.cache.idle
  {
    hide Steady, Run;
    var y := Run(c, steps);
    RunSteady(c, steps);
    ItemOwner(c, y.s, y.Out(), x);
    var t := y.s.bySeq[x.seqId];
    OwnerRunning(c, y.s, y.Out(), x.seqId);
    ItemFitsAt(c, y.s, y.Out(), x, t);
    var i :| 0 <= i < |x.table| && x.table[i] == b;
    HeldBlock(c, y.s, y.Out(), t, i);
  }

  lemma OwnerRunning(c: Config, s: Sched, out: seq<WorkItem>, q: SeqId)
    requires Steady(c, s, out) && q in s.bySeq
    ensures s.bySeq[q] in s.running
  {
    hide Queued, Named, Distinct, Accounted, Sound;
  }

  lemma HeldBlock(c: Config, s: Sched, out: seq<WorkItem>, t: Ticket, i: nat)
    requires Steady(c, s, out) && t in s.objs && t < s.nextTicket && s.objs[t].sched.Some?
        && i < |s.objs[t].sched.value.table|
    ensures var b := s.objs[t].sched.value.table[i];
      s.blocks.Refs(b) > 0 && b !in s.blocks.pool.free && b !in s.blocks.cache.idle
  {
    hide Places, Sound, Conserved, Private, Valid;
    TableBlock(c, s, multiset{}, t, i);
    BlockLemmas.FreeOrIdle(s.blocks, s.objs[t].sched.value.table[i]);
  }

  // ---------------------------------------------------------------- single writer

  lemma {:induction false} OrderedApart(items: seq<WorkItem>, lo: nat, i: nat, j: nat)
    requires Ordered(items, lo) && i < j < |items|
    ensures items[i].context + KvCount(items[i]) <= items[j].context
    decreases |items|
  {
    if i == 0 {
      assert items[j] == items[1..][j - 1] && items[j] in items[1..];
      OrderedAbove(items[1..], items[0].context + KvCount(items[0]), items[j]);
    } else {
      OrderedApart(items[1..], items[0].context + KvCount(items[0]), i - 1, j - 1);
    }
  }

  /** Two outstanding items of one sequence write disjoint positions. */
  lemma PositionsApart(c: Config, s: Sched, out: seq<WorkItem>, i: nat, j: nat, t: Ticket)
    requires Steady(c, s, out) && i < j < |out| && out[i].seqId == out[j].seqId && HasSeq(s, t, out[i].seqId)
    ensures out[i].context + KvCount(out[i]) <= out[j].context
  {
    hide Places, Accounted, Sound, Cap, Totals, Hashed, Live, Of;
    SoundAt(c, s, out, t);
    var q := out[i].seqId;
    var a, b := out[..j], out[j..];
    assert out == a + b && a[i] == out[i] && b[0] == out[j];
    OfConcat(a, b, q);
    OfHead(b, q);
    OfContains(a, q, i);
    var ia, ib := Of(a, q), Of(b, q);
    var k :| 0 <= k < |ia| && ia[k] == out[i];
    assert (ia + ib)[k] == out[i] && (ia + ib)[|ia|] == out[j];
    OrderedApart(ia + ib, s.objs[t].sched.value.frontier, k, |ia|);
  }

  lemma OfHead(items: seq<WorkItem>, q: SeqId)
    requires items != [] && items[0].seqId == q
    ensures Of(items, q) != [] && Of(items, q)[0] == items[0]
  {
  }

  lemma {:induction false} OfContains(items: seq<WorkItem>, q: SeqId, i: nat)
    requires i < |items| && items[i].seqId == q
    ensures items[i] in Of(items, q)
  {
    if i > 0 { OfContains(items[1..], q, i - 1); }
  }

  /** The slots written by all in-flight items are pairwise distinct, and none belongs to a cached block. */
  lemma SingleWriter(c: Config, steps: seq<Step>, i: nat, j: nat, p: nat, p': nat)
    requires c.Valid() && i < |Run(c, steps).Out()| && j < |Run(c, steps).Out()| && (i != j || p != p')
    requires Writes(Run(c, steps).Out()[i], p) && Writes(Run(c, steps).Out()[j], p')
    ensures var out := Run(c, steps).Out(); Slot(c, out[i].table, p) != Slot(c, out[j].table, p')
    ensures var out := Run(c, steps).Out();
      BlockAt(c, p) < |out[i].table| && !Run(c, steps).s.blocks.Cached(out[i].table[BlockAt(c, p)])
  {
    hide Steady, Run, Slot, BlockAt, Cap;
    var y := Run(c, steps);
    RunSteady(c, steps);
    WritersApart(c, y.s, y.Out(), i, j, p, p');
  }

  lemma WritersApart(c: Config, s: Sched, out: seq<WorkItem>, i: nat, j: nat, p: nat, p': nat)
    requires Steady(c, s, out) && i < |out| && j < |out| && (i != j || p != p') && Writes(out[i], p)
        && Writes(out[j], p')
    ensures Slot(c, out[i].table, p) != Slot(c, out[j].table, p')
    ensures BlockAt(c, p) < |out[i].table| && !s.blocks.Cached(out[i].table[BlockAt(c, p)])
  {
    hide Steady, Slot, BlockAt, Cap;
    var x, x' := out[i], out[j];
    ItemOwner(c, s, out, x);
    ItemOwner(c, s, out, x');
    var t, u := s.bySeq[x.seqId], s.bySeq[x'.seqId];
    WriteExclusive(c, s, out, x, t, p);
    WriteExclusive(c, s, out, x', u, p');
    SlotPrefix(c, x.table, TableOf(s.objs, t), p);
    SlotPrefix(c, x'.table, TableOf(s.objs, u), p');
    CapMono(c, |x'.table|, |TableOf(s.objs, u)|);
    if t == u && i != j {
      if i < j { PositionsApart(c, s, out, i, j, t); } else { PositionsApart(c, s, out, j, i, t); }
    }
    NotWritten(c, s, out, x, t, u, p, p');
  }

  // ---------------------------------------------------------------- exact reservations

  /** Items that write one stretch of positions without gaps. */
  ghost predicate Consecutive(items: seq<WorkItem>, from: nat)
    decreases |items|
  {
    items != [] ==> items[0].context == from && Consecutive(items[1..], from + KvCount(items[0]))
  }

  lemma {:induction false} PrefillConsecutive(items: seq<WorkItem>, from: nat, prompt: seq<Token>, silent: bool)
    requires PrefillItems(items, from, prompt, silent)
    ensures Consecutive(items, from)
    decreases |items|
  {
    if items != [] { PrefillConsecutive(items[1..], from + |items[0].tokens|, prompt, silent); }
  }

  lemma {:induction false} DecodeConsecutive(items: seq<WorkItem>, from: nat)
    requires DecodeItems(items, from)
    ensures Consecutive(items, from)
    decreases |items|
  {
    if items != [] { DecodeConsecutive(items[1..], from + 1); }
  }

  /** The counters of a sequence are sums over its in-flight items, so the clamps never fire; while its
      request is active the items are consecutive from the executed frontier. */
  lemma ExactReservations(c: Config, steps: seq<Step>, t: Ticket)
    requires c.Valid() && t in Run(c, steps).s.objs && Run(c, steps).s.objs[t].sched.Some?
    ensures var y := Run(c, steps); var r := y.s.objs[t]; var q := r.sched.value; var items := Of(y.Out(), q.seqId);
      && q.res == Totals(items)
      && (r.status == Active ==> Consecutive(items, q.frontier))
      && (r.status == Active && items != [] && items[0].PrefillChunk? ==>
            items[0].start == q.cursor && q.cursor + |items[0].tokens| <= |r.prompt|)
  {
    hide Steady, Run;
    var y := Run(c, steps);
    RunSteady(c, steps);
    ReservedExactly(c, y.s, y.Out(), t);
  }

  lemma ReservedExactly(c: Config, s: Sched, out: seq<WorkItem>, t: Ticket)
    requires Steady(c, s, out) && t in s.objs && s.objs[t].sched.Some?
    ensures var r := s.objs[t]; var q := r.sched.value; var items := Of(out, q.seqId);
      && q.res == Totals(items)
      && (r.status == Active ==> Consecutive(items, q.frontier))
      && (r.status == Active && items != [] && items[0].PrefillChunk? ==>
            items[0].start == q.cursor && q.cursor + |items[0].tokens| <= |r.prompt|)
  {
    hide Places, Accounted, Sound, Cap, Totals, Hashed, Of, Ordered;
    SoundAt(c, s, out, t);
    var r := s.objs[t];
    var q := r.sched.value;
    var items := Of(out, q.seqId);
    if r.status == Active {
      match q.phase
      case Prefill => PrefillConsecutive(items, q.frontier, r.prompt, false);
      case ReplayPrefill => PrefillConsecutive(items, q.frontier, r.prompt, true);
      case Bootstrap =>
      case Decode => DecodeConsecutive(items, q.frontier);
    }
  }

  // ---------------------------------------------------------------- conservation

  /** The reference count of every block is its number of occurrences in block tables, plus one if a
      failed allocation lost it. */
  lemma ReferencesConserved(c: Config, steps: seq<Step>, b: BlockId)
    requires c.Valid()
    ensures var s := Run(c, steps).s;
      s.blocks.Refs(b) == Owned(s.objs, s.nextTicket, b) + if b in s.hist.leaked then 1 else 0
  {
    hide Steady, Run, Owned;
    var y := Run(c, steps);
    RunSteady(c, steps);
    SteadyConserved(c, y.s, y.Out(), b);
  }

  lemma SteadyConserved(c: Config, s: Sched, out: seq<WorkItem>, b: BlockId)
    requires Steady(c, s, out)
    ensures s.blocks.Refs(b) == Owned(s.objs, s.nextTicket, b) + if b in s.hist.leaked then 1 else 0
    ensures Valid(s.blocks) && |s.blocks.pool.refs| == c.maxBlocks
    ensures b in s.hist.leaked ==> !s.blocks.Cached(b)
  {
    hide Places, Sound, Valid, Owned;
  }

  /** The indexes of the cache agree; every block is in use, free, or idle; an idle block is cached and a
      free one is not; and the statistics count exactly the blocks with references. */
  lemma BlockPartition(c: Config, steps: seq<Step>, b: BlockId)
    requires c.Valid()
    ensures var st := Run(c, steps).s.blocks;
      && Listed(st.cache.entries, st.cache.byBlock) && Bucketed(st.cache.byHash, st.cache.byBlock)
      && (b in st.pool.free <==> b < c.maxBlocks && st.Refs(b) == 0 && !st.Cached(b))
      && (b in st.cache.idle <==> b < c.maxBlocks && st.Refs(b) == 0 && st.Cached(b))
      && BlockLemmas.ActiveBlocks(st) == |set x: BlockId | x < |st.pool.refs| && st.pool.refs[x] > 0|
  {
    hide Steady, Run, Listed, Bucketed;
    var y := Run(c, steps);
    RunSteady(c, steps);
    SteadyConserved(c, y.s, y.Out(), b);
    hide Owned;
    BlockLemmas.ActiveBlocksCount(y.s.blocks);
  }

  // ---------------------------------------------------------------- queues and bounds

  lemma SkippedIdle(c: Config, s: Sched, out: seq<WorkItem>, t: Ticket)
    requires Steady(c, s, out) && t in s.skip
    ensures t in s.objs && s.objs[t].sched.Some? && Of(out, s.objs[t].sched.value.seqId) == []
    ensures s.objs[t].sched.value.res.leases == 0
  {
    hide Accounted, Sound, Named, Totals;
    var q := s.objs[t].sched.value.seqId;
    assert HasSeq(s, t, q);
    assert q in s.bySeq ==> HasSeq(s, s.bySeq[q], q);
    assert q !in s.bySeq;
    hide Places;
    OfNone(out, q);
    ReservedExactly(c, s, out, t);
  }

  /** Every live request is in exactly one queue, once; the index by sequence holds exactly the running
      ones; waiting requests have no sequence and skipped ones nothing in flight; the limits hold. */
  lemma QueueDiscipline(c: Config, steps: seq<Step>)
    requires c.Valid()
    ensures var s := Run(c, steps).s;
      && Queued(s, {}) && Named(s) && Sequenced(s) && Distinct(s)
      && (forall t :: t in s.skip ==> t in s.objs && s.objs[t].sched.Some? && s.objs[t].sched.value.res.leases == 0)
      && |s.running| <= c.maxRunning && |s.running| + |s.skip| <= c.maxSequences
      && |Run(c, steps).Aloft()| <= c.maxConcurrent
      && (Run(c, steps).pc != Stopped && s.paused ==> s.running != [])
  {
    hide Steady, Run, Logs, InOrder, AnswersOk, Queued, Named, Sequenced, Distinct, Paced, Orderly;
    var y := Run(c, steps);
    RunSteady(c, steps);
    RunRest(c, steps);
    SteadyPlaces(c, y.s, y.Out());
    forall t | t in y.s.skip
      ensures t in y.s.objs && y.s.objs[t].sched.Some? && y.s.objs[t].sched.value.res.leases == 0
    {
      SkippedIdle(c, y.s, y.Out(), t);
    }
  }

  lemma SteadyPlaces(c: Config, s: Sched, out: seq<WorkItem>)
    requires Steady(c, s, out)
    ensures Places(s, {})
  {
    hide Places, Accounted, Sound;
  }

  /** No request ever gets more tokens than it asked for, counting those in flight, nor positions beyond
      its context length or the pool. */
  lemma WithinBounds(c: Config, steps: seq<Step>, t: Ticket)
    requires c.Valid() && t in Run(c, steps).s.objs
    ensures var r := Run(c, steps).s.objs[t];
      && (r.generated != [] ==> |r.generated| <= r.maxTokens)
      && (r.sched.Some? ==>
            var q := r.sched.value;
            && |r.generated| + q.res.gen <= r.maxTokens
            && q.frontier + q.res.kv <= r.maxContext <= Cap(c, c.maxBlocks)
            && q.frontier + q.res.kv <= Cap(c, |q.table|))
  {
    hide Steady, Run;
    var y := Run(c, steps);
    RunSteady(c, steps);
    SteadyBounds(c, y.s, y.Out(), t);
  }

  lemma SteadyBounds(c: Config, s: Sched, out: seq<WorkItem>, t: Ticket)
    requires Steady(c, s, out) && t in s.objs
    ensures var r := s.objs[t];
      && (r.generated != [] ==> |r.generated| <= r.maxTokens)
      && (r.sched.Some? ==>
            var q := r.sched.value;
            && |r.generated| + q.res.gen <= r.maxTokens
            && q.frontier + q.res.kv <= r.maxContext <= Cap(c, c.maxBlocks)
            && q.frontier + q.res.kv <= Cap(c, |q.table|))
  {
    hide Places, Accounted, Sound, Cap, Totals, Hashed, Of, Ordered, Live;
    SoundAt(c, s, out, t);
  }

  /** A decode step asks for at most one new block. */
  lemma OneBlockAtATime(c: Config, steps: seq<Step>, t: Ticket)
    requires c.Valid() && t in Run(c, steps).s.objs && Run(c, steps).s.objs[t].sched.Some?
    ensures MissingBlocks(c, Run(c, steps).s.objs[t].sched.value) <= 1
  {
    hide Steady, Run, MissingBlocks;
    var y := Run(c, steps);
    RunSteady(c, steps);
    SteadyBounds(c, y.s, y.Out(), t);
    NextBlock(c, y.s.objs[t].sched.value);
  }

  lemma NextBlock(c: Config, q: Sequence)
    requires c.Valid() && q.frontier + q.res.kv <= Cap(c, |q.table|)
    ensures MissingBlocks(c, q) <= 1
  {
    var n := q.frontier + q.res.kv + if q.phase == Bootstrap then 0 else 1;
    var k := BlocksFor(c, n);
    assert Cap(c, |q.table| + 2) == Cap(c, |q.table|) + c.blockSize + c.blockSize;
    if k > |q.table| + 1 { CapMono(c, |q.table| + 2, k); }
  }

  // ---------------------------------------------------------------- clients and the worker

  /** Every client hears at most one terminal event, and nothing after it. */
  lemma EventProtocol(c: Config, steps: seq<Step>, t: Ticket, i: nat)
    requires c.Valid() && i < |LogOf(Run(c, steps).s, t)| && Terminal(LogOf(Run(c, steps).s, t)[i])
    ensures i == |LogOf(Run(c, steps).s, t)| - 1
    ensures t in Run(c, steps).s.objs ==> !Open(Run(c, steps).s.objs[t].status)
  {
    hide Run, Limits, PauseEnds, Flying, Paced, Orderly;
    RunRest(c, steps);
    assert LogOk(Seen(Run(c, steps)), t);
  }

  /** Every batch built names a sequence at most once, fits the token budget, and every item of it has
      room for the positions it writes. */
  lemma BatchWellFormed(c: Config, steps: seq<Step>, raises: seq<Raise>)
    requires c.Valid()
    ensures var g := ScheduleStep(c, Run(c, steps).s, raises);
      && Once(g.items) && Load(g.items) <= c.tokenBudget
      && (forall x :: x in g.items ==> x.table != [] && x.context + KvCount(x) <= Cap(c, |x.table|))
  {
    hide Steady, Run, ScheduleStep, Once, Load, Cap;
    var y := Run(c, steps);
    RunSteady(c, steps);
    BatchContract(c, y.s, y.Out(), raises);
    SteadyScheduleStep(c, y.s, y.Out(), raises);
    var g := ScheduleStep(c, y.s, raises);
    forall x | x in g.items ensures x.table != [] && x.context + KvCount(x) <= Cap(c, |x.table|) {
      assert x in y.Out() + g.items;
      ItemOwner(c, g.s, y.Out() + g.items, x);
      ItemFitsAt(c, g.s, y.Out() + g.items, x, g.s.bySeq[x.seqId]);
    }
  }

  /** The worker answers a batch item by item, in order; an item that was executed consumed all its tokens and
      sampled what it was to sample. */
  lemma WorkerAnswers(c: Config, steps: seq<Step>, f: Flight, i: nat)
    requires c.Valid() && f in Run(c, steps).Aloft() && f.outcome.Some? && f.outcome.value.Done? && i < |f.items|
    ensures var results := f.outcome.value.results;
      |results| == |f.items| && results[i].index == i && results[i].seqId == f.items[i].seqId
      && results[i].prefill == f.items[i].PrefillChunk?
      && (!results[i].stale ==>
            && |results[i].sampled| == GenCount(f.items[i]) && results[i].consumed == TokenCount(f.items[i])
            && (results[i].eos ==> results[i].sampled != []))
  {
    hide Run, Tidy, Paced, Orderly, InOrder;
    RunRest(c, steps);
    assert AnswersOk(f);
  }

  /** Every answered batch has one result per item. */
  lemma AnswerCount(c: Config, steps: seq<Step>, f: Flight)
    requires c.Valid() && f in Run(c, steps).Aloft() && f.outcome.Some? && f.outcome.value.Done?
    ensures |f.outcome.value.results| == |f.items|
  {
    hide Run, Tidy, Paced, Orderly, InOrder;
    RunRest(c, steps);
    assert AnswersOk(f);
  }

  // ---------------------------------------------------------------- shutdown

  lemma {:induction false} NothingOwned(n: nat, b: BlockId)
    ensures Owned(map[], n, b) == 0
  {
    if n > 0 { NothingOwned(n - 1, b); }
  }

  /** Shutdown is acknowledged exactly once. By then no request, sequence or batch is left, and every
      block that no failed allocation lost is free or idle. */
  lemma ShutdownDrains(c: Config, steps: seq<Step>, b: BlockId)
    requires c.Valid() && b < c.maxBlocks
    ensures Run(c, steps).promises <= 1
    ensures Run(c, steps).pc == Stopped ==> Run(c, steps).promises == 1
    ensures var y := Run(c, steps);
      y.promises == 1 ==>
        && y.s.objs == map[] && y.s.registry == map[] && y.s.bySeq == map[]
        && y.s.waiting == [] && y.s.skip == [] && y.s.running == [] && y.Out() == []
        && (b !in y.s.hist.leaked ==> b in y.s.blocks.pool.free || b in y.s.blocks.cache.idle)
  {
    hide Run, Tidy, Flying, Steady;
    RunRest(c, steps);
    RunSteady(c, steps);
    var y := Run(c, steps);
    if y.promises == 1 {
      assert y.Aloft() == [];
      EmptyQueues(c, y.s, y.Out());
      SteadyConserved(c, y.s, y.Out(), b);
      NothingOwned(y.s.nextTicket, b);
      BlockPartition(c, steps, b);
    }
  }

  lemma EmptyQueues(c: Config, s: Sched, out: seq<WorkItem>)
    requires Steady(c, s, out) && s.waiting == [] && s.skip == [] && s.running == []
    ensures s.objs == map[] && s.registry == map[] && s.bySeq == map[]
  {
    hide Accounted, Sound, Distinct;
    assert forall t :: t !in s.objs;
    assert forall id :: id !in s.registry;
    assert forall q :: q !in s.bySeq;
  }
}
