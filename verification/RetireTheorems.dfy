/**
 What retirement relies on and what it publishes, for every result of every batch of every run.
 */
module RetireTheorems {
  import opened Types
  import opened Blocks
  import opened State
  import opened Scheduling
  import opened Invariant
  import opened OutLemmas
  import opened AccountLemmas
  import opened SequenceLemmas
  import opened BuildLemmas
  import opened RetireLemmas
  import opened StepLemmas
  import opened Protocol
  import opened ProtocolSteps
  import opened Engine
  import opened CalmLemmas
  import opened Marks
  import opened EngineInvariant
  import opened Faithful
  import opened PactLemmas
  import opened ExecuteLemmas
  import opened TruthLemmas
  import opened PactRetire
  import opened SystemInvariant

  // ---------------------------------------------------------------- in the middle of a batch

  /** The awaited batch has been executed. */
  predicate Arrived(y: Sys) {
    y.current.Some? && y.current.value.outcome.Some? && y.current.value.outcome.value.Done?
    && |y.current.value.outcome.value.results| == |y.current.value.items|
  }

  /** The scheduler when the first k results of the awaited batch have been retired. */
  function Midway(c: Config, y: Sys, k: nat): Sched
    requires Arrived(y) && k <= |y.current.value.items|
  {
    RetireAll(c, y.s, y.current.value.items[..k], y.current.value.outcome.value.results[..k])
  }

  lemma {:induction false} RetireAllSnoc(c: Config, s: Sched, items: seq<WorkItem>, results: seq<ItemResult>,
          x: WorkItem, result: ItemResult)
    requires |results| == |items|
    ensures RetireAll(c, s, items + [x], results + [result]) ==
        RetireWork(c, RetireAll(c, s, items, results), x, result)
    decreases |items|
  {
    hide RetireWork;
    if items == [] {
      assert items + [x] == [x] && results + [result] == [result] && [x][1..] == [] && [result][1..] == [];
    } else {
      RetireAllSnoc(c, RetireWork(c, s, items[0], results[0]), items[1..], results[1..], x, result);
      assert (items + [x])[1..] == items[1..] + [x] && (results + [result])[1..] == results[1..] + [result];
    }
  }

  ghost predicate MidwayOk(c: Config, s: Sched, w: Worker, items: seq<WorkItem>, results: seq<ItemResult>,
          rest: seq<WorkItem>, ms: seq<Mark>) {
    && Steady(c, s, items + rest) && Tidy(c, s)
    && Pact(c, s, w, ZipMarks(items, results) + ms) && AllBindable(s.hist, w, items + rest)
  }

  lemma MidwayNext(c: Config, s: Sched, w: Worker, items: seq<WorkItem>, results: seq<ItemResult>,
          rest: seq<WorkItem>, ms: seq<Mark>)
    requires |results| == |items| > 0 && ResultOk(items[0], results[0]) && MidwayOk(c, s, w, items, results, rest, ms)
    ensures MidwayOk(c, RetireWork(c, s, items[0], results[0]), w, items[1..], results[1..], rest, ms)
  {
    hide Steady, Tidy, Pact, AllBindable, RetireWork, SameShape;
    var later := ZipMarks(items[1..], results[1..]);
    assert items + rest == [items[0]] + (items[1..] + rest);
    assert ZipMarks(items, results) + ms == [Mark(items[0], VerdictOf(results[0]))] + (later + ms);
    PactRetireOne(c, s, items[0], items[1..] + rest, results[0], later + ms, w);
  }

  lemma {:induction false} BatchMidway(c: Config, s: Sched, w: Worker, items: seq<WorkItem>,
          results: seq<ItemResult>, rest: seq<WorkItem>, ms: seq<Mark>, k: nat)
    requires |results| == |items| && k <= |items| && MidwayOk(c, s, w, items, results, rest, ms)
    requires forall i | 0 <= i < |items| :: ResultOk(items[i], results[i])
    ensures MidwayOk(c, RetireAll(c, s, items[..k], results[..k]), w, items[k..], results[k..], rest, ms)
  {
    hide MidwayOk, RetireWork, ResultOk;
    if k == 0 {
      assert items[..0] == [] && results[..0] == [] && items[0..] == items && results[0..] == results;
    } else {
      BatchMidway(c, s, w, items, results, rest, ms, k - 1);
      assert items[..k] == items[..k - 1] + [items[k - 1]] && results[..k] == results[..k - 1] + [results[k - 1]];
      RetireAllSnoc(c, s, items[..k - 1], results[..k - 1], items[k - 1], results[k - 1]);
      assert items[k - 1..][1..] == items[k..] && results[k - 1..][1..] == results[k..];
      MidwayNext(c, RetireAll(c, s, items[..k - 1], results[..k - 1]), w, items[k - 1..], results[k - 1..], rest, ms);
    }
  }

  /** Every result of every batch is retired in a state that satisfies the invariants. */
  lemma RunMidway(c: Config, steps: seq<Step>, k: nat)
    requires c.Valid() && Arrived(Run(c, steps)) && k <= |Run(c, steps).current.value.items|
    ensures var y := Run(c, steps); var f := y.current.value;
      && MidwayOk(c, Midway(c, y, k), y.w, f.items[k..], f.outcome.value.results[k..], ItemsOf(y.flights),
        MarksOf(y.flights))
      && (forall i | 0 <= i < |f.items| :: ResultOk(f.items[i], f.outcome.value.results[i]))
  {
    hide Run, Steady, Tidy, Pact, AllBindable, Paced, Orderly, MarksOf, ItemsOf, InOrder, ZipMarks, ResultOk;
    RunOk(c, steps);
    var y := Run(c, steps);
    var f := y.current.value;
    assert y.Aloft() == [f] + y.flights && f in y.Aloft();
    SplitOff(f, y.flights);
    SeenNow(y);
    BatchMidway(c, y.s, y.w, f.items, f.outcome.value.results, ItemsOf(y.flights), MarksOf(y.flights), k);
  }

  lemma SeenNow(y: Sys)
    requires Paced(y) && y.current.Some?
    ensures Seen(y) == y.s
  {
  }

  lemma SplitOff(f: Flight, fs: seq<Flight>)
    requires f.outcome.Some? && f.outcome.value.Done?
    ensures ItemsOf([f] + fs) == f.items + ItemsOf(fs)
    ensures MarksOf([f] + fs) == ZipMarks(f.items, f.outcome.value.results) + MarksOf(fs)
  {
    assert ([f] + fs)[1..] == fs;
  }

  // ---------------------------------------------------------------- assertions

  /** The active request whose item is retired next. */
  ghost predicate Retiring(s: Sched, x: WorkItem, t: Ticket) {
    x.seqId in s.bySeq && t == s.bySeq[x.seqId] && Going(s, t) && s.objs[t].sched.value.seqId == x.seqId
  }

  lemma RetiringLive(c: Config, s: Sched, x: WorkItem, rest: seq<WorkItem>, t: Ticket)
    requires Steady(c, s, [x] + rest) && Retiring(s, x, t)
    ensures Live(s.objs[t], s.objs[t].sched.value, [x] + Of(rest, x.seqId))
    ensures Booked(c, s.objs[t], s.objs[t].sched.value, [x] + Of(rest, x.seqId))
    ensures Hashed(c, s.blocks.cache.byBlock, s.objs[t].sched.value) && t < s.nextTicket && c.Valid()
  {
    hide Places, Accounted, Sound, Booked, Hashed, Of, Live;
    TicketIssued(c, s, [x] + rest, t);
    ActiveSeq(c, s, [x] + rest, t);
    OfConcat([x], rest, x.seqId);
    OfSelf(x);
  }

  lemma TicketIssued(c: Config, s: Sched, out: seq<WorkItem>, t: Ticket)
    requires Steady(c, s, out) && t in s.objs
    ensures t < s.nextTicket
  {
    hide Accounted, Sound;
  }

  /** What a retired chunk of an active request must satisfy. */
  predicate ChunkAsserts(r: Request, q: Sequence, x: WorkItem, result: ItemResult)
    requires x.PrefillChunk?
  {
    && result.consumed == |x.tokens| > 0 && x.start == q.cursor && q.cursor + |x.tokens| <= |r.prompt|
    && (q.cursor + |x.tokens| < |r.prompt| ==> result.sampled == [] && !result.eos)
    && (q.cursor + |x.tokens| == |r.prompt| ==> result.sampled != [] || (q.phase == ReplayPrefill && r.generated != []))
  }

  lemma HeadAsserts(c: Config, s: Sched, x: WorkItem, rest: seq<WorkItem>, t: Ticket, result: ItemResult)
    requires Steady(c, s, [x] + rest) && Retiring(s, x, t) && ResultOk(x, result) && !result.stale
    ensures x.PrefillChunk? ==> ChunkAsserts(s.objs[t], s.objs[t].sched.value, x, result)
    ensures x.DecodeOneToken? ==> result.consumed == 1
  {
    hide Steady, Booked, Hashed;
    RetiringLive(c, s, x, rest, t);
    HeadPosition(s.objs[t], s.objs[t].sched.value, x, Of(rest, x.seqId));
    assert ([x] + Of(rest, x.seqId))[1..] == Of(rest, x.seqId);
  }

  /** The assertions on the result of every item that is retired on an active request hold; none is stale. */
  lemma RetireAsserts(c: Config, steps: seq<Step>, k: nat, t: Ticket)
    requires c.Valid() && Arrived(Run(c, steps)) && k < |Run(c, steps).current.value.items|
    requires Retiring(Midway(c, Run(c, steps), k), Run(c, steps).current.value.items[k], t)
    ensures var y := Run(c, steps); var s := Midway(c, y, k); var x := y.current.value.items[k];
      var result := y.current.value.outcome.value.results[k];
      && !result.stale && result.prefill == x.PrefillChunk?
      && (if x.PrefillChunk? then ChunkAsserts(s.objs[t], s.objs[t].sched.value, x, result) else result.consumed == 1)
  {
    hide Run, Steady, Tidy, Pact, AllBindable, Midway, ChunkAsserts, ItemsOf, MarksOf;
    MidwayHead(c, steps, k, t);
    var y := Run(c, steps);
    var f := y.current.value;
    HeadAsserts(c, Midway(c, y, k), f.items[k], f.items[k + 1..] + ItemsOf(y.flights), t, f.outcome.value.results[k]);
  }

  /** The state in which item k of the awaited batch is retired. */
  lemma MidwayHead(c: Config, steps: seq<Step>, k: nat, t: Ticket)
    requires c.Valid() && Arrived(Run(c, steps)) && k < |Run(c, steps).current.value.items|
    requires Retiring(Midway(c, Run(c, steps), k), Run(c, steps).current.value.items[k], t)
    ensures var y := Run(c, steps); var f := y.current.value; var x := f.items[k];
        var result := f.outcome.value.results[k];
      && Steady(c, Midway(c, y, k), [x] + (f.items[k + 1..] + ItemsOf(y.flights))) && ResultOk(x, result)
        && !result.stale
      && Pact(c, Midway(c, y, k), y.w,
              [Mark(x, VerdictOf(result))] + (ZipMarks(f.items[k + 1..],
                  f.outcome.value.results[k + 1..]) + MarksOf(y.flights)))
  {
    hide Run, Steady, Tidy, Pact, AllBindable, Midway, ItemsOf, MarksOf, ResultOk;
    RunMidway(c, steps, k);
    var y := Run(c, steps);
    var f := y.current.value;
    var x, result := f.items[k], f.outcome.value.results[k];
    var rest := f.items[k + 1..] + ItemsOf(y.flights);
    var ms := ZipMarks(f.items[k + 1..], f.outcome.value.results[k + 1..]) + MarksOf(y.flights);
    assert f.items[k..] + ItemsOf(y.flights) == [x] + rest;
    ZipCons(x, result, f.items[k..], f.outcome.value.results[k..]);
    assert f.items[k..][1..] == f.items[k + 1..]
        && f.outcome.value.results[k..][1..] == f.outcome.value.results[k + 1..];
    assert ZipMarks(f.items[k..], f.outcome.value.results[k..]) + MarksOf(y.flights) ==
        [Mark(x, VerdictOf(result))] + ms;
    PactStale(c, Midway(c, y, k), y.w, Mark(x, VerdictOf(result)), ms, t);
  }

  lemma PactStale(c: Config, s: Sched, w: Worker, m: Mark, ms: seq<Mark>, t: Ticket)
    requires Pact(c, s, w, [m] + ms) && Retiring(s, m.item, t)
    ensures m.verdict != Stale
  {
    hide AllBound, AllLinked, Truthful, Injective, Issued;
    StaleInactive(s, t, m, ms, w);
  }

  // ---------------------------------------------------------------- what is published

  /** Number of the first block that retiring an item publishes, and how many there are. */
  function FirstDue(c: Config, q: Sequence, x: WorkItem): nat {
    if c.blockSize == 0 then 0 else Sub(x.context, |q.pending|) / c.blockSize
  }

  function BlocksDue(c: Config, q: Sequence, x: WorkItem): nat {
    if c.blockSize == 0 then 0 else (|q.pending| + KvCount(x)) / c.blockSize
  }

  lemma DueFits(c: Config, d: nat, n: nat, size: nat, j: nat)
    requires c.blockSize > 0 && d + n <= Cap(c, size) && d / c.blockSize <= j < d / c.blockSize + n / c.blockSize
    ensures j < size && d < Cap(c, j + 1)
  {
    var i, k := d / c.blockSize, n / c.blockSize;
    BlockIndex(c, d, j + 1);
    assert Cap(c, i + k) == i * c.blockSize + k * c.blockSize;
    assert i * c.blockSize <= d && k * c.blockSize <= n;
    CapMono(c, j + 1, i + k);
    assert Cap(c, j + 1) == Cap(c, j) + c.blockSize;
    BlockIndex(c, Cap(c, j), j);
    BlockIndex(c, Cap(c, j), size);
  }

  lemma HeadDue(c: Config, s: Sched, x: WorkItem, rest: seq<WorkItem>, t: Ticket, j: nat)
    requires Steady(c, s, [x] + rest) && Retiring(s, x, t)
    requires var q := s.objs[t].sched.value; FirstDue(c, q, x) <= j < FirstDue(c, q, x) + BlocksDue(c, q, x)
    ensures var q := s.objs[t].sched.value;
      && |q.pending| <= x.context && j < |q.table| && !s.blocks.Cached(q.table[j]) && s.blocks.Refs(q.table[j]) > 0
  {
    hide Places, Accounted, Sound, Of, Totals, Live, Cap;
    RetiringLive(c, s, x, rest, t);
    var q := s.objs[t].sched.value;
    HeadPosition(s.objs[t], q, x, Of(rest, x.seqId));
    assert x in [x] + Of(rest, x.seqId);
    assert ItemFits(c, x, q);
    CapMono(c, |x.table|, |q.table|);
    DueFits(c, q.frontier - |q.pending|, |q.pending| + KvCount(x), |q.table|, j);
    TableBlock(c, s, multiset{}, t, j);
  }

  /** Every block that a result makes complete lies in the table of its request, has a reference and no cache
      entry yet, as publishing asserts; and afterwards less than a block of tokens is pending. */
  lemma PublishAsserts(c: Config, steps: seq<Step>, k: nat, t: Ticket, j: nat)
    requires c.Valid() && Arrived(Run(c, steps)) && k < |Run(c, steps).current.value.items|
    requires var s := Midway(c, Run(c, steps), k); var x := Run(c, steps).current.value.items[k];
      && Retiring(s, x, t)
      && FirstDue(c, s.objs[t].sched.value, x) <= j
      && j < FirstDue(c, s.objs[t].sched.value, x) + BlocksDue(c, s.objs[t].sched.value, x)
    ensures var s := Midway(c, Run(c, steps), k); var q := s.objs[t].sched.value;
      && |q.pending| <= Run(c, steps).current.value.items[k].context
      && j < |q.table| && !s.blocks.Cached(q.table[j]) && s.blocks.Refs(q.table[j]) > 0
    ensures var s' := Midway(c, Run(c, steps), k + 1);
      Going(s', t) && s'.objs[t].sched.Some? ==> |s'.objs[t].sched.value.pending| < c.blockSize
  {
    hide Run, Steady, Pact, Midway, ItemsOf, MarksOf, FirstDue, BlocksDue;
    MidwayHead(c, steps, k, t);
    var y := Run(c, steps);
    HeadDue(c, Midway(c, y, k), y.current.value.items[k], y.current.value.items[k + 1..] + ItemsOf(y.flights), t, j);
    PendingShort(c, steps, k + 1, t);
  }

  lemma PendingShort(c: Config, steps: seq<Step>, k: nat, t: Ticket)
    requires c.Valid() && Arrived(Run(c, steps)) && k <= |Run(c, steps).current.value.items|
    ensures var s := Midway(c, Run(c, steps), k); Going(s, t) ==> |s.objs[t].sched.value.pending| < c.blockSize
  {
    hide Run, Tidy, Pact, Midway, ItemsOf, MarksOf, ResultOk, ZipMarks, Places, Accounted, Sound, Booked, Live, Frozen;
    RunMidway(c, steps, k);
    var y := Run(c, steps);
    if Going(Midway(c, y, k), t) {
      ActiveSeq(c, Midway(c, y, k), y.current.value.items[k..] + ItemsOf(y.flights), t);
    }
  }

  /** Retiring one result more. */
  lemma MidwayStep(c: Config, y: Sys, k: nat)
    requires Arrived(y) && k < |y.current.value.items|
    ensures Midway(c, y, k + 1) == RetireWork(c, Midway(c, y, k), y.current.value.items[k],
        y.current.value.outcome.value.results[k])
  {
    hide RetireWork, RetireAll;
    var items, results := y.current.value.items, y.current.value.outcome.value.results;
    assert items[..k + 1] == items[..k] + [items[k]] && results[..k + 1] == results[..k] + [results[k]];
    RetireAllSnoc(c, y.s, items[..k], results[..k], items[k], results[k]);
  }
}
