/** The worker's batch processing: resolution, execution of what is left, and remapping of the results. */
module WorkerClass {
  import opened Types
  import opened Scheduling
  import opened Engine
  import opened BatchLemmas
  import opened Translation
  import opened Device

  /** What resolution makes of a batch: the items to execute with their original positions, and results
      for the items of barred sequences. */
  datatype Resolution = Resolution(items: seq<WorkItem>, indices: seq<nat>, stale: seq<ItemResult>)

  /** A late-bound step gets the latest token of its sequence. */
  function BindToken(c: Config, latest: map<SeqId, Token>, x: WorkItem): WorkItem {
    if x.DecodeOneToken? && x.lateBind then
      x.(inputToken := if x.seqId in latest then latest[x.seqId] else c.unseen(x.seqId), lateBind := false)
    else x
  }

  function StaleResult(x: WorkItem, index: nat): ItemResult {
    ItemResult(index, x.seqId, x.PrefillChunk?, [], 0, false, true)
  }

  function Resolved(c: Config, latest: map<SeqId, Token>, failed: set<SeqId>, items: seq<WorkItem>,
          from: nat): (r: Resolution)
    ensures |r.items| == |r.indices|
  {
    if items == [] then Resolution([], [], [])
    else
      var rest := Resolved(c, latest, failed, items[1..], from + 1);
      if items[0].seqId in failed then rest.(stale := [StaleResult(items[0], from)] + rest.stale)
      else rest.(items := [BindToken(c, latest, items[0])] + rest.items, indices := [from] + rest.indices)
  }

  function Joined(a: Resolution, b: Resolution): Resolution {
    Resolution(a.items + b.items, a.indices + b.indices, a.stale + b.stale)
  }

  /** One result per executed item, numbered from 0, as the model runner returns them. */
  function RunnerResult(x: WorkItem, index: nat, pick: Pick): ItemResult {
    var samples := GenCount(x) > 0;
    ItemResult(index, x.seqId, x.PrefillChunk?, if samples then [pick.token] else [], TokenCount(x), samples
        && pick.eos, false)
  }

  function PickAt(picks: seq<Pick>, i: nat): Pick {
    if i < |picks| then picks[i] else Pick(0, false)
  }

  function RunnerResults(items: seq<WorkItem>, indices: seq<nat>, picks: seq<Pick>, k: nat): (r: seq<ItemResult>)
    requires |items| == |indices|
    ensures |r| == |items|
  {
    if items == [] then []
    else [RunnerResult(items[0], k, PickAt(picks, indices[0]))] + RunnerResults(items[1..], indices[1..], picks, k + 1)
  }

  /** The runner's numbering replaced by positions in the batch. */
  function Remapped(results: seq<ItemResult>, indices: seq<nat>): seq<ItemResult>
    requires |results| == |indices|
  {
    if results == [] then [] else [results[0].(index := indices[0])] + Remapped(results[1..], indices[1..])
  }

  /** What one result teaches about the token to bind next. */
  function Taught(latest: map<SeqId, Token>, r: ItemResult, x: WorkItem): map<SeqId, Token> {
    if r.sampled != [] then latest[r.seqId := r.sampled[0]]
    else if x.PrefillChunk? then (if x.tokens != [] then latest[r.seqId := Last(x.tokens, 0)] else latest)
    else if x.writeKv then latest[r.seqId := x.inputToken]
    else latest
  }

  function Remember(latest: map<SeqId, Token>, results: seq<ItemResult>, items: seq<WorkItem>): map<SeqId, Token>
    requires |results| == |items|
    decreases |results|
  {
    if results == [] then latest else Remember(Taught(latest, results[0], items[0]), results[1..], items[1..])
  }

  // ---------------------------------------------------------------- one item more

  lemma ResolvedNext(c: Config, latest: map<SeqId, Token>, failed: set<SeqId>, x: WorkItem, later: seq<WorkItem>,
          from: nat)
    ensures var rest := Resolved(c, latest, failed, later, from + 1);
      Resolved(c, latest, failed, [x] + later, from) ==
        if x.seqId in failed then Resolution(rest.items, rest.indices, [StaleResult(x, from)] + rest.stale)
        else Resolution([BindToken(c, latest, x)] + rest.items, [from] + rest.indices, rest.stale)
  {
    hide BindToken, StaleResult;
    assert ([x] + later)[1..] == later;
  }

  lemma RunnerNext(x: WorkItem, later: seq<WorkItem>, i: nat, indices: seq<nat>, picks: seq<Pick>, k: nat)
    requires |later| == |indices|
    ensures RunnerResults([x] + later, [i] + indices, picks, k)
         == [RunnerResult(x, k, PickAt(picks, i))] + RunnerResults(later, indices, picks, k + 1)
  {
    hide RunnerResult, PickAt;
    assert ([x] + later)[1..] == later && ([i] + indices)[1..] == indices;
  }

  lemma RemappedNext(r: ItemResult, results: seq<ItemResult>, i: nat, indices: seq<nat>)
    requires |results| == |indices|
    ensures Remapped([r] + results, [i] + indices) == [r.(index := i)] + Remapped(results, indices)
  {
    assert ([r] + results)[1..] == results && ([i] + indices)[1..] == indices;
  }

  lemma RememberNext(latest: map<SeqId, Token>, r: ItemResult, results: seq<ItemResult>, x: WorkItem,
          items: seq<WorkItem>)
    requires |results| == |items|
    ensures Remember(latest, [r] + results, [x] + items) == Remember(Taught(latest, r, x), results, items)
  {
    hide Taught;
    assert ([r] + results)[1..] == results && ([x] + items)[1..] == items;
  }

  lemma ExecuteNext(c: Config, w: Worker, x: WorkItem, later: seq<WorkItem>, from: nat, picks: seq<Pick>)
    ensures var e := ExecuteItem(c, w, x, from, PickAt(picks, 0));
            var rest := ExecuteItems(c, e.w, later, from + 1, Later(picks));
            ExecuteItems(c, w, [x] + later, from, picks) == ExecutedAll(rest.w, [e.result] + rest.results)
  {
    hide ExecuteItem;
    assert ([x] + later)[1..] == later;
  }

  function Later(picks: seq<Pick>): seq<Pick> {
    if picks == [] then [] else picks[1..]
  }

  /** The picks of the items from some position on. */
  function PicksFrom(picks: seq<Pick>, from: nat): seq<Pick> {
    if from <= |picks| then picks[from..] else []
  }

  lemma PicksNext(picks: seq<Pick>, from: nat)
    ensures PickAt(PicksFrom(picks, from), 0) == PickAt(picks, from)
    ensures Later(PicksFrom(picks, from)) == PicksFrom(picks, from + 1)
  {
  }

  // ---------------------------------------------------------------- sorted by position

  ghost predicate InOrder(results: seq<ItemResult>) {
    forall i, j | 0 <= i < j < |results| :: results[i].index < results[j].index
  }

  ghost predicate Distinct(results: seq<ItemResult>) {
    forall i, j | 0 <= i < j < |results| :: results[i].index != results[j].index
  }

  /** Insertion of one result into an ordered list. */
  method InsertResult(sorted: seq<ItemResult>, r: ItemResult) returns (out: seq<ItemResult>)
    requires InOrder(sorted) && forall i | 0 <= i < |sorted| :: sorted[i].index != r.index
    ensures InOrder(out) && |out| == |sorted| + 1
    ensures forall x :: x in out <==> x in sorted || x == r
  {
    var k := |sorted|;
    while k > 0 && sorted[k - 1].index > r.index
      invariant 0 <= k <= |sorted| && forall i | k <= i < |sorted| :: sorted[i].index > r.index
    {
      k := k - 1;
    }
    out := sorted[..k] + [r] + sorted[k..];
    Inserted(sorted, k, r);
  }

  lemma Inserted(sorted: seq<ItemResult>, k: nat, r: ItemResult)
    requires InOrder(sorted) && k <= |sorted| && (k > 0 ==> sorted[k - 1].index < r.index)
    requires forall i | k <= i < |sorted| :: sorted[i].index > r.index
    ensures InOrder(sorted[..k] + [r] + sorted[k..])
    ensures forall x :: x in sorted[..k] + [r] + sorted[k..] <==> x in sorted || x == r
  {
    var out := sorted[..k] + [r] + sorted[k..];
    forall i, j | 0 <= i < j < |out| ensures out[i].index < out[j].index {
      assert i < k ==> out[i] == sorted[i] && sorted[i].index < r.index;
      assert i > k ==> out[i] == sorted[i - 1];
      assert j < k ==> out[j] == sorted[j];
      assert j > k ==> out[j] == sorted[j - 1];
    }
    forall x ensures x in out <==> x in sorted || x == r {
      assert sorted == sorted[..k] + sorted[k..];
      assert x in out <==> x in sorted[..k] || x == r || x in sorted[k..];
    }
  }

  /** The final sort of the results by position. */
  method SortResults(results: seq<ItemResult>) returns (out: seq<ItemResult>)
    requires Distinct(results)
    ensures InOrder(out) && |out| == |results|
    ensures forall x :: x in out <==> x in results
  {
    out := [];
    var i := 0;
    while i < |results|
      invariant 0 <= i == |out| <= |results| && InOrder(out)
      invariant forall x :: x in out <==> x in results[..i]
    {
      forall k | 0 <= k < |out| ensures out[k].index != results[i].index {
        assert out[k] in results[..i];
      }
      assert results[..i + 1] == results[..i] + [results[i]];
      out := InsertResult(out, results[i]);
      i := i + 1;
    }
    assert results[..i] == results;
  }

  lemma {:induction false} Climbs(out: seq<ItemResult>, i: nat)
    requires InOrder(out) && i < |out|
    ensures out[i].index >= i
    decreases i
  {
    if i > 0 { Climbs(out, i - 1); }
  }

  lemma {:induction false} Stays(out: seq<ItemResult>, n: nat, i: nat)
    requires InOrder(out) && i < |out| <= n && forall k | 0 <= k < |out| :: out[k].index < n
    ensures out[i].index + (|out| - i) <= n
    decreases |out| - i
  {
    if i + 1 < |out| { Stays(out, n, i + 1); }
  }

  /** Results in order, one for every position, are determined by what stands at each position. */
  lemma OrderUnique(out: seq<ItemResult>, goal: seq<ItemResult>)
    requires InOrder(out) && |out| == |goal|
    requires forall k | 0 <= k < |out| :: out[k].index < |goal| && out[k] == goal[out[k].index]
    ensures out == goal
  {
    forall i | 0 <= i < |out| ensures out[i] == goal[i] {
      Climbs(out, i);
      Stays(out, |goal|, i);
    }
  }

  // ---------------------------------------------------------------- agreement with item-by-item execution

  /** Some of the results of a batch, in order: those of skipped items or those of executed ones. */
  ghost predicate Part(results: seq<ItemResult>, goal: seq<ItemResult>, from: nat, stale: bool) {
    && InOrder(results)
    && forall k | 0 <= k < |results| ::
         from <= results[k].index < from + |goal| && results[k] == goal[results[k].index - from]
             && results[k].stale == stale
  }

  lemma PartNext(r: ItemResult, results: seq<ItemResult>, goal: seq<ItemResult>, from: nat, stale: bool)
    requires Part(results, goal, from + 1, stale) && r.index == from
    ensures Part(results, [r] + goal, from, stale)
    ensures r.stale == stale ==> Part([r] + results, [r] + goal, from, stale)
  {
    var all := [r] + results;
    var goal' := [r] + goal;
    forall k | 0 <= k < |results|
      ensures from < results[k].index < from + |goal'| && results[k] == goal'[results[k].index - from]
          && results[k].stale == stale
    {
    }
    assert r.stale == stale ==>
        forall k | 0 <= k < |all| :: all[k] == goal'[all[k].index - from] && all[k].stale == stale;
  }

  /** Results of the executed items and the skipped ones together are those of executing item by item. */
  lemma {:induction false} SameResults(c: Config, w: Worker, latest: map<SeqId, Token>, items: seq<WorkItem>,
          from: nat, picks: seq<Pick>, k: nat)
    ensures var r := Resolved(c, latest, w.failed, items, from);
            var done := Remapped(RunnerResults(r.items, r.indices, picks, k), r.indices);
            var goal := ExecuteItems(c, w, items, from, PicksFrom(picks, from)).results;
      && |done| + |r.stale| == |items|
      && Part(done, goal, from, false) && Part(r.stale, goal, from, true)
    decreases |items|
  {
    hide WriteTokens, Part, Resolved, RunnerResults, Remapped, ExecuteItems, ExecuteItem, BindToken, RunnerResult,
        StaleResult, PickAt, PicksFrom, Later;
    if items == [] {
      NothingToDo(c, w, latest, from, picks, k);
    } else {
      var x, later := items[0], items[1..];
      assert items == [x] + later;
      var pick := PickAt(picks, from);
      var e := ExecuteItem(c, w, x, from, pick);
      ItemResults(c, w, latest, x, from, pick, k);
      PicksNext(picks, from);
      ExecuteNext(c, w, x, later, from, PicksFrom(picks, from));
      ResolvedNext(c, latest, w.failed, x, later, from);
      var rest := Resolved(c, latest, w.failed, later, from + 1);
      var goal := ExecuteItems(c, e.w, later, from + 1, PicksFrom(picks, from + 1)).results;
      var k' := if x.seqId in w.failed then k else k + 1;
      SameResults(c, e.w, latest, later, from + 1, picks, k');
      var raw := RunnerResults(rest.items, rest.indices, picks, k');
      var done := Remapped(raw, rest.indices);
      PartNext(e.result, done, goal, from, false);
      PartNext(e.result, rest.stale, goal, from, true);
      RunnerNext(BindToken(c, latest, x), rest.items, from, rest.indices, picks, k);
      RemappedNext(RunnerResult(BindToken(c, latest, x), k, pick), raw, from, rest.indices);
    }
  }

  lemma NothingToDo(c: Config, w: Worker, latest: map<SeqId, Token>, from: nat, picks: seq<Pick>, k: nat)
    ensures var r := Resolved(c, latest, w.failed, [], from);
            var done := Remapped(RunnerResults(r.items, r.indices, picks, k), r.indices);
            var goal := ExecuteItems(c, w, [], from, PicksFrom(picks, from));
      && done == [] && r.items == [] && r.stale == [] && goal == ExecutedAll(w, [])
      && Part(done, goal.results, from, false) && Part(r.stale, goal.results, from, true)
  {
  }

  lemma ItemResults(c: Config, w: Worker, latest: map<SeqId, Token>, x: WorkItem, from: nat, pick: Pick, k: nat)
    ensures var e := ExecuteItem(c, w, x, from, pick);
      && e.w.failed == w.failed && e.result.index == from && (e.result.stale <==> x.seqId in w.failed)
      && (x.seqId in w.failed ==> e.result == StaleResult(x, from) && e.w.latest == w.latest)
      && (x.seqId !in w.failed ==> e.result == RunnerResult(BindToken(c, latest, x), k, pick).(index := from))
  {
    hide WriteTokens;
  }

  /** Item by item, the tokens remembered are the same. */
  lemma {:induction false} SameLatest(c: Config, w: Worker, base: map<SeqId, Token>, items: seq<WorkItem>, from: nat,
          picks: seq<Pick>, k: nat)
    ensures var r := Resolved(c, base, w.failed, items, from);
      Remember(w.latest, RunnerResults(r.items, r.indices, picks, k), r.items)
        == ExecuteItems(c, w, items, from, PicksFrom(picks, from)).w.latest
    decreases |items|
  {
    hide WriteTokens, Resolved, RunnerResults, Remember, ExecuteItems, ExecuteItem, BindToken, RunnerResult,
        StaleResult, PickAt, PicksFrom, Later, Taught;
    if items == [] {
      NothingToDo(c, w, base, from, picks, k);
      NothingLearnt(w, picks, k);
    } else {
      var x, later := items[0], items[1..];
      assert items == [x] + later;
      var pick := PickAt(picks, from);
      var e := ExecuteItem(c, w, x, from, pick);
      var y := BindToken(c, base, x);
      ItemResults(c, w, base, x, from, pick, k);
      ItemTaught(c, w, base, x, from, pick, k);
      PicksNext(picks, from);
      ExecuteNext(c, w, x, later, from, PicksFrom(picks, from));
      ResolvedNext(c, base, w.failed, x, later, from);
      var rest := Resolved(c, base, w.failed, later, from + 1);
      var k' := if x.seqId in w.failed then k else k + 1;
      SameLatest(c, e.w, base, later, from + 1, picks, k');
      RunnerNext(y, rest.items, from, rest.indices, picks, k);
      RememberNext(w.latest, RunnerResult(y, k, pick), RunnerResults(rest.items, rest.indices, picks, k'), y,
          rest.items);
    }
  }

  lemma NothingLearnt(w: Worker, picks: seq<Pick>, k: nat)
    ensures Remember(w.latest, RunnerResults([], [], picks, k), []) == w.latest
  {
  }

  lemma ItemTaught(c: Config, w: Worker, base: map<SeqId, Token>, x: WorkItem, from: nat, pick: Pick, k: nat)
    ensures var y := BindToken(c, base, x);
      x.seqId !in w.failed ==>
          ExecuteItem(c, w, x, from, pick).w.latest ==
          Taught(w.latest, RunnerResult(y, k, pick), y)
  {
    hide WriteTokens;
  }

  lemma FirstOf(items: seq<WorkItem>, i: nat)
    requires 0 < i <= |items|
    ensures items[..i] == [items[0]] + items[1..][..i - 1]
  {
  }

  /** In a batch that names every sequence once, binding all tokens beforehand is binding them one by one. */
  lemma {:induction false} SameBinding(c: Config, w: Worker, base: map<SeqId, Token>, items: seq<WorkItem>,
          from: nat, picks: seq<Pick>, i: nat)
    requires Once(items) && i < |items|
    requires forall k | 0 <= k < |items| :: SameFor(w.latest, base, items[k].seqId)
    ensures Fed(c, ExecuteItems(c, w, items[..i], from, picks).w, items[i]) == Inputs(BindToken(c, base, items[i]))
    decreases |items|
  {
    hide ExecuteItem;
    if i == 0 {
      assert items[..0] == [];
    } else {
      var x, later := items[0], items[1..];
      var e := ExecuteItem(c, w, x, from, PickAt(picks, 0));
      OtherLatest(c, w, x, from, PickAt(picks, 0));
      LaterOnce(items, e.w.latest, w.latest, base);
      SameBinding(c, e.w, base, later, from + 1, Later(picks), i - 1);
      FirstOf(items, i);
      ExecuteNext(c, w, x, later[..i - 1], from, picks);
    }
  }

  ghost predicate SameFor(a: map<SeqId, Token>, b: map<SeqId, Token>, q: SeqId) {
    (q in a <==> q in b) && (q in a ==> a[q] == b[q])
  }

  /** In such a batch, the rows of the bound items write what executing item by item writes. */
  lemma {:induction false} SameMemory(c: Config, w: Worker, base: map<SeqId, Token>, items: seq<WorkItem>, from: nat,
          picks: seq<Pick>)
    requires Once(items) && forall k | 0 <= k < |items| :: SameFor(w.latest, base, items[k].seqId)
    ensures ItemsWritten(c, w.mem, Resolved(c, base, w.failed, items, from).items) ==
        ExecuteItems(c, w, items, from, picks).w.mem
    decreases |items|
  {
    hide ItemsWritten, Resolved, ExecuteItems, ExecuteItem, BindToken, StaleResult, RowsWritten, RowsOf;
    if items == [] {
      NothingWritten(c, w, base, from, picks);
    } else {
      var x, later := items[0], items[1..];
      assert items == [x] + later;
      var pick := PickAt(picks, 0);
      var e := ExecuteItem(c, w, x, from, pick);
      OtherLatest(c, w, x, from, pick);
      LaterOnce(items, e.w.latest, w.latest, base);
      assert SameFor(w.latest, base, items[0].seqId);
      ItemMemory(c, w, base, x, from, pick);
      ExecuteNext(c, w, x, later, from, picks);
      ResolvedNext(c, base, w.failed, x, later, from);
      SameMemory(c, e.w, base, later, from + 1, Later(picks));
      WrittenNext(c, w.mem, BindToken(c, base, x), Resolved(c, base, w.failed, later, from + 1).items);
    }
  }

  lemma LaterOnce(items: seq<WorkItem>, latest': map<SeqId, Token>, latest: map<SeqId, Token>, base: map<SeqId, Token>)
    requires items != [] && Once(items) && forall k | 0 <= k < |items| :: SameFor(latest, base, items[k].seqId)
    requires forall q :: q != items[0].seqId ==> SameFor(latest', latest, q)
    ensures Once(items[1..]) && forall k | 0 <= k < |items[1..]| :: SameFor(latest', base, items[1..][k].seqId)
  {
    var later := items[1..];
    forall k | 0 <= k < |later| ensures SameFor(latest', base, later[k].seqId) {
      assert later[k] == items[k + 1] && items[0].seqId != items[k + 1].seqId;
      assert SameFor(latest, base, items[k + 1].seqId) && SameFor(latest', latest, items[k + 1].seqId);
    }
    forall a, b | 0 <= a < b < |later| ensures later[a].seqId != later[b].seqId {
      assert items[a + 1].seqId != items[b + 1].seqId;
    }
  }

  lemma WrittenNext(c: Config, mem: map<nat, Kv>, x: WorkItem, items: seq<WorkItem>)
    ensures ItemsWritten(c, mem, [x] + items) == ItemsWritten(c, RowsWritten(c, mem, x.table, RowsOf(c, x)), items)
  {
    assert ([x] + items)[1..] == items;
  }

  lemma NothingWritten(c: Config, w: Worker, base: map<SeqId, Token>, from: nat, picks: seq<Pick>)
    ensures ItemsWritten(c, w.mem, Resolved(c, base, w.failed, [], from).items) == w.mem ==
        ExecuteItems(c, w, [], from, picks).w.mem
  {
  }

  lemma ItemMemory(c: Config, w: Worker, base: map<SeqId, Token>, x: WorkItem, from: nat, pick: Pick)
    requires SameFor(w.latest, base, x.seqId)
    ensures var e := ExecuteItem(c, w, x, from, pick); var y := BindToken(c, base, x);
      && e.w.failed == w.failed
      && e.w.mem == if x.seqId in w.failed then w.mem else RowsWritten(c, w.mem, y.table, RowsOf(c, y))
  {
    hide WriteTokens, RowsWritten, RowsOf;
    ItemWritten(c, w.mem, BindToken(c, base, x));
  }

  lemma OtherLatest(c: Config, w: Worker, x: WorkItem, index: nat, pick: Pick)
    ensures forall q :: q != x.seqId ==> SameFor(ExecuteItem(c, w, x, index, pick).w.latest, w.latest, q)
  {
    hide WriteTokens;
  }

  /** Results that came from the batch have distinct positions. */
  lemma PartsDistinct(done: seq<ItemResult>, stale: seq<ItemResult>, goal: seq<ItemResult>)
    requires Part(done, goal, 0, false) && Part(stale, goal, 0, true)
    ensures Distinct(done + stale)
    ensures forall x :: x in done + stale ==> x.index < |goal| && x == goal[x.index]
  {
    var all := done + stale;
    forall i, j | 0 <= i < j < |all| ensures all[i].index != all[j].index {
      if i < |done| <= j {
        assert all[i] == done[i] && all[j] == stale[j - |done|];
      } else if j < |done| {
        assert all[i] == done[i] && all[j] == done[j];
      } else {
        assert all[i] == stale[i - |done|] && all[j] == stale[j - |done|];
      }
    }
  }

  // ---------------------------------------------------------------- the worker object

  class BatchWorker {
    const c: Config
    var latest: map<SeqId, Token>
    var failed: set<SeqId>
    var mem: map<nat, Kv>
    var halted: bool
    ghost var made: map<SeqId, seq<Token>>
    ghost var fed: map<SeqId, seq<Token>>

    ghost function View(): Worker
      reads this
    {
      Worker(latest, failed, mem, halted, made, fed)
    }

    constructor (c: Config)
      ensures this.c == c && View() == Worker(map[], {}, map[], false, map[], map[])
    {
      this.c := c;
      latest, failed, mem, halted := map[], {}, map[], false;
      made, fed := map[], map[];
    }

    /** Splits a batch into the items to execute, with their late tokens bound, and answers for the rest. */
    method ResolveBatch(items: seq<WorkItem>) returns (r: Resolution)
      ensures r == Resolved(c, latest, failed, items, 0)
    {
      hide BindToken, StaleResult;
      r := Resolution([], [], []);
      var i := 0;
      assert items[0..] == items;
      while i < |items|
        invariant 0 <= i <= |items|
        invariant Joined(r, Resolved(c, latest, failed, items[i..], i)) == Resolved(c, latest, failed, items, 0)
      {
        var x := items[i];
        assert items[i..] == [x] + items[i + 1..];
        ResolvedNext(c, latest, failed, x, items[i + 1..], i);
        if x.seqId in failed {
          r := Resolution(r.items, r.indices, r.stale + [StaleResult(x, i)]);
        } else {
          r := Resolution(r.items + [BindToken(c, latest, x)], r.indices + [i], r.stale);
        }
        i := i + 1;
      }
    }

    /** Remembers the tokens to bind next. */
    method Learn(results: seq<ItemResult>, items: seq<WorkItem>)
      requires |results| == |items|
      modifies this`latest
      ensures latest == Remember(old(latest), results, items)
    {
      hide Taught;
      var i := 0;
      assert results[0..] == results && items[0..] == items;
      while i < |results|
        invariant 0 <= i <= |results|
        invariant Remember(latest, results[i..], items[i..]) == Remember(old(latest), results, items)
      {
        assert results[i..] == [results[i]] + results[i + 1..] && items[i..] == [items[i]] + items[i + 1..];
        RememberNext(latest, results[i], results[i + 1..], items[i], items[i + 1..]);
        latest := Taught(latest, results[i], items[i]);
        i := i + 1;
      }
    }

    /** Numbers the runner's results by position in the batch. */
    method Remap(results: seq<ItemResult>, indices: seq<nat>) returns (out: seq<ItemResult>)
      requires |results| == |indices|
      ensures out == Remapped(results, indices)
    {
      out := [];
      var i := 0;
      assert results[0..] == results && indices[0..] == indices;
      while i < |results|
        invariant 0 <= i <= |results|
        invariant out + Remapped(results[i..], indices[i..]) == Remapped(results, indices)
      {
        assert results[i..] == [results[i]] + results[i + 1..] && indices[i..] == [indices[i]] + indices[i + 1..];
        RemappedNext(results[i], results[i + 1..], indices[i], indices[i + 1..]);
        out := out + [results[i].(index := indices[i])];
        i := i + 1;
      }
    }

    /** One result per item of a physical batch, from what the host kept of it. */
    method MakeResults(p: PhysicalBatch, indices: seq<nat>, picks: seq<Pick>, ghost items: seq<WorkItem>)
      returns (results: seq<ItemResult>)
      requires |p.meta| == |items| == |indices| && forall i | 0 <= i < |items| :: p.meta[i] == MetaOf(items[i])
      ensures results == RunnerResults(items, indices, picks, 0)
    {
      hide PickAt;
      results := [];
      var i := 0;
      assert items[0..] == items && indices[0..] == indices;
      while i < |p.meta|
        invariant 0 <= i <= |p.meta|
        invariant results + RunnerResults(items[i..], indices[i..], picks, i) == RunnerResults(items, indices, picks, 0)
      {
        assert items[i..] == [items[i]] + items[i + 1..] && indices[i..] == [indices[i]] + indices[i + 1..];
        RunnerNext(items[i], items[i + 1..], indices[i], indices[i + 1..], picks, i);
        var m, pick := p.meta[i], PickAt(picks, indices[i]);
        results := results + [ItemResult(i, m.seqId, m.prefill, if m.sampled then [pick.token]
            else [], m.tokens, m.sampled && pick.eos, false)];
        i := i + 1;
      }
    }

    /** Runs the items left to execute on the device. */
    method RunResolved(r: Resolution, picks: seq<Pick>, active: map<SeqId, nat>) returns (raw: seq<ItemResult>)
      requires c.blockSize > 0 && r.items != [] && |r.indices| == |r.items|
      requires forall i | 0 <= i < |r.items| :: Translatable(c, r.items[i])
      modifies this`mem
      ensures raw == RunnerResults(r.items, r.indices, picks, 0) && mem == ItemsWritten(c, old(mem), r.items)
    {
      hide Translatable, Describes, ItemsWritten, RunnerResults;
      var p := Translate(c, r.items, active);
      BatchSize(c, p, r.items, active);
      mem := Launch(c, p, mem, r.items, active);
      raw := MakeResults(p, r.indices, picks, r.items);
    }

    /** A batch the model executes: the state and the results of executing item by item. */
    method ExecuteBatch(items: seq<WorkItem>, r: Resolution, picks: seq<Pick>, active: map<SeqId, nat>)
      returns (results: seq<ItemResult>)
      requires r == Resolved(c, latest, failed, items, 0) && r.items != [] && c.blockSize > 0 && Once(items)
      requires forall i | 0 <= i < |r.items| :: Translatable(c, r.items[i])
      modifies this
      ensures ExecutedAll(View(), results) == ExecuteItems(c, old(View()), items, 0, picks)
    {
      hide ExecuteItems, Resolved, Remember, Remapped, RunnerResults, InOrder, Distinct, Part, Translatable,
          ItemsWritten, Once;
      ghost var w := View();
      ghost var goal := ExecuteItems(c, w, items, 0, picks);
      assert PicksFrom(picks, 0) == picks;
      SameLatest(c, w, latest, items, 0, picks, 0);
      SameResults(c, w, latest, items, 0, picks, 0);
      SameMemory(c, w, latest, items, 0, picks);
      ExecuteFrame(c, w, items, 0, picks);
      var raw := RunResolved(r, picks, active);
      Learn(raw, r.items);
      made, fed := goal.w.made, goal.w.fed;
      var mapped := Remap(raw, r.indices);
      PartsDistinct(mapped, r.stale, goal.results);
      results := SortResults(mapped + r.stale);
      OrderUnique(results, goal.results);
    }

    /** process_command: a stopped worker refuses; a batch of barred sequences only is answered at once; a
        failure bars the sequences of the items left to execute. */
    method Process(items: seq<WorkItem>, picks: seq<Pick>, broken: bool, code: ErrorCode, junk: map<nat, Kv>,
            active: map<SeqId, nat>)
      returns (o: Outcome)
      requires c.blockSize > 0 && Once(items) && forall x :: x in items ==> Translatable(c, BindToken(c, latest, x))
      modifies this
      ensures Fate(c, old(View()), Flight(items, None), picks, broken, code, junk) == (View(), Flight(items, Some(o)))
    {
      hide ExecuteItems, Resolved, Translatable, Barred, Smudge, BindToken, Once;
      if halted { return Broken(ServerShuttingDown); }
      var r := ResolveBatch(items);
      ResolvedBarred(c, latest, View(), items, 0);
      ResolvedBound(c, latest, failed, items, 0);
      BarredNone(r.items);
      if r.items == [] {
        AllStale(c, View(), latest, items, 0, picks);
        return Done(r.stale);
      }
      if broken {
        assert r.items[0].seqId in Names(r.items);
        mem := Smudge(mem, Dirty(c, Worker(latest, failed, mem, halted, map[], map[]), items), junk);
        FailSequences(items, old(View()));
        return Broken(code);
      }
      forall i | 0 <= i < |r.items| ensures Translatable(c, r.items[i]) {
        assert r.items[i] in r.items;
        var x :| x in items && r.items[i] == BindToken(c, latest, x);
      }
      var results := ExecuteBatch(items, r, picks, active);
      o := Done(results);
    }

    method Halt()
      modifies this`halted
      ensures View() == old(View()).(halted := true)
    {
      halted := true;
    }

    /** A batch that fails: the sequences of the items left to execute are barred. */
    method FailSequences(items: seq<WorkItem>, ghost w: Worker)
      requires w.failed == failed
      modifies this`failed
      ensures failed == old(failed) + Barred(w, items)
    {
      hide Resolved, Barred;
      var r := ResolveBatch(items);
      ghost var base := latest;
      var i := 0;
      assert r.items[0..] == r.items;
      while i < |r.items|
        invariant 0 <= i <= |r.items| && latest == base
        invariant failed + Names(r.items[i..]) == old(failed) + Names(r.items)
      {
        assert r.items[i..] == [r.items[i]] + r.items[i + 1..];
        NamesNext(r.items[i], r.items[i + 1..]);
        failed := failed + {r.items[i].seqId};
        i := i + 1;
      }
      ResolvedBarred(c, base, w, items, 0);
      assert r.items[i..] == [];
    }
  }

  lemma BarredNone(items: seq<WorkItem>)
    ensures items == [] ==> Names(items) == {}
  {
  }

  /** Nothing is left to execute: every item is answered as stale, and nothing changes. */
  lemma {:induction false} AllStale(c: Config, w: Worker, latest: map<SeqId, Token>, items: seq<WorkItem>, from: nat,
          picks: seq<Pick>)
    requires Resolved(c, latest, w.failed, items, from).items == []
    ensures ExecuteItems(c, w, items, from, picks) == ExecutedAll(w, Resolved(c, latest, w.failed, items, from).stale)
    decreases |items|
  {
    hide Resolved, ExecuteItems, ExecuteItem, StaleResult, BindToken;
    if items == [] {
      NothingToDo(c, w, latest, from, [], 0);
      NothingExecuted(c, w, from, picks);
    } else {
      var x, later := items[0], items[1..];
      assert items == [x] + later;
      ResolvedNext(c, latest, w.failed, x, later, from);
      ExecuteNext(c, w, x, later, from, picks);
      StaleOnly(c, w, x, from, PickAt(picks, 0));
      AllStale(c, w, latest, later, from + 1, Later(picks));
    }
  }

  lemma NothingExecuted(c: Config, w: Worker, from: nat, picks: seq<Pick>)
    ensures ExecuteItems(c, w, [], from, picks) == ExecutedAll(w, [])
  {
  }

  lemma StaleOnly(c: Config, w: Worker, x: WorkItem, from: nat, pick: Pick)
    ensures x.seqId in w.failed ==> ExecuteItem(c, w, x, from, pick) == Executed(w, StaleResult(x, from))
  {
    hide WriteTokens;
  }

  lemma {:induction false} ResolvedBound(c: Config, latest: map<SeqId, Token>, failed: set<SeqId>,
          items: seq<WorkItem>, from: nat)
    ensures forall y :: y in Resolved(c, latest, failed, items, from).items ==>
        exists x :: x in items && y == BindToken(c, latest, x)
    decreases |items|
  {
    hide BindToken, StaleResult;
    if items != [] {
      ResolvedBound(c, latest, failed, items[1..], from + 1);
      assert items[0] in items;
    }
  }

  lemma {:induction false} ExecuteFrame(c: Config, w: Worker, items: seq<WorkItem>, from: nat, picks: seq<Pick>)
    ensures var w' := ExecuteItems(c, w, items, from, picks).w; w'.failed == w.failed && w'.halted == w.halted
    decreases |items|
  {
    hide WriteTokens;
    if items != [] {
      ExecuteFrame(c, ExecuteItem(c, w, items[0], from, PickAt(picks, 0)).w, items[1..], from + 1, Later(picks));
    }
  }

  function Names(items: seq<WorkItem>): set<SeqId> {
    set x | x in items :: x.seqId
  }

  lemma NamesNext(x: WorkItem, items: seq<WorkItem>)
    ensures Names([x] + items) == {x.seqId} + Names(items)
  {
    var all := [x] + items;
    assert all[0] == x && forall i | 0 <= i < |items| :: all[i + 1] == items[i];
    forall q | q in Names(items) ensures q in Names(all) {
      var y :| y in items && y.seqId == q;
      assert y in all;
    }
    assert x in all;
  }

  lemma BarredNext(w: Worker, x: WorkItem, items: seq<WorkItem>)
    ensures Barred(w, [x] + items) == (if x.seqId in w.failed then {} else {x.seqId}) + Barred(w, items)
  {
    var all := [x] + items;
    assert all[0] == x && forall i | 0 <= i < |items| :: all[i + 1] == items[i];
    forall q | q in Barred(w, items) ensures q in Barred(w, all) {
      var y :| y in items && y.seqId !in w.failed && y.seqId == q;
      assert y in all;
    }
    assert x in all;
  }

  /** The items left to execute are those of the sequences not barred. */
  lemma {:induction false} ResolvedBarred(c: Config, latest: map<SeqId, Token>, w: Worker, items: seq<WorkItem>,
          from: nat)
    ensures Names(Resolved(c, latest, w.failed, items, from).items) == Barred(w, items)
    decreases |items|
  {
    hide Resolved, StaleResult, Names, Barred;
    if items == [] {
      NoneLeft(c, latest, w, from);
    } else {
      var x, later := items[0], items[1..];
      assert items == [x] + later;
      ResolvedNext(c, latest, w.failed, x, later, from);
      ResolvedBarred(c, latest, w, later, from + 1);
      BarredNext(w, x, later);
      NamesNext(BindToken(c, latest, x), Resolved(c, latest, w.failed, later, from + 1).items);
    }
  }

  lemma NoneLeft(c: Config, latest: map<SeqId, Token>, w: Worker, from: nat)
    ensures Names(Resolved(c, latest, w.failed, [], from).items) == {} == Barred(w, [])
  {
  }
}
