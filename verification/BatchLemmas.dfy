/** A batch names every sequence at most once and stays within the token budget. */
module BatchLemmas {
  import opened Types
  import opened Seqs
  import Blocks
  import Hashing
  import opened State
  import opened Scheduling
  import opened Invariant
  import opened PlaceLemmas
  import opened CoreLemmas
  import opened BuildLemmas
  import opened AdmitLemmas
  import opened StepLemmas

  /** Tokens a batch feeds to the model. */
  function Load(items: seq<WorkItem>): nat {
    if items == [] then 0 else Load(items[..|items| - 1]) + TokenCount(items[|items| - 1])
  }

  ghost predicate Once(items: seq<WorkItem>) {
    forall i, j | 0 <= i < j < |items| :: items[i].seqId != items[j].seqId
  }

  ghost predicate BatchOk(g: Stage, total: nat) {
    Once(g.items) && Load(g.items) + g.budget == total
  }

  /** At most one more item, of a sequence the batch cannot name yet. */
  ghost predicate Grew(g: Stage, g': Stage) {
    exists q: SeqId :: OneMore(g, g', q) && forall x :: x in g.items ==> x.seqId != q
  }

  lemma BatchGrows(g: Stage, g': Stage, total: nat)
    requires BatchOk(g, total) && Grew(g, g')
    ensures BatchOk(g', total)
  {
    if g'.items != g.items {
      var n := |g.items|;
      assert g'.items[..n] == g.items;
      assert forall i | 0 <= i < n :: g'.items[i] == g.items[i];
      assert forall i | 0 <= i < n :: g'.items[i] in g.items;
    }
  }

  lemma SameBatch(g: Stage, g': Stage)
    requires g'.items == g.items && g'.budget == g.budget
    ensures Grew(g, g')
  {
    var q: SeqId := Above(g.items);
    assert OneMore(g, g', q);
  }

  /** A sequence id the items do not use. */
  function Above(items: seq<WorkItem>): (q: SeqId)
    ensures forall x :: x in items ==> x.seqId < q
  {
    if items == [] then 0
    else
      var q := Above(items[1..]);
      if items[0].seqId < q then q else items[0].seqId + 1
  }

  lemma NewSequence(g: Stage, g': Stage, q: SeqId)
    requires OneMore(g, g', q) && forall x :: x in g.items ==> x.seqId != q
    ensures Grew(g, g')
  {
  }

  lemma ItemsIndexed(c: Config, s: Sched, base: seq<WorkItem>, items: seq<WorkItem>)
    requires Steady(c, s, base + items)
    ensures forall x :: x in items ==> x.seqId in s.bySeq
    ensures forall q :: q in s.bySeq ==> q < s.nextSeq
  {
    hide Queued, Named, Accounted, Sound;
    forall x | x in items ensures x.seqId in s.bySeq {
      assert x in base + items;
    }
    forall q | q in s.bySeq ensures q < s.nextSeq {
      assert HasSeq(s, s.bySeq[q], q);
    }
  }

  /** The running requests in ts have nothing in the batch yet. */
  ghost predicate Unserved(s: Sched, items: seq<WorkItem>, ts: seq<Ticket>) {
    forall x :: x in items ==> x.seqId in s.bySeq && s.bySeq[x.seqId] !in ts
  }

  lemma {:induction false} BatchBuildAll(c: Config, g: Stage, base: seq<WorkItem>, ts: seq<Ticket>, total: nat)
    requires Steady(c, g.s, base + g.items) && NoDup(ts) && (forall t :: t in ts ==> t in g.s.running)
    requires BatchOk(g, total) && Unserved(g.s, g.items, ts)
    ensures BatchOk(BuildAll(c, g, ts), total)
    decreases |ts|
  {
    hide Core, BuildWork, BatchOk, NoDup;
    if ts != [] && g.budget != 0 {
      var t := ts[0];
      var g' := BuildWork(c, g, t);
      CoreBuildWork(c, g, base, {}, multiset{}, t);
      CoreRunning(c, g.s, base + g.items, {}, multiset{}, t);
      var q := g.s.objs[t].sched.value.seqId;
      NewSequence(g, g', q);
      BatchGrows(g, g', total);
      TailOk(ts);
      StillUnserved(g, g', q, ts);
      BatchBuildAll(c, g', base, ts[1..], total);
    }
  }

  lemma StillUnserved(g: Stage, g': Stage, q: SeqId, ts: seq<Ticket>)
    requires ts != [] && Unserved(g.s, g.items, ts) && OneMore(g, g', q) && g'.s.bySeq == g.s.bySeq
    requires q in g.s.bySeq && g.s.bySeq[q] == ts[0] && ts[0] !in ts[1..]
    ensures Unserved(g'.s, g'.items, ts[1..])
  {
    forall x | x in g'.items ensures x.seqId in g'.s.bySeq && g'.s.bySeq[x.seqId] !in ts[1..] {
      if x !in g.items {
        assert g'.items == g'.items[..|g.items|] + [g'.items[|g.items|]];
      }
    }
  }

  // ---------------------------------------------------------------- admission

  lemma AdmitSkippedGrew(c: Config, g: Stage, base: seq<WorkItem>, raised: bool)
    requires Steady(c, g.s, base + g.items)
    ensures Grew(g, AdmitSkipped(c, g, raised).g)
  {
    hide Core, BuildWork, Grew, Dismiss, ReleaseScheduling, SendDone, EraseRequest;
    if g.budget != 0 && g.s.skip != [] && |g.s.running| < c.maxRunning {
      var t := g.s.skip[0];
      var s := g.s.(skip := g.s.skip[1..]);
      var s1 := s.(accepting := s.accepting && !raised);
      var r := Get(g.s, t);
      if r.status != Cancelled && r.maxTokens > 0 && r.sched.Some? && s1.accepting && |r.generated| < r.maxTokens {
        CorePopSkip(c, g.s, base + g.items, {}, multiset{});
        assert {} + {t} == {t} && {t} - {t} == {};
        CoreQuiet(c, s, s1, base + g.items, {t}, multiset{});
        var q := r.sched.value.seqId;
        var s2 := s1.(bySeq := s1.bySeq[q := t], running := s1.running + [t]);
        CorePushRunning(c, s1, base + g.items, {t}, multiset{}, t);
        SkippedUnindexed(c, s1, base + g.items, t);
        ItemsIndexed(c, g.s, base, g.items);
        CoreBuildWork(c, g.(s := s2), base, {}, multiset{}, t);
        var g' := BuildWork(c, g.(s := s2), t);
        OneMoreFrom(g.(s := s2), g, g', q);
        NewSequence(g, g', q);
      } else {
        SameBatch(g, AdmitSkipped(c, g, raised).g);
      }
    } else {
      SameBatch(g, AdmitSkipped(c, g, raised).g);
    }
  }

  lemma SkippedUnindexed(c: Config, s: Sched, out: seq<WorkItem>, t: Ticket)
    requires Core(c, s, out, {t}, multiset{}) && t in s.objs && s.objs[t].sched.Some?
    ensures s.objs[t].sched.value.seqId !in s.bySeq
  {
    hide Accounted, Sound, Named;
    var q := s.objs[t].sched.value.seqId;
    assert HasSeq(s, t, q);
    assert q in s.bySeq ==> HasSeq(s, s.bySeq[q], q);
    assert t !in s.running;
  }

  lemma OneMoreFrom(a: Stage, b: Stage, g: Stage, q: SeqId)
    requires OneMore(a, g, q) && b.items == a.items && b.budget == a.budget
    ensures OneMore(b, g, q)
  {
  }

  lemma GrantedGrew(c: Config, g: Stage, s: Sched, base: seq<WorkItem>, t: Ticket, hits: nat, parent: Hash,
          table: seq<BlockId>)
    requires t in s.objs && s.objs[t].sched.None? && Open(s.objs[t].status)
    requires Core(c, s, base + g.items, {t}, multiset(table))
    requires Fits(c, s.blocks.cache.byBlock, s.objs[t], hits, table)
    requires forall x :: x in g.items ==> x.seqId < s.nextSeq
    ensures Grew(g, AdmitGranted(c, g, s, t, s.objs[t], hits, parent, table).g)
  {
    hide Core, Fits, BuildWork, Enlist, Grew, TurnAway;
    if s.accepting {
      var s' := Enlist(c, s, t, s.objs[t], hits, parent, table);
      CoreEnlist(c, s, base + g.items, t, hits, parent, table);
      EnlistRuns(c, s, t, s.objs[t], hits, parent, table);
      EnlistSeq(c, s, t, hits, parent, table);
      CoreBuildWork(c, g.(s := s'), base, {}, multiset{}, t);
      var g' := BuildWork(c, g.(s := s'), t);
      OneMoreFrom(g.(s := s'), g, g', s.nextSeq);
      NewSequence(g, g', s.nextSeq);
    } else {
      SameBatch(g, AdmitGranted(c, g, s, t, s.objs[t], hits, parent, table).g);
    }
  }

  lemma EnlistSeq(c: Config, s: Sched, t: Ticket, hits: nat, parent: Hash, table: seq<BlockId>)
    requires t in s.objs
    ensures var s' := Enlist(c, s, t, s.objs[t], hits, parent, table);
      t in s'.objs && s'.objs[t].sched.Some? && s'.objs[t].sched.value.seqId == s.nextSeq
  {
  }

  lemma TakeNext(s: Sched, n: nat)
    ensures TakeBlocks(s, n).s.nextSeq == s.nextSeq && TakeBlocks(s, n).s.objs == s.objs
  {
  }

  lemma AdmitPromptGrew(c: Config, g: Stage, base: seq<WorkItem>, t: Ticket, raised: bool)
    requires Core(c, g.s, base + g.items, {t}, multiset{})
    requires t in g.s.objs && g.s.objs[t].sched.None? && Open(g.s.objs[t].status)
    requires var r := g.s.objs[t];
      r.prompt != [] && |r.prompt| <= r.maxContext <= Cap(c, c.maxBlocks) && 0 < r.maxTokens
          && |r.generated| <= r.maxTokens
    requires forall x :: x in g.items ==> x.seqId < g.s.nextSeq
    ensures Grew(g, AdmitPrompt(c, g, t, g.s.objs[t], raised).g)
  {
    hide Core, HitTable, ParentOf, TakeBlocks, Rebuff, AdmitGranted, Sub, BlocksFor, Cap, Fits, Grew, Blocks.Valid,
        Blocks.LookupPrefix,
         Hashing.ChainHashes, BlockPrefixes;
    var r := g.s.objs[t];
    var out := base + g.items;
    var hit := HitTable(c, g.s, r.prompt);
    var s1 := Looked(c, g.s, r.prompt);
    CoreLooked(c, g.s, out, t, r.prompt);
    var n := Sub(BlocksFor(c, |r.prompt|), |hit|);
    CoreTake(c, s1, out, {t}, multiset(hit), n);
    TakeNext(s1, n);
    var k := TakeBlocks(s1, n);
    if !k.ok {
      SameBatch(g, AdmitPrompt(c, g, t, r, raised).g);
    } else {
      var table := hit + k.table;
      assert multiset(hit) + multiset(k.table) == multiset(table);
      CoreValid(c, g.s, out, {t}, multiset{});
      FitsHit(c, g.s, r, hit, k, n);
      var s2 := k.s.(accepting := k.s.accepting && !raised);
      CoreQuiet(c, k.s, s2, out, {t}, multiset(table));
      GrantedGrew(c, g, s2, base, t, |hit|, ParentOf(c, r.prompt, |hit|), table);
    }
  }

  lemma AdmitWaitingGrew(c: Config, g: Stage, base: seq<WorkItem>, raised: bool)
    requires Steady(c, g.s, base + g.items)
    ensures Grew(g, AdmitWaiting(c, g, raised).g)
  {
    hide Core, Dismiss, AdmitPrompt, Cap, Grew;
    var s0 := g.s;
    if g.budget != 0 && s0.waiting != [] && |s0.running| < c.maxRunning && |s0.running| + |s0.skip| < c.maxSequences {
      var out := base + g.items;
      var t := s0.waiting[0];
      CorePopWaiting(c, s0, out, {}, multiset{});
      assert {} + {t} == {t};
      var s := s0.(waiting := s0.waiting[1..]);
      var r := s.objs[t];
      if r.status != Cancelled && 0 < r.maxTokens && r.prompt != []
          && |r.prompt| <= r.maxContext <= Cap(c, c.maxBlocks) {
        CoreWithinLimit(c, s, out, {t}, multiset{}, t);
        ItemsIndexed(c, s0, base, g.items);
        AdmitPromptGrew(c, g.(s := s), base, t, raised);
        GrewFrom(g.(s := s), g, AdmitPrompt(c, g.(s := s), t, r, raised).g);
      } else {
        SameBatch(g, AdmitWaiting(c, g, raised).g);
      }
    } else {
      SameBatch(g, AdmitWaiting(c, g, raised).g);
    }
  }

  lemma GrewFrom(a: Stage, b: Stage, g: Stage)
    requires Grew(a, g) && b.items == a.items && b.budget == a.budget
    ensures Grew(b, g)
  {
    var q: SeqId :| OneMore(a, g, q) && forall x :: x in a.items ==> x.seqId != q;
    OneMoreFrom(a, b, g, q);
  }

  lemma {:induction false} BatchAdmitLoop(c: Config, g0: Stage, base: seq<WorkItem>, raises: seq<Raise>, total: nat)
    requires Steady(c, g0.s, base + g0.items) && BatchOk(g0, total)
    ensures BatchOk(AdmitLoop(c, g0, raises), total)
    decreases |g0.s.skip| + |g0.s.waiting|
  {
    hide Core, AdmitSkipped, AdmitWaiting, Grew, Once, Load;
    var raise := if raises == [] then Raise(false, false) else raises[0];
    var later := if raises == [] then [] else raises[1..];
    var g := g0.(s := g0.s.(accepting := g0.s.accepting && !raise.head));
    CoreQuiet(c, g0.s, g.s, base + g.items, {}, multiset{});
    if !(!g.s.accepting || g.s.paused || g.budget == 0 || |g.s.running| >= c.maxRunning
         || (g.s.skip == [] && g.s.waiting == [])) {
      var a := if g.s.skip != [] then AdmitSkipped(c, g, raise.check) else Admission(g, false);
      if g.s.skip != [] {
        AdmitSkippedShrinks(c, g, raise.check);
        CoreAdmitSkipped(c, g, base, raise.check);
        AdmitSkippedGrew(c, g, base, raise.check);
        BatchGrows(g, a.g, total);
      }
      if a.again {
        BatchAdmitLoop(c, a.g, base, later, total);
      } else if a.g.s.waiting != [] {
        AdmitWaitingShrinks(c, a.g, raise.check);
        SteadyAdmitWaiting(c, a.g, base, raise.check);
        AdmitWaitingGrew(c, a.g, base, raise.check);
        var b := AdmitWaiting(c, a.g, raise.check);
        BatchGrows(a.g, b.g, total);
        if b.again { BatchAdmitLoop(c, b.g, base, later, total); }
      }
    }
  }

  lemma RunningNoDup(c: Config, s: Sched, out: seq<WorkItem>)
    requires Steady(c, s, out)
    ensures NoDup(s.running)
  {
    hide Accounted, Sound, Named, Sequenced, Distinct;
  }

  /** What the engine dispatches. */
  lemma BatchContract(c: Config, s: Sched, base: seq<WorkItem>, raises: seq<Raise>)
    requires Steady(c, s, base)
    ensures var g := ScheduleStep(c, s, raises); Once(g.items) && Load(g.items) <= c.tokenBudget
  {
    hide Core, MakeRoom, BuildAll, AdmitLoop, Once, Load, NoDup;
    var s1 := s.(nextBatch := s.nextBatch + 1);
    var s0 := s1.(shortage := false);
    CoreQuiet(c, s, s1, base, {}, multiset{});
    if s1.shortage {
      CoreQuiet(c, s1, s0, base, {}, multiset{});
      CoreMakeRoom(c, s0, base, {}, multiset{});
    }
    var s2 := if s1.shortage then MakeRoom(s0) else s1;
    assert base + [] == base;
    var g0 := Stage(s2, [], c.tokenBudget);
    EmptyBatch();
    RunningNoDup(c, s2, base);
    SteadyBuildAll(c, g0, base, s2.running);
    BatchBuildAll(c, g0, base, s2.running, c.tokenBudget);
    var g1 := BuildAll(c, g0, s2.running);
    SteadyAdmitLoop(c, g1, base, raises);
    BatchAdmitLoop(c, g1, base, raises, c.tokenBudget);
    StageIndexed(c, AdmitLoop(c, g1, raises).s, base, AdmitLoop(c, g1, raises).items);
  }

  lemma EmptyBatch()
    ensures Once([]) && Load([]) == 0
  {
  }
}
