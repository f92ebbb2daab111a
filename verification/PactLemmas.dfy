/** Building a batch keeps the pact between scheduler and worker, and its items can be executed. */
module PactLemmas {
  import opened Types
  import opened Blocks
  import BlockLemmas
  import opened Hashing
  import opened State
  import opened Scheduling
  import opened Invariant
  import opened AccountLemmas
  import opened CoreLemmas
  import opened BuildLemmas
  import opened AdmitLemmas
  import opened StepLemmas
  import opened Engine
  import opened CalmLemmas
  import opened Marks
  import opened Faithful

  // ---------------------------------------------------------------- items

  /** A late-bound step finds a token to bind, unless its sequence was readmitted onto a cached prompt. */
  predicate Bindable(h: History, w: Worker, x: WorkItem) {
    && x.seqId in h.starts
    && (x.DecodeOneToken? && x.lateBind && !h.starts[x.seqId].Blind? ==> x.seqId in w.latest)
  }

  ghost predicate AllBindable(h: History, w: Worker, items: seq<WorkItem>) {
    forall x :: x in items ==> Bindable(h, w, x)
  }

  ghost predicate PactStage(c: Config, g: Stage, base: seq<WorkItem>, w: Worker, ms: seq<Mark>) {
    Pact(c, g.s, w, ms) && AllBindable(g.s.hist, w, base + g.items)
  }

  ghost predicate Extends(a: map<SeqId, Start>, b: map<SeqId, Start>) {
    forall q :: q in a ==> q in b && b[q] == a[q]
  }

  lemma BindableLater(h: History, h': History, w: Worker, items: seq<WorkItem>)
    requires AllBindable(h, w, items) && Extends(h.starts, h'.starts)
    ensures AllBindable(h', w, items)
  {
  }

  lemma PactStageCalm(c: Config, g: Stage, s': Sched, base: seq<WorkItem>, w: Worker, ms: seq<Mark>)
    requires PactStage(c, g, base, w, ms) && Calm(g.s, s')
    ensures PactStage(c, g.(s := s'), base, w, ms)
  {
    PactCalm(c, g.s, s', w, ms);
    hide Pact;
    BindableLater(g.s.hist, s'.hist, w, base + g.items);
  }

  // ---------------------------------------------------------------- building work

  lemma PrefillBindable(c: Config, g: Stage, t: Ticket, w: Worker)
    requires Going(g.s, t) && g.s.objs[t].sched.value.seqId in g.s.hist.starts
    ensures var g' := BuildPrefill(c, g, t, g.s.objs[t], g.s.objs[t].sched.value);
      forall x :: x in g'.items ==> x in g.items || Bindable(g'.s.hist, w, x)
  {
    hide ChunkLength;
  }

  lemma DecodeBindable(c: Config, g: Stage, t: Ticket, w: Worker, ms: seq<Mark>)
    requires Going(g.s, t) && !IsPrefill(g.s.objs[t].sched.value.phase) && g.budget > 0
    requires var q := g.s.objs[t].sched.value;
      q.seqId in g.s.hist.starts && Bound(g.s.hist.starts[q.seqId], g.s.objs[t], q, w, MarksFor(ms, q.seqId))
    ensures var g' := BuildDecode(c, g, t, g.s.objs[t], g.s.objs[t].sched.value);
      forall x :: x in g'.items ==> x in g.items || Bindable(g'.s.hist, w, x)
  {
    hide MarksFor, Bound, Bindable, TakeDecode;
    var q := g.s.objs[t].sched.value;
    if q.phase == Decode && !g.s.hist.starts[q.seqId].Blind? {
      DecodeLatest(g.s.hist.starts[q.seqId], g.s.objs[t], q, w, MarksFor(ms, q.seqId));
    }
    TakenBindable(c, g, t, g.s.objs[t], q, w);
  }

  lemma TakenBindable(c: Config, g: Stage, t: Ticket, r: Request, q: Sequence, w: Worker)
    requires q.seqId in g.s.hist.starts && !IsPrefill(q.phase) && g.budget > 0
    requires q.phase == Decode && !g.s.hist.starts[q.seqId].Blind? ==> q.seqId in w.latest
    ensures var g' := TakeDecode(c, g, t, r, q);
      forall x :: x in g'.items ==> x in g.items || Bindable(g'.s.hist, w, x)
  {
    hide MissingBlocks;
    CalmTake(g.s, MissingBlocks(c, q));
    hide TakeBlocks, Reserve;
  }

  lemma {:induction false} ReachUp(ms: seq<Mark>, from: nat)
    ensures from <= Reach(ms, from)
  {
    if ms != [] && ms[0].verdict.Good? { ReachUp(ms[1..], from + KvCount(ms[0].item)); }
  }

  /** A decoding sequence has a token to bind. */
  lemma DecodeLatest(st: Start, r: Request, q: Sequence, w: Worker, ms: seq<Mark>)
    requires Bound(st, r, q, w, ms) && q.phase == Decode && !st.Blind?
    ensures q.seqId in w.latest
  {
    hide Samples, Reach;
    ReachUp(ms, q.frontier);
  }

  lemma NewBindable(c: Config, g: Stage, base: seq<WorkItem>, hand: set<Ticket>, held: multiset<BlockId>, t: Ticket,
          w: Worker, ms: seq<Mark>)
    requires Core(c, g.s, base + g.items, hand, held) && t in g.s.running && AllBound(g.s, w, ms)
    ensures var g' := BuildWork(c, g, t); forall x :: x in g'.items ==> x in g.items || Bindable(g'.s.hist, w, x)
  {
    hide Core, BuildPrefill, BuildDecode, Bindable, Bound, MarksFor;
    CoreRunning(c, g.s, base + g.items, hand, held, t);
    if Going(g.s, t) && g.budget > 0 {
      if IsPrefill(g.s.objs[t].sched.value.phase) {
        PrefillBindable(c, g, t, w);
      } else {
        DecodeBindable(c, g, t, w, ms);
      }
    }
  }

  lemma PactBuildWork(c: Config, g: Stage, base: seq<WorkItem>, hand: set<Ticket>, held: multiset<BlockId>,
          t: Ticket, w: Worker, ms: seq<Mark>)
    requires Core(c, g.s, base + g.items, hand, held) && t in g.s.running && PactStage(c, g, base, w, ms)
    ensures PactStage(c, BuildWork(c, g, t), base, w, ms)
  {
    hide Core, BuildWork, Bindable, AllBound;
    NewBindable(c, g, base, hand, held, t, w, ms);
    CalmBuildWork(c, g, t);
    PactStageCalm(c, g, BuildWork(c, g, t).s, base, w, ms);
    hide Pact;
  }

  lemma {:induction false} PactBuildAll(c: Config, g: Stage, base: seq<WorkItem>, ts: seq<Ticket>, w: Worker,
          ms: seq<Mark>)
    requires Steady(c, g.s, base + g.items) && (forall t :: t in ts ==> t in g.s.running)
        && PactStage(c, g, base, w, ms)
    ensures PactStage(c, BuildAll(c, g, ts), base, w, ms)
    decreases |ts|
  {
    hide Core, BuildWork, PactStage;
    if ts != [] && g.budget != 0 {
      CoreBuildWork(c, g, base, {}, multiset{}, ts[0]);
      PactBuildWork(c, g, base, {}, multiset{}, ts[0], w, ms);
      PactBuildAll(c, BuildWork(c, g, ts[0]), base, ts[1..], w, ms);
    }
  }

  // ---------------------------------------------------------------- admission

  lemma QueueObjs(c: Config, s: Sched, out: seq<WorkItem>, hand: set<Ticket>, held: multiset<BlockId>)
    requires Core(c, s, out, hand, held)
    ensures forall t :: t in s.skip || t in s.running || t in s.waiting ==> t in s.objs
    ensures forall t :: Going(s, t) ==> s.objs[t].sched.value.seqId < s.nextSeq
  {
    hide Accounted, Sound;
    forall t | Going(s, t) ensures s.objs[t].sched.value.seqId < s.nextSeq {
      assert HasSeq(s, t, s.objs[t].sched.value.seqId);
    }
  }

  lemma PactAdmitSkipped(c: Config, g: Stage, base: seq<WorkItem>, raised: bool, w: Worker, ms: seq<Mark>)
    requires Steady(c, g.s, base + g.items) && PactStage(c, g, base, w, ms)
    ensures PactStage(c, AdmitSkipped(c, g, raised).g, base, w, ms)
  {
    hide Core, BuildWork, PactStage, Dismiss, ReleaseScheduling, SendDone, EraseRequest, Calm;
    CalmAdmitSkipped(c, g, raised);
    var a := AdmitSkipped(c, g, raised);
    PactStageCalm(c, g, a.g.s, base, w, ms);
    if g.budget != 0 && g.s.skip != [] && |g.s.running| < c.maxRunning {
      var t := g.s.skip[0];
      var s := g.s.(skip := g.s.skip[1..]);
      var s1 := s.(accepting := s.accepting && !raised);
      CorePopSkip(c, g.s, base + g.items, {}, multiset{});
      assert {} + {t} == {t} && {t} - {t} == {};
      CoreQuiet(c, s, s1, base + g.items, {t}, multiset{});
      var r := Get(g.s, t);
      if r.status != Cancelled && r.maxTokens > 0 && r.sched.Some? && s1.accepting && |r.generated| < r.maxTokens {
        var s2 := s1.(bySeq := s1.bySeq[r.sched.value.seqId := t], running := s1.running + [t]);
        CorePushRunning(c, s1, base + g.items, {t}, multiset{}, t);
        CalmSame(g.s, s2);
        PactStageCalm(c, g, s2, base, w, ms);
        PactBuildWork(c, g.(s := s2), base, {}, multiset{}, t, w, ms);
      } else {
        AdmitSkippedItems(c, g, raised);
        PactStageItems(c, g, a.g, base, w, ms);
      }
    } else {
      PactStageItems(c, g, a.g, base, w, ms);
    }
  }

  lemma AdmitSkippedItems(c: Config, g: Stage, raised: bool)
    requires g.s.skip != []
    requires var r := Get(g.s, g.s.skip[0]);
      !(r.status != Cancelled && r.maxTokens > 0 && r.sched.Some? && g.s.accepting && !raised
          && |r.generated| < r.maxTokens)
    ensures AdmitSkipped(c, g, raised).g.items == g.items
  {
    hide BuildWork, Dismiss, ReleaseScheduling, SendDone, EraseRequest;
  }

  lemma PactStageItems(c: Config, g: Stage, g': Stage, base: seq<WorkItem>, w: Worker, ms: seq<Mark>)
    requires PactStage(c, g.(s := g'.s), base, w, ms) && g'.items == g.items
    ensures PactStage(c, g', base, w, ms)
  {
    hide Pact;
  }

  /** What lookup finds survives the allocation of the remaining blocks. */
  lemma LookupHits(c: Config, s: Sched, k: Taken, prompt: seq<Token>, n: nat)
    requires c.Valid() && Valid(s.blocks) && TakenOk(Looked(c, s, prompt), n, k)
    ensures var hit := HitTable(c, s, prompt);
      HitOk(c, k.s, prompt, |hit|, ParentOf(c, prompt, |hit|), hit + k.table)
  {
    hide Valid, LookupPrefix, Chain, TakenOk;
    var hashes := ChainHashes(c, prompt, 0, 0);
    var hit := HitTable(c, s, prompt);
    var hits := |hit|;
    var table := hit + k.table;
    BlockLemmas.LookupPrefixOk(s.blocks, hashes);
    CapMono(c, hits, FullBlocks(c, |prompt|));
    forall i | 0 <= i < hits ensures FiledUnder(c, k.s, PrefixOf(c, prompt, i + 1), table[i]) {
      LookupHit(c, s, k, prompt, n, i);
    }
    if hits > 0 {
      BlockPrefixFits(c, |prompt|, hits - 1);
    } else {
      assert prompt[..0] == [];
      ChainNil(c);
    }
  }

  lemma ChainNil(c: Config)
    ensures Chain(c, 0, []) == 0
  {
  }

  lemma LookupHit(c: Config, s: Sched, k: Taken, prompt: seq<Token>, n: nat, i: nat)
    requires c.Valid() && Valid(s.blocks) && TakenOk(Looked(c, s, prompt), n, k) && i < |HitTable(c, s, prompt)|
    ensures FiledUnder(c, k.s, PrefixOf(c, prompt, i + 1), HitTable(c, s, prompt)[i])
  {
    hide Valid, LookupPrefix, Chain, TakeBlocks;
    var hashes := ChainHashes(c, prompt, 0, 0);
    var s1 := Looked(c, s, prompt);
    var hit := HitTable(c, s, prompt);
    var b := hit[i];
    BlockLemmas.LookupPrefixOk(s.blocks, hashes);
    BlockLemmas.LookupCached(s.blocks, hashes, i);
    assert multiset(hit)[b] > 0 by { assert b in hit; }
    assert s1.blocks.Refs(b) > 0 && s1.blocks.Cached(b);
    assert k.s.blocks.Cached(b);
    BlockPrefixFits(c, |prompt|, i);
    assert PrefixOf(c, prompt, i + 1) in BlockPrefixes(c, prompt);
  }

  lemma CalmLooked(c: Config, s: Sched, prompt: seq<Token>)
    ensures Calm(s, Looked(c, s, prompt))
  {
    LookupCache(s.blocks, ChainHashes(c, prompt, 0, 0));
    hide LookupPrefix, BlockPrefixes, ChainHashes;
  }

  lemma CalmTurnedAway(s: Sched, t: Ticket, table: seq<BlockId>)
    ensures Calm(s, TurnAway(s, t, table))
  {
    hide Calm, ReleaseTable, Send, EraseRequest;
    var s1 := s.(blocks := ReleaseTable(s.blocks, table));
    var e := ErrorEvent(ServerShuttingDown);
    CalmBlocks(s, table);
    CalmSend(s1, t, e);
    CalmErase(Send(s1, t, e), t);
    CalmTrans(s, s1, Send(s1, t, e));
    CalmTrans(s, Send(s1, t, e), EraseRequest(Send(s1, t, e), t));
  }

  lemma PactStarts(c: Config, s: Sched, w: Worker, ms: seq<Mark>)
    requires Pact(c, s, w, ms)
    ensures Below(s.hist.starts.Keys, s.nextSeq)
  {
    hide AllBound, AllLinked, Truthful, Injective, Issued;
  }

  /** Admission of a prompt whose blocks were granted. */
  lemma PactEnlisted(c: Config, g: Stage, s: Sched, base: seq<WorkItem>, t: Ticket, hits: nat, parent: Hash,
          table: seq<BlockId>, w: Worker, ms: seq<Mark>)
    requires t in s.objs && s.objs[t].sched.None? && Open(s.objs[t].status)
    requires Core(c, s, base + g.items, {t}, multiset(table))
    requires Fits(c, s.blocks.cache.byBlock, s.objs[t], hits, table)
    requires PactStage(c, g.(s := s), base, w, ms) && HitOk(c, s, s.objs[t].prompt, hits, parent, table)
    ensures PactStage(c, BuildWork(c, g.(s := Enlist(c, s, t, s.objs[t], hits, parent, table)), t), base, w, ms)
  {
    hide Core, Fits, BuildWork, HitOk, Pact, Enlist, Valid;
    CoreValid(c, s, base + g.items, {t}, multiset(table));
    QueueObjs(c, s, base + g.items, {t}, multiset(table));
    var s' := Enlist(c, s, t, s.objs[t], hits, parent, table);
    EnlistShape(c, s, t, hits, parent, table, s');
    EnlistRuns(c, s, t, s.objs[t], hits, parent, table);
    PactEnlist(c, s, w, ms, t, hits, parent, table);
    PactStarts(c, s, w, ms);
    BindableLater(s.hist, s'.hist, w, base + g.items);
    CoreEnlist(c, s, base + g.items, t, hits, parent, table);
    PactBuildWork(c, g.(s := s'), base, {}, multiset{}, t, w, ms);
  }

  lemma PactGranted(c: Config, g: Stage, s: Sched, base: seq<WorkItem>, t: Ticket, hits: nat, parent: Hash,
          table: seq<BlockId>, w: Worker, ms: seq<Mark>)
    requires t in s.objs && s.objs[t].sched.None? && Open(s.objs[t].status)
    requires Core(c, s, base + g.items, {t}, multiset(table))
    requires Fits(c, s.blocks.cache.byBlock, s.objs[t], hits, table)
    requires PactStage(c, g.(s := s), base, w, ms) && HitOk(c, s, s.objs[t].prompt, hits, parent, table)
    ensures PactStage(c, AdmitGranted(c, g, s, t, s.objs[t], hits, parent, table).g, base, w, ms)
  {
    hide Core, Fits, BuildWork, HitOk, PactStage, Enlist, TurnAway, Calm;
    CalmTurnedAway(s, t, table);
    PactStageCalm(c, g.(s := s), TurnAway(s, t, table), base, w, ms);
    PactEnlisted(c, g, s, base, t, hits, parent, table, w, ms);
  }

  lemma PactAdmitPrompt(c: Config, g: Stage, base: seq<WorkItem>, t: Ticket, raised: bool, w: Worker, ms: seq<Mark>)
    requires Core(c, g.s, base + g.items, {t}, multiset{}) && PactStage(c, g, base, w, ms)
    requires t in g.s.objs && g.s.objs[t].sched.None? && Open(g.s.objs[t].status)
    requires var r := g.s.objs[t];
      r.prompt != [] && |r.prompt| <= r.maxContext <= Cap(c, c.maxBlocks) && 0 < r.maxTokens
          && |r.generated| <= r.maxTokens
    ensures PactStage(c, AdmitPrompt(c, g, t, g.s.objs[t], raised).g, base, w, ms)
  {
    hide Core, Looked, HitTable, ParentOf, TakeBlocks, Rebuff, AdmitGranted, Sub, BlocksFor, Cap, Fits, Valid,
        PactStage, Calm, HitOk;
    var r := g.s.objs[t];
    var out := base + g.items;
    CoreValid(c, g.s, out, {t}, multiset{});
    var hit := HitTable(c, g.s, r.prompt);
    var s1 := Looked(c, g.s, r.prompt);
    CoreLooked(c, g.s, out, t, r.prompt);
    CalmLooked(c, g.s, r.prompt);
    PactStageCalm(c, g, s1, base, w, ms);
    var n := Sub(BlocksFor(c, |r.prompt|), |hit|);
    CoreTake(c, s1, out, {t}, multiset(hit), n);
    TakenFresh(c, s1, out, {t}, multiset(hit), n);
    var k := TakeBlocks(s1, n);
    CalmTake(s1, n);
    PactStageCalm(c, g.(s := s1), k.s, base, w, ms);
    if !k.ok {
      assert multiset(hit) + multiset(k.table) == multiset(hit);
      QueueObjs(c, k.s, out, {t}, multiset(hit));
      CalmRebuff(k.s, t, hit);
      PactStageCalm(c, g.(s := k.s), Rebuff(k.s, t, hit), base, w, ms);
    } else {
      var table := hit + k.table;
      assert multiset(hit) + multiset(k.table) == multiset(table);
      FitsHit(c, g.s, r, hit, k, n);
      LookupHits(c, g.s, k, r.prompt, n);
      var s2 := k.s.(accepting := k.s.accepting && !raised);
      CoreQuiet(c, k.s, s2, out, {t}, multiset(table));
      CalmSame(k.s, s2);
      PactStageCalm(c, g.(s := k.s), s2, base, w, ms);
      HitQuiet(c, k.s, s2, r.prompt, |hit|, ParentOf(c, r.prompt, |hit|), table);
      PactGranted(c, g, s2, base, t, |hit|, ParentOf(c, r.prompt, |hit|), table, w, ms);
    }
  }

  lemma HitQuiet(c: Config, s: Sched, s': Sched, prompt: seq<Token>, hits: nat, parent: Hash, table: seq<BlockId>)
    requires HitOk(c, s, prompt, hits, parent, table) && s'.blocks == s.blocks && s'.hist == s.hist
    ensures HitOk(c, s', prompt, hits, parent, table)
  {
    forall i | 0 <= i < hits ensures FiledUnder(c, s', PrefixOf(c, prompt, i + 1), table[i]) {
      assert FiledUnder(c, s, PrefixOf(c, prompt, i + 1), table[i]);
    }
  }

  lemma TakenFresh(c: Config, s: Sched, out: seq<WorkItem>, hand: set<Ticket>, held: multiset<BlockId>, n: nat)
    requires Core(c, s, out, hand, held)
    ensures TakenOk(s, n, TakeBlocks(s, n))
  {
    hide Places, Accounted, Sound;
    TakeFresh(c, s, n, held);
  }

  lemma PactAdmitWaiting(c: Config, g: Stage, base: seq<WorkItem>, raised: bool, w: Worker, ms: seq<Mark>)
    requires Steady(c, g.s, base + g.items) && PactStage(c, g, base, w, ms)
    ensures PactStage(c, AdmitWaiting(c, g, raised).g, base, w, ms)
  {
    hide Core, Dismiss, AdmitPrompt, Cap, PactStage, Calm;
    var s0 := g.s;
    if g.budget != 0 && s0.waiting != [] && |s0.running| < c.maxRunning && |s0.running| + |s0.skip| < c.maxSequences {
      var out := base + g.items;
      var t := s0.waiting[0];
      CorePopWaiting(c, s0, out, {}, multiset{});
      assert {} + {t} == {t} && {t} - {t} == {};
      var s := s0.(waiting := s0.waiting[1..]);
      var r := s.objs[t];
      CalmSame(s0, s);
      PactStageCalm(c, g, s, base, w, ms);
      PactDismiss(c, g.(s := s), base, t, ErrorEvent(RequestCancelled), w, ms);
      PactDismiss(c, g.(s := s), base, t, DoneEvent, w, ms);
      PactDismiss(c, g.(s := s), base, t, ErrorEvent(InvalidArgument), w, ms);
      if 0 < r.maxTokens && r.prompt != [] && |r.prompt| <= r.maxContext <= Cap(c, c.maxBlocks) {
        CoreWithinLimit(c, s, out, {t}, multiset{}, t);
        PactAdmitPrompt(c, g.(s := s), base, t, raised, w, ms);
      }
    }
  }

  lemma PactDismiss(c: Config, g: Stage, base: seq<WorkItem>, t: Ticket, e: Event, w: Worker, ms: seq<Mark>)
    requires PactStage(c, g, base, w, ms)
    ensures PactStage(c, g.(s := Dismiss(g.s, t, e)), base, w, ms)
  {
    hide PactStage, Dismiss, Calm;
    CalmDismiss(g.s, t, e);
    PactStageCalm(c, g, Dismiss(g.s, t, e), base, w, ms);
  }

  lemma {:induction false} PactAdmitLoop(c: Config, g0: Stage, base: seq<WorkItem>, raises: seq<Raise>, w: Worker,
          ms: seq<Mark>)
    requires Steady(c, g0.s, base + g0.items) && PactStage(c, g0, base, w, ms)
    ensures PactStage(c, AdmitLoop(c, g0, raises), base, w, ms)
    decreases |g0.s.skip| + |g0.s.waiting|
  {
    hide Core, AdmitSkipped, AdmitWaiting, PactStage, Calm;
    var raise := if raises == [] then Raise(false, false) else raises[0];
    var later := if raises == [] then [] else raises[1..];
    var g := g0.(s := g0.s.(accepting := g0.s.accepting && !raise.head));
    CoreQuiet(c, g0.s, g.s, base + g.items, {}, multiset{});
    CalmSame(g0.s, g.s);
    PactStageCalm(c, g0, g.s, base, w, ms);
    if !(!g.s.accepting || g.s.paused || g.budget == 0 || |g.s.running| >= c.maxRunning
         || (g.s.skip == [] && g.s.waiting == [])) {
      var a := if g.s.skip != [] then AdmitSkipped(c, g, raise.check) else Admission(g, false);
      if g.s.skip != [] {
        AdmitSkippedShrinks(c, g, raise.check);
        CoreAdmitSkipped(c, g, base, raise.check);
        PactAdmitSkipped(c, g, base, raise.check, w, ms);
      }
      if a.again {
        PactAdmitLoop(c, a.g, base, later, w, ms);
      } else if a.g.s.waiting != [] {
        AdmitWaitingShrinks(c, a.g, raise.check);
        SteadyAdmitWaiting(c, a.g, base, raise.check);
        PactAdmitWaiting(c, a.g, base, raise.check, w, ms);
        var b := AdmitWaiting(c, a.g, raise.check);
        if b.again { PactAdmitLoop(c, b.g, base, later, w, ms); }
      }
    }
  }

  lemma PactScheduleStep(c: Config, s: Sched, base: seq<WorkItem>, raises: seq<Raise>, w: Worker, ms: seq<Mark>)
    requires Steady(c, s, base) && Pact(c, s, w, ms) && AllBindable(s.hist, w, base)
    ensures PactStage(c, ScheduleStep(c, s, raises), base, w, ms)
  {
    hide Core, MakeRoom, BuildAll, AdmitLoop, Pact, Calm, AllBindable;
    var s1 := s.(nextBatch := s.nextBatch + 1);
    var s0 := s1.(shortage := false);
    assert base + [] == base;
    var g := Stage(s, [], c.tokenBudget);
    CoreQuiet(c, s, s1, base, {}, multiset{});
    CalmSame(s, s1);
    PactStageCalm(c, g, s1, base, w, ms);
    if s1.shortage {
      CoreQuiet(c, s1, s0, base, {}, multiset{});
      QueueObjs(c, s0, base, {}, multiset{});
      CoreMakeRoom(c, s0, base, {}, multiset{});
      CalmSame(s1, s0);
      CalmMakeRoom(s0);
      CalmTrans(s1, s0, MakeRoom(s0));
      PactStageCalm(c, g.(s := s1), MakeRoom(s0), base, w, ms);
    }
    var s2 := if s1.shortage then MakeRoom(s0) else s1;
    var g0 := Stage(s2, [], c.tokenBudget);
    SteadyBuildAll(c, g0, base, s2.running);
    PactBuildAll(c, g0, base, s2.running, w, ms);
    var g1 := BuildAll(c, g0, s2.running);
    SteadyAdmitLoop(c, g1, base, raises);
    PactAdmitLoop(c, g1, base, raises, w, ms);
    StageIndexed(c, AdmitLoop(c, g1, raises).s, base, AdmitLoop(c, g1, raises).items);
  }
}
