/** When the request at the head of the waiting queue gets its turn. */
module ProgressTheorems {
  import opened Types
  import opened Seqs
  import opened Blocks
  import opened BlockLemmas
  import opened Hashing
  import opened State
  import opened Scheduling
  import opened SchedulerLoops
  import opened Invariant
  import opened StepLemmas
  import opened Engine
  import opened Theorems

  // ---------------------------------------------------------------- the blocks there are

  function IdsIn(table: seq<BlockId>): set<BlockId> {
    set b | b in table
  }

  /** Blocks a request still needs when its prompt has been looked up. */
  function Wanted(c: Config, s: Sched, prompt: seq<Token>): nat {
    Sub(BlocksFor(c, |prompt|), |HitTable(c, s, prompt)|)
  }

  /** There are as many blocks that are neither lost nor among the cached ones of the prompt. */
  predicate Room(c: Config, s: Sched, prompt: seq<Token>) {
    Wanted(c, s, prompt) + |IdsIn(HitTable(c, s, prompt))| + |s.hist.leaked| <= c.maxBlocks
  }

  /** With no sequence there is, every reference is a lost one. */
  lemma OnlyLost(c: Config, s: Sched, out: seq<WorkItem>, b: BlockId)
    requires Steady(c, s, out) && s.running == [] && s.skip == []
    ensures Valid(s.blocks) && |s.blocks.pool.refs| == c.maxBlocks
    ensures s.blocks.Refs(b) == if b in s.hist.leaked then 1 else 0
    ensures b in s.hist.leaked ==> !s.blocks.Cached(b)
  {
    hide Sound, Named, Distinct, Valid, Owned;
    Unowned(s.objs, s.nextTicket, b);
  }

  lemma {:induction false} Unowned(objs: map<Ticket, Request>, n: nat, b: BlockId)
    requires forall t: Ticket :: t < n && t in objs ==> objs[t].sched.None?
    ensures Owned(objs, n, b) == 0
  {
    if n > 0 { Unowned(objs, n - 1, b); }
  }

  lemma HitsCached(st: Store, hs: seq<Hash>, b: BlockId)
    requires Valid(st) && b in LookupPrefix(st, hs).table
    ensures st.Cached(b)
  {
    hide Valid, LookupPrefix;
    var table := LookupPrefix(st, hs).table;
    var i :| 0 <= i < |table| && table[i] == b;
    LookupCached(st, hs, i);
  }

  /** After the lookup the blocks in use are the lost ones and those found. */
  lemma InUse(c: Config, s: Sched, out: seq<WorkItem>, prompt: seq<Token>)
    requires Steady(c, s, out) && s.running == [] && s.skip == []
    ensures var st := Looked(c, s, prompt).blocks;
      Valid(st) && |st.pool.free| + |st.cache.idle| + |IdsIn(HitTable(c, s, prompt))| + |s.hist.leaked| == c.maxBlocks
  {
    hide Core, Valid, LookupPrefix, ChainHashes, BlockPrefixes;
    OnlyLost(c, s, out, 0);
    var hs := ChainHashes(c, prompt, 0, 0);
    LookupPrefixOk(s.blocks, hs);
    var st := Looked(c, s, prompt).blocks;
    ActiveBlocksCount(st);
    var active := set b: BlockId | b < |st.pool.refs| && st.pool.refs[b] > 0;
    var found := IdsIn(HitTable(c, s, prompt));
    forall b: BlockId ensures b in active <==> b in found + s.hist.leaked {
      OnlyLost(c, s, out, b);
      assert b in HitTable(c, s, prompt) <==> multiset(HitTable(c, s, prompt))[b] > 0;
    }
    assert active == found + s.hist.leaked;
    forall b | b in found ensures b !in s.hist.leaked {
      HitsCached(s.blocks, hs, b);
      OnlyLost(c, s, out, b);
    }
    assert found !! s.hist.leaked;
  }

  lemma RoomGranted(c: Config, s: Sched, out: seq<WorkItem>, prompt: seq<Token>)
    requires Steady(c, s, out) && s.running == [] && s.skip == []
    ensures TakeBlocks(Looked(c, s, prompt), Wanted(c, s, prompt)).ok <==> Room(c, s, prompt)
  {
    hide Core, Valid, Looked, HitTable, BlocksFor, AllocateKv;
    InUse(c, s, out, prompt);
    AllocateKvOk(Looked(c, s, prompt).blocks, Wanted(c, s, prompt));
  }

  /** With nothing lost there is room for every prompt that is not too long for the pool. */
  lemma NothingLost(c: Config, s: Sched, out: seq<WorkItem>, prompt: seq<Token>)
    requires Steady(c, s, out) && s.running == [] && s.skip == [] && s.hist.leaked == {}
    requires c.Valid() && |prompt| <= Cap(c, c.maxBlocks)
    ensures Room(c, s, prompt)
  {
    hide Core, Valid, Looked, HitTable, Cap;
    InUse(c, s, out, prompt);
    FewBlocks(HitTable(c, s, prompt));
    EnoughBlocks(c, |prompt|);
  }

  lemma {:induction false} FewBlocks(table: seq<BlockId>)
    ensures |IdsIn(table)| <= |table|
  {
    if table != [] {
      FewBlocks(table[1..]);
      assert table == [table[0]] + table[1..];
      assert IdsIn(table) == {table[0]} + IdsIn(table[1..]);
    }
  }

  lemma EnoughBlocks(c: Config, n: nat)
    requires c.blockSize > 0 && n <= Cap(c, c.maxBlocks)
    ensures BlocksFor(c, n) <= c.maxBlocks
  {
    assert Cap(c, c.maxBlocks + 1) == Cap(c, c.maxBlocks) + c.blockSize;
    if BlocksFor(c, n) > c.maxBlocks { CapMono(c, c.maxBlocks + 1, BlocksFor(c, n)); }
  }

  // ---------------------------------------------------------------- the head of the queue

  /** A request that is answered without being admitted. */
  predicate Hopeless(c: Config, r: Request) {
    r.status == Cancelled || r.maxTokens <= 0
    || r.prompt == [] || |r.prompt| > r.maxContext || r.maxContext > Cap(c, c.maxBlocks)
  }

  /** The batch before the first admission, when nothing runs. */
  function Opened(c: Config, s: Sched): Stage {
    Stage(s.(nextBatch := s.nextBatch + 1, shortage := false), [], c.tokenBudget)
  }

  lemma NothingToMove(s: Sched)
    requires s.running == [] && s.skip == []
    ensures MakeRoom(s) == s
  {
  }

  lemma OpenedFirst(c: Config, s: Sched, raises: seq<Raise>)
    requires s.running == [] && s.skip == []
    ensures ScheduleStep(c, s, raises).s == AdmitLoop(c, Opened(c, s), raises).s
  {
    hide AdmitLoop, KeepIndexed, MakeRoom;
    NothingToMove(s.(nextBatch := s.nextBatch + 1, shortage := false));
  }

  /** The head is answered or admitted if there is room for its prompt, and otherwise waits in front again. */
  lemma HeadTaken(c: Config, s: Sched, out: seq<WorkItem>, raised: bool)
    requires Steady(c, s, out) && s.running == [] && s.skip == [] && s.waiting != [] && c.Valid()
    requires s.waiting[0] in s.objs && NoDup(s.waiting) && s.objs[s.waiting[0]].sched.None?
    ensures var t := s.waiting[0]; var a := AdmitWaiting(c, Opened(c, s), raised);
      && (a.again <==> Hopeless(c, s.objs[t]) || Room(c, s, s.objs[t].prompt))
      && (a.again ==> t !in a.g.s.waiting && (t in a.g.s.running || t !in a.g.s.objs))
      && (!a.again ==> a.g.s.waiting != [] && a.g.s.waiting[0] == t)
  {
    hide Core, Room, AdmitWaiting, WaitingTaken, AdmitPrompt, NoDup, Hopeless;
    var g := Opened(c, s);
    WaitingForm(c, g, raised);
    var t := s.waiting[0];
    HeadLeaves(s.waiting);
    HopelessTaken(c, PopWaiting(g), t, raised);
    PromptTaken(c, s, PopWaiting(g), out, t, raised);
  }

  lemma HopelessTaken(c: Config, g: Stage, t: Ticket, raised: bool)
    requires t in g.s.objs
    ensures var a := WaitingTaken(c, g, t, raised);
      if Hopeless(c, g.s.objs[t]) then a.again && t !in a.g.s.objs && a.g.s.waiting == g.s.waiting
      else a == AdmitPrompt(c, g, t, g.s.objs[t], raised)
  {
    hide Dismiss, AdmitPrompt, Cap;
    DismissGone(g.s, t, ErrorEvent(RequestCancelled));
    DismissGone(g.s, t, DoneEvent);
    DismissGone(g.s, t, ErrorEvent(InvalidArgument));
  }

  lemma HeadLeaves(ts: seq<Ticket>)
    requires ts != [] && NoDup(ts)
    ensures ts[0] !in ts[1..]
  {
  }

  lemma DismissGone(s: Sched, t: Ticket, e: Event)
    ensures var s' := Dismiss(s, t, e); t !in s'.objs && s'.waiting == s.waiting
  {
    hide ReleaseTable;
  }

  lemma PromptTaken(c: Config, s: Sched, g: Stage, out: seq<WorkItem>, t: Ticket, raised: bool)
    requires Steady(c, s, out) && s.running == [] && s.skip == [] && t in s.objs && s.objs[t].sched.None?
    requires g.s == s.(waiting := g.s.waiting, nextBatch := g.s.nextBatch, shortage := g.s.shortage)
    ensures var r := s.objs[t]; var a := AdmitPrompt(c, g, t, r, raised);
      && (a.again <==> Room(c, s, r.prompt))
      && (a.again ==> a.g.s.waiting == g.s.waiting && (t in a.g.s.running || t !in a.g.s.objs))
      && (!a.again ==> a.g.s.waiting == [t] + g.s.waiting)
  {
    hide Core, BuildWork, ReleaseTable, Enlist, LookupPrefix, ChainHashes, BlockPrefixes, Room, AllocateKv, BlocksFor,
        EraseRequest;
    var r := s.objs[t];
    RoomGranted(c, s, out, r.prompt);
    var n := Wanted(c, s, r.prompt);
    var k := TakeBlocks(Looked(c, g.s, r.prompt), n);
    var k' := TakeBlocks(Looked(c, s, r.prompt), n);
    assert Looked(c, g.s, r.prompt).blocks == Looked(c, s, r.prompt).blocks;
    var hit := HitTable(c, g.s, r.prompt);
    NothingToMove(k.s.(blocks := ReleaseTable(k.s.blocks, hit)));
    var s2 := k.s.(accepting := k.s.accepting && !raised);
    GrantedRuns(c, g, s2, t, r, |hit|, ParentOf(c, r.prompt, |hit|), hit + k.table);
  }

  lemma GrantedRuns(c: Config, g: Stage, s: Sched, t: Ticket, r: Request, hits: nat, parent: Hash, table: seq<BlockId>)
    ensures var a := AdmitGranted(c, g, s, t, r, hits, parent, table);
      a.again && a.g.s.waiting == s.waiting && (t in a.g.s.running || t !in a.g.s.objs)
  {
    hide BuildWork, ReleaseTable, Admitted, Soiled, StartOf, PrefixOf;
  }

  lemma HeadKnown(s: Sched)
    requires Queued(s, {}) && Sequenced(s) && s.waiting != []
    ensures s.waiting[0] in s.objs && NoDup(s.waiting) && s.objs[s.waiting[0]].sched.None?
  {
    assert s.waiting[0] in s.waiting;
  }

  /** When nothing runs, is preempted or in flight and the engine accepts requests, a scheduling step begins with
      the head of the waiting queue: it is answered or admitted exactly when it can never run, or the blocks its
      prompt still needs fit beside the lost and the cached ones. With nothing lost that is always so. */
  lemma HeadProgress(c: Config, steps: seq<Step>, raises: seq<Raise>)
    requires var y := Run(c, steps);
      c.Valid() && y.pc != Stopped && y.s.running == [] && y.s.skip == [] && y.s.waiting != [] && y.s.accepting
    requires raises == [] || !raises[0].head
    ensures Run(c, steps).s.waiting[0] in Run(c, steps).s.objs
    ensures var s := Run(c, steps).s; var t := s.waiting[0]; var check := raises != [] && raises[0].check;
      var a := AdmitWaiting(c, Opened(c, s), check);
      && ScheduleStep(c, s, raises).s ==
           (if a.again then AdmitLoop(c, a.g, if raises == [] then [] else raises[1..]) else a.g).s
      && (a.again <==> Hopeless(c, s.objs[t]) || Room(c, s, s.objs[t].prompt))
      && (a.again ==> t !in a.g.s.waiting && (t in a.g.s.running || t !in a.g.s.objs))
      && (!a.again ==> a.g.s.waiting != [] && a.g.s.waiting[0] == t)
      && (s.hist.leaked == {} ==> a.again)
  {
    hide Run, Core, AdmitLoop, AdmitWaiting, ScheduleStep, Room, Named, Distinct, Queued, Sequenced, NoDup;
    var s := Run(c, steps).s;
    RunSteady(c, steps);
    QueueDiscipline(c, steps);
    HeadKnown(s);
    OpenedFirst(c, s, raises);
    AdmitNext(c, Opened(c, s), raises);
    var check := raises != [] && raises[0].check;
    assert s.(accepting := s.accepting && !false) == s;
    HeadTaken(c, s, Run(c, steps).Out(), check);
    if s.hist.leaked == {} && !Hopeless(c, s.objs[s.waiting[0]]) {
      NothingLost(c, s, Run(c, steps).Out(), s.objs[s.waiting[0]].prompt);
    }
  }
}
