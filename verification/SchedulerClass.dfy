/**
 The scheduler as an object. Every method performs in place what the function of the same operation
 in Scheduling computes on the whole state, so that everything proved about runs of those functions
 holds of the object.
 */
module SchedulerClass {
  import opened Types
  import opened Seqs
  import opened Blocks
  import opened Hashing
  import opened State
  import opened Scheduling
  import opened SchedulerLoops
  import opened Invariant
  import opened BlockClasses
  import BlockLemmas
  import opened BookLemmas
  import opened BuildLemmas
  import opened AdmitLemmas
  import opened RetireLemmas
  import opened CoreLemmas
  import opened Protocol
  import opened StepLemmas
  import opened Engine
  import opened Marks
  import EngineInvariant
  import VictimLemmas

  /** Making room after a shortage. */
  lemma SteadyRelief(c: Config, s: Sched, out: seq<WorkItem>)
    requires Steady(c, s, out)
    ensures Steady(c, if s.shortage then MakeRoom(s.(shortage := false)) else s, out)
  {
    hide Core, MakeRoom;
    if s.shortage {
      CoreQuiet(c, s, s.(shortage := false), out, {}, multiset{});
      CoreMakeRoom(c, s.(shortage := false), out, {}, multiset{});
    }
  }

  lemma ZipNext(x: WorkItem, items: seq<WorkItem>, r: ItemResult, results: seq<ItemResult>, ms: seq<Mark>)
    requires ResultOk(x, r)
    ensures r.seqId == x.seqId
    ensures ZipMarks([x] + items, [r] + results) + ms == [Mark(x, VerdictOf(r))] + (ZipMarks(items, results) + ms)
  {
    hide VerdictOf;
    assert ([x] + items)[1..] == items && ([r] + results)[1..] == results;
  }

  /** The batch a scheduling step is building. */
  class BatchContext {
    var items: seq<WorkItem>
    var budget: nat

    constructor (budget: nat)
      ensures this.items == [] && this.budget == budget
    {
      this.items, this.budget := [], budget;
    }
  }

  class Scheduler {
    const c: Config
    const cache: BlockCache
    var objs: map<Ticket, Request>
    var registry: map<string, Ticket>
    var waiting: seq<Ticket>
    var skip: seq<Ticket>
    var running: seq<Ticket>
    var bySeq: map<SeqId, Ticket>
    var paused: bool
    var shortage: bool
    var accepting: bool
    var nextSeq: SeqId
    var nextBatch: nat
    var nextTicket: Ticket
    var log: map<Ticket, seq<Event>>
    ghost var hist: History

    /** The objects that hold the blocks. */
    ghost function Shelf(): set<object> {
      {cache, cache.pool, cache.pool.refs, cache.pool.inUse}
    }

    ghost function Repr(): set<object> {
      {this} + Shelf()
    }

    ghost function View(): Sched
      reads Repr()
    {
      Sched(cache.View(), objs, registry, waiting, skip, running, bySeq, paused, shortage, accepting,
            nextSeq, nextBatch, nextTicket, log, hist)
    }

    ghost function StageOf(ctx: BatchContext): Stage
      reads Repr(), ctx
    {
      Stage(View(), ctx.items, ctx.budget)
    }

    constructor (c: Config)
      ensures this.c == c && View() == Initial(c) && fresh(Shelf())
    {
      this.c := c;
      var pool := new BlockPool(c.maxBlocks);
      cache := new BlockCache(pool);
      objs, registry, bySeq, log := map[], map[], map[], map[];
      waiting, skip, running := [], [], [];
      paused, shortage, accepting := false, false, false;
      nextSeq, nextBatch, nextTicket := 1, 1, 0;
      hist := NO_HISTORY;
    }

    /** The request behind a ticket. */
    function Req(t: Ticket): (r: Request)
      reads this
    {
      if t in objs then objs[t] else BLANK
    }

    // ---------------------------------------------------------------- events

    method SendEvent(t: Ticket, e: Event) returns (sent: bool)
      modifies this`log
      ensures View() == Send(old(View()), t, e) && sent == Req(t).open
    {
      sent := Req(t).open;
      if sent {
        log := log[t := (if t in log then log[t] else []) + [e]];
      }
    }

    method SendTokenEvent(t: Ticket)
      modifies this`log, this`objs
      ensures View() == SendToken(old(View()), t)
    {
      var r := Req(t);
      var sent := SendEvent(t, TokenEvent(Last(r.generated, 0), r.status == Finished));
      if !sent && r.status == Active {
        objs := objs[t := r.(status := Cancelled)];
      }
    }

    method SendTerminalEvent(t: Ticket)
      modifies this`log, this`objs
      ensures View() == SendDone(old(View()), t)
    {
      objs := objs[t := Req(t).(status := Finished)];
      var _ := SendEvent(t, DoneEvent);
    }

    method SendErrorEvent(t: Ticket, e: ErrorCode)
      modifies this`log, this`objs
      ensures View() == SendError(old(View()), t, e)
    {
      objs := objs[t := Req(t).(status := Failed)];
      var _ := SendEvent(t, ErrorEvent(e));
    }

    // ---------------------------------------------------------------- submission and cancellation

    method RefuseRequest(open: bool, e: ErrorCode)
      modifies Repr()
      ensures View() == Refuse(old(View()), open, e)
    {
      log := log[nextTicket := if open then [ErrorEvent(e)] else []];
      hist := if open then hist else Excuse(hist, nextTicket);
      nextTicket := nextTicket + 1;
    }

    method AcceptRequest(r: Request)
      modifies Repr()
      ensures View() == Accept(old(View()), r)
    {
      hide Excuse;
      var t := nextTicket;
      Enter(t, r);
      nextTicket := t + 1;
      log := log[t := []];
      hist := if r.open then hist else Excuse(hist, t);
    }

    method Enter(t: Ticket, r: Request)
      modifies this`objs, this`registry, this`waiting
      ensures View() == old(View()).(objs := old(objs)[t := r], registry := old(registry)[r.id := t],
          waiting := old(waiting) + [t])
    {
      objs := objs[t := r];
      registry := registry[r.id := t];
      waiting := waiting + [t];
    }

    method SubmitRequest(id: string, prompt: seq<Token>, maxTokens: int, maxContext: int, open: bool)
      modifies Repr()
      ensures View() == Submit(c, old(View()), id, prompt, maxTokens, maxContext, open)
    {
      hide Refuse, Accept;
      if !accepting {
        RefuseRequest(open, ServerShuttingDown);
      } else if id in registry {
        RefuseRequest(open, InvalidArgument);
      } else if |waiting| >= c.maxPending {
        RefuseRequest(open, RequestQueueFull);
      } else {
        var limit := if maxContext <= 0 then c.defaultContext else maxContext;
        AcceptRequest(Request(id, prompt, prompt, Active, [], maxTokens, limit, open, None));
      }
    }

    method CancelRequest(id: string)
      modifies this`objs, this`hist
      ensures View() == Cancel(old(View()), id)
    {
      if id in registry {
        var t := registry[id];
        hist := Excuse(hist, t);
        if Req(t).status == Active {
          objs := objs[t := Req(t).(status := Cancelled)];
        }
      }
    }

    /** The receiving end of a request's event channel is closed. */
    method CloseChannel(t: Ticket)
      modifies this`objs, this`hist
      ensures View() == Hangup(old(View()), t)
    {
      if t < nextTicket { hist := Excuse(hist, t); }
      if t in objs { objs := objs[t := objs[t].(open := false)]; }
    }

    // ---------------------------------------------------------------- blocks and bookkeeping

    method TakeKvBlocks(n: nat) returns (table: seq<BlockId>, ok: bool)
      requires Valid(cache.View())
      modifies Shelf(), this`hist
      ensures var g := TakeBlocks(old(View()), n); View() == g.s && table == g.table && ok == g.ok
      ensures Valid(cache.View())
    {
      hide AllocateKv, Leak, Valid;
      cache.PoolValid();
      ghost var g := AllocateKv(cache.View(), n);
      table, ok := cache.AllocateKvBlocks(n);
      if !ok { hist := Leak(hist, g.taken); }
    }

    method ReleaseSchedulingBlocks(t: Ticket)
      requires Valid(cache.View()) && Freeable(View(), t)
      modifies Shelf(), this`bySeq, this`objs
      ensures View() == ReleaseScheduling(old(View()), t)
    {
      hide ReleaseTable, Valid, BlockLemmas.Releasable;
      var r := Req(t);
      if r.sched.None? { return; }
      bySeq := bySeq - {r.sched.value.seqId};
      cache.PoolValid();
      cache.ReleaseRequestBlocks(r.sched.value.table);
      objs := objs[t := r.(sched := None)];
    }

    method Erase(t: Ticket)
      modifies this`registry, this`objs, this`hist
      ensures View() == EraseRequest(old(View()), t)
    {
      hist := Farewell(View(), t);
      registry := registry - {Req(t).id};
      objs := objs - {t};
    }

    method DismissRequest(t: Ticket, e: Event)
      requires Valid(cache.View()) && Freeable(View(), t)
      modifies Repr()
      ensures View() == Dismiss(old(View()), t, e)
    {
      hide ReleaseScheduling, Send, EraseRequest;
      ReleaseSchedulingBlocks(t);
      var _ := SendEvent(t, e);
      Erase(t);
    }

    method PrepareRequestForWait(t: Ticket)
      modifies this`objs
      ensures View() == Put(old(View()), t, PrepareForWait(Get(old(View()), t)))
    {
      var r := Req(t);
      if r.generated == [] {
        objs := objs[t := r];
      } else {
        objs := objs[t := r.(prompt := r.initial + r.generated[..|r.generated| - 1])];
      }
    }

    /** Takes a request out of the running list, searching from the front. */
    method EraseRunning(t: Ticket)
      modifies this`running
      ensures View() == old(View()).(running := DropTicket(old(running), t))
    {
      var i := 0;
      assert running[0..] == running;
      while i < |running| && running[i] != t
        invariant 0 <= i <= |running|
        invariant DropTicket(running, t) == running[..i] + DropTicket(running[i..], t)
      {
        assert running[i..][1..] == running[i + 1..];
        assert running[..i + 1] == running[..i] + [running[i]];
        i := i + 1;
      }
      if i < |running| {
        assert running[i..][1..] == running[i + 1..];
        running := running[..i] + running[i + 1..];
      } else {
        assert running[..i] == running;
      }
    }

    // ---------------------------------------------------------------- building work

    /** Puts an item into the batch and its claims into the reservation. */
    method Issue(ctx: BatchContext, t: Ticket, r: Request, q: Sequence, item: WorkItem, cost: nat)
      requires cost <= ctx.budget
      modifies this`objs, ctx
      ensures StageOf(ctx) == Stage(Put(old(View()), t, r.(sched := Some(Reserve(q, item)))),
                                    old(ctx.items) + [item], old(ctx.budget) - cost)
    {
      hide Reserve;
      ctx.items := ctx.items + [item];
      ctx.budget := ctx.budget - cost;
      objs := objs[t := r.(sched := Some(Reserve(q, item)))];
    }

    /** The next chunk of the prompt within the budget. */
    method CutChunk(r: Request, q: Sequence, budget: nat) returns (item: WorkItem)
      requires q.cursor + q.res.prompt < |r.prompt|
      ensures item == NextChunk(c, r, q, budget)
    {
      var start := q.cursor + q.res.prompt;
      var len := |r.prompt| - start;
      if c.maxSeqPrefill > 0 && c.maxSeqPrefill < len { len := c.maxSeqPrefill; }
      if budget < len { len := budget; }
      var final := start + len >= |r.prompt|;
      var replay := q.phase == ReplayPrefill;
      item := PrefillChunk(q.seqId, start, q.frontier + q.res.kv, final && !(replay && r.generated != []),
                           r.prompt[start..start + len], q.table);
    }

    method BuildPrefillWork(ctx: BatchContext, t: Ticket)
      requires Req(t).sched.Some?
      modifies this`objs, this`hist, ctx
      ensures StageOf(ctx) == BuildPrefill(c, old(StageOf(ctx)), t, old(Req(t)), old(Req(t)).sched.value)
    {
      hide NextChunk, Reserve;
      var r := Req(t);
      var q := r.sched.value;
      if q.cursor + q.res.prompt >= |r.prompt| { return; }
      var item := CutChunk(r, q, ctx.budget);
      ChunkFits(c, r, q, ctx.budget);
      Issue(ctx, t, r, q, item, |item.tokens|);
    }

    method BuildDecodeWork(ctx: BatchContext, t: Ticket)
      requires Valid(cache.View())
      requires Req(t).sched.Some? && ctx.budget > 0
      modifies Repr(), ctx
      ensures StageOf(ctx) == BuildDecode(c, old(StageOf(ctx)), t, old(Req(t)), old(Req(t)).sched.value)
      ensures Valid(cache.View())
    {
      hide SendDone, TakeDecode;
      var r := Req(t);
      var q := r.sched.value;
      if |r.generated| + q.res.gen >= r.maxTokens { return; }
      if q.phase == Bootstrap && q.res.gen > 0 { return; }
      var committed := |r.prompt| + |r.generated| - q.genInPrompt;
      if committed + q.res.gen >= r.maxContext {
        if q.res.gen == 0 { SendTerminalEvent(t); }
        return;
      }
      TakeDecodeWork(ctx, t, r, q);
    }

    /** Allocates the missing block, if any, and issues one decode step. */
    method TakeDecodeWork(ctx: BatchContext, t: Ticket, r: Request, q: Sequence)
      requires Valid(cache.View())
      requires ctx.budget > 0
      modifies Repr(), ctx
      ensures StageOf(ctx) == TakeDecode(c, old(StageOf(ctx)), t, r, q)
      ensures Valid(cache.View())
    {
      hide TakeBlocks, BlocksFor, Reserve;
      var boot := q.phase == Bootstrap;
      var required := BlocksFor(c, q.frontier + q.res.kv + if boot then 0 else 1);
      var missing := if required > |q.table| then required - |q.table| else 0;
      assert missing == MissingBlocks(c, q);
      var more, ok := TakeKvBlocks(missing);
      if !ok {
        shortage := true;
        return;
      }
      var q1 := q.(table := q.table + more);
      var item := DecodeOneToken(q.seqId, if boot then Last(r.prompt, 0)
          else 0, q.frontier + q.res.kv, !boot, !boot, q1.table);
      assert item == NextDecode(r, q1);
      Issue(ctx, t, r, q1, item, 1);
    }

    method BuildStateWork(ctx: BatchContext, t: Ticket)
      requires Valid(cache.View())
      modifies Repr(), ctx
      ensures StageOf(ctx) == BuildWork(c, old(StageOf(ctx)), t)
      ensures Valid(cache.View())
    {
      hide SendDone, BuildPrefill, BuildDecode;
      var r := Req(t);
      if r.sched.None? || ctx.budget == 0 || r.status != Active { return; }
      if |r.generated| >= r.maxTokens {
        SendTerminalEvent(t);
      } else if IsPrefill(r.sched.value.phase) {
        BuildPrefillWork(ctx, t);
      } else {
        BuildDecodeWork(ctx, t);
      }
    }

    method BuildRunningBatch(ctx: BatchContext)
      requires Valid(cache.View())
      modifies Repr(), ctx
      ensures StageOf(ctx) == BuildAll(c, old(StageOf(ctx)), old(running))
    {
      hide BuildWork;
      var ts := running;
      var i := 0;
      assert ts[0..] == ts;
      while i < |ts| && ctx.budget > 0
        invariant 0 <= i <= |ts|
        invariant Valid(cache.View())
        invariant BuildAll(c, StageOf(ctx), ts[i..]) == BuildAll(c, old(StageOf(ctx)), ts)
      {
        assert ts[i..][0] == ts[i] && ts[i..][1..] == ts[i + 1..];
        BuildStateWork(ctx, ts[i]);
        i := i + 1;
      }
    }

    // ---------------------------------------------------------------- making room

    /** Folds the generated tokens into the prompt and gives the blocks back. */
    method Park(t: Ticket)
      requires Valid(cache.View()) && Freeable(View(), t)
      modifies Shelf(), this`bySeq, this`objs
      ensures View() == ReleaseScheduling(Put(old(View()), t, PrepareForWait(Get(old(View()), t))), t)
    {
      hide ReleaseScheduling, PrepareForWait, Valid, BlockLemmas.Releasable;
      PreparedKeeps(Req(t));
      PrepareRequestForWait(t);
      ReleaseSchedulingBlocks(t);
    }

    method EvictOneSkipped() returns (made: bool)
      requires Payable(View())
      modifies Repr()
      ensures var e := EvictSkipped(old(View())); View() == e.s && made == e.made
    {
      hide ReleaseScheduling, PrepareForWait, Put, Payable, Valid, BlockLemmas.Releasable;
      if skip == [] { return false; }
      var t := skip[0];
      PayableAt(View(), t);
      skip := skip[1..];
      if Req(t).sched.Some? { Park(t); }
      waiting := [t] + waiting;
      made := true;
    }

    /** The movable running sequence of one kind with the fewest blocks, scanning from the back. */
    method FindSmallestRunning(prefill: bool) returns (best: Option<Ticket>)
      ensures best == FindSmallest(View(), running, prefill, None)
      ensures match best
              case None => VictimLemmas.NoneOf(View(), running, prefill)
              case Some(t) => VictimLemmas.Least(View(), running, prefill, t)
    {
      VictimLemmas.SmallestLeast(View(), prefill);
      best := None;
      var i := |running|;
      assert running[..i] == running;
      while i > 0
        invariant 0 <= i <= |running|
        invariant FindSmallest(View(), running[..i], prefill, best) == FindSmallest(View(), running, prefill, None)
      {
        assert running[..i][..i - 1] == running[..i - 1];
        i := i - 1;
        var r := Req(running[i]);
        if r.sched.Some? && IsPrefill(r.sched.value.phase) == prefill && r.status == Active
            && r.sched.value.res.leases == 0 {
          if best.None? || |r.sched.value.table| < BlocksHeld(best.value) {
            best := Some(running[i]);
          }
        }
      }
    }

    function BlocksHeld(t: Ticket): nat
      reads this
    {
      if Req(t).sched.Some? then |Req(t).sched.value.table| else 0
    }

    method SuspendOneRunning() returns (made: bool)
      requires Payable(View())
      modifies Repr()
      ensures var e := SuspendRunning(old(View())); View() == e.s && made == e.made
      ensures made <==> exists t :: t in old(running) && Movable(old(View()), t)
      ensures made ==> waiting != [] && VictimLemmas.Victim(old(View()), waiting[0])
    {
      hide ReleaseScheduling, PrepareForWait, FindSmallest, DropTicket, Put, Payable, Valid, BlockLemmas.Releasable;
      hide VictimLemmas.Victim, VictimLemmas.NoneOf, VictimLemmas.Least, Movable, Get;
      VictimLemmas.SuspendsVictim(View());
      var v := FindSmallestRunning(true);
      if v.None? { v := FindSmallestRunning(false); }
      assert v == FindVictim(View());
      if v.None? { return false; }
      PayableAt(View(), v.value);
      Park(v.value);
      EraseRunning(v.value);
      waiting := [v.value] + waiting;
      paused := running != [];
      made := true;
    }

    method FreeSomeBlocks()
      requires Payable(View())
      modifies Repr()
      ensures View() == MakeRoom(old(View()))
    {
      hide EvictSkipped, SuspendRunning;
      var made := EvictOneSkipped();
      NoRoom(old(View()));
      if !made { var _ := SuspendOneRunning(); }
    }

    // ---------------------------------------------------------------- admission

    method AdmitOneSkipped(ctx: BatchContext, raised: bool) returns (again: bool)
      requires Payable(View())
      modifies Repr(), ctx
      ensures var a := AdmitSkipped(c, old(StageOf(ctx)), raised); StageOf(ctx) == a.g && again == a.again
    {
      hide AdmitSkipped, SkippedTaken, Payable;
      SkippedForm(c, StageOf(ctx), raised);
      if ctx.budget == 0 || skip == [] || |running| >= c.maxRunning { return false; }
      var t := skip[0];
      ghost var s := View();
      skip := skip[1..];
      PayableSame(s, View());
      again := TakeSkipped(ctx, t, raised);
    }

    /** A request that has just left the queue of preempted ones. */
    method TakeSkipped(ctx: BatchContext, t: Ticket, raised: bool) returns (again: bool)
      requires Payable(View())
      modifies Repr(), ctx
      ensures var a := SkippedTaken(c, old(StageOf(ctx)), t, raised); StageOf(ctx) == a.g && again == a.again
    {
      hide Dismiss, Payable, Valid, Freeable, AdmitResumed;
      PayableAt(View(), t);
      var r := Req(t);
      if r.status == Cancelled || r.maxTokens <= 0 {
        DismissRequest(t, if r.status == Cancelled then ErrorEvent(RequestCancelled) else DoneEvent);
      } else if r.sched.None? {
        waiting := [t] + waiting;
        return false;
      } else {
        ResumeSkipped(ctx, t, raised);
      }
      again := true;
    }

    method ResumeSkipped(ctx: BatchContext, t: Ticket, raised: bool)
      requires Valid(cache.View()) && Freeable(View(), t) && Req(t).sched.Some?
      modifies Repr(), ctx
      ensures StageOf(ctx) == AdmitResumed(c, old(StageOf(ctx)), t, raised)
    {
      hide Dismiss, ReleaseScheduling, SendDone, EraseRequest, BuildWork, Valid, BlockLemmas.Releasable;
      var r := Req(t);
      accepting := accepting && !raised;
      if !accepting {
        DismissRequest(t, ErrorEvent(ServerShuttingDown));
      } else if |r.generated| >= r.maxTokens {
        FinishRequest(t);
      } else {
        Resume(ctx, t, r.sched.value.seqId);
      }
    }

    method FinishRequest(t: Ticket)
      requires Valid(cache.View()) && Freeable(View(), t)
      modifies Repr()
      ensures View() == EraseRequest(SendDone(ReleaseScheduling(old(View()), t), t), t)
    {
      hide ReleaseScheduling, SendDone, EraseRequest, Valid, Freeable;
      ReleaseSchedulingBlocks(t);
      SendTerminalEvent(t);
      Erase(t);
    }

    /** A preempted sequence runs again. */
    method Resume(ctx: BatchContext, t: Ticket, q: SeqId)
      requires Valid(cache.View())
      modifies Repr(), ctx
      ensures StageOf(ctx) == BuildWork(c, old(StageOf(ctx)).(s := old(View()).(bySeq := old(bySeq)[q := t],
          running := old(running) + [t])), t)
    {
      hide BuildWork;
      bySeq := bySeq[q := t];
      running := running + [t];
      BuildStateWork(ctx, t);
    }

    /** Looks the prompt up; the blocks found are retained. */
    method LookUp(prompt: seq<Token>) returns (table: seq<BlockId>, parent: Hash)
      requires Valid(cache.View()) && c.blockSize > 0
      modifies Shelf(), this`hist
      ensures View() == Looked(c, old(View()), prompt) && table == HitTable(c, old(View()), prompt)
      ensures parent == ParentOf(c, prompt, |table|)
    {
      hide LookupPrefix, ChainHashes, BlockPrefixes, Valid;
      cache.PoolValid();
      table, parent := cache.LookupPrefixCache(c, prompt, 0);
      hist := hist.(hashed := hist.hashed + BlockPrefixes(c, prompt));
    }

    method GiveBack(table: seq<BlockId>)
      requires Valid(cache.View()) && BlockLemmas.Releasable(cache.View(), table)
      modifies Shelf()
      ensures View() == old(View()).(blocks := ReleaseTable(old(cache.View()), table))
    {
      hide ReleaseTable, Valid, BlockLemmas.Releasable;
      cache.PoolValid();
      cache.ReleaseRequestBlocks(table);
    }

    method NewSequence(r: Request, hits: nat, parent: Hash, table: seq<BlockId>) returns (q: Sequence)
      ensures q == Admitted(c, View(), r, hits, parent, table)
    {
      hide Cap;
      var frontier := Cap(c, hits);
      var cold := r.generated == [];
      var cursor, phase := 0, Prefill;
      if 0 < frontier < |r.prompt| {
        cursor := frontier;
        phase := if cold then Prefill else ReplayPrefill;
      } else if frontier >= |r.prompt| {
        cursor := |r.prompt|;
        phase := if cold then Bootstrap else Decode;
      }
      q := Sequence(nextSeq, NO_RESERVATION, phase, cursor, if cold then 0
          else |r.generated| - 1, table, frontier, parent, []);
    }

    method Place(t: Ticket, r: Request, q: Sequence)
      modifies this`objs, this`bySeq, this`running
      ensures View() == old(View()).(objs := old(objs)[t := r.(sched := Some(q))], bySeq := old(bySeq)[q.seqId := t],
          running := old(running) + [t])
    {
      objs := objs[t := r.(sched := Some(q))];
      bySeq := bySeq[q.seqId := t];
      running := running + [t];
    }

    method EnlistRequest(t: Ticket, r: Request, hits: nat, parent: Hash, table: seq<BlockId>)
      modifies Repr()
      ensures View() == Enlist(c, old(View()), t, r, hits, parent, table) && cache.View() == old(cache.View())
    {
      hide Admitted, PrefixOf;
      var q := NewSequence(r, hits, parent, table);
      Place(t, r, q);
      nextSeq := nextSeq + 1;
      hist := Enlist(c, old(View()), t, r, hits, parent, table).hist;
    }

    method RebuffRequest(t: Ticket, table: seq<BlockId>, ghost out: seq<WorkItem>)
      requires Core(c, View(), out, {t}, multiset(table))
      modifies Repr()
      ensures View() == Rebuff(old(View()), t, table)
    {
      hide MakeRoom, ReleaseTable, Core, Payable, Accounted, Valid, BlockLemmas.Releasable;
      CoreBooks(c, View(), out, {t}, multiset(table));
      HeldReleasable(c, View(), table);
      CoreReleaseHeld(c, View(), out, {t}, table);
      CoreValid(c, View(), out, {t}, multiset(table));
      GiveBack(table);
      CoreBooks(c, View(), out, {t}, multiset{});
      FreeSomeBlocks();
      shortage := false;
      waiting := [t] + waiting;
    }

    method TurnAwayRequest(t: Ticket, table: seq<BlockId>)
      requires Valid(cache.View()) && BlockLemmas.Releasable(cache.View(), table)
      modifies Repr()
      ensures View() == TurnAway(old(View()), t, table)
    {
      hide ReleaseTable, Send, EraseRequest;
      GiveBack(table);
      var _ := SendEvent(t, ErrorEvent(ServerShuttingDown));
      Erase(t);
    }

    method AdmitWithBlocks(ctx: BatchContext, t: Ticket, r: Request, hits: nat, parent: Hash, table: seq<BlockId>)
      requires Valid(cache.View()) && BlockLemmas.Releasable(cache.View(), table)
      modifies Repr(), ctx
      ensures AdmitGranted(c, old(StageOf(ctx)), old(View()), t, r, hits, parent, table) ==
          Admission(StageOf(ctx), true)
    {
      hide TurnAway, Enlist, BuildWork;
      if !accepting {
        TurnAwayRequest(t, table);
      } else {
        EnlistRequest(t, r, hits, parent, table);
        BuildStateWork(ctx, t);
      }
    }

    /** The cached blocks of a prompt, and fresh ones for the rest of it. */
    method ProvidePrompt(t: Ticket, prompt: seq<Token>, ghost out: seq<WorkItem>)
      returns (hit: seq<BlockId>, parent: Hash, more: seq<BlockId>, ok: bool)
      requires Core(c, View(), out, {t}, multiset{})
      modifies Shelf(), this`hist
      ensures hit == HitTable(c, old(View()), prompt) && parent == ParentOf(c, prompt, |hit|)
      ensures var g := TakeBlocks(Looked(c, old(View()), prompt), Sub(BlocksFor(c, |prompt|), |hit|));
        View() == g.s && more == g.table && ok == g.ok
      ensures Core(c, View(), out, {t}, multiset(hit + more)) && (!ok ==> more == [])
    {
      hide Looked, HitTable, ParentOf, TakeBlocks, BlocksFor, Core, Valid;
      CoreValid(c, View(), out, {t}, multiset{});
      CoreLooked(c, View(), out, t, prompt);
      hit, parent := LookUp(prompt);
      var need := Sub(BlocksFor(c, |prompt|), |hit|);
      CoreValid(c, View(), out, {t}, multiset(hit));
      CoreTake(c, View(), out, {t}, multiset(hit), need);
      more, ok := TakeKvBlocks(need);
      assert multiset(hit) + multiset(more) == multiset(hit + more);
    }

    method AdmitOnePrompt(ctx: BatchContext, t: Ticket, r: Request, raised: bool, ghost out: seq<WorkItem>)
      returns (again: bool)
      requires Core(c, View(), out, {t}, multiset{})
      modifies Repr(), ctx
      ensures var a := AdmitPrompt(c, old(StageOf(ctx)), t, r, raised); StageOf(ctx) == a.g && again == a.again
    {
      hide Looked, HitTable, ParentOf, TakeBlocks, Rebuff, AdmitGranted, BlocksFor, Sub;
      hide Core, Payable, Valid, Accounted, BlockLemmas.Releasable;
      var hit, parent, more, ok := ProvidePrompt(t, r.prompt, out);
      if !ok {
        assert hit + more == hit;
        RebuffRequest(t, hit, out);
        return false;
      }
      CoreValid(c, View(), out, {t}, multiset(hit + more));
      CoreBooks(c, View(), out, {t}, multiset(hit + more));
      HeldReleasable(c, View(), hit + more);
      accepting := accepting && !raised;
      AnyStage(c, old(StageOf(ctx)), StageOf(ctx), View(), t, r, |hit|, parent, hit + more);
      AdmitWithBlocks(ctx, t, r, |hit|, parent, hit + more);
      again := true;
    }

    method AdmitOneWaiting(ctx: BatchContext, raised: bool, ghost out: seq<WorkItem>) returns (again: bool)
      requires Steady(c, View(), out)
      modifies Repr(), ctx
      ensures var a := AdmitWaiting(c, old(StageOf(ctx)), raised); StageOf(ctx) == a.g && again == a.again
    {
      hide AdmitWaiting, WaitingTaken, Core;
      WaitingForm(c, StageOf(ctx), raised);
      if ctx.budget == 0 || waiting == [] || |running| >= c.maxRunning || |running| + |skip| >= c.maxSequences {
        return false;
      }
      var t := waiting[0];
      CorePopWaiting(c, View(), out, {}, multiset{});
      assert {} + {t} == {t};
      waiting := waiting[1..];
      again := TakeWaiting(ctx, t, raised, out);
    }

    /** A request that has just left the waiting queue. */
    method TakeWaiting(ctx: BatchContext, t: Ticket, raised: bool, ghost out: seq<WorkItem>) returns (again: bool)
      requires Core(c, View(), out, {t}, multiset{})
      modifies Repr(), ctx
      ensures var a := WaitingTaken(c, old(StageOf(ctx)), t, raised); StageOf(ctx) == a.g && again == a.again
    {
      hide Dismiss, AdmitPrompt, Core, Payable, Accounted, Valid, Freeable, Cap;
      CoreBooks(c, View(), out, {t}, multiset{});
      PayableAt(View(), t);
      var r := Req(t);
      if r.status == Cancelled || r.maxTokens <= 0 {
        DismissRequest(t, if r.status == Cancelled then ErrorEvent(RequestCancelled) else DoneEvent);
        again := true;
      } else if r.prompt == [] || |r.prompt| > r.maxContext || r.maxContext > Cap(c, c.maxBlocks) {
        DismissRequest(t, ErrorEvent(InvalidArgument));
        again := true;
      } else {
        again := AdmitOnePrompt(ctx, t, r, raised, out);
      }
    }

    /** Admits requests until something stops it; another thread may lower the flag meanwhile. */
    method Admit(ctx: BatchContext, raises: seq<Raise>, ghost base: seq<WorkItem>)
      requires Steady(c, View(), base + ctx.items)
      modifies Repr(), ctx
      ensures StageOf(ctx) == AdmitLoop(c, old(StageOf(ctx)), raises)
    {
      hide AdmitLoop, AdmitSkipped, AdmitWaiting, Core, Payable;
      ghost var goal := AdmitLoop(c, StageOf(ctx), raises);
      var later := raises;
      while true
        invariant AdmitLoop(c, StageOf(ctx), later) == goal && Steady(c, View(), base + ctx.items)
        decreases |skip| + |waiting|
      {
        var raise := if later == [] then Raise(false, false) else later[0];
        AdmitNext(c, StageOf(ctx), later);
        later := if later == [] then [] else later[1..];
        ghost var s := View();
        accepting := accepting && !raise.head;
        CoreQuiet(c, s, View(), base + ctx.items, {}, multiset{});
        CoreBooks(c, View(), base + ctx.items, {}, multiset{});
        if !accepting || paused || ctx.budget == 0 || |running| >= c.maxRunning
            || (skip == [] && waiting == []) { break; }
        if skip != [] {
          AdmitSkippedShrinks(c, StageOf(ctx), raise.check);
          CoreAdmitSkipped(c, StageOf(ctx), base, raise.check);
          var again := AdmitOneSkipped(ctx, raise.check);
          if again { continue; }
        }
        if waiting == [] { break; }
        AdmitWaitingShrinks(c, StageOf(ctx), raise.check);
        SteadyAdmitWaiting(c, StageOf(ctx), base, raise.check);
        var again := AdmitOneWaiting(ctx, raise.check, base + ctx.items);
        if !again { break; }
      }
    }

    /** Drops the work of sequences that lost their place. */
    method DropStaleWork(ctx: BatchContext)
      modifies ctx`items
      ensures ctx.items == KeepIndexed(bySeq, old(ctx.items))
    {
      var kept := [];
      var i := 0;
      assert ctx.items[0..] == ctx.items;
      while i < |ctx.items|
        invariant 0 <= i <= |ctx.items| && ctx.items == old(ctx.items)
        invariant kept + KeepIndexed(bySeq, ctx.items[i..]) == KeepIndexed(bySeq, ctx.items)
      {
        assert ctx.items[i..][1..] == ctx.items[i + 1..];
        if ctx.items[i].seqId in bySeq { kept := kept + [ctx.items[i]]; }
        i := i + 1;
      }
      ctx.items := kept;
    }

    method HandleShortage()
      requires Payable(View())
      modifies Repr()
      ensures View() == if old(shortage) then MakeRoom(old(View()).(shortage := false)) else old(View())
    {
      hide MakeRoom, Payable;
      if shortage {
        ghost var s := View();
        shortage := false;
        PayableSame(s, View());
        FreeSomeBlocks();
      }
    }

    /** Numbers the batch and answers the shortage of the last one. */
    method OpenBatch(ghost base: seq<WorkItem>)
      requires Steady(c, View(), base)
      modifies Repr()
      ensures var s := old(View()).(nextBatch := old(nextBatch) + 1);
        View() == if s.shortage then MakeRoom(s.(shortage := false)) else s
      ensures Steady(c, View(), base)
    {
      hide MakeRoom, Core, Payable;
      ghost var s := View();
      nextBatch := nextBatch + 1;
      CoreQuiet(c, s, View(), base, {}, multiset{});
      CoreBooks(c, View(), base, {}, multiset{});
      SteadyRelief(c, View(), base);
      HandleShortage();
    }

    /** Work for the running sequences first, then for those admitted. */
    method FillBatch(ctx: BatchContext, raises: seq<Raise>, ghost base: seq<WorkItem>)
      requires Steady(c, View(), base) && ctx.items == []
      modifies Repr(), ctx
      ensures StageOf(ctx) == AdmitLoop(c, BuildAll(c, old(StageOf(ctx)), old(running)), raises)
    {
      hide BuildAll, AdmitLoop, Core, Valid;
      assert base + [] == base;
      CoreValid(c, View(), base, {}, multiset{});
      SteadyBuildAll(c, StageOf(ctx), base, running);
      BuildRunningBatch(ctx);
      Admit(ctx, raises, base);
    }

    method NextBatch(raises: seq<Raise>, ghost base: seq<WorkItem>) returns (items: seq<WorkItem>)
      requires Steady(c, View(), base)
      modifies Repr()
      ensures var g := ScheduleStep(c, old(View()), raises); View() == g.s && items == g.items
    {
      hide MakeRoom, BuildAll, AdmitLoop, KeepIndexed, Core;
      OpenBatch(base);
      var ctx := new BatchContext(c.tokenBudget);
      FillBatch(ctx, raises, base);
      if paused { DropStaleWork(ctx); }
      items := ctx.items;
    }

    // ---------------------------------------------------------------- retirement

    /** Publishes the full blocks among the sequence's pending tokens. */
    method PublishFullBlocks(q0: Sequence, index: nat, ghost t: Ticket) returns (q: Sequence)
      requires c.blockSize > 0 && Accounted(c, View(), multiset{}) && Publishing(c, View(), t, q0, index)
      modifies Shelf(), this`hist
      ensures var p := PublishPending(c, old(View()), q0, index); View() == p.s && q == p.q
    {
      hide PublishStep, PublishPending, Accounted, Publishing;
      q := q0;
      var i: nat := index;
      while |q.pending| >= c.blockSize && i < |q.table|
        invariant Accounted(c, View(), multiset{}) && Publishing(c, View(), t, q, i)
        invariant PublishPending(c, View(), q, i) == PublishPending(c, old(View()), q0, index)
        decreases |q.pending|
      {
        PublishNext(c, View(), q, i);
        q := PublishOne(q, i, t);
        i := i + 1;
      }
      PublishNext(c, View(), q, i);
    }

    method PublishOne(q0: Sequence, i: nat, ghost t: Ticket) returns (q: Sequence)
      requires 0 < c.blockSize <= |q0.pending| && i < |q0.table|
      requires Accounted(c, View(), multiset{}) && Publishing(c, View(), t, q0, i)
      modifies Shelf(), this`hist
      ensures var p := PublishStep(c, old(View()), q0, i); View() == p.s && q == p.q
      ensures Accounted(c, View(), multiset{}) && Publishing(c, View(), t, q, i + 1)
    {
      hide Chain, Publish, Accounted, Publishing, Valid, TableOf;
      ghost var p := PublishStep(c, View(), q0, i);
      PublishBlock(c, View(), p.s, multiset{}, t, q0, i, p.q.parent);
      PublishTable(c, View(), t, q0, i);
      cache.PoolValid();
      var b := q0.table[i];
      hist := p.s.hist;
      var hash := cache.PublishFullBlock(c, q0.parent, q0.pending, b, 0);
      q := q0.(parent := hash, pending := q0.pending[c.blockSize..]);
    }

    method HashWrittenTokens(r: Request, q0: Sequence, item: WorkItem, ghost t: Ticket, ghost before: Sequence)
      returns (q: Sequence)
      requires Writable(c, View(), t, r, before, q0, item)
      modifies Shelf(), this`hist
      ensures var p := HashWritten(c, old(View()), r, q0, item); View() == p.s && q == p.q
    {
      hide PublishPending, Accounted, Hashed, Publishing;
      if KvCount(item) == 0 || c.blockSize == 0 { return q0; }
      FirstPublished(c, View(), t, r, before, q0, item);
      var index := (item.context - |q0.pending|) / c.blockSize;
      var written := [];
      if item.PrefillChunk? {
        written := item.tokens;
      } else if r.generated != [] {
        written := [Last(r.generated, 0)];
      }
      q := PublishFullBlocks(q0.(pending := q0.pending + written), index, t);
    }

    method DeliverResult(t: Ticket, r: Request, q: Sequence, result: ItemResult)
      modifies this`objs, this`log
      ensures View() == Deliver(old(View()), t, r, q, result)
    {
      hide SendToken, SendDone;
      var sampled := result.sampled != [];
      var generated, phase := r.generated, q.phase;
      if sampled {
        generated := generated + [result.sampled[0]];
        if phase == Bootstrap { phase := Decode; }
      }
      var finished := result.eos || |generated| >= r.maxTokens;
      objs := objs[t := r.(generated := generated, status := if finished then Finished
          else r.status, sched := Some(q.(phase := phase)))];
      if sampled {
        SendTokenEvent(t);
      } else if finished {
        SendTerminalEvent(t);
      }
    }

    method RetireReservationOf(t: Ticket, item: WorkItem)
      modifies this`objs
      ensures View() == Put(old(View()), t, RetireReservation(Get(old(View()), t), item))
    {
      objs := objs[t := RetireReservation(Req(t), item)];
    }

    method RetireActiveWork(t: Ticket, item: WorkItem, result: ItemResult, ghost before: Sequence)
      requires var r := Req(t); r.sched.Some? ==>
          Writable(c, View(), t, r, before, Advance(r, r.sched.value, item), item)
      modifies Repr()
      ensures View() == RetireActive(c, old(View()), t, item, result)
    {
      hide Advance, HashWritten, Deliver, Writable;
      var r := Req(t);
      if r.sched.None? { return; }
      var q := Advance(r, r.sched.value, item);
      if item.PrefillChunk? && q.cursor < |r.prompt| {
        objs := objs[t := r.(sched := Some(q))];
        return;
      }
      q := HashWrittenTokens(r, q, item, t, before);
      DeliverResult(t, r, q, result);
    }

    method RetireOne(item: WorkItem, result: ItemResult, ghost rest: seq<WorkItem>)
      requires Steady(c, View(), [item] + rest) && result.seqId == item.seqId
      modifies Repr()
      ensures View() == RetireWork(c, old(View()), item, result)
    {
      hide RetireReservation, RetireActive, Core, Writable;
      if result.seqId !in bySeq || Req(bySeq[result.seqId]).sched.None? { return; }
      var t := bySeq[result.seqId];
      ghost var before := Req(t).sched.value;
      RetireKeeps(Req(t), item);
      if Req(t).status == Active { HeadWritable(c, View(), item, rest, t); }
      RetireReservationOf(t, item);
      if result.stale || Req(t).status != Active { return; }
      RetireActiveWork(t, item, result, before);
    }

    method UpdateFromOutput(items: seq<WorkItem>, results: seq<ItemResult>,
                            ghost rest: seq<WorkItem>, ghost ms: seq<Mark>, ghost w: Worker)
      requires |results| == |items| && Steady(c, View(), items + rest) && Tidy(c, View())
      requires forall i | 0 <= i < |items| :: ResultOk(items[i], results[i])
      requires Shaped(View(), ZipMarks(items, results) + ms, w)
      modifies Repr()
      ensures View() == RetireAll(c, old(View()), items, results)
    {
      hide RetireWork, Core, Tidy, Shaped, ZipMarks, ResultOk;
      var i := 0;
      assert items[0..] == items && results[0..] == results;
      while i < |results|
        invariant 0 <= i <= |results|
        invariant Steady(c, View(), items[i..] + rest) && Tidy(c, View())
        invariant Shaped(View(), ZipMarks(items[i..], results[i..]) + ms, w)
        invariant RetireAll(c, View(), items[i..], results[i..]) == RetireAll(c, old(View()), items, results)
      {
        assert items[i..][1..] == items[i + 1..] && results[i..][1..] == results[i + 1..];
        assert items[i..] + rest == [items[i]] + (items[i + 1..] + rest);
        assert items[i..] == [items[i]] + items[i + 1..] && results[i..] == [results[i]] + results[i + 1..];
        ZipNext(items[i], items[i + 1..], results[i], results[i + 1..], ms);
        EngineInvariant.RetireOne(c, View(), items[i], results[i], items[i + 1..] + rest,
                                  ZipMarks(items[i + 1..], results[i + 1..]) + ms, w);
        RetireOne(items[i], results[i], items[i + 1..] + rest);
        i := i + 1;
      }
    }

    method FailOne(item: WorkItem, e: ErrorCode)
      modifies Repr()
      ensures View() == FailItem(old(View()), item, e)
    {
      hide RetireReservation, SendError, Put;
      if item.seqId !in bySeq { return; }
      var t := bySeq[item.seqId];
      RetireReservationOf(t, item);
      if Req(t).status == Active { SendErrorEvent(t, e); }
    }

    method FailWholeBatch(items: seq<WorkItem>, e: ErrorCode)
      modifies Repr()
      ensures View() == FailBatch(old(View()), items, e)
    {
      hide FailItem;
      var i := 0;
      assert items[0..] == items;
      while i < |items|
        invariant 0 <= i <= |items|
        invariant FailBatch(View(), items[i..], e) == FailBatch(old(View()), items, e)
      {
        assert items[i..][1..] == items[i + 1..];
        FailOne(items[i], e);
        i := i + 1;
      }
    }

    // ---------------------------------------------------------------- cleanup

    /** The running requests that are over and have nothing in flight. */
    method CollectSpent() returns (spent: seq<Ticket>)
      ensures spent == SpentOf(View(), running)
    {
      hide Spent;
      spent := [];
      var i := 0;
      assert running[0..] == running;
      while i < |running|
        invariant 0 <= i <= |running|
        invariant spent + SpentOf(View(), running[i..]) == SpentOf(View(), running)
      {
        assert running[i..][1..] == running[i + 1..];
        var over := IsSpent(running[i]);
        if over { spent := spent + [running[i]]; }
        i := i + 1;
      }
    }

    method IsSpent(t: Ticket) returns (over: bool)
      ensures over == Spent(View(), t)
    {
      var r := Req(t);
      over := r.sched.Some? && r.status != Active && r.sched.value.res.leases == 0;
    }

    method ReapOne(t: Ticket)
      requires Valid(cache.View()) && Freeable(View(), t)
      modifies Repr()
      ensures View() == Reap(old(View()), t)
    {
      hide ReleaseScheduling, EraseRequest, DropTicket;
      ReleaseSchedulingBlocks(t);
      EraseRunning(t);
      paused := false;
      Erase(t);
    }

    method ReapSpent()
      requires Balanced(c, View())
      requires NoDup(running)
      modifies Repr()
      ensures View() == ReapAll(old(View()), old(running))
      ensures Balanced(c, View())
    {
      hide Reap, ReapAll, ReapEach, SpentOf, Balanced, Payable, Freeable, Valid;
      var spent := CollectSpent();
      SpentFirst(View(), running);
      var i := 0;
      assert spent[0..] == spent;
      while i < |spent|
        invariant 0 <= i <= |spent|
        invariant Balanced(c, View())
        invariant ReapEach(View(), spent[i..]) == ReapEach(old(View()), spent)
      {
        ReapNext(View(), spent[i], spent[i + 1..]);
        assert spent[i..] == [spent[i]] + spent[i + 1..];
        BalancedPayable(c, View());
        PayableAt(View(), spent[i]);
        BalancedReap(c, View(), spent[i]);
        ReapOne(spent[i]);
        i := i + 1;
      }
      ReapNone(View());
      assert spent[i..] == [];
    }

    /** Keeps the active requests of a queue; the others are released and forgotten. */
    method CleanupTerminalQueue(queue: seq<Ticket>) returns (active: seq<Ticket>)
      requires Balanced(c, View())
      modifies Repr()
      ensures var w := Sweep(old(View()), queue); View() == w.s && active == w.kept
      ensures Balanced(c, View())
    {
      hide Sweep, EraseRequest, ReleaseScheduling, Balanced, Payable, Freeable, Valid;
      active := [];
      var i := 0;
      assert queue[0..] == queue;
      while i < |queue|
        invariant 0 <= i <= |queue|
        invariant Balanced(c, View())
        invariant var w := Sweep(View(), queue[i..]);
          Swept(w.s, active + w.kept) == Sweep(old(View()), queue)
      {
        SweepNext(View(), queue[i], queue[i + 1..]);
        assert queue[i..] == [queue[i]] + queue[i + 1..];
        if Req(queue[i]).status == Active {
          active := active + [queue[i]];
        } else {
          BalancedPayable(c, View());
          PayableAt(View(), queue[i]);
          BalancedForget(c, View(), queue[i]);
          Forget(queue[i]);
        }
        i := i + 1;
      }
      SweepNone(View());
      assert queue[i..] == [];
    }

    method Forget(t: Ticket)
      requires Valid(cache.View()) && Freeable(View(), t)
      modifies Repr()
      ensures View() == EraseRequest(ReleaseScheduling(old(View()), t), t)
    {
      hide EraseRequest, ReleaseScheduling;
      ReleaseSchedulingBlocks(t);
      Erase(t);
    }

    method CleanupTerminalRequests()
      requires Balanced(c, View())
      requires NoDup(running)
      modifies Repr()
      ensures View() == CleanupTerminal(old(View()))
    {
      hide ReapAll, Sweep, Balanced;
      ReapSpent();
      CleanupSkipped();
      CleanupWaiting();
    }

    method CleanupSkipped()
      requires Balanced(c, View())
      modifies Repr()
      ensures var w := Sweep(old(View()).(skip := []), old(skip)); View() == w.s.(skip := w.kept)
      ensures Balanced(c, View())
    {
      hide Sweep, Balanced;
      var queue := skip;
      ghost var s := View();
      skip := [];
      BalancedQueues(c, s, View());
      var kept := CleanupTerminalQueue(queue);
      ghost var s1 := View();
      skip := kept;
      BalancedQueues(c, s1, View());
    }

    method CleanupWaiting()
      requires Balanced(c, View())
      modifies Repr()
      ensures var w := Sweep(old(View()).(waiting := []), old(waiting)); View() == w.s.(waiting := w.kept)
    {
      hide Sweep, Balanced;
      var queue := waiting;
      ghost var s := View();
      waiting := [];
      BalancedQueues(c, s, View());
      waiting := CleanupTerminalQueue(queue);
    }

    /** Sets the last movable running sequence aside, so that a waiting request gets a turn. */
    method PreemptOneForAdmission()
      modifies Repr()
      ensures View() == Preempt(old(View()))
    {
      hide FindMovable, DropTicket;
      var i := |running|;
      assert running[..i] == running;
      MovableNone(View());
      while i > 0
        invariant 0 <= i <= |running| && View() == old(View())
        invariant FindMovable(View(), running[..i]) == FindMovable(View(), running)
      {
        MovableNext(View(), running[..i - 1], running[i - 1]);
        assert running[..i] == running[..i - 1] + [running[i - 1]];
        i := i - 1;
        var t := running[i];
        var r := Req(t);
        if r.status == Active && r.sched.Some? && r.sched.value.res.leases == 0 {
          bySeq := bySeq - {r.sched.value.seqId};
          EraseRunning(t);
          skip := [t] + skip;
          return;
        }
      }
      assert running[..0] == [];
    }

    method FailQueued(e: ErrorCode)
      requires Balanced(c, View())
      modifies Repr()
      ensures View() == FailWaiting(old(View()), e) && Balanced(c, View())
    {
      hide FailWaiting, Dismiss, Balanced, Payable, Freeable, Valid;
      while waiting != []
        invariant Balanced(c, View()) && FailWaiting(View(), e) == FailWaiting(old(View()), e)
        decreases |waiting|
      {
        FailWaitingNext(View(), e);
        var t := waiting[0];
        ghost var s := View();
        waiting := waiting[1..];
        BalancedQueues(c, s, View());
        BalancedPayable(c, View());
        PayableAt(View(), t);
        BalancedDismiss(c, View(), t, ErrorEvent(e));
        DismissQueues(View(), t, ErrorEvent(e));
        DismissRequest(t, ErrorEvent(e));
      }
      FailWaitingNext(View(), e);
    }

    method FailPreempted(e: ErrorCode)
      requires Balanced(c, View())
      modifies Repr()
      ensures View() == FailSkipped(old(View()), e)
    {
      hide FailSkipped, Dismiss, Balanced, Payable, Freeable, Valid;
      while skip != []
        invariant Balanced(c, View()) && FailSkipped(View(), e) == FailSkipped(old(View()), e)
        decreases |skip|
      {
        FailSkippedNext(View(), e);
        var t := skip[0];
        ghost var s := View();
        skip := skip[1..];
        BalancedQueues(c, s, View());
        BalancedPayable(c, View());
        PayableAt(View(), t);
        BalancedDismiss(c, View(), t, ErrorEvent(e));
        DismissQueues(View(), t, ErrorEvent(e));
        DismissRequest(t, ErrorEvent(e));
      }
      FailSkippedNext(View(), e);
    }

    method FailAllWaitingRequests(e: ErrorCode)
      requires Balanced(c, View())
      modifies Repr()
      ensures View() == FailAllWaiting(old(View()), e)
    {
      hide FailWaiting, FailSkipped, Balanced;
      FailQueued(e);
      FailPreempted(e);
    }

    method TerminateOne(t: Ticket, e: ErrorCode)
      requires Valid(cache.View()) && Freeable(View(), t)
      modifies Repr()
      ensures View() == Terminate(old(View()), t, e)
    {
      hide SendError, ReleaseScheduling, DropTicket, EraseRequest, Valid, BlockLemmas.Releasable;
      if Req(t).sched.None? { return; }
      ErrorTable(View(), t, e);
      if Req(t).status == Active { SendErrorEvent(t, e); }
      ReleaseSchedulingBlocks(t);
      EraseRunning(t);
      Erase(t);
    }

    method CleanupRunning(e: ErrorCode)
      requires Balanced(c, View())
      modifies Repr()
      ensures View() == CleanupAllRunning(old(View()), e)
    {
      hide Terminate, Balanced, Payable, Freeable, Valid;
      var ts := running;
      var i := 0;
      assert ts[0..] == ts;
      while i < |ts|
        invariant 0 <= i <= |ts|
        invariant Balanced(c, View())
        invariant TerminateAll(View(), ts[i..], e) == TerminateAll(old(View()), ts, e)
      {
        assert ts[i..][1..] == ts[i + 1..];
        BalancedPayable(c, View());
        PayableAt(View(), ts[i]);
        BalancedTerminate(c, View(), ts[i], e);
        TerminateOne(ts[i], e);
        i := i + 1;
      }
    }

    method CanSchedule() returns (some: bool)
      ensures some == HasSchedulableWork(c, View())
    {
      hide WantsWork;
      if skip != [] && |running| < c.maxRunning { return true; }
      var i := 0;
      while i < |running|
        invariant 0 <= i <= |running| && forall k | 0 <= k < i :: !WantsWork(View(), running[k])
      {
        var wants := Wants(running[i]);
        if wants {
          assert running[i] in running;
          return true;
        }
        i := i + 1;
      }
      some := false;
    }

    method Wants(t: Ticket) returns (wants: bool)
      ensures wants == WantsWork(View(), t)
    {
      var r := Req(t);
      if r.sched.None? || r.status != Active { return false; }
      var q := r.sched.value;
      if IsPrefill(q.phase) {
        wants := q.cursor + q.res.prompt < |r.prompt|;
      } else {
        wants := |r.generated| + q.res.gen < r.maxTokens && (q.phase != Bootstrap || q.res.gen == 0);
      }
    }
  }
}
