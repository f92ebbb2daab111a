/**
 Most operations are calm: they never touch what a continuing sequence has executed, never publish a
 block, and let no request become active. The exceptions are admission and retirement.
 */
module CalmLemmas {
  import opened Types
  import opened Blocks
  import opened State
  import opened Scheduling

  /** An active request with a sequence. */
  predicate Going(s: Sched, t: Ticket) {
    t in s.objs && s.objs[t].status == Active && s.objs[t].sched.Some?
  }

  /** Only the reservation and the length of the table may differ. */
  predicate KeptSeq(r: Request, r': Request) {
    && r.sched.Some? && r'.sched.Some? && r'.prompt == r.prompt && r'.generated == r.generated
    && r'.sched.value == r.sched.value.(res := r'.sched.value.res, table := r'.sched.value.table)
    && r.sched.value.table <= r'.sched.value.table
  }

  ghost predicate CalmObjs(s: Sched, s': Sched) {
    forall t :: Going(s', t) ==> Going(s, t) && KeptSeq(s.objs[t], s'.objs[t])
  }

  /** Entries only leave the cache. */
  ghost predicate Shrinks(a: map<BlockId, Hash>, b: map<BlockId, Hash>) {
    forall x :: x in b ==> x in a && b[x] == a[x]
  }

  ghost predicate CalmHist(h: History, h': History) {
    && h'.meaning == h.meaning && h'.chain == h.chain && h.hashed <= h'.hashed
    && h'.starts == h.starts && h'.base == h.base && h'.tainted == h.tainted && h'.touched == h.touched
  }

  ghost predicate Calm(s: Sched, s': Sched) {
    && CalmObjs(s, s') && Shrinks(s.blocks.cache.byBlock, s'.blocks.cache.byBlock)
    && CalmHist(s.hist, s'.hist) && s'.nextSeq == s.nextSeq
  }

  lemma CalmTrans(a: Sched, b: Sched, c: Sched)
    requires Calm(a, b) && Calm(b, c)
    ensures Calm(a, c)
  {
  }

  lemma CalmSame(s: Sched, s': Sched)
    requires s'.objs == s.objs && s'.blocks.cache.byBlock == s.blocks.cache.byBlock
    requires s'.hist == s.hist && s'.nextSeq == s.nextSeq
    ensures Calm(s, s')
  {
  }

  lemma CalmAt(s: Sched, s': Sched, t: Ticket)
    requires forall u :: u in s'.objs && u != t ==> u in s.objs && s'.objs[u] == s.objs[u]
    requires Going(s', t) ==> Going(s, t) && KeptSeq(s.objs[t], s'.objs[t])
    requires Shrinks(s.blocks.cache.byBlock, s'.blocks.cache.byBlock)
    requires CalmHist(s.hist, s'.hist) && s'.nextSeq == s.nextSeq
    ensures Calm(s, s')
  {
  }

  // ---------------------------------------------------------------- blocks

  lemma {:induction false} EvictShrinks(st: Store, k: nat)
    ensures Shrinks(st.cache.byBlock, EvictMany(st, k).cache.byBlock)
    decreases k
  {
    if k > 0 {
      EvictShrinks(EvictOne(st), k - 1);
    }
  }

  lemma AllocateShrinks(st: Store, n: nat)
    ensures Shrinks(st.cache.byBlock, AllocateKv(st, n).store.cache.byBlock)
  {
    hide EvictMany, TakeRefs, TakeUse;
    var short := if n <= |st.pool.free| then 0 else n - |st.pool.free|;
    EvictShrinks(st, if short <= |st.cache.idle| then short else |st.cache.idle|);
  }

  lemma {:induction false} SettleCache(st: Store, table: seq<BlockId>, i: nat)
    ensures Settle(st, table, i).cache.byBlock == st.cache.byBlock
    decreases |table| - i
  {
    if i < |table| {
      var b := table[i];
      if b in table[..i] || st.Refs(b) != 0 {
        SettleCache(st, table, i + 1);
      } else if st.Cached(b) {
        SettleCache(st.(cache := st.cache.(idle := st.cache.idle + [b])), table, i + 1);
      } else {
        SettleCache(st.(pool := Recycle(st.pool, b)), table, i + 1);
      }
    }
  }

  lemma ReleaseCache(st: Store, table: seq<BlockId>)
    ensures ReleaseTable(st, table).cache.byBlock == st.cache.byBlock
  {
    SettleCache(st.(pool := st.pool.(refs := ReleaseRefs(st.pool.refs, table))), table, 0);
  }

  lemma {:induction false} LookupCache(st: Store, hs: seq<Hash>)
    ensures LookupPrefix(st, hs).store.cache.byBlock == st.cache.byBlock
    decreases |hs|
  {
    if hs != [] && hs[0] in st.cache.byHash && st.cache.byHash[hs[0]] != [] {
      LookupCache(Retain(st, st.cache.byHash[hs[0]][0]), hs[1..]);
    }
  }

  lemma CalmTake(s: Sched, n: nat)
    ensures Calm(s, TakeBlocks(s, n).s) && TakeBlocks(s, n).s.objs == s.objs
  {
    AllocateShrinks(s.blocks, n);
    hide AllocateKv;
  }

  // ---------------------------------------------------------------- requests

  lemma CalmSend(s: Sched, t: Ticket, e: Event)
    ensures Calm(s, Send(s, t, e)) && Send(s, t, e).objs == s.objs
  {
    hide Get, LogOf;
    CalmSame(s, Send(s, t, e));
    hide Calm;
  }

  lemma CalmDone(s: Sched, t: Ticket)
    ensures Calm(s, SendDone(s, t))
  {
    CalmAt(s, SendDone(s, t), t);
  }

  lemma CalmError(s: Sched, t: Ticket, e: ErrorCode)
    ensures Calm(s, SendError(s, t, e))
  {
    CalmAt(s, SendError(s, t, e), t);
  }

  lemma CalmRelease(s: Sched, t: Ticket)
    ensures Calm(s, ReleaseScheduling(s, t))
  {
    var r := Get(s, t);
    if r.sched.Some? {
      ReleaseCache(s.blocks, r.sched.value.table);
      hide ReleaseTable;
      CalmAt(s, ReleaseScheduling(s, t), t);
    }
  }

  lemma CalmErase(s: Sched, t: Ticket)
    ensures Calm(s, EraseRequest(s, t))
  {
    CalmAt(s, EraseRequest(s, t), t);
  }

  lemma CalmDismiss(s: Sched, t: Ticket, e: Event)
    ensures Calm(s, Dismiss(s, t, e))
  {
    hide Calm, ReleaseScheduling, Send, EraseRequest;
    CalmRelease(s, t);
    var s1 := ReleaseScheduling(s, t);
    CalmSend(s1, t, e);
    CalmErase(Send(s1, t, e), t);
    CalmTrans(s, s1, Send(s1, t, e));
    CalmTrans(s, Send(s1, t, e), Dismiss(s, t, e));
  }

  /** Releasing a request that goes back to waiting, with a longer prompt. */
  lemma CalmToWait(s: Sched, t: Ticket)
    requires t in s.objs
    ensures Calm(s, ReleaseScheduling(Put(s, t, PrepareForWait(s.objs[t])), t))
  {
    hide ReleaseTable, PrepareForWait, Calm;
    var r := PrepareForWait(s.objs[t]);
    var s1 := Put(s, t, r);
    ReleaseCache(s.blocks, if r.sched.Some? then r.sched.value.table else []);
    PreparedSched(s.objs[t]);
    CalmAt(s, ReleaseScheduling(s1, t), t);
  }

  lemma PreparedSched(r: Request)
    ensures PrepareForWait(r).sched == r.sched && PrepareForWait(r).status == r.status
  {
  }

  // ---------------------------------------------------------------- building work

  lemma CalmPut(s: Sched, s': Sched, t: Ticket, r: Request)
    requires r.status == Active && r.sched.Some? ==> Going(s, t) && KeptSeq(s.objs[t], r)
    requires s'.objs == s.objs[t := r] && s'.blocks == s.blocks && CalmHist(s.hist, s'.hist) && s'.nextSeq == s.nextSeq
    ensures Calm(s, s')
  {
    hide KeptSeq, CalmHist;
    CalmAt(s, s', t);
  }

  lemma CalmBuildPrefill(c: Config, g: Stage, t: Ticket)
    requires t in g.s.objs && g.s.objs[t].sched.Some?
    ensures Calm(g.s, BuildPrefill(c, g, t, g.s.objs[t], g.s.objs[t].sched.value).s)
  {
    hide Calm, NextChunk, ChunkLength;
    var r := g.s.objs[t];
    var q := r.sched.value;
    CalmSame(g.s, g.s);
    if q.cursor + q.res.prompt < |r.prompt| {
      var item := NextChunk(c, r, q, g.budget);
      CalmPut(g.s, BuildPrefill(c, g, t, r, q).s, t, r.(sched := Some(Reserve(q, item))));
    }
  }

  lemma CalmBuildDecode(c: Config, g: Stage, t: Ticket)
    requires t in g.s.objs && g.s.objs[t].sched.Some? && g.budget > 0
    ensures Calm(g.s, BuildDecode(c, g, t, g.s.objs[t], g.s.objs[t].sched.value).s)
  {
    var r := g.s.objs[t];
    var q := r.sched.value;
    var n := MissingBlocks(c, q);
    CalmTake(g.s, n);
    CalmDone(g.s, t);
    hide TakeBlocks, NextDecode, MissingBlocks, SendDone, Calm;
    var taken := TakeBlocks(g.s, n);
    var q1 := q.(table := q.table + taken.table);
    var s1 := Put(taken.s, t, r.(sched := Some(Reserve(q1, NextDecode(r, q1)))));
    CalmReserve(g.s, taken.s, s1, t);
    CalmSame(taken.s, taken.s.(shortage := true));
    CalmTrans(g.s, taken.s, taken.s.(shortage := true));
    CalmSame(g.s, g.s);
  }

  lemma CalmReserve(s: Sched, s1: Sched, s': Sched, t: Ticket)
    requires Calm(s, s1) && s1.objs == s.objs && t in s.objs && s.objs[t].sched.Some?
    requires t in s'.objs && s' == Put(s1, t, s'.objs[t])
    requires s'.objs[t] == s.objs[t].(sched := s'.objs[t].sched) && KeptSeq(s.objs[t], s'.objs[t])
    ensures Calm(s, s')
  {
    CalmAt(s, s', t);
  }

  lemma CalmBuildWork(c: Config, g: Stage, t: Ticket)
    ensures Calm(g.s, BuildWork(c, g, t).s)
  {
    hide BuildPrefill, BuildDecode, SendDone, Calm;
    CalmSame(g.s, g.s);
    CalmDone(g.s, t);
    if t in g.s.objs && g.s.objs[t].sched.Some? && g.budget > 0 {
      CalmBuildPrefill(c, g, t);
      CalmBuildDecode(c, g, t);
    }
  }

  lemma {:induction false} CalmBuildAll(c: Config, g: Stage, ts: seq<Ticket>)
    ensures Calm(g.s, BuildAll(c, g, ts).s)
    decreases |ts|
  {
    hide BuildWork, Calm;
    if ts == [] || g.budget == 0 {
      CalmSame(g.s, g.s);
    } else {
      CalmBuildWork(c, g, ts[0]);
      CalmBuildAll(c, BuildWork(c, g, ts[0]), ts[1..]);
      CalmTrans(g.s, BuildWork(c, g, ts[0]).s, BuildAll(c, g, ts).s);
    }
  }

  // ---------------------------------------------------------------- making room

  lemma CalmEvictSkipped(s: Sched)
    requires forall t :: t in s.skip ==> t in s.objs
    ensures Calm(s, EvictSkipped(s).s)
  {
    hide Calm, ReleaseScheduling, PrepareForWait;
    CalmSame(s, s);
    if s.skip != [] {
      var t := s.skip[0];
      var s1 := s.(skip := s.skip[1..]);
      CalmSame(s, s1);
      CalmToWait(s1, t);
      var s2 := if Get(s1, t).sched.None? then s1
                else ReleaseScheduling(Put(s1, t, PrepareForWait(Get(s1, t))), t);
      CalmTrans(s, s1, s2);
      CalmSame(s2, EvictSkipped(s).s);
      CalmTrans(s, s2, EvictSkipped(s).s);
    }
  }

  lemma CalmSuspendRunning(s: Sched)
    requires forall t :: t in s.running ==> t in s.objs
    ensures Calm(s, SuspendRunning(s).s)
  {
    hide Calm, ReleaseScheduling, PrepareForWait, FindVictim;
    CalmSame(s, s);
    var v := FindVictim(s);
    if v.Some? {
      CalmToWait(s, v.value);
      var s1 := ReleaseScheduling(Put(s, v.value, PrepareForWait(Get(s, v.value))), v.value);
      CalmSame(s1, SuspendRunning(s).s);
      CalmTrans(s, s1, SuspendRunning(s).s);
    }
  }

  lemma CalmMakeRoom(s: Sched)
    requires forall t :: t in s.skip || t in s.running ==> t in s.objs
    ensures Calm(s, MakeRoom(s))
  {
    hide Calm, EvictSkipped, SuspendRunning;
    CalmEvictSkipped(s);
    CalmSuspendRunning(s);
  }

  // ---------------------------------------------------------------- admission

  lemma CalmAdmitSkipped(c: Config, g: Stage, raised: bool)
    ensures Calm(g.s, AdmitSkipped(c, g, raised).g.s)
  {
    hide Calm, Dismiss, BuildWork, ReleaseScheduling, SendDone, EraseRequest;
    CalmSame(g.s, g.s);
    if g.s.skip != [] {
      var t := g.s.skip[0];
      var r := Get(g.s, t);
      var s := g.s.(skip := g.s.skip[1..]);
      var s1 := s.(accepting := s.accepting && !raised);
      CalmSame(g.s, s);
      CalmSame(g.s, s1);
      CalmSame(g.s, s.(waiting := [t] + s.waiting));
      CalmDismiss(s, t, ErrorEvent(RequestCancelled));
      CalmTrans(g.s, s, Dismiss(s, t, ErrorEvent(RequestCancelled)));
      CalmDismiss(s, t, DoneEvent);
      CalmTrans(g.s, s, Dismiss(s, t, DoneEvent));
      CalmDismiss(s1, t, ErrorEvent(ServerShuttingDown));
      CalmTrans(g.s, s1, Dismiss(s1, t, ErrorEvent(ServerShuttingDown)));
      CalmDismissDone(s1, t);
      CalmTrans(g.s, s1, EraseRequest(SendDone(ReleaseScheduling(s1, t), t), t));
      if r.sched.Some? {
        var s2 := s1.(bySeq := s1.bySeq[r.sched.value.seqId := t], running := s1.running + [t]);
        CalmSame(g.s, s2);
        CalmBuildWork(c, g.(s := s2), t);
        CalmTrans(g.s, s2, BuildWork(c, g.(s := s2), t).s);
      }
    }
  }

  lemma CalmDismissDone(s: Sched, t: Ticket)
    ensures Calm(s, EraseRequest(SendDone(ReleaseScheduling(s, t), t), t))
  {
    hide Calm, ReleaseScheduling, SendDone, EraseRequest;
    var s1 := ReleaseScheduling(s, t);
    CalmRelease(s, t);
    CalmDone(s1, t);
    CalmErase(SendDone(s1, t), t);
    CalmTrans(s, s1, SendDone(s1, t));
    CalmTrans(s, SendDone(s1, t), EraseRequest(SendDone(s1, t), t));
  }

  lemma CalmBlocks(s: Sched, table: seq<BlockId>)
    ensures Calm(s, s.(blocks := ReleaseTable(s.blocks, table)))
  {
    ReleaseCache(s.blocks, table);
    hide ReleaseTable;
  }

  lemma CalmRebuff(s: Sched, t: Ticket, table: seq<BlockId>)
    requires forall t :: t in s.skip || t in s.running ==> t in s.objs
    ensures Calm(s, Rebuff(s, t, table))
  {
    hide Calm, MakeRoom, ReleaseTable;
    var s0 := s.(blocks := ReleaseTable(s.blocks, table));
    CalmBlocks(s, table);
    CalmMakeRoom(s0);
    CalmTrans(s, s0, MakeRoom(s0));
    CalmSame(MakeRoom(s0), Rebuff(s, t, table));
    CalmTrans(s, MakeRoom(s0), Rebuff(s, t, table));
  }

  // ---------------------------------------------------------------- cleanup

  lemma CalmReap(s: Sched, t: Ticket)
    ensures Calm(s, Reap(s, t))
  {
    hide Calm, ReleaseScheduling, EraseRequest;
    CalmRelease(s, t);
    var s1 := ReleaseScheduling(s, t);
    var s2 := s1.(running := DropTicket(s1.running, t), paused := false);
    CalmSame(s1, s2);
    CalmErase(s2, t);
    CalmTrans(s, s1, s2);
    CalmTrans(s, s2, Reap(s, t));
  }

  lemma {:induction false} CalmReapAll(s: Sched, ts: seq<Ticket>)
    ensures Calm(s, ReapAll(s, ts))
    decreases |ts|
  {
    hide Calm, Reap;
    CalmSame(s, s);
    if ts != [] {
      CalmReap(s, ts[0]);
      var s1 := if Spent(s, ts[0]) then Reap(s, ts[0]) else s;
      CalmReapAll(s1, ts[1..]);
      CalmTrans(s, s1, ReapAll(s, ts));
    }
  }

  lemma {:induction false} CalmSweep(s: Sched, ts: seq<Ticket>)
    ensures Calm(s, Sweep(s, ts).s)
    decreases |ts|
  {
    hide Calm, ReleaseScheduling, EraseRequest;
    CalmSame(s, s);
    if ts != [] {
      if Get(s, ts[0]).status == Active {
        CalmSweep(s, ts[1..]);
      } else {
        var s1 := ReleaseScheduling(s, ts[0]);
        CalmRelease(s, ts[0]);
        CalmErase(s1, ts[0]);
        CalmTrans(s, s1, EraseRequest(s1, ts[0]));
        CalmSweep(EraseRequest(s1, ts[0]), ts[1..]);
        CalmTrans(s, EraseRequest(s1, ts[0]), Sweep(s, ts).s);
      }
    }
  }

  lemma CalmCleanupTerminal(s: Sched)
    ensures Calm(s, CleanupTerminal(s))
  {
    hide Calm, ReapAll, Sweep;
    CalmReapAll(s, s.running);
    var s1 := ReapAll(s, s.running);
    CalmSame(s1, s1.(skip := []));
    CalmSweep(s1.(skip := []), s1.skip);
    var w := Sweep(s1.(skip := []), s1.skip);
    var s2 := w.s.(skip := w.kept);
    CalmSame(w.s, s2.(waiting := []));
    CalmSweep(s2.(waiting := []), s2.waiting);
    var v := Sweep(s2.(waiting := []), s2.waiting);
    CalmSame(v.s, CleanupTerminal(s));
    CalmTrans(s, s1, s1.(skip := []));
    CalmTrans(s, s1.(skip := []), w.s);
    CalmTrans(s, w.s, s2.(waiting := []));
    CalmTrans(s, s2.(waiting := []), v.s);
    CalmTrans(s, v.s, CleanupTerminal(s));
  }

  lemma CalmPreempt(s: Sched)
    ensures Calm(s, Preempt(s))
  {
    CalmSame(s, Preempt(s));
  }

  lemma {:induction false} CalmFailWaiting(s: Sched, e: ErrorCode)
    ensures Calm(s, FailWaiting(s, e))
    decreases |s.waiting|
  {
    hide Calm, Dismiss;
    CalmSame(s, s);
    if s.waiting != [] {
      var s1 := s.(waiting := s.waiting[1..]);
      var s2 := Dismiss(s1, s.waiting[0], ErrorEvent(e));
      DismissQueues(s1, s.waiting[0], ErrorEvent(e));
      CalmSame(s, s1);
      CalmDismiss(s1, s.waiting[0], ErrorEvent(e));
      CalmTrans(s, s1, s2);
      CalmFailWaiting(s2, e);
      CalmTrans(s, s2, FailWaiting(s, e));
    }
  }

  lemma {:induction false} CalmFailSkipped(s: Sched, e: ErrorCode)
    ensures Calm(s, FailSkipped(s, e))
    decreases |s.skip|
  {
    hide Calm, Dismiss;
    CalmSame(s, s);
    if s.skip != [] {
      var s1 := s.(skip := s.skip[1..]);
      var s2 := Dismiss(s1, s.skip[0], ErrorEvent(e));
      DismissQueues(s1, s.skip[0], ErrorEvent(e));
      CalmSame(s, s1);
      CalmDismiss(s1, s.skip[0], ErrorEvent(e));
      CalmTrans(s, s1, s2);
      CalmFailSkipped(s2, e);
      CalmTrans(s, s2, FailSkipped(s, e));
    }
  }

  lemma CalmFailAllWaiting(s: Sched, e: ErrorCode)
    ensures Calm(s, FailAllWaiting(s, e))
  {
    hide Calm, FailWaiting, FailSkipped;
    CalmFailWaiting(s, e);
    CalmFailSkipped(FailWaiting(s, e), e);
    CalmTrans(s, FailWaiting(s, e), FailAllWaiting(s, e));
  }

  lemma CalmTerminate(s: Sched, t: Ticket, e: ErrorCode)
    ensures Calm(s, Terminate(s, t, e))
  {
    hide Calm, ReleaseScheduling, EraseRequest, SendError;
    CalmSame(s, s);
    CalmError(s, t, e);
    var s1 := if Get(s, t).status == Active then SendError(s, t, e) else s;
    CalmRelease(s1, t);
    var s2 := ReleaseScheduling(s1, t);
    var s3 := s2.(running := DropTicket(s2.running, t));
    CalmSame(s2, s3);
    CalmErase(s3, t);
    CalmTrans(s, s1, s2);
    CalmTrans(s, s2, s3);
    CalmTrans(s, s3, EraseRequest(s3, t));
  }

  lemma {:induction false} CalmTerminateAll(s: Sched, ts: seq<Ticket>, e: ErrorCode)
    ensures Calm(s, TerminateAll(s, ts, e))
    decreases |ts|
  {
    hide Calm, Terminate;
    CalmSame(s, s);
    if ts != [] {
      CalmTerminate(s, ts[0], e);
      CalmTerminateAll(Terminate(s, ts[0], e), ts[1..], e);
      CalmTrans(s, Terminate(s, ts[0], e), TerminateAll(s, ts, e));
    }
  }

  // ---------------------------------------------------------------- failures and clients

  lemma RetiredKept(r: Request, x: WorkItem)
    requires r.sched.Some?
    ensures KeptSeq(r, RetireReservation(r, x)) && RetireReservation(r, x).status == r.status
  {
  }

  lemma CalmFailItem(s: Sched, x: WorkItem, e: ErrorCode)
    ensures Calm(s, FailItem(s, x, e))
  {
    hide Calm, KeptSeq, SendError, RetireReservation;
    CalmSame(s, s);
    if x.seqId in s.bySeq {
      var t := s.bySeq[x.seqId];
      var s1 := Put(s, t, RetireReservation(Get(s, t), x));
      CalmRetired(s, t, x);
      CalmError(s1, t, e);
      CalmTrans(s, s1, SendError(s1, t, e));
    }
  }

  lemma CalmRetired(s: Sched, t: Ticket, x: WorkItem)
    ensures Calm(s, Put(s, t, RetireReservation(Get(s, t), x)))
  {
    hide Calm, KeptSeq;
    var r := Get(s, t);
    if r.sched.Some? { RetiredKept(r, x); }
    CalmPut(s, Put(s, t, RetireReservation(r, x)), t, RetireReservation(r, x));
  }

  lemma {:induction false} CalmFailBatch(s: Sched, items: seq<WorkItem>, e: ErrorCode)
    ensures Calm(s, FailBatch(s, items, e))
    decreases |items|
  {
    hide Calm, FailItem;
    CalmSame(s, s);
    if items != [] {
      CalmFailItem(s, items[0], e);
      CalmFailBatch(FailItem(s, items[0], e), items[1..], e);
      CalmTrans(s, FailItem(s, items[0], e), FailBatch(s, items, e));
    }
  }

  lemma CalmRefuse(s: Sched, open: bool, e: ErrorCode)
    ensures Calm(s, Refuse(s, open, e))
  {
  }

  lemma CalmSubmit(c: Config, s: Sched, id: string, prompt: seq<Token>, maxTokens: int, maxContext: int, open: bool)
    ensures Calm(s, Submit(c, s, id, prompt, maxTokens, maxContext, open))
  {
    hide Calm;
    CalmRefuse(s, open, ServerShuttingDown);
    CalmRefuse(s, open, InvalidArgument);
    CalmRefuse(s, open, RequestQueueFull);
    var r := Request(id, prompt, prompt, Active, [], maxTokens, if maxContext <= 0 then c.defaultContext
        else maxContext, open, None);
    CalmPut(s, Accept(s, r), s.nextTicket, r);
  }

  lemma CalmCancel(s: Sched, id: string)
    ensures Calm(s, Cancel(s, id))
  {
    CalmSame(s, s);
    if id in s.registry {
      CalmAt(s, Cancel(s, id), s.registry[id]);
    }
  }

  lemma CalmHangup(s: Sched, t: Ticket)
    ensures Calm(s, Hangup(s, t))
  {
    CalmAt(s, Hangup(s, t), t);
  }
}
