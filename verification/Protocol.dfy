/** What clients see, and how full the queues may get. */
module Protocol {
  import opened Types
  import opened Blocks
  import opened State
  import opened Scheduling
  import opened Invariant
  import opened CoreLemmas
  import opened BuildLemmas
  import opened AdmitLemmas
  import opened RetireLemmas
  import opened StepLemmas

  predicate Terminal(e: Event) {
    match e
    case TokenEvent(_, finished) => finished
    case DoneEvent => true
    case ErrorEvent(_) => true
  }

  /** No terminal event yet. */
  ghost predicate Quiet(l: seq<Event>) {
    forall i | 0 <= i < |l| :: !Terminal(l[i])
  }

  /** At most one terminal event, and nothing after it. */
  ghost predicate Closed(l: seq<Event>) {
    forall i | 0 <= i < |l| - 1 :: !Terminal(l[i])
  }

  ghost predicate LogOk(s: Sched, t: Ticket) {
    if t in s.objs && Open(s.objs[t].status) then Quiet(LogOf(s, t)) else Closed(LogOf(s, t))
  }

  /** Every client has heard a legal sequence of events; as long as its request is active or merely
      cancelled it has heard no terminal one. */
  ghost predicate Logs(s: Sched) {
    && (forall t :: t in s.log ==> t < s.nextTicket)
    && (forall t: Ticket :: LogOk(s, t))
  }

  ghost predicate Limits(c: Config, s: Sched) {
    |s.running| <= c.maxRunning && |s.running| + |s.skip| <= c.maxSequences
  }

  /** Admission is only paused while something runs that can end the pause. */
  predicate PauseEnds(s: Sched) {
    s.paused ==> s.running != []
  }

  ghost predicate Tidy(c: Config, s: Sched) {
    Limits(c, s) && PauseEnds(s) && Logs(s)
  }

  // ---------------------------------------------------------------- logs

  /** Statuses only leave the open ones. */
  ghost predicate Closing(s: Sched, s': Sched) {
    && s'.log == s.log && s'.nextTicket == s.nextTicket
    && (forall t :: t in s'.objs ==> t in s.objs)
    && (forall t :: t in s'.objs && Open(s'.objs[t].status) ==> Open(s.objs[t].status))
  }

  lemma LogsClosing(s: Sched, s': Sched)
    requires Logs(s) && Closing(s, s')
    ensures Logs(s')
  {
    forall t: Ticket ensures LogOk(s', t) {
      assert LogOk(s, t);
    }
  }

  /** One event for an open request; if it is terminal the request stops being open. */
  lemma LogsAppend(s: Sched, s': Sched, t: Ticket, e: Event)
    requires Logs(s) && t in s.objs && t < s.nextTicket && Open(s.objs[t].status)
    requires s'.log == s.log || s'.log == s.log[t := LogOf(s, t) + [e]]
    requires s'.nextTicket == s.nextTicket
    requires forall u :: u in s'.objs && u != t ==> u in s.objs && s'.objs[u].status == s.objs[u].status
    requires t in s'.objs && Open(s'.objs[t].status) ==> !Terminal(e)
    ensures Logs(s')
  {
    forall u: Ticket ensures LogOk(s', u) {
      assert LogOk(s, u);
      assert u != t ==> LogOf(s', u) == LogOf(s, u);
    }
  }

  lemma LogsDone(s: Sched, t: Ticket)
    requires Logs(s) && t in s.objs && t < s.nextTicket && Open(s.objs[t].status)
    ensures Logs(SendDone(s, t))
  {
    hide Logs;
    LogsAppend(s, SendDone(s, t), t, DoneEvent);
  }

  lemma LogsError(s: Sched, t: Ticket, e: ErrorCode)
    requires Logs(s) && t in s.objs && t < s.nextTicket && Open(s.objs[t].status)
    ensures Logs(SendError(s, t, e))
  {
    hide Logs;
    LogsAppend(s, SendError(s, t, e), t, ErrorEvent(e));
  }

  /** The event Deliver sends. */
  function DeliveryEvent(r: Request): Event {
    TokenEvent(Last(r.generated, 0), r.status == Finished)
  }

  lemma DeliverLog(s: Sched, t: Ticket, r: Request, q: Sequence, result: ItemResult)
    requires r.status == Active
    ensures var s' := Deliver(s, t, r, q, result); var r' := Delivered(r, q, result);
      s'.log == s.log || s'.log == s.log[t := LogOf(s, t) + [if result.sampled != [] then DeliveryEvent(r')
          else DoneEvent]]
    ensures Open(Delivered(r, q, result).status) && result.sampled == [] ==> Deliver(s, t, r, q, result).log == s.log
  {
    hide SendToken, SendDone, LogOf, Get;
    var sampled := result.sampled != [];
    var generated := if sampled then r.generated + [result.sampled[0]] else r.generated;
    var finished := result.eos || |generated| >= r.maxTokens;
    var phase := if sampled && q.phase == Bootstrap then Decode else q.phase;
    var r1 := r.(generated := generated, status := if finished then Finished else r.status,
                 sched := Some(q.(phase := phase)));
    var s1 := Put(s, t, r1);
    assert LogOf(s1, t) == LogOf(s, t) by { LogOfPut(s, t, r1); }
    assert s1.log == s.log;
    GetPut(s, t, r1);
    if sampled {
      SendTokenLog(s1, t);
    } else if finished {
      SendDoneLog(s1, t);
    }
  }

  lemma GetPut(s: Sched, t: Ticket, r: Request)
    ensures Get(Put(s, t, r), t) == r
  {
  }

  lemma LogOfPut(s: Sched, t: Ticket, r: Request)
    ensures LogOf(Put(s, t, r), t) == LogOf(s, t)
  {
  }

  lemma SendTokenLog(s: Sched, t: Ticket)
    ensures SendToken(s, t).log == s.log || SendToken(s, t).log == s.log[t := LogOf(s, t) + [DeliveryEvent(Get(s, t))]]
  {
  }

  lemma SendDoneLog(s: Sched, t: Ticket)
    ensures SendDone(s, t).log == s.log || SendDone(s, t).log == s.log[t := LogOf(s, t) + [DoneEvent]]
  {
  }

  lemma LogsDeliver(s: Sched, t: Ticket, r: Request, q: Sequence, result: ItemResult)
    requires Logs(s) && t in s.objs && t < s.nextTicket && s.objs[t].status == Active && r.status == Active
    ensures Logs(Deliver(s, t, r, q, result))
  {
    hide Logs, Deliver, Delivered;
    DeliverPlaces(s, t, r, q, result);
    DeliverLog(s, t, r, q, result);
    var s' := Deliver(s, t, r, q, result);
    var r' := Delivered(r, q, result);
    if result.sampled == [] && Open(r'.status) {
      LogsClosing(s, s');
    } else {
      LogsAppend(s, s', t, if result.sampled != [] then DeliveryEvent(r') else DoneEvent);
    }
  }

  // ---------------------------------------------------------------- building and admitting

  lemma LogsBuildPrefill(c: Config, g: Stage, t: Ticket, q: Sequence)
    requires Logs(g.s) && t in g.s.objs
    ensures Logs(BuildPrefill(c, g, t, g.s.objs[t], q).s)
  {
    hide Logs, NextChunk, Reserve;
    LogsClosing(g.s, BuildPrefill(c, g, t, g.s.objs[t], q).s);
  }

  lemma LogsBuildDecode(c: Config, g: Stage, t: Ticket, q: Sequence)
    requires Logs(g.s) && t in g.s.objs && t < g.s.nextTicket && g.s.objs[t].status == Active && g.budget > 0
    ensures Logs(BuildDecode(c, g, t, g.s.objs[t], q).s)
  {
    hide Logs, TakeBlocks, MissingBlocks, SendDone;
    LogsDone(g.s, t);
    TakeLogs(g.s, MissingBlocks(c, q));
    var g' := BuildDecode(c, g, t, g.s.objs[t], q);
    if g'.s != SendDone(g.s, t) {
      LogsClosing(g.s, g'.s);
    }
  }

  lemma LogsBuildWork(c: Config, g: Stage, t: Ticket)
    requires Logs(g.s) && t in g.s.objs && t < g.s.nextTicket
    ensures Logs(BuildWork(c, g, t).s)
  {
    hide Logs, BuildPrefill, BuildDecode, SendDone;
    var r := g.s.objs[t];
    if r.status == Active && r.sched.Some? && g.budget != 0 {
      LogsDone(g.s, t);
      LogsBuildPrefill(c, g, t, r.sched.value);
      LogsBuildDecode(c, g, t, r.sched.value);
    }
  }

  lemma TakeLogs(s: Sched, n: nat)
    ensures var k := TakeBlocks(s, n);
      k.s.objs == s.objs && k.s.log == s.log && SameQueues(s, k.s)
  {
    hide AllocateKv, Leak;
  }

  lemma TidyBuildWork(c: Config, g: Stage, base: seq<WorkItem>, t: Ticket)
    requires Steady(c, g.s, base + g.items) && t in g.s.running && Tidy(c, g.s)
    ensures Tidy(c, BuildWork(c, g, t).s)
  {
    hide Core, Logs, BuildWork;
    CoreRunning(c, g.s, base + g.items, {}, multiset{}, t);
    LogsBuildWork(c, g, t);
  }

  lemma {:induction false} TidyBuildAll(c: Config, g: Stage, base: seq<WorkItem>, ts: seq<Ticket>)
    requires Steady(c, g.s, base + g.items) && (forall t :: t in ts ==> t in g.s.running) && Tidy(c, g.s)
    ensures Tidy(c, BuildAll(c, g, ts).s)
    decreases |ts|
  {
    hide Core, BuildWork, Tidy;
    if ts != [] && g.budget != 0 {
      TidyBuildWork(c, g, base, ts[0]);
      CoreBuildWork(c, g, base, {}, multiset{}, ts[0]);
      TidyBuildAll(c, BuildWork(c, g, ts[0]), base, ts[1..]);
    }
  }

  lemma ReleaseQueues(s: Sched, t: Ticket)
    ensures var s' := ReleaseScheduling(s, t);
      && s'.waiting == s.waiting && s'.skip == s.skip && s'.running == s.running && s'.paused == s.paused
      && s'.log == s.log && s'.nextTicket == s.nextTicket && s'.objs.Keys >= s.objs.Keys
      && (t in s.objs ==> s'.objs.Keys == s.objs.Keys)
      && (forall u :: u in s.objs ==> s'.objs[u].status == s.objs[u].status)
  {
    hide ReleaseTable;
    ReleasedObjs(s, t);
  }

  lemma ReleasedObjs(s: Sched, t: Ticket)
    ensures ReleaseScheduling(s, t).objs == if t in s.objs then s.objs[t := s.objs[t].(sched := None)] else s.objs
  {
    hide ReleaseTable;
  }

  lemma LogsDismiss(s: Sched, t: Ticket, e: Event)
    requires Logs(s) && t in s.objs && t < s.nextTicket && Open(s.objs[t].status)
    ensures Logs(Dismiss(s, t, e))
  {
    hide Logs, ReleaseScheduling;
    ReleaseQueues(s, t);
    var s1 := ReleaseScheduling(s, t);
    LogsClosing(s, s1);
    LogsAppend(s1, Dismiss(s, t, e), t, e);
  }

  lemma LogsToWait(s: Sched, t: Ticket)
    requires Logs(s) && t in s.objs
    ensures Logs(ReleaseScheduling(Put(s, t, PrepareForWait(s.objs[t])), t))
  {
    hide Logs, ReleaseScheduling;
    var s1 := Put(s, t, PrepareForWait(s.objs[t]));
    PreparedKeeps(s.objs[t]);
    ReleaseQueues(s1, t);
    LogsClosing(s, ReleaseScheduling(s1, t));
  }

  lemma TidyMakeRoom(c: Config, s: Sched, out: seq<WorkItem>, hand: set<Ticket>)
    requires Core(c, s, out, hand, multiset{}) && Tidy(c, s)
    ensures Tidy(c, MakeRoom(s))
    ensures |MakeRoom(s).running| <= |s.running|
  {
    hide Core, Logs, ReleaseScheduling, PrepareForWait, FindVictim;
    if s.skip != [] {
      var t := s.skip[0];
      var s1 := s.(skip := s.skip[1..]);
      CorePopSkipKnown(c, s, out, hand);
      LogsClosing(s, s1);
      LogsToWait(s1, t);
      ReleaseQueues(Put(s1, t, PrepareForWait(s1.objs[t])), t);
      LogsQueues(EvictSkipped(s).s, ReleaseScheduling(Put(s1, t, PrepareForWait(s1.objs[t])), t));
    } else if FindVictim(s).Some? {
      var t := FindVictim(s).value;
      CoreRunning(c, s, out, hand, multiset{}, t);
      LogsToWait(s, t);
      var s1 := ReleaseScheduling(Put(s, t, PrepareForWait(s.objs[t])), t);
      ReleaseQueues(Put(s, t, PrepareForWait(s.objs[t])), t);
      LogsQueues(SuspendRunning(s).s, s1);
    }
  }

  lemma LogsQueues(s: Sched, s0: Sched)
    requires Logs(s0) && s.objs == s0.objs && s.log == s0.log && s.nextTicket == s0.nextTicket
    ensures Logs(s)
  {
    LogsClosing(s0, s);
  }

  lemma CorePopSkipKnown(c: Config, s: Sched, out: seq<WorkItem>, hand: set<Ticket>)
    requires Core(c, s, out, hand, multiset{}) && s.skip != []
    ensures var t := s.skip[0]; t in s.objs && t < s.nextTicket && Open(s.objs[t].status) && s.objs[t].sched.Some?
  {
    assert s.skip[0] in s.skip;
  }

  lemma CorePopWaitingKnown(c: Config, s: Sched, out: seq<WorkItem>, hand: set<Ticket>)
    requires Core(c, s, out, hand, multiset{}) && s.waiting != []
    ensures var t := s.waiting[0]; t in s.objs && t < s.nextTicket && Open(s.objs[t].status) && s.objs[t].sched.None?
  {
    assert s.waiting[0] in s.waiting;
  }

  lemma DismissShape(s: Sched, t: Ticket, e: Event)
    ensures var s' := Dismiss(s, t, e); s'.skip == s.skip && s'.running == s.running && s'.paused == s.paused
  {
    hide ReleaseTable;
  }

  lemma TidyDismiss(c: Config, s: Sched, t: Ticket, e: Event)
    requires Tidy(c, s) && t in s.objs && t < s.nextTicket && Open(s.objs[t].status)
    ensures Tidy(c, Dismiss(s, t, e))
  {
    hide Logs, Dismiss;
    LogsDismiss(s, t, e);
    DismissShape(s, t, e);
  }

  lemma TidyResume(c: Config, g: Stage, s: Sched, t: Ticket)
    requires Tidy(c, s) && t in s.objs && t < s.nextTicket && s.objs[t].sched.Some?
    requires |s.running| < c.maxRunning && |s.running| + |s.skip| < c.maxSequences
    ensures var s2 := s.(bySeq := s.bySeq[s.objs[t].sched.value.seqId := t], running := s.running + [t]);
      Tidy(c, BuildWork(c, g.(s := s2), t).s)
  {
    hide Logs, BuildWork;
    var s2 := s.(bySeq := s.bySeq[s.objs[t].sched.value.seqId := t], running := s.running + [t]);
    LogsQueues(s2, s);
    LogsBuildWork(c, g.(s := s2), t);
  }

  lemma TidyAdmitSkipped(c: Config, g: Stage, base: seq<WorkItem>, raised: bool)
    requires Steady(c, g.s, base + g.items) && Tidy(c, g.s)
    ensures Tidy(c, AdmitSkipped(c, g, raised).g.s)
  {
    hide Core, Logs, Dismiss, BuildWork, ReleaseScheduling, SendDone, EraseRequest;
    if g.budget != 0 && g.s.skip != [] && |g.s.running| < c.maxRunning {
      var out := base + g.items;
      var t := g.s.skip[0];
      CorePopSkipKnown(c, g.s, out, {});
      var s := g.s.(skip := g.s.skip[1..]);
      LogsQueues(s, g.s);
      var s1 := s.(accepting := s.accepting && !raised);
      LogsQueues(s1, s);
      TidyDismiss(c, s, t, ErrorEvent(RequestCancelled));
      TidyDismiss(c, s, t, DoneEvent);
      TidyDismiss(c, s1, t, ErrorEvent(ServerShuttingDown));
      TidyReleaseDone(c, s1, t);
      TidyResume(c, g, s1, t);
    }
  }

  lemma TidyReleaseDone(c: Config, s: Sched, t: Ticket)
    requires Tidy(c, s) && t in s.objs && t < s.nextTicket && Open(s.objs[t].status)
    ensures Tidy(c, EraseRequest(SendDone(ReleaseScheduling(s, t), t), t))
  {
    hide Logs, ReleaseScheduling;
    ReleaseQueues(s, t);
    LogsReleaseDone(s, t);
  }

  lemma LogsReleaseDone(s: Sched, t: Ticket)
    requires Logs(s) && t in s.objs && t < s.nextTicket && Open(s.objs[t].status)
    ensures Logs(EraseRequest(SendDone(ReleaseScheduling(s, t), t), t))
  {
    hide Logs, ReleaseScheduling;
    ReleaseQueues(s, t);
    var s1 := ReleaseScheduling(s, t);
    LogsClosing(s, s1);
    LogsDone(s1, t);
    LogsClosing(SendDone(s1, t), EraseRequest(SendDone(s1, t), t));
  }

  lemma LogsErased(s: Sched, t: Ticket, table: seq<BlockId>)
    requires Logs(s) && t in s.objs && t < s.nextTicket && Open(s.objs[t].status)
    ensures Logs(EraseRequest(Send(s.(blocks := ReleaseTable(s.blocks, table)), t, ErrorEvent(ServerShuttingDown)), t))
  {
    hide Logs, ReleaseTable;
    LogsAppend(s, EraseRequest(Send(s.(blocks := ReleaseTable(s.blocks, table)), t, ErrorEvent(ServerShuttingDown)), t),
             t, ErrorEvent(ServerShuttingDown));
  }

  lemma LogsEnlist(c: Config, s: Sched, t: Ticket, r: Request, hits: nat, parent: Hash, table: seq<BlockId>)
    requires Logs(s) && t in s.objs && r.status == s.objs[t].status
    ensures var s' := Enlist(c, s, t, r, hits, parent, table);
      Logs(s') && s'.running == s.running + [t] && s'.skip == s.skip && s'.paused == s.paused && t in s'.objs
          && s'.nextTicket == s.nextTicket
  {
    hide Logs, Admitted;
    LogsClosing(s, Enlist(c, s, t, r, hits, parent, table));
  }

  /** The state in which an admission finds out whether it got its blocks. */
  lemma LookedQueues(c: Config, s: Sched, prompt: seq<Token>)
    ensures var s' := Looked(c, s, prompt);
      && s'.objs == s.objs && s'.log == s.log && s'.nextTicket == s.nextTicket
      && s'.running == s.running && s'.skip == s.skip && s'.paused == s.paused
  {
  }

  lemma TidyAdmitPrompt(c: Config, g: Stage, base: seq<WorkItem>, t: Ticket, raised: bool)
    requires Core(c, g.s, base + g.items, {t}, multiset{}) && Tidy(c, g.s)
    requires t in g.s.objs && t < g.s.nextTicket && g.s.objs[t].sched.None? && Open(g.s.objs[t].status)
    requires |g.s.running| < c.maxRunning && |g.s.running| + |g.s.skip| < c.maxSequences
    ensures Tidy(c, AdmitPrompt(c, g, t, g.s.objs[t], raised).g.s)
  {
    hide Core, Logs, Looked, HitTable, ParentOf, TakeBlocks, Rebuff, AdmitGranted, Sub, BlocksFor;
    var r := g.s.objs[t];
    var out := base + g.items;
    var hit := HitTable(c, g.s, r.prompt);
    var s1 := Looked(c, g.s, r.prompt);
    LookedQueues(c, g.s, r.prompt);
    LogsQueues(s1, g.s);
    CoreLooked(c, g.s, out, t, r.prompt);
    var n := Sub(BlocksFor(c, |r.prompt|), |hit|);
    CoreTake(c, s1, out, {t}, multiset(hit), n);
    TakeLogs(s1, n);
    var k := TakeBlocks(s1, n);
    LogsQueues(k.s, s1);
    if !k.ok {
      assert multiset(hit) + multiset(k.table) == multiset(hit) by { TakeFails(s1, n); }
      TidyRebuff(c, k.s, out, t, hit);
    } else {
      var s2 := k.s.(accepting := k.s.accepting && !raised);
      LogsQueues(s2, k.s);
      TidyGranted(c, g, s2, t, |hit|, ParentOf(c, r.prompt, |hit|), hit + k.table);
    }
  }

  lemma TidyGranted(c: Config, g: Stage, s: Sched, t: Ticket, hits: nat, parent: Hash, table: seq<BlockId>)
    requires Tidy(c, s) && t in s.objs && t < s.nextTicket && Open(s.objs[t].status)
    requires |s.running| < c.maxRunning && |s.running| + |s.skip| < c.maxSequences
    ensures Tidy(c, AdmitGranted(c, g, s, t, s.objs[t], hits, parent, table).g.s)
  {
    hide Logs, Enlist, BuildWork, ReleaseTable, EraseRequest, Send;
    LogsErased(s, t, table);
    EraseShape(s, t, table);
    LogsEnlist(c, s, t, s.objs[t], hits, parent, table);
    LogsBuildWork(c, g.(s := Enlist(c, s, t, s.objs[t], hits, parent, table)), t);
  }

  lemma TakeFails(s: Sched, n: nat)
    ensures !TakeBlocks(s, n).ok ==> TakeBlocks(s, n).table == []
  {
    hide AllocateKv;
  }

  lemma EraseShape(s: Sched, t: Ticket, table: seq<BlockId>)
    ensures var s' := EraseRequest(Send(s.(blocks := ReleaseTable(s.blocks, table)), t,
        ErrorEvent(ServerShuttingDown)), t);
      s'.skip == s.skip && s'.running == s.running && s'.paused == s.paused
  {
    hide ReleaseTable;
  }

  lemma TidyRebuff(c: Config, s: Sched, out: seq<WorkItem>, t: Ticket, table: seq<BlockId>)
    requires Core(c, s, out, {t}, multiset(table)) && Tidy(c, s) && t in s.objs
    ensures Tidy(c, Rebuff(s, t, table))
  {
    hide Core, Logs, MakeRoom, ReleaseTable;
    var s0 := s.(blocks := ReleaseTable(s.blocks, table));
    CoreReleaseHeld(c, s, out, {t}, table);
    LogsQueues(s0, s);
    TidyMakeRoom(c, s0, out, {t});
    LogsQueues(Rebuff(s, t, table), MakeRoom(s0));
  }

  lemma TidyAdmitWaiting(c: Config, g: Stage, base: seq<WorkItem>, raised: bool)
    requires Steady(c, g.s, base + g.items) && Tidy(c, g.s)
    ensures Tidy(c, AdmitWaiting(c, g, raised).g.s)
  {
    hide Core, Logs, Dismiss, AdmitPrompt, Cap;
    var s0 := g.s;
    if g.budget != 0 && s0.waiting != [] && |s0.running| < c.maxRunning && |s0.running| + |s0.skip| < c.maxSequences {
      var out := base + g.items;
      var t := s0.waiting[0];
      CorePopWaitingKnown(c, s0, out, {});
      CorePopWaiting(c, s0, out, {}, multiset{});
      assert {} + {t} == {t};
      var s := s0.(waiting := s0.waiting[1..]);
      LogsQueues(s, s0);
      TidyDismiss(c, s, t, ErrorEvent(RequestCancelled));
      TidyDismiss(c, s, t, DoneEvent);
      TidyDismiss(c, s, t, ErrorEvent(InvalidArgument));
      TidyAdmitPrompt(c, g.(s := s), base, t, raised);
    }
  }

  lemma {:induction false} TidyAdmitLoop(c: Config, g0: Stage, base: seq<WorkItem>, raises: seq<Raise>)
    requires Steady(c, g0.s, base + g0.items) && Tidy(c, g0.s)
    ensures Tidy(c, AdmitLoop(c, g0, raises).s)
    decreases |g0.s.skip| + |g0.s.waiting|
  {
    hide Core, AdmitSkipped, AdmitWaiting, Logs;
    var raise := if raises == [] then Raise(false, false) else raises[0];
    var later := if raises == [] then [] else raises[1..];
    var g := g0.(s := g0.s.(accepting := g0.s.accepting && !raise.head));
    CoreQuiet(c, g0.s, g.s, base + g.items, {}, multiset{});
    LogsQueues(g.s, g0.s);
    hide Tidy;
    if !(!g.s.accepting || g.s.paused || g.budget == 0 || |g.s.running| >= c.maxRunning
         || (g.s.skip == [] && g.s.waiting == [])) {
      var a := if g.s.skip != [] then AdmitSkipped(c, g, raise.check) else Admission(g, false);
      if g.s.skip != [] {
        AdmitSkippedShrinks(c, g, raise.check);
        CoreAdmitSkipped(c, g, base, raise.check);
        TidyAdmitSkipped(c, g, base, raise.check);
      }
      if a.again {
        TidyAdmitLoop(c, a.g, base, later);
      } else if a.g.s.waiting != [] {
        AdmitWaitingShrinks(c, a.g, raise.check);
        SteadyAdmitWaiting(c, a.g, base, raise.check);
        TidyAdmitWaiting(c, a.g, base, raise.check);
        var b := AdmitWaiting(c, a.g, raise.check);
        if b.again { TidyAdmitLoop(c, b.g, base, later); }
      }
    }
  }

  lemma TidyScheduleStep(c: Config, s: Sched, base: seq<WorkItem>, raises: seq<Raise>)
    requires Steady(c, s, base) && Tidy(c, s)
    ensures Tidy(c, ScheduleStep(c, s, raises).s)
  {
    hide Core, MakeRoom, BuildAll, AdmitLoop, Logs;
    var s1 := s.(nextBatch := s.nextBatch + 1);
    CoreQuiet(c, s, s1, base, {}, multiset{});
    LogsQueues(s1, s);
    if s1.shortage {
      CoreQuiet(c, s1, s1.(shortage := false), base, {}, multiset{});
      LogsQueues(s1.(shortage := false), s1);
      CoreMakeRoom(c, s1.(shortage := false), base, {}, multiset{});
      TidyMakeRoom(c, s1.(shortage := false), base, {});
    }
    var s2 := if s1.shortage then MakeRoom(s1.(shortage := false)) else s1;
    assert base + [] == base;
    hide Tidy;
    var g0 := Stage(s2, [], c.tokenBudget);
    SteadyBuildAll(c, g0, base, s2.running);
    TidyBuildAll(c, g0, base, s2.running);
    TidyAdmitLoop(c, BuildAll(c, g0, s2.running), base, raises);
  }
}
