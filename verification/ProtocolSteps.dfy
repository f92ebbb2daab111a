/** Retirement, cleanup and client calls: events and queue limits. */
module ProtocolSteps {
  import opened Types
  import opened Seqs
  import opened Blocks
  import opened Hashing
  import opened State
  import opened Scheduling
  import opened Invariant
  import opened PlaceLemmas
  import opened CoreLemmas
  import opened AdmitLemmas
  import opened RetireLemmas
  import opened StepLemmas
  import opened Protocol

  // ---------------------------------------------------------------- retirement

  lemma {:induction false} PublishFrame(c: Config, s: Sched, q: Sequence, i: nat)
    ensures var p := PublishPending(c, s, q, i); p.s == s.(blocks := p.s.blocks, hist := p.s.hist)
    decreases |q.pending|
  {
    if 0 < c.blockSize <= |q.pending| && i < |q.table| {
      StepFrame(c, s, q, i);
      var p := PublishStep(c, s, q, i);
      hide PublishStep;
      PublishFrame(c, p.s, p.q, i + 1);
    }
  }

  lemma StepFrame(c: Config, s: Sched, q: Sequence, i: nat)
    requires 0 < c.blockSize <= |q.pending| && i < |q.table|
    ensures var p := PublishStep(c, s, q, i);
      p.s == s.(blocks := p.s.blocks, hist := p.s.hist) && |p.q.pending| < |q.pending| && p.q.seqId == q.seqId
  {
    hide Chain, Publish;
  }

  lemma HashFrame(c: Config, s: Sched, r: Request, q: Sequence, x: WorkItem)
    ensures var p := HashWritten(c, s, r, q, x); p.s == s.(blocks := p.s.blocks, hist := p.s.hist)
  {
    hide PublishPending;
    if KvCount(x) != 0 && c.blockSize != 0 {
      PublishFrame(c, s, q.(pending := q.pending + WrittenTokens(r, x)), Sub(x.context, |q.pending|) / c.blockSize);
    }
  }

  /** Nothing but requests, blocks, events and history changes. */
  predicate SameShape(s: Sched, s': Sched) {
    && s'.waiting == s.waiting && s'.skip == s.skip && s'.running == s.running && s'.paused == s.paused
    && s'.nextTicket == s.nextTicket && s'.accepting == s.accepting && s'.bySeq == s.bySeq && s'.nextSeq == s.nextSeq
  }

  lemma TidyShape(c: Config, s: Sched, s': Sched)
    requires Limits(c, s) && PauseEnds(s) && SameShape(s, s') && Logs(s')
    ensures Tidy(c, s')
  {
  }

  lemma RetireActiveProtocol(c: Config, s: Sched, t: Ticket, x: WorkItem, result: ItemResult)
    requires Logs(s) && t in s.objs && t < s.nextTicket && s.objs[t].status == Active
    ensures Logs(RetireActive(c, s, t, x, result)) && SameShape(s, RetireActive(c, s, t, x, result))
  {
    hide Logs, HashWritten, Deliver, Advance;
    var r := s.objs[t];
    if r.sched.Some? {
      var q := Advance(r, r.sched.value, x);
      if x.PrefillChunk? && q.cursor < |r.prompt| {
        LogsClosing(s, Put(s, t, r.(sched := Some(q))));
      } else {
        HashFrame(c, s, r, q, x);
        var p := HashWritten(c, s, r, q, x);
        LogsQueues(p.s, s);
        LogsDeliver(p.s, t, r, p.q, result);
        DeliverShape(p.s, t, r, p.q, result);
      }
    }
  }

  lemma DeliverShape(s: Sched, t: Ticket, r: Request, q: Sequence, result: ItemResult)
    ensures SameShape(s, Deliver(s, t, r, q, result))
  {
    hide SendToken, SendDone;
    forall s1: Sched ensures SameShape(s1, SendToken(s1, t)) && SameShape(s1, SendDone(s1, t)) {
      SendShape(s1, t);
    }
  }

  lemma SendShape(s: Sched, t: Ticket)
    ensures SameShape(s, SendToken(s, t)) && SameShape(s, SendDone(s, t))
  {
    hide LogOf, Get;
    SendEventShape(s, t, TokenEvent(Last(Get(s, t).generated, 0), Get(s, t).status == Finished));
    SendEventShape(Put(s, t, Get(s, t).(status := Finished)), t, DoneEvent);
    hide Send;
  }

  lemma SendEventShape(s: Sched, t: Ticket, e: Event)
    ensures SameShape(s, Send(s, t, e))
  {
    hide LogOf, Get;
  }

  lemma RetireProtocol(c: Config, s: Sched, x: WorkItem, result: ItemResult)
    requires Logs(s) && (result.seqId in s.bySeq ==>
        s.bySeq[result.seqId] in s.objs
        && s.bySeq[result.seqId] < s.nextTicket)
    ensures Logs(RetireWork(c, s, x, result)) && SameShape(s, RetireWork(c, s, x, result))
  {
    hide Logs, RetireActive, RetireReservation;
    if result.seqId in s.bySeq && Get(s, s.bySeq[result.seqId]).sched.Some? {
      var t := s.bySeq[result.seqId];
      var r1 := RetireReservation(s.objs[t], x);
      RetireKeeps(s.objs[t], x);
      LogsClosing(s, Put(s, t, r1));
      if r1.status == Active {
        RetireActiveProtocol(c, Put(s, t, r1), t, x, result);
      }
    }
  }

  lemma BySeqKnown(c: Config, s: Sched, out: seq<WorkItem>, q: SeqId)
    requires Steady(c, s, out) && q in s.bySeq
    ensures s.bySeq[q] in s.objs && s.bySeq[q] < s.nextTicket && s.bySeq[q] in s.running
  {
    assert HasSeq(s, s.bySeq[q], q);
  }

  lemma TidyRetireWork(c: Config, s: Sched, out: seq<WorkItem>, x: WorkItem, result: ItemResult)
    requires Steady(c, s, out) && Tidy(c, s)
    ensures Tidy(c, RetireWork(c, s, x, result)) && SameShape(s, RetireWork(c, s, x, result))
  {
    hide Core, Logs, RetireWork;
    if result.seqId in s.bySeq { BySeqKnown(c, s, out, result.seqId); }
    RetireProtocol(c, s, x, result);
    TidyShape(c, s, RetireWork(c, s, x, result));
  }

  lemma TidyFailItem(c: Config, s: Sched, out: seq<WorkItem>, x: WorkItem, e: ErrorCode)
    requires Steady(c, s, out) && Tidy(c, s) && x in out
    ensures Tidy(c, FailItem(s, x, e)) && SameShape(s, FailItem(s, x, e))
  {
    hide Core, Logs, FailItem, RetireReservation;
    CoreItemIndexed(c, s, out, x);
    var t := s.bySeq[x.seqId];
    BySeqKnown(c, s, out, x.seqId);
    FailItemForm(s, x, e);
    var r1 := RetireReservation(s.objs[t], x);
    if r1.status == Active {
      LogsAppend(s, FailItem(s, x, e), t, ErrorEvent(e));
    } else {
      LogsClosing(s, FailItem(s, x, e));
    }
    TidyShape(c, s, FailItem(s, x, e));
  }

  lemma {:induction false} TidyFailBatch(c: Config, s: Sched, a: seq<WorkItem>, items: seq<WorkItem>,
          b: seq<WorkItem>, e: ErrorCode)
    requires Steady(c, s, a + items + b) && Tidy(c, s)
    ensures Tidy(c, FailBatch(s, items, e)) && SameShape(s, FailBatch(s, items, e))
    decreases |items|
  {
    hide Core, FailItem, Tidy;
    if items != [] {
      var x := items[0];
      assert a + items + b == a + [x] + (items[1..] + b);
      CoreFailItem(c, s, x, a, items[1..] + b, e);
      TidyFailItem(c, s, a + items + b, x, e);
      assert a + (items[1..] + b) == a + items[1..] + b;
      TidyFailBatch(c, FailItem(s, x, e), a, items[1..], b, e);
    }
  }

  // ---------------------------------------------------------------- cleanup

  lemma TidyReap(c: Config, s: Sched, out: seq<WorkItem>, t: Ticket)
    requires Steady(c, s, out) && Tidy(c, s) && t in s.running
    ensures Tidy(c, Reap(s, t))
  {
    hide Core, Logs, ReleaseScheduling;
    CoreRunning(c, s, out, {}, multiset{}, t);
    ReleaseQueues(s, t);
    LogsClosing(s, Reap(s, t));
  }

  lemma {:induction false} TidyReapAll(c: Config, s: Sched, out: seq<WorkItem>, ts: seq<Ticket>)
    requires Steady(c, s, out) && Tidy(c, s) && NoDup(ts) && (forall t :: t in ts ==> t in s.running)
    ensures Tidy(c, ReapAll(s, ts))
    decreases |ts|
  {
    if ts != [] {
      TailOk(ts);
      if Spent(s, ts[0]) {
        SteadyReap(c, s, out, ts[0]);
        TidyReap(c, s, out, ts[0]);
        ReapRunning(c, s, out, ts[0]);
      }
      hide Steady, Reap, Tidy;
      TidyReapAll(c, if Spent(s, ts[0]) then Reap(s, ts[0]) else s, out, ts[1..]);
    }
  }

  lemma {:induction false} LogsSweep(s: Sched, ts: seq<Ticket>)
    requires Logs(s)
    ensures Logs(Sweep(s, ts).s)
    decreases |ts|
  {
    hide Logs, ReleaseScheduling;
    if ts != [] {
      if Get(s, ts[0]).status == Active {
        LogsSweep(s, ts[1..]);
      } else {
        ReleaseErase(s, ts[0]);
        var s1 := EraseRequest(ReleaseScheduling(s, ts[0]), ts[0]);
        LogsClosing(s, s1);
        LogsSweep(s1, ts[1..]);
      }
    }
  }

  lemma ReleaseErase(s: Sched, t: Ticket)
    ensures Closing(s, EraseRequest(ReleaseScheduling(s, t), t))
  {
    hide ReleaseTable;
  }

  lemma TidyCleanSkip(c: Config, s: Sched, out: seq<WorkItem>)
    requires Steady(c, s, out) && Tidy(c, s)
    ensures var w := Sweep(s.(skip := []), s.skip); Tidy(c, w.s.(skip := w.kept))
  {
    hide Core, Logs, Sweep, NoDup;
    QueuesKnown(c, s, out);
    var s0 := s.(skip := []);
    LogsQueues(s0, s);
    LogsSweep(s0, s.skip);
    SweepKeeps(s0, s.skip);
    var w := Sweep(s0, s.skip);
    LogsQueues(w.s.(skip := w.kept), w.s);
  }

  lemma QueuesKnown(c: Config, s: Sched, out: seq<WorkItem>)
    requires Steady(c, s, out)
    ensures NoDup(s.waiting) && NoDup(s.skip) && NoDup(s.running)
    ensures forall t :: t in s.waiting || t in s.skip || t in s.running ==> t in s.objs
  {
    hide Accounted, Sound;
  }

  lemma TidyCleanWaiting(c: Config, s: Sched, out: seq<WorkItem>)
    requires Steady(c, s, out) && Tidy(c, s)
    ensures var w := Sweep(s.(waiting := []), s.waiting); Tidy(c, w.s.(waiting := w.kept))
  {
    hide Core, Logs, Sweep, NoDup;
    QueuesKnown(c, s, out);
    var s0 := s.(waiting := []);
    LogsQueues(s0, s);
    LogsSweep(s0, s.waiting);
    SweepKeeps(s0, s.waiting);
    var w := Sweep(s0, s.waiting);
    LogsQueues(w.s.(waiting := w.kept), w.s);
  }

  lemma TidyCleanupTerminal(c: Config, s: Sched, out: seq<WorkItem>)
    requires Steady(c, s, out) && Tidy(c, s)
    ensures Tidy(c, CleanupTerminal(s))
  {
    hide Core, Tidy, NoDup;
    QueuesKnown(c, s, out);
    SteadyReapAll(c, s, out, s.running);
    TidyReapAll(c, s, out, s.running);
    var s1 := ReapAll(s, s.running);
    SteadyCleanSkip(c, s1, out);
    TidyCleanSkip(c, s1, out);
    var w := Sweep(s1.(skip := []), s1.skip);
    TidyCleanWaiting(c, w.s.(skip := w.kept), out);
  }

  lemma TidyPreempt(c: Config, s: Sched, out: seq<WorkItem>)
    requires Steady(c, s, out) && Tidy(c, s) && !s.paused
    ensures Tidy(c, Preempt(s))
  {
    hide Core, Logs, FindMovable, NoDup;
    QueuesKnown(c, s, out);
    var v := FindMovable(s, s.running);
    if v.Some? {
      DropTicketOk(s.running, v.value);
      LogsQueues(Preempt(s), s);
    }
  }

  lemma {:induction false} TidyFailWaiting(c: Config, s: Sched, out: seq<WorkItem>, e: ErrorCode)
    requires Steady(c, s, out) && Tidy(c, s)
    ensures Tidy(c, FailWaiting(s, e))
    decreases |s.waiting|
  {
    hide Core, Dismiss, Logs;
    if s.waiting != [] {
      var t := s.waiting[0];
      var s1 := s.(waiting := s.waiting[1..]);
      CorePopWaitingKnown(c, s, out, {});
      CorePopWaiting(c, s, out, {}, multiset{});
      assert {} + {t} == {t} && {t} - {t} == {};
      CoreDismiss(c, s1, out, {t}, multiset{}, t, ErrorEvent(e));
      DismissQueues(s1, t, ErrorEvent(e));
      LogsQueues(s1, s);
      TidyDismiss(c, s1, t, ErrorEvent(e));
      hide Tidy;
      TidyFailWaiting(c, Dismiss(s1, t, ErrorEvent(e)), out, e);
    }
  }

  lemma {:induction false} TidyFailSkipped(c: Config, s: Sched, out: seq<WorkItem>, e: ErrorCode)
    requires Steady(c, s, out) && Tidy(c, s)
    ensures Tidy(c, FailSkipped(s, e))
    decreases |s.skip|
  {
    hide Core, Dismiss, Logs;
    if s.skip != [] {
      var t := s.skip[0];
      var s1 := s.(skip := s.skip[1..]);
      CorePopSkipKnown(c, s, out, {});
      CorePopSkip(c, s, out, {}, multiset{});
      assert {} + {t} == {t} && {t} - {t} == {};
      CoreDismiss(c, s1, out, {t}, multiset{}, t, ErrorEvent(e));
      DismissQueues(s1, t, ErrorEvent(e));
      LogsQueues(s1, s);
      TidyDismiss(c, s1, t, ErrorEvent(e));
      hide Tidy;
      TidyFailSkipped(c, Dismiss(s1, t, ErrorEvent(e)), out, e);
    }
  }

  lemma TidyFailAllWaiting(c: Config, s: Sched, out: seq<WorkItem>, e: ErrorCode)
    requires Steady(c, s, out) && Tidy(c, s)
    ensures Tidy(c, FailAllWaiting(s, e))
  {
    hide Core, Tidy;
    TidyFailWaiting(c, s, out, e);
    SteadyFailWaiting(c, s, out, e);
    TidyFailSkipped(c, FailWaiting(s, e), out, e);
  }

  lemma LogsTerminate(c: Config, s: Sched, t: Ticket, e: ErrorCode)
    requires Steady(c, s, []) && Logs(s) && t in s.running
    ensures Logs(Terminate(s, t, e))
  {
    hide Core, Logs, ReleaseScheduling, SendError;
    CoreRunning(c, s, [], {}, multiset{}, t);
    var s1 := if s.objs[t].status == Active then SendError(s, t, e) else s;
    if s.objs[t].status == Active { LogsError(s, t, e); SendErrorKeeps(s, t, e); }
    ReleaseQueues(s1, t);
    LogsClosing(s1, Terminate(s, t, e));
  }

  lemma SendErrorKeeps(s: Sched, t: Ticket, e: ErrorCode)
    requires t in s.objs
    ensures var s' := SendError(s, t, e); t in s'.objs && s'.objs[t].sched == s.objs[t].sched && s'.running == s.running
  {
  }

  lemma {:induction false} LogsTerminateAll(c: Config, s: Sched, ts: seq<Ticket>, e: ErrorCode)
    requires Steady(c, s, []) && Logs(s) && s.running == ts
    ensures Logs(TerminateAll(s, ts, e))
    decreases |ts|
  {
    hide Core, Terminate, Logs;
    if ts != [] {
      SteadyTerminate(c, s, ts[0], e);
      LogsTerminate(c, s, ts[0], e);
      LogsTerminateAll(c, Terminate(s, ts[0], e), ts[1..], e);
    }
  }

  // ---------------------------------------------------------------- clients

  lemma LogsTicket(s: Sched, s': Sched, l: seq<Event>)
    requires Logs(s) && s.nextTicket !in s.objs
    requires s'.log == s.log[s.nextTicket := l] && s'.nextTicket == s.nextTicket + 1
    requires forall u :: u in s'.objs && u != s.nextTicket ==> u in s.objs && s'.objs[u] == s.objs[u]
    requires |l| <= 1 && (s.nextTicket in s'.objs ==> l == [])
    ensures Logs(s')
  {
    forall u: Ticket ensures LogOk(s', u) {
      assert LogOk(s, u);
      assert u != s.nextTicket ==> LogOf(s', u) == LogOf(s, u);
    }
  }

  lemma TidyRefuse(c: Config, s: Sched, open: bool, e: ErrorCode)
    requires Tidy(c, s) && s.nextTicket !in s.objs
    ensures Tidy(c, Refuse(s, open, e))
  {
    hide Logs;
    LogsTicket(s, Refuse(s, open, e), if open then [ErrorEvent(e)] else []);
  }

  lemma TidyAccept(c: Config, s: Sched, r: Request)
    requires Tidy(c, s) && s.nextTicket !in s.objs
    ensures Tidy(c, Accept(s, r))
  {
    hide Logs;
    LogsTicket(s, Accept(s, r), []);
  }

  lemma TidySubmit(c: Config, s: Sched, out: seq<WorkItem>, id: string, prompt: seq<Token>, maxTokens: int,
          maxContext: int, open: bool)
    requires Steady(c, s, out) && Tidy(c, s)
    ensures Tidy(c, Submit(c, s, id, prompt, maxTokens, maxContext, open))
  {
    hide Core, Tidy, Refuse, Accept;
    BeyondTicketsCore(c, s, out);
    TidyRefuse(c, s, open, ServerShuttingDown);
    TidyRefuse(c, s, open, InvalidArgument);
    TidyRefuse(c, s, open, RequestQueueFull);
    TidyAccept(c, s, Request(id, prompt, prompt, Active, [], maxTokens,
                             if maxContext <= 0 then c.defaultContext else maxContext, open, None));
  }

  lemma TidyCancel(c: Config, s: Sched, out: seq<WorkItem>, id: string)
    requires Steady(c, s, out) && Tidy(c, s)
    ensures Tidy(c, Cancel(s, id))
  {
    hide Core, Logs;
    if id in s.registry { RegistryKnown(c, s, out, id); }
    LogsClosing(s, Cancel(s, id));
  }

  lemma TidyHangup(c: Config, s: Sched, t: Ticket)
    requires Tidy(c, s)
    ensures Tidy(c, Hangup(s, t))
  {
    hide Logs;
    LogsClosing(s, Hangup(s, t));
  }
}
