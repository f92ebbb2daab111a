/** Only the shutdown call lowers the accepting flag, and no scheduler operation raises it. */
module FlagLemmas {
  import opened Types
  import opened Blocks
  import Hashing
  import opened State
  import opened Scheduling

  lemma ReleaseFlag(s: Sched, t: Ticket)
    ensures ReleaseScheduling(s, t).accepting == s.accepting && ReleaseScheduling(s, t).running == s.running
    ensures ReleaseScheduling(s, t).waiting == s.waiting && ReleaseScheduling(s, t).skip == s.skip
  {
    hide ReleaseTable;
  }

  lemma DismissFlag(s: Sched, t: Ticket, e: Event)
    ensures Dismiss(s, t, e).accepting == s.accepting && Dismiss(s, t, e).running == s.running
  {
    hide ReleaseScheduling;
    ReleaseFlag(s, t);
  }

  lemma MakeRoomFlag(s: Sched)
    ensures MakeRoom(s).accepting == s.accepting
  {
    hide ReleaseScheduling, FindVictim, PrepareForWait;
    if s.skip != [] {
      var s1 := s.(skip := s.skip[1..]);
      ReleaseFlag(Put(s1, s.skip[0], PrepareForWait(Get(s1, s.skip[0]))), s.skip[0]);
    } else {
      var v := FindVictim(s);
      if v.Some? { ReleaseFlag(Put(s, v.value, PrepareForWait(Get(s, v.value))), v.value); }
    }
  }

  lemma AdmitSkippedFlag(c: Config, g: Stage, raised: bool)
    ensures AdmitSkipped(c, g, raised).g.s.accepting ==> g.s.accepting
  {
    hide Dismiss, ReleaseScheduling, BuildWork;
    if g.s.skip != [] {
      var t := g.s.skip[0];
      var s := g.s.(skip := g.s.skip[1..]);
      var s1 := s.(accepting := s.accepting && !raised);
      DismissFlag(s, t, ErrorEvent(RequestCancelled));
      DismissFlag(s, t, DoneEvent);
      DismissFlag(s1, t, ErrorEvent(ServerShuttingDown));
      ReleaseFlag(s1, t);
    }
  }

  lemma TakeFlag(s: Sched, n: nat)
    ensures TakeBlocks(s, n).s.accepting == s.accepting
  {
    hide AllocateKv;
  }

  lemma GrantedFlag(c: Config, g: Stage, s: Sched, t: Ticket, r: Request, hits: nat, parent: Hash, table: seq<BlockId>)
    ensures AdmitGranted(c, g, s, t, r, hits, parent, table).g.s.accepting == s.accepting
  {
    hide ReleaseTable, BuildWork, Admitted, Get, LogOf;
  }

  lemma AdmitPromptFlag(c: Config, g: Stage, t: Ticket, r: Request, raised: bool)
    ensures AdmitPrompt(c, g, t, r, raised).g.s.accepting ==> g.s.accepting
  {
    hide LookupPrefix, TakeBlocks, MakeRoom, ReleaseTable, AdmitGranted, Hashing.ChainHashes, BlockPrefixes,
        BlocksFor, HitTable, ParentOf;
    var hit := HitTable(c, g.s, r.prompt);
    var s1 := Looked(c, g.s, r.prompt);
    var n := Sub(BlocksFor(c, |r.prompt|), |hit|);
    TakeFlag(s1, n);
    var taken := TakeBlocks(s1, n);
    MakeRoomFlag(taken.s.(blocks := ReleaseTable(taken.s.blocks, hit)));
    GrantedFlag(c, g, taken.s.(accepting := taken.s.accepting && !raised), t, r, |hit|, ParentOf(c, r.prompt, |hit|),
        hit + taken.table);
  }

  lemma AdmitWaitingFlag(c: Config, g: Stage, raised: bool)
    ensures AdmitWaiting(c, g, raised).g.s.accepting ==> g.s.accepting
  {
    hide Dismiss, AdmitPrompt;
    if g.s.waiting != [] {
      var t := g.s.waiting[0];
      var s := g.s.(waiting := g.s.waiting[1..]);
      DismissFlag(s, t, ErrorEvent(RequestCancelled));
      DismissFlag(s, t, DoneEvent);
      DismissFlag(s, t, ErrorEvent(InvalidArgument));
      AdmitPromptFlag(c, g.(s := s), t, Get(g.s, t), raised);
    }
  }

  lemma {:induction false} AdmitLoopFlag(c: Config, g0: Stage, raises: seq<Raise>)
    ensures AdmitLoop(c, g0, raises).s.accepting ==> g0.s.accepting
    decreases |g0.s.skip| + |g0.s.waiting|
  {
    hide AdmitSkipped, AdmitWaiting;
    var raise := if raises == [] then Raise(false, false) else raises[0];
    var later := if raises == [] then [] else raises[1..];
    var g := g0.(s := g0.s.(accepting := g0.s.accepting && !raise.head));
    if !(!g.s.accepting || g.s.paused || g.budget == 0 || |g.s.running| >= c.maxRunning
         || (g.s.skip == [] && g.s.waiting == [])) {
      var a := if g.s.skip != [] then AdmitSkipped(c, g, raise.check) else Admission(g, false);
      if g.s.skip != [] {
        AdmitSkippedShrinks(c, g, raise.check);
        AdmitSkippedFlag(c, g, raise.check);
      }
      if a.again {
        AdmitLoopFlag(c, a.g, later);
      } else if a.g.s.waiting != [] {
        AdmitWaitingShrinks(c, a.g, raise.check);
        AdmitWaitingFlag(c, a.g, raise.check);
        var b := AdmitWaiting(c, a.g, raise.check);
        if b.again { AdmitLoopFlag(c, b.g, later); }
      }
    }
  }

  lemma ScheduleFlag(c: Config, s: Sched, raises: seq<Raise>)
    ensures ScheduleStep(c, s, raises).s.accepting ==> s.accepting
  {
    hide MakeRoom, BuildAll, AdmitLoop;
    var s1 := s.(nextBatch := s.nextBatch + 1);
    MakeRoomFlag(s1.(shortage := false));
    var s2 := if s1.shortage then MakeRoom(s1.(shortage := false)) else s1;
    AdmitLoopFlag(c, BuildAll(c, Stage(s2, [], c.tokenBudget), s2.running), raises);
  }

  lemma {:induction false} ReapAllFlag(s: Sched, ts: seq<Ticket>)
    ensures ReapAll(s, ts).accepting == s.accepting
    decreases |ts|
  {
    hide ReleaseScheduling;
    if ts != [] {
      ReleaseFlag(s, ts[0]);
      ReapAllFlag(if Spent(s, ts[0]) then Reap(s, ts[0]) else s, ts[1..]);
    }
  }

  lemma {:induction false} SweepFlag(s: Sched, ts: seq<Ticket>)
    ensures Sweep(s, ts).s.accepting == s.accepting
    decreases |ts|
  {
    hide ReleaseScheduling;
    if ts != [] {
      ReleaseFlag(s, ts[0]);
      if Get(s, ts[0]).status == Active {
        SweepFlag(s, ts[1..]);
      } else {
        SweepFlag(EraseRequest(ReleaseScheduling(s, ts[0]), ts[0]), ts[1..]);
      }
    }
  }

  lemma CleanupFlag(s: Sched)
    ensures CleanupTerminal(s).accepting == s.accepting
  {
    hide ReapAll, Sweep;
    ReapAllFlag(s, s.running);
    var s1 := ReapAll(s, s.running);
    SweepFlag(s1.(skip := []), s1.skip);
    var w := Sweep(s1.(skip := []), s1.skip);
    var s2 := w.s.(skip := w.kept);
    SweepFlag(s2.(waiting := []), s2.waiting);
  }

  lemma PreemptFlag(s: Sched)
    ensures Preempt(s).accepting == s.accepting
  {
    hide FindMovable;
  }

  lemma {:induction false} FailWaitingFlag(s: Sched, e: ErrorCode)
    ensures FailWaiting(s, e).accepting == s.accepting && FailWaiting(s, e).running == s.running
    decreases |s.waiting|
  {
    hide Dismiss;
    if s.waiting != [] {
      var s1 := s.(waiting := s.waiting[1..]);
      DismissQueues(s1, s.waiting[0], ErrorEvent(e));
      DismissFlag(s1, s.waiting[0], ErrorEvent(e));
      FailWaitingFlag(Dismiss(s1, s.waiting[0], ErrorEvent(e)), e);
    }
  }

  lemma {:induction false} FailSkippedFlag(s: Sched, e: ErrorCode)
    ensures FailSkipped(s, e).accepting == s.accepting && FailSkipped(s, e).running == s.running
    decreases |s.skip|
  {
    hide Dismiss;
    if s.skip != [] {
      var s1 := s.(skip := s.skip[1..]);
      DismissQueues(s1, s.skip[0], ErrorEvent(e));
      DismissFlag(s1, s.skip[0], ErrorEvent(e));
      FailSkippedFlag(Dismiss(s1, s.skip[0], ErrorEvent(e)), e);
    }
  }

  lemma FailAllFlag(s: Sched, e: ErrorCode)
    ensures FailAllWaiting(s, e).accepting == s.accepting && FailAllWaiting(s, e).running == s.running
  {
    hide FailWaiting, FailSkipped;
    FailWaitingFlag(s, e);
    FailSkippedFlag(FailWaiting(s, e), e);
  }

  lemma {:induction false} TerminateFlag(s: Sched, ts: seq<Ticket>, e: ErrorCode)
    ensures TerminateAll(s, ts, e).accepting == s.accepting
    decreases |ts|
  {
    hide ReleaseScheduling;
    if ts != [] {
      var s1 := if Get(s, ts[0]).status == Active then SendError(s, ts[0], e) else s;
      ReleaseFlag(s1, ts[0]);
      TerminateFlag(Terminate(s, ts[0], e), ts[1..], e);
    }
  }
}
