/** The scheduler's operations keep the core invariant. */
module StepLemmas {
  import opened Types
  import opened Seqs
  import opened Blocks
  import BlockLemmas
  import opened State
  import opened Scheduling
  import opened Invariant
  import opened PlaceLemmas
  import opened AccountLemmas
  import opened CoreLemmas
  import opened BuildLemmas
  import opened AdmitLemmas
  import opened RetireLemmas

  /** The core invariant between operations. */
  ghost predicate Steady(c: Config, s: Sched, out: seq<WorkItem>) {
    Core(c, s, out, {}, multiset{})
  }

  // ---------------------------------------------------------------- scheduling

  lemma {:induction false} SteadyBuildAll(c: Config, g: Stage, base: seq<WorkItem>, ts: seq<Ticket>)
    requires Steady(c, g.s, base + g.items) && (forall t :: t in ts ==> t in g.s.running)
    ensures var g' := BuildAll(c, g, ts); Steady(c, g'.s, base + g'.items)
    decreases |ts|
  {
    hide Core, BuildWork;
    if ts != [] && g.budget != 0 {
      CoreBuildWork(c, g, base, {}, multiset{}, ts[0]);
      SteadyBuildAll(c, BuildWork(c, g, ts[0]), base, ts[1..]);
    }
  }

  lemma SteadyAdmitWaiting(c: Config, g: Stage, base: seq<WorkItem>, raised: bool)
    requires Steady(c, g.s, base + g.items)
    ensures var a := AdmitWaiting(c, g, raised); Steady(c, a.g.s, base + a.g.items)
  {
    hide Core, Dismiss, AdmitPrompt, Cap;
    var s0 := g.s;
    if g.budget != 0 && s0.waiting != [] && |s0.running| < c.maxRunning && |s0.running| + |s0.skip| < c.maxSequences {
      var out := base + g.items;
      var t := s0.waiting[0];
      CorePopWaiting(c, s0, out, {}, multiset{});
      assert {} + {t} == {t} && {t} - {t} == {};
      var s := s0.(waiting := s0.waiting[1..]);
      var r := s.objs[t];
      CoreDismiss(c, s, out, {t}, multiset{}, t, ErrorEvent(RequestCancelled));
      CoreDismiss(c, s, out, {t}, multiset{}, t, DoneEvent);
      CoreDismiss(c, s, out, {t}, multiset{}, t, ErrorEvent(InvalidArgument));
      if 0 < r.maxTokens && r.prompt != [] && |r.prompt| <= r.maxContext <= Cap(c, c.maxBlocks) {
        CoreWithinLimit(c, s, out, {t}, multiset{}, t);
        CoreAdmitPrompt(c, g.(s := s), base, t, raised);
      }
    }
  }

  lemma {:induction false} SteadyAdmitLoop(c: Config, g0: Stage, base: seq<WorkItem>, raises: seq<Raise>)
    requires Steady(c, g0.s, base + g0.items)
    ensures var g := AdmitLoop(c, g0, raises); Steady(c, g.s, base + g.items)
    decreases |g0.s.skip| + |g0.s.waiting|
  {
    hide Core, AdmitSkipped, AdmitWaiting;
    var raise := if raises == [] then Raise(false, false) else raises[0];
    var later := if raises == [] then [] else raises[1..];
    var g := g0.(s := g0.s.(accepting := g0.s.accepting && !raise.head));
    CoreQuiet(c, g0.s, g.s, base + g.items, {}, multiset{});
    if !(!g.s.accepting || g.s.paused || g.budget == 0 || |g.s.running| >= c.maxRunning
         || (g.s.skip == [] && g.s.waiting == [])) {
      var a := if g.s.skip != [] then AdmitSkipped(c, g, raise.check) else Admission(g, false);
      if g.s.skip != [] {
        AdmitSkippedShrinks(c, g, raise.check);
        CoreAdmitSkipped(c, g, base, raise.check);
      }
      if a.again {
        SteadyAdmitLoop(c, a.g, base, later);
      } else if a.g.s.waiting != [] {
        AdmitWaitingShrinks(c, a.g, raise.check);
        SteadyAdmitWaiting(c, a.g, base, raise.check);
        var b := AdmitWaiting(c, a.g, raise.check);
        if b.again { SteadyAdmitLoop(c, b.g, base, later); }
      }
    }
  }

  /** Dropping the work of suspended sequences from the batch never drops anything. */
  lemma {:induction false} NothingToDrop(bySeq: map<SeqId, Ticket>, items: seq<WorkItem>)
    requires forall x :: x in items ==> x.seqId in bySeq
    ensures KeepIndexed(bySeq, items) == items
  {
    if items != [] {
      assert items[0] in items;
      NothingToDrop(bySeq, items[1..]);
    }
  }

  lemma StageIndexed(c: Config, s: Sched, base: seq<WorkItem>, items: seq<WorkItem>)
    requires Steady(c, s, base + items)
    ensures KeepIndexed(s.bySeq, items) == items
  {
    hide Places, Accounted, Sound;
    forall x | x in items ensures x.seqId in s.bySeq {
      assert x in base + items;
    }
    NothingToDrop(s.bySeq, items);
  }

  lemma SteadyScheduleStep(c: Config, s: Sched, base: seq<WorkItem>, raises: seq<Raise>)
    requires Steady(c, s, base)
    ensures var g := ScheduleStep(c, s, raises); Steady(c, g.s, base + g.items)
  {
    hide Core, MakeRoom, BuildAll, AdmitLoop;
    var s1 := s.(nextBatch := s.nextBatch + 1);
    CoreQuiet(c, s, s1, base, {}, multiset{});
    if s1.shortage {
      CoreQuiet(c, s1, s1.(shortage := false), base, {}, multiset{});
      CoreMakeRoom(c, s1.(shortage := false), base, {}, multiset{});
    }
    var s2 := if s1.shortage then MakeRoom(s1.(shortage := false)) else s1;
    assert base + [] == base;
    var g0 := Stage(s2, [], c.tokenBudget);
    SteadyBuildAll(c, g0, base, s2.running);
    var g1 := BuildAll(c, g0, s2.running);
    SteadyAdmitLoop(c, g1, base, raises);
    var g := AdmitLoop(c, g1, raises);
    StageIndexed(c, g.s, base, g.items);
  }

  // ---------------------------------------------------------------- results

  lemma {:induction false} SteadyFailBatch(c: Config, s: Sched, a: seq<WorkItem>, items: seq<WorkItem>,
          b: seq<WorkItem>, e: ErrorCode)
    requires Steady(c, s, a + items + b)
    ensures Steady(c, FailBatch(s, items, e), a + b)
    decreases |items|
  {
    hide Core, FailItem;
    if items == [] {
      assert a + items + b == a + b;
    } else {
      var x := items[0];
      assert a + items + b == a + [x] + (items[1..] + b);
      CoreFailItem(c, s, x, a, items[1..] + b, e);
      assert a + (items[1..] + b) == a + items[1..] + b;
      SteadyFailBatch(c, FailItem(s, x, e), a, items[1..], b, e);
    }
  }

  // ---------------------------------------------------------------- cleanup

  lemma SteadyReap(c: Config, s: Sched, out: seq<WorkItem>, t: Ticket)
    requires Steady(c, s, out) && t in s.running && Spent(s, t)
    ensures Steady(c, Reap(s, t), out)
  {
    hide Core, ReleaseTable;
    CoreRunning(c, s, out, {}, multiset{}, t);
    var q := s.objs[t].sched.value;
    CoreDetach(c, s, out, {}, multiset{}, t);
    var d := s.(running := DropTicket(s.running, t), bySeq := s.bySeq - {q.seqId});
    assert {} + {t} == {t} && {t} - {t} == {};
    CoreRelease(c, d, out, {t}, multiset{}, t);
    var d1 := ReleaseScheduling(d, t);
    assert d.bySeq - {q.seqId} == d.bySeq;
    var d2 := d1.(paused := false);
    CoreQuiet(c, d1, d2, out, {t}, multiset{});
    CoreErase(c, d2, out, {t}, multiset{}, t);
  }

  lemma {:induction false} SteadyReapAll(c: Config, s: Sched, out: seq<WorkItem>, ts: seq<Ticket>)
    requires Steady(c, s, out) && NoDup(ts) && (forall t :: t in ts ==> t in s.running)
    ensures Steady(c, ReapAll(s, ts), out)
    decreases |ts|
  {
    if ts != [] {
      TailOk(ts);
      if Spent(s, ts[0]) {
        SteadyReap(c, s, out, ts[0]);
        ReapRunning(c, s, out, ts[0]);
      }
      hide Steady, Reap;
      SteadyReapAll(c, if Spent(s, ts[0]) then Reap(s, ts[0]) else s, out, ts[1..]);
    }
  }

  lemma ReapRunning(c: Config, s: Sched, out: seq<WorkItem>, t: Ticket)
    requires Steady(c, s, out)
    ensures Reap(s, t).running == DropTicket(s.running, t)
    ensures forall u :: u in Reap(s, t).running <==> u in s.running && u != t
  {
    DropTicketOk(s.running, t);
    hide Core, ReleaseTable, DropTicket, Get;
  }

  lemma CoreSweepOne(c: Config, s: Sched, out: seq<WorkItem>, hand: set<Ticket>, t: Ticket)
    requires Core(c, s, out, hand, multiset{}) && t in hand && t in s.objs
    ensures Core(c, EraseRequest(ReleaseScheduling(s, t), t), out, hand - {t}, multiset{})
  {
    hide Core;
    CoreRelease(c, s, out, hand, multiset{}, t);
    SweepOne(s, t);
    hide ReleaseScheduling;
    CoreErase(c, ReleaseScheduling(s, t), out, hand, multiset{}, t);
  }

  lemma ElemsCons(other: set<Ticket>, ts: seq<Ticket>)
    requires ts != [] && NoDup(ts) && other !! Elems(ts)
    ensures NoDup(ts[1..]) && other + {ts[0]} !! Elems(ts[1..]) && other !! Elems(ts[1..])
    ensures other + Elems(ts) == other + {ts[0]} + Elems(ts[1..])
    ensures other + Elems(ts) - {ts[0]} == other + Elems(ts[1..])
  {
    TailOk(ts);
  }

  /** Sweeping a queue: its inactive requests are released, the active ones stay. */
  lemma {:induction false} CoreSweep(c: Config, s: Sched, out: seq<WorkItem>, other: set<Ticket>, ts: seq<Ticket>)
    requires Core(c, s, out, other + Elems(ts), multiset{}) && NoDup(ts) && other !! Elems(ts)
    ensures Core(c, Sweep(s, ts).s, out, other + Elems(Sweep(s, ts).kept), multiset{})
    decreases |ts|
  {
    hide Core, NoDup, ReleaseScheduling, EraseRequest;
    if ts != [] {
      var t := ts[0];
      ElemsCons(other, ts);
      InHandCore(c, s, out, other + Elems(ts), t);
      if s.objs[t].status == Active {
        CoreSweep(c, s, out, other + {t}, ts[1..]);
        var w := Sweep(s, ts[1..]);
        assert other + Elems([t] + w.kept) == other + {t} + Elems(w.kept);
      } else {
        CoreSweepOne(c, s, out, other + Elems(ts), t);
        CoreSweep(c, EraseRequest(ReleaseScheduling(s, t), t), out, other, ts[1..]);
      }
    }
  }

  lemma {:induction false} SweepKeeps(s: Sched, ts: seq<Ticket>)
    requires NoDup(ts) && (forall t :: t in ts ==> t in s.objs)
    ensures var w := Sweep(s, ts);
      && (forall t :: t in w.kept ==>
        t in ts && t in w.s.objs && w.s.objs[t] == s.objs[t]
        && s.objs[t].status == Active)
      && NoDup(w.kept) && |w.kept| <= |ts|
      && w.s.waiting == s.waiting && w.s.skip == s.skip && w.s.running == s.running && w.s.paused == s.paused
    decreases |ts|
  {
    if ts != [] {
      var t := ts[0];
      TailOk(ts);
      if s.objs[t].status == Active {
        SweepKeeps(s, ts[1..]);
        SweepSpares(s, ts[1..], t);
        ConsNoDup(t, Sweep(s, ts[1..]).kept);
      } else {
        SweepOne(s, t);
        hide ReleaseScheduling;
        SweepKeeps(EraseRequest(ReleaseScheduling(s, t), t), ts[1..]);
      }
    }
  }

  lemma InHandCore(c: Config, s: Sched, out: seq<WorkItem>, hand: set<Ticket>, t: Ticket)
    requires Core(c, s, out, hand, multiset{}) && t in hand
    ensures t in s.objs
  {
  }

  lemma SweepOne(s: Sched, t: Ticket)
    requires t in s.objs
    ensures var s0 := ReleaseScheduling(s, t);
      && t in s0.objs && s0.objs[t].sched.None?
      && s0.waiting == s.waiting && s0.skip == s.skip && s0.running == s.running && s0.paused == s.paused
      && (forall u :: u in s.objs && u != t ==> u in s0.objs && s0.objs[u] == s.objs[u])
  {
    hide ReleaseTable;
  }

  lemma {:induction false} SweepSpares(s: Sched, ts: seq<Ticket>, t: Ticket)
    requires t !in ts && t in s.objs
    ensures t in Sweep(s, ts).s.objs && Sweep(s, ts).s.objs[t] == s.objs[t]
    decreases |ts|
  {
    if ts != [] {
      hide ReleaseTable;
      var s1 := EraseRequest(ReleaseScheduling(s, ts[0]), ts[0]);
      assert t in s1.objs && s1.objs[t] == s.objs[t];
      hide ReleaseScheduling;
      if Get(s, ts[0]).status == Active { SweepSpares(s, ts[1..], t); } else { SweepSpares(s1, ts[1..], t); }
    }
  }

  lemma CoreEmptySkip(c: Config, s: Sched, out: seq<WorkItem>)
    requires Steady(c, s, out)
    ensures NoDup(s.skip) && Core(c, s.(skip := []), out, Elems(s.skip), multiset{})
    ensures forall t :: t in s.skip ==> t in s.objs && s.objs[t].sched.Some? && Open(s.objs[t].status)
  {
    hide Accounted, Sound;
    assert NoDup(s.skip);
    hide Places, NoDup;
    var s0 := s.(skip := []);
    PlacesEmptySkip(s, s0);
    CoreSame(c, s, s0, out, Elems(s.skip), multiset{});
  }

  lemma CoreFillSkip(c: Config, s: Sched, out: seq<WorkItem>, kept: seq<Ticket>)
    requires Core(c, s, out, Elems(kept), multiset{}) && NoDup(kept) && s.skip == []
    requires forall t :: t in kept ==> t in s.objs && s.objs[t].sched.Some? && Open(s.objs[t].status)
    ensures Steady(c, s.(skip := kept), out)
  {
    hide Accounted, Sound, Places, NoDup;
    PlacesFillSkip(s, s.(skip := kept), kept);
    CoreSame(c, s, s.(skip := kept), out, {}, multiset{});
  }

  lemma SteadyCleanSkip(c: Config, s: Sched, out: seq<WorkItem>)
    requires Steady(c, s, out)
    ensures var w := Sweep(s.(skip := []), s.skip); Steady(c, w.s.(skip := w.kept), out)
  {
    hide Core, NoDup, Sweep;
    var s0 := s.(skip := []);
    CoreEmptySkip(c, s, out);
    assert {} + Elems(s.skip) == Elems(s.skip);
    CoreSweep(c, s0, out, {}, s.skip);
    SweepKeeps(s0, s.skip);
    var w := Sweep(s0, s.skip);
    assert {} + Elems(w.kept) == Elems(w.kept);
    CoreFillSkip(c, w.s, out, w.kept);
  }

  lemma CoreEmptyWaiting(c: Config, s: Sched, out: seq<WorkItem>)
    requires Steady(c, s, out)
    ensures NoDup(s.waiting) && Core(c, s.(waiting := []), out, Elems(s.waiting), multiset{})
    ensures forall t :: t in s.waiting ==> t in s.objs && s.objs[t].sched.None? && Open(s.objs[t].status)
  {
    hide Accounted, Sound;
    assert NoDup(s.waiting);
    hide Places, NoDup;
    var s0 := s.(waiting := []);
    PlacesEmptyWaiting(s, s0);
    CoreSame(c, s, s0, out, Elems(s.waiting), multiset{});
  }

  lemma CoreFillWaiting(c: Config, s: Sched, out: seq<WorkItem>, kept: seq<Ticket>)
    requires Core(c, s, out, Elems(kept), multiset{}) && NoDup(kept) && s.waiting == []
    requires forall t :: t in kept ==> t in s.objs && s.objs[t].sched.None? && Open(s.objs[t].status)
    ensures Steady(c, s.(waiting := kept), out)
  {
    hide Accounted, Sound, Places, NoDup;
    PlacesFillWaiting(s, s.(waiting := kept), kept);
    CoreSame(c, s, s.(waiting := kept), out, {}, multiset{});
  }

  lemma SteadyCleanWaiting(c: Config, s: Sched, out: seq<WorkItem>)
    requires Steady(c, s, out)
    ensures var w := Sweep(s.(waiting := []), s.waiting); Steady(c, w.s.(waiting := w.kept), out)
  {
    hide Core, NoDup, Sweep;
    var s0 := s.(waiting := []);
    CoreEmptyWaiting(c, s, out);
    assert {} + Elems(s.waiting) == Elems(s.waiting);
    CoreSweep(c, s0, out, {}, s.waiting);
    SweepKeeps(s0, s.waiting);
    var w := Sweep(s0, s.waiting);
    assert {} + Elems(w.kept) == Elems(w.kept);
    CoreFillWaiting(c, w.s, out, w.kept);
  }

  lemma SteadyCleanupTerminal(c: Config, s: Sched, out: seq<WorkItem>)
    requires Steady(c, s, out)
    ensures Steady(c, CleanupTerminal(s), out)
  {
    hide Accounted, Sound;
    assert NoDup(s.running);
    hide Core;
    SteadyReapAll(c, s, out, s.running);
    var s1 := ReapAll(s, s.running);
    SteadyCleanSkip(c, s1, out);
    var w := Sweep(s1.(skip := []), s1.skip);
    SteadyCleanWaiting(c, w.s.(skip := w.kept), out);
  }

  lemma SteadyPreempt(c: Config, s: Sched, out: seq<WorkItem>)
    requires Steady(c, s, out)
    ensures Steady(c, Preempt(s), out)
  {
    hide Core, FindMovable;
    var v := FindMovable(s, s.running);
    if v.Some? {
      var t := v.value;
      CoreRunning(c, s, out, {}, multiset{}, t);
      CoreDetach(c, s, out, {}, multiset{}, t);
      assert {} + {t} == {t} && {t} - {t} == {};
      var d := s.(running := DropTicket(s.running, t), bySeq := s.bySeq - {s.objs[t].sched.value.seqId});
      CorePushSkip(c, d, out, {t}, multiset{}, t);
    }
  }

  lemma {:induction false} SteadyFailWaiting(c: Config, s: Sched, out: seq<WorkItem>, e: ErrorCode)
    requires Steady(c, s, out)
    ensures Steady(c, FailWaiting(s, e), out)
    ensures FailWaiting(s, e).waiting == []
    decreases |s.waiting|
  {
    hide Core, Dismiss;
    if s.waiting != [] {
      var t := s.waiting[0];
      var s1 := s.(waiting := s.waiting[1..]);
      CorePopWaiting(c, s, out, {}, multiset{});
      assert {} + {t} == {t} && {t} - {t} == {};
      CoreDismiss(c, s1, out, {t}, multiset{}, t, ErrorEvent(e));
      DismissQueues(s1, t, ErrorEvent(e));
      SteadyFailWaiting(c, Dismiss(s1, t, ErrorEvent(e)), out, e);
    }
  }

  lemma {:induction false} SteadyFailSkipped(c: Config, s: Sched, out: seq<WorkItem>, e: ErrorCode)
    requires Steady(c, s, out)
    ensures Steady(c, FailSkipped(s, e), out)
    ensures FailSkipped(s, e).skip == [] && FailSkipped(s, e).waiting == s.waiting
    decreases |s.skip|
  {
    hide Core, Dismiss;
    if s.skip != [] {
      var t := s.skip[0];
      var s1 := s.(skip := s.skip[1..]);
      CorePopSkip(c, s, out, {}, multiset{});
      assert {} + {t} == {t} && {t} - {t} == {};
      CoreDismiss(c, s1, out, {t}, multiset{}, t, ErrorEvent(e));
      DismissQueues(s1, t, ErrorEvent(e));
      SteadyFailSkipped(c, Dismiss(s1, t, ErrorEvent(e)), out, e);
    }
  }

  lemma SteadyFailAllWaiting(c: Config, s: Sched, out: seq<WorkItem>, e: ErrorCode)
    requires Steady(c, s, out)
    ensures Steady(c, FailAllWaiting(s, e), out)
    ensures FailAllWaiting(s, e).waiting == [] && FailAllWaiting(s, e).skip == []
  {
    hide Core;
    SteadyFailWaiting(c, s, out, e);
    SteadyFailSkipped(c, FailWaiting(s, e), out, e);
  }

  /** At shutdown, with nothing in flight, a running request is told and released. */
  lemma SteadyTerminate(c: Config, s: Sched, t: Ticket, e: ErrorCode)
    requires Steady(c, s, []) && t in s.running
    ensures Steady(c, Terminate(s, t, e), [])
    ensures Terminate(s, t, e).running == DropTicket(s.running, t)
    ensures Terminate(s, t, e).waiting == s.waiting && Terminate(s, t, e).skip == s.skip
  {
    hide Core, ReleaseScheduling, SendError, EraseRequest;
    CoreRunning(c, s, [], {}, multiset{}, t);
    CoreSendError(c, s, [], {}, multiset{}, t, e);
    SendErrorFrame(s, t, e);
    var s1 := if s.objs[t].status == Active then SendError(s, t, e) else s;
    var q := s1.objs[t].sched.value;
    NoneLeased(c, s1, t);
    CoreDetach(c, s1, [], {}, multiset{}, t);
    var d := s1.(running := DropTicket(s1.running, t), bySeq := s1.bySeq - {q.seqId});
    assert {} + {t} == {t} && {t} - {t} == {};
    CoreRelease(c, d, [], {t}, multiset{}, t);
    ReleaseDetached(s1, t, d);
    CoreErase(c, ReleaseScheduling(d, t), [], {t}, multiset{}, t);
    EraseQueues(ReleaseScheduling(d, t), t);
  }

  lemma SendErrorFrame(s: Sched, t: Ticket, e: ErrorCode)
    requires t in s.objs
    ensures var s' := SendError(s, t, e);
      && t in s'.objs && s'.objs[t].sched == s.objs[t].sched && s'.running == s.running && s'.bySeq == s.bySeq
      && s'.waiting == s.waiting && s'.skip == s.skip
  {
    hide LogOf;
  }

  lemma EraseQueues(s: Sched, t: Ticket)
    ensures var s' := EraseRequest(s, t); s'.running == s.running && s'.waiting == s.waiting && s'.skip == s.skip
  {
  }

  /** Leaving the running list before or after the release makes no difference. */
  lemma ReleaseDetached(s: Sched, t: Ticket, d: Sched)
    requires t in s.objs && s.objs[t].sched.Some?
    requires d == s.(running := DropTicket(s.running, t), bySeq := s.bySeq - {s.objs[t].sched.value.seqId})
    ensures var s2 := ReleaseScheduling(s, t);
      && s2.(running := DropTicket(s2.running, t)) == ReleaseScheduling(d, t)
      && s2.running == s.running && ReleaseScheduling(d, t).running == d.running
      && ReleaseScheduling(d, t).waiting == s.waiting && ReleaseScheduling(d, t).skip == s.skip
      && t in ReleaseScheduling(d, t).objs && ReleaseScheduling(d, t).objs[t].sched.None?
  {
    hide ReleaseTable, DropTicket;
    var q := s.objs[t].sched.value.seqId;
    assert d.bySeq - {q} == d.bySeq;
  }

  lemma NoneLeased(c: Config, s: Sched, t: Ticket)
    requires Steady(c, s, []) && t in s.objs && s.objs[t].sched.Some?
    ensures s.objs[t].sched.value.res.leases == 0
  {
    hide Places, Accounted, Sound;
    NoLeases(c, s, [], t);
  }

  lemma {:induction false} SteadyTerminateAll(c: Config, s: Sched, ts: seq<Ticket>, e: ErrorCode)
    requires Steady(c, s, []) && s.running == ts
    ensures Steady(c, TerminateAll(s, ts, e), [])
    ensures TerminateAll(s, ts, e).running == []
    ensures TerminateAll(s, ts, e).waiting == s.waiting && TerminateAll(s, ts, e).skip == s.skip
    decreases |ts|
  {
    hide Core, Terminate;
    if ts != [] {
      SteadyTerminate(c, s, ts[0], e);
      SteadyTerminateAll(c, Terminate(s, ts[0], e), ts[1..], e);
    }
  }

  // ---------------------------------------------------------------- clients

  lemma SteadyClientUpdate(c: Config, s: Sched, out: seq<WorkItem>, t: Ticket, r: Request)
    requires Steady(c, s, out) && t in s.objs
    requires r == s.objs[t].(status := r.status, open := r.open)
        && (r.status == s.objs[t].status || r.status == Cancelled)
    ensures Steady(c, Put(s, t, r), out)
  {
    hide Places, Accounted, Sound, ReqOk;
    SoundAt(c, s, out, t);
    ClientReqOk(c, s.blocks.cache.byBlock, s.objs[t], r, out);
    OthersSame(s, out, t);
    KnownTicket(s, {}, t);
    CoreUpdate(c, s, Put(s, t, r), out, out, {}, multiset{}, t, r);
  }

  lemma ClientReqOk(c: Config, cached: map<BlockId, Hash>, r: Request, r': Request, out: seq<WorkItem>)
    requires ReqOk(c, cached, r, out)
    requires r' == r.(status := r'.status, open := r'.open) && (r'.status == r.status || r'.status == Cancelled)
    ensures ReqOk(c, cached, r', out)
  {
    hide Cap, Hashed, Of;
  }

  lemma RegistryKnown(c: Config, s: Sched, out: seq<WorkItem>, id: string)
    requires Steady(c, s, out) && id in s.registry
    ensures s.registry[id] in s.objs
  {
    hide Queued, Sequenced, Distinct, Accounted, Sound;
  }

  lemma SteadyCancel(c: Config, s: Sched, out: seq<WorkItem>, id: string)
    requires Steady(c, s, out)
    ensures Steady(c, Cancel(s, id), out)
  {
    hide Core;
    if id in s.registry {
      RegistryKnown(c, s, out, id);
      SteadyClientUpdate(c, s, out, s.registry[id], s.objs[s.registry[id]].(status := Cancelled));
      CoreQuiet(c, s.(objs := Cancel(s, id).objs), Cancel(s, id), out, {}, multiset{});
    }
  }

  lemma SteadyHangup(c: Config, s: Sched, out: seq<WorkItem>, t: Ticket)
    requires Steady(c, s, out)
    ensures Steady(c, Hangup(s, t), out)
  {
    hide Core;
    if t in s.objs {
      SteadyClientUpdate(c, s, out, t, s.objs[t].(open := false));
    }
    CoreQuiet(c, s.(objs := Hangup(s, t).objs), Hangup(s, t), out, {}, multiset{});
  }

  lemma SteadyRefuse(c: Config, s: Sched, out: seq<WorkItem>, open: bool, e: ErrorCode)
    requires Steady(c, s, out)
    ensures Steady(c, Refuse(s, open, e), out)
  {
    hide Places, Accounted, Sound, ReqOk;
    var s' := Refuse(s, open, e);
    BeyondTickets(s, {});
    PlacesTicket(s, s');
    AccountedFrame(c, s, s', multiset{});
    SoundSame(c, s, s', out);
  }

  lemma SteadyAccept(c: Config, s: Sched, out: seq<WorkItem>, r: Request)
    requires Steady(c, s, out) && r.id !in s.registry && r.sched.None? && r.status == Active && r.generated == []
    ensures Steady(c, Accept(s, r), out)
  {
    hide Places, Accounted, Sound, ReqOk;
    var s' := Accept(s, r);
    BeyondTickets(s, {});
    PlacesSubmit(s, s', r);
    AccountedFrame(c, s, s', multiset{});
    UnscheduledOk(c, s.blocks.cache.byBlock, r, out);
    SoundStep(c, s, s', out, out, s.nextTicket);
  }

  lemma SteadySubmit(c: Config, s: Sched, out: seq<WorkItem>, id: string, prompt: seq<Token>, maxTokens: int,
          maxContext: int, open: bool)
    requires Steady(c, s, out)
    ensures Steady(c, Submit(c, s, id, prompt, maxTokens, maxContext, open), out)
  {
    hide Steady, Refuse, Accept;
    if !s.accepting {
      SteadyRefuse(c, s, out, open, ServerShuttingDown);
    } else if id in s.registry {
      SteadyRefuse(c, s, out, open, InvalidArgument);
    } else if |s.waiting| >= c.maxPending {
      SteadyRefuse(c, s, out, open, RequestQueueFull);
    } else {
      SteadyAccept(c, s, out, Request(id, prompt, prompt, Active, [], maxTokens,
                                      if maxContext <= 0 then c.defaultContext else maxContext, open, None));
    }
  }

  lemma PlacesTicket(s: Sched, s': Sched)
    requires Places(s, {}) && SamePlaces(s.(nextTicket := s.nextTicket + 1), s')
    ensures Places(s', {})
  {
    hide NoDup;
    forall u: Ticket, q: SeqId ensures HasSeq(s', u, q) <==> HasSeq(s, u, q) {}
  }

  lemma SteadyInitial(c: Config)
    requires c.Valid()
    ensures Steady(c, Initial(c), [])
  {
    BlockLemmas.FreshStoreValid(c.maxBlocks);
    hide Valid;
    var s := Initial(c);
    assert forall b: BlockId :: Owned(s.objs, 0, b) == 0;
  }
}
