/** Over every run: each client that keeps waiting is answered, exactly once. */
module Answers {
  import opened Types
  import opened Seqs
  import opened State
  import opened Scheduling
  import opened Invariant
  import opened PlaceLemmas
  import opened CoreLemmas
  import opened AdmitLemmas
  import opened RetireLemmas
  import opened StepLemmas
  import opened Protocol
  import opened ProtocolSteps
  import opened Engine
  import opened Marks
  import opened EngineInvariant
  import opened Faithful
  import opened PactLemmas
  import opened SystemInvariant
  import opened AnswerLemmas
  import Theorems

  lemma {:induction false} HeardAdmitLoop(c: Config, g0: Stage, base: seq<WorkItem>, raises: seq<Raise>)
    requires Steady(c, g0.s, base + g0.items) && Heard(g0.s)
    ensures Heard(AdmitLoop(c, g0, raises).s)
    decreases |g0.s.skip| + |g0.s.waiting|
  {
    hide Core, AdmitSkipped, AdmitWaiting, Heard;
    var raise := if raises == [] then Raise(false, false) else raises[0];
    var later := if raises == [] then [] else raises[1..];
    var g := g0.(s := g0.s.(accepting := g0.s.accepting && !raise.head));
    CoreQuiet(c, g0.s, g.s, base + g.items, {}, multiset{});
    HeardSame(g0.s, g.s);
    QueueObjs(c, g.s, base + g.items, {}, multiset{});
    if !(!g.s.accepting || g.s.paused || g.budget == 0 || |g.s.running| >= c.maxRunning
         || (g.s.skip == [] && g.s.waiting == [])) {
      var a := if g.s.skip != [] then AdmitSkipped(c, g, raise.check) else Admission(g, false);
      if g.s.skip != [] {
        AdmitSkippedShrinks(c, g, raise.check);
        CoreAdmitSkipped(c, g, base, raise.check);
        HeardAdmitSkipped(c, g, raise.check);
      }
      if a.again {
        HeardAdmitLoop(c, a.g, base, later);
      } else if a.g.s.waiting != [] {
        QueueObjs(c, a.g.s, base + a.g.items, {}, multiset{});
        AdmitWaitingShrinks(c, a.g, raise.check);
        SteadyAdmitWaiting(c, a.g, base, raise.check);
        HeardAdmitWaiting(c, a.g, raise.check);
        var b := AdmitWaiting(c, a.g, raise.check);
        if b.again { HeardAdmitLoop(c, b.g, base, later); }
      }
    }
  }

  lemma HeardScheduleStep(c: Config, s: Sched, base: seq<WorkItem>, raises: seq<Raise>)
    requires Steady(c, s, base) && Heard(s)
    ensures Heard(ScheduleStep(c, s, raises).s)
  {
    hide Core, MakeRoom, BuildAll, AdmitLoop, Heard;
    var s1 := s.(nextBatch := s.nextBatch + 1);
    var s0 := s1.(shortage := false);
    CoreQuiet(c, s, s1, base, {}, multiset{});
    HeardSame(s, s1);
    if s1.shortage {
      CoreQuiet(c, s1, s0, base, {}, multiset{});
      QueueObjs(c, s0, base, {}, multiset{});
      CoreMakeRoom(c, s0, base, {}, multiset{});
      HeardSame(s1, s0);
      HeardMakeRoom(s0);
    }
    var s2 := if s1.shortage then MakeRoom(s0) else s1;
    assert base + [] == base;
    var g0 := Stage(s2, [], c.tokenBudget);
    SteadyBuildAll(c, g0, base, s2.running);
    HeardBuildAll(c, g0, s2.running);
    HeardAdmitLoop(c, BuildAll(c, g0, s2.running), base, raises);
  }

  lemma {:induction false} HeardRetireBatch(c: Config, s: Sched, items: seq<WorkItem>, results: seq<ItemResult>,
          rest: seq<WorkItem>, ms: seq<Mark>, w: Worker)
    requires Steady(c, s, items + rest) && Tidy(c, s) && |results| == |items| && Heard(s)
    requires forall i | 0 <= i < |items| :: ResultOk(items[i], results[i])
    requires Shaped(s, ZipMarks(items, results) + ms, w)
    ensures Heard(RetireAll(c, s, items, results))
    decreases |items|
  {
    hide Core, RetireWork, Tidy, Shaped, Heard, SameShape;
    if items != [] {
      var x := items[0];
      var m := Mark(x, VerdictOf(results[0]));
      var later := ZipMarks(items[1..], results[1..]);
      assert items + rest == [x] + (items[1..] + rest);
      assert ZipMarks(items, results) + ms == [m] + (later + ms);
      OnlyOwner(c, s, x, items[1..] + rest);
      HeardRetire(c, s, x, results[0]);
      RetireOne(c, s, x, results[0], items[1..] + rest, later + ms, w);
      HeardRetireBatch(c, RetireWork(c, s, x, results[0]), items[1..], results[1..], rest, ms, w);
    }
  }

  lemma {:induction false} HeardFailBatch(c: Config, s: Sched, a: seq<WorkItem>, items: seq<WorkItem>,
          b: seq<WorkItem>, e: ErrorCode)
    requires Steady(c, s, a + items + b) && Heard(s)
    ensures Heard(FailBatch(s, items, e))
    decreases |items|
  {
    hide Core, FailItem, Heard;
    if items != [] {
      var x := items[0];
      assert a + items + b == a + [x] + (items[1..] + b);
      CoreItemIndexed(c, s, a + items + b, x);
      HeardFail(s, x, e);
      CoreFailItem(c, s, x, a, items[1..] + b, e);
      assert a + (items[1..] + b) == a + items[1..] + b;
      HeardFailBatch(c, FailItem(s, x, e), a, items[1..], b, e);
    }
  }

  lemma HeardRetired(c: Config, s: Sched, f: Flight, rest: seq<WorkItem>, ms: seq<Mark>, w: Worker)
    requires Steady(c, s, f.items + rest) && Tidy(c, s) && f.outcome.Some? && AnswersOk(f) && Heard(s)
    requires Shaped(s, FlightMarks(f) + ms, w)
    ensures Heard(Retired(c, s, f))
  {
    hide Core, RetireAll, FailBatch, Tidy, Shaped, Heard, ZipMarks, SpoilMarks;
    match f.outcome.value
    case Done(results) =>
      HeardRetireBatch(c, s, f.items, results, rest, ms, w);
    case Broken(e) =>
      assert [] + f.items + rest == f.items + rest;
      HeardFailBatch(c, s, [], f.items, rest, e);
  }

  // ---------------------------------------------------------------- cleanup

  lemma {:induction false} HeardReapAll(c: Config, s: Sched, out: seq<WorkItem>, ts: seq<Ticket>)
    requires Steady(c, s, out) && NoDup(ts) && (forall t :: t in ts ==> t in s.running) && Heard(s)
    ensures Heard(ReapAll(s, ts))
    decreases |ts|
  {
    hide Core, Reap, Heard, NoDup;
    if ts != [] {
      TailOk(ts);
      CoreRunning(c, s, out, {}, multiset{}, ts[0]);
      if Spent(s, ts[0]) {
        SteadyReap(c, s, out, ts[0]);
        ReapRunning(c, s, out, ts[0]);
        HeardReap(s, ts[0]);
      }
      HeardReapAll(c, if Spent(s, ts[0]) then Reap(s, ts[0]) else s, out, ts[1..]);
    }
  }

  lemma QueuedBelow(c: Config, s: Sched, out: seq<WorkItem>)
    requires Steady(c, s, out)
    ensures NoDup(s.running) && forall t :: t in s.waiting || t in s.skip || t in s.running ==> t < s.nextTicket
  {
    hide Named, Sequenced, Distinct, Accounted, Sound;
  }

  lemma HeardCleanup(c: Config, s: Sched, out: seq<WorkItem>)
    requires Steady(c, s, out) && Heard(s)
    ensures Heard(CleanupTerminal(s))
  {
    hide Core, ReapAll, Sweep, Heard, NoDup;
    QueuedBelow(c, s, out);
    SteadyReapAll(c, s, out, s.running);
    HeardReapAll(c, s, out, s.running);
    var s1 := ReapAll(s, s.running);
    QueuedBelow(c, s1, out);
    HeardSame(s1, s1.(skip := []));
    HeardSweep(s1.(skip := []), s1.skip);
    SteadyCleanSkip(c, s1, out);
    var w := Sweep(s1.(skip := []), s1.skip);
    var s2 := w.s.(skip := w.kept);
    QueuedBelow(c, s2, out);
    HeardSame(w.s, s2.(waiting := []));
    HeardSweep(s2.(waiting := []), s2.waiting);
    var v := Sweep(s2.(waiting := []), s2.waiting);
    HeardSame(v.s, CleanupTerminal(s));
  }

  lemma {:induction false} HeardFailWaiting(c: Config, s: Sched, out: seq<WorkItem>, e: ErrorCode)
    requires Steady(c, s, out) && Heard(s)
    ensures Heard(FailWaiting(s, e))
    decreases |s.waiting|
  {
    hide Core, Dismiss, Heard;
    if s.waiting != [] {
      var t := s.waiting[0];
      var s1 := s.(waiting := s.waiting[1..]);
      CorePopWaiting(c, s, out, {}, multiset{});
      assert {} + {t} == {t} && {t} - {t} == {};
      CoreDismiss(c, s1, out, {t}, multiset{}, t, ErrorEvent(e));
      DismissQueues(s1, t, ErrorEvent(e));
      HeardSame(s, s1);
      HeardDismiss(s1, t, ErrorEvent(e));
      HeardFailWaiting(c, Dismiss(s1, t, ErrorEvent(e)), out, e);
    }
  }

  lemma {:induction false} HeardFailSkipped(c: Config, s: Sched, out: seq<WorkItem>, e: ErrorCode)
    requires Steady(c, s, out) && Heard(s)
    ensures Heard(FailSkipped(s, e))
    decreases |s.skip|
  {
    hide Core, Dismiss, Heard;
    if s.skip != [] {
      var t := s.skip[0];
      var s1 := s.(skip := s.skip[1..]);
      CorePopSkip(c, s, out, {}, multiset{});
      assert {} + {t} == {t} && {t} - {t} == {};
      CoreDismiss(c, s1, out, {t}, multiset{}, t, ErrorEvent(e));
      DismissQueues(s1, t, ErrorEvent(e));
      HeardSame(s, s1);
      HeardDismiss(s1, t, ErrorEvent(e));
      HeardFailSkipped(c, Dismiss(s1, t, ErrorEvent(e)), out, e);
    }
  }

  lemma HeardFailAllWaiting(c: Config, s: Sched, out: seq<WorkItem>, e: ErrorCode)
    requires Steady(c, s, out) && Heard(s)
    ensures Heard(FailAllWaiting(s, e))
  {
    hide Core, Heard, FailWaiting, FailSkipped;
    HeardFailWaiting(c, s, out, e);
    SteadyFailWaiting(c, s, out, e);
    HeardFailSkipped(c, FailWaiting(s, e), out, e);
  }

  lemma {:induction false} HeardTerminateAll(c: Config, s: Sched, ts: seq<Ticket>, e: ErrorCode)
    requires Steady(c, s, []) && s.running == ts && Heard(s)
    ensures Heard(TerminateAll(s, ts, e))
    decreases |ts|
  {
    hide Core, Terminate, Heard;
    if ts != [] {
      CoreRunning(c, s, [], {}, multiset{}, ts[0]);
      HeardTerminate(s, ts[0], e);
      SteadyTerminate(c, s, ts[0], e);
      HeardTerminateAll(c, Terminate(s, ts[0], e), ts[1..], e);
    }
  }

  // ---------------------------------------------------------------- steps and runs

  lemma HeardFill(c: Config, y: Sys, raises: seq<Raise>)
    requires SysInv(c, y) && Heard(y.s)
    ensures Heard(FillStep(c, y, raises).s)
  {
    hide Core, Tidy, Pact, Flying, AllBindable, ScheduleStep, FailBatch, CleanupTerminal, Heard, Paced, Orderly;
    if |y.flights| < c.maxConcurrent {
      var base := y.Out();
      var g := ScheduleStep(c, y.s, raises);
      HeardScheduleStep(c, y.s, base, raises);
      SteadyScheduleStep(c, y.s, base, raises);
      assert base + g.items == base + g.items + [] && base + [] == base;
      HeardFailBatch(c, g.s, base, g.items, [], ServerShuttingDown);
      SteadyFailBatch(c, g.s, base, g.items, [], ServerShuttingDown);
      HeardCleanup(c, FailBatch(g.s, g.items, ServerShuttingDown), base);
    }
  }

  lemma HeardCheck(c: Config, y: Sys)
    requires SysInv(c, y) && Heard(y.s)
    ensures Heard(CheckStep(c, y).s)
  {
    hide Core, Tidy, Pact, Flying, AllBindable, CleanupTerminal, HasSchedulableWork, Heard, Paced, Orderly, FindMovable;
    HeardCleanup(c, y.s, y.Out());
    var s := CleanupTerminal(y.s);
    HeardSame(s, Preempt(s));
  }

  lemma HeardCollect(c: Config, y: Sys)
    requires SysInv(c, y) && Heard(y.s) && y.current.Some? && y.current.value.outcome.Some? && y.pc != Stopped
    ensures Heard(Retired(c, y.s, y.current.value)) && Heard(CleanupTerminal(Retired(c, y.s, y.current.value)))
  {
    hide Core, Tidy, Pact, AllBindable, Retired, FlightMarks, AnswersOk, Heard, CleanupTerminal, Paced, Orderly;
    var f := y.current.value;
    assert y.Aloft() == [f] + y.flights && y.Aloft()[1..] == y.flights;
    assert f in y.Aloft();
    var ms := MarksOf(y.flights);
    PactShaped(c, y.s, y.w, FlightMarks(f) + ms);
    HeardRetired(c, y.s, f, ItemsOf(y.flights), ms, y.w);
    CollectOk(c, y);
    HeardCleanup(c, Retired(c, y.s, f), ItemsOf(y.flights));
  }

  lemma SysSteady(c: Config, y: Sys)
    requires SysInv(c, y)
    ensures Steady(c, y.s, y.Out()) && (Collecting(y.pc) ==> y.current.Some?)
    ensures y.pc == Drain && y.flights == [] ==> y.Out() == []
  {
    hide Steady, Tidy, Pact, Flying, AllBindable, Orderly;
    if y.pc == Drain && y.flights == [] { assert y.Aloft() == []; }
  }

  lemma HeardEngine(c: Config, y: Sys, raises: seq<Raise>)
    requires SysInv(c, y) && Heard(y.s)
    ensures Heard(EngineStep(c, y, raises).s)
  {
    hide SysInv, Heard, Steady, FillStep, CheckStep, FailAllWaiting, CleanupTerminal, Retired, TerminateAll;
    SysSteady(c, y);
    match y.pc
    case NotStarted =>
    case Stopped =>
    case Top => HeardFailAllWaiting(c, y.s, y.Out(), ServerShuttingDown);
    case Fill => HeardFill(c, y, raises);
    case Check => HeardCheck(c, y);
    case Collect => if y.current.value.outcome.Some? { HeardCollect(c, y); }
    case Sleep =>
    case Drain => if y.flights == [] { HeardTerminateAll(c, y.s, y.s.running, ServerShuttingDown); }
    case DrainCollect => if y.current.value.outcome.Some? { HeardCollect(c, y); }
  }

  lemma WorkerKeeps(c: Config, y: Sys, picks: seq<Pick>, broken: bool, code: ErrorCode, junk: map<nat, Kv>)
    ensures WorkerStep(c, y, picks, broken, code, junk).s == y.s
  {
    hide Fate;
  }

  lemma HeardNext(c: Config, y: Sys, step: Step)
    requires SysInv(c, y) && Heard(y.s)
    ensures Heard(Next(c, y, step).s)
  {
    hide SysInv, Heard, Steady, Submit, Cancel, Hangup, FailAllWaiting, EngineStep, WorkerStep;
    SysSteady(c, y);
    match step
    case Start => HeardSame(y.s, y.s.(accepting := true));
    case SubmitRequest(id, prompt, maxTokens, maxContext, open) =>
      NextTicketFree(c, y.s, y.Out());
      HeardSubmit(c, y.s, id, prompt, maxTokens, maxContext, open);
    case CancelRequest(id) =>
      NextTicketFree(c, y.s, y.Out());
      HeardCancel(y.s, id);
    case HangUp(t) =>
      NextTicketFree(c, y.s, y.Out());
      HeardHangup(y.s, t);
    case RaiseShutdown => HeardSame(y.s, y.s.(accepting := false));
    case ShutdownTask => HeardFailAllWaiting(c, y.s, y.Out(), ServerShuttingDown);
    case RunEngine(raises) => HeardEngine(c, y, raises);
    case HaltWorker =>
    case RunWorker(picks, broken, code, junk) => WorkerKeeps(c, y, picks, broken, code, junk);
  }

  lemma NextTicketFree(c: Config, s: Sched, out: seq<WorkItem>)
    requires Steady(c, s, out)
    ensures s.nextTicket !in s.objs && forall t :: t in s.objs ==> t < s.nextTicket
    ensures forall id :: id in s.registry ==> s.registry[id] < s.nextTicket
  {
    hide Accounted, Sound, Sequenced, Distinct;
  }

  lemma {:induction false} RunHeard(c: Config, steps: seq<Step>)
    requires c.Valid()
    ensures Heard(Run(c, steps).s)
    decreases |steps|
  {
    hide SysInv, Heard, Next;
    if steps == [] {
      BootHeard(c);
    } else {
      var before := steps[..|steps| - 1];
      RunHeard(c, before);
      RunOk(c, before);
      HeardNext(c, Run(c, before), steps[|steps| - 1]);
    }
  }

  lemma BootHeard(c: Config)
    ensures Heard(Boot(c).s)
  {
  }

  /** Every request ever submitted is still active, or its client cancelled or went away, or the client
      heard exactly one terminal event, as its last. Once shutdown is acknowledged none is active. */
  lemma EveryoneAnswered(c: Config, steps: seq<Step>, t: Ticket)
    requires c.Valid() && t < Run(c, steps).s.nextTicket
    ensures var y := Run(c, steps); var log := LogOf(y.s, t);
      && ((t in y.s.objs && y.s.objs[t].status == Active)
          || t in y.s.hist.excused
          || (log != [] && Terminal(log[|log| - 1]) && forall i | 0 <= i < |log| - 1 :: !Terminal(log[i])))
      && (forall u :: u in y.s.hist.excused ==> u < y.s.nextTicket)
      && (y.promises == 1 ==> t !in y.s.objs)
  {
    hide Run, SysInv;
    RunHeard(c, steps);
    var y := Run(c, steps);
    var log := LogOf(y.s, t);
    assert Ongoing(y.s, t) || Acknowledged(y.s, t);
    forall i | 0 <= i < |log| - 1 ensures !Terminal(log[i]) {
      if Terminal(log[i]) { Theorems.EventProtocol(c, steps, t, i); }
    }
    Theorems.ShutdownDrains(c, steps, 0);
  }
}
