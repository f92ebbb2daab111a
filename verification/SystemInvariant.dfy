/** What every reachable state of the whole system satisfies, whatever the clients, the model, the
    timing and the failures are. */
module SystemInvariant {
  import opened Types
  import opened State
  import opened Scheduling
  import opened Invariant
  import opened AdmitLemmas
  import opened StepLemmas
  import opened Protocol
  import opened ProtocolSteps
  import opened Engine
  import opened CalmLemmas
  import opened Marks
  import opened EngineInvariant
  import opened Faithful
  import opened PactLemmas
  import opened ExecuteLemmas
  import opened FateLemmas
  import opened PactRetire
  import opened FlagLemmas

  predicate Collecting(pc: Pc) {
    pc == Collect || pc == DrainCollect
  }

  predicate Draining(pc: Pc) {
    pc == Drain || pc == DrainCollect || pc == Stopped
  }

  /** Where the loop is and what it has established by then. */
  ghost predicate Paced(y: Sys) {
    && (y.current.Some? <==> Collecting(y.pc))
    && (y.pc == NotStarted ==>
      y.flights == [] && y.s.running == [] && y.s.waiting == [] && y.s.skip == []
      && !y.s.accepting)
    && (Draining(y.pc) ==> !y.s.accepting && y.s.waiting == [] && y.s.skip == [])
    && (y.pc == Stopped ==> y.flights == [] && y.s.running == [])
  }

  /** Shutdown is asked for at most once and acknowledged at most once, and only when it is over. */
  ghost predicate Orderly(y: Sys) {
    && (y.s.accepting ==> !y.shutdownRequested)
    && (y.pc != NotStarted && !y.s.accepting ==> y.shutdownRequested)
    && (y.shutdownRequested && !y.wasRunning ==> y.pc == NotStarted)
    && (y.taskPending ==> y.shutdownRequested)
    && (y.doneSent <==> y.pc == Stopped || (y.shutdownRequested && !y.wasRunning && !y.taskPending))
    && (y.wasRunning ==> y.pc != NotStarted && y.shutdownRequested)
    && y.promises == if y.doneSent then 1 else 0
  }

  /** Cleaning up at the very end leaves a pause in place; nobody looks at it any more. */
  function Seen(y: Sys): Sched {
    if y.pc == Stopped then y.s.(paused := false) else y.s
  }

  ghost predicate SysInv(c: Config, y: Sys) {
    && Steady(c, y.s, y.Out()) && Tidy(c, Seen(y))
    && Flying(c, y) && Paced(y) && Orderly(y)
    && Pact(c, y.s, y.w, MarksOf(y.Aloft())) && AllBindable(y.s.hist, y.w, y.Out())
  }

  lemma BootOk(c: Config)
    requires c.Valid()
    ensures SysInv(c, Boot(c))
  {
    SteadyInitial(c);
    hide Steady;
    var y := Boot(c);
    assert y.Aloft() == [];
  }

  // ---------------------------------------------------------------- steps that leave the batches alone

  lemma CalmStep(c: Config, y: Sys, y': Sys)
    requires SysInv(c, y) && y'.w == y.w && y'.Aloft() == y.Aloft()
    requires Calm(y.s, y'.s) && Steady(c, y'.s, y.Out()) && Tidy(c, Seen(y')) && Paced(y') && Orderly(y')
    ensures SysInv(c, y')
  {
    hide Steady, Tidy, Pact, Seen, Paced, Orderly;
    PactCalm(c, y.s, y'.s, y.w, MarksOf(y.Aloft()));
    BindableLater(y.s.hist, y'.s.hist, y.w, y.Out());
  }

  /** Flags the invariants of the scheduler do not mention. */
  lemma QuietStep(c: Config, y: Sys, y': Sys)
    requires SysInv(c, y) && y'.w == y.w && y'.Aloft() == y.Aloft() && (y'.pc == Stopped <==> y.pc == Stopped)
    requires y'.s == y.s.(accepting := y'.s.accepting) && Paced(y') && Orderly(y')
    ensures SysInv(c, y')
  {
    hide Core, Pact, Flying, AllBindable, Paced, Orderly;
    CoreQuiet(c, y.s, y'.s, y.Out(), {}, multiset{});
    CalmSame(y.s, y'.s);
    LogsSame(Seen(y), Seen(y'));
    hide Logs;
    CalmStep(c, y, y');
  }

  lemma LogsSame(s: Sched, s': Sched)
    requires Logs(s) && s'.log == s.log && s'.objs == s.objs && s'.nextTicket == s.nextTicket
    ensures Logs(s')
  {
    forall t: Ticket ensures LogOk(s', t) { assert LogOk(s, t); }
  }

  // ---------------------------------------------------------------- clients

  lemma RefuseQueues(s: Sched, open: bool, e: ErrorCode)
    ensures var s' := Refuse(s, open, e);
      && s'.running == s.running && s'.skip == s.skip && s'.accepting == s.accepting && s'.waiting == s.waiting
      && Refuse(s.(paused := false), open, e) == s'.(paused := false)
  {
  }

  lemma AcceptQueues(s: Sched, r: Request)
    ensures var s' := Accept(s, r);
      && s'.running == s.running && s'.skip == s.skip && s'.accepting == s.accepting
      && Accept(s.(paused := false), r) == s'.(paused := false)
  {
  }

  lemma SubmitQueues(c: Config, s: Sched, id: string, prompt: seq<Token>, maxTokens: int, maxContext: int, open: bool)
    ensures var s' := Submit(c, s, id, prompt, maxTokens, maxContext, open);
      && s'.running == s.running && s'.skip == s.skip && s'.accepting == s.accepting
      && (!s.accepting ==> s'.waiting == s.waiting)
      && Submit(c, s.(paused := false), id, prompt, maxTokens, maxContext, open) == s'.(paused := false)
  {
    hide Refuse, Accept;
    if !s.accepting {
      RefuseQueues(s, open, ServerShuttingDown);
    } else if id in s.registry {
      RefuseQueues(s, open, InvalidArgument);
    } else if |s.waiting| >= c.maxPending {
      RefuseQueues(s, open, RequestQueueFull);
    } else {
      AcceptQueues(s, Request(id, prompt, prompt, Active, [], maxTokens,
                              if maxContext <= 0 then c.defaultContext else maxContext, open, None));
    }
  }

  lemma SubmitStep(c: Config, y: Sys, id: string, prompt: seq<Token>, maxTokens: int, maxContext: int, open: bool)
    requires SysInv(c, y)
    ensures SysInv(c, y.(s := Submit(c, y.s, id, prompt, maxTokens, maxContext, open)))
  {
    hide Core, Tidy, Pact, Flying, AllBindable, Submit, Calm;
    var s' := Submit(c, y.s, id, prompt, maxTokens, maxContext, open);
    var y' := y.(s := s');
    SubmitQueues(c, y.s, id, prompt, maxTokens, maxContext, open);
    SteadySubmit(c, y.s, y.Out(), id, prompt, maxTokens, maxContext, open);
    CoreQuiet(c, y.s, Seen(y), y.Out(), {}, multiset{});
    TidySubmit(c, Seen(y), y.Out(), id, prompt, maxTokens, maxContext, open);
    CalmSubmit(c, y.s, id, prompt, maxTokens, maxContext, open);
    CalmStep(c, y, y');
  }

  lemma CancelQueues(s: Sched, id: string)
    ensures var s' := Cancel(s, id);
      && s'.running == s.running && s'.skip == s.skip && s'.waiting == s.waiting && s'.accepting == s.accepting
      && Cancel(s.(paused := false), id) == s'.(paused := false)
  {
  }

  lemma CancelStep(c: Config, y: Sys, id: string)
    requires SysInv(c, y)
    ensures SysInv(c, y.(s := Cancel(y.s, id)))
  {
    hide Core, Tidy, Pact, Flying, AllBindable, Cancel, Calm;
    CancelQueues(y.s, id);
    SteadyCancel(c, y.s, y.Out(), id);
    CoreQuiet(c, y.s, Seen(y), y.Out(), {}, multiset{});
    TidyCancel(c, Seen(y), y.Out(), id);
    CalmCancel(y.s, id);
    CalmStep(c, y, y.(s := Cancel(y.s, id)));
  }

  lemma HangupQueues(s: Sched, t: Ticket)
    ensures var s' := Hangup(s, t);
      && s'.running == s.running && s'.skip == s.skip && s'.waiting == s.waiting && s'.accepting == s.accepting
      && Hangup(s.(paused := false), t) == s'.(paused := false)
  {
  }

  lemma HangupStep(c: Config, y: Sys, t: Ticket)
    requires SysInv(c, y)
    ensures SysInv(c, y.(s := Hangup(y.s, t)))
  {
    hide Core, Tidy, Pact, Flying, AllBindable, Hangup, Calm;
    HangupQueues(y.s, t);
    SteadyHangup(c, y.s, y.Out(), t);
    TidyHangup(c, Seen(y), t);
    CalmHangup(y.s, t);
    CalmStep(c, y, y.(s := Hangup(y.s, t)));
  }

  // ---------------------------------------------------------------- start and shutdown

  lemma StartStep(c: Config, y: Sys)
    requires SysInv(c, y)
    ensures SysInv(c, Next(c, y, Start))
  {
    hide Core, Tidy, Pact, Flying, AllBindable;
    if !(y.shutdownRequested || y.s.accepting || y.pc != NotStarted) {
      QuietStep(c, y, Next(c, y, Start));
    }
  }

  lemma RaiseStep(c: Config, y: Sys)
    requires SysInv(c, y)
    ensures SysInv(c, Next(c, y, RaiseShutdown))
  {
    hide Core, Tidy, Pact, Flying, AllBindable;
    if !y.shutdownRequested {
      QuietStep(c, y, Next(c, y, RaiseShutdown));
    }
  }

  lemma NothingWaiting(s: Sched, e: ErrorCode)
    requires s.waiting == [] && s.skip == []
    ensures FailAllWaiting(s, e) == s
  {
  }

  lemma TaskStep(c: Config, y: Sys)
    requires SysInv(c, y)
    ensures SysInv(c, Next(c, y, ShutdownTask))
  {
    hide Core, Tidy, Pact, Flying, AllBindable, FailAllWaiting, Calm;
    if y.taskPending {
      SteadyFailAllWaiting(c, y.s, y.Out(), ServerShuttingDown);
      if y.pc == Stopped {
        NothingWaiting(y.s, ServerShuttingDown);
      } else {
        TidyFailAllWaiting(c, y.s, y.Out(), ServerShuttingDown);
      }
      FailAllFlag(y.s, ServerShuttingDown);
      CalmFailAllWaiting(y.s, ServerShuttingDown);
      CalmStep(c, y, Next(c, y, ShutdownTask));
    }
  }

  // ---------------------------------------------------------------- the worker

  lemma HaltStep(c: Config, y: Sys)
    requires SysInv(c, y)
    ensures SysInv(c, y.(w := y.w.(halted := true)))
  {
    hide Steady, Tidy, Flying, Pact, AllBindable, MarksOf, ItemsOf;
    var w' := y.w.(halted := true);
    var y' := y.(w := w');
    assert y'.Aloft() == y.Aloft();
    PactHalt(c, y.s, y.w, MarksOf(y.Aloft()));
    FlyingSame(c, y, y');
    BindableStays(y.s.hist, y.w, w', y.Out());
  }

  lemma PactHalt(c: Config, s: Sched, w: Worker, ms: seq<Mark>)
    requires Pact(c, s, w, ms)
    ensures Pact(c, s, w.(halted := true), ms)
  {
    hide MarksFor, Shaped, Samples, Reach, Holds, CacheTells, Linked, Injective, Since, Lead, Stands;
    ShapedHalt(s, ms, w);
    var w' := w.(halted := true);
    assert forall q :: Made(w', q) == Made(w, q) && FedTo(w', q) == FedTo(w, q);
    assert AllBound(s, w', ms);
    hide Bound;
    if Injective(c, s.hist.hashed) {
      forall t | Pure(s, t)
        ensures Settled(c, s.objs[t], s.objs[t].sched.value, w', MarksFor(ms, s.objs[t].sched.value.seqId))
      {
        assert Settled(c, s.objs[t], s.objs[t].sched.value, w, MarksFor(ms, s.objs[t].sched.value.seqId));
      }
    }
  }

  lemma {:induction false} ZipItems(items: seq<WorkItem>, results: seq<ItemResult>)
    requires |results| == |items|
    ensures MarkItems(ZipMarks(items, results)) == items
    decreases |items|
  {
    if items != [] {
      ZipItems(items[1..], results[1..]);
      var rest := ZipMarks(items[1..], results[1..]);
      assert ([Mark(items[0], VerdictOf(results[0]))] + rest)[1..] == rest;
    }
  }

  lemma {:induction false} SpoilItems(items: seq<WorkItem>)
    ensures MarkItems(SpoilMarks(items)) == items
  {
    if items != [] {
      SpoilItems(items[1..]);
      var rest := SpoilMarks(items[1..]);
      assert ([Mark(items[0], Spoiled)] + rest)[1..] == rest;
    }
  }

  lemma FlightItems(f: Flight)
    requires f.outcome.Some? && AnswersOk(f)
    ensures MarkItems(FlightMarks(f)) == f.items
  {
    match f.outcome.value
    case Done(results) => ZipItems(f.items, results);
    case Broken(_) => SpoilItems(f.items);
  }

  /** The outstanding items: those answered, those of the batch whose turn it is, and the rest. */
  lemma {:induction false} AloftSplit(fs: seq<Flight>)
    requires FirstPending(fs) < |fs| && (forall f :: f in fs ==> AnswersOk(f))
    ensures var k := FirstPending(fs);
      ItemsOf(fs) == MarkItems(MarksOf(fs)) + fs[k].items + ItemsOf(fs[k + 1..])
    decreases |fs|
  {
    hide FlightMarks, MarkItems, AnswersOk;
    var k := FirstPending(fs);
    if k == 0 {
      assert MarksOf(fs) == [];
      assert MarkItems([]) == [] by { MarkItemsCount([]); }
    } else {
      assert fs[0] in fs;
      AloftSplit(fs[1..]);
      FlightItems(fs[0]);
      MarkItemsConcat(FlightMarks(fs[0]), MarksOf(fs[1..]));
      assert fs[1..][k - 1] == fs[k] && fs[1..][k..] == fs[k + 1..];
      assert fs[0].items + (MarkItems(MarksOf(fs[1..])) + fs[k].items + ItemsOf(fs[k + 1..]))
          == fs[0].items + MarkItems(MarksOf(fs[1..])) + fs[k].items + ItemsOf(fs[k + 1..]);
    }
  }

  lemma WorkStep(c: Config, y: Sys, picks: seq<Pick>, broken: bool, code: ErrorCode, junk: map<nat, Kv>)
    requires SysInv(c, y)
    ensures SysInv(c, WorkerStep(c, y, picks, broken, code, junk))
  {
    hide Steady, Tidy, Pact, AllBindable, Fate, FlightMarks, WorkerStep, MarksOf, MarkItems, ItemsOf, AnswersOk;
    WorkerAloft(c, y, picks, broken, code, junk);
    var fs := y.Aloft();
    var k := FirstPending(fs);
    if k < |fs| {
      var (w', f') := Fate(c, y.w, fs[k], picks, broken, code, junk);
      FateFrame(c, y.w, fs[k], picks, broken, code, junk);
      AloftSplit(fs);
      PactFate(c, y.s, y.Out(), MarksOf(fs), fs[k], ItemsOf(fs[k + 1..]), y.w, picks, broken, code, junk);
      MarksExecuted(fs, f');
      var y' := WorkerStep(c, y, picks, broken, code, junk);
      forall f | f in y'.Aloft() ensures f.items != [] && AnswersOk(f) {
        assert fs[k] in fs;
        if f != f' { assert f in fs; }
      }
    }
  }

  // ---------------------------------------------------------------- the engine loop

  lemma TopStep(c: Config, y: Sys)
    requires SysInv(c, y) && y.pc == Top
    ensures SysInv(c, EngineStep(c, y, []))
  {
    hide Core, Tidy, Pact, Flying, AllBindable, FailAllWaiting, Calm;
    if y.s.accepting {
      QuietStep(c, y, EngineStep(c, y, []));
    } else {
      SteadyFailAllWaiting(c, y.s, y.Out(), ServerShuttingDown);
      TidyFailAllWaiting(c, y.s, y.Out(), ServerShuttingDown);
      FailAllFlag(y.s, ServerShuttingDown);
      CalmFailAllWaiting(y.s, ServerShuttingDown);
      CalmStep(c, y, EngineStep(c, y, []));
    }
  }

  lemma PushFlight(c: Config, fs: seq<Flight>, f: Flight)
    requires InOrder(fs) && f.outcome.None?
    ensures InOrder(fs + [f])
    ensures ItemsOf(fs + [f]) == ItemsOf(fs) + f.items && MarksOf(fs + [f]) == MarksOf(fs)
  {
    MarksPending(fs, f);
    ItemsOfConcat(fs, [f]);
    assert [f][1..] == [];
    assert ItemsOf([f]) == f.items;
  }

  /** A batch joins the queue of the worker. */
  lemma Dispatch(c: Config, y: Sys, y': Sys, items: seq<WorkItem>)
    requires Flying(c, y) && y.current.None? && |y.flights| < c.maxConcurrent && items != []
    requires y'.current.None? && y'.flights == y.flights + [Flight(items, None)]
    ensures Flying(c, y') && y'.Out() == y.Out() + items && MarksOf(y'.Aloft()) == MarksOf(y.Aloft())
  {
    hide InOrder, ItemsOf, MarksOf;
    var f := Flight(items, None);
    assert y.Aloft() == y.flights && y'.Aloft() == y.Aloft() + [f];
    PushFlight(c, y.Aloft(), f);
  }

  /** A batch was built and nothing was handed over. */
  lemma FillNothing(c: Config, y: Sys, raises: seq<Raise>)
    requires SysInv(c, y) && y.pc == Fill && |y.flights| < c.maxConcurrent
    requires ScheduleStep(c, y.s, raises).items == []
    ensures SysInv(c, FillStep(c, y, raises))
  {
    hide Core, Tidy, Pact, Flying, AllBindable, ScheduleStep, FailBatch, CleanupTerminal, Calm;
    var g := ScheduleStep(c, y.s, raises);
    FillBuilt(c, y, raises);
    var y' := FillStep(c, y, raises);
    assert y.Out() + g.items == y.Out() && y'.Aloft() == y.Aloft();
    FlyingSame(c, y, y');
  }

  lemma FillBuilt(c: Config, y: Sys, raises: seq<Raise>)
    requires SysInv(c, y) && y.pc == Fill
    ensures var g := ScheduleStep(c, y.s, raises);
      && Steady(c, g.s, y.Out() + g.items) && Tidy(c, g.s) && PactStage(c, g, y.Out(), y.w, MarksOf(y.Aloft()))
      && (g.s.accepting ==> y.s.accepting) && y.current.None? && y.Aloft() == y.flights
  {
    hide Core, Tidy, Pact, PactStage, Flying, AllBindable, ScheduleStep;
    SteadyScheduleStep(c, y.s, y.Out(), raises);
    TidyScheduleStep(c, y.s, y.Out(), raises);
    PactScheduleStep(c, y.s, y.Out(), raises, y.w, MarksOf(y.Aloft()));
    ScheduleFlag(c, y.s, raises);
    assert y.Aloft() == y.flights;
  }

  lemma FillDispatched(c: Config, y: Sys, raises: seq<Raise>)
    requires SysInv(c, y) && y.pc == Fill && |y.flights| < c.maxConcurrent
    requires ScheduleStep(c, y.s, raises).items != [] && !y.w.halted
    ensures SysInv(c, FillStep(c, y, raises))
  {
    hide Core, Tidy, Pact, Flying, AllBindable, ScheduleStep, FailBatch, CleanupTerminal, Calm, MarksOf, ItemsOf;
    FillBuilt(c, y, raises);
    Dispatch(c, y, FillStep(c, y, raises), ScheduleStep(c, y.s, raises).items);
  }

  lemma FillRefused(c: Config, y: Sys, raises: seq<Raise>)
    requires SysInv(c, y) && y.pc == Fill && |y.flights| < c.maxConcurrent
    requires ScheduleStep(c, y.s, raises).items != [] && y.w.halted
    ensures SysInv(c, FillStep(c, y, raises))
  {
    hide Core, Tidy, Pact, Flying, AllBindable, ScheduleStep, FailBatch, CleanupTerminal, Calm, MarksOf, ItemsOf,
        PactStage;
    FillBuilt(c, y, raises);
    DispatchFailed(c, ScheduleStep(c, y.s, raises), y.Out(), y.w, MarksOf(y.Aloft()));
    var y' := FillStep(c, y, raises);
    assert y'.Aloft() == y.Aloft();
    FlyingSame(c, y, y');
  }

  lemma FillRound(c: Config, y: Sys, raises: seq<Raise>)
    requires SysInv(c, y) && y.pc == Fill
    ensures SysInv(c, FillStep(c, y, raises))
  {
    hide Core, Tidy, Pact, Flying, AllBindable, ScheduleStep, FailBatch, CleanupTerminal, Calm, FillStep;
    if |y.flights| >= c.maxConcurrent {
      FillFull(c, y, raises);
    } else if ScheduleStep(c, y.s, raises).items == [] {
      FillNothing(c, y, raises);
    } else if !y.w.halted {
      FillDispatched(c, y, raises);
    } else {
      FillRefused(c, y, raises);
    }
  }

  lemma FillFull(c: Config, y: Sys, raises: seq<Raise>)
    requires SysInv(c, y) && y.pc == Fill && |y.flights| >= c.maxConcurrent
    ensures SysInv(c, FillStep(c, y, raises))
  {
    hide Core, Tidy, Pact, Flying, AllBindable, ScheduleStep, FailBatch, CleanupTerminal, Calm;
    QuietStep(c, y, FillStep(c, y, raises));
  }

  lemma FlyingSame(c: Config, y: Sys, y': Sys)
    requires Flying(c, y) && y'.Aloft() == y.Aloft()
    ensures Flying(c, y')
  {
  }

  lemma DispatchFailed(c: Config, g: Stage, base: seq<WorkItem>, w: Worker, ms: seq<Mark>)
    requires Steady(c, g.s, base + g.items) && Tidy(c, g.s) && PactStage(c, g, base, w, ms)
    ensures var s' := CleanupTerminal(FailBatch(g.s, g.items, ServerShuttingDown));
      && Steady(c, s', base) && Tidy(c, s') && Pact(c, s', w, ms) && AllBindable(s'.hist, w, base)
      && s'.accepting == g.s.accepting
  {
    hide Core, Tidy, Pact, Bindable, FailBatch, CleanupTerminal;
    var e := ServerShuttingDown;
    var s1 := FailBatch(g.s, g.items, e);
    assert base + g.items == base + g.items + [] && base + [] == base;
    SteadyFailBatch(c, g.s, base, g.items, [], e);
    TidyFailBatch(c, g.s, base, g.items, [], e);
    SteadyCleanupTerminal(c, s1, base);
    TidyCleanupTerminal(c, s1, base);
    CleanupFlag(s1);
    CalmFailBatch(g.s, g.items, e);
    CalmCleanupTerminal(s1);
    CalmTrans(g.s, s1, CleanupTerminal(s1));
    PactStageCalm(c, g, CleanupTerminal(s1), base, w, ms);
  }

  lemma CheckRound(c: Config, y: Sys)
    requires SysInv(c, y) && y.pc == Check
    ensures SysInv(c, CheckStep(c, y))
  {
    hide Core, Tidy, Pact, Flying, AllBindable, CleanupTerminal, Preempt, HasSchedulableWork, Calm;
    var y' := CheckStep(c, y);
    if y.flights != [] {
      assert y'.Aloft() == y.Aloft();
      QuietStep(c, y, y');
    } else {
      var s := CleanupTerminal(y.s);
      SteadyCleanupTerminal(c, y.s, y.Out());
      TidyCleanupTerminal(c, y.s, y.Out());
      CleanupFlag(y.s);
      CalmCleanupTerminal(y.s);
      if !s.paused && (s.waiting != [] || HasSchedulableWork(c, s)) {
        SteadyPreempt(c, s, y.Out());
        TidyPreempt(c, s, y.Out());
        PreemptFlag(s);
        CalmPreempt(s);
        CalmTrans(y.s, s, Preempt(s));
      }
      CalmStep(c, y, y');
    }
  }

  /** The oldest batch is retired. */
  lemma CollectOk(c: Config, y: Sys)
    requires SysInv(c, y) && y.current.Some? && y.current.value.outcome.Some?
    ensures var s' := Retired(c, y.s, y.current.value); var rest := ItemsOf(y.flights);
      && Steady(c, s', rest) && Tidy(c, s') && SameShape(y.s, s')
      && Pact(c, s', y.w, MarksOf(y.flights)) && AllBindable(s'.hist, y.w, rest)
  {
    hide Core, Tidy, Pact, AllBindable, Retired, FlightMarks, AnswersOk;
    var f := y.current.value;
    assert y.Aloft() == [f] + y.flights && y.Aloft()[1..] == y.flights;
    assert f in y.Aloft();
    var ms := MarksOf(y.flights);
    PactShaped(c, y.s, y.w, FlightMarks(f) + ms);
    RetiredOk(c, y.s, f, ItemsOf(y.flights), ms, y.w);
    PactRetired(c, y.s, f, ItemsOf(y.flights), ms, y.w);
  }

  lemma PactShaped(c: Config, s: Sched, w: Worker, ms: seq<Mark>)
    requires Pact(c, s, w, ms)
    ensures Shaped(s, ms, w)
  {
    hide Shaped, AllBound, Truthful;
  }

  lemma FlyingLess(c: Config, y: Sys, y': Sys)
    requires Flying(c, y) && y.current.Some? && y'.current.None? && y'.flights == y.flights
    ensures Flying(c, y')
  {
    assert y.Aloft()[1..] == y.flights && y'.Aloft() == y.flights;
    forall i, j | 0 <= i < j < |y.flights| && y.flights[j].outcome.Some? ensures y.flights[i].outcome.Some? {
      assert y.Aloft()[i + 1] == y.flights[i] && y.Aloft()[j + 1] == y.flights[j];
    }
  }

  lemma CollectRound(c: Config, y: Sys)
    requires SysInv(c, y) && y.pc == Collect && y.current.Some? && y.current.value.outcome.Some?
    ensures SysInv(c, y.(s := CleanupTerminal(Retired(c, y.s, y.current.value)), current := None, pc := Top))
  {
    hide Core, Tidy, Pact, Flying, AllBindable, CleanupTerminal, Retired, Calm, MarksOf, ItemsOf;
    CollectOk(c, y);
    var s1 := Retired(c, y.s, y.current.value);
    var s' := CleanupTerminal(s1);
    var y' := y.(s := s', current := None, pc := Top);
    var rest := ItemsOf(y.flights);
    SteadyCleanupTerminal(c, s1, rest);
    TidyCleanupTerminal(c, s1, rest);
    CleanupFlag(s1);
    CalmCleanupTerminal(s1);
    PactCalm(c, s1, s', y.w, MarksOf(y.flights));
    CalmFlags(s1, s');
    BindableLater(s1.hist, s'.hist, y.w, rest);
    FlyingLess(c, y, y');
    assert y'.Aloft() == y.flights;
  }

  lemma CalmFlags(s: Sched, s': Sched)
    requires Calm(s, s')
    ensures s'.hist.starts == s.hist.starts
  {
  }

  lemma DrainCollectRound(c: Config, y: Sys)
    requires SysInv(c, y) && y.pc == DrainCollect && y.current.Some? && y.current.value.outcome.Some?
    ensures SysInv(c, y.(s := Retired(c, y.s, y.current.value), current := None, pc := Drain))
  {
    hide Core, Tidy, Pact, Flying, AllBindable, Retired, MarksOf, ItemsOf;
    CollectOk(c, y);
    var y' := y.(s := Retired(c, y.s, y.current.value), current := None, pc := Drain);
    FlyingLess(c, y, y');
    assert y'.Aloft() == y.flights;
  }

  /** Everything in flight was retired: what still runs is told and released. */
  lemma DrainRound(c: Config, y: Sys)
    requires SysInv(c, y) && y.pc == Drain
    ensures SysInv(c, EngineStep(c, y, []))
  {
    hide Core, Pact, Flying, AllBindable, TerminateAll, Logs, Calm;
    var y' := EngineStep(c, y, []);
    if y.flights != [] {
      assert y'.Aloft() == y.Aloft();
      QuietStep(c, y, y');
    } else {
      assert y.Aloft() == [];
      SteadyTerminateAll(c, y.s, y.s.running, ServerShuttingDown);
      LogsTerminateAll(c, y.s, y.s.running, ServerShuttingDown);
      TerminateFlag(y.s, y.s.running, ServerShuttingDown);
      CalmTerminateAll(y.s, y.s.running, ServerShuttingDown);
      var s' := CleanupAllRunning(y.s, ServerShuttingDown);
      LogsSame(s', s'.(paused := false));
      assert y'.Aloft() == [];
      CalmStep(c, y, y');
    }
  }

  lemma CurrentSome(c: Config, y: Sys)
    requires SysInv(c, y) && Collecting(y.pc)
    ensures y.current.Some?
  {
    hide Steady, Tidy, Pact, Flying, AllBindable, Orderly;
  }

  lemma SleepStep(c: Config, y: Sys)
    requires SysInv(c, y) && y.pc == Sleep
    ensures SysInv(c, y.(pc := Top))
  {
    hide Core, Tidy, Pact, Flying, AllBindable;
    QuietStep(c, y, y.(pc := Top));
  }

  lemma EngineRound(c: Config, y: Sys, raises: seq<Raise>)
    requires SysInv(c, y)
    ensures SysInv(c, EngineStep(c, y, raises))
  {
    hide SysInv, FillStep, CheckStep, FailAllWaiting, CleanupTerminal, Retired, CleanupAllRunning;
    match y.pc
    case NotStarted =>
    case Stopped =>
    case Top => TopStep(c, y);
    case Fill => FillRound(c, y, raises);
    case Check => CheckRound(c, y);
    case Collect =>
      CurrentSome(c, y);
      if y.current.value.outcome.Some? { CollectRound(c, y); }
    case Sleep => SleepStep(c, y);
    case Drain => DrainRound(c, y);
    case DrainCollect =>
      CurrentSome(c, y);
      if y.current.value.outcome.Some? { DrainCollectRound(c, y); }
  }

  // ---------------------------------------------------------------- runs

  lemma NextOk(c: Config, y: Sys, step: Step)
    requires SysInv(c, y)
    ensures SysInv(c, Next(c, y, step))
  {
    hide SysInv;
    match step
    case Start => StartStep(c, y);
    case SubmitRequest(id, prompt, maxTokens, maxContext, open) => SubmitStep(c, y, id, prompt, maxTokens,
        maxContext, open);
    case CancelRequest(id) => CancelStep(c, y, id);
    case HangUp(t) => HangupStep(c, y, t);
    case RaiseShutdown => RaiseStep(c, y);
    case ShutdownTask => TaskStep(c, y);
    case RunEngine(raises) => EngineRound(c, y, raises);
    case HaltWorker => HaltStep(c, y);
    case RunWorker(picks, broken, code, junk) => WorkStep(c, y, picks, broken, code, junk);
  }

  /** Every state of every run. */
  lemma {:induction false} RunOk(c: Config, steps: seq<Step>)
    requires c.Valid()
    ensures SysInv(c, Run(c, steps))
    decreases |steps|
  {
    hide SysInv;
    if steps == [] {
      BootOk(c);
    } else {
      RunOk(c, steps[..|steps| - 1]);
      NextOk(c, Run(c, steps[..|steps| - 1]), steps[|steps| - 1]);
    }
  }
}
