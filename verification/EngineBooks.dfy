/** What the engine may rely on in every state of a run, for the methods of its objects. */
module EngineBooks {
  import opened Types
  import opened Seqs
  import opened State
  import opened Scheduling
  import opened BookLemmas
  import opened StepLemmas
  import opened BatchLemmas
  import opened RetireLemmas
  import opened Translation
  import opened WorkerClass
  import opened Engine
  import opened Marks
  import opened EngineInvariant
  import opened Invariant
  import opened Faithful
  import opened PactLemmas
  import opened Protocol
  import opened SystemInvariant
  import opened BatchTheorems
  import Theorems
  import Answers

  // ---------------------------------------------------------------- what the scheduler's methods ask for

  /** Cleaning up needs every reference accounted for. */
  ghost predicate Cleanable(c: Config, s: Sched) {
    NoDup(s.running) && Balanced(c, s)
  }

  lemma SteadyCleanable(c: Config, s: Sched, out: seq<WorkItem>)
    requires Steady(c, s, out)
    ensures Cleanable(c, s)
  {
    hide Core, Balanced;
    RunningNoDup(c, s, out);
    CoreBooks(c, s, out, {}, multiset{});
  }

  lemma EngineSteady(c: Config, y: Sys)
    requires SysInv(c, y)
    ensures Steady(c, y.s, y.Out()) && Cleanable(c, y.s)
  {
    hide Core, Tidy, Flying, Paced, Orderly, Pact, AllBindable, Cleanable;
    SteadyCleanable(c, y.s, y.Out());
  }

  lemma RefusedCleanable(c: Config, y: Sys, raises: seq<Raise>)
    requires SysInv(c, y)
    ensures var g := ScheduleStep(c, y.s, raises); Cleanable(c, FailBatch(g.s, g.items, ServerShuttingDown))
  {
    hide Core, SysInv, ScheduleStep, FailBatch, Cleanable;
    EngineSteady(c, y);
    var g := ScheduleStep(c, y.s, raises);
    SteadyScheduleStep(c, y.s, y.Out(), raises);
    assert y.Out() + g.items == y.Out() + g.items + [] && y.Out() + [] == y.Out();
    SteadyFailBatch(c, g.s, y.Out(), g.items, [], ServerShuttingDown);
    SteadyCleanable(c, FailBatch(g.s, g.items, ServerShuttingDown), y.Out());
  }

  /** The answers to a batch are those of its items, in order. */
  ghost predicate Retirable(c: Config, s: Sched, f: Flight, rest: seq<WorkItem>, ms: seq<Mark>, w: Worker) {
    f.outcome.Some? && f.outcome.value.Done? ==>
    var results := f.outcome.value.results;
    && |results| == |f.items| && Steady(c, s, f.items + rest) && Tidy(c, s)
    && (forall i | 0 <= i < |f.items| :: ResultOk(f.items[i], results[i]))
    && Shaped(s, ZipMarks(f.items, results) + ms, w)
  }

  lemma CollectedCleanable(c: Config, y: Sys)
    requires SysInv(c, y) && y.current.Some? && y.current.value.outcome.Some?
    ensures Cleanable(c, Retired(c, y.s, y.current.value))
    ensures Retirable(c, y.s, y.current.value, ItemsOf(y.flights), MarksOf(y.flights), y.w)
  {
    hide Core, Tidy, Orderly, Pact, AllBindable, Retired, MarksOf, ItemsOf, EngineInvariant.InOrder, Cleanable,
        ZipMarks, ResultOk, Shaped;
    CollectOk(c, y);
    SteadyCleanable(c, Retired(c, y.s, y.current.value), ItemsOf(y.flights));
    var f := y.current.value;
    assert f in y.Aloft();
    AloftHead(y);
    PactShaped(c, y.s, y.w, MarksOf(y.Aloft()));
  }

  lemma AloftHead(y: Sys)
    requires y.current.Some? && y.current.value.outcome.Some?
    ensures y.Out() == y.current.value.items + ItemsOf(y.flights)
    ensures MarksOf(y.Aloft()) == FlightMarks(y.current.value) + MarksOf(y.flights)
  {
    assert y.Aloft() == [y.current.value] + y.flights && y.Aloft()[1..] == y.flights;
  }

  // ---------------------------------------------------------------- runs

  /** y is where a run of these steps ends. */
  ghost predicate Reached(c: Config, y: Sys, steps: seq<Step>) {
    c.Valid() && y == Run(c, steps)
  }

  lemma ReachedBoot(c: Config)
    requires c.Valid()
    ensures Reached(c, Boot(c), [])
  {
  }

  lemma ReachedNext(c: Config, y: Sys, steps: seq<Step>, step: Step)
    requires Reached(c, y, steps)
    ensures Reached(c, Next(c, y, step), steps + [step])
  {
    hide Next;
    var all := steps + [step];
    assert all[..|all| - 1] == steps;
  }

  lemma ReachedOk(c: Config, y: Sys, steps: seq<Step>)
    requires Reached(c, y, steps)
    ensures SysInv(c, y)
  {
    hide SysInv, Run;
    RunOk(c, steps);
  }

  /** A batch in flight can be executed. */
  lemma ReachedFlight(c: Config, y: Sys, steps: seq<Step>, f: Flight, latest: map<SeqId, Token>)
    requires Reached(c, y, steps) && f in y.Aloft()
    ensures c.blockSize > 0 && Once(f.items) && forall x :: x in f.items ==> Translatable(c, BindToken(c, latest, x))
  {
    hide Run, Once, Load, Translatable, BindToken;
    FlightOnce(c, steps, f);
    forall x | x in f.items ensures Translatable(c, BindToken(c, latest, x)) {
      FlightTranslatable(c, steps, f, x, latest);
    }
  }

  lemma ReachedDrained(c: Config, y: Sys, steps: seq<Step>, b: BlockId)
    requires Reached(c, y, steps) && y.promises == 1 && b < c.maxBlocks
    ensures y.s.objs == map[] && y.s.registry == map[] && y.Out() == []
    ensures b !in y.s.hist.leaked ==> b in y.s.blocks.pool.free || b in y.s.blocks.cache.idle
  {
    hide Run;
    Theorems.ShutdownDrains(c, steps, b);
  }

  lemma ReachedHeard(c: Config, y: Sys, steps: seq<Step>, t: Ticket)
    requires Reached(c, y, steps) && y.promises == 1 && t < y.s.nextTicket && t !in y.s.hist.excused
    ensures var log := LogOf(y.s, t);
      log != [] && Terminal(log[|log| - 1]) && forall i | 0 <= i < |log| - 1 :: !Terminal(log[i])
  {
    hide Run;
    Answers.EveryoneAnswered(c, steps, t);
  }

  lemma ReachedStart(c: Config, y: Sys, steps: seq<Step>)
    requires Reached(c, y, steps)
    ensures Reached(c, if y.shutdownRequested || y.s.accepting || y.pc != NotStarted then y
                       else y.(s := y.s.(accepting := true), pc := Top), steps + [Step.Start])
  {
    hide Reached;
    ReachedNext(c, y, steps, Step.Start);
  }

  lemma ReachedRaise(c: Config, y: Sys, steps: seq<Step>)
    requires Reached(c, y, steps)
    ensures Reached(c, if y.shutdownRequested then y
                       else y.(shutdownRequested := true, wasRunning := y.s.accepting, taskPending := true,
                               s := y.s.(accepting := false)), steps + [RaiseShutdown])
  {
    hide Reached;
    ReachedNext(c, y, steps, RaiseShutdown);
  }

  lemma ReachedTask(c: Config, y: Sys, steps: seq<Step>)
    requires Reached(c, y, steps)
    ensures Reached(c, if !y.taskPending then y else Tasked(y), steps + [ShutdownTask])
  {
    hide Reached, FailAllWaiting;
    ReachedNext(c, y, steps, ShutdownTask);
  }

  /** The posted half of a shutdown request. */
  function Tasked(y: Sys): Sys {
    var y1 := y.(taskPending := false, s := FailAllWaiting(y.s, ServerShuttingDown));
    if y.wasRunning then y1 else Complete(y1)
  }

  lemma ReachedSubmit(c: Config, y: Sys, steps: seq<Step>, id: string, prompt: seq<Token>, maxTokens: int,
          maxContext: int, open: bool)
    requires Reached(c, y, steps)
    ensures Reached(c, y.(s := Submit(c, y.s, id, prompt, maxTokens, maxContext, open)),
                    steps + [SubmitRequest(id, prompt, maxTokens, maxContext, open)])
  {
    hide Reached, Submit;
    ReachedNext(c, y, steps, SubmitRequest(id, prompt, maxTokens, maxContext, open));
  }

  lemma ReachedCancel(c: Config, y: Sys, steps: seq<Step>, id: string)
    requires Reached(c, y, steps)
    ensures Reached(c, y.(s := Cancel(y.s, id)), steps + [CancelRequest(id)])
  {
    hide Reached, Cancel;
    ReachedNext(c, y, steps, CancelRequest(id));
  }

  lemma ReachedHangup(c: Config, y: Sys, steps: seq<Step>, t: Ticket)
    requires Reached(c, y, steps)
    ensures Reached(c, y.(s := Hangup(y.s, t)), steps + [HangUp(t)])
  {
    hide Reached, Hangup;
    ReachedNext(c, y, steps, HangUp(t));
  }

  lemma ReachedHalt(c: Config, y: Sys, steps: seq<Step>)
    requires Reached(c, y, steps)
    ensures Reached(c, y.(w := y.w.(halted := true)), steps + [HaltWorker])
  {
    hide Reached;
    ReachedNext(c, y, steps, HaltWorker);
  }

  lemma ReachedEngine(c: Config, y: Sys, steps: seq<Step>, raises: seq<Raise>)
    requires Reached(c, y, steps)
    ensures Reached(c, EngineStep(c, y, raises), steps + [RunEngine(raises)])
  {
    hide Reached, EngineStep;
    ReachedNext(c, y, steps, RunEngine(raises));
  }

  lemma ReachedWorker(c: Config, y: Sys, steps: seq<Step>, picks: seq<Pick>, broken: bool, code: ErrorCode,
          junk: map<nat, Kv>)
    requires Reached(c, y, steps)
    ensures Reached(c, WorkerStep(c, y, picks, broken, code, junk), steps + [RunWorker(picks, broken, code, junk)])
  {
    hide Reached, WorkerStep;
    ReachedNext(c, y, steps, RunWorker(picks, broken, code, junk));
  }

  // ---------------------------------------------------------------- one suspension point at a time

  lemma TopForm(c: Config, y: Sys, raises: seq<Raise>)
    requires y.pc == Top
    ensures EngineStep(c, y, raises) ==
      if y.s.accepting then y.(pc := Fill) else y.(s := FailAllWaiting(y.s, ServerShuttingDown), pc := Drain)
  {
    hide FailAllWaiting;
  }

  lemma FillForm(c: Config, y: Sys, raises: seq<Raise>)
    requires y.pc == Fill
    ensures EngineStep(c, y, raises) == FillStep(c, y, raises)
  {
    hide FillStep;
  }

  lemma CheckForm(c: Config, y: Sys, raises: seq<Raise>)
    requires y.pc == Check
    ensures EngineStep(c, y, raises) == CheckStep(c, y)
  {
    hide CheckStep;
  }

  lemma CollectForm(c: Config, y: Sys, raises: seq<Raise>)
    requires y.pc == Collect
    ensures EngineStep(c, y, raises) ==
      if y.current.None? || y.current.value.outcome.None? then y
      else y.(s := CleanupTerminal(Retired(c, y.s, y.current.value)), current := None, pc := Top)
  {
    hide CleanupTerminal, Retired;
  }

  lemma DrainForm(c: Config, y: Sys, raises: seq<Raise>)
    requires y.pc == Drain
    ensures EngineStep(c, y, raises) ==
      if y.flights != [] then y.(current := Some(y.flights[0]), flights := y.flights[1..], pc := DrainCollect)
      else Complete(y.(s := CleanupAllRunning(y.s, ServerShuttingDown), pc := Stopped))
  {
    hide CleanupAllRunning;
  }

  lemma DrainCollectForm(c: Config, y: Sys, raises: seq<Raise>)
    requires y.pc == DrainCollect
    ensures EngineStep(c, y, raises) ==
      if y.current.None? || y.current.value.outcome.None? then y
      else y.(s := Retired(c, y.s, y.current.value), current := None, pc := Drain)
  {
    hide Retired;
  }

  lemma RestForm(c: Config, y: Sys, raises: seq<Raise>)
    requires y.pc == NotStarted || y.pc == Sleep || y.pc == Stopped
    ensures EngineStep(c, y, raises) == if y.pc == Sleep then y.(pc := Top) else y
  {
  }

  /** The worker takes the batch popped from the queue, or the first one in it that waits. */
  lemma WorkerForm(c: Config, y: Sys, picks: seq<Pick>, broken: bool, code: ErrorCode, junk: map<nat, Kv>)
    ensures var i := FirstPending(y.flights);
      WorkerStep(c, y, picks, broken, code, junk) ==
        if y.current.Some? && y.current.value.outcome.None? then
          var r := Fate(c, y.w, y.current.value, picks, broken, code, junk); y.(w := r.0, current := Some(r.1))
        else if i == |y.flights| then y
        else var r := Fate(c, y.w, y.flights[i], picks, broken, code, junk);
            y.(w := r.0, flights := y.flights[i := r.1])
  {
    hide Fate;
  }
}
