/**
 The engine as an object: the scheduler, the worker, the queue of batches in flight and the place the
 coroutine is suspended at. One call is what happens between two suspension points, a client's call, or the
 worker finishing one batch. Whatever calls are made, the state is the state of a run.
 */
module EngineClass {
  import opened Types
  import opened Scheduling
  import opened BatchLemmas
  import opened Translation
  import opened Engine
  import opened Invariant
  import opened Protocol
  import opened Marks
  import opened RetireLemmas
  import opened StepLemmas
  import opened SystemInvariant
  import opened BookLemmas
  import opened SchedulerClass
  import opened WorkerClass
  import opened EngineBooks

  // ---------------------------------------------------------------- the object

  class EngineCore {
    const sched: Scheduler
    const worker: BatchWorker
    var flights: seq<Flight>
    var current: Option<Flight>
    var pc: Pc
    var shutdownRequested: bool
    var wasRunning: bool
    var taskPending: bool
    var doneSent: bool
    var promises: nat
    /** What has happened so far. */
    ghost var steps: seq<Step>

    ghost function Repr(): set<object> {
      {this, worker} + sched.Repr()
    }

    ghost function View(): Sys
      reads Repr()
    {
      Sys(sched.View(), flights, current, worker.View(), pc, shutdownRequested, wasRunning, taskPending, doneSent,
          promises)
    }

    /** The state is that of a run. */
    ghost predicate Valid()
      reads Repr()
    {
      worker.c == sched.c && Reached(sched.c, View(), steps)
    }

    constructor (c: Config)
      requires c.Valid()
      ensures Valid() && sched.c == c && steps == [] && fresh(Repr())
    {
      sched := new Scheduler(c);
      worker := new BatchWorker(c);
      flights, current, pc := [], None, NotStarted;
      shutdownRequested, wasRunning, taskPending, doneSent, promises := false, false, false, false, 0;
      steps := [];
      new;
      ReachedBoot(c);
    }

    // -------------------------------------------------------------- clients

    method Submit(id: string, prompt: seq<Token>, maxTokens: int, maxContext: int, open: bool)
      requires Valid()
      modifies Repr()
      ensures Valid() && steps == old(steps) + [Step.SubmitRequest(id, prompt, maxTokens, maxContext, open)]
    {
      hide Reached, Scheduling.Submit;
      ReachedSubmit(sched.c, View(), steps, id, prompt, maxTokens, maxContext, open);
      sched.SubmitRequest(id, prompt, maxTokens, maxContext, open);
      steps := steps + [Step.SubmitRequest(id, prompt, maxTokens, maxContext, open)];
    }

    method Cancel(id: string)
      requires Valid()
      modifies Repr()
      ensures Valid() && steps == old(steps) + [Step.CancelRequest(id)]
    {
      hide Reached, Scheduling.Cancel;
      ReachedCancel(sched.c, View(), steps, id);
      sched.CancelRequest(id);
      steps := steps + [Step.CancelRequest(id)];
    }

    /** The client's end of the event channel is gone. */
    method HangUp(t: Ticket)
      requires Valid()
      modifies Repr()
      ensures Valid() && steps == old(steps) + [Step.HangUp(t)]
    {
      hide Reached, Scheduling.Hangup;
      ReachedHangup(sched.c, View(), steps, t);
      sched.CloseChannel(t);
      steps := steps + [Step.HangUp(t)];
    }

    // -------------------------------------------------------------- starting and stopping

    method Start()
      requires Valid()
      modifies Repr()
      ensures Valid() && steps == old(steps) + [Step.Start]
    {
      hide Reached;
      ReachedStart(sched.c, View(), steps);
      steps := steps + [Step.Start];
      if shutdownRequested || sched.accepting || pc != NotStarted { return; }
      sched.accepting := true;
      pc := Top;
    }

    method RequestShutdown()
      requires Valid()
      modifies Repr()
      ensures Valid() && steps == old(steps) + [RaiseShutdown]
    {
      hide Reached;
      ReachedRaise(sched.c, View(), steps);
      steps := steps + [RaiseShutdown];
      if shutdownRequested { return; }
      shutdownRequested, wasRunning, taskPending := true, sched.accepting, true;
      sched.accepting := false;
    }

    /** The posted half of a shutdown request. */
    method FinishRequest()
      requires Valid()
      modifies Repr()
      ensures Valid() && steps == old(steps) + [ShutdownTask]
    {
      hide Reached, SysInv, Tasked, Balanced;
      ReachedTask(sched.c, View(), steps);
      ReachedOk(sched.c, View(), steps);
      EngineSteady(sched.c, View());
      steps := steps + [ShutdownTask];
      if taskPending { RunTask(); }
    }

    method RunTask()
      requires Balanced(sched.c, sched.View())
      modifies Repr() - {worker}
      ensures View() == Tasked(old(View())) && steps == old(steps)
    {
      hide FailAllWaiting, Balanced;
      taskPending := false;
      sched.FailAllWaitingRequests(ServerShuttingDown);
      if !wasRunning { CompleteShutdown(); }
    }

    method CompleteShutdown()
      modifies this`doneSent, this`promises
      ensures View() == Complete(old(View()))
    {
      if !doneSent {
        doneSent := true;
        promises := promises + 1;
      }
    }

    // -------------------------------------------------------------- the worker's thread

    method StopWorker()
      requires Valid()
      modifies Repr()
      ensures Valid() && steps == old(steps) + [HaltWorker]
    {
      hide Reached;
      ReachedHalt(sched.c, View(), steps);
      steps := steps + [HaltWorker];
      worker.Halt();
    }

    /** The first batch of the queue that has no outcome yet. */
    method FindPending() returns (i: nat)
      ensures i == FirstPending(flights)
    {
      i := 0;
      assert flights[0..] == flights;
      while i < |flights| && flights[i].outcome.Some?
        invariant 0 <= i <= |flights| && FirstPending(flights) == i + FirstPending(flights[i..])
      {
        assert flights[i..][0] == flights[i] && flights[i..][1..] == flights[i + 1..];
        i := i + 1;
      }
    }

    /** The worker executes one batch. */
    method Execute(f: Flight, picks: seq<Pick>, broken: bool, code: ErrorCode, junk: map<nat, Kv>, active: map<SeqId,
            nat>)
      returns (f': Flight)
      requires Valid() && f in View().Aloft() && f.outcome.None?
      modifies worker
      ensures Fate(sched.c, old(worker.View()), f, picks, broken, code, junk) == (worker.View(), f')
    {
      hide Reached, Once, Fate, Translatable, BindToken;
      ReachedFlight(sched.c, View(), steps, f, worker.latest);
      var o := worker.Process(f.items, picks, broken, code, junk, active);
      f' := Flight(f.items, Some(o));
    }

    method ExecuteCurrent(picks: seq<Pick>, broken: bool, code: ErrorCode, junk: map<nat, Kv>, active: map<SeqId, nat>)
      requires Valid() && current.Some? && current.value.outcome.None?
      modifies this`current, worker
      ensures var r := Fate(sched.c, old(worker.View()), old(current).value, picks, broken, code, junk);
        View() == old(View()).(w := r.0, current := Some(r.1))
    {
      hide Reached, Fate;
      var f := Execute(current.value, picks, broken, code, junk, active);
      current := Some(f);
    }

    method ExecuteQueued(i: nat, picks: seq<Pick>, broken: bool, code: ErrorCode, junk: map<nat, Kv>,
            active: map<SeqId, nat>)
      requires Valid() && i < |flights| && flights[i].outcome.None?
      modifies this`flights, worker
      ensures var r := Fate(sched.c, old(worker.View()), old(flights)[i], picks, broken, code, junk);
        View() == old(View()).(w := r.0, flights := old(flights)[i := r.1])
    {
      hide Reached, Fate;
      var f := Execute(flights[i], picks, broken, code, junk, active);
      flights := flights[i := f];
    }

    /** The worker takes the oldest batch it has not executed yet, if there is one. */
    method WorkOnce(picks: seq<Pick>, broken: bool, code: ErrorCode, junk: map<nat, Kv>, active: map<SeqId, nat>)
      requires Valid()
      modifies this`flights, this`current, worker
      ensures View() == WorkerStep(sched.c, old(View()), picks, broken, code, junk)
    {
      hide Reached, Fate, WorkerStep;
      WorkerForm(sched.c, View(), picks, broken, code, junk);
      var i := FindPending();
      if current.Some? && current.value.outcome.None? {
        ExecuteCurrent(picks, broken, code, junk, active);
      } else if i < |flights| {
        ExecuteQueued(i, picks, broken, code, junk, active);
      }
    }

    method RunWorker(picks: seq<Pick>, broken: bool, code: ErrorCode, junk: map<nat, Kv>, active: map<SeqId, nat>)
      requires Valid()
      modifies Repr()
      ensures Valid() && steps == old(steps) + [Step.RunWorker(picks, broken, code, junk)]
    {
      hide Reached, WorkerStep;
      ReachedWorker(sched.c, View(), steps, picks, broken, code, junk);
      WorkOnce(picks, broken, code, junk, active);
      steps := steps + [Step.RunWorker(picks, broken, code, junk)];
    }

    // -------------------------------------------------------------- the coroutine

    /** Builds a batch; another thread may ask for shutdown meanwhile. */
    method BuildBatch(raises: seq<Raise>) returns (items: seq<WorkItem>)
      requires Steady(sched.c, sched.View(), View().Out())
      modifies Repr() - {worker}
      ensures var g := ScheduleStep(sched.c, old(sched.View()), raises);
        items == g.items && View() == Noticed(old(View()), g.s)
      ensures steps == old(steps)
    {
      hide ScheduleStep, Core;
      var was := sched.accepting;
      items := sched.NextBatch(raises, View().Out());
      if was && !sched.accepting {
        shutdownRequested, wasRunning, taskPending := true, true, true;
      }
    }

    /** One round of the inner loop: a batch is built and handed to the worker, if the window has room. */
    method FillWindow(raises: seq<Raise>)
      requires SysInv(sched.c, View()) && pc == Fill
      modifies Repr() - {worker}
      ensures View() == EngineStep(sched.c, old(View()), raises) && steps == old(steps)
    {
      hide SysInv, ScheduleStep, FailBatch, CleanupTerminal, Core, Balanced, EngineStep;
      FillForm(sched.c, View(), raises);
      RefusedCleanable(sched.c, View(), raises);
      EngineSteady(sched.c, View());
      if |flights| >= sched.c.maxConcurrent {
        pc := Check;
        return;
      }
      var items := BuildBatch(raises);
      if items == [] {
        pc := Check;
      } else if !worker.halted {
        flights := flights + [Flight(items, None)];
      } else {
        sched.FailWholeBatch(items, ServerShuttingDown);
        sched.CleanupTerminalRequests();
      }
    }

    method LookForWork()
      requires Cleanable(sched.c, sched.View())
      modifies Repr() - {worker}
      ensures var s := CleanupTerminal(old(sched.View()));
        View() == if !s.paused && (s.waiting != [] || HasSchedulableWork(sched.c, s))
            then old(View()).(s := Preempt(s), pc := Top)
                  else old(View()).(s := s, pc := Sleep)
      ensures steps == old(steps)
    {
      hide CleanupTerminal, HasSchedulableWork, Preempt, Balanced;
      sched.CleanupTerminalRequests();
      var more := sched.CanSchedule();
      if !sched.paused && (sched.waiting != [] || more) {
        sched.PreemptOneForAdmission();
        pc := Top;
      } else {
        pc := Sleep;
      }
    }

    /** The window is full or nothing was built: await the oldest batch, or look for work. */
    method CheckWindow(ghost raises: seq<Raise>)
      requires SysInv(sched.c, View()) && pc == Check
      modifies Repr() - {worker}
      ensures View() == EngineStep(sched.c, old(View()), raises) && steps == old(steps)
    {
      hide SysInv, CleanupTerminal, HasSchedulableWork, Preempt, Core, Cleanable, EngineStep;
      CheckForm(sched.c, View(), raises);
      EngineSteady(sched.c, View());
      if flights != [] {
        PopOldest();
        pc := Collect;
      } else {
        LookForWork();
      }
    }

    method PopOldest()
      requires flights != []
      modifies this`flights, this`current
      ensures View() == old(View()).(current := Some(old(flights)[0]), flights := old(flights)[1..])
    {
      current := Some(flights[0]);
      flights := flights[1..];
    }

    /** The scheduler is told the outcome of a batch. */
    method Report(f: Flight, ghost rest: seq<WorkItem>, ghost ms: seq<Mark>, ghost w: Worker)
      requires f.outcome.Some? && Retirable(sched.c, sched.View(), f, rest, ms, w)
      modifies sched.Repr()
      ensures sched.View() == Retired(sched.c, old(sched.View()), f)
    {
      hide RetireAll, FailBatch, Core, Tidy, Shaped, ZipMarks, ResultOk;
      match f.outcome.value
      case Done(results) => sched.UpdateFromOutput(f.items, results, rest, ms, w);
      case Broken(code) => sched.FailWholeBatch(f.items, code);
    }

    /** The result of the awaited batch arrived. */
    method Settle()
      requires SysInv(sched.c, View()) && current.Some? && current.value.outcome.Some?
      modifies Repr() - {worker}
      ensures View() == old(View()).(s := Retired(sched.c, old(sched.View()), old(current).value), current := None)
      ensures Cleanable(sched.c, sched.View()) && steps == old(steps)
    {
      hide SysInv, Retired, Retirable, Cleanable;
      CollectedCleanable(sched.c, View());
      Report(current.value, ItemsOf(flights), MarksOf(flights), worker.View());
      current := None;
    }

    method CollectOldest(ghost raises: seq<Raise>)
      requires SysInv(sched.c, View()) && pc == Collect
      modifies Repr() - {worker}
      ensures View() == EngineStep(sched.c, old(View()), raises) && steps == old(steps)
    {
      hide SysInv, Retired, CleanupTerminal, Balanced, EngineStep;
      CollectForm(sched.c, View(), raises);
      if current.None? || current.value.outcome.None? { return; }
      Settle();
      sched.CleanupTerminalRequests();
      pc := Top;
    }

    method DrainOne(ghost raises: seq<Raise>)
      requires Balanced(sched.c, sched.View()) && pc == Drain
      modifies Repr() - {worker}
      ensures View() == EngineStep(sched.c, old(View()), raises) && steps == old(steps)
    {
      hide CleanupAllRunning, Balanced, EngineStep;
      DrainForm(sched.c, View(), raises);
      if flights != [] {
        PopOldest();
        pc := DrainCollect;
      } else {
        EndRun();
      }
    }

    /** Nothing is in flight any more: what still runs is told, and the shutdown is acknowledged. */
    method EndRun()
      requires Balanced(sched.c, sched.View())
      modifies Repr() - {worker}
      ensures View() == Complete(old(View()).(s := CleanupAllRunning(old(sched.View()), ServerShuttingDown),
          pc := Stopped))
      ensures steps == old(steps)
    {
      hide CleanupAllRunning, Balanced;
      sched.CleanupRunning(ServerShuttingDown);
      pc := Stopped;
      CompleteShutdown();
    }

    method DrainOldest(ghost raises: seq<Raise>)
      requires SysInv(sched.c, View()) && pc == DrainCollect
      modifies Repr() - {worker}
      ensures View() == EngineStep(sched.c, old(View()), raises) && steps == old(steps)
    {
      hide SysInv, Retired, Cleanable, EngineStep;
      DrainCollectForm(sched.c, View(), raises);
      if current.None? || current.value.outcome.None? { return; }
      Settle();
      pc := Drain;
    }

    method BeginRound(ghost raises: seq<Raise>)
      requires Balanced(sched.c, sched.View()) && pc == Top
      modifies Repr() - {worker}
      ensures View() == EngineStep(sched.c, old(View()), raises) && steps == old(steps)
    {
      hide FailAllWaiting, Balanced, EngineStep;
      TopForm(sched.c, View(), raises);
      if sched.accepting {
        pc := Fill;
      } else {
        sched.FailAllWaitingRequests(ServerShuttingDown);
        pc := Drain;
      }
    }

    method WakeUp(ghost raises: seq<Raise>)
      requires pc == NotStarted || pc == Sleep || pc == Stopped
      modifies this`pc
      ensures View() == EngineStep(sched.c, old(View()), raises)
    {
      hide EngineStep;
      RestForm(sched.c, View(), raises);
      if pc == Sleep { pc := Top; }
    }

    /** What the coroutine does at its suspension point. */
    method Round(raises: seq<Raise>)
      requires SysInv(sched.c, View())
      modifies Repr() - {worker}
      ensures View() == EngineStep(sched.c, old(View()), raises) && steps == old(steps)
    {
      hide SysInv, EngineStep, Balanced, Core;
      EngineSteady(sched.c, View());
      match pc
      case Top => BeginRound(raises);
      case Fill => FillWindow(raises);
      case Check => CheckWindow(raises);
      case Collect => CollectOldest(raises);
      case Drain => DrainOne(raises);
      case DrainCollect => DrainOldest(raises);
      case _ => WakeUp(raises);
    }

    /** Runs the coroutine to its next suspension point. */
    method Advance(raises: seq<Raise>)
      requires Valid()
      modifies Repr()
      ensures Valid() && steps == old(steps) + [RunEngine(raises)]
    {
      hide Reached, SysInv, EngineStep;
      ReachedOk(sched.c, View(), steps);
      ReachedEngine(sched.c, View(), steps, raises);
      Round(raises);
      steps := steps + [RunEngine(raises)];
    }

    // -------------------------------------------------------------- after a shutdown

    /** Once a shutdown is acknowledged no request is left, and every block that no failed allocation lost is on
        the free list or the idle list. */
    lemma Drained(b: BlockId)
      requires Valid() && promises == 1 && b < sched.c.maxBlocks
      ensures sched.objs == map[] && sched.registry == map[] && View().Out() == []
      ensures b !in sched.hist.leaked ==> b in sched.cache.pool.free || b in sched.cache.idle
    {
      hide Reached;
      ReachedDrained(sched.c, View(), steps, b);
    }

    /** By then every client that neither cancelled nor left has heard exactly one terminal event, as its last. */
    lemma Heard(t: Ticket)
      requires Valid() && promises == 1 && t < sched.nextTicket && t !in sched.hist.excused
      ensures t in sched.log && sched.log[t] != []
      ensures var log := sched.log[t]; Terminal(log[|log| - 1]) && forall i | 0 <= i < |log| - 1 :: !Terminal(log[i])
    {
      hide Reached;
      ReachedHeard(sched.c, View(), steps, t);
    }
  }
}
