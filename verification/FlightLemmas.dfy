/** How batches enter and leave the window of those in flight. */
module FlightLemmas {
  import opened Types
  import opened Scheduling
  import opened Engine

  /** Batches in flight keep their items; a new one is what the scheduler has just built. */
  lemma NextFlights(c: Config, y: Sys, step: Step, f: Flight)
    requires f in Next(c, y, step).Aloft()
    ensures (exists g :: g in y.Aloft() && g.items == f.items)
         || (step.RunEngine? && f.items == ScheduleStep(c, y.s, step.raises).items)
  {
    hide EngineStep, WorkerStep, ScheduleStep, FailAllWaiting, Submit, Cancel, Hangup;
    if step.RunWorker? {
      WorkerFlights(c, y, step.picks, step.broken, step.code, step.junk, f);
    } else if step.RunEngine? {
      EngineFlights(c, y, step.raises, f);
    } else {
      assert Next(c, y, step).flights == y.flights && Next(c, y, step).current == y.current;
      assert f in y.Aloft();
    }
  }

  /** A round pops the oldest batch, retires the one popped, or appends what was built. */
  predicate Queued(y: Sys, y': Sys, built: seq<WorkItem>) {
    || (y'.flights == y.flights && (y'.current == y.current || y'.current == None))
    || (y.flights != [] && y'.flights == y.flights[1..] && y'.current == Some(y.flights[0]))
    || (y'.flights == y.flights + [Flight(built, None)] && y'.current == y.current)
  }

  lemma FillQueue(c: Config, y: Sys, raises: seq<Raise>)
    ensures Queued(y, FillStep(c, y, raises), ScheduleStep(c, y.s, raises).items)
  {
    hide ScheduleStep, FailBatch, CleanupTerminal;
  }

  lemma CheckQueue(c: Config, y: Sys, built: seq<WorkItem>)
    ensures Queued(y, CheckStep(c, y), built)
  {
    hide CleanupTerminal, Preempt, HasSchedulableWork;
  }

  lemma PopQueue(c: Config, y: Sys, raises: seq<Raise>, built: seq<WorkItem>)
    requires y.pc == Collect || y.pc == Drain || y.pc == DrainCollect
    ensures Queued(y, EngineStep(c, y, raises), built)
  {
    hide FillStep, CheckStep, CleanupTerminal, Retired, FailAllWaiting, CleanupAllRunning;
  }

  lemma EngineQueue(c: Config, y: Sys, raises: seq<Raise>)
    ensures Queued(y, EngineStep(c, y, raises), ScheduleStep(c, y.s, raises).items)
  {
    hide ScheduleStep, FillStep, CheckStep, CleanupTerminal, Retired, FailAllWaiting, CleanupAllRunning;
    match y.pc
    case Fill => FillQueue(c, y, raises);
    case Check => CheckQueue(c, y, ScheduleStep(c, y.s, raises).items);
    case Collect => PopQueue(c, y, raises, ScheduleStep(c, y.s, raises).items);
    case Drain => PopQueue(c, y, raises, ScheduleStep(c, y.s, raises).items);
    case DrainCollect => PopQueue(c, y, raises, ScheduleStep(c, y.s, raises).items);
    case _ =>
  }

  lemma EngineFlights(c: Config, y: Sys, raises: seq<Raise>, f: Flight)
    requires f in EngineStep(c, y, raises).Aloft()
    ensures (exists g :: g in y.Aloft() && g.items == f.items) || f.items == ScheduleStep(c, y.s, raises).items
  {
    hide EngineStep, ScheduleStep;
    EngineQueue(c, y, raises);
    assert f in y.Aloft() || f == Flight(ScheduleStep(c, y.s, raises).items, None);
  }

  lemma WorkerFlights(c: Config, y: Sys, picks: seq<Pick>, broken: bool, code: ErrorCode, junk: map<nat, Kv>, f: Flight)
    requires f in WorkerStep(c, y, picks, broken, code, junk).Aloft()
    ensures exists g :: g in y.Aloft() && g.items == f.items
  {
    hide ExecuteItems, Smudge, Dirty;
    var i := FirstPending(y.flights);
    if y.current.Some? && y.current.value.outcome.None? {
      assert y.current.value in y.Aloft();
    } else if i < |y.flights| {
      assert y.flights[i] in y.Aloft();
      var flights := y.flights[i := Fate(c, y.w, y.flights[i], picks, broken, code, junk).1];
      if f in flights {
        var j :| 0 <= j < |flights| && flights[j] == f;
        assert y.flights[j] in y.Aloft();
      }
    }
  }
}
