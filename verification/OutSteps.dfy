/** What a step does to the work items in flight: it keeps them, retires a batch, or adds the one it built. */
module OutSteps {
  import opened Types
  import opened State
  import opened Scheduling
  import opened Engine
  import opened Marks
  import opened EngineInvariant

  lemma {:induction false} ItemAloft(fs: seq<Flight>, x: WorkItem)
    ensures x in ItemsOf(fs) <==> exists f :: f in fs && x in f.items
    decreases |fs|
  {
    if fs != [] {
      ItemAloft(fs[1..], x);
      assert fs == [fs[0]] + fs[1..];
    }
  }

  lemma {:induction false} SwapItems(fs: seq<Flight>, k: nat, f: Flight)
    requires k < |fs| && f.items == fs[k].items
    ensures ItemsOf(fs[k := f]) == ItemsOf(fs)
    decreases |fs|
  {
    if k > 0 {
      SwapItems(fs[1..], k - 1, f);
      assert fs[k := f][1..] == fs[1..][k - 1 := f];
    } else {
      assert fs[k := f][1..] == fs[1..];
    }
  }

  lemma WorkerOut(c: Config, y: Sys, picks: seq<Pick>, broken: bool, code: ErrorCode, junk: map<nat, Kv>)
    ensures WorkerStep(c, y, picks, broken, code, junk).Out() == y.Out()
  {
    hide WorkerStep, Fate, ItemsOf;
    WorkerAloft(c, y, picks, broken, code, junk);
    var fs := y.Aloft();
    var k := FirstPending(fs);
    if k < |fs| {
      var (w, f) := Fate(c, y.w, fs[k], picks, broken, code, junk);
      FateFrame(c, y.w, fs[k], picks, broken, code, junk);
      SwapItems(fs, k, f);
    }
  }

  /** The batch a step of the engine would build. */
  function Built(c: Config, y: Sys, raises: seq<Raise>): seq<WorkItem> {
    ScheduleStep(c, y.s, raises).items
  }

  lemma NoticedAloft(y: Sys, s: Sched)
    ensures Noticed(y, s).flights == y.flights && Noticed(y, s).current == y.current
  {
  }

  lemma FillFlights(c: Config, y: Sys, raises: seq<Raise>)
    ensures var y' := FillStep(c, y, raises);
      && y'.current == y.current
      && (y'.flights == y.flights || y'.flights == y.flights + [Flight(Built(c, y, raises), None)])
  {
    hide ScheduleStep, CleanupTerminal, FailBatch, Noticed;
    NoticedAloft(y, ScheduleStep(c, y.s, raises).s);
  }

  lemma FillAloft(c: Config, y: Sys, raises: seq<Raise>)
    ensures var y' := FillStep(c, y, raises);
      y'.Aloft() == y.Aloft() || y'.Aloft() == y.Aloft() + [Flight(Built(c, y, raises), None)]
  {
    hide FillStep, Built;
    FillFlights(c, y, raises);
  }

  /** A batch is awaited only where it is collected. */
  predicate AwaitsHere(y: Sys) {
    y.pc == Check || y.pc == Drain ==> y.current.None?
  }

  lemma CheckAloft(c: Config, y: Sys)
    requires y.current.None?
    ensures CheckStep(c, y).Aloft() == y.Aloft()
  {
    hide CleanupTerminal, HasSchedulableWork, Preempt;
    if y.flights != [] { assert [y.flights[0]] + y.flights[1..] == y.flights; }
  }

  lemma EngineAloft(c: Config, y: Sys, raises: seq<Raise>)
    requires AwaitsHere(y)
    ensures var y' := EngineStep(c, y, raises);
      || y'.Aloft() == y.Aloft() || y'.Aloft() == y.flights
      || y'.Aloft() == y.Aloft() + [Flight(Built(c, y, raises), None)]
  {
    hide FillStep, CheckStep, Retired, CleanupTerminal, FailAllWaiting, TerminateAll, Built;
    match y.pc
    case Fill => FillAloft(c, y, raises);
    case Check => CheckAloft(c, y);
    case Drain => if y.flights != [] { assert [y.flights[0]] + y.flights[1..] == y.flights; }
    case _ =>
  }

  lemma EngineOut(c: Config, y: Sys, raises: seq<Raise>, x: WorkItem)
    requires AwaitsHere(y)
    ensures var y' := EngineStep(c, y, raises);
      x in y'.Out() ==> x in y.Out() || y'.Out() == y.Out() + Built(c, y, raises)
  {
    hide EngineStep, Built;
    var y' := EngineStep(c, y, raises);
    var f := Flight(Built(c, y, raises), None);
    EngineAloft(c, y, raises);
    ItemsOfConcat(y.Aloft(), [f]);
    assert ItemsOf([f]) == f.items + ItemsOf([f][1..]) == f.items;
    hide ItemsOf;
    ItemAloft(y.Aloft(), x);
    ItemAloft(y.flights, x);
  }

  /** An item in flight after a step was so before, or belongs to the batch that the step added. */
  lemma NextOut(c: Config, y: Sys, step: Step, x: WorkItem)
    requires AwaitsHere(y)
    ensures var y' := Next(c, y, step);
      x in y'.Out() ==> x in y.Out() || (step.RunEngine? && y'.Out() == y.Out() + Built(c, y, step.raises))
  {
    hide ItemsOf, FailAllWaiting, Submit, Cancel, Hangup, WorkerStep, EngineStep, Built, AwaitsHere;
    match step
    case RunEngine(raises) => EngineOut(c, y, raises, x);
    case RunWorker(picks, broken, code, junk) => WorkerOut(c, y, picks, broken, code, junk);
    case _ =>
  }
}
