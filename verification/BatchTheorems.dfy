/** What the scheduler hands over is what the worker and the block cache ask for, on every run. */
module BatchTheorems {
  import opened Types
  import opened Blocks
  import BlockLemmas
  import opened State
  import opened Scheduling
  import opened Invariant
  import opened OutLemmas
  import opened AccountLemmas
  import opened AdmitLemmas
  import opened StepLemmas
  import opened Engine
  import opened MemoryLemmas
  import opened ExecuteLemmas
  import opened BatchLemmas
  import opened Theorems
  import opened FlightLemmas
  import opened Translation
  import opened Device
  import opened WorkerClass

  /** Every batch in flight names each sequence at most once and keeps within the token budget. */
  lemma {:induction false} FlightOnce(c: Config, steps: seq<Step>, f: Flight)
    requires c.Valid() && f in Run(c, steps).Aloft()
    ensures Once(f.items) && Load(f.items) <= c.tokenBudget
    decreases |steps|
  {
    hide Once, Load, ScheduleStep, Next, Steady;
    if steps != [] {
      var before, step := steps[..|steps| - 1], steps[|steps| - 1];
      var y := Run(c, before);
      NextFlights(c, y, step, f);
      if g :| g in y.Aloft() && g.items == f.items {
        FlightOnce(c, before, g);
      } else {
        RunSteady(c, before);
        BatchContract(c, y.s, y.Out(), step.raises);
      }
    }
  }

  /** Every item of every batch in flight, once its token is bound, meets what translation asserts. */
  lemma FlightTranslatable(c: Config, steps: seq<Step>, f: Flight, x: WorkItem, latest: map<SeqId, Token>)
    requires c.Valid() && f in Run(c, steps).Aloft() && x in f.items
    ensures Translatable(c, BindToken(c, latest, x))
  {
    hide Steady, Run, Cap;
    var y := Run(c, steps);
    RunSteady(c, steps);
    InFlight(y.Aloft(), f, x);
    ItemOwner(c, y.s, y.Out(), x);
    ItemFitsAt(c, y.s, y.Out(), x, y.s.bySeq[x.seqId]);
  }

  lemma {:induction false} InFlight(fs: seq<Flight>, f: Flight, x: WorkItem)
    requires f in fs && x in f.items
    ensures x in ItemsOf(fs)
    decreases |fs|
  {
    if fs[0] != f { InFlight(fs[1..], f, x); }
  }

  /** In every batch, binding all tokens before execution is binding each when its item executes. */
  lemma FlightBinding(c: Config, steps: seq<Step>, f: Flight, w: Worker, picks: seq<Pick>, i: nat)
    requires c.Valid() && f in Run(c, steps).Aloft() && i < |f.items|
    ensures Fed(c, ExecuteItems(c, w, f.items[..i], 0, picks).w, f.items[i])
         == Inputs(BindToken(c, w.latest, f.items[i]))
  {
    hide Run, Once, Load, ExecuteItems, Fed, Inputs, BindToken;
    FlightOnce(c, steps, f);
    SameBinding(c, w, w.latest, f.items, 0, picks, i);
  }

  /** The final filter of a scheduling step never drops anything. */
  lemma NothingDropped(c: Config, steps: seq<Step>, raises: seq<Raise>)
    requires c.Valid()
    ensures var s1 := Run(c, steps).s.(nextBatch := Run(c, steps).s.nextBatch + 1);
            var s2 := if s1.shortage then MakeRoom(s1.(shortage := false)) else s1;
            var g := AdmitLoop(c, BuildAll(c, Stage(s2, [], c.tokenBudget), s2.running), raises);
      KeepIndexed(g.s.bySeq, g.items) == g.items
  {
    hide Core, Run, MakeRoom, BuildAll, AdmitLoop, KeepIndexed;
    RunSteady(c, steps);
    var y := Run(c, steps);
    var base := y.Out();
    var s1 := y.s.(nextBatch := y.s.nextBatch + 1);
    CoreQuiet(c, y.s, s1, base, {}, multiset{});
    if s1.shortage {
      CoreQuiet(c, s1, s1.(shortage := false), base, {}, multiset{});
      CoreMakeRoom(c, s1.(shortage := false), base, {}, multiset{});
    }
    var s2 := if s1.shortage then MakeRoom(s1.(shortage := false)) else s1;
    assert base + [] == base;
    var g0 := Stage(s2, [], c.tokenBudget);
    SteadyBuildAll(c, g0, base, s2.running);
    SteadyAdmitLoop(c, BuildAll(c, g0, s2.running), base, raises);
    var g := AdmitLoop(c, BuildAll(c, g0, s2.running), raises);
    StageIndexed(c, g.s, base, g.items);
  }

  /** The table of every request may be released: each block has a reference for each occurrence. */
  lemma TablesReleasable(c: Config, steps: seq<Step>, t: Ticket)
    requires c.Valid() && t in Run(c, steps).s.objs && Run(c, steps).s.objs[t].sched.Some?
    ensures var s := Run(c, steps).s;
      Valid(s.blocks) && BlockLemmas.Releasable(s.blocks, s.objs[t].sched.value.table)
  {
    hide Steady, Run, Valid;
    var y := Run(c, steps);
    RunSteady(c, steps);
    TableCovered(c, y.s, y.Out(), t);
  }

  lemma TableCovered(c: Config, s: Sched, out: seq<WorkItem>, t: Ticket)
    requires Steady(c, s, out) && t in s.objs && s.objs[t].sched.Some?
    ensures Valid(s.blocks) && BlockLemmas.Releasable(s.blocks, s.objs[t].sched.value.table)
  {
    hide Steady, Valid, Owned;
    TicketKnown(c, s, out, t);
    SteadyConserved(c, s, out, 0);
    forall b: BlockId ensures multiset(s.objs[t].sched.value.table)[b] <= s.blocks.Refs(b) {
      SteadyConserved(c, s, out, b);
      OwnedAtLeast(s.objs, t, s.nextTicket, b);
    }
  }

  lemma TicketKnown(c: Config, s: Sched, out: seq<WorkItem>, t: Ticket)
    requires Steady(c, s, out) && t in s.objs
    ensures t < s.nextTicket
  {
    hide Accounted, Sound;
  }

  /** A block that is not cached occurs at most once in at most one table, and a lost one in none. */
  lemma PrivateBlocks(c: Config, steps: seq<Step>, t: Ticket, u: Ticket, i: nat, j: nat)
    requires c.Valid()
    requires var s := Run(c, steps).s; i < |TableOf(s.objs, t)| && j < |TableOf(s.objs, u)|
    ensures var s := Run(c, steps).s; var b := TableOf(s.objs, t)[i];
      && s.blocks.Refs(b) > 0
      && (!s.blocks.Cached(b) ==> b !in s.hist.leaked && (TableOf(s.objs, u)[j] == b ==> u == t && i == j))
  {
    hide Core, Run;
    var y := Run(c, steps);
    RunSteady(c, steps);
    BlockOwner(c, y.s, y.Out(), t, u, i, j);
  }

  lemma BlockOwner(c: Config, s: Sched, out: seq<WorkItem>, t: Ticket, u: Ticket, i: nat, j: nat)
    requires Steady(c, s, out) && i < |TableOf(s.objs, t)| && j < |TableOf(s.objs, u)|
    ensures var b := TableOf(s.objs, t)[i];
      && s.blocks.Refs(b) > 0
      && (!s.blocks.Cached(b) ==> b !in s.hist.leaked && (TableOf(s.objs, u)[j] == b ==> u == t && i == j))
  {
    TicketKnown(c, s, out, t);
    TicketKnown(c, s, out, u);
    hide Places, Accounted, Sound;
    TableBlock(c, s, multiset{}, t, i);
    assert TableOf(s.objs, u)[j] in TableOf(s.objs, u);
  }
}
