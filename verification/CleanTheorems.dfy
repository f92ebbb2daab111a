/**
 The prefix cache is right on every run in which no request was readmitted with generated tokens onto a cached
 prompt and no prompt was computed in more than one chunk.
 */
module CleanTheorems {
  import opened Types
  import opened State
  import opened Scheduling
  import opened RetireLemmas
  import opened StepLemmas
  import opened Protocol
  import opened Engine
  import opened CalmLemmas
  import opened Marks
  import opened Faithful
  import opened PactLemmas
  import opened ExecuteLemmas
  import opened SystemInvariant
  import opened TokenTheorems
  import opened RetireTheorems
  import opened OnwardLemmas
  import opened CleanRuns

  /** Every active sequence was admitted without a replay. */
  ghost predicate ColdOnly(s: Sched) {
    forall t :: Going(s, t) ==>
      s.objs[t].sched.value.seqId in s.hist.starts && s.hist.starts[s.objs[t].sched.value.seqId].Cold?
  }

  /** Every chunk in flight ends the prompt of its request. */
  ghost predicate AllWhole(y: Sys) {
    forall q: SeqId :: Whole(y.s, y.Out(), q)
  }

  /** So far no request was readmitted onto a part of its prompt, and every chunk issued ended its prompt. */
  ghost predicate CleanRun(c: Config, steps: seq<Step>) {
    forall k: nat | k <= |steps| :: ColdOnly(Run(c, steps[..k]).s) && AllWhole(Run(c, steps[..k]))
  }

  lemma CleanBefore(c: Config, steps: seq<Step>)
    requires steps != [] && CleanRun(c, steps)
    ensures CleanRun(c, steps[..|steps| - 1])
  {
    hide Run, ColdOnly, AllWhole;
    var before := steps[..|steps| - 1];
    forall k: nat | k <= |before| ensures ColdOnly(Run(c, before[..k]).s) && AllWhole(Run(c, before[..k])) {
      assert before[..k] == steps[..k];
    }
  }

  lemma CleanNow(c: Config, steps: seq<Step>, q: SeqId)
    requires CleanRun(c, steps)
    ensures ColdOnly(Run(c, steps).s) && WholeRun(c, steps, q)
    ensures Whole(Run(c, steps).s, Run(c, steps).Out(), q)
  {
    hide Run, ColdOnly, Whole;
    assert steps[..|steps|] == steps;
    forall k: nat | k <= |steps| ensures Whole(Run(c, steps[..k]).s, Run(c, steps[..k]).Out(), q) {
      assert AllWhole(Run(c, steps[..k]));
    }
  }

  /** Nothing was misfiled, nobody was admitted over a misfiled block, and nothing active is a replay. */
  ghost predicate Spotless(s: Sched) {
    s.hist.tainted == {} && s.hist.touched == {} && ColdOnly(s)
  }

  lemma ColdSettles(s: Sched, s': Sched, x: WorkItem)
    requires Settles(s, s', x) && ColdOnly(s)
    ensures ColdOnly(s')
  {
    hide Gap, Ends;
    forall t | Going(s', t)
      ensures s'.objs[t].sched.value.seqId in s'.hist.starts && s'.hist.starts[s'.objs[t].sched.value.seqId].Cold?
    {
      assert Going(s, t);
    }
  }

  /** The state in which item k of the awaited batch is retired, whether its request is active or not. */
  lemma MidwayParts(c: Config, steps: seq<Step>, k: nat)
    requires c.Valid() && Arrived(Run(c, steps)) && k < |Run(c, steps).current.value.items|
    ensures var y := Run(c, steps); var f := y.current.value; var x, result := f.items[k], f.outcome.value.results[k];
      var ms := ZipMarks(f.items[k + 1..], f.outcome.value.results[k + 1..]) + MarksOf(y.flights);
      && Steady(c, Midway(c, y, k), [x] + (f.items[k + 1..] + ItemsOf(y.flights))) && ResultOk(x, result)
      && Pact(c, Midway(c, y, k), y.w, [Mark(x, VerdictOf(result))] + ms)
  {
    hide Run, Steady, Tidy, Pact, AllBindable, Midway, ItemsOf, MarksOf, ResultOk, VerdictOf;
    RunMidway(c, steps, k);
    var y := Run(c, steps);
    var f := y.current.value;
    var x, result := f.items[k], f.outcome.value.results[k];
    var items, results := f.items[k..], f.outcome.value.results[k..];
    assert items + ItemsOf(y.flights) == [x] + (f.items[k + 1..] + ItemsOf(y.flights));
    ZipCons(x, result, items, results);
    assert items[1..] == f.items[k + 1..] && results[1..] == f.outcome.value.results[k + 1..];
    Regroup(Mark(x, VerdictOf(result)), ZipMarks(f.items[k + 1..], f.outcome.value.results[k + 1..]),
            MarksOf(y.flights));
  }

  lemma Regroup(m: Mark, a: seq<Mark>, b: seq<Mark>)
    ensures [m] + a + b == [m] + (a + b)
  {
  }

  lemma {:induction false} SpotlessMidway(c: Config, steps: seq<Step>, k: nat)
    requires c.Valid() && CleanRun(c, steps) && Spotless(Run(c, steps).s)
    requires Arrived(Run(c, steps)) && k <= |Run(c, steps).current.value.items|
    ensures Spotless(Midway(c, Run(c, steps), k))
  {
    hide Run, Midway, CleanRun, ColdOnly, Whole, NoGap, Settles, Steady, Pact, RetireWork, ItemsOf, MarksOf, ResultOk,
        Gap, Ends, WholeRun;
    var y := Run(c, steps);
    if k == 0 {
      MidwayNone(c, y);
    } else {
      SpotlessMidway(c, steps, k - 1);
      MidwayStep(c, y, k - 1);
      MidwayParts(c, steps, k - 1);
      var f := y.current.value;
      var s, x, result := Midway(c, y, k - 1), f.items[k - 1], f.outcome.value.results[k - 1];
      var rest := f.items[k..] + ItemsOf(y.flights);
      var ms := ZipMarks(f.items[k..], f.outcome.value.results[k..]) + MarksOf(y.flights);
      SettlesOne(c, s, x, rest, y.w, result, ms);
      ColdSettles(s, RetireWork(c, s, x, result), x);
      SettlesTouched(s, RetireWork(c, s, x, result), x);
      CleanNow(c, steps, x.seqId);
      GapRun(c, steps, x.seqId);
      RunGapMidway(c, steps, k - 1, x.seqId);
      forall t | Going(s, t) && s.objs[t].sched.value.seqId == x.seqId && Ends(s.objs[t], x) ensures Plain(s, t) {
        NoGapAt(s, x.seqId, t);
        ColdAt(s, t);
      }
      CleanOne(c, s, x, rest, y.w, result, ms);
    }
  }

  lemma SettlesTouched(s: Sched, s': Sched, x: WorkItem)
    requires Settles(s, s', x)
    ensures s'.hist.touched == s.hist.touched
  {
  }

  lemma ColdAt(s: Sched, t: Ticket)
    requires ColdOnly(s) && Going(s, t)
    ensures s.objs[t].sched.value.seqId in s.hist.starts && s.hist.starts[s.objs[t].sched.value.seqId].Cold?
  {
  }

  lemma SpotlessRetired(c: Config, steps: seq<Step>)
    requires c.Valid() && CleanRun(c, steps) && Spotless(Run(c, steps).s)
    requires Run(c, steps).current.Some? && Run(c, steps).current.value.outcome.Some?
    ensures var s := Retired(c, Run(c, steps).s, Run(c, steps).current.value); s.hist.tainted == {} == s.hist.touched
  {
    hide Run, CleanRun, ColdOnly, RetireAll, FailBatch, Midway, Arrived;
    RunArrived(c, steps);
    var y := Run(c, steps);
    match y.current.value.outcome.value
    case Done(_) => SpotlessMidway(c, steps, |y.current.value.items|);
    case Broken(code) => CalmFailBatch(y.s, y.current.value.items, code);
  }

  lemma OnwardSpotless(s: Sched, s': Sched)
    requires Onward(s, s') && s.hist.tainted == {} == s.hist.touched
    ensures s'.hist.tainted == {} == s'.hist.touched
  {
  }

  /** If so far no request was readmitted onto a part of its prompt and every chunk ended its prompt, no block was
      filed under tokens it does not hold, and no sequence was admitted over such a block. */
  lemma {:induction false} NothingMisfiled(c: Config, steps: seq<Step>)
    requires c.Valid() && CleanRun(c, steps)
    ensures Run(c, steps).s.hist.tainted == {} == Run(c, steps).s.hist.touched
    decreases |steps|
  {
    hide SysInv, Next, Onward, Retired, CleanRun, ColdOnly;
    if steps != [] {
      var before, step := steps[..|steps| - 1], steps[|steps| - 1];
      CleanBefore(c, steps);
      NothingMisfiled(c, before);
      var y, y' := Run(c, before), Run(c, steps);
      hide Run;
      CleanNow(c, before, 0);
      RunOk(c, before);
      OnwardNext(c, y, step);
      if Onward(y.s, y'.s) {
        OnwardSpotless(y.s, y'.s);
      } else {
        SpotlessRetired(c, before);
        OnwardSpotless(Retired(c, y.s, y.current.value), y'.s);
      }
    }
  }

  /** On such a run, without hash collisions, every block a lookup returns holds the KV of exactly the looked-up
      prompt's tokens. */
  lemma CleanHit(c: Config, steps: seq<Step>, prompt: seq<Token>, p: nat)
    requires c.Valid() && CleanRun(c, steps) && Injective(c, Looked(c, Run(c, steps).s, prompt).hist.hashed)
    requires p < Cap(c, |HitTable(c, Run(c, steps).s, prompt)|)
    ensures var y := Run(c, steps); var hit := HitTable(c, y.s, prompt);
      p < |prompt| && Read(y.w.mem, Slot(c, hit, p)) == Canon(prompt, p)
  {
    hide Run, CleanRun, HitTable, Looked, Injective, Slot;
    NothingMisfiled(c, steps);
    BlockIndex(c, p, |HitTable(c, Run(c, steps).s, prompt)|);
    PrefixHit(c, steps, prompt, p);
  }

  /** And every executed position of every active request holds the KV of its own tokens. */
  lemma CleanKv(c: Config, steps: seq<Step>, t: Ticket, p: nat)
    requires c.Valid() && CleanRun(c, steps) && Injective(c, Run(c, steps).s.hist.hashed) && Going(Run(c, steps).s, t)
    requires p < Run(c, steps).s.objs[t].sched.value.frontier
    ensures var y := Run(c, steps); var r := y.s.objs[t]; var q := r.sched.value;
      var own := r.prompt + Made(y.w, q.seqId);
      p < |own| && Read(y.w.mem, Slot(c, q.table, p)) == Canon(own, p)
  {
    hide Run, CleanRun, Injective, Slot, FedTo, Made;
    NothingMisfiled(c, steps);
    CleanNow(c, steps, 0);
    KvFaithful(c, steps, t, p);
    var y := Run(c, steps);
    var r := y.s.objs[t];
    var q := r.sched.value;
    var stream, own := Stream(r, y.w, q.seqId), r.prompt + Made(y.w, q.seqId);
    ColdAt(y.s, t);
    assert stream[..p + 1] == own[..p + 1];
    CanonPrefix(stream, own, p);
  }
}
