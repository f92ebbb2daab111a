/**
 Runs in which nothing is misfiled. If every active sequence was admitted without a replay and every chunk issued
 ends its prompt, every block is filed under what it holds, so that every hit is right; and a single sequence
 of that kind misfiles nothing, whatever the others do.
 */
module CleanRuns {
  import opened Types
  import opened Hashing
  import opened State
  import opened Scheduling
  import opened SchedulerLoops
  import opened Invariant
  import opened SequenceLemmas
  import opened RetireLemmas
  import opened StepLemmas
  import opened Protocol
  import opened Engine
  import opened CalmLemmas
  import opened Marks
  import opened EngineInvariant
  import opened Faithful
  import opened PactLemmas
  import opened TruthLemmas
  import opened PactRetire
  import opened SystemInvariant
  import opened RetireTheorems
  import opened FilingTheorems
  import opened OnwardLemmas

  // ---------------------------------------------------------------- what retiring leaves alone

  /** The item ends the prompt of its request, or is a decode step. */
  predicate Ends(r: Request, x: WorkItem) {
    x.PrefillChunk? ==> x.context + |x.tokens| >= |r.prompt|
  }

  /** Sequences and prompts stay, and so do the gaps, except that of a sequence whose chunk does not end its prompt. */
  ghost predicate Settles(s: Sched, s': Sched, x: WorkItem) {
    && s'.hist.starts == s.hist.starts && s'.hist.touched == s.hist.touched
    && forall t :: Going(s', t) ==>
         && Going(s, t)
         && var q, q' := s.objs[t].sched.value, s'.objs[t].sched.value;
            && q'.seqId == q.seqId && s'.objs[t].prompt == s.objs[t].prompt
            && (Gap(s'.hist, q') == Gap(s.hist, q) || (q.seqId == x.seqId && !Ends(s.objs[t], x)))
  }

  lemma CalmSettles(s: Sched, s': Sched, x: WorkItem)
    requires Calm(s, s')
    ensures Settles(s, s', x) && s'.hist.tainted == s.hist.tainted
  {
  }

  lemma OthersSettle(s: Sched, s': Sched, t: Ticket, x: WorkItem)
    requires t in s'.objs && s'.objs == s.objs[t := s'.objs[t]] && HistGrows(s.hist, s'.hist, x.seqId)
    requires Going(s, t) && s.objs[t].sched.value.seqId == x.seqId
    requires forall u :: Going(s, u) && u != t ==> s.objs[u].sched.value.seqId != x.seqId
    requires s'.objs[t].sched.Some? && s'.objs[t].prompt == s.objs[t].prompt
    requires var q, q' := s.objs[t].sched.value, s'.objs[t].sched.value;
      q'.seqId == q.seqId && (Ends(s.objs[t], x) ==> Gap(s'.hist, q') == Gap(s.hist, q))
    ensures Settles(s, s', x)
  {
    forall u | Going(s', u)
      ensures Going(s, u)
      ensures var q, q' := s.objs[u].sched.value, s'.objs[u].sched.value;
        && q'.seqId == q.seqId && s'.objs[u].prompt == s.objs[u].prompt
        && (Gap(s'.hist, q') == Gap(s.hist, q) || (q.seqId == x.seqId && !Ends(s.objs[u], x)))
    {
      if u != t { assert s'.objs[u] == s.objs[u]; }
    }
  }

  /** Hashing what an item wrote moves the record with the frontier. */
  lemma GapHashed(c: Config, s: Sched, r: Request, q: Sequence, q1: Sequence, x: WorkItem)
    requires c.blockSize > 0 && Rooted(c, s.hist, q) && (KvCount(x) > 0 ==> |WrittenTokens(r, x)| == KvCount(x))
    requires q1.seqId == q.seqId && q1.pending == q.pending && q1.parent == q.parent
    requires q1.frontier == q.frontier + KvCount(x) && |s.hist.chain[q.seqId]| + |q.pending| <= q.frontier
    ensures var p := HashWritten(c, s, r, q1, x);
      && HistGrows(s.hist, p.s.hist, q.seqId) && Gap(p.s.hist, p.q.(phase := Decode)) == Gap(s.hist, q)
      && p.q.seqId == q.seqId
  {
    hide HashWritten, Chain, Aligned, WrittenTokens;
    HashKept(c, s, r, q, q1, x);
    HashPhase(c, s, r, q1, x);
    var p := HashWritten(c, s, r, q1, x);
    assert |Trail(p.s.hist, p.q)| == |Trail(s.hist, q)| + KvCount(x);
  }

  lemma SettlesToken(c: Config, s: Sched, x: WorkItem, rest: seq<WorkItem>, t: Ticket, w: Worker, result: ItemResult,
          ms: seq<Mark>)
    requires Steady(c, s, [x] + rest) && Retiring(s, x, t) && ResultOk(x, result)
    requires Pact(c, s, w, [Mark(x, VerdictOf(result))] + ms) && Ends(s.objs[t], x)
    ensures Settles(s, RetireWork(c, s, x, result), x)
  {
    hide Steady, Pact, RetireWork, Live, HashWritten, RetireReservation, Advance, Chain, Aligned, Recorded, Stands,
        WrittenTokens, Settles, Gap, HistGrows;
    HeadSure(c, s, x, rest, t, w, result, ms);
    OnlyOwner(c, s, x, rest);
    var r := s.objs[t];
    var q := r.sched.value;
    HeadPosition(r, q, x, Of(rest, x.seqId));
    HeadTokens(r, q, x, Of(rest, x.seqId));
    TruthLemmas.WrittenCount(r, q, x, Of(rest, x.seqId));
    RetiredToken(c, s, x, rest, t, result);
    var r1 := RetireReservation(r, x);
    var q1 := Advance(r1, r1.sched.value, x);
    WrittenSame(r, r1, x);
    RecordedChain(s.hist.starts[q.seqId], r, q, s.hist.chain[q.seqId], s.hist.base[q.seqId]);
    GapHashed(c, Put(s, t, r1), r1, q, q1, x);
    OthersSettle(s, RetireWork(c, s, x, result), t, x);
  }

  lemma SettlesChunk(c: Config, s: Sched, x: WorkItem, rest: seq<WorkItem>, t: Ticket, w: Worker, result: ItemResult,
          ms: seq<Mark>)
    requires Steady(c, s, [x] + rest) && Retiring(s, x, t) && ResultOk(x, result)
    requires Pact(c, s, w, [Mark(x, VerdictOf(result))] + ms) && !Ends(s.objs[t], x)
    ensures Settles(s, RetireWork(c, s, x, result), x) && RetireWork(c, s, x, result).hist == s.hist
  {
    hide Steady, Pact, RetireWork, Live, Linked, Stands, Settles, Gap;
    HeadSure(c, s, x, rest, t, w, result, ms);
    OnlyOwner(c, s, x, rest);
    HeadTokens(s.objs[t], s.objs[t].sched.value, x, Of(rest, x.seqId));
    RetiredChunk(c, s, x, result, t, Of(rest, x.seqId));
    OthersSettle(s, RetireWork(c, s, x, result), t, x);
  }

  lemma SettlesIdle(c: Config, s: Sched, x: WorkItem, rest: seq<WorkItem>, t: Ticket, result: ItemResult)
    requires Steady(c, s, [x] + rest) && x.seqId in s.bySeq && t == s.bySeq[x.seqId] && result.seqId == x.seqId
    requires !Going(s, t) && t in s.objs && HasSeq(s, t, x.seqId)
    ensures Calm(s, RetireWork(c, s, x, result))
  {
    hide Steady, Calm, RetireActive;
    CalmRetired(s, t, x);
    RetireKeeps(s.objs[t], x);
  }

  lemma SettlesOne(c: Config, s: Sched, x: WorkItem, rest: seq<WorkItem>, w: Worker, result: ItemResult,
          ms: seq<Mark>)
    requires Steady(c, s, [x] + rest) && ResultOk(x, result) && Pact(c, s, w, [Mark(x, VerdictOf(result))] + ms)
    ensures Settles(s, RetireWork(c, s, x, result), x)
  {
    hide Steady, Pact, RetireWork, Settles, Calm;
    OnlyOwner(c, s, x, rest);
    var t := s.bySeq[x.seqId];
    if !Going(s, t) {
      SettlesIdle(c, s, x, rest, t, result);
      CalmSettles(s, RetireWork(c, s, x, result), x);
    } else if Ends(s.objs[t], x) {
      SettlesToken(c, s, x, rest, t, w, result, ms);
    } else {
      SettlesChunk(c, s, x, rest, t, w, result, ms);
    }
  }

  // ---------------------------------------------------------------- what a sequence without a gap files

  lemma StepClean(c: Config, s: Sched, q: Sequence, i: nat)
    requires 0 < c.blockSize <= |q.pending| && i < |q.table| && Rooted(c, s.hist, q)
    requires q.seqId !in s.hist.touched && |s.hist.chain[q.seqId]| == Cap(c, i)
    requires Trail(s.hist, q) <= Script(s, q.seqId)
    ensures PublishStep(c, s, q, i).s.hist.tainted <= s.hist.tainted
  {
    hide PublishStep, Chain, Aligned, Script;
    StepForm(c, s, q, i);
    var tokens := s.hist.chain[q.seqId] + q.pending[..c.blockSize];
    CapNext(c, i);
    assert tokens == Trail(s.hist, q)[..Cap(c, i + 1)];
    assert tokens == Script(s, q.seqId)[..Cap(c, i + 1)];
  }

  lemma {:induction false} PublishClean(c: Config, s: Sched, q: Sequence, i: nat)
    requires 0 < c.blockSize && Rooted(c, s.hist, q)
    requires q.seqId !in s.hist.touched && |s.hist.chain[q.seqId]| == Cap(c, i)
    requires Trail(s.hist, q) <= Script(s, q.seqId)
    ensures PublishPending(c, s, q, i).s.hist.tainted <= s.hist.tainted
    decreases |q.pending|
  {
    hide PublishPending, PublishStep, Chain, Aligned, Script, Trail;
    PublishNext(c, s, q, i);
    if c.blockSize <= |q.pending| && i < |q.table| {
      var p := PublishStep(c, s, q, i);
      StepClean(c, s, q, i);
      StepRooted(c, s, q, i);
      StepPhase(c, s, q, i);
      StepScript(c, s, q, i);
      CapNext(c, i);
      PublishClean(c, p.s, p.q, i + 1);
    }
  }

  lemma HashClean(c: Config, s: Sched, r: Request, q: Sequence, x: WorkItem, n: nat)
    requires 0 < c.blockSize && Rooted(c, s.hist, q) && q.seqId !in s.hist.touched && n == |s.hist.chain[q.seqId]|
    requires KvCount(x) > 0 ==> x.context == n + |q.pending|
    requires KvCount(x) > 0 ==> s.hist.chain[q.seqId] + (q.pending + WrittenTokens(r, x)) <= Script(s, q.seqId)
    ensures HashWritten(c, s, r, q, x).s.hist.tainted <= s.hist.tainted
  {
    hide PublishPending, Chain, WrittenTokens, Script;
    if KvCount(x) > 0 {
      var q2 := q.(pending := q.pending + WrittenTokens(r, x));
      PublishClean(c, s, q2, n / c.blockSize);
    }
  }

  /** An active sequence admitted without a replay and not over a misfiled block, without a gap. */
  ghost predicate Plain(s: Sched, t: Ticket) {
    && Pure(s, t)
    && var q := s.objs[t].sched.value;
       q.seqId in s.hist.starts && s.hist.starts[q.seqId].Cold? && Gap(s.hist, q) == 0
  }

  lemma ColdLine(st: Start, r: Request, n: nat)
    requires st.Cold? && n <= |Told(st, r)|
    ensures Line(st, r) == Told(st, r) && Spliced(Told(st, r), 0, 0, n) <= Line(st, r)
    ensures forall d: nat | d <= n :: Spliced(Told(st, r), d, 0, n) == Told(st, r)[..n]
  {
    hide Since;
    forall d: nat | d <= n ensures Spliced(Told(st, r), d, 0, n) == Told(st, r)[..n] {}
  }

  /** Retiring an item of such a sequence misfiles nothing. */
  lemma CleanToken(c: Config, s: Sched, x: WorkItem, rest: seq<WorkItem>, t: Ticket, w: Worker, result: ItemResult,
          ms: seq<Mark>)
    requires Steady(c, s, [x] + rest) && Retiring(s, x, t) && ResultOk(x, result)
    requires Pact(c, s, w, [Mark(x, VerdictOf(result))] + ms) && Ends(s.objs[t], x) && Plain(s, t)
    ensures RetireWork(c, s, x, result).hist.tainted <= s.hist.tainted
  {
    hide Steady, Pact, RetireWork, Live, HashWritten, RetireReservation, Advance, Chain, Aligned, Recorded, Stands,
        WrittenTokens, Script, Line, Told, Spliced;
    HeadSure(c, s, x, rest, t, w, result, ms);
    var r := s.objs[t];
    var q := r.sched.value;
    HeadPosition(r, q, x, Of(rest, x.seqId));
    HeadTokens(r, q, x, Of(rest, x.seqId));
    RetiredToken(c, s, x, rest, t, result);
    var r1 := RetireReservation(r, x);
    var q1 := Advance(r1, r1.sched.value, x);
    var s1 := Put(s, t, r1);
    WrittenSame(r, r1, x);
    ScriptAt(s1, t, q.seqId, r);
    var st, chain, d := s.hist.starts[q.seqId], s.hist.chain[q.seqId], s.hist.base[q.seqId];
    RecordedChain(st, r, q, chain, d);
    if KvCount(x) > 0 {
      TrailSpliced(st, r, q, chain, d, 0, x, Of(rest, x.seqId));
      ColdLine(st, r, q.frontier + KvCount(x));
    }
    HashClean(c, s1, r1, q1, x, |chain|);
  }

  lemma CleanOne(c: Config, s: Sched, x: WorkItem, rest: seq<WorkItem>, w: Worker, result: ItemResult, ms: seq<Mark>)
    requires Steady(c, s, [x] + rest) && ResultOk(x, result) && Pact(c, s, w, [Mark(x, VerdictOf(result))] + ms)
    requires forall t :: Going(s, t) && s.objs[t].sched.value.seqId == x.seqId && Ends(s.objs[t], x) ==> Plain(s, t)
    ensures RetireWork(c, s, x, result).hist.tainted <= s.hist.tainted
  {
    hide Steady, Pact, RetireWork, Calm, Plain;
    OnlyOwner(c, s, x, rest);
    var t := s.bySeq[x.seqId];
    if !Going(s, t) {
      SettlesIdle(c, s, x, rest, t, result);
      CalmSettles(s, RetireWork(c, s, x, result), x);
    } else if Ends(s.objs[t], x) {
      CleanToken(c, s, x, rest, t, w, result, ms);
    } else {
      SettlesChunk(c, s, x, rest, t, w, result, ms);
    }
  }

  // ---------------------------------------------------------------- a batch

  /** The chunks of a sequence among these items end their prompt. */
  ghost predicate Whole(s: Sched, items: seq<WorkItem>, q: SeqId) {
    forall x, t :: x in items && x.seqId == q && Going(s, t) && s.objs[t].sched.value.seqId == q ==> Ends(s.objs[t], x)
  }

  ghost predicate NoGap(s: Sched, q: SeqId) {
    forall t :: Going(s, t) && s.objs[t].sched.value.seqId == q ==> Gap(s.hist, s.objs[t].sched.value) == 0
  }

  lemma GapSettles(s: Sched, s': Sched, x: WorkItem, rest: seq<WorkItem>, q: SeqId)
    requires Settles(s, s', x) && NoGap(s, q) && Whole(s, [x] + rest, q)
    ensures NoGap(s', q) && Whole(s', rest, q)
  {
    hide Gap, Ends;
    assert x in [x] + rest;
    forall t | Going(s', t) && s'.objs[t].sched.value.seqId == q ensures Gap(s'.hist, s'.objs[t].sched.value) == 0 {
      assert Going(s, t);
    }
    forall y, t | y in rest && y.seqId == q && Going(s', t) && s'.objs[t].sched.value.seqId == q
      ensures Ends(s'.objs[t], y)
    {
      assert y in [x] + rest && Going(s, t);
      SamePromptEnds(s.objs[t], s'.objs[t], y);
    }
  }

  lemma SamePromptEnds(r: Request, r': Request, x: WorkItem)
    requires r'.prompt == r.prompt
    ensures Ends(r', x) == Ends(r, x)
  {
  }

  lemma {:induction false} GapMidway(c: Config, s: Sched, w: Worker, items: seq<WorkItem>, results: seq<ItemResult>,
          rest: seq<WorkItem>, ms: seq<Mark>, k: nat, q: SeqId)
    requires |results| == |items| && k <= |items| && MidwayOk(c, s, w, items, results, rest, ms)
    requires forall i | 0 <= i < |items| :: ResultOk(items[i], results[i])
    requires NoGap(s, q) && Whole(s, items + rest, q)
    ensures var s' := RetireAll(c, s, items[..k], results[..k]); NoGap(s', q) && Whole(s', items[k..] + rest, q)
    decreases k
  {
    hide RetireWork, ResultOk, NoGap, Whole, Steady, Tidy, Pact, AllBindable, Settles;
    if k == 0 {
      assert items[..0] == [] && results[..0] == [] && items[0..] == items;
    } else {
      var s1 := RetireWork(c, s, items[0], results[0]);
      var later := ZipMarks(items[1..], results[1..]);
      assert items + rest == [items[0]] + (items[1..] + rest);
      assert ZipMarks(items, results) + ms == [Mark(items[0], VerdictOf(results[0]))] + (later + ms);
      SettlesOne(c, s, items[0], items[1..] + rest, w, results[0], later + ms);
      GapSettles(s, s1, items[0], items[1..] + rest, q);
      MidwayNext(c, s, w, items, results, rest, ms);
      GapMidway(c, s1, w, items[1..], results[1..], rest, ms, k - 1, q);
      assert items[..k][1..] == items[1..][..k - 1] && results[..k][1..] == results[1..][..k - 1];
      assert items[1..][k - 1..] == items[k..];
    }
  }

  // ---------------------------------------------------------------- steps

  /** Where the batch a step retires leads. */
  ghost predicate Retires(c: Config, y: Sys, y': Sys) {
    y.current.Some? && y.current.value.outcome.Some? && Onward(Retired(c, y.s, y.current.value), y'.s)
  }

  lemma OnwardSame(s: Sched, s': Sched)
    requires s'.objs == s.objs && s'.blocks == s.blocks && s'.hist == s.hist && s'.nextSeq == s.nextSeq
    ensures Onward(s, s')
  {
    CalmSame(s, s');
    CalmOnward(s, s');
  }

  lemma OnwardFill(c: Config, y: Sys, raises: seq<Raise>)
    requires SysInv(c, y)
    ensures Onward(y.s, FillStep(c, y, raises).s)
  {
    hide SysInv, Core, ScheduleStep, FailBatch, CleanupTerminal, Onward, Calm;
    var g := ScheduleStep(c, y.s, raises);
    InvSteady(c, y);
    OnwardSchedule(c, y.s, y.Out(), raises);
    OnwardSame(y.s, y.s);
    var s1 := FailBatch(g.s, g.items, ServerShuttingDown);
    CalmFailBatch(g.s, g.items, ServerShuttingDown);
    CalmCleanupTerminal(s1);
    CalmTrans(g.s, s1, CleanupTerminal(s1));
    CalmOnward(g.s, CleanupTerminal(s1));
    OnwardTrans(y.s, g.s, CleanupTerminal(s1));
  }

  lemma InvSteady(c: Config, y: Sys)
    requires SysInv(c, y)
    ensures Steady(c, y.s, y.Out())
  {
    hide Core, Tidy, Flying, Paced, Orderly, Pact, AllBindable;
  }

  lemma OnwardCheck(c: Config, y: Sys)
    ensures Onward(y.s, CheckStep(c, y).s)
  {
    hide CleanupTerminal, Preempt, HasSchedulableWork, Onward, Calm;
    OnwardSame(y.s, y.s);
    var s := CleanupTerminal(y.s);
    CalmCleanupTerminal(y.s);
    CalmOnward(y.s, s);
    CalmPreempt(s);
    CalmTrans(y.s, s, Preempt(s));
    CalmOnward(y.s, Preempt(s));
  }

  lemma OnwardEngine(c: Config, y: Sys, raises: seq<Raise>)
    requires SysInv(c, y)
    ensures var y' := EngineStep(c, y, raises); Onward(y.s, y'.s) || Retires(c, y, y')
  {
    hide SysInv, FillStep, CheckStep, CleanupTerminal, Retired, FailAllWaiting, CleanupAllRunning, Onward, Calm;
    OnwardSame(y.s, y.s);
    match y.pc
    case Top =>
      CalmFailAllWaiting(y.s, ServerShuttingDown);
      CalmOnward(y.s, FailAllWaiting(y.s, ServerShuttingDown));
    case Fill => OnwardFill(c, y, raises);
    case Check => OnwardCheck(c, y);
    case Collect =>
      if y.current.Some? && y.current.value.outcome.Some? {
        var s := Retired(c, y.s, y.current.value);
        CalmCleanupTerminal(s);
        CalmOnward(s, CleanupTerminal(s));
      }
    case Drain => OnwardEnd(y.s);
    case DrainCollect =>
      if y.current.Some? && y.current.value.outcome.Some? {
        OnwardSame(Retired(c, y.s, y.current.value), Retired(c, y.s, y.current.value));
      }
    case _ =>
  }

  lemma OnwardEnd(s: Sched)
    ensures Onward(s, CleanupAllRunning(s, ServerShuttingDown))
  {
    hide TerminateAll, Calm, Onward;
    CalmTerminateAll(s, s.running, ServerShuttingDown);
    CalmOnward(s, CleanupAllRunning(s, ServerShuttingDown));
  }

  lemma OnwardNext(c: Config, y: Sys, step: Step)
    requires SysInv(c, y)
    ensures var y' := Next(c, y, step); Onward(y.s, y'.s) || Retires(c, y, y')
  {
    hide SysInv, EngineStep, WorkerStep, FailAllWaiting, Submit, Cancel, Hangup, Onward, Calm, Retires;
    OnwardSame(y.s, y.s);
    match step
    case Start => OnwardSame(y.s, y.s.(accepting := true));
    case SubmitRequest(id, prompt, maxTokens, maxContext, open) =>
      CalmSubmit(c, y.s, id, prompt, maxTokens, maxContext, open);
      CalmOnward(y.s, Submit(c, y.s, id, prompt, maxTokens, maxContext, open));
    case CancelRequest(id) =>
      CalmCancel(y.s, id);
      CalmOnward(y.s, Cancel(y.s, id));
    case HangUp(t) =>
      CalmHangup(y.s, t);
      CalmOnward(y.s, Hangup(y.s, t));
    case RaiseShutdown => OnwardSame(y.s, y.s.(accepting := false));
    case ShutdownTask =>
      CalmFailAllWaiting(y.s, ServerShuttingDown);
      CalmOnward(y.s, FailAllWaiting(y.s, ServerShuttingDown));
    case RunEngine(raises) => OnwardEngine(c, y, raises);
    case HaltWorker =>
    case RunWorker(picks, broken, code, junk) => WorkerAloft(c, y, picks, broken, code, junk);
  }

  // ---------------------------------------------------------------- one sequence, on every run

  /** So far every chunk of the sequence ended its prompt. */
  ghost predicate WholeRun(c: Config, steps: seq<Step>, q: SeqId) {
    forall k: nat | k <= |steps| :: Whole(Run(c, steps[..k]).s, Run(c, steps[..k]).Out(), q)
  }

  lemma WholeBefore(c: Config, steps: seq<Step>, q: SeqId)
    requires steps != [] && WholeRun(c, steps, q)
    ensures WholeRun(c, steps[..|steps| - 1], q)
    ensures Whole(Run(c, steps[..|steps| - 1]).s, Run(c, steps[..|steps| - 1]).Out(), q)
  {
    hide Run, Whole;
    var before := steps[..|steps| - 1];
    forall k: nat | k <= |before| ensures Whole(Run(c, before[..k]).s, Run(c, before[..k]).Out(), q) {
      assert before[..k] == steps[..k];
    }
    assert before[..|before|] == before;
  }

  lemma OnwardNoGap(s: Sched, s': Sched, q: SeqId)
    requires Onward(s, s') && NoGap(s, q)
    ensures NoGap(s', q)
  {
    hide Gap;
  }

  lemma SettlesCalm(s: Sched, s': Sched, q: SeqId)
    requires Calm(s, s') && NoGap(s, q)
    ensures NoGap(s', q)
  {
    CalmOnward(s, s');
    hide Calm;
    OnwardNoGap(s, s', q);
  }

  /** The awaited batch of a run, when its answer is there. */
  lemma RunArrived(c: Config, steps: seq<Step>)
    requires c.Valid()
    ensures var y := Run(c, steps);
      y.current.Some? && y.current.value.outcome.Some? && y.current.value.outcome.value.Done? ==>
        && Arrived(y) && Retired(c, y.s, y.current.value) == Midway(c, y, |y.current.value.items|)
        && y.Out() == y.current.value.items + ItemsOf(y.flights)
  {
    hide Run, Steady, Tidy, Pact, AllBindable, Paced, Orderly, MarksOf, ItemsOf, EngineInvariant.InOrder, RetireAll;
    RunOk(c, steps);
    var y := Run(c, steps);
    if y.current.Some? && y.current.value.outcome.Some? && y.current.value.outcome.value.Done? {
      var f := y.current.value;
      assert y.Aloft() == [f] + y.flights && f in y.Aloft();
      SplitOff(f, y.flights);
      assert f.items[..|f.items|] == f.items && f.outcome.value.results[..|f.items|] == f.outcome.value.results;
    }
  }

  lemma GapRetired(c: Config, steps: seq<Step>, q: SeqId)
    requires c.Valid() && NoGap(Run(c, steps).s, q) && Whole(Run(c, steps).s, Run(c, steps).Out(), q)
    requires Run(c, steps).current.Some? && Run(c, steps).current.value.outcome.Some?
    ensures NoGap(Retired(c, Run(c, steps).s, Run(c, steps).current.value), q)
  {
    hide Run, NoGap, Whole, RetireAll, FailBatch, Midway, Arrived, Calm;
    RunArrived(c, steps);
    var y := Run(c, steps);
    match y.current.value.outcome.value
    case Done(_) => RunGapMidway(c, steps, |y.current.value.items|, q);
    case Broken(code) =>
      CalmFailBatch(y.s, y.current.value.items, code);
      SettlesCalm(y.s, FailBatch(y.s, y.current.value.items, code), q);
  }

  lemma RunGapMidway(c: Config, steps: seq<Step>, k: nat, q: SeqId)
    requires c.Valid() && Arrived(Run(c, steps)) && k <= |Run(c, steps).current.value.items|
    requires NoGap(Run(c, steps).s, q) && Whole(Run(c, steps).s, Run(c, steps).Out(), q)
    ensures var y := Run(c, steps); var f := y.current.value;
      NoGap(Midway(c, y, k), q) && Whole(Midway(c, y, k), f.items[k..] + ItemsOf(y.flights), q)
  {
    hide Run, NoGap, Whole, RetireAll, ItemsOf, MarksOf, MidwayOk, ResultOk;
    RunArrived(c, steps);
    RunMidway(c, steps, 0);
    var y := Run(c, steps);
    var f := y.current.value;
    MidwayNone(c, y);
    assert f.items[0..] == f.items && f.outcome.value.results[0..] == f.outcome.value.results;
    GapMidway(c, y.s, y.w, f.items, f.outcome.value.results, ItemsOf(y.flights), MarksOf(y.flights), k, q);
  }

  lemma MidwayNone(c: Config, y: Sys)
    requires Arrived(y)
    ensures Midway(c, y, 0) == y.s
  {
  }

  /** A sequence all of whose chunks ended its prompt never has a gap. */
  lemma {:induction false} GapRun(c: Config, steps: seq<Step>, q: SeqId)
    requires c.Valid() && WholeRun(c, steps, q)
    ensures NoGap(Run(c, steps).s, q)
    decreases |steps|
  {
    hide SysInv, Next, NoGap, Whole, WholeRun, Onward, Retired;
    if steps == [] {
      BootGap(c, q);
    } else {
      var before, step := steps[..|steps| - 1], steps[|steps| - 1];
      WholeBefore(c, steps, q);
      GapRun(c, before, q);
      var y := Run(c, before);
      hide Run;
      RunOk(c, before);
      OnwardNext(c, y, step);
      var y' := Next(c, y, step);
      if Onward(y.s, y'.s) {
        OnwardNoGap(y.s, y'.s, q);
      } else {
        GapRetired(c, before, q);
        OnwardNoGap(Retired(c, y.s, y.current.value), y'.s, q);
      }
    }
  }

  lemma BootGap(c: Config, q: SeqId)
    ensures NoGap(Run(c, []).s, q)
  {
  }

  /** On every run: an active sequence admitted without a replay and not over a misfiled block, all of whose
      chunks ended its prompt, misfiles nothing when its items are retired. */
  lemma SequenceClean(c: Config, steps: seq<Step>, k: nat, t: Ticket)
    requires c.Valid() && Arrived(Run(c, steps)) && k < |Run(c, steps).current.value.items|
    requires var s := Midway(c, Run(c, steps), k); var x := Run(c, steps).current.value.items[k];
      && Retiring(s, x, t) && Pure(s, t) && WholeRun(c, steps, x.seqId)
      && x.seqId in s.hist.starts && s.hist.starts[x.seqId].Cold?
    ensures var y := Run(c, steps); Midway(c, y, k + 1).hist.tainted <= Midway(c, y, k).hist.tainted
  {
    hide Run, Midway, NoGap, Whole, WholeRun, Steady, Pact, RetireWork, ItemsOf, MarksOf, ResultOk, Gap;
    var y := Run(c, steps);
    var f := y.current.value;
    var s, x := Midway(c, y, k), f.items[k];
    WholeNow(c, steps, x.seqId);
    GapRun(c, steps, x.seqId);
    RunGapMidway(c, steps, k, x.seqId);
    MidwayHead(c, steps, k, t);
    MidwayStep(c, y, k);
    var rest := f.items[k + 1..] + ItemsOf(y.flights);
    assert f.items[k..] + ItemsOf(y.flights) == [x] + rest;
    NoGapAt(s, x.seqId, t);
    WholeAt(s, [x] + rest, x, t);
    CleanToken(c, s, x, rest, t, y.w, f.outcome.value.results[k],
               ZipMarks(f.items[k + 1..], f.outcome.value.results[k + 1..]) + MarksOf(y.flights));
  }

  lemma NoGapAt(s: Sched, q: SeqId, t: Ticket)
    requires NoGap(s, q) && Going(s, t) && s.objs[t].sched.value.seqId == q
    ensures Gap(s.hist, s.objs[t].sched.value) == 0
  {
  }

  lemma WholeAt(s: Sched, items: seq<WorkItem>, x: WorkItem, t: Ticket)
    requires Whole(s, items, x.seqId) && x in items && Going(s, t) && s.objs[t].sched.value.seqId == x.seqId
    ensures Ends(s.objs[t], x)
  {
  }

  lemma WholeNow(c: Config, steps: seq<Step>, q: SeqId)
    requires WholeRun(c, steps, q)
    ensures Whole(Run(c, steps).s, Run(c, steps).Out(), q)
  {
    hide Run, Whole;
    assert steps[..|steps|] == steps;
  }
}
