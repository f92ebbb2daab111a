/** Rounds of the engine in a run with one batch in flight at a time, for the example runs. */
module RunSteps {
  import opened Types
  import opened State
  import opened Scheduling
  import opened Engine

  /** Before shutdown. */
  function Moment(s: Sched, flights: seq<Flight>, current: Option<Flight>, w: Worker, pc: Pc): Sys {
    Sys(s, flights, current, w, pc, false, false, false, false, 0)
  }

  const ROUND := RunEngine([])

  function Idle(): Worker {
    Worker(map[], {}, map[], false, map[], map[])
  }

  function Execute(picks: seq<Pick>): Step {
    RunWorker(picks, false, InternalError, map[])
  }

  lemma Alone<T>(x: T)
    ensures [] + [x] == [x] && [x][1..] == []
  {
  }

  lemma RunStep(c: Config, steps: seq<Step>, step: Step)
    ensures Run(c, steps + [step]) == Next(c, Run(c, steps), step)
  {
    hide Next;
    assert (steps + [step])[..|steps|] == steps;
  }

  /** The steps of a batch: built, the window is full, awaited, executed, retired. */
  function Batch(picks: seq<Pick>): seq<Step> {
    [ROUND] + [ROUND] + [ROUND] + [Execute(picks)] + [ROUND]
  }

  lemma BatchSteps(c: Config, steps: seq<Step>, picks: seq<Pick>)
    ensures var y := Run(c, steps); var y3 := Next(c, Next(c, Next(c, y, ROUND), ROUND), ROUND);
      Run(c, steps + Batch(picks)) == Next(c, Next(c, y3, Execute(picks)), ROUND)
  {
    hide Run, Next;
    RunStep(c, steps, ROUND);
    RunStep(c, steps + [ROUND], ROUND);
    RunStep(c, steps + [ROUND] + [ROUND], ROUND);
    RunStep(c, steps + [ROUND] + [ROUND] + [ROUND], Execute(picks));
    RunStep(c, steps + [ROUND] + [ROUND] + [ROUND] + [Execute(picks)], ROUND);
    assert steps + [ROUND] + [ROUND] + [ROUND] + [Execute(picks)] + [ROUND] == steps + Batch(picks);
  }

  /** A batch is dispatched and awaited. */
  lemma Dispatches(c: Config, s: Sched, g: Stage, w: Worker)
    requires c.maxConcurrent == 1 && ScheduleStep(c, s, []) == g && g.items != [] && g.s.accepting == s.accepting
        && !w.halted
    ensures Next(c, Next(c, Next(c, Moment(s, [], None, w, Fill), ROUND), ROUND), ROUND)
         == Moment(g.s, [], Some(Flight(g.items, None)), w, Collect)
  {
    hide ScheduleStep;
    var f := Flight(g.items, None);
    Alone(f);
    assert Next(c, Moment(s, [], None, w, Fill), ROUND) == Moment(g.s, [f], None, w, Fill);
    assert Next(c, Moment(g.s, [f], None, w, Fill), ROUND) == Moment(g.s, [f], None, w, Check);
    assert Next(c, Moment(g.s, [f], None, w, Check), ROUND) == Moment(g.s, [], Some(f), w, Collect);
  }

  lemma WorkerRuns(c: Config, s: Sched, items: seq<WorkItem>, w: Worker, picks: seq<Pick>, e: ExecutedAll)
    requires ExecuteItems(c, w, items, 0, picks) == e && !w.halted
    ensures Next(c, Moment(s, [], Some(Flight(items, None)), w, Collect), Execute(picks))
         == Moment(s, [], Some(Flight(items, Some(Done(e.results)))), e.w, Collect)
  {
    hide ExecuteItems, Barred;
  }

  /** One batch, from the moment it is built until its results are retired. */
  lemma BatchRuns(c: Config, steps: seq<Step>, s: Sched, g: Stage, w: Worker, picks: seq<Pick>, e: ExecutedAll,
          s': Sched)
    requires Run(c, steps) == Moment(s, [], None, w, Fill) && c.maxConcurrent == 1 && !w.halted
    requires ScheduleStep(c, s, []) == g && g.items != [] && g.s.accepting == s.accepting
    requires ExecuteItems(c, w, g.items, 0, picks) == e
    requires CleanupTerminal(RetireAll(c, g.s, g.items, e.results)) == s'
    ensures Run(c, steps + Batch(picks)) == Moment(s', [], None, e.w, Top)
  {
    hide Run, ScheduleStep, ExecuteItems, CleanupTerminal, RetireAll, WorkerStep, FillStep, CheckStep, Batch;
    BatchSteps(c, steps, picks);
    Dispatches(c, s, g, w);
    WorkerRuns(c, g.s, g.items, w, picks, e);
  }

  lemma Turns(c: Config, steps: seq<Step>, s: Sched, w: Worker)
    requires s.accepting && Run(c, steps) == Moment(s, [], None, w, Top)
    ensures Run(c, steps + [ROUND]) == Moment(s, [], None, w, Fill)
  {
    hide Run;
    RunStep(c, steps, ROUND);
  }

  lemma ExecutesOne(c: Config, w: Worker, w': Worker, x: WorkItem, result: ItemResult, pick: Pick)
    requires ExecuteItem(c, w, x, 0, pick) == Executed(w', result)
    ensures ExecuteItems(c, w, [x], 0, [pick]) == ExecutedAll(w', [result])
  {
    hide ExecuteItem;
    Alone(x);
    Alone(pick);
    assert ExecuteItems(c, w', [], 1, []) == ExecutedAll(w', []);
  }

  lemma RetiresOne(c: Config, s: Sched, x: WorkItem, result: ItemResult)
    ensures RetireAll(c, s, [x], [result]) == RetireWork(c, s, x, result)
  {
    hide RetireWork;
    Alone(x);
    Alone(result);
  }

  /** A sampled token that does not finish the request reaches a client that listens. */
  lemma DeliversToken(s: Sched, t: Ticket, r: Request, q: Sequence, result: ItemResult, token: Token)
    requires result.sampled == [token] && !result.eos && |r.generated| + 1 < r.maxTokens && r.status == Active && r.open
    requires q.phase == Decode && t in s.log
    ensures Deliver(s, t, r, q, result)
         == s.(objs := s.objs[t := r.(generated := r.generated + [token], sched := Some(q))],
               log := s.log[t := s.log[t] + [TokenEvent(token, false)]])
  {
    var r1 := r.(generated := r.generated + [token], sched := Some(q));
    assert q.(phase := Decode) == q;
    assert Put(s, t, r1).objs[t] == r1;
  }

  /** A prompt that fits the budget is prefilled in one chunk. */
  lemma WholePrompt(c: Config, r: Request, q: Sequence, budget: nat)
    requires q.cursor == q.frontier == 0 && q.res == NO_RESERVATION && q.phase == Prefill
    requires c.maxSeqPrefill == 0 && 0 < |r.prompt| <= budget
    ensures NextChunk(c, r, q, budget) == PrefillChunk(q.seqId, 0, 0, true, r.prompt, q.table)
  {
    assert r.prompt[0..|r.prompt|] == r.prompt;
  }

  /** The front of the waiting queue is admitted with the blocks it needs. */
  lemma AdmitsFront(c: Config, g: Stage, t: Ticket, r: Request, hit: seq<BlockId>, k: Taken)
    requires g.budget > 0 && g.s.waiting != [] && g.s.waiting[0] == t && t in g.s.objs && g.s.objs[t] == r
    requires |g.s.running| < c.maxRunning && |g.s.running| + |g.s.skip| < c.maxSequences
    requires r.status == Active && 0 < r.maxTokens && 0 < |r.prompt| <= r.maxContext <= Cap(c, c.maxBlocks)
    requires var s := g.s.(waiting := g.s.waiting[1..]);
      hit == HitTable(c, s, r.prompt) && k == TakeBlocks(Looked(c, s, r.prompt), Sub(BlocksFor(c, |r.prompt|), |hit|))
    requires k.ok && k.s.accepting
    ensures var s' := Enlist(c, k.s, t, r, |hit|, ParentOf(c, r.prompt, |hit|), hit + k.table);
      AdmitWaiting(c, g, false) == Admission(BuildWork(c, g.(s := s'), t), true)
  {
    hide Looked, HitTable, TakeBlocks, Enlist, BuildWork, ParentOf, Dismiss, Cap, BlocksFor, Sub;
    assert k.s.(accepting := true) == k.s;
  }

  /** A late-bound decode step and its claims. */
  lemma DecodeStep(r: Request, q: Sequence)
    requires q.phase == Decode && q.res == NO_RESERVATION
    ensures NextDecode(r, q) == DecodeOneToken(q.seqId, 0, q.frontier, true, true, q.table)
    ensures Reserve(q, NextDecode(r, q)) == q.(res := Reservation(1, 0, 1, 1))
  {
  }

  lemma WritesFirst(c: Config, mem: map<nat, Kv>, table: seq<BlockId>, pos: nat, x: Token, later: seq<Token>)
    ensures WriteTokens(c, mem, table, pos, [x] + later) ==
      WriteTokens(c, mem[Slot(c, table, pos) := Kv(x, Attended(c, mem, table, pos))], table, pos + 1, later)
  {
    hide Slot, Attended;
    assert ([x] + later)[1..] == later;
  }

  lemma WritesLast(c: Config, mem: map<nat, Kv>, table: seq<BlockId>, pos: nat, x: Token)
    ensures WriteTokens(c, mem, table, pos, [x]) == mem[Slot(c, table, pos) := Kv(x, Attended(c, mem, table, pos))]
  {
    hide Slot, Attended;
    assert [x][1..] == [];
  }
}
