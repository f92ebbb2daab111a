/**
 The whole system as a step machine: the scheduler, the engine loop with its FIFO of batches in
 flight, the worker that executes them in order, and the clients.

 A step is what happens between two suspension points of the engine coroutine, one client call, the
 worker finishing one batch, or another thread raising the shutdown flag. What the environment decides
 (sampled tokens, failures, timing) comes in with the step.
 */
module Engine {
  import opened Types
  import opened State
  import opened Scheduling

  // ---------------------------------------------------------------- worker

  /** What a KV slot holds: the key and value of a token computed by attending over a context. */
  datatype Kv = Kv(token: Token, context: seq<Kv>)

  /** Worker state. `made` and `fed` are history: the tokens sampled for each sequence, and the tokens its
      decode steps were given. */
  datatype Worker = Worker(
    latest: map<SeqId, Token>, failed: set<SeqId>, mem: map<nat, Kv>, halted: bool,
    made: map<SeqId, seq<Token>>, fed: map<SeqId, seq<Token>>)

  function Read(mem: map<nat, Kv>, slot: nat): Kv {
    if slot in mem then mem[slot] else Kv(0, [])
  }

  /** Index of the block a position falls in, and the offset there. */
  function BlockAt(c: Config, pos: nat): nat {
    if c.blockSize == 0 then pos else pos / c.blockSize
  }

  function OffsetAt(c: Config, pos: nat): nat {
    if c.blockSize == 0 then 0 else pos % c.blockSize
  }

  /** Physical slot of a position in a block table. */
  function Slot(c: Config, table: seq<BlockId>, pos: nat): nat {
    if BlockAt(c, pos) >= |table| then 0 else SlotIn(c, table[BlockAt(c, pos)], OffsetAt(c, pos))
  }

  function SlotIn(c: Config, b: BlockId, offset: nat): nat {
    b * c.blockSize + offset
  }

  /** The first n positions, as attention reads them. */
  function Attended(c: Config, mem: map<nat, Kv>, table: seq<BlockId>, n: nat): seq<Kv> {
    seq(n, i requires 0 <= i => Read(mem, Slot(c, table, i)))
  }

  function WriteTokens(c: Config, mem: map<nat, Kv>, table: seq<BlockId>, pos: nat, tokens: seq<Token>): map<nat, Kv>
    decreases |tokens|
  {
    if tokens == [] then mem
    else WriteTokens(c, mem[Slot(c, table, pos) := Kv(tokens[0], Attended(c, mem, table, pos))], table, pos + 1,
        tokens[1..])
  }

  function Made(w: Worker, q: SeqId): seq<Token> {
    if q in w.made then w.made[q] else []
  }

  function FedTo(w: Worker, q: SeqId): seq<Token> {
    if q in w.fed then w.fed[q] else []
  }

  function Latest(c: Config, w: Worker, q: SeqId): Token {
    if q in w.latest then w.latest[q] else c.unseen(q)
  }

  /** Tokens the model sees for an item; a late-bound decode takes the sequence's latest token. */
  function Fed(c: Config, w: Worker, x: WorkItem): seq<Token> {
    if x.PrefillChunk? then x.tokens
    else if x.lateBind then [Latest(c, w, x.seqId)]
    else [x.inputToken]
  }

  datatype Pick = Pick(token: Token, eos: bool)

  datatype Executed = Executed(w: Worker, result: ItemResult)

  function ExecuteItem(c: Config, w: Worker, x: WorkItem, index: nat, pick: Pick): Executed {
    var q := x.seqId;
    var live := q !in w.failed;
    var samples := live && GenCount(x) > 0;
    Executed(
      w.(latest := if samples then w.latest[q := pick.token]
                   else if live && x.PrefillChunk? && x.tokens != [] then w.latest[q := Last(x.tokens, 0)]
                   else w.latest,
         mem := if live && KvCount(x) > 0 then WriteTokens(c, w.mem, x.table, x.context, Fed(c, w, x)) else w.mem,
         made := if samples then w.made[q := Made(w, q) + [pick.token]] else w.made,
         fed := if live && x.DecodeOneToken? && x.writeKv then w.fed[q := FedTo(w, q) + Fed(c, w, x)] else w.fed),
      ItemResult(index, q, x.PrefillChunk?, if samples then [pick.token] else [], if live then TokenCount(x) else 0,
                 samples && pick.eos, !live))
  }

  datatype ExecutedAll = ExecutedAll(w: Worker, results: seq<ItemResult>)

  function ExecuteItems(c: Config, w: Worker, items: seq<WorkItem>, index: nat, picks: seq<Pick>): (r: ExecutedAll)
    ensures |r.results| == |items|
    decreases |items|
  {
    if items == [] then ExecutedAll(w, [])
    else
      var e := ExecuteItem(c, w, items[0], index, if picks == [] then Pick(0, false) else picks[0]);
      var rest := ExecuteItems(c, e.w, items[1..], index + 1, if picks == [] then [] else picks[1..]);
      ExecutedAll(rest.w, [e.result] + rest.results)
  }

  /** Slots the items of sequences that are not barred may write. */
  function Dirty(c: Config, w: Worker, items: seq<WorkItem>): set<nat> {
    set x, p | x in items && x.seqId !in w.failed && x.context <= p < x.context + KvCount(x) :: Slot(c, x.table, p)
  }

  /** After a failed batch the slots it was writing hold anything. */
  function Smudge(mem: map<nat, Kv>, dirty: set<nat>, junk: map<nat, Kv>): map<nat, Kv> {
    map k | k in mem.Keys + junk.Keys :: if k in dirty && k in junk then junk[k] else Read(mem, k)
  }

  function Barred(w: Worker, items: seq<WorkItem>): set<SeqId> {
    set x | x in items && x.seqId !in w.failed :: x.seqId
  }

  // ---------------------------------------------------------------- batches in flight

  datatype Outcome = Done(results: seq<ItemResult>) | Broken(code: ErrorCode)

  datatype Flight = Flight(items: seq<WorkItem>, outcome: Option<Outcome>)

  function ItemsOf(fs: seq<Flight>): seq<WorkItem> {
    if fs == [] then [] else fs[0].items + ItemsOf(fs[1..])
  }

  datatype Pc = NotStarted | Top | Fill | Check | Collect | Sleep | Drain | DrainCollect | Stopped

  /** `current` is the batch popped from the FIFO while its result is awaited. */
  datatype Sys = Sys(
    s: Sched, flights: seq<Flight>, current: Option<Flight>, w: Worker, pc: Pc,
    shutdownRequested: bool, wasRunning: bool, taskPending: bool, doneSent: bool, promises: nat)
  {
    /** All batches not yet retired, oldest first. */
    function Aloft(): seq<Flight> {
      (if current.Some? then [current.value] else []) + flights
    }

    /** All work items not yet retired, oldest first. */
    function Out(): seq<WorkItem> {
      ItemsOf(Aloft())
    }
  }

  function Boot(c: Config): Sys {
    Sys(Initial(c), [], None, Worker(map[], {}, map[], false, map[], map[]), NotStarted, false, false, false, false, 0)
  }

  // ---------------------------------------------------------------- engine loop

  /** Another thread raised the shutdown flag while a batch was being built. */
  function Noticed(y: Sys, s: Sched): Sys {
    if y.s.accepting && !s.accepting then y.(s := s, shutdownRequested := true, wasRunning := true, taskPending := true)
    else y.(s := s)
  }

  /** One round of the inner loop: build a batch and hand it to the worker, if the window has room. */
  function FillStep(c: Config, y: Sys, raises: seq<Raise>): Sys {
    if |y.flights| >= c.maxConcurrent then y.(pc := Check)
    else
      var g := ScheduleStep(c, y.s, raises);
      var y1 := Noticed(y, g.s);
      if g.items == [] then y1.(pc := Check)
      else if !y.w.halted then y1.(flights := y.flights + [Flight(g.items, None)])
      else y1.(s := CleanupTerminal(FailBatch(g.s, g.items, ServerShuttingDown)))
  }

  function CheckStep(c: Config, y: Sys): Sys {
    if y.flights != [] then y.(current := Some(y.flights[0]), flights := y.flights[1..], pc := Collect)
    else
      var s := CleanupTerminal(y.s);
      if !s.paused && (s.waiting != [] || HasSchedulableWork(c, s)) then y.(s := Preempt(s), pc := Top)
      else y.(s := s, pc := Sleep)
  }

  /** The scheduler after the result of a batch arrived. */
  function Retired(c: Config, s: Sched, f: Flight): Sched {
    match f.outcome
    case None => s
    case Some(Done(results)) => RetireAll(c, s, f.items, results)
    case Some(Broken(code)) => FailBatch(s, f.items, code)
  }

  function Complete(y: Sys): Sys {
    if y.doneSent then y else y.(doneSent := true, promises := y.promises + 1)
  }

  function EngineStep(c: Config, y: Sys, raises: seq<Raise>): Sys {
    match y.pc
    case NotStarted => y
    case Top => if y.s.accepting then y.(pc := Fill)
                else y.(s := FailAllWaiting(y.s, ServerShuttingDown), pc := Drain)
    case Fill => FillStep(c, y, raises)
    case Check => CheckStep(c, y)
    case Collect =>
      if y.current.None? || y.current.value.outcome.None? then y
      else y.(s := CleanupTerminal(Retired(c, y.s, y.current.value)), current := None, pc := Top)
    case Sleep => y.(pc := Top)
    case Drain =>
      if y.flights != [] then y.(current := Some(y.flights[0]), flights := y.flights[1..], pc := DrainCollect)
      else Complete(y.(s := CleanupAllRunning(y.s, ServerShuttingDown), pc := Stopped))
    case DrainCollect =>
      if y.current.None? || y.current.value.outcome.None? then y
      else y.(s := Retired(c, y.s, y.current.value), current := None, pc := Drain)
    case Stopped => y
  }

  // ---------------------------------------------------------------- worker steps

  /** A stopped worker refuses what is queued; a batch of barred sequences only is never executed. */
  function Fate(c: Config, w: Worker, f: Flight, picks: seq<Pick>, broken: bool, code: ErrorCode, junk: map<nat,
          Kv>): (Worker, Flight) {
    if w.halted then (w, f.(outcome := Some(Broken(ServerShuttingDown))))
    else if broken && Barred(w, f.items) != {} then
      (w.(mem := Smudge(w.mem, Dirty(c, w, f.items), junk), failed := w.failed + Barred(w, f.items)),
       f.(outcome := Some(Broken(code))))
    else
      var e := ExecuteItems(c, w, f.items, 0, picks);
      (e.w, f.(outcome := Some(Done(e.results))))
  }

  /** The worker executes the oldest batch it has not executed yet. */
  function WorkerStep(c: Config, y: Sys, picks: seq<Pick>, broken: bool, code: ErrorCode, junk: map<nat, Kv>): Sys {
    if y.current.Some? && y.current.value.outcome.None? then
      var (w, f) := Fate(c, y.w, y.current.value, picks, broken, code, junk);
      y.(w := w, current := Some(f))
    else
      var i := FirstPending(y.flights);
      if i == |y.flights| then y
      else
        var (w, f) := Fate(c, y.w, y.flights[i], picks, broken, code, junk);
        y.(w := w, flights := y.flights[i := f])
  }

  function FirstPending(fs: seq<Flight>): (i: nat)
    ensures i <= |fs|
    ensures i < |fs| ==> fs[i].outcome.None?
    ensures forall j | 0 <= j < i :: fs[j].outcome.Some?
  {
    if fs == [] || fs[0].outcome.None? then 0 else 1 + FirstPending(fs[1..])
  }

  // ---------------------------------------------------------------- runs

  datatype Step =
    | Start
    | SubmitRequest(id: string, prompt: seq<Token>, maxTokens: int, maxContext: int, open: bool)
    | CancelRequest(id: string)
    | HangUp(ticket: Ticket)
    | RaiseShutdown
    | ShutdownTask
    | RunEngine(raises: seq<Raise>)
    | HaltWorker
    | RunWorker(picks: seq<Pick>, broken: bool, code: ErrorCode, junk: map<nat, Kv>)

  function Next(c: Config, y: Sys, step: Step): Sys {
    match step
    case Start =>
      if y.shutdownRequested || y.s.accepting || y.pc != NotStarted then y
      else y.(s := y.s.(accepting := true), pc := Top)
    case SubmitRequest(id, prompt, maxTokens, maxContext, open) =>
      y.(s := Submit(c, y.s, id, prompt, maxTokens, maxContext, open))
    case CancelRequest(id) => y.(s := Cancel(y.s, id))
    case HangUp(t) => y.(s := Hangup(y.s, t))
    case RaiseShutdown =>
      if y.shutdownRequested then y
      else y.(shutdownRequested := true, wasRunning := y.s.accepting, taskPending := true,
              s := y.s.(accepting := false))
    case ShutdownTask =>
      if !y.taskPending then y
      else
        var y1 := y.(taskPending := false, s := FailAllWaiting(y.s, ServerShuttingDown));
        if y.wasRunning then y1 else Complete(y1)
    case RunEngine(raises) => EngineStep(c, y, raises)
    case HaltWorker => y.(w := y.w.(halted := true))
    case RunWorker(picks, broken, code, junk) => WorkerStep(c, y, picks, broken, code, junk)
  }

  /** The state after a whole run from a cold start. */
  function Run(c: Config, steps: seq<Step>): Sys
    decreases |steps|
  {
    if steps == [] then Boot(c) else Next(c, Run(c, steps[..|steps| - 1]), steps[|steps| - 1])
  }
}
