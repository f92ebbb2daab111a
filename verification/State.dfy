/** Scheduler state: requests, sequences, queues and indexes. */
module State {
  import opened Types
  import opened Blocks

  datatype Status = Active | Finished | Cancelled | Failed

  datatype Phase = Prefill | ReplayPrefill | Bootstrap | Decode

  predicate IsPrefill(p: Phase) {
    p == Prefill || p == ReplayPrefill
  }

  /** What in-flight work items have claimed but not yet delivered. */
  datatype Reservation = Reservation(leases: nat, prompt: nat, gen: nat, kv: nat)

  const NO_RESERVATION := Reservation(0, 0, 0, 0)

  /** Execution state of an admitted request. */
  datatype Sequence = Sequence(
    seqId: SeqId, res: Reservation,
    phase: Phase, cursor: nat, genInPrompt: nat,
    table: seq<BlockId>, frontier: nat,
    parent: Hash, pending: seq<Token>)

  /** The canonical request object. `open` says whether the client's channel still exists. */
  datatype Request = Request(
    id: string, initial: seq<Token>, prompt: seq<Token>, status: Status,
    generated: seq<Token>, maxTokens: int, maxContext: int, open: bool,
    sched: Option<Sequence>)

  const BLANK := Request("", [], [], Finished, [], 0, 0, false, None)

  datatype Event = TokenEvent(token: Token, finished: bool) | DoneEvent | ErrorEvent(code: ErrorCode)

  /** How a sequence was admitted, and how many tokens its request had generated by then: its first token
      will be sampled from the prompt (Cold), the prompt is replayed from a cached part on (Warm), or all of
      a replayed prompt was cached (Blind); then its first step is fed whatever the worker takes. */
  datatype Start = Cold(before: nat) | Warm(before: nat) | Blind(before: nat, lead: Token)

  /** History of a run, not consulted by the scheduler: blocks lost by failed allocations; how every
      sequence was admitted, and how much of its prompt was cached; published blocks that were filed under
      tokens they were not computed for, or by a sequence admitted over such a block; the sequences admitted
      over such blocks; every token prefix whose chain hash was computed; the token prefix behind every
      published block; the tokens mixed into every sequence's parent hash; the requests whose client
      cancelled them or went away; and every request since forgotten, as it was then. */
  datatype History = History(
    leaked: set<BlockId>, starts: map<SeqId, Start>, base: map<SeqId, nat>,
    tainted: set<BlockId>, touched: set<SeqId>,
    hashed: set<seq<Token>>, meaning: map<BlockId, seq<Token>>, chain: map<SeqId, seq<Token>>,
    excused: set<Ticket>, final: map<Ticket, Request>)

  const NO_HISTORY := History({}, map[], map[], {}, {}, {}, map[], map[], {}, map[])

  datatype Sched = Sched(
    blocks: Store,
    objs: map<Ticket, Request>, registry: map<string, Ticket>,
    waiting: seq<Ticket>, skip: seq<Ticket>, running: seq<Ticket>,
    bySeq: map<SeqId, Ticket>,
    paused: bool, shortage: bool, accepting: bool,
    nextSeq: SeqId, nextBatch: nat, nextTicket: Ticket,
    log: map<Ticket, seq<Event>>, hist: History)

  function Initial(c: Config): Sched {
    Sched(FreshStore(c.maxBlocks), map[], map[], [], [], [], map[],
          false, false, false, 1, 1, 0, map[], NO_HISTORY)
  }

  function Get(s: Sched, t: Ticket): Request {
    if t in s.objs then s.objs[t] else BLANK
  }

  function Put(s: Sched, t: Ticket, r: Request): Sched {
    s.(objs := s.objs[t := r])
  }

  /** A batch under construction. */
  datatype Stage = Stage(s: Sched, items: seq<WorkItem>, budget: nat)
}
