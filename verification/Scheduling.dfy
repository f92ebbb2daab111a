/**
 The scheduler's operations, as functions on its state. Each is one method of the source; the class
 in SchedulerClass.dfy performs them in place.
 */
module Scheduling {
  import opened Types
  import opened Blocks
  import opened Hashing
  import opened State

  // ---------------------------------------------------------------- events

  function Last<T>(s: seq<T>, default: T): T {
    if s == [] then default else s[|s| - 1]
  }

  function LogOf(s: Sched, t: Ticket): seq<Event> {
    if t in s.log then s.log[t] else []
  }

  function Send(s: Sched, t: Ticket, e: Event): Sched {
    s.(log := if Get(s, t).open then s.log[t := LogOf(s, t) + [e]] else s.log)
  }

  function SendToken(s: Sched, t: Ticket): Sched {
    var r := Get(s, t);
    var s1 := Send(s, t, TokenEvent(Last(r.generated, 0), r.status == Finished));
    s1.(objs := if !r.open && r.status == Active then s1.objs[t := r.(status := Cancelled)] else s1.objs)
  }

  function SendDone(s: Sched, t: Ticket): Sched {
    Send(Put(s, t, Get(s, t).(status := Finished)), t, DoneEvent)
  }

  function SendError(s: Sched, t: Ticket, e: ErrorCode): Sched {
    Send(Put(s, t, Get(s, t).(status := Failed)), t, ErrorEvent(e))
  }

  // ---------------------------------------------------------------- blocks

  datatype Taken = Taken(s: Sched, table: seq<BlockId>, ok: bool)

  function TakeBlocks(s: Sched, n: nat): Taken {
    var g := if n == 0 then Grant(s.blocks, [], true) else AllocateKv(s.blocks, n);
    Taken(s.(blocks := g.store, hist := if g.ok then s.hist else Leak(s.hist, g.taken)),
          if g.ok then g.taken else [], g.ok)
  }

  /** Blocks that keep a reference nobody owns. */
  function Leak(h: History, taken: seq<BlockId>): History {
    h.(leaked := h.leaked + set b | b in taken)
  }

  function ReleaseScheduling(s: Sched, t: Ticket): Sched {
    var r := Get(s, t);
    s.(bySeq := if r.sched.None? then s.bySeq else s.bySeq - {r.sched.value.seqId},
       blocks := if r.sched.None? then s.blocks else ReleaseTable(s.blocks, r.sched.value.table),
       objs := if r.sched.None? then s.objs else s.objs[t := r.(sched := None)])
  }

  /** A forgotten request is remembered as it was. */
  function Farewell(s: Sched, t: Ticket): History {
    s.hist.(final := if t in s.objs then s.hist.final[t := s.objs[t]] else s.hist.final)
  }

  function EraseRequest(s: Sched, t: Ticket): Sched {
    s.(registry := s.registry - {Get(s, t).id}, objs := s.objs - {t}, hist := Farewell(s, t))
  }

  /** Prompt for readmission: everything generated so far except the last token. */
  function PrepareForWait(r: Request): Request {
    if r.generated == [] then r
    else r.(prompt := r.initial + r.generated[..|r.generated| - 1])
  }

  // ---------------------------------------------------------------- submission

  /** The client no longer waits for an answer. */
  function Excuse(h: History, t: Ticket): History {
    h.(excused := h.excused + {t})
  }

  function Refuse(s: Sched, open: bool, e: ErrorCode): Sched {
    s.(nextTicket := s.nextTicket + 1,
       log := s.log[s.nextTicket := if open then [ErrorEvent(e)] else []],
       hist := if open then s.hist else Excuse(s.hist, s.nextTicket))
  }

  function Accept(s: Sched, r: Request): Sched {
    var t := s.nextTicket;
    s.(nextTicket := t + 1,
       objs := s.objs[t := r],
       registry := s.registry[r.id := t],
       waiting := s.waiting + [t],
       log := s.log[t := []],
       hist := if r.open then s.hist else Excuse(s.hist, t))
  }

  function Submit(c: Config, s: Sched, id: string, prompt: seq<Token>, maxTokens: int, maxContext: int,
          open: bool): Sched {
    if !s.accepting then Refuse(s, open, ServerShuttingDown)
    else if id in s.registry then Refuse(s, open, InvalidArgument)
    else if |s.waiting| >= c.maxPending then Refuse(s, open, RequestQueueFull)
    else
      Accept(s, Request(id, prompt, prompt, Active, [], maxTokens,
                        if maxContext <= 0 then c.defaultContext else maxContext, open, None))
  }

  function Cancel(s: Sched, id: string): Sched {
    s.(objs := if id in s.registry && Get(s, s.registry[id]).status == Active then
                 s.objs[s.registry[id] := Get(s, s.registry[id]).(status := Cancelled)]
               else s.objs,
       hist := if id in s.registry then Excuse(s.hist, s.registry[id]) else s.hist)
  }

  /** The client's channel goes away. */
  function Hangup(s: Sched, t: Ticket): Sched {
    s.(objs := if t in s.objs then s.objs[t := s.objs[t].(open := false)] else s.objs,
       hist := if t < s.nextTicket then Excuse(s.hist, t) else s.hist)
  }

  // ---------------------------------------------------------------- building work

  function BuildWork(c: Config, g: Stage, t: Ticket): (g': Stage)
    ensures SameQueues(g.s, g'.s)
  {
    var r := Get(g.s, t);
    if r.sched.None? || g.budget == 0 || r.status != Active then g
    else if |r.generated| >= r.maxTokens then g.(s := SendDone(g.s, t))
    else if IsPrefill(r.sched.value.phase) then BuildPrefill(c, g, t, r, r.sched.value)
    else BuildDecode(c, g, t, r, r.sched.value)
  }

  predicate SameQueues(s: Sched, s': Sched) {
    && s'.waiting == s.waiting && s'.skip == s.skip && s'.running == s.running
    && s'.bySeq == s.bySeq && s'.registry == s.registry && s'.paused == s.paused
    && s'.accepting == s.accepting && s'.nextTicket == s.nextTicket && s'.nextSeq == s.nextSeq
  }

  function Sub(a: nat, b: nat): nat {
    if a >= b then a - b else 0
  }

  function Min(a: nat, b: nat): nat {
    if a <= b then a else b
  }

  function Max(a: nat, b: nat): nat {
    if a >= b then a else b
  }

  function ChunkLength(c: Config, remaining: nat, budget: nat): (n: nat)
    ensures n <= remaining && n <= budget && (c.maxSeqPrefill > 0 ==> n <= c.maxSeqPrefill)
    ensures n == remaining || n == budget || n == c.maxSeqPrefill
    ensures remaining > 0 && budget > 0 ==> n > 0
  {
    Min(if c.maxSeqPrefill > 0 then Min(remaining, c.maxSeqPrefill) else remaining, budget)
  }

  /** The sequence with the item's claims added to its reservation. */
  function Reserve(q: Sequence, item: WorkItem): Sequence {
    q.(res := Reservation(q.res.leases + 1, q.res.prompt + PromptCount(item),
                          q.res.gen + GenCount(item), q.res.kv + KvCount(item)))
  }

  /** The next chunk of the prompt, from the first token not yet claimed. */
  function NextChunk(c: Config, r: Request, q: Sequence, budget: nat): WorkItem
    requires q.cursor + q.res.prompt < |r.prompt|
  {
    var start := q.cursor + q.res.prompt;
    var len := ChunkLength(c, |r.prompt| - start, budget);
    var final := start + len >= |r.prompt|;
    var silent := q.phase == ReplayPrefill && r.generated != [];
    PrefillChunk(q.seqId, start, q.frontier + q.res.kv, final && !silent, r.prompt[start..start + len], q.table)
  }

  function BuildPrefill(c: Config, g: Stage, t: Ticket, r: Request, q: Sequence): (g': Stage)
    ensures SameQueues(g.s, g'.s)
  {
    if q.cursor + q.res.prompt >= |r.prompt| then g
    else
      var item := NextChunk(c, r, q, g.budget);
      Stage(Put(g.s, t, r.(sched := Some(Reserve(q, item)))), g.items + [item], g.budget - |item.tokens|)
  }

  function BlocksFor(c: Config, tokens: nat): (k: nat)
    ensures c.blockSize > 0 ==> tokens <= Cap(c, k) < tokens + c.blockSize
  {
    if c.blockSize == 0 then 0
    else
      var k := (tokens + c.blockSize - 1) / c.blockSize;
      assert k * c.blockSize <= tokens + c.blockSize - 1 < (k + 1) * c.blockSize;
      k
  }

  /** One generated token; the bootstrap step re-reads the last prompt token and writes no KV. */
  function NextDecode(r: Request, q: Sequence): WorkItem {
    var boot := q.phase == Bootstrap;
    DecodeOneToken(q.seqId, if boot then Last(r.prompt, 0) else 0, q.frontier + q.res.kv, !boot, !boot, q.table)
  }

  /** Blocks missing for the next decode step. */
  function MissingBlocks(c: Config, q: Sequence): nat {
    Sub(BlocksFor(c, q.frontier + q.res.kv + if q.phase == Bootstrap then 0 else 1), |q.table|)
  }

  function BuildDecode(c: Config, g: Stage, t: Ticket, r: Request, q: Sequence): (g': Stage)
    requires g.budget > 0
    ensures SameQueues(g.s, g'.s)
  {
    var committed := |r.prompt| + |r.generated| - q.genInPrompt;
    if |r.generated| + q.res.gen >= r.maxTokens then g
    else if q.phase == Bootstrap && q.res.gen > 0 then g
    else if committed + q.res.gen >= r.maxContext then
      if q.res.gen == 0 then g.(s := SendDone(g.s, t)) else g
    else TakeDecode(c, g, t, r, q)
  }

  function TakeDecode(c: Config, g: Stage, t: Ticket, r: Request, q: Sequence): (g': Stage)
    requires g.budget > 0
    ensures SameQueues(g.s, g'.s)
  {
    var taken := TakeBlocks(g.s, MissingBlocks(c, q));
    if !taken.ok then g.(s := taken.s.(shortage := true))
    else
      var q1 := q.(table := q.table + taken.table);
      var item := NextDecode(r, q1);
      Stage(Put(taken.s, t, r.(sched := Some(Reserve(q1, item)))), g.items + [item], g.budget - 1)
  }

  function BuildAll(c: Config, g: Stage, ts: seq<Ticket>): (g': Stage)
    ensures SameQueues(g.s, g'.s)
    decreases |ts|
  {
    if ts == [] || g.budget == 0 then g
    else BuildAll(c, BuildWork(c, g, ts[0]), ts[1..])
  }

  // ---------------------------------------------------------------- making room

  datatype Room = Room(s: Sched, made: bool)

  function EvictSkipped(s: Sched): Room {
    if s.skip == [] then Room(s, false)
    else
      var t := s.skip[0];
      var s1 := s.(skip := s.skip[1..]);
      var s2 := if Get(s1, t).sched.None? then s1
                else ReleaseScheduling(Put(s1, t, PrepareForWait(Get(s1, t))), t);
      Room(s2.(waiting := [t] + s2.waiting), true)
  }

  /** A running sequence that may be suspended or preempted: active, and nothing of it in flight. */
  predicate Movable(s: Sched, t: Ticket) {
    var r := Get(s, t);
    r.status == Active && r.sched.Some? && r.sched.value.res.leases == 0
  }

  function TableSize(s: Sched, t: Ticket): nat {
    var r := Get(s, t);
    if r.sched.Some? then |r.sched.value.table| else 0
  }

  /** Scan from the back; the first of the smallest wins. */
  function FindSmallest(s: Sched, ts: seq<Ticket>, prefill: bool, best: Option<Ticket>): (r: Option<Ticket>)
    ensures r.Some? ==> r == best || (r.value in ts && Movable(s, r.value))
    decreases |ts|
  {
    if ts == [] then best
    else
      var t := ts[|ts| - 1];
      var better := Movable(s, t) && IsPrefill(Get(s, t).sched.value.phase) == prefill
                    && (best.None? || TableSize(s, t) < TableSize(s, best.value));
      FindSmallest(s, ts[..|ts| - 1], prefill, if better then Some(t) else best)
  }

  function FindVictim(s: Sched): (r: Option<Ticket>)
    ensures r.Some? ==> r.value in s.running && Movable(s, r.value)
  {
    var p := FindSmallest(s, s.running, true, None);
    if p.Some? then p else FindSmallest(s, s.running, false, None)
  }

  function DropTicket(ts: seq<Ticket>, t: Ticket): (r: seq<Ticket>)
    ensures |r| <= |ts|
  {
    if ts == [] then [] else if ts[0] == t then ts[1..] else [ts[0]] + DropTicket(ts[1..], t)
  }

  function SuspendRunning(s: Sched): Room {
    var v := FindVictim(s);
    if v.None? then Room(s, false)
    else
      var t := v.value;
      var s1 := ReleaseScheduling(Put(s, t, PrepareForWait(Get(s, t))), t);
      var s2 := s1.(running := DropTicket(s1.running, t), waiting := [t] + s1.waiting);
      Room(s2.(paused := s2.running != []), true)
  }

  function MakeRoom(s: Sched): Sched {
    var e := EvictSkipped(s);
    if e.made then e.s else SuspendRunning(s).s
  }

  // ---------------------------------------------------------------- admission

  datatype Admission = Admission(g: Stage, again: bool)

  /** Error to the client, then the request is forgotten. */
  function Dismiss(s: Sched, t: Ticket, e: Event): Sched {
    EraseRequest(Send(ReleaseScheduling(s, t), t, e), t)
  }

  function AdmitSkipped(c: Config, g: Stage, raised: bool): Admission {
    if g.budget == 0 || g.s.skip == [] || |g.s.running| >= c.maxRunning then Admission(g, false)
    else
      var t := g.s.skip[0];
      var r := Get(g.s, t);
      var s := g.s.(skip := g.s.skip[1..]);
      if r.status == Cancelled then Admission(g.(s := Dismiss(s, t, ErrorEvent(RequestCancelled))), true)
      else if r.maxTokens <= 0 then Admission(g.(s := Dismiss(s, t, DoneEvent)), true)
      else if r.sched.None? then Admission(g.(s := s.(waiting := [t] + s.waiting)), false)
      else
        var s1 := s.(accepting := s.accepting && !raised);
        if !s1.accepting then Admission(g.(s := Dismiss(s1, t, ErrorEvent(ServerShuttingDown))), true)
        else if |r.generated| >= r.maxTokens then
          Admission(g.(s := EraseRequest(SendDone(ReleaseScheduling(s1, t), t), t)), true)
        else
          var s2 := s1.(bySeq := s1.bySeq[r.sched.value.seqId := t], running := s1.running + [t]);
          Admission(BuildWork(c, g.(s := s2), t), true)
  }

  function FirstPhase(hit: nat, prompt: nat, cold: bool): Phase {
    if 0 < hit < prompt && !cold then ReplayPrefill
    else if hit >= prompt then (if cold then Bootstrap else Decode)
    else Prefill
  }

  /** The sequence an admitted request starts with. */
  function Admitted(c: Config, s: Sched, r: Request, hits: nat, parent: Hash, table: seq<BlockId>): Sequence {
    var hit := Cap(c, hits);
    var cursor := if hit >= |r.prompt| then |r.prompt| else hit;
    Sequence(s.nextSeq, NO_RESERVATION, FirstPhase(hit, |r.prompt|, r.generated == []), cursor,
             if r.generated == [] then 0 else |r.generated| - 1, table, hit, parent, [])
  }

  /** The block-aligned prefixes whose hashes a lookup computes. */
  function BlockPrefixes(c: Config, tokens: seq<Token>): set<seq<Token>> {
    set i | 1 <= i <= FullBlocks(c, |tokens|) :: PrefixOf(c, tokens, i)
  }

  function PrefixOf(c: Config, tokens: seq<Token>, k: nat): seq<Token> {
    if Cap(c, k) <= |tokens| then tokens[..Cap(c, k)] else tokens
  }

  function StartOf(c: Config, r: Request, q: Sequence): Start {
    if q.phase == ReplayPrefill then Warm(|r.generated|)
    else if q.phase == Decode then Blind(|r.generated|, c.unseen(q.seqId))
    else Cold(|r.generated|)
  }

  /** Tokens generated since the sequence was admitted. */
  function Since(st: Start, r: Request): seq<Token> {
    if st.before <= |r.generated| then r.generated[st.before..] else []
  }

  /** What a decode step is fed before there is a token sampled since admission: nothing, as there is no such
      step; the last token of the prompt; or whatever the worker takes for a sequence it does not know. */
  function Lead(st: Start, r: Request): seq<Token> {
    match st
    case Cold(_) => []
    case Warm(_) => [Last(r.prompt, 0)]
    case Blind(_, lead) => [lead]
  }

  /** What the scheduler hashes for such a step: the last token generated before admission. */
  function Echo(st: Start, r: Request): seq<Token> {
    if st.Cold? || st.before == 0 || st.before > |r.generated| then [] else [r.generated[st.before - 1]]
  }

  /** The tokens a running sequence is fed, as far as its request has received them. */
  function Script(s: Sched, q: SeqId): seq<Token> {
    if q in s.bySeq && q in s.hist.starts then
      var r := Get(s, s.bySeq[q]);
      r.prompt + Lead(s.hist.starts[q], r) + Since(s.hist.starts[q], r)
    else []
  }

  /** Some of the cached blocks a prompt was given were misfiled. */
  predicate Soiled(h: History, table: seq<BlockId>, hits: nat) {
    exists i | 0 <= i < hits && i < |table| :: table[i] in h.tainted
  }

  function Enlist(c: Config, s: Sched, t: Ticket, r: Request, hits: nat, parent: Hash, table: seq<BlockId>): Sched {
    var q := Admitted(c, s, r, hits, parent, table);
    var s1 := Put(s, t, r.(sched := Some(q)));
    s1.(nextSeq := s.nextSeq + 1,
        bySeq := s.bySeq[q.seqId := t],
        running := s.running + [t],
        hist := s.hist.(starts := s.hist.starts[q.seqId := StartOf(c, r, q)],
                        base := s.hist.base[q.seqId := |PrefixOf(c, r.prompt, hits)|],
                        touched := if Soiled(s.hist, table, hits) then s.hist.touched + {q.seqId} else s.hist.touched,
                        chain := s.hist.chain[q.seqId := PrefixOf(c, r.prompt, hits)]))
  }

  function AdmitWaiting(c: Config, g: Stage, raised: bool): Admission {
    var s0 := g.s;
    if g.budget == 0 || s0.waiting == [] || |s0.running| >= c.maxRunning
       || |s0.running| + |s0.skip| >= c.maxSequences then Admission(g, false)
    else
      var t := s0.waiting[0];
      var r := Get(s0, t);
      var s := s0.(waiting := s0.waiting[1..]);
      var capacity := Cap(c, c.maxBlocks);
      if r.status == Cancelled then Admission(g.(s := Dismiss(s, t, ErrorEvent(RequestCancelled))), true)
      else if r.maxTokens <= 0 then Admission(g.(s := Dismiss(s, t, DoneEvent)), true)
      else if r.prompt == [] || |r.prompt| > r.maxContext || r.maxContext > capacity then
        Admission(g.(s := Dismiss(s, t, ErrorEvent(InvalidArgument))), true)
      else AdmitPrompt(c, g.(s := s), t, r, raised)
  }

  /** No blocks for the prompt: give back the cached ones, make room, and wait in front. */
  function Rebuff(s: Sched, t: Ticket, table: seq<BlockId>): Sched {
    var s1 := MakeRoom(s.(blocks := ReleaseTable(s.blocks, table)));
    s1.(shortage := false, waiting := [t] + s1.waiting)
  }

  /** The blocks the prefix cache has for a prompt. */
  function HitTable(c: Config, s: Sched, prompt: seq<Token>): seq<BlockId> {
    LookupPrefix(s.blocks, ChainHashes(c, prompt, 0, 0)).table
  }

  /** The scheduler after looking a prompt up. */
  function Looked(c: Config, s: Sched, prompt: seq<Token>): Sched {
    s.(blocks := LookupPrefix(s.blocks, ChainHashes(c, prompt, 0, 0)).store,
       hist := s.hist.(hashed := s.hist.hashed + BlockPrefixes(c, prompt)))
  }

  function ParentOf(c: Config, prompt: seq<Token>, hits: nat): Hash {
    var hashes := ChainHashes(c, prompt, 0, 0);
    if hits == 0 || hits > |hashes| then 0 else hashes[hits - 1]
  }

  /** Shutdown was raised during admission. */
  function TurnAway(s: Sched, t: Ticket, table: seq<BlockId>): Sched {
    EraseRequest(Send(s.(blocks := ReleaseTable(s.blocks, table)), t, ErrorEvent(ServerShuttingDown)), t)
  }

  function AdmitGranted(c: Config, g: Stage, s: Sched, t: Ticket, r: Request, hits: nat, parent: Hash,
          table: seq<BlockId>): Admission {
    if !s.accepting then Admission(g.(s := TurnAway(s, t, table)), true)
    else Admission(BuildWork(c, g.(s := Enlist(c, s, t, r, hits, parent, table)), t), true)
  }

  function AdmitPrompt(c: Config, g: Stage, t: Ticket, r: Request, raised: bool): Admission {
    var hit := HitTable(c, g.s, r.prompt);
    var taken := TakeBlocks(Looked(c, g.s, r.prompt), Sub(BlocksFor(c, |r.prompt|), |hit|));
    if !taken.ok then Admission(g.(s := Rebuff(taken.s, t, hit)), false)
    else
      AdmitGranted(c, g, taken.s.(accepting := taken.s.accepting && !raised), t, r, |hit|,
                   ParentOf(c, r.prompt, |hit|), hit + taken.table)
  }

  lemma DismissQueues(s: Sched, t: Ticket, e: Event)
    ensures var s' := Dismiss(s, t, e); s'.skip == s.skip && s'.waiting == s.waiting && s'.running == s.running
  {
    hide ReleaseTable;
  }

  /** A round of admission either takes a request out of the two queues or ends the loop. */
  lemma AdmitSkippedShrinks(c: Config, g: Stage, raised: bool)
    requires g.budget > 0 && g.s.skip != [] && |g.s.running| < c.maxRunning
    ensures var a := AdmitSkipped(c, g, raised);
      && (a.again ==> |a.g.s.skip| + |a.g.s.waiting| < |g.s.skip| + |g.s.waiting|)
      && (!a.again ==> |a.g.s.skip| + |a.g.s.waiting| <= |g.s.skip| + |g.s.waiting|)
  {
    hide Dismiss, ReleaseTable, BuildWork, LogOf;
    var t := g.s.skip[0];
    var s := g.s.(skip := g.s.skip[1..]);
    var s1 := s.(accepting := s.accepting && !raised);
    DismissQueues(s, t, ErrorEvent(RequestCancelled));
    DismissQueues(s, t, DoneEvent);
    DismissQueues(s1, t, ErrorEvent(ServerShuttingDown));
  }

  lemma GrantedQueues(c: Config, g: Stage, s: Sched, t: Ticket, r: Request, hits: nat, parent: Hash,
          table: seq<BlockId>)
    ensures var a := AdmitGranted(c, g, s, t, r, hits, parent, table);
      a.g.s.skip == s.skip && a.g.s.waiting == s.waiting
  {
    hide ReleaseTable, BuildWork, Admitted, Get, LogOf;
  }

  lemma TakeQueues(s: Sched, n: nat)
    ensures TakeBlocks(s, n).s.skip == s.skip && TakeBlocks(s, n).s.waiting == s.waiting
  {
    hide AllocateKv, Leak;
  }

  lemma AdmitPromptQueues(c: Config, g: Stage, t: Ticket, r: Request, raised: bool)
    ensures var a := AdmitPrompt(c, g, t, r, raised);
      a.again ==> a.g.s.skip == g.s.skip && a.g.s.waiting == g.s.waiting
  {
    hide LookupPrefix, Rebuff, ChainHashes, BlockPrefixes, TakeBlocks, AdmitGranted, HitTable, ParentOf;
    var hit := HitTable(c, g.s, r.prompt);
    var n := Sub(BlocksFor(c, |r.prompt|), |hit|);
    TakeQueues(Looked(c, g.s, r.prompt), n);
    var taken := TakeBlocks(Looked(c, g.s, r.prompt), n);
    GrantedQueues(c, g, taken.s.(accepting := taken.s.accepting && !raised), t, r, |hit|,
        ParentOf(c, r.prompt, |hit|), hit + taken.table);
  }

  lemma AdmitWaitingShrinks(c: Config, g: Stage, raised: bool)
    ensures var a := AdmitWaiting(c, g, raised);
      a.again ==> |a.g.s.skip| + |a.g.s.waiting| < |g.s.skip| + |g.s.waiting|
  {
    hide Dismiss, AdmitPrompt;
    if g.s.waiting != [] {
      var t := g.s.waiting[0];
      var s := g.s.(waiting := g.s.waiting[1..]);
      DismissQueues(s, t, ErrorEvent(RequestCancelled));
      DismissQueues(s, t, DoneEvent);
      DismissQueues(s, t, ErrorEvent(InvalidArgument));
      AdmitPromptQueues(c, g.(s := s), t, Get(g.s, t), raised);
    }
  }

  /** When another thread raises the shutdown flag during one round of the admission loop. */
  datatype Raise = Raise(head: bool, check: bool)

  function AdmitLoop(c: Config, g0: Stage, raises: seq<Raise>): Stage
    decreases |g0.s.skip| + |g0.s.waiting|
  {
    var raise := if raises == [] then Raise(false, false) else raises[0];
    var later := if raises == [] then [] else raises[1..];
    var g := g0.(s := g0.s.(accepting := g0.s.accepting && !raise.head));
    if !g.s.accepting || g.s.paused || g.budget == 0 || |g.s.running| >= c.maxRunning
       || (g.s.skip == [] && g.s.waiting == []) then g
    else
      var a := if g.s.skip != [] then AdmitSkippedShrinks(c, g, raise.check); AdmitSkipped(c, g, raise.check)
               else Admission(g, false);
      if a.again then AdmitLoop(c, a.g, later)
      else if a.g.s.waiting == [] then a.g
      else
        AdmitWaitingShrinks(c, a.g, raise.check);
        var b := AdmitWaiting(c, a.g, raise.check);
        if b.again then AdmitLoop(c, b.g, later) else b.g
  }

  function KeepIndexed(bySeq: map<SeqId, Ticket>, items: seq<WorkItem>): seq<WorkItem> {
    if items == [] then []
    else if items[0].seqId in bySeq then [items[0]] + KeepIndexed(bySeq, items[1..])
    else KeepIndexed(bySeq, items[1..])
  }

  function ScheduleStep(c: Config, s: Sched, raises: seq<Raise>): Stage {
    var s1 := s.(nextBatch := s.nextBatch + 1);
    var s2 := if s1.shortage then MakeRoom(s1.(shortage := false)) else s1;
    var g := AdmitLoop(c, BuildAll(c, Stage(s2, [], c.tokenBudget), s2.running), raises);
    if g.s.paused then g.(items := KeepIndexed(g.s.bySeq, g.items)) else g
  }

  // ---------------------------------------------------------------- retirement

  function RetireReservation(r: Request, item: WorkItem): Request {
    if r.sched.None? then r
    else
      var res := r.sched.value.res;
      r.(sched := Some(r.sched.value.(res := Reservation(
        Sub(res.leases, 1), Sub(res.prompt, PromptCount(item)),
        Sub(res.gen, GenCount(item)), Sub(res.kv, KvCount(item))))))
  }

  datatype Published = Published(s: Sched, q: Sequence)

  /** The tokens are those block i of the sequence was computed for, and every block before it is right. */
  predicate Reliable(c: Config, s: Sched, q: SeqId, i: nat, tokens: seq<Token>) {
    q !in s.hist.touched && Cap(c, i + 1) <= |Script(s, q)| && tokens == Script(s, q)[..Cap(c, i + 1)]
  }

  /** Publishes the full block at the front of the pending hash tokens as block i of the table. */
  function PublishStep(c: Config, s: Sched, q: Sequence, i: nat): Published
    requires 0 < c.blockSize <= |q.pending| && i < |q.table|
  {
    var full := q.pending[..c.blockSize];
    var hash := Chain(c, q.parent, full);
    var b := q.table[i];
    var tokens := (if q.seqId in s.hist.chain then s.hist.chain[q.seqId] else []) + full;
    Published(s.(blocks := Publish(s.blocks, hash, b),
                 hist := s.hist.(chain := s.hist.chain[q.seqId := tokens],
                                 hashed := s.hist.hashed + {tokens},
                                 tainted := if s.blocks.Cached(b) then s.hist.tainted
                                            else if Reliable(c, s, q.seqId, i, tokens) then s.hist.tainted - {b}
                                            else s.hist.tainted + {b},
                                 meaning := if s.blocks.Cached(b) then s.hist.meaning
                                     else s.hist.meaning[b := tokens])),
              q.(parent := hash, pending := q.pending[c.blockSize..]))
  }

  /** Publishes all full blocks among the pending hash tokens, from block index i on. */
  function PublishPending(c: Config, s: Sched, q: Sequence, i: nat): Published
    decreases |q.pending|
  {
    if c.blockSize == 0 || |q.pending| < c.blockSize || i >= |q.table| then Published(s, q)
    else
      var p := PublishStep(c, s, q, i);
      PublishPending(c, p.s, p.q, i + 1)
  }

  /** The sequence after the item's KV positions count as executed. */
  function Advance(r: Request, q: Sequence, item: WorkItem): Sequence {
    if item.PrefillChunk? then
      var cursor := q.cursor + |item.tokens|;
      q.(cursor := cursor, frontier := Max(q.frontier, item.context + |item.tokens|),
         phase := if cursor >= |r.prompt| then Decode else q.phase)
    else q.(frontier := Max(q.frontier, item.context + KvCount(item)))
  }

  /** Tokens whose KV the item wrote, as the scheduler sees them. */
  function WrittenTokens(r: Request, item: WorkItem): seq<Token> {
    if item.PrefillChunk? then item.tokens
    else if r.generated != [] then [Last(r.generated, 0)] else []
  }

  function HashWritten(c: Config, s: Sched, r: Request, q: Sequence, item: WorkItem): Published {
    if KvCount(item) == 0 || c.blockSize == 0 then Published(s, q)
    else
      var index := Sub(item.context, |q.pending|) / c.blockSize;
      PublishPending(c, s, q.(pending := q.pending + WrittenTokens(r, item)), index)
  }

  function RetireActive(c: Config, s: Sched, t: Ticket, item: WorkItem, result: ItemResult): Sched {
    var r := Get(s, t);
    if r.sched.None? then s
    else
      var q := Advance(r, r.sched.value, item);
      if item.PrefillChunk? && q.cursor < |r.prompt| then Put(s, t, r.(sched := Some(q)))
      else
        var p := HashWritten(c, s, r, q, item);
        Deliver(p.s, t, r, p.q, result)
  }

  /** Appends the sampled token, decides whether the request is finished, and tells the client. */
  function Deliver(s: Sched, t: Ticket, r: Request, q: Sequence, result: ItemResult): Sched {
    var sampled := result.sampled != [];
    var generated := if sampled then r.generated + [result.sampled[0]] else r.generated;
    var finished := result.eos || |generated| >= r.maxTokens;
    var phase := if sampled && q.phase == Bootstrap then Decode else q.phase;
    var r1 := r.(generated := generated, status := if finished then Finished else r.status,
                 sched := Some(q.(phase := phase)));
    var s1 := Put(s, t, r1);
    if sampled then SendToken(s1, t)
    else if finished then SendDone(s1, t)
    else s1
  }

  function RetireWork(c: Config, s: Sched, item: WorkItem, result: ItemResult): Sched {
    if result.seqId !in s.bySeq || Get(s, s.bySeq[result.seqId]).sched.None? then s
    else
      var t := s.bySeq[result.seqId];
      var s1 := Put(s, t, RetireReservation(Get(s, t), item));
      if result.stale || Get(s1, t).status != Active then s1
      else RetireActive(c, s1, t, item, result)
  }

  function FailItem(s: Sched, item: WorkItem, e: ErrorCode): Sched {
    if item.seqId !in s.bySeq then s
    else
      var t := s.bySeq[item.seqId];
      var s1 := Put(s, t, RetireReservation(Get(s, t), item));
      if Get(s1, t).status == Active then SendError(s1, t, e) else s1
  }

  function RetireAll(c: Config, s: Sched, items: seq<WorkItem>, results: seq<ItemResult>): Sched
    decreases |results|
  {
    if results == [] || items == [] then s
    else RetireAll(c, RetireWork(c, s, items[0], results[0]), items[1..], results[1..])
  }

  function FailBatch(s: Sched, items: seq<WorkItem>, e: ErrorCode): Sched
    decreases |items|
  {
    if items == [] then s else FailBatch(FailItem(s, items[0], e), items[1..], e)
  }

  // ---------------------------------------------------------------- cleanup

  predicate Spent(s: Sched, t: Ticket) {
    var r := Get(s, t);
    r.sched.Some? && r.status != Active && r.sched.value.res.leases == 0
  }

  function Reap(s: Sched, t: Ticket): Sched {
    var s1 := ReleaseScheduling(s, t);
    EraseRequest(s1.(running := DropTicket(s1.running, t), paused := false), t)
  }

  /** Releases the spent tickets of ts. */
  function ReapAll(s: Sched, ts: seq<Ticket>): Sched
    decreases |ts|
  {
    if ts == [] then s
    else ReapAll(if Spent(s, ts[0]) then Reap(s, ts[0]) else s, ts[1..])
  }

  /** Keeps the active tickets of ts; the others are released and forgotten. */
  datatype Swept = Swept(s: Sched, kept: seq<Ticket>)

  function Sweep(s: Sched, ts: seq<Ticket>): Swept
    decreases |ts|
  {
    if ts == [] then Swept(s, [])
    else if Get(s, ts[0]).status == Active then
      var w := Sweep(s, ts[1..]); Swept(w.s, [ts[0]] + w.kept)
    else Sweep(EraseRequest(ReleaseScheduling(s, ts[0]), ts[0]), ts[1..])
  }

  function CleanupTerminal(s: Sched): Sched {
    var s1 := ReapAll(s, s.running);
    var w := Sweep(s1.(skip := []), s1.skip);
    var s2 := w.s.(skip := w.kept);
    var v := Sweep(s2.(waiting := []), s2.waiting);
    v.s.(waiting := v.kept)
  }

  function FindMovable(s: Sched, ts: seq<Ticket>): (r: Option<Ticket>)
    ensures r.Some? ==> r.value in ts && Movable(s, r.value)
    decreases |ts|
  {
    if ts == [] then None
    else if Movable(s, ts[|ts| - 1]) then Some(ts[|ts| - 1])
    else FindMovable(s, ts[..|ts| - 1])
  }

  function Preempt(s: Sched): Sched {
    var v := FindMovable(s, s.running);
    if v.None? then s
    else
      s.(bySeq := s.bySeq - {Get(s, v.value).sched.value.seqId},
         running := DropTicket(s.running, v.value),
         skip := [v.value] + s.skip)
  }

  function FailWaiting(s: Sched, e: ErrorCode): Sched
    decreases |s.waiting|
  {
    if s.waiting == [] then s
    else
      var s1 := s.(waiting := s.waiting[1..]);
      DismissQueues(s1, s.waiting[0], ErrorEvent(e));
      FailWaiting(Dismiss(s1, s.waiting[0], ErrorEvent(e)), e)
  }

  function FailSkipped(s: Sched, e: ErrorCode): Sched
    decreases |s.skip|
  {
    if s.skip == [] then s
    else
      var s1 := s.(skip := s.skip[1..]);
      DismissQueues(s1, s.skip[0], ErrorEvent(e));
      FailSkipped(Dismiss(s1, s.skip[0], ErrorEvent(e)), e)
  }

  function FailAllWaiting(s: Sched, e: ErrorCode): Sched {
    FailSkipped(FailWaiting(s, e), e)
  }

  function Terminate(s: Sched, t: Ticket, e: ErrorCode): Sched {
    if Get(s, t).sched.None? then s
    else
      var s1 := if Get(s, t).status == Active then SendError(s, t, e) else s;
      var s2 := ReleaseScheduling(s1, t);
      EraseRequest(s2.(running := DropTicket(s2.running, t)), t)
  }

  function TerminateAll(s: Sched, ts: seq<Ticket>, e: ErrorCode): Sched
    decreases |ts|
  {
    if ts == [] then s else TerminateAll(Terminate(s, ts[0], e), ts[1..], e)
  }

  function CleanupAllRunning(s: Sched, e: ErrorCode): Sched {
    TerminateAll(s, s.running, e)
  }

  function HasSchedulableWork(c: Config, s: Sched): bool {
    (s.skip != [] && |s.running| < c.maxRunning) || exists t | t in s.running :: WantsWork(s, t)
  }

  predicate WantsWork(s: Sched, t: Ticket) {
    var r := Get(s, t);
    && r.sched.Some? && r.status == Active
    && var q := r.sched.value;
       if IsPrefill(q.phase) then q.cursor + q.res.prompt < |r.prompt|
       else |r.generated| + q.res.gen < r.maxTokens && (q.phase != Bootstrap || q.res.gen == 0)
  }
}
