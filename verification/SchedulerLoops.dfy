/** One round of the scheduler's loops at a time, for the methods that run them. */
module SchedulerLoops {
  import opened Types
  import opened Seqs
  import opened Blocks
  import opened Hashing
  import opened State
  import opened Scheduling

  lemma NoRoom(s: Sched)
    ensures !EvictSkipped(s).made ==> EvictSkipped(s).s == s
  {
    hide ReleaseScheduling, PrepareForWait;
  }

  /** Granting blocks looks only at the batch, not at the scheduler inside the stage. */
  lemma AnyStage(c: Config, g: Stage, g': Stage, s: Sched, t: Ticket, r: Request, hits: nat, parent: Hash,
          table: seq<BlockId>)
    requires g'.items == g.items && g'.budget == g.budget
    ensures AdmitGranted(c, g, s, t, r, hits, parent, table) == AdmitGranted(c, g', s, t, r, hits, parent, table)
  {
    hide TurnAway, Enlist, BuildWork;
  }

  function PopSkip(g: Stage): Stage {
    g.(s := g.s.(skip := if g.s.skip == [] then [] else g.s.skip[1..]))
  }

  function PopWaiting(g: Stage): Stage {
    g.(s := g.s.(waiting := if g.s.waiting == [] then [] else g.s.waiting[1..]))
  }

  /** A skipped request that still wants to run, out of its queue. */
  function AdmitResumed(c: Config, g: Stage, t: Ticket, raised: bool): Stage {
    var r := Get(g.s, t);
    var s := g.s.(accepting := g.s.accepting && !raised);
    if !s.accepting || r.sched.None? then g.(s := Dismiss(s, t, ErrorEvent(ServerShuttingDown)))
    else if |r.generated| >= r.maxTokens then g.(s := EraseRequest(SendDone(ReleaseScheduling(s, t), t), t))
    else BuildWork(c, g.(s := s.(bySeq := s.bySeq[r.sched.value.seqId := t], running := s.running + [t])), t)
  }

  function SkippedTaken(c: Config, g: Stage, t: Ticket, raised: bool): Admission {
    var r := Get(g.s, t);
    if r.status == Cancelled then Admission(g.(s := Dismiss(g.s, t, ErrorEvent(RequestCancelled))), true)
    else if r.maxTokens <= 0 then Admission(g.(s := Dismiss(g.s, t, DoneEvent)), true)
    else if r.sched.None? then Admission(g.(s := g.s.(waiting := [t] + g.s.waiting)), false)
    else Admission(AdmitResumed(c, g, t, raised), true)
  }

  function WaitingTaken(c: Config, g: Stage, t: Ticket, raised: bool): Admission {
    var r := Get(g.s, t);
    if r.status == Cancelled then Admission(g.(s := Dismiss(g.s, t, ErrorEvent(RequestCancelled))), true)
    else if r.maxTokens <= 0 then Admission(g.(s := Dismiss(g.s, t, DoneEvent)), true)
    else if r.prompt == [] || |r.prompt| > r.maxContext || r.maxContext > Cap(c, c.maxBlocks) then
      Admission(g.(s := Dismiss(g.s, t, ErrorEvent(InvalidArgument))), true)
    else AdmitPrompt(c, g, t, r, raised)
  }

  lemma SkippedForm(c: Config, g: Stage, raised: bool)
    ensures AdmitSkipped(c, g, raised) ==
      if g.budget == 0 || g.s.skip == [] || |g.s.running| >= c.maxRunning then Admission(g, false)
      else SkippedTaken(c, PopSkip(g), g.s.skip[0], raised)
  {
    hide Dismiss, ReleaseScheduling, SendDone, EraseRequest, BuildWork;
  }

  lemma WaitingForm(c: Config, g: Stage, raised: bool)
    ensures AdmitWaiting(c, g, raised) ==
      if g.budget == 0 || g.s.waiting == [] || |g.s.running| >= c.maxRunning
         || |g.s.running| + |g.s.skip| >= c.maxSequences then Admission(g, false)
      else WaitingTaken(c, PopWaiting(g), g.s.waiting[0], raised)
  {
    hide Dismiss, AdmitPrompt, Cap;
  }

  lemma ChunkFits(c: Config, r: Request, q: Sequence, budget: nat)
    requires q.cursor + q.res.prompt < |r.prompt|
    ensures var item := NextChunk(c, r, q, budget); item.PrefillChunk? && |item.tokens| <= budget
  {
  }

  /** One round of the admission loop. */
  lemma AdmitNext(c: Config, g0: Stage, raises: seq<Raise>)
    ensures var raise := if raises == [] then Raise(false, false) else raises[0];
            var later := if raises == [] then [] else raises[1..];
            var g := g0.(s := g0.s.(accepting := g0.s.accepting && !raise.head));
            var stop := !g.s.accepting || g.s.paused || g.budget == 0 || |g.s.running| >= c.maxRunning
                        || (g.s.skip == [] && g.s.waiting == []);
            var a := if g.s.skip != [] then AdmitSkipped(c, g, raise.check) else Admission(g, false);
            var b := AdmitWaiting(c, a.g, raise.check);
            AdmitLoop(c, g0, raises) ==
              if stop then g
              else if a.again then AdmitLoop(c, a.g, later)
              else if a.g.s.waiting == [] then a.g
              else if b.again then AdmitLoop(c, b.g, later)
              else b.g
  {
    hide AdmitSkipped, AdmitWaiting;
  }

  lemma PublishNext(c: Config, s: Sched, q: Sequence, i: nat)
    ensures PublishPending(c, s, q, i) ==
      if c.blockSize == 0 || |q.pending| < c.blockSize || i >= |q.table| then Published(s, q)
      else PublishPending(c, PublishStep(c, s, q, i).s, PublishStep(c, s, q, i).q, i + 1)
    ensures c.blockSize > 0 && |q.pending| >= c.blockSize && i < |q.table| ==>
      |PublishStep(c, s, q, i).q.pending| < |q.pending| && PublishStep(c, s, q, i).q.table == q.table
  {
    hide Chain, Publish;
  }

  // ---------------------------------------------------------------- cleanup

  /** The tickets whose requests are over and have nothing in flight. */
  function SpentOf(s: Sched, ts: seq<Ticket>): seq<Ticket> {
    if ts == [] then []
    else if Spent(s, ts[0]) then [ts[0]] + SpentOf(s, ts[1..])
    else SpentOf(s, ts[1..])
  }

  function ReapEach(s: Sched, ts: seq<Ticket>): Sched
    decreases |ts|
  {
    if ts == [] then s else ReapEach(Reap(s, ts[0]), ts[1..])
  }

  lemma ReapNext(s: Sched, t: Ticket, ts: seq<Ticket>)
    ensures ReapEach(s, [t] + ts) == ReapEach(Reap(s, t), ts)
  {
    hide Reap;
    assert ([t] + ts)[1..] == ts;
  }

  lemma ReapNone(s: Sched)
    ensures ReapEach(s, []) == s
  {
  }

  lemma ReapOthers(s: Sched, t: Ticket, u: Ticket)
    requires u != t
    ensures Spent(Reap(s, t), u) == Spent(s, u)
  {
    hide ReleaseTable, DropTicket;
  }

  lemma {:induction false} SpentOthers(s: Sched, t: Ticket, ts: seq<Ticket>)
    requires t !in ts
    ensures SpentOf(Reap(s, t), ts) == SpentOf(s, ts)
    decreases |ts|
  {
    hide Reap, Spent;
    if ts != [] {
      ReapOthers(s, t, ts[0]);
      SpentOthers(s, t, ts[1..]);
    }
  }

  /** Collecting the spent requests first and releasing them afterwards is releasing them on the way. */
  lemma {:induction false} SpentFirst(s: Sched, ts: seq<Ticket>)
    requires NoDup(ts)
    ensures ReapEach(s, SpentOf(s, ts)) == ReapAll(s, ts)
    decreases |ts|
  {
    hide Reap, Spent;
    if ts != [] {
      var t, later := ts[0], ts[1..];
      assert NoDup(later) && t !in later;
      if Spent(s, t) {
        SpentOthers(s, t, later);
        SpentFirst(Reap(s, t), later);
        ReapNext(s, t, SpentOf(s, later));
      } else {
        SpentFirst(s, later);
      }
    }
  }

  lemma SweepNext(s: Sched, t: Ticket, ts: seq<Ticket>)
    ensures Sweep(s, [t] + ts) ==
      if Get(s, t).status == Active then Swept(Sweep(s, ts).s, [t] + Sweep(s, ts).kept)
      else Sweep(EraseRequest(ReleaseScheduling(s, t), t), ts)
  {
    hide EraseRequest, ReleaseScheduling;
    assert ([t] + ts)[1..] == ts;
  }

  lemma SweepNone(s: Sched)
    ensures Sweep(s, []) == Swept(s, [])
  {
  }

  lemma MovableNone(s: Sched)
    ensures FindMovable(s, []) == None
  {
  }

  lemma MovableNext(s: Sched, ts: seq<Ticket>, t: Ticket)
    ensures FindMovable(s, ts + [t]) == if Movable(s, t) then Some(t) else FindMovable(s, ts)
  {
    assert (ts + [t])[..|ts|] == ts;
  }

  lemma FailWaitingNext(s: Sched, e: ErrorCode)
    ensures FailWaiting(s, e) ==
      if s.waiting == [] then s else FailWaiting(Dismiss(s.(waiting := s.waiting[1..]), s.waiting[0], ErrorEvent(e)), e)
  {
    hide Dismiss;
  }

  lemma FailSkippedNext(s: Sched, e: ErrorCode)
    ensures FailSkipped(s, e) ==
      if s.skip == [] then s else FailSkipped(Dismiss(s.(skip := s.skip[1..]), s.skip[0], ErrorEvent(e)), e)
  {
    hide Dismiss;
  }
}
