/**
 No client is left waiting: whenever a request stops being active, its client has been told, or has
 cancelled the request or gone away. Requests cancelled by their client may be dropped in silence.
 */
module AnswerLemmas {
  import opened Types
  import opened Blocks
  import opened Hashing
  import opened State
  import opened Scheduling
  import opened Protocol
  import opened RetireLemmas
  import opened ProtocolSteps

  /** The last event the client heard is terminal. */
  predicate Told(s: Sched, t: Ticket) {
    LogOf(s, t) != [] && Terminal(LogOf(s, t)[|LogOf(s, t)| - 1])
  }

  predicate Acknowledged(s: Sched, t: Ticket) {
    t in s.hist.excused || Told(s, t)
  }

  predicate Ongoing(s: Sched, t: Ticket) {
    t in s.objs && s.objs[t].status == Active
  }

  /** Every request is active or settled; a request whose client went away or cancelled is excused. */
  ghost predicate Heard(s: Sched) {
    && (forall t: Ticket :: t < s.nextTicket ==> Ongoing(s, t) || Acknowledged(s, t))
    && (forall t :: t in s.objs ==> Excusable(s, t))
    && (forall t :: t in s.hist.excused ==> t < s.nextTicket)
  }

  predicate Excusable(s: Sched, t: Ticket)
    requires t in s.objs
  {
    !s.objs[t].open || s.objs[t].status == Cancelled ==> t in s.hist.excused
  }

  /** Nothing a client or its request can notice changes. */
  lemma HeardSame(s: Sched, s': Sched)
    requires Heard(s) && s'.objs == s.objs && s'.log == s.log && s'.nextTicket == s.nextTicket
        && s'.hist.excused == s.hist.excused
    ensures Heard(s')
  {
    forall t: Ticket | t < s'.nextTicket ensures Ongoing(s', t) || Acknowledged(s', t) {
      assert Ongoing(s, t) || Acknowledged(s, t);
    }
    forall t | t in s'.objs ensures Excusable(s', t) { assert Excusable(s, t); }
  }

  /** One request changes; if it stops being active it is settled. */
  lemma HeardAt(s: Sched, s': Sched, t: Ticket)
    requires Heard(s) && s'.nextTicket == s.nextTicket && s.hist.excused <= s'.hist.excused
    requires forall u :: u != t ==> (u in s'.objs <==> u in s.objs) && (u in s.objs ==> s'.objs[u] == s.objs[u])
    requires forall u: Ticket :: u != t ==> LogOf(s', u) == LogOf(s, u)
    requires forall u :: u in s'.hist.excused ==> u in s.hist.excused || (u == t && t < s.nextTicket)
    requires Ongoing(s', t) || Acknowledged(s', t)
    requires t in s'.objs ==> Excusable(s', t)
    ensures Heard(s')
  {
    forall u: Ticket | u < s'.nextTicket ensures Ongoing(s', u) || Acknowledged(s', u) {
      assert Ongoing(s, u) || Acknowledged(s, u);
    }
    forall u | u in s'.objs ensures Excusable(s', u) {
      if u != t { assert Excusable(s, u); }
    }
  }

  lemma HeardPut(s: Sched, t: Ticket, r: Request)
    requires Heard(s) && t in s.objs && r.open == s.objs[t].open && r.status == s.objs[t].status
    ensures Heard(Put(s, t, r))
  {
    assert Excusable(s, t);
    var s' := Put(s, t, r);
    forall u: Ticket | u < s'.nextTicket ensures Ongoing(s', u) || Acknowledged(s', u) {
      assert Ongoing(s, u) || Acknowledged(s, u);
    }
    forall u | u in s'.objs ensures Excusable(s', u) { assert Excusable(s, u); }
  }

  // ---------------------------------------------------------------- events

  lemma SendSettles(s: Sched, t: Ticket, e: Event)
    requires Heard(s) && t in s.objs && Terminal(e)
    ensures Heard(Send(s, t, e)) && Acknowledged(Send(s, t, e), t) && Send(s, t, e).objs == s.objs
  {
    assert Excusable(s, t);
    var s' := Send(s, t, e);
    assert Acknowledged(s', t);
    HeardAt(s, s', t);
  }

  lemma HeardDone(s: Sched, t: Ticket)
    requires Heard(s) && t in s.objs
    ensures Heard(SendDone(s, t)) && Acknowledged(SendDone(s, t), t)
  {
    assert Excusable(s, t);
    HeardAt(s, SendDone(s, t), t);
  }

  lemma HeardError(s: Sched, t: Ticket, e: ErrorCode)
    requires Heard(s) && t in s.objs
    ensures Heard(SendError(s, t, e)) && Acknowledged(SendError(s, t, e), t)
  {
    assert Excusable(s, t);
    HeardAt(s, SendError(s, t, e), t);
  }

  lemma HeardErase(s: Sched, t: Ticket)
    requires Heard(s) && Acknowledged(s, t)
    ensures Heard(EraseRequest(s, t))
  {
    HeardAt(s, EraseRequest(s, t), t);
  }

  lemma HeardRelease(s: Sched, t: Ticket)
    requires Heard(s) && t in s.objs
    ensures Heard(ReleaseScheduling(s, t)) && t in ReleaseScheduling(s, t).objs
    ensures Acknowledged(s, t) ==> Acknowledged(ReleaseScheduling(s, t), t)
    ensures ReleaseScheduling(s, t).objs[t].status == s.objs[t].status
  {
    hide ReleaseTable;
    var s' := ReleaseScheduling(s, t);
    assert Excusable(s, t);
    assert t < s'.nextTicket && !Ongoing(s, t) ==> Acknowledged(s, t);
    forall u: Ticket | u < s'.nextTicket ensures Ongoing(s', u) || Acknowledged(s', u) {
      assert Ongoing(s, u) || Acknowledged(s, u);
    }
    forall u | u in s'.objs ensures Excusable(s', u) { assert Excusable(s, u); }
  }

  lemma HeardDismiss(s: Sched, t: Ticket, e: Event)
    requires Heard(s) && t in s.objs && Terminal(e)
    ensures Heard(Dismiss(s, t, e))
  {
    hide Heard, ReleaseScheduling, Send, EraseRequest, Acknowledged;
    HeardRelease(s, t);
    SendSettles(ReleaseScheduling(s, t), t, e);
    HeardErase(Send(ReleaseScheduling(s, t), t, e), t);
  }

  // ---------------------------------------------------------------- building and admission

  lemma HeardTake(s: Sched, n: nat)
    requires Heard(s)
    ensures Heard(TakeBlocks(s, n).s) && TakeBlocks(s, n).s.objs == s.objs
  {
    hide AllocateKv;
    HeardSame(s, TakeBlocks(s, n).s);
  }

  lemma HeardBuildPrefill(c: Config, g: Stage, t: Ticket, q: Sequence)
    requires Heard(g.s) && t in g.s.objs
    ensures Heard(BuildPrefill(c, g, t, g.s.objs[t], q).s)
  {
    hide Heard, NextChunk, Reserve;
    var r := g.s.objs[t];
    if q.cursor + q.res.prompt < |r.prompt| {
      var item := NextChunk(c, r, q, g.budget);
      var s1 := Put(g.s, t, r.(sched := Some(Reserve(q, item))));
      HeardPut(g.s, t, s1.objs[t]);
      HeardSame(s1, BuildPrefill(c, g, t, r, q).s);
    }
  }

  lemma HeardBuildDecode(c: Config, g: Stage, t: Ticket, q: Sequence)
    requires Heard(g.s) && t in g.s.objs && g.budget > 0
    ensures Heard(BuildDecode(c, g, t, g.s.objs[t], q).s)
  {
    hide Heard, TakeBlocks, NextDecode, Reserve, SendDone, MissingBlocks, Acknowledged;
    var r := g.s.objs[t];
    HeardDone(g.s, t);
    var n := MissingBlocks(c, q);
    HeardTake(g.s, n);
    var k := TakeBlocks(g.s, n);
    HeardSame(k.s, k.s.(shortage := true));
    var q1 := q.(table := q.table + k.table);
    HeardPut(k.s, t, r.(sched := Some(Reserve(q1, NextDecode(r, q1)))));
  }

  lemma HeardBuildWork(c: Config, g: Stage, t: Ticket)
    requires Heard(g.s)
    ensures Heard(BuildWork(c, g, t).s)
  {
    hide Heard, BuildPrefill, BuildDecode, SendDone, Acknowledged;
    if t in g.s.objs && g.s.objs[t].sched.Some? && g.budget > 0 {
      HeardDone(g.s, t);
      HeardBuildPrefill(c, g, t, g.s.objs[t].sched.value);
      HeardBuildDecode(c, g, t, g.s.objs[t].sched.value);
    }
  }

  lemma {:induction false} HeardBuildAll(c: Config, g: Stage, ts: seq<Ticket>)
    requires Heard(g.s)
    ensures Heard(BuildAll(c, g, ts).s)
    decreases |ts|
  {
    hide Heard, BuildWork;
    if ts != [] && g.budget != 0 {
      HeardBuildWork(c, g, ts[0]);
      HeardBuildAll(c, BuildWork(c, g, ts[0]), ts[1..]);
    }
  }

  lemma HeardToWait(s: Sched, t: Ticket)
    requires Heard(s) && t in s.objs
    ensures Heard(ReleaseScheduling(Put(s, t, PrepareForWait(s.objs[t])), t))
  {
    hide Heard, ReleaseScheduling, Acknowledged;
    var r := PrepareForWait(s.objs[t]);
    HeardPut(s, t, r);
    HeardRelease(Put(s, t, r), t);
  }

  lemma HeardMakeRoom(s: Sched)
    requires Heard(s) && forall t :: t in s.skip || t in s.running ==> t in s.objs
    ensures Heard(MakeRoom(s))
  {
    hide Heard, ReleaseScheduling, PrepareForWait, FindVictim;
    if s.skip != [] {
      var t := s.skip[0];
      var s1 := s.(skip := s.skip[1..]);
      HeardSame(s, s1);
      HeardToWait(s1, t);
      var s2 := if Get(s1, t).sched.None? then s1 else ReleaseScheduling(Put(s1, t, PrepareForWait(s1.objs[t])), t);
      HeardSame(s2, MakeRoom(s));
    } else {
      var v := FindVictim(s);
      if v.Some? {
        HeardToWait(s, v.value);
        HeardSame(ReleaseScheduling(Put(s, v.value, PrepareForWait(s.objs[v.value])), v.value), MakeRoom(s));
      }
    }
  }

  lemma HeardAdmitSkipped(c: Config, g: Stage, raised: bool)
    requires Heard(g.s) && forall t :: t in g.s.skip ==> t in g.s.objs
    ensures Heard(AdmitSkipped(c, g, raised).g.s)
  {
    hide Heard, Dismiss, BuildWork, ReleaseScheduling, SendDone, EraseRequest, Acknowledged;
    if g.s.skip != [] {
      var t := g.s.skip[0];
      var s := g.s.(skip := g.s.skip[1..]);
      var s1 := s.(accepting := s.accepting && !raised);
      HeardSame(g.s, s);
      HeardSame(g.s, s1);
      HeardSame(g.s, s.(waiting := [t] + s.waiting));
      HeardDismiss(s, t, ErrorEvent(RequestCancelled));
      HeardDismiss(s, t, DoneEvent);
      HeardDismiss(s1, t, ErrorEvent(ServerShuttingDown));
      HeardRelease(s1, t);
      HeardDone(ReleaseScheduling(s1, t), t);
      HeardErase(SendDone(ReleaseScheduling(s1, t), t), t);
      var r := g.s.objs[t];
      if r.sched.Some? {
        var s2 := s1.(bySeq := s1.bySeq[r.sched.value.seqId := t], running := s1.running + [t]);
        HeardSame(g.s, s2);
        HeardBuildWork(c, g.(s := s2), t);
      }
    }
  }

  lemma HeardRebuff(s: Sched, t: Ticket, table: seq<BlockId>)
    requires Heard(s) && forall t :: t in s.skip || t in s.running ==> t in s.objs
    ensures Heard(Rebuff(s, t, table))
  {
    hide Heard, MakeRoom, ReleaseTable;
    var s0 := s.(blocks := ReleaseTable(s.blocks, table));
    HeardSame(s, s0);
    HeardMakeRoom(s0);
    HeardSame(MakeRoom(s0), Rebuff(s, t, table));
  }

  lemma HeardTurnAway(s: Sched, t: Ticket, table: seq<BlockId>)
    requires Heard(s) && t in s.objs
    ensures Heard(TurnAway(s, t, table))
  {
    hide Heard, ReleaseTable, Send, EraseRequest, Acknowledged;
    var s1 := s.(blocks := ReleaseTable(s.blocks, table));
    HeardSame(s, s1);
    SendSettles(s1, t, ErrorEvent(ServerShuttingDown));
    HeardErase(Send(s1, t, ErrorEvent(ServerShuttingDown)), t);
  }

  lemma HeardEnlist(c: Config, s: Sched, t: Ticket, hits: nat, parent: Hash, table: seq<BlockId>)
    requires Heard(s) && t in s.objs
    ensures Heard(Enlist(c, s, t, s.objs[t], hits, parent, table))
  {
    hide Heard, Admitted;
    var r := s.objs[t].(sched := Some(Admitted(c, s, s.objs[t], hits, parent, table)));
    HeardPut(s, t, r);
    HeardSame(Put(s, t, r), Enlist(c, s, t, s.objs[t], hits, parent, table));
  }

  lemma HeardGranted(c: Config, g: Stage, s: Sched, t: Ticket, hits: nat, parent: Hash, table: seq<BlockId>)
    requires Heard(s) && t in s.objs
    ensures Heard(AdmitGranted(c, g, s, t, s.objs[t], hits, parent, table).g.s)
  {
    hide Heard, Enlist, BuildWork, TurnAway;
    HeardTurnAway(s, t, table);
    HeardEnlist(c, s, t, hits, parent, table);
    HeardBuildWork(c, g.(s := Enlist(c, s, t, s.objs[t], hits, parent, table)), t);
  }

  lemma LookedFrame(c: Config, s: Sched, prompt: seq<Token>, n: nat)
    ensures var s' := TakeBlocks(Looked(c, s, prompt), n).s;
      s'.skip == s.skip && s'.running == s.running && s'.objs == s.objs
  {
    hide AllocateKv, LookupPrefix, ChainHashes, BlockPrefixes;
  }

  lemma HeardAdmitPrompt(c: Config, g: Stage, t: Ticket, raised: bool)
    requires Heard(g.s) && t in g.s.objs && forall u :: u in g.s.skip || u in g.s.running ==> u in g.s.objs
    ensures Heard(AdmitPrompt(c, g, t, g.s.objs[t], raised).g.s)
  {
    hide Heard, HitTable, ParentOf, TakeBlocks, Rebuff, AdmitGranted, Sub, BlocksFor, LookupPrefix, ChainHashes,
        BlockPrefixes;
    var r := g.s.objs[t];
    var s1 := Looked(c, g.s, r.prompt);
    HeardSame(g.s, s1);
    hide Looked;
    var hit := HitTable(c, g.s, r.prompt);
    var n := Sub(BlocksFor(c, |r.prompt|), |hit|);
    HeardTake(s1, n);
    LookedFrame(c, g.s, r.prompt, n);
    var k := TakeBlocks(s1, n);
    HeardRebuff(k.s, t, hit);
    var s2 := k.s.(accepting := k.s.accepting && !raised);
    HeardSame(k.s, s2);
    HeardGranted(c, g, s2, t, |hit|, ParentOf(c, r.prompt, |hit|), hit + k.table);
  }

  lemma HeardAdmitWaiting(c: Config, g: Stage, raised: bool)
    requires Heard(g.s) && forall u :: u in g.s.skip || u in g.s.running || u in g.s.waiting ==> u in g.s.objs
    ensures Heard(AdmitWaiting(c, g, raised).g.s)
  {
    hide Heard, Dismiss, AdmitPrompt;
    if g.s.waiting != [] {
      var t := g.s.waiting[0];
      var s := g.s.(waiting := g.s.waiting[1..]);
      HeardSame(g.s, s);
      HeardDismiss(s, t, ErrorEvent(RequestCancelled));
      HeardDismiss(s, t, DoneEvent);
      HeardDismiss(s, t, ErrorEvent(InvalidArgument));
      HeardAdmitPrompt(c, g.(s := s), t, raised);
    }
  }

  // ---------------------------------------------------------------- results

  lemma {:induction false} PublishExcused(c: Config, s: Sched, q: Sequence, i: nat)
    ensures PublishPending(c, s, q, i).s.hist.excused == s.hist.excused
    decreases |q.pending|
  {
    if 0 < c.blockSize <= |q.pending| && i < |q.table| {
      StepFrame(c, s, q, i);
      StepExcused(c, s, q, i);
      hide PublishStep;
      PublishExcused(c, PublishStep(c, s, q, i).s, PublishStep(c, s, q, i).q, i + 1);
    }
  }

  lemma StepExcused(c: Config, s: Sched, q: Sequence, i: nat)
    requires 0 < c.blockSize <= |q.pending| && i < |q.table|
    ensures PublishStep(c, s, q, i).s.hist.excused == s.hist.excused
  {
    hide Chain, Publish;
  }

  lemma HeardHashed(c: Config, s: Sched, r: Request, q: Sequence, x: WorkItem)
    requires Heard(s)
    ensures Heard(HashWritten(c, s, r, q, x).s) && HashWritten(c, s, r, q, x).s.objs == s.objs
  {
    hide Heard, PublishPending, WrittenTokens;
    HashFrame(c, s, r, q, x);
    if KvCount(x) > 0 && c.blockSize > 0 {
      PublishExcused(c, s, q.(pending := q.pending + WrittenTokens(r, x)), Sub(x.context, |q.pending|) / c.blockSize);
    }
    HeardSame(s, HashWritten(c, s, r, q, x).s);
  }

  /** The token event is terminal exactly when the request is finished. */
  lemma TokenSent(s: Sched, t: Ticket)
    requires t in s.objs
    ensures var s' := SendToken(s, t); var r := s.objs[t];
      && (forall u: Ticket :: u != t ==> LogOf(s', u) == LogOf(s, u))
      && (r.open && r.status == Finished ==> Told(s', t))
  {
  }

  lemma DoneSent(s: Sched, t: Ticket)
    requires t in s.objs
    ensures var s' := SendDone(s, t);
      && (forall u: Ticket :: u != t ==> LogOf(s', u) == LogOf(s, u))
      && (s.objs[t].open ==> Told(s', t))
  {
  }

  lemma DeliverHeard(s: Sched, t: Ticket, r: Request, q: Sequence, result: ItemResult)
    requires t in s.objs
    ensures var s' := Deliver(s, t, r, q, result); var r' := Delivered(r, q, result);
      && (forall u: Ticket :: u != t ==> LogOf(s', u) == LogOf(s, u))
      && (r.open && r'.status == Finished && r.status == Active ==> Told(s', t))
  {
    hide SendToken, SendDone, Told, LogOf;
    var sampled := result.sampled != [];
    var generated := if sampled then r.generated + [result.sampled[0]] else r.generated;
    var finished := result.eos || |generated| >= r.maxTokens;
    var phase := if sampled && q.phase == Bootstrap then Decode else q.phase;
    var r1 := r.(generated := generated, status := if finished then Finished else r.status,
                 sched := Some(q.(phase := phase)));
    var s1 := Put(s, t, r1);
    LogsKept(s, s1);
    TokenSent(s1, t);
    DoneSent(s1, t);
  }

  lemma LogsKept(s: Sched, s': Sched)
    requires s'.log == s.log
    ensures forall u: Ticket :: LogOf(s', u) == LogOf(s, u)
  {
  }

  lemma HeardDeliver(s: Sched, t: Ticket, r: Request, q: Sequence, result: ItemResult)
    requires Heard(s) && t in s.objs && r.status == Active && r.open == s.objs[t].open
    ensures Heard(Deliver(s, t, r, q, result))
  {
    hide Deliver, LogOf, Told;
    assert Excusable(s, t);
    DeliverHeard(s, t, r, q, result);
    DeliverPlaces(s, t, r, q, result);
    HeardAt(s, Deliver(s, t, r, q, result), t);
  }

  lemma HeardRetireActive(c: Config, s: Sched, t: Ticket, x: WorkItem, result: ItemResult)
    requires Heard(s) && Ongoing(s, t)
    ensures Heard(RetireActive(c, s, t, x, result))
  {
    hide Heard, HashWritten, Deliver, Advance;
    var r := s.objs[t];
    if r.sched.Some? {
      var q := Advance(r, r.sched.value, x);
      HeardPut(s, t, r.(sched := Some(q)));
      HeardHashed(c, s, r, q, x);
      var p := HashWritten(c, s, r, q, x);
      HeardDeliver(p.s, t, r, p.q, result);
    }
  }

  lemma HeardRetire(c: Config, s: Sched, x: WorkItem, result: ItemResult)
    requires Heard(s) && (result.seqId in s.bySeq ==> s.bySeq[result.seqId] in s.objs)
    ensures Heard(RetireWork(c, s, x, result))
  {
    hide Heard, RetireActive, RetireReservation;
    if result.seqId in s.bySeq {
      var t := s.bySeq[result.seqId];
      RetireKeeps(s.objs[t], x);
      var s1 := Put(s, t, RetireReservation(s.objs[t], x));
      HeardPut(s, t, s1.objs[t]);
      if s1.objs[t].status == Active { HeardRetireActive(c, s1, t, x, result); }
    }
  }

  lemma HeardFail(s: Sched, x: WorkItem, e: ErrorCode)
    requires Heard(s) && (x.seqId in s.bySeq ==> s.bySeq[x.seqId] in s.objs)
    ensures Heard(FailItem(s, x, e))
  {
    hide Heard, SendError, RetireReservation, Acknowledged;
    if x.seqId in s.bySeq {
      var t := s.bySeq[x.seqId];
      RetireKeeps(s.objs[t], x);
      var s1 := Put(s, t, RetireReservation(s.objs[t], x));
      HeardPut(s, t, s1.objs[t]);
      HeardError(s1, t, e);
    }
  }

  // ---------------------------------------------------------------- cleanup

  lemma HeardDrop(s: Sched, t: Ticket)
    requires Heard(s) && t in s.objs && t < s.nextTicket && s.objs[t].status != Active
    ensures Heard(EraseRequest(ReleaseScheduling(s, t), t))
  {
    assert Ongoing(s, t) || Acknowledged(s, t);
    hide Heard, ReleaseScheduling, EraseRequest, Acknowledged;
    HeardRelease(s, t);
    HeardErase(ReleaseScheduling(s, t), t);
  }

  lemma HeardReap(s: Sched, t: Ticket)
    requires Heard(s) && t in s.objs && t < s.nextTicket && s.objs[t].status != Active
    ensures Heard(Reap(s, t))
  {
    hide Heard, ReleaseScheduling;
    HeardDrop(s, t);
    HeardSame(EraseRequest(ReleaseScheduling(s, t), t), Reap(s, t));
  }

  lemma HeardTerminate(s: Sched, t: Ticket, e: ErrorCode)
    requires Heard(s) && t in s.objs && t < s.nextTicket
    ensures Heard(Terminate(s, t, e))
  {
    hide Heard, ReleaseScheduling, SendError, Acknowledged;
    if s.objs[t].sched.Some? {
      HeardError(s, t, e);
      ErrorStatus(s, t, e);
      var s1 := if s.objs[t].status == Active then SendError(s, t, e) else s;
      HeardDrop(s1, t);
      HeardSame(EraseRequest(ReleaseScheduling(s1, t), t), Terminate(s, t, e));
    }
  }

  lemma ErrorStatus(s: Sched, t: Ticket, e: ErrorCode)
    ensures t in SendError(s, t, e).objs && SendError(s, t, e).objs[t].status == Failed
    ensures SendError(s, t, e).nextTicket == s.nextTicket
  {
  }

  lemma {:induction false} HeardSweep(s: Sched, ts: seq<Ticket>)
    requires Heard(s) && forall t :: t in ts ==> t < s.nextTicket
    ensures Heard(Sweep(s, ts).s)
    decreases |ts|
  {
    hide Heard, ReleaseScheduling;
    if ts != [] {
      var t := ts[0];
      assert t in ts && forall u :: u in ts[1..] ==> u in ts;
      if Get(s, t).status == Active {
        HeardSweep(s, ts[1..]);
      } else {
        if t in s.objs { HeardDrop(s, t); } else { NothingToDrop(s, t); }
        ReleaseTicket(s, t);
        HeardSweep(EraseRequest(ReleaseScheduling(s, t), t), ts[1..]);
      }
    }
  }

  lemma ReleaseTicket(s: Sched, t: Ticket)
    ensures ReleaseScheduling(s, t).nextTicket == s.nextTicket
  {
  }

  lemma NothingToDrop(s: Sched, t: Ticket)
    requires Heard(s) && t !in s.objs
    ensures Heard(EraseRequest(ReleaseScheduling(s, t), t))
  {
    hide ReleaseTable;
    var s' := EraseRequest(ReleaseScheduling(s, t), t);
    assert s'.objs == s.objs;
    HeardSame(s, s');
  }

  // ---------------------------------------------------------------- clients

  lemma HeardRefuse(s: Sched, open: bool, e: ErrorCode)
    requires Heard(s) && s.nextTicket !in s.objs
    ensures Heard(Refuse(s, open, e))
  {
    var s' := Refuse(s, open, e);
    forall u: Ticket | u < s'.nextTicket ensures Ongoing(s', u) || Acknowledged(s', u) {
      if u < s.nextTicket { assert Ongoing(s, u) || Acknowledged(s, u); }
    }
    forall u | u in s'.objs ensures Excusable(s', u) { assert Excusable(s, u); }
  }

  lemma HeardAccept(s: Sched, r: Request)
    requires Heard(s) && s.nextTicket !in s.objs && r.status == Active
    ensures Heard(Accept(s, r))
  {
    var s' := Accept(s, r);
    forall u: Ticket | u < s'.nextTicket ensures Ongoing(s', u) || Acknowledged(s', u) {
      if u < s.nextTicket { assert Ongoing(s, u) || Acknowledged(s, u); }
    }
    forall u | u in s'.objs ensures Excusable(s', u) {
      if u != s.nextTicket { assert Excusable(s, u); }
    }
  }

  lemma HeardSubmit(c: Config, s: Sched, id: string, prompt: seq<Token>, maxTokens: int, maxContext: int, open: bool)
    requires Heard(s) && s.nextTicket !in s.objs
    ensures Heard(Submit(c, s, id, prompt, maxTokens, maxContext, open))
  {
    hide Heard, Refuse, Accept;
    HeardRefuse(s, open, ServerShuttingDown);
    HeardRefuse(s, open, InvalidArgument);
    HeardRefuse(s, open, RequestQueueFull);
    HeardAccept(s, Request(id, prompt, prompt, Active, [], maxTokens,
                           if maxContext <= 0 then c.defaultContext else maxContext, open, None));
  }

  lemma HeardExcuse(s: Sched, s': Sched, t: Ticket)
    requires Heard(s) && s'.nextTicket == s.nextTicket && s'.log == s.log
    requires s'.hist.excused == s.hist.excused + {t} && t < s.nextTicket
    requires forall u :: u != t ==> (u in s'.objs <==> u in s.objs) && (u in s.objs ==> s'.objs[u] == s.objs[u])
    ensures Heard(s')
  {
    LogsKept(s, s');
    hide LogOf;
    HeardAt(s, s', t);
  }

  lemma HeardCancel(s: Sched, id: string)
    requires Heard(s) && (id in s.registry ==> s.registry[id] < s.nextTicket)
    ensures Heard(Cancel(s, id))
  {
    hide Heard;
    if id in s.registry {
      HeardExcuse(s, Cancel(s, id), s.registry[id]);
    } else {
      HeardSame(s, Cancel(s, id));
    }
  }

  lemma HeardHangup(s: Sched, t: Ticket)
    requires Heard(s) && (t in s.objs ==> t < s.nextTicket)
    ensures Heard(Hangup(s, t))
  {
    hide Heard;
    if t < s.nextTicket {
      HeardExcuse(s, Hangup(s, t), t);
    } else {
      HeardSame(s, Hangup(s, t));
    }
  }
}
