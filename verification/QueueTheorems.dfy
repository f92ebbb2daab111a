/**
 Nobody is overtaken: a scheduling step takes requests from the front of the waiting queue only, and puts in front of
 the rest only requests that ran, were set aside, or had been taken. A new request goes to the end.
 */
module QueueTheorems {
  import opened Types
  import opened Blocks
  import opened Hashing
  import opened State
  import opened Scheduling

  /** Ran, was set aside, or was among the first k that waited. */
  predicate Ahead(s: Sched, k: nat, t: Ticket)
    requires k <= |s.waiting|
  {
    t in s.running || t in s.skip || t in s.waiting[..k]
  }

  ghost predicate TookFirst(s: Sched, s': Sched, k: nat, front: seq<Ticket>) {
    && k <= |s.waiting| && s'.waiting == front + s.waiting[k..]
    && forall t :: t in front || t in s'.running || t in s'.skip ==> Ahead(s, k, t)
  }

  ghost predicate InTurn(s: Sched, s': Sched) {
    exists k: nat, front: seq<Ticket> :: TookFirst(s, s', k, front)
  }

  lemma TookLittle(a: Sched, b: Sched, c: Sched, k: nat, front: seq<Ticket>, k': nat, front': seq<Ticket>)
    requires TookFirst(a, b, k, front) && TookFirst(b, c, k', front') && k' <= |front|
    ensures TookFirst(a, c, k, front' + front[k'..])
  {
    assert (front + a.waiting[k..])[k'..] == front[k'..] + a.waiting[k..];
    assert front' + (front[k'..] + a.waiting[k..]) == (front' + front[k'..]) + a.waiting[k..];
    assert b.waiting[..k'] == front[..k'];
    hide Ahead;
    forall t | t in front' + front[k'..] || t in c.running || t in c.skip ensures Ahead(a, k, t) {
      if t !in front[k'..] {
        assert Ahead(b, k', t);
        AheadBefore(a, b, k, front, k', t);
      }
    }
  }

  lemma AheadBefore(a: Sched, b: Sched, k: nat, front: seq<Ticket>, k': nat, t: Ticket)
    requires TookFirst(a, b, k, front) && k' <= |front| && Ahead(b, k', t)
    ensures Ahead(a, k, t)
  {
    assert t in b.waiting[..k'] ==> t in front;
  }

  lemma TookMore(a: Sched, b: Sched, c: Sched, k: nat, front: seq<Ticket>, k': nat, front': seq<Ticket>)
    requires TookFirst(a, b, k, front) && TookFirst(b, c, k', front') && k' > |front|
    ensures TookFirst(a, c, k + k' - |front|, front')
  {
    var n := k + k' - |front|;
    assert (front + a.waiting[k..])[k'..] == a.waiting[n..];
    assert b.waiting[..k'] == front + a.waiting[k..n];
    hide Ahead;
    forall t | t in front' || t in c.running || t in c.skip ensures Ahead(a, n, t) {
      assert Ahead(b, k', t);
      AheadSince(a, b, k, front, k', n, t);
    }
  }

  lemma AheadSince(a: Sched, b: Sched, k: nat, front: seq<Ticket>, k': nat, n: nat, t: Ticket)
    requires TookFirst(a, b, k, front) && k' <= |b.waiting| && Ahead(b, k', t) && k <= n <= |a.waiting|
    requires b.waiting[..k'] == front + a.waiting[k..n]
    ensures Ahead(a, n, t)
  {
    FurtherAhead(a, k, n, t);
    assert a.waiting[..n] == a.waiting[..k] + a.waiting[k..n];
  }

  lemma FurtherAhead(s: Sched, k: nat, n: nat, t: Ticket)
    requires k <= n <= |s.waiting|
    ensures Ahead(s, k, t) ==> Ahead(s, n, t)
  {
    assert s.waiting[..k] == s.waiting[..n][..k];
  }

  lemma TurnTrans(a: Sched, b: Sched, c: Sched)
    requires InTurn(a, b) && InTurn(b, c)
    ensures InTurn(a, c)
  {
    hide TookFirst;
    var k: nat, front: seq<Ticket> :| TookFirst(a, b, k, front);
    var k': nat, front': seq<Ticket> :| TookFirst(b, c, k', front');
    if k' <= |front| { TookLittle(a, b, c, k, front, k', front'); } else { TookMore(a, b, c, k, front, k', front'); }
  }

  // ---------------------------------------------------------------- small moves

  lemma TurnSame(s: Sched, s': Sched)
    requires s'.waiting == s.waiting && forall t :: t in s'.running || t in s'.skip ==> t in s.running || t in s.skip
    ensures InTurn(s, s')
  {
    assert [] + s.waiting[0..] == s.waiting;
    assert TookFirst(s, s', 0, []);
  }

  /** The head was taken. */
  lemma TurnHead(s: Sched, s': Sched)
    requires s.waiting != [] && s'.waiting == s.waiting[1..]
    requires forall t :: t in s'.running || t in s'.skip ==> t in s.running || t in s.skip || t == s.waiting[0]
    ensures InTurn(s, s')
  {
    assert [] + s.waiting[1..] == s'.waiting && s.waiting[..1] == [s.waiting[0]];
    assert TookFirst(s, s', 1, []);
  }

  /** One that ran or was set aside goes in front. */
  lemma TurnBack(s: Sched, s': Sched, t: Ticket)
    requires s'.waiting == [t] + s.waiting && (t in s.running || t in s.skip)
    requires forall u :: u in s'.running || u in s'.skip ==> u in s.running || u in s.skip
    ensures InTurn(s, s')
  {
    assert [t] + s.waiting[0..] == s'.waiting;
    assert TookFirst(s, s', 0, [t]);
  }

  lemma {:induction false} Dropped(ts: seq<Ticket>, t: Ticket)
    ensures forall u :: u in DropTicket(ts, t) ==> u in ts
    decreases |ts|
  {
    if ts != [] && ts[0] != t { Dropped(ts[1..], t); }
  }

  lemma ReleasedQueues(s: Sched, t: Ticket)
    ensures var s' := ReleaseScheduling(s, t); s'.waiting == s.waiting && s'.running == s.running && s'.skip == s.skip
  {
    hide ReleaseTable;
  }

  lemma EvictedQueues(s: Sched)
    requires s.skip != []
    ensures var e := EvictSkipped(s);
      e.made && e.s.waiting == [s.skip[0]] + s.waiting && e.s.running == s.running && e.s.skip == s.skip[1..]
  {
    hide ReleaseScheduling, PrepareForWait, Get;
    var t := s.skip[0];
    var s1 := s.(skip := s.skip[1..]);
    ReleasedQueues(Put(s1, t, PrepareForWait(Get(s1, t))), t);
  }

  /** A shortage with requests set aside takes the blocks of the first of them, which waits in front; nothing else
      changes. */
  lemma SkippedGives(s: Sched)
    requires s.skip != []
    ensures var s' := MakeRoom(s); var t := s.skip[0];
      && s'.waiting == [t] + s.waiting && s'.skip == s.skip[1..] && s'.running == s.running
      && Get(s', t).sched.None? && Get(s', t).generated == Get(s, t).generated
      && (forall u :: u != t ==> Get(s', u) == Get(s, u))
  {
    EvictedQueues(s);
    var t := s.skip[0];
    var s1 := s.(skip := s.skip[1..]);
    ReleasedOne(Put(s1, t, PrepareForWait(Get(s1, t))), t);
    hide ReleaseScheduling;
  }

  lemma ReleasedOne(s: Sched, t: Ticket)
    ensures var s' := ReleaseScheduling(s, t);
      Get(s', t) == Get(s, t).(sched := None) && forall u :: u != t ==> Get(s', u) == Get(s, u)
  {
    hide ReleaseTable;
  }

  lemma SuspendedQueues(s: Sched)
    requires FindVictim(s).Some?
    ensures var t := FindVictim(s).value; var s' := SuspendRunning(s).s;
      s'.waiting == [t] + s.waiting && s'.running == DropTicket(s.running, t) && s'.skip == s.skip
  {
    hide ReleaseScheduling, PrepareForWait, Get, FindVictim, DropTicket;
    var t := FindVictim(s).value;
    ReleasedQueues(Put(s, t, PrepareForWait(Get(s, t))), t);
  }

  lemma MakeRoomTurn(s: Sched)
    ensures InTurn(s, MakeRoom(s))
  {
    TurnSame(s, s);
    if s.skip != [] {
      EvictedQueues(s);
      hide InTurn, EvictSkipped;
      TurnBack(s, MakeRoom(s), s.skip[0]);
    } else if FindVictim(s).Some? {
      SuspendedQueues(s);
      hide InTurn, SuspendRunning, DropTicket, FindVictim;
      Dropped(s.running, FindVictim(s).value);
      TurnBack(s, MakeRoom(s), FindVictim(s).value);
    }
  }

  // ---------------------------------------------------------------- admission

  lemma FinishedQueues(s: Sched, t: Ticket)
    ensures var s' := EraseRequest(SendDone(ReleaseScheduling(s, t), t), t);
      s'.waiting == s.waiting && s'.running == s.running && s'.skip == s.skip
  {
    hide ReleaseTable;
  }

  lemma SkippedTurn(c: Config, g: Stage, raised: bool)
    ensures InTurn(g.s, AdmitSkipped(c, g, raised).g.s)
  {
    hide InTurn, Dismiss, BuildWork, ReleaseScheduling, SendDone, EraseRequest;
    TurnSame(g.s, g.s);
    if g.budget != 0 && g.s.skip != [] && |g.s.running| < c.maxRunning {
      var t := g.s.skip[0];
      var s := g.s.(skip := g.s.skip[1..]);
      var s1 := s.(accepting := s.accepting && !raised);
      DismissAll(s, t, ErrorEvent(RequestCancelled));
      DismissAll(s, t, DoneEvent);
      DismissAll(s1, t, ErrorEvent(ServerShuttingDown));
      FinishedQueues(s1, t);
      var s' := AdmitSkipped(c, g, raised).g.s;
      if Get(g.s, t).status != Cancelled && Get(g.s, t).maxTokens > 0 && Get(g.s, t).sched.None? {
        TurnBack(g.s, s', t);
      } else {
        TurnSame(g.s, s');
      }
    }
  }

  lemma DismissAll(s: Sched, t: Ticket, e: Event)
    ensures var s' := Dismiss(s, t, e); s'.waiting == s.waiting && s'.running == s.running && s'.skip == s.skip
  {
    DismissQueues(s, t, e);
  }

  lemma TakenQueues(c: Config, s: Sched, prompt: seq<Token>, n: nat)
    ensures var s' := TakeBlocks(Looked(c, s, prompt), n).s;
      s'.waiting == s.waiting && s'.running == s.running && s'.skip == s.skip
  {
    hide AllocateKv, LookupPrefix, ChainHashes, BlockPrefixes, Leak;
  }

  lemma GrantedTurn(c: Config, g: Stage, s: Sched, t: Ticket, r: Request, hits: nat, parent: Hash, table: seq<BlockId>)
    ensures var s' := AdmitGranted(c, g, s, t, r, hits, parent, table).g.s;
      s'.waiting == s.waiting && s'.skip == s.skip && (s'.running == s.running || s'.running == s.running + [t])
  {
    hide ReleaseTable, BuildWork, Admitted, LogOf;
  }

  lemma RebuffTurn(s: Sched, t: Ticket, table: seq<BlockId>)
    ensures var s' := Rebuff(s, t, table); var s1 := s.(blocks := ReleaseTable(s.blocks, table));
      s'.waiting == [t] + MakeRoom(s1).waiting && s'.running == MakeRoom(s1).running && s'.skip == MakeRoom(s1).skip
  {
    hide MakeRoom, ReleaseTable;
  }

  /** The head did not fit: it waits in front again, behind nobody. */
  lemma RebuffedTurn(s: Sched, s1: Sched, s': Sched)
    requires s.waiting != [] && s1.waiting == s.waiting[1..] && s1.running == s.running && s1.skip == s.skip
    requires s'.waiting == [s.waiting[0]] + MakeRoom(s1).waiting
    requires s'.running == MakeRoom(s1).running && s'.skip == MakeRoom(s1).skip
    ensures InTurn(s, s')
  {
    hide MakeRoom;
    MakeRoomTurn(s1);
    var k: nat, front: seq<Ticket> :| TookFirst(s1, MakeRoom(s1), k, front);
    var t := s.waiting[0];
    assert s1.waiting[k..] == s.waiting[k + 1..] && s.waiting[..k + 1] == [t] + s1.waiting[..k];
    assert [t] + (front + s1.waiting[k..]) == ([t] + front) + s.waiting[k + 1..];
    forall u | u in [t] + front || u in s'.running || u in s'.skip ensures Ahead(s, k + 1, u) {
      assert u == t || Ahead(s1, k, u);
    }
    assert TookFirst(s, s', k + 1, [t] + front);
  }

  lemma PromptTurn(c: Config, g: Stage, s: Sched, t: Ticket, r: Request, raised: bool)
    requires s.waiting != [] && t == s.waiting[0] && g.s.waiting == s.waiting[1..]
    requires g.s.running == s.running && g.s.skip == s.skip
    ensures InTurn(s, AdmitPrompt(c, g, t, r, raised).g.s)
  {
    hide Looked, HitTable, ParentOf, TakeBlocks, Rebuff, AdmitGranted, Sub, BlocksFor, InTurn, MakeRoom;
    hide ReleaseTable;
    var hit := HitTable(c, g.s, r.prompt);
    var n := Sub(BlocksFor(c, |r.prompt|), |hit|);
    TakenQueues(c, g.s, r.prompt, n);
    var k := TakeBlocks(Looked(c, g.s, r.prompt), n);
    var s2 := k.s.(accepting := k.s.accepting && !raised);
    GrantedTurn(c, g, s2, t, r, |hit|, ParentOf(c, r.prompt, |hit|), hit + k.table);
    if k.ok {
      TurnHead(s, AdmitPrompt(c, g, t, r, raised).g.s);
    } else {
      RebuffTurn(k.s, t, hit);
      var s1 := k.s.(blocks := ReleaseTable(k.s.blocks, hit));
      RebuffedTurn(s, s1, Rebuff(k.s, t, hit));
    }
  }

  lemma WaitingTurn(c: Config, g: Stage, raised: bool)
    ensures InTurn(g.s, AdmitWaiting(c, g, raised).g.s)
  {
    hide InTurn, Dismiss, AdmitPrompt, Cap;
    TurnSame(g.s, g.s);
    if g.s.waiting != [] {
      var t := g.s.waiting[0];
      var s := g.s.(waiting := g.s.waiting[1..]);
      forall e ensures InTurn(g.s, Dismiss(s, t, e)) {
        DismissAll(s, t, e);
        TurnHead(g.s, Dismiss(s, t, e));
      }
      PromptTurn(c, g.(s := s), g.s, t, Get(g.s, t), raised);
    }
  }

  lemma {:induction false} LoopTurn(c: Config, g0: Stage, raises: seq<Raise>)
    ensures InTurn(g0.s, AdmitLoop(c, g0, raises).s)
    decreases |g0.s.skip| + |g0.s.waiting|
  {
    hide AdmitSkipped, AdmitWaiting, InTurn;
    var raise := if raises == [] then Raise(false, false) else raises[0];
    var later := if raises == [] then [] else raises[1..];
    var g := g0.(s := g0.s.(accepting := g0.s.accepting && !raise.head));
    TurnSame(g0.s, g.s);
    if !(!g.s.accepting || g.s.paused || g.budget == 0 || |g.s.running| >= c.maxRunning
         || (g.s.skip == [] && g.s.waiting == [])) {
      var a := if g.s.skip != [] then AdmitSkipped(c, g, raise.check) else Admission(g, false);
      TurnSame(g.s, g.s);
      if g.s.skip != [] {
        AdmitSkippedShrinks(c, g, raise.check);
        SkippedTurn(c, g, raise.check);
      }
      TurnTrans(g0.s, g.s, a.g.s);
      if a.again {
        LoopTurn(c, a.g, later);
        TurnTrans(g0.s, a.g.s, AdmitLoop(c, a.g, later).s);
      } else if a.g.s.waiting != [] {
        AdmitWaitingShrinks(c, a.g, raise.check);
        WaitingTurn(c, a.g, raise.check);
        var b := AdmitWaiting(c, a.g, raise.check);
        TurnTrans(g0.s, a.g.s, b.g.s);
        if b.again {
          LoopTurn(c, b.g, later);
          TurnTrans(g0.s, b.g.s, AdmitLoop(c, b.g, later).s);
        }
      }
    }
  }

  /** A scheduling step takes the waiting requests in turn. */
  lemma ScheduledInTurn(c: Config, s: Sched, raises: seq<Raise>)
    ensures InTurn(s, ScheduleStep(c, s, raises).s)
  {
    hide InTurn, MakeRoom, BuildAll, AdmitLoop;
    var s1 := s.(nextBatch := s.nextBatch + 1);
    var s0 := s1.(shortage := false);
    TurnSame(s, s1);
    TurnSame(s, s0);
    MakeRoomTurn(s0);
    TurnTrans(s, s0, MakeRoom(s0));
    var s2 := if s1.shortage then MakeRoom(s0) else s1;
    var g1 := BuildAll(c, Stage(s2, [], c.tokenBudget), s2.running);
    TurnSame(s2, g1.s);
    TurnTrans(s, s2, g1.s);
    LoopTurn(c, g1, raises);
    TurnTrans(s, g1.s, AdmitLoop(c, g1, raises).s);
  }

  // ---------------------------------------------------------------- submission

  lemma AcceptForm(s: Sched, r: Request)
    ensures var s' := Accept(s, r); var t := s.nextTicket;
      LogOf(s', t) == [] && forall u: Ticket :: u != t ==> LogOf(s', u) == LogOf(s, u)
  {
  }

  lemma RefuseForm(s: Sched, open: bool, e: ErrorCode)
    ensures var s' := Refuse(s, open, e); var t := s.nextTicket;
      && LogOf(s', t) == (if open then [ErrorEvent(e)] else [])
      && forall u: Ticket :: u != t ==> LogOf(s', u) == LogOf(s, u)
  {
  }

  /** A submission is accepted exactly if the scheduler accepts, the name is free and the queue has room; then it waits
      behind all others and has heard nothing. Otherwise nothing is queued, and the client hears which of these failed
      first. No other client hears anything. */
  lemma SubmitExact(c: Config, s: Sched, id: string, prompt: seq<Token>, maxTokens: int, maxContext: int, open: bool)
    ensures var s' := Submit(c, s, id, prompt, maxTokens, maxContext, open); var t := s.nextTicket;
      && s'.nextTicket == t + 1 && (forall u: Ticket :: u != t ==> LogOf(s', u) == LogOf(s, u))
      && if s.accepting && id !in s.registry && |s.waiting| < c.maxPending then
           && s'.waiting == s.waiting + [t] && LogOf(s', t) == []
           && s'.registry == s.registry[id := t] && t in s'.objs && s'.objs == s.objs[t := s'.objs[t]]
           && s'.objs[t].status == Active && s'.objs[t].initial == s'.objs[t].prompt == prompt
           && s'.objs[t].generated == [] && s'.objs[t].sched.None? && s'.objs[t].open == open
           && s'.objs[t].maxTokens == maxTokens
           && s'.objs[t].maxContext == (if maxContext <= 0 then c.defaultContext else maxContext)
         else
           && s'.waiting == s.waiting && s'.objs == s.objs && s'.registry == s.registry
           && LogOf(s', t) == if !open then []
                              else if !s.accepting then [ErrorEvent(ServerShuttingDown)]
                              else if id in s.registry then [ErrorEvent(InvalidArgument)]
                              else [ErrorEvent(RequestQueueFull)]
  {
    var r := Request(id, prompt, prompt, Active, [], maxTokens,
                     if maxContext <= 0 then c.defaultContext else maxContext, open, None);
    AcceptForm(s, r);
    RefuseForm(s, open, ServerShuttingDown);
    RefuseForm(s, open, InvalidArgument);
    RefuseForm(s, open, RequestQueueFull);
    hide LogOf;
  }
}
