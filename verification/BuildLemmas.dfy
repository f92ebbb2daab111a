/** Building work items keeps the core invariant; each item claims what it will use. */
module BuildLemmas {
  import opened Types
  import opened Seqs
  import opened State
  import opened Scheduling
  import opened Invariant
  import opened PlaceLemmas
  import opened AccountLemmas
  import opened SequenceLemmas
  import opened CoreLemmas

  /** A request that stops being active keeps its booking. */
  lemma InactiveOk(c: Config, cached: map<BlockId, Hash>, r: Request, out: seq<WorkItem>, st: Status)
    requires ReqOk(c, cached, r, out) && st != Active
    ensures ReqOk(c, cached, r.(status := st), out)
  {
    hide Cap, Live, Hashed, Of;
  }

  lemma OthersSame(s: Sched, out: seq<WorkItem>, t: Ticket)
    ensures OthersKeep(s, out, out, t)
  {
  }

  lemma SoundAt(c: Config, s: Sched, out: seq<WorkItem>, t: Ticket)
    requires Sound(c, s, out) && t in s.objs
    ensures ReqOk(c, s.blocks.cache.byBlock, s.objs[t], out)
  {
  }

  /** The status of a running request or one in hand changes to a terminal one. */
  lemma CoreInactive(c: Config, s: Sched, out: seq<WorkItem>, hand: set<Ticket>, held: multiset<BlockId>, t: Ticket,
          st: Status)
    requires Core(c, s, out, hand, held) && t in s.objs && st != Active
    requires t in s.running || t in hand || Open(st)
    ensures Core(c, Put(s, t, s.objs[t].(status := st)), out, hand, held)
  {
    hide Places, Accounted, Sound, ReqOk;
    SoundAt(c, s, out, t);
    InactiveOk(c, s.blocks.cache.byBlock, s.objs[t], out, st);
    OthersSame(s, out, t);
    CoreUpdate(c, s, Put(s, t, s.objs[t].(status := st)), out, out, hand, held, t, s.objs[t].(status := st));
  }

  lemma CoreSendDone(c: Config, s: Sched, out: seq<WorkItem>, hand: set<Ticket>, held: multiset<BlockId>, t: Ticket)
    requires Core(c, s, out, hand, held) && t in s.objs && (t in s.running || t in hand)
    ensures Core(c, SendDone(s, t), out, hand, held)
  {
    hide Core;
    CoreInactive(c, s, out, hand, held, t, Finished);
    CoreSend(c, Put(s, t, s.objs[t].(status := Finished)), out, hand, held, t, DoneEvent);
  }

  lemma CoreSendError(c: Config, s: Sched, out: seq<WorkItem>, hand: set<Ticket>, held: multiset<BlockId>, t: Ticket,
          e: ErrorCode)
    requires Core(c, s, out, hand, held) && t in s.objs && (t in s.running || t in hand)
    ensures Core(c, SendError(s, t, e), out, hand, held)
  {
    hide Core;
    CoreInactive(c, s, out, hand, held, t, Failed);
    CoreSend(c, Put(s, t, s.objs[t].(status := Failed)), out, hand, held, t, ErrorEvent(e));
  }

  lemma CoreTake(c: Config, s: Sched, out: seq<WorkItem>, hand: set<Ticket>, held: multiset<BlockId>, n: nat)
    requires Core(c, s, out, hand, held)
    ensures Core(c, TakeBlocks(s, n).s, out, hand, held + multiset(TakeBlocks(s, n).table))
    ensures TakenOk(s, n, TakeBlocks(s, n))
  {
    hide Places, Accounted, Sound, TakeBlocks;
    AccountedTake(c, s, n, held);
    var s' := TakeBlocks(s, n).s;
    PlacesSame(s, s', hand);
    SoundSame(c, s, s', out);
  }

  lemma GrowReqOk(c: Config, cached: map<BlockId, Hash>, r: Request, out: seq<WorkItem>, more: seq<BlockId>)
    requires ReqOk(c, cached, r, out) && r.sched.Some?
    requires forall b :: b in more ==> b !in cached
    ensures ReqOk(c, cached, r.(sched := Some(r.sched.value.(table := r.sched.value.table + more))), out)
  {
    var q := r.sched.value;
    var items := Of(out, q.seqId);
    hide Booked, Hashed, Live, Of;
    BookedGrow(c, r, q, items, more);
    BookedRequest(c, r, r.(sched := Some(q.(table := q.table + more))), q.(table := q.table + more), items);
    HashedGrow(c, cached, cached, q, more);
  }

  /** Booked and Live read the request's tokens and limits only. */
  lemma BookedRequest(c: Config, r: Request, r': Request, q: Sequence, items: seq<WorkItem>)
    requires Booked(c, r, q, items)
    requires r' == r.(sched := r'.sched, status := r'.status, open := r'.open)
    ensures Booked(c, r', q, items)
    ensures Live(r, q, items) <==> Live(r', q, items)
  {
    hide Cap;
  }

  /** Fresh blocks move from the operation's hands into a table. */
  lemma CoreGrow(c: Config, s: Sched, out: seq<WorkItem>, hand: set<Ticket>, held: multiset<BlockId>, t: Ticket,
          more: seq<BlockId>)
    requires t in s.objs && s.objs[t].sched.Some?
    requires Core(c, s, out, hand, held + multiset(more))
    requires forall b :: b in more ==> b !in s.blocks.cache.byBlock
    ensures var q := s.objs[t].sched.value;
      Core(c, Put(s, t, s.objs[t].(sched := Some(q.(table := q.table + more)))), out, hand, held)
  {
    hide Places, Accounted, Sound, ReqOk;
    var r := s.objs[t];
    var q := r.sched.value;
    var r' := r.(sched := Some(q.(table := q.table + more)));
    var s' := Put(s, t, r');
    KnownTicket(s, hand, t);
    PlacesUpdate(s, s', hand, t, r');
    assert held + multiset(more) + multiset(q.table) == held + multiset(q.table + more)
        by { CountSplit(q.table, more); }
    AccountedMove(c, s, s', held + multiset(more), held, t);
    SoundAt(c, s, out, t);
    GrowReqOk(c, s.blocks.cache.byBlock, r, out, more);
    SoundStep(c, s, s', out, out, t);
  }

  lemma KnownTicket(s: Sched, hand: set<Ticket>, t: Ticket)
    requires Places(s, hand) && t in s.objs
    ensures t < s.nextTicket
    ensures t in s.running || t in hand || Open(s.objs[t].status)
    ensures t in s.running ==> s.objs[t].sched.Some? && s.objs[t].sched.value.seqId in s.bySeq
  {
  }

  lemma RunningKnown(s: Sched, hand: set<Ticket>, t: Ticket)
    requires Places(s, hand) && t in s.running
    ensures t in s.objs && s.objs[t].sched.Some?
  {
  }

  /** An item of a running request is appended and claimed. */
  lemma CoreAppend(c: Config, s: Sched, s': Sched, out: seq<WorkItem>, hand: set<Ticket>, held: multiset<BlockId>,
          t: Ticket, x: WorkItem)
    requires Core(c, s, out, hand, held) && t in s.running && t in s.objs && s.objs[t].sched.Some?
    requires x.seqId == s.objs[t].sched.value.seqId
    requires var q := s.objs[t].sched.value; var r := s.objs[t].(sched := Some(Reserve(q, x)));
      && SamePlaces(Put(s, t, r), s') && s'.blocks == s.blocks && s'.hist.leaked == s.hist.leaked
      && Booked(c, s.objs[t], Reserve(q, x), Of(out, q.seqId) + [x])
      && Live(s.objs[t], Reserve(q, x), Of(out, q.seqId) + [x])
    ensures Core(c, s', out + [x], hand, held)
  {
    hide Places, Accounted, Sound;
    var q := s.objs[t].sched.value;
    var r := s.objs[t].(sched := Some(Reserve(q, x)));
    KnownTicket(s, hand, t);
    OthersKeepSnoc(s, out, x, hand, t);
    OfHere(out, x);
    assert ReqOk(c, s.blocks.cache.byBlock, r, out + [x]) by {
      SoundAt(c, s, out, t);
      hide Booked, Live, Of, Cap;
      BookedRequest(c, s.objs[t], r, Reserve(q, x), Of(out, q.seqId) + [x]);
    }
    hide ReqOk, Booked, Live;
    CoreUpdate(c, s, s', out, out + [x], hand, held, t, r);
  }

  lemma ActiveSeq(c: Config, s: Sched, out: seq<WorkItem>, t: Ticket)
    requires Sound(c, s, out) && t in s.objs && s.objs[t].sched.Some? && s.objs[t].status == Active
    ensures var q := s.objs[t].sched.value; var items := Of(out, q.seqId);
      Booked(c, s.objs[t], q, items) && Live(s.objs[t], q, items) && Hashed(c, s.blocks.cache.byBlock, q)
  {
    SoundAt(c, s, out, t);
  }

  /** One more item at most, for this sequence, paid from the budget. */
  predicate OneMore(g: Stage, g': Stage, q: SeqId) {
    || (g'.items == g.items && g'.budget == g.budget)
    || (|g'.items| == |g.items| + 1 && g'.items[..|g.items|] == g.items && g'.items[|g.items|].seqId == q
        && g'.budget + TokenCount(g'.items[|g.items|]) == g.budget)
  }

  lemma CoreBuildPrefill(c: Config, g: Stage, base: seq<WorkItem>, hand: set<Ticket>, held: multiset<BlockId>,
          t: Ticket)
    requires Core(c, g.s, base + g.items, hand, held) && t in g.s.running && t in g.s.objs
    requires var r := g.s.objs[t];
      r.sched.Some? && r.status == Active && |r.generated| < r.maxTokens && IsPrefill(r.sched.value.phase)
    requires g.budget > 0
    ensures var r := g.s.objs[t]; var g' := BuildPrefill(c, g, t, r, r.sched.value);
      && Core(c, g'.s, base + g'.items, hand, held) && OneMore(g, g', r.sched.value.seqId)
  {
    hide Places, Accounted, Sound, Booked, Live, Hashed;
    var r := g.s.objs[t];
    var q := r.sched.value;
    var out := base + g.items;
    if q.cursor + q.res.prompt < |r.prompt| {
      ActiveSeq(c, g.s, out, t);
      BuildPrefillSeq(c, r, q, Of(out, q.seqId), g.budget);
      var x := NextChunk(c, r, q, g.budget);
      var g' := BuildPrefill(c, g, t, r, q);
      CoreAppend(c, g.s, g'.s, out, hand, held, t, x);
      assert base + g'.items == out + [x];
    }
  }

  lemma CoreBuildDecode(c: Config, g: Stage, base: seq<WorkItem>, hand: set<Ticket>, held: multiset<BlockId>, t: Ticket)
    requires Core(c, g.s, base + g.items, hand, held) && t in g.s.running && t in g.s.objs
    requires var r := g.s.objs[t]; r.sched.Some? && r.status == Active && !IsPrefill(r.sched.value.phase)
    requires g.budget > 0
    ensures var r := g.s.objs[t]; var g' := BuildDecode(c, g, t, r, r.sched.value);
      && Core(c, g'.s, base + g'.items, hand, held) && OneMore(g, g', r.sched.value.seqId)
  {
    hide Core, TakeDecode;
    var r := g.s.objs[t];
    var q := r.sched.value;
    var committed := |r.prompt| + |r.generated| - q.genInPrompt;
    if |r.generated| + q.res.gen >= r.maxTokens || (q.phase == Bootstrap && q.res.gen > 0) {
    } else if committed + q.res.gen >= r.maxContext {
      if q.res.gen == 0 { CoreSendDone(c, g.s, base + g.items, hand, held, t); }
    } else {
      CoreTakeDecode(c, g, base, hand, held, t);
    }
  }

  lemma CoreTakeDecode(c: Config, g: Stage, base: seq<WorkItem>, hand: set<Ticket>, held: multiset<BlockId>, t: Ticket)
    requires Core(c, g.s, base + g.items, hand, held) && t in g.s.running && t in g.s.objs
    requires var r := g.s.objs[t]; r.sched.Some? && r.status == Active && !IsPrefill(r.sched.value.phase)
    requires g.budget > 0
    requires var r := g.s.objs[t]; var q := r.sched.value;
      && |r.generated| + q.res.gen < r.maxTokens && (q.phase == Bootstrap ==> q.res.gen == 0)
      && |r.prompt| + |r.generated| - q.genInPrompt + q.res.gen < r.maxContext
    ensures var r := g.s.objs[t]; var g' := TakeDecode(c, g, t, r, r.sched.value);
      && Core(c, g'.s, base + g'.items, hand, held) && OneMore(g, g', r.sched.value.seqId)
  {
    hide Places, Accounted, Sound, TakeBlocks, MissingBlocks, Reserve;
    var r := g.s.objs[t];
    var q := r.sched.value;
    var out := base + g.items;
    var g' := TakeDecode(c, g, t, r, q);
    var n := MissingBlocks(c, q);
    CoreTake(c, g.s, out, hand, held, n);
    var k := TakeBlocks(g.s, n);
    if !k.ok {
      assert held + multiset(k.table) == held;
      PlacesSame(k.s, g'.s, hand);
      CoreSame(c, k.s, g'.s, out, hand, held);
    } else {
      CoreExtendDecode(c, k.s, out, hand, held, t, k.table);
      var x := NextDecode(r, q.(table := q.table + k.table));
      assert base + (g.items + [x]) == out + [x];
    }
  }

  lemma CoreExtendDecode(c: Config, s: Sched, out: seq<WorkItem>, hand: set<Ticket>, held: multiset<BlockId>,
          t: Ticket, more: seq<BlockId>)
    requires Core(c, s, out, hand, held + multiset(more)) && t in s.running && t in s.objs
    requires forall b :: b in more ==> b !in s.blocks.cache.byBlock
    requires var r := s.objs[t]; r.sched.Some? && r.status == Active
    requires var r := s.objs[t]; var q := r.sched.value;
      && !IsPrefill(q.phase) && |more| == MissingBlocks(c, q)
      && |r.generated| + q.res.gen < r.maxTokens && (q.phase == Bootstrap ==> q.res.gen == 0)
      && |r.prompt| + |r.generated| - q.genInPrompt + q.res.gen < r.maxContext
    ensures var r := s.objs[t]; var q1 := r.sched.value.(table := r.sched.value.table + more);
        var x := NextDecode(r, q1);
      Core(c, Put(s, t, r.(sched := Some(Reserve(q1, x)))), out + [x], hand, held)
  {
    hide Places, Accounted, Sound, Booked, Live, Hashed, Cap, BlocksFor, Of, Reserve;
    var r := s.objs[t];
    var q := r.sched.value;
    var q1 := q.(table := q.table + more);
    var r1 := r.(sched := Some(q1));
    var x := NextDecode(r, q1);
    var s1 := Put(s, t, r1);
    CoreGrow(c, s, out, hand, held, t, more);
    ActiveSeq(c, s1, out, t);
    BuildDecodeSeq(c, r1, q1, Of(out, q.seqId));
    var s2 := Put(s, t, r.(sched := Some(Reserve(q1, x))));
    assert s2.objs == s1.objs[t := r.(sched := Some(Reserve(q1, x)))];
    CoreAppend(c, s1, s2, out, hand, held, t, x);
  }

  lemma CoreBuildWork(c: Config, g: Stage, base: seq<WorkItem>, hand: set<Ticket>, held: multiset<BlockId>, t: Ticket)
    requires Core(c, g.s, base + g.items, hand, held) && t in g.s.running
    ensures var g' := BuildWork(c, g, t);
      && Core(c, g'.s, base + g'.items, hand, held)
    ensures t in g.s.objs && g.s.objs[t].sched.Some?
    ensures OneMore(g, BuildWork(c, g, t), g.s.objs[t].sched.value.seqId)
  {
    hide Places, Accounted, Sound, BuildPrefill, BuildDecode;
    RunningKnown(g.s, hand, t);
    var r := g.s.objs[t];
    if g.budget == 0 || r.status != Active {
    } else if |r.generated| >= r.maxTokens {
      CoreSendDone(c, g.s, base + g.items, hand, held, t);
    } else if IsPrefill(r.sched.value.phase) {
      CoreBuildPrefill(c, g, base, hand, held, t);
    } else {
      CoreBuildDecode(c, g, base, hand, held, t);
    }
  }
}
