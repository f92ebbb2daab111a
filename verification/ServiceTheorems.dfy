/**
 Who is served: every running request that wants work gets an item, in order, as long as tokens and blocks last; nobody
 in the waiting queue is overtaken; a submission is refused for the reason its client is told; and a failed batch fails
 its own requests and no others.
 */
module ServiceTheorems {
  import opened Types
  import opened Seqs
  import opened State
  import opened Scheduling
  import opened VoiceLemmas

  // ---------------------------------------------------------------- running requests

  function SeqOf(s: Sched, t: Ticket): SeqId {
    if Get(s, t).sched.Some? then Get(s, t).sched.value.seqId else 0
  }

  /** Generated or in flight, a request has all the tokens it may have. */
  predicate Satisfied(s: Sched, t: Ticket) {
    var r := Get(s, t);
    && r.sched.Some?
    && var q := r.sched.value;
       || |r.generated| >= r.maxTokens
       || (!IsPrefill(q.phase) && |r.prompt| + |r.generated| - q.genInPrompt + q.res.gen >= r.maxContext)
  }

  /** What building work for one request does: one item of its sequence exactly if it wants work, is not satisfied and
      the blocks suffice; the note of a shortage if they do not. */
  lemma BuildsFor(c: Config, g: Stage, t: Ticket)
    requires g.budget > 0
    ensures var g' := BuildWork(c, g, t);
      && (g'.items == g.items || (|g'.items| == |g.items| + 1 && g.items <= g'.items
                                  && g'.items[|g.items|].seqId == SeqOf(g.s, t)))
      && (g'.items != g.items ==> WantsWork(g.s, t) && !Satisfied(g.s, t))
      && (WantsWork(g.s, t) && !Satisfied(g.s, t) ==> g'.items != g.items || g'.s.shortage)
      && (g.s.shortage ==> g'.s.shortage)
      && (forall u :: u != t ==> Get(g'.s, u) == Get(g.s, u))
  {
    hide TakeBlocks, MissingBlocks, ChunkLength, Send;
    var n := if Get(g.s, t).sched.Some? then MissingBlocks(c, Get(g.s, t).sched.value) else 0;
    TakenObjs(g.s, n);
    SendObjs(Put(g.s, t, Get(g.s, t).(status := Finished)), t);
  }

  lemma TakenObjs(s: Sched, n: nat)
    ensures TakeBlocks(s, n).s.objs == s.objs && TakeBlocks(s, n).s.shortage == s.shortage
  {
  }

  lemma SendObjs(s: Sched, t: Ticket)
    ensures Send(s, t, DoneEvent).objs == s.objs && Send(s, t, DoneEvent).shortage == s.shortage
  {
  }

  /** The batch got an item of the sequence. */
  ghost predicate HasItem(g: Stage, g': Stage, q: SeqId) {
    exists i | |g.items| <= i < |g'.items| :: g'.items[i].seqId == q
  }

  lemma WantsSame(s: Sched, s': Sched, t: Ticket)
    requires Get(s', t) == Get(s, t)
    ensures WantsWork(s', t) == WantsWork(s, t) && Satisfied(s', t) == Satisfied(s, t) && SeqOf(s', t) == SeqOf(s, t)
  {
  }

  /** The items of a batch, behind those it began with, belong to requests of the list that wanted work. */
  lemma {:induction false} BuiltForList(c: Config, g: Stage, ts: seq<Ticket>, i: nat)
    requires NoDup(ts) && |g.items| <= i < |BuildAll(c, g, ts).items|
    ensures g.items <= BuildAll(c, g, ts).items
    ensures exists t :: t in ts && WantsWork(g.s, t) && !Satisfied(g.s, t)
                        && BuildAll(c, g, ts).items[i].seqId == SeqOf(g.s, t)
    decreases |ts|
  {
    hide BuildWork, WantsWork, Satisfied, SeqOf, Get;
    var g1 := BuildWork(c, g, ts[0]);
    BuildsFor(c, g, ts[0]);
    ListGrows(c, g1, ts[1..]);
    if i < |g1.items| {
      assert BuildAll(c, g, ts).items[i] == g1.items[i];
      assert ts[0] in ts;
    } else {
      BuiltForList(c, g1, ts[1..], i);
      var t :| t in ts[1..] && WantsWork(g1.s, t) && !Satisfied(g1.s, t)
               && BuildAll(c, g1, ts[1..]).items[i].seqId == SeqOf(g1.s, t);
      WantsSame(g.s, g1.s, t);
      assert t in ts;
    }
  }

  lemma {:induction false} ListGrows(c: Config, g: Stage, ts: seq<Ticket>)
    ensures g.items <= BuildAll(c, g, ts).items && (g.s.shortage ==> BuildAll(c, g, ts).s.shortage)
    ensures forall u :: u !in ts ==> Get(BuildAll(c, g, ts).s, u) == Get(g.s, u)
    decreases |ts|
  {
    hide BuildWork, WantsWork, Satisfied, SeqOf, Get;
    if ts != [] && g.budget > 0 {
      BuildsFor(c, g, ts[0]);
      ListGrows(c, BuildWork(c, g, ts[0]), ts[1..]);
    }
  }

  /** Every request of the list that wants work and is not satisfied gets an item, unless the batch is full or blocks
      are short. */
  lemma {:induction false} ListServed(c: Config, g: Stage, ts: seq<Ticket>, t: Ticket)
    requires NoDup(ts) && t in ts && WantsWork(g.s, t) && !Satisfied(g.s, t)
    ensures var g' := BuildAll(c, g, ts); HasItem(g, g', SeqOf(g.s, t)) || g'.budget == 0 || g'.s.shortage
    decreases |ts|
  {
    hide BuildWork, WantsWork, Satisfied, SeqOf, Get;
    if g.budget > 0 {
      var g1, g' := BuildWork(c, g, ts[0]), BuildAll(c, g, ts);
      BuildsFor(c, g, ts[0]);
      ListGrows(c, g1, ts[1..]);
      if ts[0] == t {
        if g1.items != g.items { assert g'.items[|g.items|] == g1.items[|g.items|]; }
      } else {
        WantsSame(g.s, g1.s, t);
        ListServed(c, g1, ts[1..], t);
        HasItemBefore(g, g1, g', SeqOf(g.s, t));
      }
    }
  }

  lemma HasItemBefore(g: Stage, g1: Stage, g': Stage, q: SeqId)
    requires |g.items| <= |g1.items|
    ensures HasItem(g1, g', q) ==> HasItem(g, g', q)
  {
  }

  // ---------------------------------------------------------------- failed batches

  /** The request has an item among these. */
  predicate Involved(s: Sched, items: seq<WorkItem>, t: Ticket) {
    exists x | x in items :: x.seqId in s.bySeq && s.bySeq[x.seqId] == t
  }

  lemma ItemSpares(s: Sched, x: WorkItem, e: ErrorCode, t: Ticket)
    requires t in s.objs && (x.seqId in s.bySeq ==> s.bySeq[x.seqId] != t)
    ensures var s' := FailItem(s, x, e);
      s'.bySeq == s.bySeq && t in s'.objs && s'.objs[t] == s.objs[t] && LogOf(s', t) == LogOf(s, t)
  {
    hide Send, RetireReservation, LogOf;
    if x.seqId in s.bySeq {
      var u := s.bySeq[x.seqId];
      var s1 := Put(s, u, RetireReservation(Get(s, u), x));
      LogSame(s, s1, t);
      var s2 := Put(s1, u, Get(s1, u).(status := Failed));
      LogSame(s, s2, t);
      SentTo(s2, u, ErrorEvent(e), t);
      assert LogOf(s, t) + [] == LogOf(s, t);
    }
  }

  lemma ItemHits(s: Sched, x: WorkItem, e: ErrorCode, t: Ticket)
    requires t in s.objs && x.seqId in s.bySeq && s.bySeq[x.seqId] == t
    ensures var s' := FailItem(s, x, e); var fails := s.objs[t].status == Active;
      && s'.bySeq == s.bySeq && t in s'.objs
      && s'.objs[t] == s.objs[t].(sched := s'.objs[t].sched, status := if fails then Failed else s.objs[t].status)
      && LogOf(s', t) == LogOf(s, t) + (if fails && s.objs[t].open then [ErrorEvent(e)] else [])
  {
    hide Send, RetireReservation, LogOf;
    var r := RetireReservation(s.objs[t], x);
    OnlyReservation(s.objs[t], x);
    var s1 := Put(s, t, r);
    LogSame(s, s1, t);
    var s2 := Put(s1, t, r.(status := Failed));
    LogSame(s, s2, t);
    SentTo(s2, t, ErrorEvent(e), t);
  }

  /** A failed item fails its request if that is active, tells its client, and leaves all others alone. */
  lemma ItemFails(s: Sched, x: WorkItem, e: ErrorCode, t: Ticket)
    requires t in s.objs
    ensures var s' := FailItem(s, x, e); var fails := Involved(s, [x], t) && s.objs[t].status == Active;
      && s'.bySeq == s.bySeq && t in s'.objs
      && s'.objs[t] == s.objs[t].(sched := s'.objs[t].sched, status := if fails then Failed else s.objs[t].status)
      && LogOf(s', t) == LogOf(s, t) + (if fails && s.objs[t].open then [ErrorEvent(e)] else [])
  {
    hide FailItem, LogOf;
    assert x in [x];
    if x.seqId in s.bySeq && s.bySeq[x.seqId] == t { ItemHits(s, x, e, t); } else { ItemSpares(s, x, e, t); }
  }

  lemma OnlyReservation(r: Request, x: WorkItem)
    ensures RetireReservation(r, x) == r.(sched := RetireReservation(r, x).sched)
  {
  }

  lemma SentTo(s: Sched, u: Ticket, e: Event, t: Ticket)
    ensures var s' := Send(s, u, e);
      && s'.objs == s.objs && s'.bySeq == s.bySeq
      && LogOf(s', t) == LogOf(s, t) + if t == u && Get(s, u).open then [e] else []
  {
  }

  /** A failed batch fails exactly the active requests it has items of, once each, and tells their clients why; no other
      request ends and no other client hears anything. */
  lemma {:induction false} BatchFails(s: Sched, items: seq<WorkItem>, e: ErrorCode, t: Ticket)
    requires t in s.objs
    ensures var s' := FailBatch(s, items, e); var fails := Involved(s, items, t) && s.objs[t].status == Active;
      && t in s'.objs
      && s'.objs[t] == s.objs[t].(sched := s'.objs[t].sched, status := if fails then Failed else s.objs[t].status)
      && LogOf(s', t) == LogOf(s, t) + (if fails && s.objs[t].open then [ErrorEvent(e)] else [])
    decreases |items|
  {
    hide FailItem, LogOf;
    if items != [] {
      var s1 := FailItem(s, items[0], e);
      ItemFails(s, items[0], e, t);
      BatchFails(s1, items[1..], e, t);
      InvolvedMore(s, items, t);
      InvolvedMore(s1, items, t);
    }
  }

  lemma InvolvedMore(s: Sched, items: seq<WorkItem>, t: Ticket)
    requires items != []
    ensures Involved(s, items, t) <==> Involved(s, [items[0]], t) || Involved(s, items[1..], t)
  {
    assert items == [items[0]] + items[1..];
    assert forall x :: x in items <==> x in [items[0]] || x in items[1..];
  }
}
