/** The core invariant through the elementary moves every operation is made of. */
module CoreLemmas {
  import opened Types
  import opened Seqs
  import opened Blocks
  import opened State
  import opened Scheduling
  import opened Invariant
  import opened OutLemmas
  import opened PlaceLemmas
  import opened AccountLemmas

  /** Only request t changed; the others keep their items and their cached blocks did not grow. */
  lemma SoundStep(c: Config, s: Sched, s': Sched, out: seq<WorkItem>, out': seq<WorkItem>, t: Ticket)
    requires Sound(c, s, out)
    requires forall u :: u in s'.objs && u != t ==> u in s.objs && s'.objs[u] == s.objs[u]
    requires forall u :: u in s'.objs && u != t && s'.objs[u].sched.Some? ==>
      && Of(out', s'.objs[u].sched.value.seqId) == Of(out, s'.objs[u].sched.value.seqId)
      && CachedBelow(s.blocks.cache.byBlock, s'.blocks.cache.byBlock, s'.objs[u].sched.value.table)
    requires t in s'.objs ==> ReqOk(c, s'.blocks.cache.byBlock, s'.objs[t], out')
    ensures Sound(c, s', out')
  {
    forall u | u in s'.objs && u != t ensures ReqOk(c, s'.blocks.cache.byBlock, s'.objs[u], out') {
      assert ReqOk(c, s.blocks.cache.byBlock, s.objs[u], out);
      hide Booked, Live, Cap, Of;
    }
  }

  /** No block of the table became cached. */
  ghost predicate CachedBelow(cached: map<BlockId, Hash>, cached': map<BlockId, Hash>, table: seq<BlockId>) {
    forall i | 0 <= i < |table| :: table[i] in cached' ==> table[i] in cached
  }

  lemma SoundSame(c: Config, s: Sched, s': Sched, out: seq<WorkItem>)
    requires Sound(c, s, out)
    requires forall u :: u in s'.objs ==> u in s.objs && s'.objs[u] == s.objs[u]
    requires forall b :: b in s'.blocks.cache.byBlock ==> b in s.blocks.cache.byBlock
    ensures Sound(c, s', out)
  {
    forall u | u in s'.objs ensures ReqOk(c, s'.blocks.cache.byBlock, s'.objs[u], out) {
      assert ReqOk(c, s.blocks.cache.byBlock, s.objs[u], out);
      hide Booked, Live, Cap, Of;
    }
  }

  lemma OfElsewhere(out: seq<WorkItem>, x: WorkItem, q: SeqId)
    requires x.seqId != q
    ensures Of(out + [x], q) == Of(out, q)
  {
    OfConcat(out, [x], q);
    assert Of([x], q) == [] by { assert [x][1..] == []; }
  }

  lemma OfHere(out: seq<WorkItem>, x: WorkItem)
    ensures Of(out + [x], x.seqId) == Of(out, x.seqId) + [x]
  {
    OfConcat(out, [x], x.seqId);
    assert Of([x], x.seqId) == [x] by { assert [x][1..] == []; }
  }

  lemma OfDrop(a: seq<WorkItem>, x: WorkItem, b: seq<WorkItem>, q: SeqId)
    ensures x.seqId != q ==> Of(a + [x] + b, q) == Of(a + b, q)
    ensures x.seqId == q ==> Of(a + [x] + b, q) == Of(a, q) + [x] + Of(b, q)
    ensures Of(a + b, q) == Of(a, q) + Of(b, q)
  {
    OfConcat(a + [x], b, q);
    OfConcat(a, b, q);
    if x.seqId == q { OfHere(a, x); } else { OfElsewhere(a, x, q); }
  }

  lemma {:induction false} OfNone(out: seq<WorkItem>, q: SeqId)
    requires forall x :: x in out ==> x.seqId != q
    ensures Of(out, q) == []
  {
    if out != [] {
      OfNone(out[1..], q);
    }
  }

  lemma NoLeases(c: Config, s: Sched, out: seq<WorkItem>, t: Ticket)
    requires Sound(c, s, out) && t in s.objs && s.objs[t].sched.Some?
    ensures s.objs[t].sched.value.res.leases == |Of(out, s.objs[t].sched.value.seqId)|
  {
    assert ReqOk(c, s.blocks.cache.byBlock, s.objs[t], out);
  }

  // ---------------------------------------------------------------- moves that change no request

  lemma CorePopWaiting(c: Config, s: Sched, out: seq<WorkItem>, hand: set<Ticket>, held: multiset<BlockId>)
    requires Core(c, s, out, hand, held) && s.waiting != []
    ensures Core(c, s.(waiting := s.waiting[1..]), out, hand + {s.waiting[0]}, held)
    ensures s.waiting[0] in s.objs && s.objs[s.waiting[0]].sched.None? && Open(s.objs[s.waiting[0]].status)
  {
    hide Places, Accounted, Sound;
    var s' := s.(waiting := s.waiting[1..]);
    PlacesPopWaiting(s, s', hand);
    CoreSame(c, s, s', out, hand + {s.waiting[0]}, held);
  }

  lemma CorePopSkip(c: Config, s: Sched, out: seq<WorkItem>, hand: set<Ticket>, held: multiset<BlockId>)
    requires Core(c, s, out, hand, held) && s.skip != []
    ensures Core(c, s.(skip := s.skip[1..]), out, hand + {s.skip[0]}, held)
    ensures s.skip[0] in s.objs && s.objs[s.skip[0]].sched.Some? && Open(s.objs[s.skip[0]].status)
  {
    hide Places, Accounted, Sound;
    var s' := s.(skip := s.skip[1..]);
    PlacesPopSkip(s, s', hand);
    CoreSame(c, s, s', out, hand + {s.skip[0]}, held);
  }

  /** Same requests, blocks and sequence index. */
  lemma CoreSame(c: Config, s: Sched, s': Sched, out: seq<WorkItem>, hand: set<Ticket>, held: multiset<BlockId>)
    requires c.Valid() && Accounted(c, s, held) && Sound(c, s, out) && Places(s', hand)
    requires s'.objs == s.objs && s'.blocks == s.blocks && s'.hist.leaked == s.hist.leaked
    requires s'.nextTicket == s.nextTicket
    requires OutIndexed(s', out)
    ensures Core(c, s', out, hand, held)
  {
    hide Places, Valid, Conserved, Private, ReqOk;
    assert forall b :: s'.objs == s.objs ==> Owned(s'.objs, s'.nextTicket, b) == Owned(s.objs, s.nextTicket, b);
    assert Accounted(c, s', held) by {
      assert Conserved(s', held) && Private(s') by { ConservedSame(s, s', held); }
    }
    SoundSame(c, s, s', out);
  }

  lemma ConservedSame(s: Sched, s': Sched, held: multiset<BlockId>)
    requires Conserved(s, held) && Private(s)
    requires s'.objs == s.objs && s'.blocks == s.blocks && s'.hist.leaked == s.hist.leaked
    requires s'.nextTicket == s.nextTicket
    ensures Conserved(s', held) && Private(s')
  {
  }

  lemma CorePushWaiting(c: Config, s: Sched, out: seq<WorkItem>, hand: set<Ticket>, held: multiset<BlockId>, t: Ticket)
    requires Core(c, s, out, hand, held) && t in hand
    requires t in s.objs && s.objs[t].sched.None? && Open(s.objs[t].status)
    ensures Core(c, s.(waiting := [t] + s.waiting), out, hand - {t}, held)
  {
    hide Places, Accounted, Sound;
    var s' := s.(waiting := [t] + s.waiting);
    PlacesPushWaiting(s, s', hand, t);
    CoreSame(c, s, s', out, hand - {t}, held);
  }

  lemma CorePushSkip(c: Config, s: Sched, out: seq<WorkItem>, hand: set<Ticket>, held: multiset<BlockId>, t: Ticket)
    requires Core(c, s, out, hand, held) && t in hand
    requires t in s.objs && s.objs[t].sched.Some? && Open(s.objs[t].status)
    ensures Core(c, s.(skip := [t] + s.skip), out, hand - {t}, held)
  {
    hide Places, Accounted, Sound;
    var s' := s.(skip := [t] + s.skip);
    PlacesPushSkip(s, s', hand, t);
    CoreSame(c, s, s', out, hand - {t}, held);
  }

  lemma CorePushRunning(c: Config, s: Sched, out: seq<WorkItem>, hand: set<Ticket>, held: multiset<BlockId>, t: Ticket)
    requires Core(c, s, out, hand, held) && t in hand
    requires t in s.objs && s.objs[t].sched.Some?
    ensures Core(c, s.(running := s.running + [t], bySeq := s.bySeq[s.objs[t].sched.value.seqId := t]), out,
        hand - {t}, held)
  {
    hide Places, Accounted, Sound;
    var s' := s.(running := s.running + [t], bySeq := s.bySeq[s.objs[t].sched.value.seqId := t]);
    PlacesPushRunning(s, s', hand, t);
    assert OutIndexed(s', out);
    CoreSame(c, s, s', out, hand - {t}, held);
  }

  /** A running request with nothing outstanding leaves the running list and the index. */
  lemma CoreDetach(c: Config, s: Sched, out: seq<WorkItem>, hand: set<Ticket>, held: multiset<BlockId>, t: Ticket)
    requires Core(c, s, out, hand, held) && t in s.running
    requires t in s.objs && s.objs[t].sched.Some? && s.objs[t].sched.value.res.leases == 0
    ensures Core(c, s.(running := DropTicket(s.running, t), bySeq := s.bySeq - {s.objs[t].sched.value.seqId}), out,
        hand + {t}, held)
  {
    hide Places, Accounted, Sound;
    NoLeases(c, s, out, t);
    var q := s.objs[t].sched.value.seqId;
    var s' := s.(running := DropTicket(s.running, t), bySeq := s.bySeq - {q});
    PlacesDetach(s, s', hand, t);
    assert OutIndexed(s', out) by {
      forall x | x in out ensures x.seqId in s'.bySeq {
        assert x.seqId == q ==> x in Of(out, q);
      }
    }
    CoreSame(c, s, s', out, hand + {t}, held);
  }

  // ---------------------------------------------------------------- moves that change one request

  /** Request t changed without touching its table, its name or its sequence id. */
  lemma CoreUpdate(c: Config, s: Sched, s': Sched, out: seq<WorkItem>, out': seq<WorkItem>,
                   hand: set<Ticket>, held: multiset<BlockId>, t: Ticket, r: Request)
    requires Core(c, s, out, hand, held) && t in s.objs
    requires SamePlaces(Put(s, t, r), s') && s'.blocks == s.blocks && s'.hist.leaked == s.hist.leaked
    requires SameIdentity(s.objs[t], r)
    requires s.objs[t].sched.Some? ==> r.sched.value.table == s.objs[t].sched.value.table
    requires t in s.running || t in hand || Open(r.status)
    requires OutIndexed(s', out')
    requires OthersKeep(s, out, out', t)
    requires ReqOk(c, s.blocks.cache.byBlock, r, out')
    ensures Core(c, s', out', hand, held)
  {
    hide Places, Accounted, Sound, ReqOk;
    PlacesUpdate(s, s', hand, t, r);
    BeyondTickets(s, hand);
    AccountedFrame(c, s, s', held);
    SoundStep(c, s, s', out, out', t);
  }

  lemma BeyondTickets(s: Sched, hand: set<Ticket>)
    requires Places(s, hand)
    ensures s.nextTicket !in s.objs
  {
  }

  /** The outstanding items of all other requests are the same. */
  ghost predicate OthersKeep(s: Sched, out: seq<WorkItem>, out': seq<WorkItem>, t: Ticket) {
    forall u :: u in s.objs && u != t && s.objs[u].sched.Some? ==>
      Of(out', s.objs[u].sched.value.seqId) == Of(out, s.objs[u].sched.value.seqId)
  }

  lemma OthersKeepSnoc(s: Sched, out: seq<WorkItem>, x: WorkItem, hand: set<Ticket>, t: Ticket)
    requires Places(s, hand) && HasSeq(s, t, x.seqId)
    ensures OthersKeep(s, out, out + [x], t)
  {
    forall u | u in s.objs && u != t && s.objs[u].sched.Some?
      ensures Of(out + [x], s.objs[u].sched.value.seqId) == Of(out, s.objs[u].sched.value.seqId)
    {
      var q := s.objs[u].sched.value.seqId;
      assert HasSeq(s, u, q);
      OfElsewhere(out, x, q);
    }
  }

  lemma OthersKeepDrop(s: Sched, a: seq<WorkItem>, x: WorkItem, b: seq<WorkItem>, hand: set<Ticket>, t: Ticket)
    requires Places(s, hand) && HasSeq(s, t, x.seqId)
    ensures OthersKeep(s, a + [x] + b, a + b, t)
  {
    forall u | u in s.objs && u != t && s.objs[u].sched.Some?
      ensures Of(a + b, s.objs[u].sched.value.seqId) == Of(a + [x] + b, s.objs[u].sched.value.seqId)
    {
      var q := s.objs[u].sched.value.seqId;
      assert HasSeq(s, u, q);
      OfDrop(a, x, b, q);
    }
  }

  lemma InHand(s: Sched, hand: set<Ticket>, t: Ticket)
    requires Places(s, hand) && t in hand
    ensures t < s.nextTicket && t in s.objs && t !in s.running
    ensures s.objs[t].sched.Some? ==> s.objs[t].sched.value.seqId !in s.bySeq
  {
    if s.objs[t].sched.Some? {
      assert HasSeq(s, t, s.objs[t].sched.value.seqId);
      assert forall q :: q in s.bySeq ==> HasSeq(s, s.bySeq[q], q);
    }
  }

  lemma AccountedUnschedule(c: Config, s: Sched, s': Sched, held: multiset<BlockId>, t: Ticket)
    requires Accounted(c, s, held) && t < s.nextTicket && t in s.objs && s.objs[t].sched.Some?
    requires s'.objs == s.objs[t := s.objs[t].(sched := None)]
    requires s'.blocks == ReleaseTable(s.blocks, s.objs[t].sched.value.table)
    requires s'.hist == s.hist && s'.nextTicket == s.nextTicket
    ensures Accounted(c, s', held)
    ensures s'.blocks.cache.byBlock == s.blocks.cache.byBlock
  {
    hide Accounted, ReleaseTable;
    var table := s.objs[t].sched.value.table;
    var s1 := s.(objs := s'.objs);
    AccountedMove(c, s, s1, held, held + multiset(table), t);
    AccountedRelease(c, s1, s', held + multiset(table), table);
    assert held + multiset(table) - multiset(table) == held;
  }

  /** A request in hand returns its blocks. */
  lemma CoreRelease(c: Config, s: Sched, out: seq<WorkItem>, hand: set<Ticket>, held: multiset<BlockId>, t: Ticket)
    requires Core(c, s, out, hand, held) && t in hand && t in s.objs
    ensures Core(c, ReleaseScheduling(s, t), out, hand, held)
  {
    hide Places, Accounted, Sound, ReqOk, ReleaseTable;
    if s.objs[t].sched.Some? {
      var r := s.objs[t];
      var s' := ReleaseScheduling(s, t);
      InHand(s, hand, t);
      assert s.bySeq - {r.sched.value.seqId} == s.bySeq;
      PlacesUnschedule(s, s', hand, t, r.(sched := None));
      AccountedUnschedule(c, s, s', held, t);
      WithinLimitAt(c, s, out, t);
      UnscheduledOk(c, s'.blocks.cache.byBlock, s'.objs[t], out);
      SoundStep(c, s, s', out, out, t);
    }
  }

  lemma WithinLimitAt(c: Config, s: Sched, out: seq<WorkItem>, t: Ticket)
    requires Sound(c, s, out) && t in s.objs
    ensures WithinLimit(s.objs[t])
  {
    assert ReqOk(c, s.blocks.cache.byBlock, s.objs[t], out);
  }

  lemma UnscheduledOk(c: Config, cached: map<BlockId, Hash>, r: Request, out: seq<WorkItem>)
    requires r.sched.None? && WithinLimit(r)
    ensures ReqOk(c, cached, r, out)
  {
  }

  /** A request in hand, without blocks, is forgotten. */
  lemma CoreErase(c: Config, s: Sched, out: seq<WorkItem>, hand: set<Ticket>, held: multiset<BlockId>, t: Ticket)
    requires Core(c, s, out, hand, held) && t in hand && t in s.objs && s.objs[t].sched.None?
    ensures Core(c, EraseRequest(s, t), out, hand - {t}, held)
  {
    hide Places, Accounted, Sound, ReqOk;
    BeyondTickets(s, hand);
    var s' := EraseRequest(s, t);
    PlacesErase(s, s', hand, t);
    AccountedFrame(c, s, s', held);
    SoundSame(c, s, s', out);
  }

  /** An event was logged. */
  lemma CoreSend(c: Config, s: Sched, out: seq<WorkItem>, hand: set<Ticket>, held: multiset<BlockId>, t: Ticket,
          e: Event)
    requires Core(c, s, out, hand, held)
    ensures Core(c, Send(s, t, e), out, hand, held)
  {
    hide Places, Accounted, Sound;
    PlacesSame(s, Send(s, t, e), hand);
    CoreSame(c, s, Send(s, t, e), out, hand, held);
  }

  lemma PlacesSame(s: Sched, s': Sched, hand: set<Ticket>)
    requires Places(s, hand) && SamePlaces(s, s')
    ensures Places(s', hand)
  {
    hide NoDup;
    forall u: Ticket, q: SeqId ensures HasSeq(s', u, q) <==> HasSeq(s, u, q) {}
  }
}
