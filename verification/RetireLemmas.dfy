/** Retiring work items keeps the core invariant. */
module RetireLemmas {
  import opened Types
  import opened Blocks
  import opened BlockLemmas
  import opened Hashing
  import opened State
  import opened Scheduling
  import opened Invariant
  import opened PlaceLemmas
  import opened AccountLemmas
  import opened SequenceLemmas
  import opened CoreLemmas
  import opened BuildLemmas

  // ---------------------------------------------------------------- publishing

  /** Where hashing stands: block i is the first not yet published, and lies in the table. */
  ghost predicate Publishing(c: Config, s: Sched, t: Ticket, q: Sequence, i: nat) {
    && t < s.nextTicket && TableOf(s.objs, t) == q.table
    && |q.pending| <= q.frontier <= Cap(c, |q.table|)
    && Cap(c, i) <= q.frontier - |q.pending| < Cap(c, i + 1)
    && Frozen(c, s.blocks.cache.byBlock, q)
  }

  /** Publishing touched only blocks of t's table. */
  ghost predicate OnlyOwn(s: Sched, s': Sched, t: Ticket) {
    forall u: Ticket | u < s.nextTicket && u != t ::
      CachedBelow(s.blocks.cache.byBlock, s'.blocks.cache.byBlock, TableOf(s.objs, u))
  }

  lemma CapStep(c: Config, i: nat, d: nat, frontier: nat, n: nat)
    requires Cap(c, i) <= d < Cap(c, i + 1) && d + c.blockSize <= frontier <= Cap(c, n)
    ensures i < n
    ensures Cap(c, i + 1) <= d + c.blockSize < Cap(c, i + 2)
  {
    assert Cap(c, i + 1) == Cap(c, i) + c.blockSize && Cap(c, i + 2) == Cap(c, i + 1) + c.blockSize;
    if n <= i { CapMono(c, n, i); }
  }

  /** One block: it had no entry, it occurs only here, and it is complete. */
  lemma PublishBlock(c: Config, s: Sched, s': Sched, held: multiset<BlockId>, t: Ticket, q: Sequence, i: nat, h: Hash)
    requires Accounted(c, s, held) && Publishing(c, s, t, q, i) && |q.pending| >= c.blockSize > 0
    requires i < |q.table| ==> s'.blocks == Publish(s.blocks, h, q.table[i])
    requires s'.objs == s.objs && s'.hist.leaked == s.hist.leaked && s'.nextTicket == s.nextTicket
    ensures i < |q.table| && !s.blocks.Cached(q.table[i])
    ensures Accounted(c, s', held)
    ensures s'.blocks.cache.byBlock == s.blocks.cache.byBlock[q.table[i] := h]
    ensures Publishing(c, s', t, q.(parent := h, pending := q.pending[c.blockSize..]), i + 1)
    ensures OnlyOwn(s, s', t)
  {
    hide Cap, Accounted, Publish, Valid, TableOf, CachedBelow;
    var d := q.frontier - |q.pending|;
    CapStep(c, i, d, q.frontier, |q.table|);
    var b := q.table[i];
    assert !s.blocks.Cached(b);
    TableBlock(c, s, held, t, i);
    AccountedPublish(c, s, s', held, h, b);
    AccountedValid(c, s, held);
    PublishOk(s.blocks, h, b);
    forall j | 0 <= j < |q.table| && q.table[j] in s'.blocks.cache.byBlock ensures Cap(c, j + 1) <= d + c.blockSize {
      assert q.table[j] == b ==> j == i;
    }
    assert OnlyOwn(s, s', t) by {
      forall u: Ticket | u < s.nextTicket && u != t
        ensures CachedBelow(s.blocks.cache.byBlock, s'.blocks.cache.byBlock, TableOf(s.objs, u))
      {
        CachedElsewhere(s.blocks.cache.byBlock, s'.blocks.cache.byBlock, TableOf(s.objs, u), b, h);
      }
    }
  }

  lemma CachedElsewhere(cached: map<BlockId, Hash>, cached': map<BlockId, Hash>, table: seq<BlockId>, b: BlockId,
          h: Hash)
    requires cached' == cached[b := h] && b !in table
    ensures CachedBelow(cached, cached', table)
  {
  }

  lemma AccountedValid(c: Config, s: Sched, held: multiset<BlockId>)
    requires Accounted(c, s, held)
    ensures Valid(s.blocks)
  {
  }

  lemma {:induction false} PublishAll(c: Config, s: Sched, held: multiset<BlockId>, t: Ticket, q: Sequence, i: nat)
    requires c.blockSize > 0 && Accounted(c, s, held) && Publishing(c, s, t, q, i)
    ensures var p := PublishPending(c, s, q, i);
      && Accounted(c, p.s, held)
      && p.s == s.(blocks := p.s.blocks, hist := p.s.hist) && p.s.hist.leaked == s.hist.leaked
      && p.q == q.(parent := p.q.parent, pending := p.q.pending)
      && |p.q.pending| < c.blockSize && |p.q.pending| <= p.q.frontier
      && Frozen(c, p.s.blocks.cache.byBlock, p.q)
      && OnlyOwn(s, p.s, t)
    decreases |q.pending|
  {
    hide Accounted, Publish, Cap, Chain;
    if |q.pending| < c.blockSize {
    } else {
      assert i < |q.table| by { PublishIndex(c, s, t, q, i); }
      var p := PublishStep(c, s, q, i);
      PublishBlock(c, s, p.s, held, t, q, i, p.q.parent);
      assert p.s == s.(blocks := p.s.blocks, hist := p.s.hist) && p.s.hist.leaked == s.hist.leaked;
      assert p.q == q.(parent := p.q.parent, pending := q.pending[c.blockSize..]);
      hide PublishStep;
      PublishAll(c, p.s, held, t, p.q, i + 1);
      hide Publishing, Frozen;
      OnlyOwnTrans(s, p.s, PublishPending(c, p.s, p.q, i + 1).s, t);
    }
  }

  lemma PublishIndex(c: Config, s: Sched, t: Ticket, q: Sequence, i: nat)
    requires Publishing(c, s, t, q, i) && |q.pending| >= c.blockSize > 0
    ensures i < |q.table|
  {
    CapStep(c, i, q.frontier - |q.pending|, q.frontier, |q.table|);
  }

  lemma OnlyOwnTrans(s: Sched, s1: Sched, s2: Sched, t: Ticket)
    requires OnlyOwn(s, s1, t) && OnlyOwn(s1, s2, t)
    requires s1.objs == s.objs && s1.nextTicket == s.nextTicket
    ensures OnlyOwn(s, s2, t)
  {
    forall u: Ticket | u < s.nextTicket && u != t
      ensures CachedBelow(s.blocks.cache.byBlock, s2.blocks.cache.byBlock, TableOf(s.objs, u))
    {
      assert CachedBelow(s.blocks.cache.byBlock, s1.blocks.cache.byBlock, TableOf(s.objs, u));
      assert CachedBelow(s1.blocks.cache.byBlock, s2.blocks.cache.byBlock, TableOf(s1.objs, u));
    }
  }

  // ---------------------------------------------------------------- one item

  /** What the worker returns for an item it executed. */
  predicate ResultOk(x: WorkItem, result: ItemResult) {
    && result.seqId == x.seqId && result.prefill == x.PrefillChunk?
    && (!result.stale ==> |result.sampled| == GenCount(x) && result.consumed == TokenCount(x)
                          && (result.eos ==> result.sampled != []))
  }

  /** The owner of the oldest outstanding item, before and after its reservation is retired. */
  lemma HeadOwner(c: Config, s: Sched, x: WorkItem, a: seq<WorkItem>, b: seq<WorkItem>)
    requires Core(c, s, a + [x] + b, {}, multiset{})
    ensures x.seqId in s.bySeq
    ensures var t := s.bySeq[x.seqId];
      && t in s.running && t in s.objs && HasSeq(s, t, x.seqId) && t < s.nextTicket
      && Of(a + [x] + b, x.seqId) == Of(a, x.seqId) + [x] + Of(b, x.seqId)
      && Of(a + b, x.seqId) == Of(a, x.seqId) + Of(b, x.seqId)
      && Booked(c, s.objs[t], s.objs[t].sched.value, Of(a, x.seqId) + [x] + Of(b, x.seqId))
      && Hashed(c, s.blocks.cache.byBlock, s.objs[t].sched.value)
      && WithinLimit(s.objs[t])
      && (s.objs[t].status == Active ==> Live(s.objs[t], s.objs[t].sched.value, Of(a, x.seqId) + [x] + Of(b, x.seqId)))
      && RetireReservation(s.objs[t], x) ==
         s.objs[t].(sched := Some(s.objs[t].sched.value.(res := Totals(Of(a + b, x.seqId)))))
  {
    hide Accounted, Sound;
    assert x in a + [x] + b;
    var t := s.bySeq[x.seqId];
    assert HasSeq(s, t, x.seqId);
    assert t < s.nextTicket;
    hide Places;
    OfDrop(a, x, b, x.seqId);
    HeadBooked(c, s, a + [x] + b, t, x, Of(a, x.seqId), Of(b, x.seqId));
  }

  lemma HeadBooked(c: Config, s: Sched, out: seq<WorkItem>, t: Ticket, x: WorkItem, ia: seq<WorkItem>,
          ib: seq<WorkItem>)
    requires Sound(c, s, out) && HasSeq(s, t, x.seqId) && Of(out, x.seqId) == ia + [x] + ib
    ensures var q := s.objs[t].sched.value;
      && Booked(c, s.objs[t], q, ia + [x] + ib) && Hashed(c, s.blocks.cache.byBlock, q) && WithinLimit(s.objs[t])
      && (s.objs[t].status == Active ==> Live(s.objs[t], q, ia + [x] + ib))
      && RetireReservation(s.objs[t], x) == s.objs[t].(sched := Some(q.(res := Totals(ia + ib))))
  {
    SoundAt(c, s, out, t);
    hide Cap, Live, Hashed, Of, RetireReservation;
    ReleaseTotals(s.objs[t], ia, x, ib);
  }

  lemma DropReqOk(c: Config, cached: map<BlockId, Hash>, r: Request, r': Request, a: seq<WorkItem>, x: WorkItem,
          b: seq<WorkItem>, out: seq<WorkItem>)
    requires r.sched.Some? && Of(out, r.sched.value.seqId) == a + b
    requires Booked(c, r, r.sched.value, a + [x] + b) && Hashed(c, cached, r.sched.value) && WithinLimit(r)
    requires r'.status != Active
    requires r' == r.(status := r'.status, sched := Some(r.sched.value.(res := Totals(a + b))))
    ensures ReqOk(c, cached, r', out)
  {
    hide Booked, Live, Cap, Of, Totals;
    BookedDrop(c, r, r', r.sched.value, a, x, b);
  }

  /** An item of a request that is no longer active only gives back its reservation. */
  lemma CoreDropItem(c: Config, s: Sched, x: WorkItem, a: seq<WorkItem>, b: seq<WorkItem>, st: Status)
    requires Core(c, s, a + [x] + b, {}, multiset{}) && st != Active
    ensures x.seqId in s.bySeq
    ensures s.bySeq[x.seqId] in s.objs
    ensures var t := s.bySeq[x.seqId];
      Core(c, Put(s, t, RetireReservation(s.objs[t], x).(status := st)), a + b, {}, multiset{})
  {
    hide Places, Accounted, Sound, Booked, Live, Hashed, ReqOk, RetireReservation, Of;
    HeadOwner(c, s, x, a, b);
    var t := s.bySeq[x.seqId];
    var r' := RetireReservation(s.objs[t], x).(status := st);
    DropReqOk(c, s.blocks.cache.byBlock, s.objs[t], r', Of(a, x.seqId), x, Of(b, x.seqId), a + b);
    OthersKeepDrop(s, a, x, b, {}, t);
    OutIndexedDrop(s, a, x, b);
    CoreUpdate(c, s, Put(s, t, r'), a + [x] + b, a + b, {}, multiset{}, t, r');
  }

  lemma OutIndexedDrop(s: Sched, a: seq<WorkItem>, x: WorkItem, b: seq<WorkItem>)
    requires OutIndexed(s, a + [x] + b)
    ensures OutIndexed(s, a + b)
  {
    forall y | y in a + b ensures y.seqId in s.bySeq {
      assert y in a + [x] + b;
    }
  }

  lemma FailItemForm(s: Sched, x: WorkItem, e: ErrorCode)
    requires x.seqId in s.bySeq && s.bySeq[x.seqId] in s.objs
    ensures var t := s.bySeq[x.seqId]; var r1 := RetireReservation(s.objs[t], x);
      && r1.status == s.objs[t].status
      && FailItem(s, x, e) == if r1.status == Active then Send(Put(s, t, r1.(status := Failed)), t, ErrorEvent(e))
                              else Put(s, t, r1.(status := r1.status))
  {
    hide RetireReservation, Send;
    var t := s.bySeq[x.seqId];
    var r1 := RetireReservation(s.objs[t], x);
    RetireKeeps(s.objs[t], x);
    PutTwice(s, t, r1, r1.(status := Failed));
  }

  lemma CoreFailItem(c: Config, s: Sched, x: WorkItem, a: seq<WorkItem>, b: seq<WorkItem>, e: ErrorCode)
    requires Core(c, s, a + [x] + b, {}, multiset{})
    ensures Core(c, FailItem(s, x, e), a + b, {}, multiset{})
  {
    hide Core, RetireReservation, Send, Put, FailItem;
    assert x in a + [x] + b;
    CoreItemIndexed(c, s, a + [x] + b, x);
    var t := s.bySeq[x.seqId];
    FailItemForm(s, x, e);
    if s.objs[t].status == Active {
      CoreDropItem(c, s, x, a, b, Failed);
      CoreSend(c, Put(s, t, RetireReservation(s.objs[t], x).(status := Failed)), a + b, {}, multiset{}, t,
          ErrorEvent(e));
    } else {
      CoreDropItem(c, s, x, a, b, s.objs[t].status);
    }
  }

  lemma PutTwice(s: Sched, t: Ticket, r: Request, r': Request)
    ensures Put(Put(s, t, r), t, r') == Put(s, t, r')
  {
    assert s.objs[t := r][t := r'] == s.objs[t := r'];
  }

  lemma RetireKeeps(r: Request, x: WorkItem)
    ensures RetireReservation(r, x) == r.(sched := RetireReservation(r, x).sched)
  {
  }

  lemma CoreItemIndexed(c: Config, s: Sched, out: seq<WorkItem>, x: WorkItem)
    requires Core(c, s, out, {}, multiset{}) && x in out
    ensures x.seqId in s.bySeq && s.bySeq[x.seqId] in s.objs && s.objs[s.bySeq[x.seqId]].sched.Some?
    ensures s.bySeq[x.seqId] in s.running
  {
  }

  // ---------------------------------------------------------------- active requests

  /** The request and sequence with which a retired item leaves. */
  lemma CoreFinish(c: Config, s: Sched, s1: Sched, s': Sched, x: WorkItem, rest: seq<WorkItem>, t: Ticket, r': Request)
    requires Core(c, s, [x] + rest, {}, multiset{}) && HasSeq(s, t, x.seqId) && t in s.running
    requires s1 == s.(blocks := s1.blocks, hist := s1.hist) && s1.hist.leaked == s.hist.leaked
    requires Accounted(c, s1, multiset{}) && OnlyOwn(s, s1, t)
    requires SamePlaces(Put(s, t, r'), s') && s'.blocks == s1.blocks && s'.hist == s1.hist
    requires SameIdentity(s.objs[t], r') && r'.sched.value.table == s.objs[t].sched.value.table
    requires ReqOk(c, s1.blocks.cache.byBlock, r', rest)
    ensures Core(c, s', rest, {}, multiset{})
  {
    hide Places, Accounted, Sound, ReqOk, Of;
    assert [x] + rest == [] + [x] + rest && [] + rest == rest;
    OthersKeepDrop(s, [], x, rest, {}, t);
    OutIndexedDrop(s, [], x, rest);
    PlacesUpdate(s, s', {}, t, r');
    BeyondTickets(s, {});
    AccountedFrame(c, s1, s', multiset{});
    forall u | u in s'.objs && u != t && s'.objs[u].sched.Some?
      ensures CachedBelow(s.blocks.cache.byBlock, s'.blocks.cache.byBlock, s'.objs[u].sched.value.table)
    {
      KnownTicket(s, {}, u);
      assert TableOf(s.objs, u) == s'.objs[u].sched.value.table;
      assert CachedBelow(s.blocks.cache.byBlock, s1.blocks.cache.byBlock, TableOf(s.objs, u));
    }
    SoundStep(c, s, s', [x] + rest, rest, t);
  }

  lemma FrozenHigher(c: Config, cached: map<BlockId, Hash>, q: Sequence, q': Sequence)
    requires Frozen(c, cached, q) && q'.table == q.table
    requires q.frontier - |q.pending| <= q'.frontier - |q'.pending|
    ensures Frozen(c, cached, q')
  {
    hide Cap;
  }

  /** A chunk that does not complete the prompt. */
  lemma CoreRetireChunk(c: Config, s: Sched, x: WorkItem, rest: seq<WorkItem>, t: Ticket)
    requires Core(c, s, [x] + rest, {}, multiset{}) && x.PrefillChunk?
    requires x.seqId in s.bySeq && t == s.bySeq[x.seqId] && t in s.objs && s.objs[t].status == Active
        && s.objs[t].sched.Some?
    requires s.objs[t].sched.value.cursor + |x.tokens| < |s.objs[t].prompt|
    ensures RetireReservation(s.objs[t], x).sched.Some?
    ensures var r1 := RetireReservation(s.objs[t], x);
      Core(c, Put(s, t, r1.(sched := Some(Advance(r1, r1.sched.value, x)))), rest, {}, multiset{})
  {
    hide Places, Accounted, Sound, Booked, Live, Hashed, ReqOk, RetireReservation, Of, Advance;
    assert [x] + rest == [] + [x] + rest && [] + rest == rest;
    HeadOwner(c, s, x, [], rest);
    var r := s.objs[t];
    var q := r.sched.value;
    var items := Of(rest, x.seqId);
    assert Of([], x.seqId) + [x] + items == [x] + items && Of([], x.seqId) + items == items;
    var q1 := Advance(r, q.(res := Totals(items)), x);
    RetireChunkSeq(c, r, q, x, items);
    var r1 := RetireReservation(r, x);
    assert Advance(r1, r1.sched.value, x) == q1 by { AdvancePrompt(r1, r, r1.sched.value, x); }
    AdvanceKeeps(r, q.(res := Totals(items)), x);
    var r' := r.(sched := Some(q1));
    assert Hashed(c, s.blocks.cache.byBlock, q1) by { HashedHigher(c, s.blocks.cache.byBlock, q, q1); }
    NextReqOk(c, s.blocks.cache.byBlock, r, r', q1, items, rest);
    OwnUnchanged(s, t);
    CoreFinish(c, s, s, Put(s, t, r'), x, rest, t, r');
  }

  lemma HashedHigher(c: Config, cached: map<BlockId, Hash>, q: Sequence, q': Sequence)
    requires Hashed(c, cached, q) && q'.table == q.table && q'.pending == q.pending && q.frontier <= q'.frontier
    ensures Hashed(c, cached, q')
  {
    FrozenHigher(c, cached, q, q');
  }

  lemma OwnUnchanged(s: Sched, t: Ticket)
    ensures OnlyOwn(s, s, t)
  {
  }

  lemma AdvancePrompt(r: Request, r': Request, q: Sequence, x: WorkItem)
    requires r.prompt == r'.prompt
    ensures Advance(r, q, x) == Advance(r', q, x)
  {
  }

  lemma AdvanceKeeps(r: Request, q: Sequence, x: WorkItem)
    ensures var q1 := Advance(r, q, x);
      && q1.seqId == q.seqId && q1.table == q.table && q1.pending == q.pending && q1.parent == q.parent
        && q1.res == q.res
  {
  }

  lemma NextReqOk(c: Config, cached: map<BlockId, Hash>, r: Request, r': Request, q: Sequence, items: seq<WorkItem>,
          out: seq<WorkItem>)
    requires Booked(c, r, q, items) && Hashed(c, cached, q) && (r'.status == Active ==> Live(r, q, items))
    requires Of(out, q.seqId) == items && WithinLimit(r)
    requires r' == r.(status := r'.status, sched := Some(q))
    ensures ReqOk(c, cached, r', out)
  {
    hide Booked, Live, Hashed, Of;
    BookedRequest(c, r, r', q, items);
  }

  /** The request after a token was delivered. */
  function Delivered(r: Request, q: Sequence, result: ItemResult): Request {
    var sampled := result.sampled != [];
    var generated := if sampled then r.generated + [result.sampled[0]] else r.generated;
    var finished := result.eos || |generated| >= r.maxTokens;
    var phase := if sampled && q.phase == Bootstrap then Decode else q.phase;
    r.(generated := generated, status := if finished then Finished
                                         else if sampled && !r.open && r.status == Active then Cancelled
                                         else r.status,
       sched := Some(q.(phase := phase)))
  }

  lemma DeliverPlaces(s: Sched, t: Ticket, r: Request, q: Sequence, result: ItemResult)
    requires t in s.objs
    ensures var s' := Deliver(s, t, r, q, result);
      && SamePlaces(Put(s, t, Delivered(r, q, result)), s')
      && s'.blocks == s.blocks && s'.hist == s.hist
  {
    hide Send;
    var r' := Delivered(r, q, result);
    var finished := result.eos || |r'.generated| >= r.maxTokens;
    var r1 := r'.(status := if finished then Finished else r.status);
    var s1 := Put(s, t, r1);
    assert Get(s1, t) == r1;
    SendFrame(s1, t, TokenEvent(Last(r1.generated, 0), r1.status == Finished));
    PutTwice(s, t, r1, r');
    PutTwice(s, t, r1, r1.(status := Finished));
    SendFrame(Put(s, t, r1.(status := Finished)), t, DoneEvent);
  }

  lemma SendFrame(s: Sched, t: Ticket, e: Event)
    ensures Send(s, t, e) == s.(log := Send(s, t, e).log)
  {
    hide Get, LogOf;
  }

  lemma BlockOf(c: Config, d: nat)
    requires c.blockSize > 0
    ensures Cap(c, d / c.blockSize) <= d < Cap(c, d / c.blockSize + 1)
  {
  }

  /** Hashing what the item wrote. */
  lemma HashWrittenOk(c: Config, s: Sched, held: multiset<BlockId>, t: Ticket, r: Request, q0: Sequence, q: Sequence,
          x: WorkItem)
    requires c.blockSize > 0 && Accounted(c, s, held) && t < s.nextTicket && TableOf(s.objs, t) == q.table
    requires Hashed(c, s.blocks.cache.byBlock, q0) && q.table == q0.table && q.pending == q0.pending
    requires x.context == q0.frontier && q.frontier == q0.frontier + KvCount(x) <= Cap(c, |q.table|)
    requires |WrittenTokens(r, x)| == KvCount(x) || KvCount(x) == 0
    ensures var p := HashWritten(c, s, r, q, x);
      && Accounted(c, p.s, held)
      && p.s == s.(blocks := p.s.blocks, hist := p.s.hist) && p.s.hist.leaked == s.hist.leaked
      && p.q == q.(parent := p.q.parent, pending := p.q.pending)
      && Hashed(c, p.s.blocks.cache.byBlock, p.q)
      && OnlyOwn(s, p.s, t)
  {
    hide Accounted, PublishPending, WrittenTokens;
    if KvCount(x) == 0 {
      FrozenHigher(c, s.blocks.cache.byBlock, q0, q);
      OwnUnchanged(s, t);
    } else {
      hide Cap, Frozen;
      var d := q0.frontier - |q0.pending|;
      BlockOf(c, d);
      var q1 := q.(pending := q.pending + WrittenTokens(r, x));
      FrozenHigher(c, s.blocks.cache.byBlock, q0, q1);
      PublishAll(c, s, held, t, q1, d / c.blockSize);
    }
  }

  lemma DeliveredToken(r: Request, q: Sequence, x: WorkItem, result: ItemResult)
    requires |result.sampled| == GenCount(x) && r.status == Active
    ensures var r' := Delivered(r, q, result);
      && r' == r.(generated := r.generated + result.sampled, status := r'.status, sched := r'.sched)
      && r'.sched == Some(q.(phase := if result.sampled != [] && q.phase == Bootstrap then Decode else q.phase))
      && (|r.generated| + |result.sampled| <= r.maxTokens ==> WithinLimit(r'))
  {
    if result.sampled != [] {
      assert result.sampled == [result.sampled[0]];
    } else {
      assert r.generated + result.sampled == r.generated;
    }
  }

  /** An item that completes the prompt or generates a token, on an active request. */
  lemma CoreRetireToken(c: Config, s: Sched, x: WorkItem, rest: seq<WorkItem>, t: Ticket, result: ItemResult)
    requires Core(c, s, [x] + rest, {}, multiset{}) && |result.sampled| == GenCount(x)
    requires x.seqId in s.bySeq && t == s.bySeq[x.seqId] && t in s.objs && s.objs[t].status == Active
        && s.objs[t].sched.Some?
    requires x.PrefillChunk? ==> s.objs[t].sched.value.cursor + |x.tokens| >= |s.objs[t].prompt|
    ensures RetireReservation(s.objs[t], x).sched.Some?
    ensures var s1 := Put(s, t, RetireReservation(s.objs[t], x));
      Core(c, RetireActive(c, s1, t, x, result), rest, {}, multiset{})
  {
    hide Places, Accounted, Sound, Booked, Live, Hashed, ReqOk, RetireReservation, Of, Advance, Cap, HashWritten,
        Deliver, Delivered;
    assert [x] + rest == [] + [x] + rest && [] + rest == rest;
    HeadOwner(c, s, x, [], rest);
    var r := s.objs[t];
    var q := r.sched.value;
    var items := Of(rest, x.seqId);
    assert Of([], x.seqId) + [x] + items == [x] + items && Of([], x.seqId) + items == items;
    var q0 := q.(res := Totals(items));
    var r1 := r.(sched := Some(q0));
    var s1 := Put(s, t, r1);
    var q1 := Advance(r, q0, x);
    assert Advance(r1, q0, x) == q1 by { AdvancePrompt(r1, r, q0, x); }
    AdvanceKeeps(r, q0, x);
    assert x.PrefillChunk? ==> q1.cursor >= |r.prompt| by { AdvanceCursor(r, q0, x); }
    HeadPosition(r, q, x, items);
    RetireTokenSeq(c, r, q, x, items, Delivered(r1, q1, result), result.sampled) by {
      DeliveredToken(r1, q1, x, result);
    }
    WrittenCount(r1, q, x);
    AccountedReserve(c, s, [x] + rest, t, r1);
    assert q1.frontier <= Cap(c, |q1.table|) by { BookedRoom(c, Delivered(r1, q1, result), q1.(phase := Decode),
        items); }
    HashWrittenOk(c, s1, multiset{}, t, r1, q, q1, x);
    var p := HashWritten(c, s1, r1, q1, x);
    assert WithinLimit(Delivered(r1, q1, result)) by {
      BookedRoom(c, Delivered(r1, q1, result), q1.(phase := Decode), items);
    }
    RetireTokenEnd(c, s, x, rest, t, result, r1, q1, p);
  }

  lemma AdvanceCursor(r: Request, q: Sequence, x: WorkItem)
    ensures x.PrefillChunk? ==> Advance(r, q, x).cursor == q.cursor + |x.tokens|
  {
  }

  lemma BookedRoom(c: Config, r: Request, q: Sequence, items: seq<WorkItem>)
    requires Booked(c, r, q, items)
    ensures q.frontier + q.res.kv <= Cap(c, |q.table|)
    ensures |r.generated| + q.res.gen <= r.maxTokens
  {
  }

  lemma WrittenCount(r: Request, q: Sequence, x: WorkItem)
    requires x.DecodeOneToken? && KvCount(x) > 0 ==> r.generated != []
    ensures KvCount(x) > 0 ==> |WrittenTokens(r, x)| == KvCount(x)
  {
  }

  lemma AccountedReserve(c: Config, s: Sched, out: seq<WorkItem>, t: Ticket, r: Request)
    requires Core(c, s, out, {}, multiset{}) && t in s.objs && s.objs[t].sched.Some? && r.sched.Some?
    requires r.sched.value.table == s.objs[t].sched.value.table
    ensures Accounted(c, Put(s, t, r), multiset{})
    ensures s.nextTicket !in s.objs
  {
    hide Places, Accounted, Sound;
    BeyondTickets(s, {});
    AccountedFrame(c, s, Put(s, t, r), multiset{});
  }

  lemma HashIndependent(c: Config, r: Request, q: Sequence, q': Sequence, items: seq<WorkItem>)
    requires Booked(c, r, q, items) && q' == q.(parent := q'.parent, pending := q'.pending)
    ensures Booked(c, r, q', items)
    ensures q.phase == Decode ==> (Live(r, q, items) <==> Live(r, q', items))
  {
    hide Cap;
  }

  lemma DeliveredPhase(r: Request, q: Sequence, result: ItemResult)
    requires q.phase == Decode || (q.phase == Bootstrap && result.sampled != [])
    ensures Delivered(r, q, result).sched == Some(q.(phase := Decode))
    ensures forall q' :: Delivered(r, q', result).(sched := None) == Delivered(r, q, result).(sched := None)
  {
  }

  lemma RetireTokenEnd(c: Config, s: Sched, x: WorkItem, rest: seq<WorkItem>, t: Ticket, result: ItemResult,
          r1: Request, q1: Sequence, p: Published)
    requires Core(c, s, [x] + rest, {}, multiset{}) && HasSeq(s, t, x.seqId) && t in s.running
    requires r1 == s.objs[t].(sched := r1.sched) && r1.sched.Some?
        && r1.sched.value.table == s.objs[t].sched.value.table
    requires q1.seqId == x.seqId && q1.table == s.objs[t].sched.value.table
    requires q1.phase == Decode || (q1.phase == Bootstrap && result.sampled != [])
    requires Booked(c, Delivered(r1, q1, result), q1.(phase := Decode), Of(rest, x.seqId))
    requires Live(Delivered(r1, q1, result), q1.(phase := Decode), Of(rest, x.seqId))
    requires WithinLimit(Delivered(r1, q1, result))
    requires Accounted(c, p.s, multiset{})
    requires p.s == Put(s, t, r1).(blocks := p.s.blocks, hist := p.s.hist) && p.s.hist.leaked == s.hist.leaked
    requires p.q == q1.(parent := p.q.parent, pending := p.q.pending)
    requires Hashed(c, p.s.blocks.cache.byBlock, p.q) && OnlyOwn(Put(s, t, r1), p.s, t)
    ensures Core(c, Deliver(p.s, t, r1, p.q, result), rest, {}, multiset{})
  {
    hide Places, Accounted, Sound, Booked, Live, Hashed, ReqOk, Of, Cap, Deliver, Delivered;
    var r' := Delivered(r1, p.q, result);
    DeliveredPhase(r1, p.q, result);
    DeliveredPhase(r1, q1, result);
    assert r'.(sched := None) == Delivered(r1, q1, result).(sched := None);
    var q' := p.q.(phase := Decode);
    HashIndependent(c, Delivered(r1, q1, result), q1.(phase := Decode), q', Of(rest, x.seqId));
    assert Hashed(c, p.s.blocks.cache.byBlock, q') by { HashedHigher(c, p.s.blocks.cache.byBlock, p.q, q'); }
    NextReqOk(c, p.s.blocks.cache.byBlock, Delivered(r1, q1, result), r', q', Of(rest, x.seqId), rest);
    DeliverPlaces(p.s, t, r1, p.q, result);
    DeliveredIdentity(r1, p.q, result);
    var s2 := s.(blocks := p.s.blocks, hist := p.s.hist);
    BeyondTicketsCore(c, s, [x] + rest);
    AccountedFrame(c, p.s, s2, multiset{});
    assert OnlyOwn(s, s2, t) by {
      forall u: Ticket | u < s.nextTicket && u != t
        ensures CachedBelow(s.blocks.cache.byBlock, s2.blocks.cache.byBlock, TableOf(s.objs, u))
      {
        assert TableOf(p.s.objs, u) == TableOf(s.objs, u);
        assert CachedBelow(Put(s, t, r1).blocks.cache.byBlock, p.s.blocks.cache.byBlock,
            TableOf(Put(s, t, r1).objs, u));
      }
    }
    assert Put(p.s, t, r').objs == s.objs[t := r'];
    CoreFinish(c, s, s2, Deliver(p.s, t, r1, p.q, result), x, rest, t, r');
  }

  lemma DeliveredIdentity(r: Request, q: Sequence, result: ItemResult)
    ensures Delivered(r, q, result).id == r.id
  {
  }

  lemma BeyondTicketsCore(c: Config, s: Sched, out: seq<WorkItem>)
    requires Core(c, s, out, {}, multiset{})
    ensures s.nextTicket !in s.objs
  {
    hide Accounted, Sound;
  }

  lemma CoreRetireWork(c: Config, s: Sched, x: WorkItem, rest: seq<WorkItem>, result: ItemResult)
    requires Core(c, s, [x] + rest, {}, multiset{}) && ResultOk(x, result)
    requires x.seqId in s.bySeq && result.stale ==> Get(s, s.bySeq[x.seqId]).status != Active
    ensures Core(c, RetireWork(c, s, x, result), rest, {}, multiset{})
  {
    hide Core, RetireReservation, HashWritten, Deliver, Advance;
    CoreItemIndexed(c, s, [x] + rest, x);
    var t := s.bySeq[x.seqId];
    var r := s.objs[t];
    RetireKeeps(r, x);
    var r1 := RetireReservation(r, x);
    if result.stale || r.status != Active {
      assert [x] + rest == [] + [x] + rest && [] + rest == rest;
      CoreDropItem(c, s, x, [], rest, r.status);
      assert r1.(status := r.status) == r1;
    } else {
      RetireCursor(r, x);
      AdvanceCursor(r1, r1.sched.value, x);
      if x.PrefillChunk? && r.sched.value.cursor + |x.tokens| < |r.prompt| {
        CoreRetireChunk(c, s, x, rest, t);
        PutTwice(s, t, r1, r1.(sched := Some(Advance(r1, r1.sched.value, x))));
      } else {
        CoreRetireToken(c, s, x, rest, t, result);
      }
    }
  }

  lemma RetireCursor(r: Request, x: WorkItem)
    requires r.sched.Some?
    ensures RetireReservation(r, x).sched.Some? && RetireReservation(r, x).sched.value.cursor == r.sched.value.cursor
  {
  }
}
