/** The block references behind every table: what the scheduler may give back at any moment. */
module BookLemmas {
  import opened Types
  import opened Blocks
  import opened BlockLemmas
  import opened State
  import opened Scheduling
  import opened Invariant
  import opened OutLemmas
  import opened AccountLemmas
  import opened SequenceLemmas
  import opened RetireLemmas

  /** Every reference is accounted for by the tables of known requests. */
  ghost predicate Balanced(c: Config, s: Sched) {
    Accounted(c, s, multiset{}) && forall t :: t in s.objs ==> t < s.nextTicket
  }

  /** The references of a request's table are there to be given back. */
  ghost predicate Freeable(s: Sched, t: Ticket) {
    Releasable(s.blocks, TableOf(s.objs, t))
  }

  ghost predicate Payable(s: Sched) {
    Valid(s.blocks) && forall t :: Freeable(s, t)
  }

  lemma TableFreeable(c: Config, s: Sched, held: multiset<BlockId>, t: Ticket)
    requires Accounted(c, s, held) && (t in s.objs ==> t < s.nextTicket)
    ensures Freeable(s, t)
  {
    hide Valid, Owned;
    forall b: BlockId ensures multiset(TableOf(s.objs, t))[b] <= s.blocks.Refs(b) {
      if t in s.objs { OwnedAtLeast(s.objs, t, s.nextTicket, b); }
    }
  }

  lemma HeldReleasable(c: Config, s: Sched, table: seq<BlockId>)
    requires Accounted(c, s, multiset(table))
    ensures Releasable(s.blocks, table)
  {
    hide Valid, Owned;
  }

  lemma AccountedPayable(c: Config, s: Sched, held: multiset<BlockId>)
    requires Accounted(c, s, held) && forall t :: t in s.objs ==> t < s.nextTicket
    ensures Payable(s)
  {
    hide Valid, Conserved, Private, Freeable;
    forall t: Ticket ensures Freeable(s, t) { TableFreeable(c, s, held, t); }
  }

  lemma CoreBooks(c: Config, s: Sched, out: seq<WorkItem>, hand: set<Ticket>, held: multiset<BlockId>)
    requires Core(c, s, out, hand, held)
    ensures Payable(s) && Accounted(c, s, held) && c.Valid()
    ensures held == multiset{} ==> Balanced(c, s)
  {
    hide Payable, Accounted, Named, Sequenced, Distinct, Sound;
    AccountedPayable(c, s, held);
  }

  lemma PayableAt(s: Sched, t: Ticket)
    requires Payable(s)
    ensures Valid(s.blocks) && Freeable(s, t)
  {
  }

  lemma PayableSame(s: Sched, s': Sched)
    requires Payable(s) && s'.blocks == s.blocks && s'.objs == s.objs
    ensures Payable(s')
  {
    hide Valid, Releasable;
    forall t: Ticket ensures Freeable(s', t) { assert Freeable(s, t); }
  }

  lemma ErrorTable(s: Sched, t: Ticket, e: ErrorCode)
    requires t in s.objs
    ensures SendError(s, t, e).blocks == s.blocks && TableOf(SendError(s, t, e).objs, t) == TableOf(s.objs, t)
  {
  }

  // ---------------------------------------------------------------- what leaves the books balanced

  lemma BalancedRelease(c: Config, s: Sched, t: Ticket)
    requires Balanced(c, s)
    ensures Balanced(c, ReleaseScheduling(s, t)) && TableOf(ReleaseScheduling(s, t).objs, t) == []
  {
    hide Conserved, Private, Valid, ReleaseTable;
    if t in s.objs && s.objs[t].sched.Some? {
      var table := s.objs[t].sched.value.table;
      var s1 := s.(objs := s.objs[t := s.objs[t].(sched := None)]);
      assert multiset{} + multiset(table) == multiset(table) + multiset([]);
      AccountedMove(c, s, s1, multiset{}, multiset(table), t);
      var s2 := s1.(blocks := ReleaseTable(s.blocks, table));
      AccountedRelease(c, s1, s2, multiset(table), table);
      assert multiset(table) - multiset(table) == multiset{};
      BooksSame(c, s2, ReleaseScheduling(s, t));
    }
  }

  lemma BooksSame(c: Config, s: Sched, s': Sched)
    requires Accounted(c, s, multiset{}) && s'.blocks == s.blocks && s'.objs == s.objs && s'.nextTicket == s.nextTicket
    requires s'.hist.leaked == s.hist.leaked
    ensures Accounted(c, s', multiset{})
  {
    hide Valid, Owned;
  }

  /** A request without a table is forgotten. */
  lemma BalancedErase(c: Config, s: Sched, s': Sched, t: Ticket)
    requires Balanced(c, s) && TableOf(s.objs, t) == [] && s'.objs == s.objs - {t}
    requires s'.blocks == s.blocks && s'.hist.leaked == s.hist.leaked && s'.nextTicket == s.nextTicket
    ensures Balanced(c, s')
  {
    hide Conserved, Private, Valid;
    AccountedFrame(c, s, s', multiset{});
  }

  lemma BalancedDismiss(c: Config, s: Sched, t: Ticket, e: Event)
    requires Balanced(c, s)
    ensures Balanced(c, Dismiss(s, t, e))
  {
    hide Balanced, ReleaseScheduling;
    BalancedRelease(c, s, t);
    BalancedErase(c, ReleaseScheduling(s, t), Dismiss(s, t, e), t);
  }

  lemma BalancedForget(c: Config, s: Sched, t: Ticket)
    requires Balanced(c, s)
    ensures Balanced(c, EraseRequest(ReleaseScheduling(s, t), t))
  {
    hide Balanced, ReleaseScheduling;
    BalancedRelease(c, s, t);
    BalancedErase(c, ReleaseScheduling(s, t), EraseRequest(ReleaseScheduling(s, t), t), t);
  }

  lemma BalancedReap(c: Config, s: Sched, t: Ticket)
    requires Balanced(c, s)
    ensures Balanced(c, Reap(s, t))
  {
    hide Balanced, ReleaseScheduling, DropTicket;
    BalancedRelease(c, s, t);
    BalancedErase(c, ReleaseScheduling(s, t), Reap(s, t), t);
  }

  lemma BalancedError(c: Config, s: Sched, t: Ticket, e: ErrorCode)
    requires Balanced(c, s) && t in s.objs
    ensures Balanced(c, SendError(s, t, e)) && TableOf(SendError(s, t, e).objs, t) == TableOf(s.objs, t)
  {
    hide Conserved, Private, Valid;
    AccountedFrame(c, s, SendError(s, t, e), multiset{});
  }

  lemma BalancedTerminate(c: Config, s: Sched, t: Ticket, e: ErrorCode)
    requires Balanced(c, s)
    ensures Balanced(c, Terminate(s, t, e))
  {
    hide Balanced, ReleaseScheduling, DropTicket, SendError;
    if Get(s, t).sched.Some? {
      if Get(s, t).status == Active { BalancedError(c, s, t, e); }
      var s1 := if Get(s, t).status == Active then SendError(s, t, e) else s;
      BalancedRelease(c, s1, t);
      BalancedErase(c, ReleaseScheduling(s1, t), Terminate(s, t, e), t);
    }
  }

  lemma BalancedPayable(c: Config, s: Sched)
    requires Balanced(c, s)
    ensures Payable(s)
  {
    hide Payable, Accounted;
    AccountedPayable(c, s, multiset{});
  }

  /** Queues do not matter. */
  lemma BalancedQueues(c: Config, s: Sched, s': Sched)
    requires Balanced(c, s) && s' == s.(waiting := s'.waiting, skip := s'.skip, running := s'.running,
        paused := s'.paused)
    ensures Balanced(c, s')
  {
    hide Valid, Owned;
  }

  // ---------------------------------------------------------------- publishing

  /** Sequence q, advanced from q0 by item x, is ready to have its written tokens hashed. */
  ghost predicate Writable(c: Config, s: Sched, t: Ticket, r: Request, q0: Sequence, q: Sequence, x: WorkItem) {
    && c.blockSize > 0 && Accounted(c, s, multiset{}) && t < s.nextTicket && TableOf(s.objs, t) == q.table
    && Hashed(c, s.blocks.cache.byBlock, q0) && q.table == q0.table && q.pending == q0.pending
    && x.context == q0.frontier && q.frontier == q0.frontier + KvCount(x) <= Cap(c, |q.table|)
    && (KvCount(x) > 0 ==> |WrittenTokens(r, x)| == KvCount(x))
  }

  lemma HeadRoom(c: Config, r: Request, q: Sequence, x: WorkItem, items: seq<WorkItem>)
    requires Booked(c, r, q, [x] + items)
    ensures x.context + KvCount(x) <= Cap(c, |q.table|)
  {
    hide Ordered, Cap, Totals;
    assert x in [x] + items;
    assert ItemFits(c, x, q);
    CapMono(c, |x.table|, |q.table|);
  }

  lemma AdvanceFrontier(r: Request, q: Sequence, x: WorkItem)
    requires x.context == q.frontier
    ensures Advance(r, q, x).frontier == q.frontier + KvCount(x)
  {
  }

  /** The oldest outstanding item of an active request that has its whole prompt. */
  lemma HeadWritable(c: Config, s: Sched, x: WorkItem, rest: seq<WorkItem>, t: Ticket)
    requires Core(c, s, [x] + rest, {}, multiset{}) && x.seqId in s.bySeq && t == s.bySeq[x.seqId] && t in s.objs
    requires s.objs[t].status == Active && s.objs[t].sched.Some?
    ensures var r := RetireReservation(s.objs[t], x);
      && r.sched.Some?
      && Writable(c, Put(s, t, r), t, r, s.objs[t].sched.value, Advance(r, r.sched.value, x), x)
  {
    hide Places, Accounted, Sound, Booked, Live, Hashed, ReqOk, RetireReservation, Of, Advance, Cap;
    assert [x] + rest == [] + [x] + rest && [] + rest == rest;
    HeadOwner(c, s, x, [], rest);
    var r := s.objs[t];
    var q := r.sched.value;
    var items := Of(rest, x.seqId);
    assert Of([], x.seqId) + [x] + items == [x] + items && Of([], x.seqId) + items == items;
    var q0 := q.(res := Totals(items));
    var r1 := r.(sched := Some(q0));
    AdvanceKeeps(r1, q0, x);
    HeadPosition(r, q, x, items);
    AdvanceFrontier(r1, q0, x);
    HeadRoom(c, r, q, x, items);
    WrittenCount(r1, q, x);
    AccountedReserve(c, s, [x] + rest, t, r1);
  }

  /** Hashing starts at the first block that is not complete yet. */
  lemma FirstPublished(c: Config, s: Sched, t: Ticket, r: Request, q0: Sequence, q: Sequence, x: WorkItem)
    requires Writable(c, s, t, r, q0, q, x) && KvCount(x) > 0
    ensures |q.pending| <= x.context
    ensures Publishing(c, s, t, q.(pending := q.pending + WrittenTokens(r, x)), (x.context - |q.pending|) / c.blockSize)
  {
    hide Accounted, Cap, Frozen;
    BlockOf(c, q0.frontier - |q0.pending|);
    FrozenHigher(c, s.blocks.cache.byBlock, q0, q.(pending := q.pending + WrittenTokens(r, x)));
  }

  /** The block about to be published has no cache entry yet and is in use. */
  lemma PublishTable(c: Config, s: Sched, t: Ticket, q: Sequence, i: nat)
    requires Accounted(c, s, multiset{}) && Publishing(c, s, t, q, i) && i < |q.table|
    ensures Valid(s.blocks) && s.blocks.Refs(q.table[i]) > 0
  {
    hide Cap, Frozen, Valid;
    TableBlock(c, s, multiset{}, t, i);
  }
}
