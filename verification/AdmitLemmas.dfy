/** Admission, suspension and eviction keep the core invariant. */
module AdmitLemmas {
  import opened Types
  import opened Blocks
  import opened BlockLemmas
  import opened Hashing
  import opened State
  import opened Scheduling
  import opened Invariant
  import opened PlaceLemmas
  import opened AccountLemmas
  import opened CoreLemmas
  import opened BuildLemmas

  /** Flags, counters and history other than lost blocks do not matter. */
  lemma CoreQuiet(c: Config, s: Sched, s': Sched, out: seq<WorkItem>, hand: set<Ticket>, held: multiset<BlockId>)
    requires Core(c, s, out, hand, held)
    requires SamePlaces(s, s') && s'.blocks == s.blocks && s'.hist.leaked == s.hist.leaked
    ensures Core(c, s', out, hand, held)
  {
    hide Places, Accounted, Sound;
    PlacesSame(s, s', hand);
    CoreSame(c, s, s', out, hand, held);
  }

  /** A request in hand without a sequence may change freely, except for its name. */
  lemma CoreRewrite(c: Config, s: Sched, out: seq<WorkItem>, hand: set<Ticket>, held: multiset<BlockId>, t: Ticket,
          r: Request)
    requires Core(c, s, out, hand, held) && t in hand && t in s.objs && s.objs[t].sched.None?
    requires r.sched.None? && r.id == s.objs[t].id && WithinLimit(r)
    ensures Core(c, Put(s, t, r), out, hand, held)
  {
    hide Places, Accounted, Sound, ReqOk;
    OthersSame(s, out, t);
    UnscheduledOk(c, s.blocks.cache.byBlock, r, out);
    CoreUpdate(c, s, Put(s, t, r), out, out, hand, held, t, r);
  }

  lemma ReleasePrepared(s: Sched, t: Ticket)
    requires t in s.objs
    ensures ReleaseScheduling(Put(s, t, PrepareForWait(s.objs[t])), t)
         == Put(ReleaseScheduling(s, t), t, PrepareForWait(s.objs[t]).(sched := None))
  {
    hide ReleaseTable;
    var r := s.objs[t];
    var r1 := PrepareForWait(r).(sched := None);
    var a := ReleaseScheduling(Put(s, t, PrepareForWait(r)), t);
    assert a.objs == s.objs[t := r1];
    assert Put(ReleaseScheduling(s, t), t, r1).objs == s.objs[t := r1];
    assert r.sched.None? ==> PrepareForWait(r) == r1;
  }

  /** A request in hand gives up its sequence and waits, to be replayed later. */
  lemma CoreToWait(c: Config, s: Sched, out: seq<WorkItem>, hand: set<Ticket>, held: multiset<BlockId>, t: Ticket)
    requires Core(c, s, out, hand, held) && t in hand && t in s.objs && Open(s.objs[t].status)
    ensures var s1 := ReleaseScheduling(Put(s, t, PrepareForWait(s.objs[t])), t);
      Core(c, s1.(waiting := [t] + s1.waiting), out, hand - {t}, held)
  {
    hide Core, ReleaseScheduling, PrepareForWait;
    CoreWithinLimit(c, s, out, hand, held, t);
    var r := s.objs[t];
    CoreRelease(c, s, out, hand, held, t);
    var s0 := ReleaseScheduling(s, t);
    ReleasedRequest(s, t);
    PreparedKeeps(r);
    var r1 := PrepareForWait(r).(sched := None);
    CoreRewrite(c, s0, out, hand, held, t, r1);
    ReleasePrepared(s, t);
    CorePushWaiting(c, Put(s0, t, r1), out, hand, held, t);
  }

  lemma ReleasedRequest(s: Sched, t: Ticket)
    requires t in s.objs
    ensures t in ReleaseScheduling(s, t).objs && ReleaseScheduling(s, t).objs[t] == s.objs[t].(sched := None)
    ensures ReleaseScheduling(s, t).waiting == s.waiting
  {
    hide ReleaseTable;
  }

  lemma CoreWithinLimit(c: Config, s: Sched, out: seq<WorkItem>, hand: set<Ticket>, held: multiset<BlockId>, t: Ticket)
    requires Core(c, s, out, hand, held) && t in s.objs
    ensures WithinLimit(s.objs[t])
  {
    hide Places, Accounted, Sound;
    WithinLimitAt(c, s, out, t);
  }

  lemma CoreEvictSkipped(c: Config, s: Sched, out: seq<WorkItem>, hand: set<Ticket>, held: multiset<BlockId>)
    requires Core(c, s, out, hand, held)
    ensures Core(c, EvictSkipped(s).s, out, hand, held)
  {
    hide Core, ReleaseScheduling, PrepareForWait;
    if s.skip != [] {
      var t := s.skip[0];
      SkipHandFree(c, s, out, hand, held);
      CorePopSkip(c, s, out, hand, held);
      CoreToWait(c, s.(skip := s.skip[1..]), out, hand + {t}, held, t);
      assert hand + {t} - {t} == hand;
    }
  }

  lemma SkipHandFree(c: Config, s: Sched, out: seq<WorkItem>, hand: set<Ticket>, held: multiset<BlockId>)
    requires Core(c, s, out, hand, held) && s.skip != []
    ensures s.skip[0] !in hand
  {
    assert s.skip[0] in s.skip;
  }

  /** Releasing a detached request is the same as releasing it in place and then dropping it. */
  lemma CoreSuspendRunning(c: Config, s: Sched, out: seq<WorkItem>, hand: set<Ticket>, held: multiset<BlockId>)
    requires Core(c, s, out, hand, held)
    ensures Core(c, SuspendRunning(s).s, out, hand, held)
  {
    hide Core, ReleaseTable, PrepareForWait, FindVictim;
    var v := FindVictim(s);
    if v.Some? {
      var t := v.value;
      CoreRunning(c, s, out, hand, held, t);
      var r := s.objs[t];
      CoreDetach(c, s, out, hand, held, t);
      var d := s.(running := DropTicket(s.running, t), bySeq := s.bySeq - {r.sched.value.seqId});
      CoreToWait(c, d, out, hand + {t}, held, t);
      assert hand + {t} - {t} == hand;
      var d1 := ReleaseScheduling(Put(d, t, PrepareForWait(r)), t);
      var d2 := d1.(waiting := [t] + d1.waiting);
      var s1 := ReleaseScheduling(Put(s, t, PrepareForWait(r)), t);
      PreparedKeeps(r);
      assert d.bySeq - {r.sched.value.seqId} == d.bySeq;
      var s2 := s1.(running := DropTicket(s1.running, t), waiting := [t] + s1.waiting);
      assert s2 == d2;
      CoreQuiet(c, d2, SuspendRunning(s).s, out, hand, held);
    }
  }

  lemma PreparedKeeps(r: Request)
    ensures PrepareForWait(r) == r.(prompt := PrepareForWait(r).prompt)
  {
  }

  lemma CoreRunning(c: Config, s: Sched, out: seq<WorkItem>, hand: set<Ticket>, held: multiset<BlockId>, t: Ticket)
    requires Core(c, s, out, hand, held) && t in s.running
    ensures t in s.objs && s.objs[t].sched.Some? && t !in hand && t < s.nextTicket
    ensures s.objs[t].sched.value.seqId in s.bySeq && s.bySeq[s.objs[t].sched.value.seqId] == t
  {
  }

  lemma CoreMakeRoom(c: Config, s: Sched, out: seq<WorkItem>, hand: set<Ticket>, held: multiset<BlockId>)
    requires Core(c, s, out, hand, held)
    ensures Core(c, MakeRoom(s), out, hand, held)
  {
    hide Core, SuspendRunning;
    CoreEvictSkipped(c, s, out, hand, held);
    CoreSuspendRunning(c, s, out, hand, held);
  }

  /** The client hears an event and the request in hand is forgotten. */
  lemma CoreDismiss(c: Config, s: Sched, out: seq<WorkItem>, hand: set<Ticket>, held: multiset<BlockId>, t: Ticket,
          e: Event)
    requires Core(c, s, out, hand, held) && t in hand && t in s.objs
    ensures Core(c, Dismiss(s, t, e), out, hand - {t}, held)
  {
    hide Core, ReleaseTable, EraseRequest;
    CoreRelease(c, s, out, hand, held, t);
    CoreSend(c, ReleaseScheduling(s, t), out, hand, held, t, e);
    CoreErase(c, Send(ReleaseScheduling(s, t), t, e), out, hand, held, t);
  }

  lemma CoreAdmitSkipped(c: Config, g: Stage, base: seq<WorkItem>, raised: bool)
    requires Core(c, g.s, base + g.items, {}, multiset{})
    ensures var a := AdmitSkipped(c, g, raised); Core(c, a.g.s, base + a.g.items, {}, multiset{})
  {
    hide Core, Dismiss, BuildWork, ReleaseScheduling;
    if g.budget != 0 && g.s.skip != [] && |g.s.running| < c.maxRunning {
      var out := base + g.items;
      var t := g.s.skip[0];
      CorePopSkip(c, g.s, out, {}, multiset{});
      assert {} + {t} == {t} && {t} - {t} == {};
      var s := g.s.(skip := g.s.skip[1..]);
      var s1 := s.(accepting := s.accepting && !raised);
      CoreQuiet(c, s, s1, out, {t}, multiset{});
      CoreDismiss(c, s, out, {t}, multiset{}, t, ErrorEvent(RequestCancelled));
      CoreDismiss(c, s, out, {t}, multiset{}, t, DoneEvent);
      CoreDismiss(c, s1, out, {t}, multiset{}, t, ErrorEvent(ServerShuttingDown));
      CoreDismissDone(c, s1, out, t);
      CorePushRunning(c, s1, out, {t}, multiset{}, t);
      var s2 := s1.(bySeq := s1.bySeq[s1.objs[t].sched.value.seqId := t], running := s1.running + [t]);
      CoreBuildWork(c, g.(s := s2), base, {}, multiset{}, t);
    }
  }

  lemma CoreDismissDone(c: Config, s: Sched, out: seq<WorkItem>, t: Ticket)
    requires Core(c, s, out, {t}, multiset{}) && t in s.objs
    ensures Core(c, EraseRequest(SendDone(ReleaseScheduling(s, t), t), t), out, {}, multiset{})
  {
    hide Core, ReleaseScheduling, EraseRequest, LogOf;
    var s1 := ReleaseScheduling(s, t);
    CoreRelease(c, s, out, {t}, multiset{}, t);
    ReleasedRequest(s, t);
    CoreSendDone(c, s1, out, {t}, multiset{}, t);
    CoreErase(c, SendDone(s1, t), out, {t}, multiset{}, t);
    assert {t} - {t} == {};
  }

  // ---------------------------------------------------------------- prompts

  lemma CoreLookup(c: Config, s: Sched, s': Sched, out: seq<WorkItem>, hand: set<Ticket>, hs: seq<Hash>)
    requires Core(c, s, out, hand, multiset{})
    requires SamePlaces(s, s') && s'.hist.leaked == s.hist.leaked
    requires s'.blocks == LookupPrefix(s.blocks, hs).store
    ensures Core(c, s', out, hand, multiset(LookupPrefix(s.blocks, hs).table))
    ensures s'.blocks.cache.byBlock == s.blocks.cache.byBlock
  {
    hide Places, Accounted, Sound, LookupPrefix;
    AccountedLookup(c, s, s', hs, multiset{});
    var table := LookupPrefix(s.blocks, hs).table;
    assert multiset{} + multiset(table) == multiset(table);
    PlacesSame(s, s', hand);
    SoundSame(c, s, s', out);
  }

  lemma CoreReleaseHeld(c: Config, s: Sched, out: seq<WorkItem>, hand: set<Ticket>, table: seq<BlockId>)
    requires Core(c, s, out, hand, multiset(table))
    ensures Core(c, s.(blocks := ReleaseTable(s.blocks, table)), out, hand, multiset{})
  {
    hide Places, Accounted, Sound, ReleaseTable;
    var s' := s.(blocks := ReleaseTable(s.blocks, table));
    AccountedRelease(c, s, s', multiset(table), table);
    assert multiset(table) - multiset(table) == multiset{};
    PlacesSame(s, s', hand);
    SoundSame(c, s, s', out);
  }

  /** What an admissible prompt and its table satisfy. */
  ghost predicate Fits(c: Config, cached: map<BlockId, Hash>, r: Request, hits: nat, table: seq<BlockId>) {
    && r.prompt != [] && |r.prompt| <= r.maxContext <= Cap(c, c.maxBlocks)
    && 0 < r.maxTokens && |r.generated| <= r.maxTokens
    && Cap(c, hits) <= |r.prompt| <= Cap(c, |table|)
    && (forall i | hits <= i < |table| :: table[i] !in cached)
  }

  lemma AdmittedOk(c: Config, s: Sched, cached: map<BlockId, Hash>, r: Request, hits: nat, parent: Hash,
          table: seq<BlockId>)
    requires c.Valid() && Fits(c, cached, r, hits, table) && Open(r.status)
    ensures SeqOk(c, cached, r, Admitted(c, s, r, hits, parent, table), [])
  {
    var q := Admitted(c, s, r, hits, parent, table);
    forall i | 0 <= i < |table| && table[i] in cached ensures Cap(c, i + 1) <= q.frontier {
      CapMono(c, i + 1, hits);
    }
  }

  lemma CoreEnlist(c: Config, s: Sched, out: seq<WorkItem>, t: Ticket, hits: nat, parent: Hash, table: seq<BlockId>)
    requires t in s.objs && s.objs[t].sched.None? && Open(s.objs[t].status)
    requires Core(c, s, out, {t}, multiset(table))
    requires Fits(c, s.blocks.cache.byBlock, s.objs[t], hits, table)
    ensures Core(c, Enlist(c, s, t, s.objs[t], hits, parent, table), out, {}, multiset{})
  {
    hide Places, Accounted, Sound, Fits, ReqOk, SeqOk, Admitted;
    var r := s.objs[t];
    var q := Admitted(c, s, r, hits, parent, table);
    AdmittedShape(c, s, r, hits, parent, table);
    var r' := r.(sched := Some(q));
    var s' := Enlist(c, s, t, r, hits, parent, table);
    assert {t} - {t} == {};
    InHand(s, {t}, t);
    PlacesEnlist(s, s', {t}, t, r');
    assert multiset(table) + multiset([]) == multiset{} + multiset(table);
    AccountedMove(c, s, s', multiset(table), multiset{}, t);
    AdmittedOk(c, s, s.blocks.cache.byBlock, r, hits, parent, table);
    OfNone(out, q.seqId) by {
      forall x | x in out ensures x.seqId != q.seqId {}
    }
    EnlistedOk(c, s.blocks.cache.byBlock, r, r', q, out);
    SoundStep(c, s, s', out, out, t);
  }

  lemma AdmittedShape(c: Config, s: Sched, r: Request, hits: nat, parent: Hash, table: seq<BlockId>)
    ensures var q := Admitted(c, s, r, hits, parent, table); q.seqId == s.nextSeq && q.table == table
  {
  }

  lemma EnlistedOk(c: Config, cached: map<BlockId, Hash>, r: Request, r': Request, q: Sequence, out: seq<WorkItem>)
    requires SeqOk(c, cached, r, q, []) && Of(out, q.seqId) == []
    requires r' == r.(sched := Some(q))
    ensures ReqOk(c, cached, r', out)
  {
    hide Cap;
  }

  lemma CoreRebuff(c: Config, s: Sched, out: seq<WorkItem>, t: Ticket, table: seq<BlockId>)
    requires t in s.objs && s.objs[t].sched.None? && Open(s.objs[t].status)
    requires Core(c, s, out, {t}, multiset(table))
    ensures Core(c, Rebuff(s, t, table), out, {}, multiset{})
  {
    hide Core, MakeRoom, ReleaseTable;
    var s0 := s.(blocks := ReleaseTable(s.blocks, table));
    CoreReleaseHeld(c, s, out, {t}, table);
    CoreMakeRoom(c, s0, out, {t}, multiset{});
    var s1 := MakeRoom(s0);
    MakeRoomSpares(c, s0, out, t);
    CoreQuiet(c, s1, s1.(shortage := false), out, {t}, multiset{});
    CorePushWaiting(c, s1.(shortage := false), out, {t}, multiset{}, t);
    assert {t} - {t} == {};
  }

  /** Making room does not touch a request in hand. */
  lemma MakeRoomSpares(c: Config, s: Sched, out: seq<WorkItem>, t: Ticket)
    requires Core(c, s, out, {t}, multiset{}) && t in s.objs
    ensures t in MakeRoom(s).objs && MakeRoom(s).objs[t] == s.objs[t]
  {
    hide Core, FindVictim, ReleaseScheduling, PrepareForWait;
    if s.skip != [] {
      SkipHandFree(c, s, out, {t}, multiset{});
      var s1 := s.(skip := s.skip[1..]);
      ReleaseSpares(Put(s1, s.skip[0], PrepareForWait(Get(s1, s.skip[0]))), s.skip[0], t);
    } else if FindVictim(s).Some? {
      var v := FindVictim(s).value;
      CoreRunning(c, s, out, {t}, multiset{}, v);
      ReleaseSpares(Put(s, v, PrepareForWait(Get(s, v))), v, t);
    }
  }

  lemma ReleaseSpares(s: Sched, u: Ticket, t: Ticket)
    requires u != t && t in s.objs
    ensures t in ReleaseScheduling(s, u).objs && ReleaseScheduling(s, u).objs[t] == s.objs[t]
  {
    hide ReleaseTable;
  }

  lemma FitsPrompt(c: Config, s: Sched, r: Request, found: Lookup, k: Taken, n: nat)
    requires c.Valid() && Valid(s.blocks)
    requires r.prompt != [] && |r.prompt| <= r.maxContext <= Cap(c, c.maxBlocks) && 0 < r.maxTokens
        && |r.generated| <= r.maxTokens
    requires found == LookupPrefix(s.blocks, ChainHashes(c, r.prompt, 0, 0))
    requires n == Sub(BlocksFor(c, |r.prompt|), |found.table|) && |k.table| == n
    requires forall b :: b in k.table ==> !k.s.blocks.Cached(b)
    ensures Fits(c, k.s.blocks.cache.byBlock, r, |found.table|, found.table + k.table)
  {
    var hashes := ChainHashes(c, r.prompt, 0, 0);
    LookupPrefixOk(s.blocks, hashes);
    var hits := |found.table|;
    CapMono(c, hits, FullBlocks(c, |r.prompt|));
    var table := found.table + k.table;
    CapMono(c, BlocksFor(c, |r.prompt|), |table|);
    hide Cap, BlocksFor, Valid, LookupPrefix, ChainHashes;
    assert forall i | hits <= i < |table| :: table[i] in k.table;
  }

  /** Admission with the blocks granted: either the shutdown flag turned up, or the request runs. */
  lemma CoreAdmitGranted(c: Config, g: Stage, s: Sched, base: seq<WorkItem>, t: Ticket, hits: nat, parent: Hash,
          table: seq<BlockId>)
    requires t in s.objs && s.objs[t].sched.None? && Open(s.objs[t].status)
    requires Core(c, s, base + g.items, {t}, multiset(table))
    requires Fits(c, s.blocks.cache.byBlock, s.objs[t], hits, table)
    ensures var s3 := s.(blocks := ReleaseTable(s.blocks, table));
      Core(c, EraseRequest(Send(s3, t, ErrorEvent(ServerShuttingDown)), t), base + g.items, {}, multiset{})
    ensures var g' := BuildWork(c, g.(s := Enlist(c, s, t, s.objs[t], hits, parent, table)), t);
      Core(c, g'.s, base + g'.items, {}, multiset{})
  {
    hide Core, Fits, BuildWork, ReleaseTable, Enlist, EraseRequest;
    var out := base + g.items;
    assert {t} - {t} == {};
    var s3 := s.(blocks := ReleaseTable(s.blocks, table));
    CoreReleaseHeld(c, s, out, {t}, table);
    CoreSend(c, s3, out, {t}, multiset{}, t, ErrorEvent(ServerShuttingDown));
    CoreErase(c, Send(s3, t, ErrorEvent(ServerShuttingDown)), out, {t}, multiset{}, t);
    CoreEnlist(c, s, out, t, hits, parent, table);
    EnlistRuns(c, s, t, s.objs[t], hits, parent, table);
    CoreBuildWork(c, g.(s := Enlist(c, s, t, s.objs[t], hits, parent, table)), base, {}, multiset{}, t);
  }

  lemma CoreValid(c: Config, s: Sched, out: seq<WorkItem>, hand: set<Ticket>, held: multiset<BlockId>)
    requires Core(c, s, out, hand, held)
    ensures c.Valid() && Valid(s.blocks)
  {
    hide Valid;
  }

  lemma CoreLooked(c: Config, s: Sched, out: seq<WorkItem>, t: Ticket, prompt: seq<Token>)
    requires Core(c, s, out, {t}, multiset{})
    ensures Core(c, Looked(c, s, prompt), out, {t}, multiset(HitTable(c, s, prompt)))
    ensures Looked(c, s, prompt).objs == s.objs
  {
    hide Core, LookupPrefix, ChainHashes, BlockPrefixes;
    CoreLookup(c, s, Looked(c, s, prompt), out, {t}, ChainHashes(c, prompt, 0, 0));
  }

  lemma CoreAdmitPrompt(c: Config, g: Stage, base: seq<WorkItem>, t: Ticket, raised: bool)
    requires Core(c, g.s, base + g.items, {t}, multiset{})
    requires t in g.s.objs && g.s.objs[t].sched.None? && Open(g.s.objs[t].status)
    requires var r := g.s.objs[t];
      r.prompt != [] && |r.prompt| <= r.maxContext <= Cap(c, c.maxBlocks) && 0 < r.maxTokens
          && |r.generated| <= r.maxTokens
    ensures var a := AdmitPrompt(c, g, t, g.s.objs[t], raised); Core(c, a.g.s, base + a.g.items, {}, multiset{})
  {
    hide Core, Looked, HitTable, ParentOf, TakeBlocks, Rebuff, AdmitGranted, Sub, BlocksFor, Cap, Fits, Valid;
    var r := g.s.objs[t];
    var out := base + g.items;
    var hit := HitTable(c, g.s, r.prompt);
    var s1 := Looked(c, g.s, r.prompt);
    CoreLooked(c, g.s, out, t, r.prompt);
    var n := Sub(BlocksFor(c, |r.prompt|), |hit|);
    CoreTake(c, s1, out, {t}, multiset(hit), n);
    var k := TakeBlocks(s1, n);
    if !k.ok {
      assert multiset(hit) + multiset(k.table) == multiset(hit);
      CoreRebuff(c, k.s, out, t, hit);
    } else {
      var table := hit + k.table;
      assert multiset(hit) + multiset(k.table) == multiset(table);
      CoreValid(c, g.s, out, {t}, multiset{});
      FitsHit(c, g.s, r, hit, k, n);
      var s2 := k.s.(accepting := k.s.accepting && !raised);
      CoreQuiet(c, k.s, s2, out, {t}, multiset(table));
      CoreGranted(c, g, s2, base, t, |hit|, ParentOf(c, r.prompt, |hit|), table);
    }
  }

  lemma FitsHit(c: Config, s: Sched, r: Request, hit: seq<BlockId>, k: Taken, n: nat)
    requires c.Valid() && Valid(s.blocks) && hit == HitTable(c, s, r.prompt)
    requires r.prompt != [] && |r.prompt| <= r.maxContext <= Cap(c, c.maxBlocks) && 0 < r.maxTokens
        && |r.generated| <= r.maxTokens
    requires n == Sub(BlocksFor(c, |r.prompt|), |hit|) && |k.table| == n
    requires forall b :: b in k.table ==> !k.s.blocks.Cached(b)
    ensures Fits(c, k.s.blocks.cache.byBlock, r, |hit|, hit + k.table)
  {
    hide Valid, LookupPrefix, ChainHashes, Fits, Cap;
    FitsPrompt(c, s, r, LookupPrefix(s.blocks, ChainHashes(c, r.prompt, 0, 0)), k, n);
  }

  lemma CoreGranted(c: Config, g: Stage, s: Sched, base: seq<WorkItem>, t: Ticket, hits: nat, parent: Hash,
          table: seq<BlockId>)
    requires t in s.objs && s.objs[t].sched.None? && Open(s.objs[t].status)
    requires Core(c, s, base + g.items, {t}, multiset(table))
    requires Fits(c, s.blocks.cache.byBlock, s.objs[t], hits, table)
    ensures var a := AdmitGranted(c, g, s, t, s.objs[t], hits, parent, table);
        Core(c, a.g.s, base + a.g.items, {}, multiset{})
  {
    hide Core, Fits, BuildWork, Enlist;
    CoreAdmitGranted(c, g, s, base, t, hits, parent, table);
  }

  lemma EnlistRuns(c: Config, s: Sched, t: Ticket, r: Request, hits: nat, parent: Hash, table: seq<BlockId>)
    ensures t in Enlist(c, s, t, r, hits, parent, table).running
  {
  }
}
