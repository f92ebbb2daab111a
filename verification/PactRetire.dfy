/** Retiring a whole batch, executed or lost, keeps the pact. */
module PactRetire {
  import opened Types
  import opened Blocks
  import opened Hashing
  import opened State
  import opened Scheduling
  import opened Invariant
  import opened OutLemmas
  import opened SequenceLemmas
  import opened BuildLemmas
  import opened RetireLemmas
  import opened StepLemmas
  import opened Protocol
  import opened ProtocolSteps
  import opened Engine
  import opened CalmLemmas
  import opened Marks
  import opened EngineInvariant
  import opened Faithful
  import opened PactLemmas
  import opened TruthLemmas

  lemma MarksTail(m: Mark, ms: seq<Mark>, q: SeqId)
    ensures MarksFor([m] + ms, q) == if m.item.seqId == q then [m] + MarksFor(ms, q) else MarksFor(ms, q)
  {
    MarksForConcat([m], ms, q);
    assert [m][1..] == [];
  }

  /** Answers to a request that is no longer active do not matter any more. */
  lemma PactDropMark(c: Config, s: Sched, w: Worker, m: Mark, ms: seq<Mark>)
    requires Pact(c, s, w, [m] + ms)
    requires forall u :: Going(s, u) ==> s.objs[u].sched.value.seqId != m.item.seqId
    ensures Pact(c, s, w, ms)
  {
    hide MarksFor, Shape, Bound, Settled, CacheTells, Linked, Injective;
    forall u | Going(s, u)
      ensures MarksFor([m] + ms, s.objs[u].sched.value.seqId) == MarksFor(ms, s.objs[u].sched.value.seqId)
    {
      MarksTail(m, ms, s.objs[u].sched.value.seqId);
    }
    assert AllBound(s, w, ms) && Shaped(s, ms, w);
    assert AllSettled(c, s, w, [m] + ms) ==> AllSettled(c, s, w, ms);
    assert forall k :: k in ms ==> k in [m] + ms;
  }

  lemma PactFailOne(c: Config, s: Sched, x: WorkItem, rest: seq<WorkItem>, m: Mark, ms: seq<Mark>, w: Worker,
          e: ErrorCode)
    requires Steady(c, s, [x] + rest) && m.item == x && Pact(c, s, w, [m] + ms)
    ensures Pact(c, FailItem(s, x, e), w, ms)
  {
    hide Steady, FailItem, Pact, Calm;
    OnlyOwner(c, s, x, rest);
    FailTouches(s, x, e);
    CalmFailItem(s, x, e);
    PactCalm(c, s, FailItem(s, x, e), w, [m] + ms);
    PactDropMark(c, FailItem(s, x, e), w, m, ms);
  }

  // ---------------------------------------------------------------- one item

  lemma PactIdle(c: Config, s: Sched, x: WorkItem, rest: seq<WorkItem>, m: Mark, ms: seq<Mark>, w: Worker, t: Ticket)
    requires Steady(c, s, [x] + rest) && m.item == x && Pact(c, s, w, [m] + ms)
    requires x.seqId in s.bySeq && t == s.bySeq[x.seqId] && t in s.objs && s.objs[t].status != Active
    ensures Pact(c, Put(s, t, RetireReservation(s.objs[t], x)), w, ms)
  {
    hide Steady, Pact, Calm, RetireReservation;
    OnlyOwner(c, s, x, rest);
    RetireKeeps(s.objs[t], x);
    var s' := Put(s, t, RetireReservation(s.objs[t], x));
    CalmPut(s, s', t, s'.objs[t]);
    PactCalm(c, s, s', w, [m] + ms);
    PactDropMark(c, s', w, m, ms);
  }

  /** Everything but the retired request is untouched. */
  lemma OthersBound(s: Sched, s': Sched, t: Ticket, m: Mark, ms: seq<Mark>, w: Worker)
    requires AllBound(s, w, [m] + ms) && t in s'.objs && s'.objs == s.objs[t := s'.objs[t]]
        && s'.hist.starts == s.hist.starts
    requires forall u :: Going(s, u) && u != t ==> s.objs[u].sched.value.seqId != m.item.seqId
    requires Going(s', t) ==>
               var q := s'.objs[t].sched.value;
               q.seqId in s.hist.starts && Bound(s.hist.starts[q.seqId], s'.objs[t], q, w, MarksFor(ms, q.seqId))
    ensures AllBound(s', w, ms)
  {
    hide MarksFor, Bound;
    forall u | Going(s', u)
      ensures var q := s'.objs[u].sched.value;
        q.seqId in s'.hist.starts && Bound(s'.hist.starts[q.seqId], s'.objs[u], q, w, MarksFor(ms, q.seqId))
    {
      if u != t {
        assert Going(s, u);
        MarksTail(m, ms, s.objs[u].sched.value.seqId);
      }
    }
  }

  lemma OthersLinked(c: Config, s: Sched, s': Sched, t: Ticket, q: SeqId)
    requires AllLinked(c, s) && t in s'.objs && s'.objs == s.objs[t := s'.objs[t]] && HistGrows(s.hist, s'.hist, q)
    requires forall u :: Going(s, u) && u != t ==> s.objs[u].sched.value.seqId != q
    requires Going(s', t) ==> Linked(c, s'.hist, s'.objs[t], s'.objs[t].sched.value)
    ensures AllLinked(c, s')
  {
    hide Linked;
    forall u | Going(s', u) ensures Linked(c, s'.hist, s'.objs[u], s'.objs[u].sched.value) {
      if u != t {
        assert Going(s, u);
        LinkedOther(c, s.hist, s'.hist, s.objs[u], s.objs[u].sched.value);
      }
    }
  }

  lemma OthersSettled(c: Config, s: Sched, s': Sched, t: Ticket, m: Mark, ms: seq<Mark>, w: Worker)
    requires AllSettled(c, s, w, [m] + ms) && t in s'.objs && s'.objs == s.objs[t := s'.objs[t]]
        && s'.hist.touched == s.hist.touched
    requires forall u :: Going(s, u) && u != t ==> s.objs[u].sched.value.seqId != m.item.seqId
    requires Pure(s', t) ==> Settled(c, s'.objs[t], s'.objs[t].sched.value, w,
        MarksFor(ms, s'.objs[t].sched.value.seqId))
    ensures AllSettled(c, s', w, ms)
  {
    hide MarksFor, Settled;
    forall u | Pure(s', u)
      ensures Settled(c, s'.objs[u], s'.objs[u].sched.value, w, MarksFor(ms, s'.objs[u].sched.value.seqId))
    {
      if u != t {
        assert Pure(s, u);
        MarksTail(m, ms, s.objs[u].sched.value.seqId);
      }
    }
  }

  /** What is known of an active request whose oldest item is answered. */
  lemma Answered(c: Config, s: Sched, x: WorkItem, rest: seq<WorkItem>, result: ItemResult, ms: seq<Mark>, w: Worker,
          t: Ticket)
    requires Steady(c, s, [x] + rest) && ResultOk(x, result) && Pact(c, s, w, [Mark(x, VerdictOf(result))] + ms)
    requires x.seqId in s.bySeq && t == s.bySeq[x.seqId] && Going(s, t) && s.objs[t].sched.value.seqId == x.seqId
    ensures !result.stale && VerdictOf(result) == Good(result.sampled) && c.blockSize > 0
    ensures Live(s.objs[t], s.objs[t].sched.value, [x] + Of(rest, x.seqId))
    ensures MarksFor([Mark(x, VerdictOf(result))] + ms, x.seqId) == [Mark(x, VerdictOf(result))] + MarksFor(ms, x.seqId)
    ensures x.seqId in s.hist.starts && |result.sampled| == GenCount(x)
    ensures Bound(s.hist.starts[x.seqId], s.objs[t], s.objs[t].sched.value, w,
        [Mark(x, VerdictOf(result))] + MarksFor(ms, x.seqId))
    ensures Linked(c, s.hist, s.objs[t], s.objs[t].sched.value)
  {
    hide Places, Accounted, Sound, MarksFor, Bound, Of, Live, Booked, Hashed, Truthful, Linked, Injective;
    var m := Mark(x, VerdictOf(result));
    StaleInactive(s, t, m, ms, w);
    ActiveSeq(c, s, [x] + rest, t);
    OfConcat([x], rest, x.seqId);
    OfSelf(x);
    MarksTail(m, ms, x.seqId);
  }

  lemma HistPut(c: Config, s: Sched, s1: Sched, mem: map<nat, Kv>)
    requires CacheTells(c, s, mem) && s1.blocks == s.blocks && s1.hist == s.hist
    ensures CacheTells(c, s1, mem)
  {
    hide Tells;
  }

  lemma PactToken(c: Config, s: Sched, x: WorkItem, rest: seq<WorkItem>, result: ItemResult, ms: seq<Mark>,
          w: Worker, t: Ticket)
    requires Steady(c, s, [x] + rest) && ResultOk(x, result) && Pact(c, s, w, [Mark(x, VerdictOf(result))] + ms)
    requires x.seqId in s.bySeq && t == s.bySeq[x.seqId] && Going(s, t) && s.objs[t].sched.value.seqId == x.seqId
    requires x.PrefillChunk? ==> s.objs[t].sched.value.cursor + |x.tokens| >= |s.objs[t].prompt|
    ensures var s' := RetireWork(c, s, x, result);
      && AllBound(s', w, ms) && AllLinked(c, s') && HistFlags(s.hist, s'.hist)
      && (Injective(c, s'.hist.hashed) ==> Truthful(c, s', w, ms))
  {
    hide Steady, MarksFor, Bound, Settled, CacheTells, Live, HashWritten, RetireWork, RetireReservation, Advance,
        Shaped, Issued, Linked, Injective, Script, Line;
    Answered(c, s, x, rest, result, ms, w, t);
    OnlyOwner(c, s, x, rest);
    RetiredToken(c, s, x, rest, t, result);
    var r := s.objs[t];
    var q := r.sched.value;
    var r1 := RetireReservation(r, x);
    var q1 := Advance(r1, r1.sched.value, x);
    var s1 := Put(s, t, r1);
    var p := HashWritten(c, s1, r1, q1, x);
    var s' := RetireWork(c, s, x, result);
    var m := Mark(x, VerdictOf(result));
    var st := s.hist.starts[x.seqId];
    HashFlags(c, s1, r1, q1, x);
    HashPhase(c, s1, r1, q1, x);
    BoundRetired(st, r, q, w, x, Of(rest, x.seqId), result.sampled, MarksFor(ms, q.seqId), s'.objs[t],
        s'.objs[t].sched.value);
    OthersBound(s, s', t, m, ms, w);
    BoundStands(st, r, q, w, [m] + MarksFor(ms, q.seqId));
    LinkedRetired(c, s1, r, r1, q, q1, x, Of(rest, x.seqId), result.sampled, s'.objs[t]);
    OthersLinked(c, s, s', t, q.seqId);
    if Injective(c, s'.hist.hashed) {
      InjectiveBefore(c, s.hist.hashed, s'.hist.hashed);
      HistPut(c, s, s1, w.mem);
      if q.seqId !in s.hist.touched {
        SettledAt(c, s, w, [m] + ms, t);
        SettledNow(c, r, q, s'.objs[t], s'.objs[t].sched.value, w, m, MarksFor(ms, q.seqId));
      }
      ScriptAt(s1, t, q.seqId, r);
      CacheRetired(c, s1, r, r1, q, q1, w, x, Of(rest, x.seqId), result.sampled, MarksFor(ms, q.seqId));
      HistPut(c, p.s, s', w.mem);
      OthersSettled(c, s, s', t, m, ms, w);
    }
  }

  lemma BoundStands(st: Start, r: Request, q: Sequence, w: Worker, ms: seq<Mark>)
    requires Bound(st, r, q, w, ms)
    ensures Stands(st, r, q)
  {
    hide Samples, Reach;
  }

  lemma SettledAt(c: Config, s: Sched, w: Worker, ms: seq<Mark>, t: Ticket)
    requires AllSettled(c, s, w, ms) && Pure(s, t)
    ensures Settled(c, s.objs[t], s.objs[t].sched.value, w, MarksFor(ms, s.objs[t].sched.value.seqId))
  {
    hide Settled, MarksFor;
  }

  /** An item that retires becomes part of the executed positions. */
  lemma SettledNow(c: Config, r: Request, q: Sequence, r': Request, q': Sequence, w: Worker, m: Mark, ms: seq<Mark>)
    requires Settled(c, r, q, w, [m] + ms) && m.verdict.Good? && r'.prompt == r.prompt
    requires q'.seqId == q.seqId && q'.table == q.table && q'.frontier == q.frontier + KvCount(m.item)
    ensures Settled(c, r', q', w, ms)
  {
    hide Holds, Reach;
    MarkNext(m, ms, q.frontier);
  }

  /** Retirement never changes these. */
  ghost predicate HistFlags(h: History, h': History) {
    h'.starts == h.starts && h'.touched == h.touched && h.hashed <= h'.hashed
  }

  lemma {:induction false} PublishFlags(c: Config, s: Sched, q: Sequence, i: nat)
    ensures HistFlags(s.hist, PublishPending(c, s, q, i).s.hist)
    decreases |q.pending|
  {
    if 0 < c.blockSize <= |q.pending| && i < |q.table| {
      PublishFlags(c, PublishStep(c, s, q, i).s, PublishStep(c, s, q, i).q, i + 1);
    }
  }

  lemma HashFlags(c: Config, s: Sched, r: Request, q: Sequence, x: WorkItem)
    ensures HistFlags(s.hist, HashWritten(c, s, r, q, x).s.hist)
  {
    hide PublishPending, WrittenTokens;
    if KvCount(x) > 0 && c.blockSize > 0 {
      PublishFlags(c, s, q.(pending := q.pending + WrittenTokens(r, x)), Sub(x.context, |q.pending|) / c.blockSize);
    }
  }

  /** A chunk that does not finish its prompt: nothing is recorded for hashing. */
  lemma PactChunk(c: Config, s: Sched, x: WorkItem, rest: seq<WorkItem>, result: ItemResult, ms: seq<Mark>,
          w: Worker, t: Ticket)
    requires Steady(c, s, [x] + rest) && ResultOk(x, result) && Pact(c, s, w, [Mark(x, VerdictOf(result))] + ms)
    requires x.seqId in s.bySeq && t == s.bySeq[x.seqId] && Going(s, t) && s.objs[t].sched.value.seqId == x.seqId
    requires x.PrefillChunk? && s.objs[t].sched.value.cursor + |x.tokens| < |s.objs[t].prompt|
    ensures var s' := RetireWork(c, s, x, result);
      && AllBound(s', w, ms) && AllLinked(c, s') && HistFlags(s.hist, s'.hist)
      && (Injective(c, s'.hist.hashed) ==> Truthful(c, s', w, ms))
  {
    hide Steady, MarksFor, Bound, Settled, CacheTells, Live, Shaped, Issued, Linked, Injective, RetireWork;
    Answered(c, s, x, rest, result, ms, w, t);
    OnlyOwner(c, s, x, rest);
    var r := s.objs[t];
    var q := r.sched.value;
    ChunkSilent(r, q, x, Of(rest, x.seqId));
    var s' := RetireWork(c, s, x, result);
    var m := Mark(x, VerdictOf(result));
    RetiredChunk(c, s, x, result, t, Of(rest, x.seqId));
    var r', q' := s'.objs[t], s'.objs[t].sched.value;
    BoundChunk(s.hist.starts[x.seqId], r, q, w, m, MarksFor(ms, q.seqId), r', q');
    OthersBound(s, s', t, m, ms, w);
    LinkedChunk(c, s.hist, r, q, r', q');
    OthersLinked(c, s, s', t, q.seqId);
    if Injective(c, s'.hist.hashed) {
      HistPut(c, s, s', w.mem);
      if q.seqId !in s.hist.touched {
        SettledAt(c, s, w, [m] + ms, t);
        SettledNow(c, r, q, r', q', w, m, MarksFor(ms, q.seqId));
      }
      OthersSettled(c, s, s', t, m, ms, w);
    }
  }

  lemma RetiredChunk(c: Config, s: Sched, x: WorkItem, result: ItemResult, t: Ticket, rest: seq<WorkItem>)
    requires x.seqId in s.bySeq && t == s.bySeq[x.seqId] && Going(s, t) && s.objs[t].sched.value.seqId == x.seqId
    requires Live(s.objs[t], s.objs[t].sched.value, [x] + rest) && result.seqId == x.seqId && !result.stale
    requires x.PrefillChunk? && s.objs[t].sched.value.cursor + |x.tokens| < |s.objs[t].prompt|
    ensures var s' := RetireWork(c, s, x, result); var r := s.objs[t]; var q := r.sched.value;
      && t in s'.objs && s'.objs == s.objs[t := s'.objs[t]] && s'.hist == s.hist && s'.blocks == s.blocks
        && s'.nextSeq == s.nextSeq
      && var r' := s'.objs[t];
         && r'.prompt == r.prompt && r'.generated == r.generated && r'.sched.Some?
         && var q' := r'.sched.value;
            && q'.seqId == q.seqId && q'.phase == q.phase && q'.frontier == q.frontier + |x.tokens|
              && q'.table == q.table
            && q'.pending == q.pending && q'.parent == q.parent
  {
    hide HashWritten, Deliver;
    HeadPosition(s.objs[t], s.objs[t].sched.value, x, rest);
    hide Live;
    RetiredKept(s.objs[t], x);
  }

  lemma LinkedChunk(c: Config, h: History, r: Request, q: Sequence, r': Request, q': Sequence)
    requires Linked(c, h, r, q) && IsPrefill(q.phase) && q.pending == []
    requires r'.prompt == r.prompt && r'.generated == r.generated && q'.seqId == q.seqId && q'.phase == q.phase
    requires q'.frontier > q.frontier && q'.pending == q.pending && q'.parent == q.parent
    ensures Linked(c, h, r', q')
  {
    hide Chain, Aligned;
  }

  lemma ChunkSilent(r: Request, q: Sequence, x: WorkItem, rest: seq<WorkItem>)
    requires Live(r, q, [x] + rest) && x.PrefillChunk? && q.cursor + |x.tokens| < |r.prompt|
    ensures !x.needsSample && IsPrefill(q.phase) && q.pending == [] && 0 < |x.tokens|
  {
    assert ([x] + rest)[1..] == rest;
  }

  lemma BoundChunk(st: Start, r: Request, q: Sequence, w: Worker, m: Mark, ms: seq<Mark>, r': Request, q': Sequence)
    requires Bound(st, r, q, w, [m] + ms) && m.verdict == Good([]) && q.phase != Decode
    requires r'.prompt == r.prompt && r'.generated == r.generated && q'.seqId == q.seqId && q'.phase == q.phase
    requires q'.frontier == q.frontier + KvCount(m.item)
    ensures Bound(st, r', q', w, ms)
  {
    hide Reach, Samples;
    MarkNext(m, ms, q.frontier);
    assert [] + Samples(ms) == Samples(ms);
  }

  lemma PactRetireOne(c: Config, s: Sched, x: WorkItem, rest: seq<WorkItem>, result: ItemResult, ms: seq<Mark>,
          w: Worker)
    requires Steady(c, s, [x] + rest) && Tidy(c, s) && ResultOk(x, result)
        && Pact(c, s, w, [Mark(x, VerdictOf(result))] + ms)
    requires AllBindable(s.hist, w, [x] + rest)
    ensures var s' := RetireWork(c, s, x, result);
      Steady(c, s', rest) && Tidy(c, s') && SameShape(s, s') && Pact(c, s', w, ms) && AllBindable(s'.hist, w, rest)
  {
    hide Steady, Tidy, MarksFor, Shaped, AllBound, AllLinked, Truthful, Injective;
    RetireOne(c, s, x, result, rest, ms, w);
    OnlyOwner(c, s, x, rest);
    var t := s.bySeq[x.seqId];
    var m := Mark(x, VerdictOf(result));
    var s' := RetireWork(c, s, x, result);
    assert forall k :: k in ms ==> k in [m] + ms;
    assert x in [x] + rest;
    if !Going(s, t) {
      hide RetireReservation, RetireActive;
      PactIdle(c, s, x, rest, m, ms, w, t);
      assert RetireReservation(s.objs[t], x).status == s.objs[t].status by { RetireKeeps(s.objs[t], x); }
    } else if x.PrefillChunk? && s.objs[t].sched.value.cursor + |x.tokens| < |s.objs[t].prompt| {
      hide RetireWork;
      PactChunk(c, s, x, rest, result, ms, w, t);
      assert AllBindable(s.hist, w, rest);
      BindableLater(s.hist, s'.hist, w, rest);
    } else {
      hide RetireWork;
      PactToken(c, s, x, rest, result, ms, w, t);
      assert AllBindable(s.hist, w, rest);
      BindableLater(s.hist, s'.hist, w, rest);
    }
  }

  // ---------------------------------------------------------------- one batch

  lemma {:induction false} PactRetireBatch(c: Config, s: Sched, items: seq<WorkItem>, results: seq<ItemResult>,
          rest: seq<WorkItem>, ms: seq<Mark>, w: Worker)
    requires Steady(c, s, items + rest) && Tidy(c, s) && |results| == |items|
    requires forall i | 0 <= i < |items| :: ResultOk(items[i], results[i])
    requires Pact(c, s, w, ZipMarks(items, results) + ms) && AllBindable(s.hist, w, items + rest)
    ensures var s' := RetireAll(c, s, items, results); Pact(c, s', w, ms) && AllBindable(s'.hist, w, rest)
    decreases |items|
  {
    hide Steady, RetireWork, Tidy, Pact, AllBindable, SameShape;
    if items == [] {
      assert items + rest == rest && ZipMarks(items, results) + ms == ms;
    } else {
      var x := items[0];
      var m := Mark(x, VerdictOf(results[0]));
      var later := ZipMarks(items[1..], results[1..]);
      assert items + rest == [x] + (items[1..] + rest);
      assert ZipMarks(items, results) + ms == [m] + (later + ms);
      PactRetireOne(c, s, x, items[1..] + rest, results[0], later + ms, w);
      PactRetireBatch(c, RetireWork(c, s, x, results[0]), items[1..], results[1..], rest, ms, w);
    }
  }

  lemma {:induction false} PactFailBatch(c: Config, s: Sched, items: seq<WorkItem>, rest: seq<WorkItem>,
          ms: seq<Mark>, w: Worker, e: ErrorCode)
    requires Steady(c, s, items + rest) && Pact(c, s, w, SpoilMarks(items) + ms)
    ensures Pact(c, FailBatch(s, items, e), w, ms)
    decreases |items|
  {
    hide Steady, FailItem, Pact;
    if items == [] {
      assert SpoilMarks(items) + ms == ms;
    } else {
      var x := items[0];
      var later := SpoilMarks(items[1..]);
      assert items + rest == [x] + (items[1..] + rest);
      assert SpoilMarks(items) + ms == [Mark(x, Spoiled)] + (later + ms);
      PactFailOne(c, s, x, items[1..] + rest, Mark(x, Spoiled), later + ms, w, e);
      SteadyFailOne(c, s, x, items[1..] + rest, e);
      PactFailBatch(c, FailItem(s, x, e), items[1..], rest, ms, w, e);
    }
  }

  lemma SteadyFailOne(c: Config, s: Sched, x: WorkItem, rest: seq<WorkItem>, e: ErrorCode)
    requires Steady(c, s, [x] + rest)
    ensures Steady(c, FailItem(s, x, e), rest)
  {
    hide Core, FailItem;
    assert [x] + rest == [] + [x] + rest && [] + rest == rest;
    CoreFailItem(c, s, x, [], rest, e);
  }

  lemma PactRetired(c: Config, s: Sched, f: Flight, rest: seq<WorkItem>, ms: seq<Mark>, w: Worker)
    requires Steady(c, s, f.items + rest) && Tidy(c, s) && f.outcome.Some? && AnswersOk(f)
    requires Pact(c, s, w, FlightMarks(f) + ms) && AllBindable(s.hist, w, f.items + rest)
    ensures var s' := Retired(c, s, f); Pact(c, s', w, ms) && AllBindable(s'.hist, w, rest)
  {
    hide Steady, RetireAll, FailBatch, Tidy, Pact, ZipMarks, SpoilMarks;
    match f.outcome.value
    case Done(results) =>
      hide AllBindable;
      PactRetireBatch(c, s, f.items, results, rest, ms, w);
    case Broken(e) =>
      PactFailBatch(c, s, f.items, rest, ms, w, e);
      CalmFailBatch(s, f.items, e);
      BindableLater(s.hist, FailBatch(s, f.items, e).hist, w, f.items + rest);
  }
}
