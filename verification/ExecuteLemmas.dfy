/** Executing work keeps the pact: tokens are bound and KV entries written as the scheduler intends. */
module ExecuteLemmas {
  import opened Types
  import opened Blocks
  import opened Hashing
  import opened State
  import opened Scheduling
  import opened Invariant
  import opened OutLemmas
  import opened BuildLemmas
  import opened StepLemmas
  import opened Engine
  import opened CalmLemmas
  import opened Marks
  import opened Faithful
  import opened PactLemmas
  import opened MemoryLemmas

  // ---------------------------------------------------------------- marks as items

  function MarkItems(ms: seq<Mark>): seq<WorkItem> {
    if ms == [] then [] else [ms[0].item] + MarkItems(ms[1..])
  }

  lemma {:induction false} MarkItemsConcat(a: seq<Mark>, b: seq<Mark>)
    ensures MarkItems(a + b) == MarkItems(a) + MarkItems(b)
  {
    if a == [] {
      assert a + b == b;
    } else {
      MarkItemsConcat(a[1..], b);
      assert (a + b)[1..] == a[1..] + b;
    }
  }

  lemma {:induction false} OfMarks(ms: seq<Mark>, q: SeqId)
    ensures Of(MarkItems(ms), q) == MarkItems(MarksFor(ms, q))
  {
    if ms != [] {
      OfMarks(ms[1..], q);
      assert MarkItems(ms)[1..] == MarkItems(ms[1..]);
      if ms[0].item.seqId == q {
        assert ([ms[0]] + MarksFor(ms[1..], q))[1..] == MarksFor(ms[1..], q);
      }
    }
  }

  /** The outstanding items of a sequence: those answered, then the others. */
  lemma OfSplit(out: seq<WorkItem>, ms: seq<Mark>, pend: seq<WorkItem>, q: SeqId)
    requires out == MarkItems(ms) + pend
    ensures Of(out, q) == MarkItems(MarksFor(ms, q)) + Of(pend, q)
  {
    OfConcat(MarkItems(ms), pend, q);
    OfMarks(ms, q);
  }

  predicate AllGood(ms: seq<Mark>) {
    ms == [] || (ms[0].verdict.Good? && AllGood(ms[1..]))
  }

  lemma {:induction false} ShapeRunning(ms: seq<Mark>, barred: bool)
    requires Shape(ms, barred, false)
    ensures AllGood(ms) <==> !barred
  {
    if ms != [] && ms[0].verdict.Good? { ShapeRunning(ms[1..], barred); }
  }

  lemma AppendGood(a: seq<Mark>, b: seq<Mark>, from: nat)
    requires AllGood(a)
    ensures Samples(a + b) == Samples(a) + Samples(b) && Reach(a + b, from) == Reach(b, Reach(a, from))
  {
    hide Samples, Reach, AllGood;
    SamplesAppend(a, b);
    ReachAppend(a, b, from);
  }

  lemma {:induction false} SamplesAppend(a: seq<Mark>, b: seq<Mark>)
    requires AllGood(a)
    ensures Samples(a + b) == Samples(a) + Samples(b)
  {
    if a == [] {
      assert a + b == b;
    } else {
      SamplesAppend(a[1..], b);
      assert (a + b)[1..] == a[1..] + b;
      Associate(a[0].verdict.sampled, Samples(a[1..]), Samples(b));
    }
  }

  lemma {:induction false} ReachAppend(a: seq<Mark>, b: seq<Mark>, from: nat)
    requires AllGood(a)
    ensures Reach(a + b, from) == Reach(b, Reach(a, from))
  {
    if a == [] {
      assert a + b == b;
    } else {
      ReachAppend(a[1..], b, from + KvCount(a[0].item));
      assert (a + b)[1..] == a[1..] + b;
    }
  }

  lemma {:induction false} AppendLost(a: seq<Mark>, b: seq<Mark>, from: nat)
    requires !AllGood(a)
    ensures Samples(a + b) == Samples(a) && Reach(a + b, from) == Reach(a, from)
  {
    if a[0].verdict.Good? {
      AppendLost(a[1..], b, from + KvCount(a[0].item));
      assert (a + b)[1..] == a[1..] + b;
    }
  }

  lemma OneMark(m: Mark, from: nat)
    ensures Samples([m]) == if m.verdict.Good? then m.verdict.sampled else []
    ensures Reach([m], from) == if m.verdict.Good? then from + KvCount(m.item) else from
  {
    assert [m][1..] == [];
    assert m.verdict.Good? ==> m.verdict.sampled + [] == m.verdict.sampled;
  }

  // ---------------------------------------------------------------- where the next item stands

  ghost predicate AnswersFit(ms: seq<Mark>) {
    forall m :: m in ms ==> (m.verdict.Good? ==> |m.verdict.sampled| == GenCount(m.item))
  }

  lemma {:induction false} ReachBelow(ms: seq<Mark>, b: seq<WorkItem>, from: nat, lo: nat, y: WorkItem)
    requires Ordered(MarkItems(ms) + b, lo) && from <= lo && y in b
    ensures Reach(ms, from) <= y.context
    decreases |ms|
  {
    if ms == [] {
      assert MarkItems(ms) + b == b;
      OrderedAbove(b, lo, y);
    } else {
      var all := MarkItems(ms) + b;
      assert all[0] == ms[0].item && all[1..] == MarkItems(ms[1..]) + b;
      if ms[0].verdict.Good? {
        ReachBelow(ms[1..], b, from + KvCount(ms[0].item), all[0].context + KvCount(all[0]), y);
      } else {
        OrderedAbove(all, lo, y);
      }
    }
  }

  lemma {:induction false} PrefillNext(ms: seq<Mark>, x: WorkItem, b: seq<WorkItem>, from: nat, prompt: seq<Token>,
          silent: bool)
    requires PrefillItems(MarkItems(ms) + [x] + b, from, prompt, silent) && AllGood(ms) && AnswersFit(ms)
    ensures x.PrefillChunk? && x.context == Reach(ms, from) && from <= x.context < |prompt| && Samples(ms) == []
    ensures 0 < |x.tokens| && x.context + |x.tokens| <= |prompt|
        && x.tokens == prompt[x.context..x.context + |x.tokens|]
    ensures silent ==> !x.needsSample
    decreases |ms|
  {
    var all := MarkItems(ms) + [x] + b;
    if ms == [] {
      assert all[0] == x;
    } else {
      assert all[0] == ms[0].item && all[1..] == MarkItems(ms[1..]) + [x] + b;
      assert ms[0] in ms;
      PrefillNext(ms[1..], x, b, from + KvCount(ms[0].item), prompt, silent);
    }
  }

  lemma {:induction false} DecodeNext(ms: seq<Mark>, x: WorkItem, b: seq<WorkItem>, from: nat)
    requires DecodeItems(MarkItems(ms) + [x] + b, from) && AllGood(ms) && AnswersFit(ms)
    ensures x.DecodeOneToken? && x.writeKv && x.lateBind && x.context == Reach(ms, from) == from + |Samples(ms)|
    decreases |ms|
  {
    var all := MarkItems(ms) + [x] + b;
    if ms == [] {
      assert all[0] == x;
    } else {
      assert all[0] == ms[0].item && all[1..] == MarkItems(ms[1..]) + [x] + b;
      assert ms[0] in ms;
      DecodeNext(ms[1..], x, b, from + 1);
    }
  }

  lemma BootNext(ms: seq<Mark>, x: WorkItem, b: seq<WorkItem>, from: nat, input: Token)
    requires BootItems(MarkItems(ms) + [x] + b, from, input)
    ensures ms == [] && x.DecodeOneToken? && !x.writeKv && !x.lateBind && x.context == from
  {
    MarkItemsCount(ms);
    var all := MarkItems(ms) + [x] + b;
    assert |all| == |ms| + 1 + |b| && all[|ms|] == x;
  }

  lemma {:induction false} MarkItemsCount(ms: seq<Mark>)
    ensures |MarkItems(ms)| == |ms|
  {
    if ms != [] { MarkItemsCount(ms[1..]); }
  }

  /** What is known about the item an active sequence has executed next. */
  predicate NextItem(r: Request, q: Sequence, ms: seq<Mark>, x: WorkItem) {
    && x.context == Reach(ms, q.frontier)
    && (x.PrefillChunk? ==>
          && IsPrefill(q.phase) && Samples(ms) == [] && 0 < |x.tokens| && x.context + |x.tokens| <= |r.prompt|
          && x.tokens == r.prompt[x.context..x.context + |x.tokens|] && (x.needsSample ==> q.phase == Prefill))
    && (x.DecodeOneToken? && x.writeKv ==> q.phase == Decode && x.lateBind && x.context == q.frontier + |Samples(ms)|)
    && (x.DecodeOneToken? && !x.writeKv ==> !x.lateBind && q.phase == Bootstrap && ms == [])
  }

  lemma NextOk(r: Request, q: Sequence, ms: seq<Mark>, x: WorkItem, b: seq<WorkItem>)
    requires Live(r, q, MarkItems(ms) + [x] + b) && AllGood(ms) && AnswersFit(ms)
    ensures NextItem(r, q, ms, x)
  {
    hide MarkItems, AllGood, AnswersFit, PrefillItems, DecodeItems, BootItems;
    match q.phase
    case Prefill => PrefillNext(ms, x, b, q.frontier, r.prompt, false);
    case ReplayPrefill => PrefillNext(ms, x, b, q.frontier, r.prompt, true);
    case Bootstrap => BootNext(ms, x, b, q.frontier, Last(r.prompt, 0));
    case Decode => DecodeNext(ms, x, b, q.frontier);
  }

  // ---------------------------------------------------------------- late binding

  lemma BoundParts(st: Start, r: Request, q: Sequence, w: Worker, ms: seq<Mark>)
    requires Bound(st, r, q, w, ms)
    ensures Made(w, q.seqId) == Since(st, r) + Samples(ms)
    ensures var made := Made(w, q.seqId);
      FedTo(w, q.seqId) == if made == [] then [] else Lead(st, r) + made[..|made| - 1]
    ensures Ready(st, r, q, w, ms) && Stands(st, r, q)
  {
  }

  /** A decode step is fed the token sampled last, or the lead token if none was sampled since admission. */
  lemma StepFed(c: Config, st: Start, r: Request, q: Sequence, w: Worker, ms: seq<Mark>, x: WorkItem)
    requires Bound(st, r, q, w, ms) && NextItem(r, q, ms, x) && x.seqId == q.seqId && x.DecodeOneToken? && x.writeKv
    requires Leads(c, st, q.seqId)
    ensures var made := Made(w, q.seqId); Fed(c, w, x) == if made == [] then Lead(st, r) else [Last(made, 0)]
    ensures x.context == |Stream(r, w, q.seqId)| && (st.Cold? ==> Made(w, q.seqId) != [])
    ensures !st.Blind? ==> x.seqId in w.latest
  {
    hide Samples, Reach;
  }

  /** The token fed to a decode step becomes the next token of the stream. */
  lemma FedGrows(c: Config, st: Start, r: Request, q: Sequence, w: Worker, w': Worker, ms: seq<Mark>, x: WorkItem)
    requires Bound(st, r, q, w, ms) && NextItem(r, q, ms, x) && x.seqId == q.seqId && x.DecodeOneToken? && x.writeKv
    requires Leads(c, st, q.seqId)
    requires FedTo(w', q.seqId) == FedTo(w, q.seqId) + Fed(c, w, x)
    ensures FedTo(w', q.seqId) == Lead(st, r) + Made(w, q.seqId)
  {
    hide Bound, NextItem, Samples, Reach, Fed, Lead, Ready, Stands, Made, FedTo;
    StepFed(c, st, r, q, w, ms, x);
    BoundParts(st, r, q, w, ms);
    LastStep(Lead(st, r), Made(w, q.seqId));
  }

  lemma LastStep(lead: seq<Token>, made: seq<Token>)
    ensures made != [] ==> lead + made[..|made| - 1] + [Last(made, 0)] == lead + made
    ensures made == [] ==> [] + lead == lead + made
  {
  }

  /** Nothing was sampled since admission before the prompt is done. */
  lemma PromptFirst(st: Start, r: Request, q: Sequence, w: Worker, ms: seq<Mark>, x: WorkItem)
    requires Bound(st, r, q, w, ms) && NextItem(r, q, ms, x)
    requires x.PrefillChunk? || !x.writeKv
    ensures Made(w, q.seqId) == [] && FedTo(w, q.seqId) == [] && !st.Blind?
    ensures GenCount(x) > 0 ==> st.Cold?
    ensures x.PrefillChunk? && x.needsSample ==> q.phase == Prefill
  {
    hide Reach;
  }

  lemma PrefixSlice(prompt: seq<Token>, made: seq<Token>, i: nat, j: nat)
    requires i <= j <= |prompt|
    ensures (prompt + made)[i..j] == prompt[i..j]
  {
  }

  // ---------------------------------------------------------------- one item

  lemma ExecuteFrame(c: Config, w: Worker, x: WorkItem, index: nat, pick: Pick)
    ensures var e := ExecuteItem(c, w, x, index, pick);
      && e.w.failed == w.failed && e.w.halted == w.halted
      && (forall q :: q in w.latest ==> q in e.w.latest)
      && (forall q :: q != x.seqId ==> Made(e.w, q) == Made(w, q) && FedTo(e.w, q) == FedTo(w, q)
                                       && (q in w.latest ==> e.w.latest[q] == w.latest[q]))
      && (forall q :: q in e.w.made.Keys ==> q in w.made.Keys || q == x.seqId)
      && (forall q :: q in e.w.fed.Keys ==> q in w.fed.Keys || q == x.seqId)
      && (forall q :: q in e.w.latest.Keys ==> q in w.latest.Keys || q == x.seqId)
      && (x.seqId in w.failed ==> e.w == w && VerdictOf(e.result) == Stale)
      && (x.seqId !in w.failed ==>
            && VerdictOf(e.result) == Good(e.result.sampled) && |e.result.sampled| == GenCount(x)
            && Made(e.w, x.seqId) == Made(w, x.seqId) + e.result.sampled
            && FedTo(e.w, x.seqId) == FedTo(w, x.seqId) + (if x.DecodeOneToken? && x.writeKv then Fed(c, w, x) else [])
            && e.w.mem == (if KvCount(x) > 0 then WriteTokens(c, w.mem, x.table, x.context, Fed(c, w, x)) else w.mem)
            && (e.result.sampled != [] ==> x.seqId in e.w.latest && e.w.latest[x.seqId] == e.result.sampled[0])
            && (e.result.sampled == [] && x.PrefillChunk? && x.tokens != [] ==>
                  x.seqId in e.w.latest && e.w.latest[x.seqId] == Last(x.tokens, 0)))
  {
    hide WriteTokens, Fed;
  }

  lemma FedCount(c: Config, w: Worker, x: WorkItem)
    ensures KvCount(x) > 0 ==> |Fed(c, w, x)| == KvCount(x)
  {
  }

  lemma ExecuteConfined(c: Config, w: Worker, x: WorkItem, index: nat, pick: Pick)
    ensures Confined(c, w.mem, ExecuteItem(c, w, x, index, pick).w.mem, [x])
  {
    hide Slot, WriteTokens;
    ExecuteFrame(c, w, x, index, pick);
    hide ExecuteItem;
    FedCount(c, w, x);
    var mem' := ExecuteItem(c, w, x, index, pick).w.mem;
    forall k: nat | Read(mem', k) != Read(w.mem, k) ensures InSlots(c, [x], k) {
      if forall p: nat | Writes(x, p) :: Slot(c, x.table, p) != k {
        if KvCount(x) > 0 { WriteFrame(c, w.mem, x.table, x.context, Fed(c, w, x), k); }
      } else {
        var p: nat :| Writes(x, p) && Slot(c, x.table, p) == k;
        assert x in [x];
      }
    }
  }

  lemma BoundExecuted(c: Config, st: Start, r: Request, q: Sequence, w: Worker, w': Worker, ms: seq<Mark>, x: WorkItem,
          sampled: seq<Token>)
    requires Bound(st, r, q, w, ms) && NextItem(r, q, ms, x) && AllGood(ms) && x.seqId == q.seqId
    requires Leads(c, st, q.seqId)
    requires Made(w', q.seqId) == Made(w, q.seqId) + sampled && |sampled| == GenCount(x)
    requires FedTo(w', q.seqId) == FedTo(w, q.seqId) + (if x.DecodeOneToken? && x.writeKv then Fed(c, w, x) else [])
    requires sampled != [] ==> x.seqId in w'.latest && w'.latest[x.seqId] == sampled[0]
    requires sampled == [] && x.PrefillChunk? && x.tokens != [] ==>
               x.seqId in w'.latest && w'.latest[x.seqId] == Last(x.tokens, 0)
    ensures Bound(st, r, q, w', ms + [Mark(x, Good(sampled))])
  {
    hide Bound, Samples, AllGood, Reach, Stands, Lead, Made, FedTo;
    var m := Mark(x, Good(sampled));
    BoundParts(st, r, q, w, ms);
    AppendGood(ms, [m], q.frontier);
    OneMark(m, Reach(ms, q.frontier));
    Associate(Since(st, r), Samples(ms), sampled);
    if x.DecodeOneToken? && x.writeKv {
      FedGrows(c, st, r, q, w, w', ms, x);
      SampledOne(Made(w, q.seqId), Made(w', q.seqId), sampled);
    } else {
      PromptFirst(st, r, q, w, ms, x);
      PromptReady(st, r, q, w', ms, x, sampled);
    }
    BoundMake(st, r, q, w', ms + [m]);
  }

  lemma PromptReady(st: Start, r: Request, q: Sequence, w': Worker, ms: seq<Mark>, x: WorkItem, sampled: seq<Token>)
    requires NextItem(r, q, ms, x) && (x.PrefillChunk? || !x.writeKv) && x.seqId == q.seqId && !st.Blind?
    requires GenCount(x) > 0 ==> st.Cold?
    requires Made(w', q.seqId) == sampled && |sampled| == GenCount(x) && FedTo(w', q.seqId) == []
    requires sampled != [] ==> x.seqId in w'.latest && w'.latest[x.seqId] == sampled[0]
    requires sampled == [] && x.PrefillChunk? && x.tokens != [] ==>
               x.seqId in w'.latest && w'.latest[x.seqId] == Last(x.tokens, 0)
    requires Reach(ms + [Mark(x, Good(sampled))], q.frontier) == x.context + KvCount(x)
    ensures Ready(st, r, q, w', ms + [Mark(x, Good(sampled))])
    ensures sampled != [] ==> Lead(st, r) + sampled[..|sampled| - 1] == []
  {
    hide Reach, Samples, Made, FedTo;
    if x.PrefillChunk? && x.context + KvCount(x) >= |r.prompt| {
      assert Last(x.tokens, 0) == x.tokens[|x.tokens| - 1] == r.prompt[x.context + |x.tokens| - 1];
    }
  }

  lemma Associate(a: seq<Token>, b: seq<Token>, c: seq<Token>)
    ensures a + b + c == a + (b + c)
  {
  }

  lemma BoundMake(st: Start, r: Request, q: Sequence, w: Worker, ms: seq<Mark>)
    requires Made(w, q.seqId) == Since(st, r) + Samples(ms)
    requires var made := Made(w, q.seqId);
      FedTo(w, q.seqId) == if made == [] then [] else Lead(st, r) + made[..|made| - 1]
    requires Ready(st, r, q, w, ms) && Stands(st, r, q)
    ensures Bound(st, r, q, w, ms)
  {
  }

  lemma SampledOne(made: seq<Token>, made': seq<Token>, sampled: seq<Token>)
    requires |sampled| == 1 && made' == made + sampled
    ensures made' != [] && Last(made', 0) == sampled[0] && made'[..|made'| - 1] == made
  {
  }

  lemma BoundOther(st: Start, r: Request, q: Sequence, w: Worker, w': Worker, ms: seq<Mark>)
    requires Bound(st, r, q, w, ms) && Made(w', q.seqId) == Made(w, q.seqId) && FedTo(w', q.seqId) == FedTo(w, q.seqId)
    requires q.seqId in w.latest <==> q.seqId in w'.latest
    requires q.seqId in w.latest ==> w'.latest[q.seqId] == w.latest[q.seqId]
    ensures Bound(st, r, q, w', ms)
  {
  }

  lemma BoundLost(st: Start, r: Request, q: Sequence, w: Worker, ms: seq<Mark>, more: seq<Mark>)
    requires Bound(st, r, q, w, ms) && (AllGood(ms) ==> Samples(more) == [] && forall n: nat :: Reach(more, n) == n)
    ensures Bound(st, r, q, w, ms + more)
  {
    if AllGood(ms) { AppendGood(ms, more, q.frontier); } else { AppendLost(ms, more, q.frontier); }
  }

  /** Own and other memory after the item, with the answers so far. */
  lemma SettledExecuted(c: Config, st: Start, r: Request, q: Sequence, w: Worker, w': Worker, ms: seq<Mark>,
          x: WorkItem, sampled: seq<Token>)
    requires Settled(c, r, q, w, ms) && Bound(st, r, q, w, ms) && NextItem(r, q, ms, x) && AllGood(ms)
        && x.seqId == q.seqId && Leads(c, st, q.seqId)
    requires FedTo(w', q.seqId) == FedTo(w, q.seqId) + (if x.DecodeOneToken? && x.writeKv then Fed(c, w, x) else [])
    requires w'.mem == if KvCount(x) > 0 then WriteTokens(c, w.mem, x.table, x.context, Fed(c, w, x)) else w.mem
    requires x.table <= q.table && x.context + KvCount(x) <= Cap(c, |x.table|)
    requires forall p: nat | Writes(x, p) :: Lone(c, q.table, p)
    ensures Settled(c, r, q, w', ms + [Mark(x, Good(sampled))])
  {
    hide Holds, Lone, Cap, Samples, AllGood, WriteTokens, Bound, Fed, FedTo;
    var m := Mark(x, Good(sampled));
    var stream, stream' := Stream(r, w, q.seqId), Stream(r, w', q.seqId);
    AppendGood(ms, [m], q.frontier);
    OneMark(m, Reach(ms, q.frontier));
    hide Reach;
    WrittenStream(c, st, r, q, w, w', ms, x);
    hide NextItem;
    HoldsStream(c, w.mem, q.table, stream, stream', x.context);
    if KvCount(x) > 0 {
      FedCount(c, w, x);
      WriteHolds(c, w.mem, x.table, q.table, stream', x.context, Fed(c, w, x));
    }
  }

  /** What an item writes is what the stream has at its positions. */
  lemma WrittenStream(c: Config, st: Start, r: Request, q: Sequence, w: Worker, w': Worker, ms: seq<Mark>, x: WorkItem)
    requires Bound(st, r, q, w, ms) && NextItem(r, q, ms, x) && x.seqId == q.seqId && Leads(c, st, q.seqId)
    requires FedTo(w', q.seqId) == FedTo(w, q.seqId) + (if x.DecodeOneToken? && x.writeKv then Fed(c, w, x) else [])
    ensures var stream, stream' := Stream(r, w, q.seqId), Stream(r, w', q.seqId);
      && stream <= stream'
      && (KvCount(x) > 0 ==>
        x.context + KvCount(x) <= |stream'|
        && Fed(c, w, x) == stream'[x.context..x.context + KvCount(x)])
  {
    hide Bound, Reach, Samples, FedTo;
    if x.DecodeOneToken? && x.writeKv {
      StepFed(c, st, r, q, w, ms, x);
      FedCount(c, w, x);
      assert r.prompt + (FedTo(w, q.seqId) + Fed(c, w, x)) == r.prompt + FedTo(w, q.seqId) + Fed(c, w, x);
    } else if x.PrefillChunk? {
      PrefixSlice(r.prompt, FedTo(w', q.seqId), x.context, x.context + |x.tokens|);
    }
  }

  lemma SettledLost(c: Config, r: Request, q: Sequence, w: Worker, ms: seq<Mark>, more: seq<Mark>)
    requires Settled(c, r, q, w, ms) && (AllGood(ms) ==> forall n: nat :: Reach(more, n) == n)
    ensures Settled(c, r, q, w, ms + more)
  {
    hide Holds;
    if AllGood(ms) { AppendGood(ms, more, q.frontier); } else { AppendLost(ms, more, q.frontier); }
  }

  // ---------------------------------------------------------------- the pact

  lemma MarksOne(ms: seq<Mark>, m: Mark, q: SeqId)
    ensures MarksFor(ms + [m], q) == if m.item.seqId == q then MarksFor(ms, q) + [m] else MarksFor(ms, q)
  {
    MarksForConcat(ms, [m], q);
    assert [m][1..] == [];
  }

  lemma AnswersFitFor(n: SeqId, w: Worker, ms: seq<Mark>, q: SeqId)
    requires Issued(n, w, ms)
    ensures AnswersFit(MarksFor(ms, q))
  {
  }

  /** The state of an active sequence whose item is next. */
  lemma NextOfOwner(c: Config, s: Sched, out: seq<WorkItem>, ms: seq<Mark>, x: WorkItem, rest: seq<WorkItem>,
          w: Worker, t: Ticket)
    requires Steady(c, s, out) && out == MarkItems(ms) + [x] + rest && Issued(s.nextSeq, w, ms) && Shaped(s, ms, w)
    requires !w.halted && Going(s, t) && s.objs[t].sched.value.seqId == x.seqId && x.seqId !in w.failed
    ensures var r := s.objs[t]; var q := r.sched.value;
      AllGood(MarksFor(ms, q.seqId)) && NextItem(r, q, MarksFor(ms, q.seqId), x)
  {
    hide Places, Accounted, Sound, Booked, Hashed, MarksFor, Shape, MarkItems, NextItem;
    ActiveSeq(c, s, out, t);
    var r := s.objs[t];
    var q := r.sched.value;
    assert out == MarkItems(ms) + ([x] + rest);
    OfSplit(out, ms, [x] + rest, q.seqId);
    OfConcat([x], rest, q.seqId);
    assert Of([x], q.seqId) == [x];
    hide Of;
    var mine := MarksFor(ms, q.seqId);
    assert Of(out, q.seqId) == MarkItems(mine) + [x] + Of(rest, q.seqId);
    ShapeRunning(mine, false);
    AnswersFitFor(s.nextSeq, w, ms, q.seqId);
    NextOk(r, q, mine, x, Of(rest, q.seqId));
  }

  lemma ExecuteBound(c: Config, s: Sched, out: seq<WorkItem>, ms: seq<Mark>, x: WorkItem, rest: seq<WorkItem>,
          w: Worker, index: nat, pick: Pick, t: Ticket, st: Start)
    requires Steady(c, s, out) && out == MarkItems(ms) + [x] + rest && Issued(s.nextSeq, w, ms) && Shaped(s, ms, w)
    requires !w.halted && Going(s, t) && Leads(c, st, s.objs[t].sched.value.seqId)
    requires Bound(st, s.objs[t], s.objs[t].sched.value, w, MarksFor(ms, s.objs[t].sched.value.seqId))
    ensures var e := ExecuteItem(c, w, x, index, pick);
      Bound(st, s.objs[t], s.objs[t].sched.value, e.w,
          MarksFor(ms + [Mark(x, VerdictOf(e.result))], s.objs[t].sched.value.seqId))
  {
    hide Steady, MarksFor, Bound, Shape, MarkItems, NextItem, AllGood, Samples, Reach;
    var r := s.objs[t];
    var q := r.sched.value;
    var e := ExecuteItem(c, w, x, index, pick);
    ExecuteFrame(c, w, x, index, pick);
    hide ExecuteItem;
    var m := Mark(x, VerdictOf(e.result));
    MarksOne(ms, m, q.seqId);
    var mine := MarksFor(ms, q.seqId);
    if x.seqId != q.seqId {
      BoundOther(st, r, q, w, e.w, mine);
    } else if x.seqId in w.failed {
      ShapeRunning(mine, true);
      BoundLost(st, r, q, w, mine, [m]);
    } else {
      NextOfOwner(c, s, out, ms, x, rest, w, t);
      BoundExecuted(c, st, r, q, w, e.w, mine, x, e.result.sampled);
    }
  }

  lemma OwnPlaces(c: Config, s: Sched, out: seq<WorkItem>, x: WorkItem, t: Ticket)
    requires Steady(c, s, out) && x in out && t in s.objs && s.objs[t].sched.Some?
        && s.objs[t].sched.value.seqId == x.seqId
    ensures x.table <= s.objs[t].sched.value.table && x.context + KvCount(x) <= Cap(c, |x.table|)
    ensures forall p: nat | Writes(x, p) :: Lone(c, s.objs[t].sched.value.table, p)
  {
    ItemOwner(c, s, out, x);
    ItemFitsAt(c, s, out, x, t);
    hide Steady, Cap, Lone;
    var q := s.objs[t].sched.value;
    forall p: nat | Writes(x, p) ensures Lone(c, q.table, p) {
      WriteExclusive(c, s, out, x, t, p);
      CapMono(c, |x.table|, |q.table|);
      ExclusiveLone(c, s, t, p);
    }
  }

  lemma ItemFitsAt(c: Config, s: Sched, out: seq<WorkItem>, x: WorkItem, t: Ticket)
    requires Steady(c, s, out) && x in out && t in s.objs && s.objs[t].sched.Some?
        && s.objs[t].sched.value.seqId == x.seqId
    ensures ItemFits(c, x, s.objs[t].sched.value)
  {
    hide Places, Accounted, Sound, Cap, Totals, Hashed, Ordered, Live;
    SoundAt(c, s, out, t);
    assert x in Of(out, x.seqId);
  }

  lemma ExecuteSettled(c: Config, s: Sched, out: seq<WorkItem>, ms: seq<Mark>, x: WorkItem, rest: seq<WorkItem>,
          w: Worker, index: nat, pick: Pick, t: Ticket, st: Start)
    requires Steady(c, s, out) && out == MarkItems(ms) + [x] + rest && Issued(s.nextSeq, w, ms) && Shaped(s, ms, w)
    requires !w.halted && Going(s, t) && Leads(c, st, s.objs[t].sched.value.seqId)
    requires Bound(st, s.objs[t], s.objs[t].sched.value, w, MarksFor(ms, s.objs[t].sched.value.seqId))
    requires Settled(c, s.objs[t], s.objs[t].sched.value, w, MarksFor(ms, s.objs[t].sched.value.seqId))
    ensures var e := ExecuteItem(c, w, x, index, pick);
      Settled(c, s.objs[t], s.objs[t].sched.value, e.w,
          MarksFor(ms + [Mark(x, VerdictOf(e.result))], s.objs[t].sched.value.seqId))
  {
    hide Steady, MarksFor, Bound, Shape, MarkItems, NextItem, AllGood, Samples, Reach, Holds, Lone, Confined;
    var r := s.objs[t];
    var q := r.sched.value;
    var e := ExecuteItem(c, w, x, index, pick);
    ExecuteFrame(c, w, x, index, pick);
    ExecuteConfined(c, w, x, index, pick);
    hide ExecuteItem;
    var m := Mark(x, VerdictOf(e.result));
    MarksOne(ms, m, q.seqId);
    var mine := MarksFor(ms, q.seqId);
    assert x in out;
    if x.seqId != q.seqId {
      HoldsOutstanding(c, s, out, [x], w.mem, e.w.mem, t, Stream(r, w, q.seqId), Reach(mine, q.frontier));
    } else if x.seqId in w.failed {
      ShapeRunning(mine, true);
      SettledLost(c, r, q, w, mine, [m]);
    } else {
      NextOfOwner(c, s, out, ms, x, rest, w, t);
      OwnPlaces(c, s, out, x, t);
      SettledExecuted(c, st, r, q, w, e.w, mine, x, e.result.sampled);
    }
  }

  lemma ExecuteShaped(c: Config, s: Sched, ms: seq<Mark>, x: WorkItem, w: Worker, index: nat, pick: Pick)
    requires Shaped(s, ms, w)
    ensures var e := ExecuteItem(c, w, x, index, pick); Shaped(s, ms + [Mark(x, VerdictOf(e.result))], e.w)
  {
    hide MarksFor;
    var e := ExecuteItem(c, w, x, index, pick);
    ExecuteFrame(c, w, x, index, pick);
    hide ExecuteItem;
    var m := Mark(x, VerdictOf(e.result));
    forall t | Going(s, t)
      ensures var q := s.objs[t].sched.value.seqId; Shape(MarksFor(ms + [m], q), q in e.w.failed, e.w.halted)
    {
      var q := s.objs[t].sched.value.seqId;
      MarksOne(ms, m, q);
      assert [m][1..] == [];
      if m.item.seqId == q {
        ShapeAppend(MarksFor(ms, q), [m], q in w.failed, w.halted, q in w.failed);
      }
    }
  }

  lemma ExecuteIssued(c: Config, n: SeqId, ms: seq<Mark>, x: WorkItem, w: Worker, index: nat, pick: Pick)
    requires Issued(n, w, ms) && x.seqId < n
    ensures var e := ExecuteItem(c, w, x, index, pick); Issued(n, e.w, ms + [Mark(x, VerdictOf(e.result))])
  {
    ExecuteFrame(c, w, x, index, pick);
    hide ExecuteItem;
  }

  lemma LinkedLeads(c: Config, s: Sched, t: Ticket)
    requires AllLinked(c, s) && Going(s, t)
    ensures var q := s.objs[t].sched.value.seqId; q in s.hist.starts && Leads(c, s.hist.starts[q], q)
  {
    hide Chain, Aligned, Recorded;
  }

  /** Executing the oldest item that has no answer yet keeps the pact. */
  lemma PactExecuteItem(c: Config, s: Sched, out: seq<WorkItem>, ms: seq<Mark>, x: WorkItem, rest: seq<WorkItem>,
          w: Worker, index: nat, pick: Pick)
    requires Steady(c, s, out) && out == MarkItems(ms) + [x] + rest && Pact(c, s, w, ms) && !w.halted
    ensures var e := ExecuteItem(c, w, x, index, pick); Pact(c, s, e.w, ms + [Mark(x, VerdictOf(e.result))])
  {
    hide Steady, MarksFor, Bound, Shaped, MarkItems, Settled, Issued, CacheTells, ExecuteItem, Linked, Injective, Leads;
    assert x in out;
    ItemOwner(c, s, out, x);
    ExecuteIssued(c, s.nextSeq, ms, x, w, index, pick);
    ExecuteShaped(c, s, ms, x, w, index, pick);
    var e := ExecuteItem(c, w, x, index, pick);
    var ms' := ms + [Mark(x, VerdictOf(e.result))];
    forall t | Going(s, t)
      ensures var q := s.objs[t].sched.value;
        q.seqId in s.hist.starts && Bound(s.hist.starts[q.seqId], s.objs[t], q, e.w, MarksFor(ms', q.seqId))
    {
      LinkedLeads(c, s, t);
      ExecuteBound(c, s, out, ms, x, rest, w, index, pick, t, s.hist.starts[s.objs[t].sched.value.seqId]);
    }
    if Injective(c, s.hist.hashed) {
      ExecuteConfined(c, w, x, index, pick);
      CacheConfined(c, s, out, [x], w.mem, e.w.mem);
      forall t | Pure(s, t)
        ensures Settled(c, s.objs[t], s.objs[t].sched.value, e.w, MarksFor(ms', s.objs[t].sched.value.seqId))
      {
        LinkedLeads(c, s, t);
        ExecuteSettled(c, s, out, ms, x, rest, w, index, pick, t, s.hist.starts[s.objs[t].sched.value.seqId]);
      }
    }
  }

  // ---------------------------------------------------------------- one batch

  lemma BindableStays(h: History, w: Worker, w': Worker, items: seq<WorkItem>)
    requires AllBindable(h, w, items) && (forall q :: q in w.latest ==> q in w'.latest)
    ensures AllBindable(h, w', items)
  {
  }

  lemma {:induction false} PactExecuteItems(c: Config, s: Sched, out: seq<WorkItem>, ms: seq<Mark>,
          items: seq<WorkItem>, rest: seq<WorkItem>, w: Worker, index: nat, picks: seq<Pick>)
    requires Steady(c, s, out) && out == MarkItems(ms) + items + rest && Pact(c, s, w, ms) && !w.halted
    requires AllBindable(s.hist, w, out)
    ensures var e := ExecuteItems(c, w, items, index, picks);
      Pact(c, s, e.w, ms + ZipMarks(items, e.results)) && AllBindable(s.hist, e.w, out)
    decreases |items|
  {
    hide Steady, Pact, MarkItems, ExecuteItem, AllBindable;
    if items == [] {
      assert ms + ZipMarks(items, []) == ms;
    } else {
      var x := items[0];
      var pick := if picks == [] then Pick(0, false) else picks[0];
      var later := if picks == [] then [] else picks[1..];
      var e := ExecuteItem(c, w, x, index, pick);
      var m := Mark(x, VerdictOf(e.result));
      assert out == MarkItems(ms) + [x] + (items[1..] + rest);
      ExecuteFrame(c, w, x, index, pick);
      PactExecuteItem(c, s, out, ms, x, items[1..] + rest, w, index, pick);
      BindableStays(s.hist, w, e.w, out);
      assert MarkItems(ms + [m]) == MarkItems(ms) + [x] by { MarkItemsSnoc(ms, m); }
      assert out == MarkItems(ms + [m]) + items[1..] + rest;
      PactExecuteItems(c, s, out, ms + [m], items[1..], rest, e.w, index + 1, later);
      var tail := ExecuteItems(c, e.w, items[1..], index + 1, later);
      ZipCons(x, e.result, items, [e.result] + tail.results);
      assert (ms + [m]) + ZipMarks(items[1..], tail.results) == ms + ZipMarks(items, [e.result] + tail.results);
    }
  }

  lemma MarkItemsSnoc(ms: seq<Mark>, m: Mark)
    ensures MarkItems(ms + [m]) == MarkItems(ms) + [m.item]
  {
    MarkItemsConcat(ms, [m]);
    assert [m][1..] == [];
    assert MarkItems([m]) == [m.item];
  }

  lemma ZipCons(x: WorkItem, result: ItemResult, items: seq<WorkItem>, results: seq<ItemResult>)
    requires items != [] && results != [] && items[0] == x && results[0] == result
    ensures ZipMarks(items, results) == [Mark(x, VerdictOf(result))] + ZipMarks(items[1..], results[1..])
  {
  }
}
