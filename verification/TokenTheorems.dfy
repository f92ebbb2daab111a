/**
 What is fed to the model and what its memory holds, for every state of every run.
 */
module TokenTheorems {
  import opened Types
  import opened Blocks
  import opened State
  import opened Scheduling
  import opened Invariant
  import opened OutLemmas
  import opened AccountLemmas
  import opened SequenceLemmas
  import opened BuildLemmas
  import opened AdmitLemmas
  import opened StepLemmas
  import opened Protocol
  import opened Engine
  import opened CalmLemmas
  import opened Marks
  import opened EngineInvariant
  import opened Faithful
  import opened PactLemmas
  import opened ExecuteLemmas
  import opened TruthLemmas
  import opened SystemInvariant
  import opened Theorems

  // ---------------------------------------------------------------- late binding

  /** How the sequence of a request was admitted. */
  function StartedAs(s: Sched, t: Ticket): Start {
    if t in s.objs && s.objs[t].sched.Some? && s.objs[t].sched.value.seqId in s.hist.starts then
      s.hist.starts[s.objs[t].sched.value.seqId]
    else Cold(0)
  }

  lemma RunBound(c: Config, steps: seq<Step>, t: Ticket)
    requires c.Valid() && Going(Run(c, steps).s, t)
    ensures var y := Run(c, steps); var q := y.s.objs[t].sched.value;
      && q.seqId in y.s.hist.starts
      && Bound(StartedAs(y.s, t), y.s.objs[t], q, y.w, MarksFor(MarksOf(y.Aloft()), q.seqId))
  {
    hide Run, Truthful, Issued, Shaped, Injective, AllBindable, MarksFor, MarksOf, Bound, Linked;
    RunPact(c, steps);
  }

  /** The worker has sampled exactly the tokens the request has received since its sequence was admitted
      followed by those under way; its decode steps were fed a lead token, if it was readmitted onto a cached
      prompt, and then exactly those tokens but the last. */
  lemma TokensAgree(c: Config, steps: seq<Step>, t: Ticket)
    requires c.Valid() && Going(Run(c, steps).s, t)
    ensures var y := Run(c, steps); var r := y.s.objs[t]; var q := r.sched.value; var st := StartedAs(y.s, t);
      var made := Made(y.w, q.seqId);
      && made == Since(st, r) + Samples(MarksFor(MarksOf(y.Aloft()), q.seqId))
      && FedTo(y.w, q.seqId) == (if made == [] then [] else Lead(st, r) + made[..|made| - 1])
      && st.before <= |r.generated|
  {
    hide Run, Samples, MarksFor, MarksOf, Reach, Lead, Made, FedTo;
    RunBound(c, steps, t);
  }

  /** The oldest item of a sequence has been executed. */
  ghost predicate OldestDone(y: Sys, t: Ticket, x: WorkItem)
    requires Going(y.s, t)
  {
    var q := y.s.objs[t].sched.value.seqId;
    && Of(y.Out(), q) != [] && Of(y.Out(), q)[0] == x
    && MarksFor(MarksOf(y.Aloft()), q) != [] && MarksFor(MarksOf(y.Aloft()), q)[0].verdict.Good?
  }

  /** Number of the decode step among those of its sequence. */
  function StepNumber(r: Request, x: WorkItem): nat {
    if x.context >= |r.prompt| then x.context - |r.prompt| else 0
  }

  /** The token fed to the oldest executed decode step of an active request is the last token the request has
      received, unless none was received since its sequence was admitted; then it is the lead token. */
  lemma LateBinding(c: Config, steps: seq<Step>, t: Ticket, x: WorkItem)
    requires c.Valid() && Going(Run(c, steps).s, t) && x.DecodeOneToken? && x.writeKv && OldestDone(Run(c, steps), t, x)
    ensures var y := Run(c, steps); var r := y.s.objs[t]; var q := r.sched.value; var st := StartedAs(y.s, t);
      var fed := FedTo(y.w, q.seqId);
      && StepNumber(r, x) < |fed|
      && [fed[StepNumber(r, x)]] == (if Since(st, r) == [] then Lead(st, r) else [Last(r.generated, 0)])
      && (st.Cold? ==> fed[StepNumber(r, x)] == Last(r.generated, 0))
  {
    hide Steady, Run, Samples, MarksFor, MarksOf, Made, FedTo, Of, Bound;
    var y := Run(c, steps);
    var r := y.s.objs[t];
    var q := r.sched.value;
    RunSteady(c, steps);
    RunBound(c, steps, t);
    RunIssued(c, steps);
    OldestLive(c, y.s, y.Out(), t, x);
    FedAtHead(StartedAs(y.s, t), r, q, y.w, MarksFor(MarksOf(y.Aloft()), q.seqId), x, Of(y.Out(), q.seqId)[1..]) by {
      RunMarked(c, steps, t, x);
    }
  }

  lemma RunIssued(c: Config, steps: seq<Step>)
    requires c.Valid()
    ensures var y := Run(c, steps); Issued(y.s.nextSeq, y.w, MarksOf(y.Aloft()))
  {
    hide Run, Truthful, Shaped, Injective, AllBindable, AllBound, AllLinked, MarksOf;
    RunPact(c, steps);
  }

  lemma OldestLive(c: Config, s: Sched, out: seq<WorkItem>, t: Ticket, x: WorkItem)
    requires Steady(c, s, out) && Going(s, t)
    requires var q := s.objs[t].sched.value.seqId; Of(out, q) != [] && Of(out, q)[0] == x
    ensures var q := s.objs[t].sched.value;
      Live(s.objs[t], q, [x] + Of(out, q.seqId)[1..]) && x.seqId == q.seqId && x in out
  {
    hide Places, Accounted, Sound, Booked, Hashed;
    ActiveSeq(c, s, out, t);
    var q := s.objs[t].sched.value;
    assert Of(out, q.seqId) == [x] + Of(out, q.seqId)[1..];
    assert x in Of(out, q.seqId);
    OfIn(out, q.seqId, x);
  }

  lemma {:induction false} OfIn(out: seq<WorkItem>, q: SeqId, x: WorkItem)
    requires x in Of(out, q)
    ensures x in out && x.seqId == q
  {
    if out != [] && !(out[0].seqId == q && out[0] == x) { OfIn(out[1..], q, x); }
  }

  /** The answers so far are answers to the oldest items. */
  lemma RunMarked(c: Config, steps: seq<Step>, t: Ticket, x: WorkItem)
    requires c.Valid() && Going(Run(c, steps).s, t) && OldestDone(Run(c, steps), t, x)
    ensures var y := Run(c, steps); MarksFor(MarksOf(y.Aloft()), y.s.objs[t].sched.value.seqId)[0].item == x
  {
    hide Run, MarksFor, MarksOf, Of, Tidy, Paced, Orderly, InOrder, AnswersOk, ItemsOf;
    var y := Run(c, steps);
    RunRest(c, steps);
    var q := y.s.objs[t].sched.value.seqId;
    var ms := MarksOf(y.Aloft());
    AloftMarks(y.Aloft());
    OfPrefix(MarkItems(ms), y.Out(), q);
    OfMarks(ms, q);
    MarkItemsFirst(MarksFor(ms, q));
  }

  lemma MarkItemsFirst(ms: seq<Mark>)
    requires ms != []
    ensures MarkItems(ms) != [] && MarkItems(ms)[0] == ms[0].item
  {
  }

  lemma OfPrefix(a: seq<WorkItem>, b: seq<WorkItem>, q: SeqId)
    requires a <= b
    ensures Of(a, q) <= Of(b, q)
  {
    assert b == a + b[|a|..];
    OfConcat(a, b[|a|..], q);
  }

  lemma {:induction false} AloftMarks(fs: seq<Flight>)
    requires forall f :: f in fs ==> AnswersOk(f)
    ensures MarkItems(MarksOf(fs)) <= ItemsOf(fs)
    decreases |fs|
  {
    hide FlightMarks, AnswersOk;
    if fs != [] && fs[0].outcome.Some? {
      assert fs[0] in fs;
      FlightItems(fs[0]);
      AloftMarks(fs[1..]);
      MarkItemsConcat(FlightMarks(fs[0]), MarksOf(fs[1..]));
    } else {
      NoMarks();
    }
  }

  lemma NoMarks()
    ensures MarkItems([]) == []
  {
  }

  lemma FedAtHead(st: Start, r: Request, q: Sequence, w: Worker, ms: seq<Mark>, x: WorkItem, rest: seq<WorkItem>)
    requires Bound(st, r, q, w, ms) && Live(r, q, [x] + rest) && x.DecodeOneToken? && x.writeKv
    requires ms != [] && ms[0].verdict.Good? && ms[0].item == x && |ms[0].verdict.sampled| == GenCount(x)
    ensures var fed := FedTo(w, q.seqId); var k := StepNumber(r, x);
      k < |fed| && [fed[k]] == (if Since(st, r) == [] then Lead(st, r) else [Last(r.generated, 0)])
    ensures st.Cold? ==> Since(st, r) != []
  {
    hide Made, FedTo, Reach, Live, Bound, Samples, Lead, Since;
    BoundParts(st, r, q, w, ms);
    HeadPosition(r, q, x, rest);
    HeadTokens(r, q, x, rest);
    assert ms == [ms[0]] + ms[1..];
    MarkNext(ms[0], ms[1..], 0);
    FedAt(Lead(st, r), Since(st, r), ms[0].verdict.sampled + Samples(ms[1..]), FedTo(w, q.seqId), Made(w, q.seqId));
    LeadCount(st, r);
  }

  lemma LeadCount(st: Start, r: Request)
    ensures |Lead(st, r)| == if st.Cold? then 0 else 1
    ensures Since(st, r) != [] ==> Last(Since(st, r), 0) == Last(r.generated, 0)
  {
  }

  lemma FedAt(lead: seq<Token>, since: seq<Token>, more: seq<Token>, fed: seq<Token>, made: seq<Token>)
    requires made == since + more && more != [] && fed == lead + made[..|made| - 1]
    ensures |lead| + |since| <= |fed|
    ensures since != [] ==> fed[|lead| + |since| - 1] == Last(since, 0)
    ensures since == [] && lead != [] ==> fed[..|lead|] == lead
  {
  }

  /** A late-bound item of an active request finds a token exactly when its sequence was not readmitted onto a
      wholly cached prompt, or has sampled since. */
  lemma AlwaysBindable(c: Config, steps: seq<Step>, x: WorkItem, t: Ticket)
    requires c.Valid() && x in Run(c, steps).Out() && x.DecodeOneToken? && x.lateBind
    requires Going(Run(c, steps).s, t) && Run(c, steps).s.objs[t].sched.value.seqId == x.seqId
    ensures x.seqId in Run(c, steps).w.latest <==>
      !(StartedAs(Run(c, steps).s, t).Blind? && Made(Run(c, steps).w, x.seqId) == [])
  {
    hide Run, Pact, MarksFor, MarksOf, Samples, Reach, Stands, Lead, FedTo, Since;
    RunPact(c, steps);
    RunBound(c, steps, t);
    var y := Run(c, steps);
    assert Bindable(y.s.hist, y.w, x);
  }

  // ---------------------------------------------------------------- what the cache means

  /** Without hash collisions, every executed position of every active request that was not admitted over a
      misfiled block holds what computing the tokens it was fed from scratch would have put there. Unless the
      sequence was readmitted onto a cached prompt these are the request's own tokens. */
  lemma KvFaithful(c: Config, steps: seq<Step>, t: Ticket, p: nat)
    requires c.Valid() && Injective(c, Run(c, steps).s.hist.hashed) && Pure(Run(c, steps).s, t)
    requires p < Run(c, steps).s.objs[t].sched.value.frontier
    ensures var y := Run(c, steps); var r := y.s.objs[t]; var q := r.sched.value;
      && p < |Stream(r, y.w, q.seqId)|
      && Read(y.w.mem, Slot(c, q.table, p)) == Canon(Stream(r, y.w, q.seqId), p)
      && (StartedAs(y.s, t).Cold? ==> Stream(r, y.w, q.seqId) <= r.prompt + Made(y.w, q.seqId))
  {
    hide Run, Issued, Shaped, Injective, AllBindable, AllBound, AllLinked, MarksFor, MarksOf, CacheTells, Slot,
        FedTo, Made;
    RunPact(c, steps);
    TokensAgree(c, steps, t);
    var y := Run(c, steps);
    var r := y.s.objs[t];
    var q := r.sched.value;
    var ms := MarksFor(MarksOf(y.Aloft()), q.seqId);
    assert Settled(c, r, q, y.w, ms);
    ReachUp(ms, q.frontier);
    ColdStream(r.prompt, Made(y.w, q.seqId));
  }

  lemma ColdStream(prompt: seq<Token>, made: seq<Token>)
    ensures prompt <= prompt + made
    ensures made != [] ==> prompt + ([] + made[..|made| - 1]) <= prompt + made
  {
  }

  /** A prefix-cache hit on any prompt: every returned block that was not misfiled holds, at every position, what
      recomputing the prompt would give. */
  lemma PrefixHit(c: Config, steps: seq<Step>, prompt: seq<Token>, p: nat)
    requires c.Valid() && Injective(c, Looked(c, Run(c, steps).s, prompt).hist.hashed)
    requires var hit := HitTable(c, Run(c, steps).s, prompt);
      p < Cap(c, |hit|) && BlockAt(c, p) < |hit| && hit[BlockAt(c, p)] !in Run(c, steps).s.hist.tainted
    ensures var y := Run(c, steps); var hit := HitTable(c, y.s, prompt);
      p < |prompt| && Read(y.w.mem, Slot(c, hit, p)) == Canon(prompt, p)
  {
    hide Run, HitTable, Looked, Steady, Pact, AllBindable, Injective, Slot;
    var y := Run(c, steps);
    RunPact(c, steps);
    RunSteady(c, steps);
    HitMeans(c, y.s, y.Out(), y.w, MarksOf(y.Aloft()), prompt, p);
  }

  lemma HitMeans(c: Config, s: Sched, out: seq<WorkItem>, w: Worker, ms: seq<Mark>, prompt: seq<Token>, p: nat)
    requires Steady(c, s, out) && Pact(c, s, w, ms) && Injective(c, Looked(c, s, prompt).hist.hashed)
    requires var hit := HitTable(c, s, prompt);
      p < Cap(c, |hit|) && BlockAt(c, p) < |hit| && hit[BlockAt(c, p)] !in s.hist.tainted
    ensures p < |prompt| && Read(w.mem, Slot(c, HitTable(c, s, prompt), p)) == Canon(prompt, p)
  {
    hide HitTable, Looked, Core, AllBound, AllLinked, Shaped, Issued, AllSettled, Valid, HitOk, Injective, Slot;
    CalmLooked(c, s, prompt);
    InjectiveBefore(c, s.hist.hashed, Looked(c, s, prompt).hist.hashed);
    CoreValid(c, s, out, {}, multiset{});
    var s1 := Looked(c, s, prompt);
    CacheTellsCalm(c, s, s1, w.mem);
    var hit := HitTable(c, s, prompt);
    var k := TakeBlocks(s1, 0);
    TakeNone(s1);
    LookupHits(c, s, k, prompt, 0);
    assert hit + [] == hit;
    HitPosition(c, s1, w.mem, prompt, |hit|, ParentOf(c, prompt, |hit|), hit, p);
  }

  lemma TakeNone(s: Sched)
    ensures TakeBlocks(s, 0) == Taken(s, [], true) && TakenOk(s, 0, TakeBlocks(s, 0))
  {
  }
}
