/** What the worker has decided about the items that are executed but not yet retired. */
module Marks {
  import opened Types
  import opened Blocks
  import Hashing
  import opened State
  import opened Scheduling
  import opened RetireLemmas
  import opened Engine
  import opened CalmLemmas

  /** An item was executed, skipped because its sequence is barred, or lost with its whole batch. */
  datatype Verdict = Good(sampled: seq<Token>) | Stale | Spoiled

  datatype Mark = Mark(item: WorkItem, verdict: Verdict)

  function VerdictOf(r: ItemResult): Verdict {
    if r.stale then Stale else Good(r.sampled)
  }

  function ZipMarks(items: seq<WorkItem>, results: seq<ItemResult>): seq<Mark>
    decreases |items|
  {
    if items == [] || results == [] then []
    else [Mark(items[0], VerdictOf(results[0]))] + ZipMarks(items[1..], results[1..])
  }

  function SpoilMarks(items: seq<WorkItem>): seq<Mark> {
    if items == [] then [] else [Mark(items[0], Spoiled)] + SpoilMarks(items[1..])
  }

  function FlightMarks(f: Flight): seq<Mark> {
    match f.outcome
    case None => []
    case Some(Done(results)) => ZipMarks(f.items, results)
    case Some(Broken(_)) => SpoilMarks(f.items)
  }

  /** Marks of the executed batches, oldest first. */
  function MarksOf(fs: seq<Flight>): seq<Mark> {
    if fs == [] || fs[0].outcome.None? then [] else FlightMarks(fs[0]) + MarksOf(fs[1..])
  }

  function MarksFor(ms: seq<Mark>, q: SeqId): (r: seq<Mark>)
    ensures forall m :: m in r <==> m in ms && m.item.seqId == q
  {
    if ms == [] then []
    else if ms[0].item.seqId == q then [ms[0]] + MarksFor(ms[1..], q)
    else MarksFor(ms[1..], q)
  }

  lemma {:induction false} MarksForConcat(a: seq<Mark>, b: seq<Mark>, q: SeqId)
    ensures MarksFor(a + b, q) == MarksFor(a, q) + MarksFor(b, q)
  {
    if a == [] {
      assert a + b == b;
    } else {
      MarksForConcat(a[1..], b, q);
      assert (a + b)[1..] == a[1..] + b;
    }
  }

  lemma {:induction false} MarksForNone(a: seq<Mark>, q: SeqId)
    requires forall m :: m in a ==> m.item.seqId != q
    ensures MarksFor(a, q) == []
  {
    if a != [] {
      assert a[0] in a;
      MarksForNone(a[1..], q);
    }
  }

  // ---------------------------------------------------------------- the worker's answers to one sequence

  /** Nothing was skipped before something was lost. Once something was lost the sequence is barred or
      the worker has stopped, and until then it is not barred. */
  predicate Shape(ms: seq<Mark>, barred: bool, halted: bool) {
    if ms == [] then !barred
    else match ms[0].verdict
         case Good(_) => Shape(ms[1..], barred, halted)
         case Stale => false
         case Spoiled => barred || halted
  }

  lemma {:induction false} ShapeAppend(a: seq<Mark>, b: seq<Mark>, barred: bool, halted: bool, barred': bool)
    requires Shape(a, barred, halted) && (barred ==> barred')
    requires !barred ==> Shape(b, barred', halted)
    ensures Shape(a + b, barred', halted)
  {
    if a == [] {
      assert a + b == b;
    } else if a[0].verdict.Good? {
      ShapeAppend(a[1..], b, barred, halted, barred');
      assert (a + b)[1..] == a[1..] + b;
    }
  }

  lemma {:induction false} ShapeGood(b: seq<Mark>, halted: bool)
    requires forall m :: m in b ==> m.verdict.Good?
    ensures Shape(b, false, halted)
  {
    if b != [] {
      assert b[0] in b;
      ShapeGood(b[1..], halted);
    }
  }

  /** Every active sequence has an unbroken run of answers. */
  ghost predicate Shaped(s: Sched, ms: seq<Mark>, w: Worker) {
    forall t :: Going(s, t) ==> var q := s.objs[t].sched.value.seqId; Shape(MarksFor(ms, q), q in w.failed, w.halted)
  }

  /** The worker stops for good. */
  lemma {:induction false} ShapeHalt(ms: seq<Mark>, barred: bool)
    requires Shape(ms, barred, false)
    ensures Shape(ms, barred, true)
  {
    if ms != [] && ms[0].verdict.Good? { ShapeHalt(ms[1..], barred); }
  }

  lemma ShapedHalt(s: Sched, ms: seq<Mark>, w: Worker)
    requires Shaped(s, ms, w)
    ensures Shaped(s, ms, w.(halted := true))
  {
    forall t | Going(s, t)
      ensures var q := s.objs[t].sched.value.seqId; Shape(MarksFor(ms, q), q in w.failed, true)
    {
      var q := s.objs[t].sched.value.seqId;
      if !w.halted { ShapeHalt(MarksFor(ms, q), q in w.failed); }
    }
  }

  ghost predicate Below(failed: set<SeqId>, n: SeqId) {
    forall q :: q in failed ==> q < n
  }

  lemma ShapedCalm(s: Sched, s': Sched, ms: seq<Mark>, w: Worker)
    requires Shaped(s, ms, w) && Calm(s, s')
    ensures Shaped(s', ms, w)
  {
    hide Shape, MarksFor;
  }

  // ---------------------------------------------------------------- one batch executed

  ghost predicate ResultsOk(items: seq<WorkItem>, results: seq<ItemResult>, from: nat) {
    && |results| == |items|
    && (forall i | 0 <= i < |items| :: ResultOk(items[i], results[i]) && results[i].index == from + i)
  }

  lemma {:induction false} ExecuteItemsOk(c: Config, w: Worker, items: seq<WorkItem>, from: nat, picks: seq<Pick>)
    ensures var e := ExecuteItems(c, w, items, from, picks);
      && e.w.failed == w.failed && e.w.halted == w.halted
      && ResultsOk(items, e.results, from)
      && (forall i | 0 <= i < |items| :: e.results[i].stale <==> items[i].seqId in w.failed)
    decreases |items|
  {
    hide WriteTokens;
    if items != [] {
      var pick := if picks == [] then Pick(0, false) else picks[0];
      var e := ExecuteItem(c, w, items[0], from, pick);
      assert ResultOk(items[0], e.result) && e.result.index == from && e.w.failed == w.failed;
      var later := if picks == [] then [] else picks[1..];
      ExecuteItemsOk(c, e.w, items[1..], from + 1, later);
      var rest := ExecuteItems(c, e.w, items[1..], from + 1, later);
      var all := ExecuteItems(c, w, items, from, picks);
      assert all.results == [e.result] + rest.results;
      forall i | 0 <= i < |items|
        ensures ResultOk(items[i], all.results[i]) && all.results[i].index == from + i
                && (all.results[i].stale <==> items[i].seqId in w.failed)
      {
        if i > 0 { assert items[i] == items[1..][i - 1] && all.results[i] == rest.results[i - 1]; }
      }
    }
  }

  lemma {:induction false} ZipMarked(items: seq<WorkItem>, results: seq<ItemResult>, m: Mark)
    requires |results| == |items| && m in ZipMarks(items, results)
    ensures exists i :: 0 <= i < |items| && m == Mark(items[i], VerdictOf(results[i]))
    decreases |items|
  {
    if items != [] && m != Mark(items[0], VerdictOf(results[0])) {
      ZipMarked(items[1..], results[1..], m);
      var i :| 0 <= i < |items[1..]| && m == Mark(items[1..][i], VerdictOf(results[1..][i]));
      assert m == Mark(items[i + 1], VerdictOf(results[i + 1]));
    }
  }

  lemma {:induction false} SpoilMarked(items: seq<WorkItem>, m: Mark)
    ensures m in SpoilMarks(items) <==> m.verdict == Spoiled && m.item in items
  {
    if items != [] {
      SpoilMarked(items[1..], m);
      assert items == [items[0]] + items[1..];
    }
  }

  lemma ShapeSpoiled(b: seq<Mark>, barred: bool, halted: bool)
    requires b != [] && b[0].verdict.Spoiled? && (barred || halted)
    ensures Shape(b, barred, halted)
  {
  }

  ghost predicate AnswersOk(f: Flight) {
    f.outcome.Some? && f.outcome.value.Done? ==> ResultsOk(f.items, f.outcome.value.results, 0)
  }

  /** Executing a batch answers the items of every sequence that was not barred. */
  lemma FateShape(c: Config, w: Worker, f: Flight, picks: seq<Pick>, broken: bool, code: ErrorCode, junk: map<nat,
          Kv>, q: SeqId)
    requires q !in w.failed
    ensures var (w', f') := Fate(c, w, f, picks, broken, code, junk);
      Shape(MarksFor(FlightMarks(f'), q), q in w'.failed, w'.halted)
  {
    hide WriteTokens, Smudge, Dirty, ExecuteItems;
    var (w', f') := Fate(c, w, f, picks, broken, code, junk);
    var ms := MarksFor(FlightMarks(f'), q);
    if f'.outcome.value.Broken? {
      forall m | m in ms ensures m.verdict.Spoiled? && m.item in f.items && m.item.seqId == q {
        SpoilMarked(f.items, m);
      }
      if ms != [] {
        assert ms[0] in ms;
        ShapeSpoiled(ms, q in w'.failed, w'.halted);
      } else {
        forall x | x in f.items ensures x.seqId != q {
          SpoilMarked(f.items, Mark(x, Spoiled));
          assert x.seqId == q ==> Mark(x, Spoiled) in ms;
        }
      }
    } else {
      ExecuteItemsOk(c, w, f.items, 0, picks);
      var results := f'.outcome.value.results;
      forall m | m in ms ensures m.verdict.Good? {
        ZipMarked(f.items, results, m);
      }
      ShapeGood(ms, w.halted);
    }
  }

  lemma FateFrame(c: Config, w: Worker, f: Flight, picks: seq<Pick>, broken: bool, code: ErrorCode, junk: map<nat, Kv>)
    ensures var (w', f') := Fate(c, w, f, picks, broken, code, junk);
      && f'.items == f.items && f'.outcome.Some? && AnswersOk(f')
      && w'.halted == w.halted && w.failed <= w'.failed
      && (forall q :: q in w'.failed ==> q in w.failed || exists x :: x in f.items && x.seqId == q)
  {
    hide Smudge, Dirty, ExecuteItems;
    ExecuteItemsOk(c, w, f.items, 0, picks);
  }

  lemma FateShaped(c: Config, s: Sched, ms: seq<Mark>, w: Worker, f: Flight, picks: seq<Pick>, broken: bool,
          code: ErrorCode, junk: map<nat, Kv>)
    requires Shaped(s, ms, w)
    ensures var (w', f') := Fate(c, w, f, picks, broken, code, junk); Shaped(s, ms + FlightMarks(f'), w')
  {
    hide Fate, Shape, MarksFor, FlightMarks;
    FateFrame(c, w, f, picks, broken, code, junk);
    var (w', f') := Fate(c, w, f, picks, broken, code, junk);
    forall t | Going(s, t)
      ensures var q := s.objs[t].sched.value.seqId; Shape(MarksFor(ms + FlightMarks(f'), q), q in w'.failed, w'.halted)
    {
      var q := s.objs[t].sched.value.seqId;
      if q !in w.failed { FateShape(c, w, f, picks, broken, code, junk, q); }
      ShapeAppend(MarksFor(ms, q), MarksFor(FlightMarks(f'), q), q in w.failed, w.halted, q in w'.failed);
      MarksForConcat(ms, FlightMarks(f'), q);
    }
  }

  // ---------------------------------------------------------------- one item retired

  /** An operation on one request keeps its sequence id and does not revive it. */
  ghost predicate Touches(s: Sched, s': Sched, t: Ticket) {
    && (forall u :: u in s'.objs && u != t ==> u in s.objs && s'.objs[u] == s.objs[u])
    && (Going(s', t) ==> Going(s, t) && s'.objs[t].sched.value.seqId == s.objs[t].sched.value.seqId)
  }

  lemma ShapedRetire(s: Sched, s': Sched, t: Ticket, m: Mark, ms: seq<Mark>, w: Worker)
    requires Shaped(s, [m] + ms, w) && Touches(s, s', t)
    requires Going(s', t) ==> m.verdict.Good? || m.item.seqId != s.objs[t].sched.value.seqId
    requires forall u :: Going(s, u) && u != t ==> s.objs[u].sched.value.seqId != m.item.seqId
    ensures Shaped(s', ms, w)
  {
    forall u | Going(s', u)
      ensures var q := s'.objs[u].sched.value.seqId; Shape(MarksFor(ms, q), q in w.failed, w.halted)
    {
      var q := s'.objs[u].sched.value.seqId;
      assert Going(s, u) && s.objs[u].sched.value.seqId == q;
      assert Shape(MarksFor([m] + ms, q), q in w.failed, w.halted);
      MarksForConcat([m], ms, q);
      assert ([m] + ms)[1..] == ms;
      assert MarksFor([m] + ms, q) == if m.item.seqId == q then [m] + MarksFor(ms, q) else MarksFor(ms, q);
      assert ([m] + MarksFor(ms, q))[1..] == MarksFor(ms, q);
    }
  }

  lemma RetireTouches(c: Config, s: Sched, x: WorkItem, result: ItemResult)
    requires result.seqId in s.bySeq
    ensures Touches(s, RetireWork(c, s, x, result), s.bySeq[result.seqId])
  {
    hide Touches, RetireActive, RetireReservation;
    var t := s.bySeq[result.seqId];
    var r := Get(s, t);
    if r.sched.Some? {
      RetireSched(r, x);
      var s1 := Put(s, t, RetireReservation(r, x));
      TouchesPut(s, t, RetireReservation(r, x));
      if s1.objs[t].status == Active {
        RetireActiveTouches(c, s1, t, x, result);
        TouchesTrans(s, s1, RetireActive(c, s1, t, x, result), t);
      }
    } else {
      TouchesSelf(s, t);
    }
  }

  lemma RetireSched(r: Request, x: WorkItem)
    requires r.sched.Some?
    ensures var r' := RetireReservation(r, x);
      r'.sched.Some? && r'.sched.value.seqId == r.sched.value.seqId && r'.status == r.status
  {
  }

  lemma TouchesSelf(s: Sched, t: Ticket)
    ensures Touches(s, s, t)
  {
  }

  lemma TouchesPut(s: Sched, t: Ticket, r: Request)
    requires t in s.objs || r.status != Active || r.sched.None?
    requires t in s.objs && r.status == Active && r.sched.Some? ==>
               Going(s, t) && r.sched.value.seqId == s.objs[t].sched.value.seqId
    ensures Touches(s, Put(s, t, r), t)
  {
  }

  lemma TouchesTrans(a: Sched, b: Sched, c: Sched, t: Ticket)
    requires Touches(a, b, t) && Touches(b, c, t)
    ensures Touches(a, c, t)
  {
  }

  lemma RetireActiveTouches(c: Config, s: Sched, t: Ticket, x: WorkItem, result: ItemResult)
    requires t in s.objs && s.objs[t].status == Active && s.objs[t].sched.Some?
    ensures Touches(s, RetireActive(c, s, t, x, result), t)
  {
    hide HashWritten, Deliver, Advance, Delivered;
    var r := s.objs[t];
    var q := Advance(r, r.sched.value, x);
    AdvanceKeeps(r, r.sched.value, x);
    TouchesPut(s, t, r.(sched := Some(q)));
    HashSeq(c, s, r, q, x);
    var p := HashWritten(c, s, r, q, x);
    DeliverPlaces(p.s, t, r, p.q, result);
    DeliveredSeq(r, p.q, result);
    var s' := Deliver(p.s, t, r, p.q, result);
    assert s'.objs == p.s.objs[t := Delivered(r, p.q, result)];
  }

  lemma DeliveredSeq(r: Request, q: Sequence, result: ItemResult)
    ensures Delivered(r, q, result).sched.Some? && Delivered(r, q, result).sched.value.seqId == q.seqId
  {
  }

  lemma HashSeq(c: Config, s: Sched, r: Request, q: Sequence, x: WorkItem)
    ensures var p := HashWritten(c, s, r, q, x); p.q.seqId == q.seqId && p.s.objs == s.objs
  {
    hide WrittenTokens;
    if !(KvCount(x) == 0 || c.blockSize == 0) {
      PublishSeq(c, s, q.(pending := q.pending + WrittenTokens(r, x)), Sub(x.context, |q.pending|) / c.blockSize);
    }
  }

  lemma {:induction false} PublishSeq(c: Config, s: Sched, q: Sequence, i: nat)
    ensures var p := PublishPending(c, s, q, i); p.q.seqId == q.seqId && p.s.objs == s.objs
    decreases |q.pending|
  {
    if 0 < c.blockSize <= |q.pending| && i < |q.table| {
      var p := PublishStep(c, s, q, i);
      assert p.q.seqId == q.seqId && p.s.objs == s.objs by { hide Hashing.Chain, Publish; }
      PublishSeq(c, p.s, p.q, i + 1);
    }
  }

  lemma FailTouches(s: Sched, x: WorkItem, e: ErrorCode)
    requires x.seqId in s.bySeq && s.bySeq[x.seqId] in s.objs
    ensures Touches(s, FailItem(s, x, e), s.bySeq[x.seqId])
    ensures !Going(FailItem(s, x, e), s.bySeq[x.seqId])
  {
    FailItemForm(s, x, e);
  }
}
