/** What every reachable state of the whole system satisfies, and the proof that it does. */
module EngineInvariant {
  import opened Types
  import opened State
  import opened Scheduling
  import opened Invariant
  import opened RetireLemmas
  import opened StepLemmas
  import opened Protocol
  import opened ProtocolSteps
  import opened Engine
  import opened CalmLemmas
  import opened Marks

  // ---------------------------------------------------------------- retiring one batch

  lemma OnlyOwner(c: Config, s: Sched, x: WorkItem, rest: seq<WorkItem>)
    requires Steady(c, s, [x] + rest)
    ensures x.seqId in s.bySeq && s.bySeq[x.seqId] in s.objs && HasSeq(s, s.bySeq[x.seqId], x.seqId)
    ensures forall u :: Going(s, u) && u != s.bySeq[x.seqId] ==> s.objs[u].sched.value.seqId != x.seqId
  {
    hide Accounted, Sound, Queued, Named;
    assert x in [x] + rest;
    var t := s.bySeq[x.seqId];
    forall u | Going(s, u) && u != t ensures s.objs[u].sched.value.seqId != x.seqId {
      assert HasSeq(s, u, s.objs[u].sched.value.seqId) && HasSeq(s, t, x.seqId);
    }
  }

  lemma RetireOne(c: Config, s: Sched, x: WorkItem, result: ItemResult, rest: seq<WorkItem>, ms: seq<Mark>, w: Worker)
    requires Steady(c, s, [x] + rest) && Tidy(c, s) && ResultOk(x, result)
    requires Shaped(s, [Mark(x, VerdictOf(result))] + ms, w)
    ensures var s' := RetireWork(c, s, x, result);
      Steady(c, s', rest) && Tidy(c, s') && SameShape(s, s') && Shaped(s', ms, w)
  {
    hide Core, RetireWork, Tidy, SameShape, Shaped;
    OnlyOwner(c, s, x, rest);
    var t := s.bySeq[x.seqId];
    var m := Mark(x, VerdictOf(result));
    StaleInactive(s, t, m, ms, w);
    CoreRetireWork(c, s, x, rest, result);
    TidyRetireWork(c, s, [x] + rest, x, result);
    RetireTouches(c, s, x, result);
    ShapedRetire(s, RetireWork(c, s, x, result), t, m, ms, w);
  }

  lemma MarksHead(m: Mark, ms: seq<Mark>)
    ensures MarksFor([m] + ms, m.item.seqId) == [m] + MarksFor(ms, m.item.seqId)
  {
    MarksForConcat([m], ms, m.item.seqId);
  }

  /** An item is only skipped by the worker when its request is no longer active. */
  lemma StaleInactive(s: Sched, t: Ticket, m: Mark, ms: seq<Mark>, w: Worker)
    requires Shaped(s, [m] + ms, w) && HasSeq(s, t, m.item.seqId)
    ensures m.verdict == Stale ==> s.objs[t].status != Active
  {
    MarksHead(m, ms);
  }

  lemma {:induction false} RetireBatch(c: Config, s: Sched, items: seq<WorkItem>, results: seq<ItemResult>,
          rest: seq<WorkItem>, ms: seq<Mark>, w: Worker)
    requires Steady(c, s, items + rest) && Tidy(c, s) && |results| == |items|
    requires forall i | 0 <= i < |items| :: ResultOk(items[i], results[i])
    requires Shaped(s, ZipMarks(items, results) + ms, w)
    ensures var s' := RetireAll(c, s, items, results);
      Steady(c, s', rest) && Tidy(c, s') && SameShape(s, s') && Shaped(s', ms, w)
    decreases |items|
  {
    hide Core, RetireWork, Tidy, Shaped;
    if items == [] {
      assert items + rest == rest && ZipMarks(items, results) + ms == ms;
    } else {
      var x := items[0];
      var m := Mark(x, VerdictOf(results[0]));
      var later := ZipMarks(items[1..], results[1..]);
      assert items + rest == [x] + (items[1..] + rest);
      assert ZipMarks(items, results) + ms == [m] + (later + ms);
      RetireOne(c, s, x, results[0], items[1..] + rest, later + ms, w);
      RetireBatch(c, RetireWork(c, s, x, results[0]), items[1..], results[1..], rest, ms, w);
    }
  }

  lemma FailOne(c: Config, s: Sched, x: WorkItem, rest: seq<WorkItem>, m: Mark, ms: seq<Mark>, w: Worker, e: ErrorCode)
    requires Steady(c, s, [x] + rest) && m.item == x && Shaped(s, [m] + ms, w)
    ensures Shaped(FailItem(s, x, e), ms, w)
  {
    hide Core, FailItem, Shaped;
    OnlyOwner(c, s, x, rest);
    FailTouches(s, x, e);
    ShapedRetire(s, FailItem(s, x, e), s.bySeq[x.seqId], m, ms, w);
  }

  lemma {:induction false} FailShaped(c: Config, s: Sched, items: seq<WorkItem>, rest: seq<WorkItem>, ms: seq<Mark>,
          w: Worker, e: ErrorCode)
    requires Steady(c, s, items + rest) && Shaped(s, SpoilMarks(items) + ms, w)
    ensures Shaped(FailBatch(s, items, e), ms, w)
    decreases |items|
  {
    hide Core, FailItem, Shaped;
    if items == [] {
      assert SpoilMarks(items) + ms == ms;
    } else {
      var x := items[0];
      var later := SpoilMarks(items[1..]);
      assert items + rest == [x] + (items[1..] + rest);
      assert SpoilMarks(items) + ms == [Mark(x, Spoiled)] + (later + ms);
      FailOne(c, s, x, items[1..] + rest, Mark(x, Spoiled), later + ms, w, e);
      assert [x] + (items[1..] + rest) == [] + [x] + (items[1..] + rest)
          && [] + (items[1..] + rest) == items[1..] + rest;
      CoreFailItem(c, s, x, [], items[1..] + rest, e);
      FailShaped(c, FailItem(s, x, e), items[1..], rest, ms, w, e);
    }
  }

  /** Retiring a batch, whether it was executed or lost. */
  lemma RetiredOk(c: Config, s: Sched, f: Flight, rest: seq<WorkItem>, ms: seq<Mark>, w: Worker)
    requires Steady(c, s, f.items + rest) && Tidy(c, s) && f.outcome.Some? && AnswersOk(f)
    requires Shaped(s, FlightMarks(f) + ms, w)
    ensures var s' := Retired(c, s, f);
      Steady(c, s', rest) && Tidy(c, s') && SameShape(s, s') && Shaped(s', ms, w)
  {
    hide Core, RetireAll, FailBatch, Tidy, Shaped, ZipMarks, SpoilMarks;
    match f.outcome.value
    case Done(results) =>
      RetireBatch(c, s, f.items, results, rest, ms, w);
    case Broken(e) =>
      FailShaped(c, s, f.items, rest, ms, w, e);
      assert [] + f.items + rest == f.items + rest && [] + rest == rest;
      SteadyFailBatch(c, s, [], f.items, rest, e);
      TidyFailBatch(c, s, [], f.items, rest, e);
  }

  // ---------------------------------------------------------------- batches in flight

  /** Batches are executed oldest first. */
  ghost predicate InOrder(fs: seq<Flight>) {
    forall i, j | 0 <= i < j < |fs| :: fs[j].outcome.Some? ==> fs[i].outcome.Some?
  }

  ghost predicate Flying(c: Config, y: Sys) {
    && InOrder(y.Aloft()) && |y.Aloft()| <= c.maxConcurrent
    && (forall f :: f in y.Aloft() ==> f.items != [] && AnswersOk(f))
  }

  lemma {:induction false} ItemsOfConcat(a: seq<Flight>, b: seq<Flight>)
    ensures ItemsOf(a + b) == ItemsOf(a) + ItemsOf(b)
  {
    if a == [] {
      assert a + b == b;
    } else {
      ItemsOfConcat(a[1..], b);
      assert (a + b)[1..] == a[1..] + b && (a + b)[0] == a[0];
      var x, y, z := a[0].items, ItemsOf(a[1..]), ItemsOf(b);
      hide ItemsOf;
      assert x + (y + z) == x + y + z;
    }
  }

  lemma {:induction false} MarksPending(fs: seq<Flight>, f: Flight)
    requires f.outcome.None?
    ensures MarksOf(fs + [f]) == MarksOf(fs)
  {
    if fs == [] {
      assert fs + [f] == [f];
    } else {
      MarksPending(fs[1..], f);
      assert (fs + [f])[1..] == fs[1..] + [f];
    }
  }

  /** The first pending batch gets its outcome. */
  lemma {:induction false} MarksExecuted(fs: seq<Flight>, f: Flight)
    requires InOrder(fs) && FirstPending(fs) < |fs| && f.outcome.Some? && f.items == fs[FirstPending(fs)].items
    ensures var fs' := fs[FirstPending(fs) := f];
      MarksOf(fs') == MarksOf(fs) + FlightMarks(f) && ItemsOf(fs') == ItemsOf(fs) && InOrder(fs')
    decreases |fs|
  {
    hide FlightMarks;
    var k := FirstPending(fs);
    var fs' := fs[k := f];
    if k == 0 {
      assert fs'[1..] == fs[1..];
      assert fs[1..] == [] || fs[1..][0] == fs[1];
    } else {
      assert fs[1..][k - 1] == fs[k] && FirstPending(fs[1..]) == k - 1;
      MarksExecuted(fs[1..], f);
      assert fs'[1..] == fs[1..][k - 1 := f];
    }
  }

  lemma WorkerAloft(c: Config, y: Sys, picks: seq<Pick>, broken: bool, code: ErrorCode, junk: map<nat, Kv>)
    ensures var y' := WorkerStep(c, y, picks, broken, code, junk); var k := FirstPending(y.Aloft());
      && y' == y.(w := y'.w, flights := y'.flights, current := y'.current)
      && (y'.current.Some? <==> y.current.Some?) && |y'.flights| == |y.flights|
      && (k == |y.Aloft()| ==> y' == y)
      && (k < |y.Aloft()| ==>
            var (w, f) := Fate(c, y.w, y.Aloft()[k], picks, broken, code, junk);
            y'.w == w && y'.Aloft() == y.Aloft()[k := f])
  {
    hide Fate;
    var fs := y.Aloft();
    if y.current.Some? {
      assert fs[1..] == y.flights;
    } else {
      assert fs == y.flights;
    }
  }
}
