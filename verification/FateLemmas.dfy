/** Executing or losing a whole batch keeps the pact. */
module FateLemmas {
  import opened Types
  import opened Blocks
  import opened State
  import opened Invariant
  import opened BuildLemmas
  import opened StepLemmas
  import opened Engine
  import opened CalmLemmas
  import opened Marks
  import opened Faithful
  import opened PactLemmas
  import opened MemoryLemmas
  import opened ExecuteLemmas

  lemma SmudgeConfined(c: Config, w: Worker, items: seq<WorkItem>, junk: map<nat, Kv>)
    ensures Confined(c, w.mem, Smudge(w.mem, Dirty(c, w, items), junk), items)
  {
    hide Slot;
    var dirty := Dirty(c, w, items);
    var mem' := Smudge(w.mem, dirty, junk);
    forall k: nat | Read(mem', k) != Read(w.mem, k) ensures InSlots(c, items, k) {
      assert k in dirty;
      var x, p: nat :| x in items && x.seqId !in w.failed && x.context <= p < x.context + KvCount(x)
          && k == Slot(c, x.table, p);
      assert Writes(x, p);
    }
  }

  /** Lost items add no answers that count. */
  lemma SpoilAddsNothing(items: seq<WorkItem>, q: SeqId, n: nat)
    ensures var more := MarksFor(SpoilMarks(items), q); Samples(more) == [] && Reach(more, n) == n
  {
    var more := MarksFor(SpoilMarks(items), q);
    if more != [] {
      assert more[0] in more;
      SpoilMarked(items, more[0]);
    }
  }

  /** The items of a sequence that have no answer yet write beyond its executed positions. */
  lemma PendingBeyond(c: Config, s: Sched, out: seq<WorkItem>, ms: seq<Mark>, pend: seq<WorkItem>, t: Ticket,
          x: WorkItem)
    requires Steady(c, s, out) && out == MarkItems(ms) + pend && x in pend
    requires t in s.objs && s.objs[t].sched.Some? && s.objs[t].sched.value.seqId == x.seqId
    ensures Reach(MarksFor(ms, x.seqId), s.objs[t].sched.value.frontier) <= x.context
  {
    hide Places, Accounted, Sound, Cap, Totals, Hashed, Live, MarkItems, MarksFor;
    SoundAt(c, s, out, t);
    var q := s.objs[t].sched.value;
    assert x in Of(pend, q.seqId);
    hide Of;
    OfSplit(out, ms, pend, q.seqId);
    ReachBelow(MarksFor(ms, q.seqId), Of(pend, q.seqId), q.frontier, q.frontier, x);
  }

  lemma SpoilSettled(c: Config, s: Sched, out: seq<WorkItem>, ms: seq<Mark>, items: seq<WorkItem>,
          rest: seq<WorkItem>, w: Worker, w': Worker, t: Ticket)
    requires Steady(c, s, out) && out == MarkItems(ms) + items + rest && Going(s, t)
    requires Confined(c, w.mem, w'.mem, items) && w'.fed == w.fed
    requires Settled(c, s.objs[t], s.objs[t].sched.value, w, MarksFor(ms, s.objs[t].sched.value.seqId))
    ensures Settled(c, s.objs[t], s.objs[t].sched.value, w',
        MarksFor(ms + SpoilMarks(items), s.objs[t].sched.value.seqId))
  {
    hide Steady, MarksFor, MarkItems, Reach, Holds, Confined, SpoilMarks;
    var r := s.objs[t];
    var q := r.sched.value;
    var mine := MarksFor(ms, q.seqId);
    assert out == MarkItems(ms) + (items + rest);
    forall x | x in items && x.seqId == q.seqId ensures Reach(mine, q.frontier) <= x.context {
      PendingBeyond(c, s, out, ms, items + rest, t, x);
    }
    HoldsOutstanding(c, s, out, items, w.mem, w'.mem, t, Stream(r, w, q.seqId), Reach(mine, q.frontier));
    assert Settled(c, r, q, w', mine);
    hide Settled;
    var more := MarksFor(SpoilMarks(items), q.seqId);
    forall n: nat ensures Reach(more, n) == n {
      SpoilAddsNothing(items, q.seqId, n);
    }
    SettledLost(c, r, q, w', mine, more);
    MarksForConcat(ms, SpoilMarks(items), q.seqId);
  }

  lemma SpoilBound(s: Sched, ms: seq<Mark>, items: seq<WorkItem>, w: Worker, w': Worker, t: Ticket, st: Start)
    requires Going(s, t) && w'.made == w.made && w'.fed == w.fed && w'.latest == w.latest
    requires Bound(st, s.objs[t], s.objs[t].sched.value, w, MarksFor(ms, s.objs[t].sched.value.seqId))
    ensures Bound(st, s.objs[t], s.objs[t].sched.value, w',
        MarksFor(ms + SpoilMarks(items), s.objs[t].sched.value.seqId))
  {
    hide MarksFor, Bound, SpoilMarks, Reach;
    var r := s.objs[t];
    var q := r.sched.value;
    BoundOther(st, r, q, w, w', MarksFor(ms, q.seqId));
    forall n: nat ensures Reach(MarksFor(SpoilMarks(items), q.seqId), n) == n {
      SpoilAddsNothing(items, q.seqId, n);
    }
    SpoilAddsNothing(items, q.seqId, 0);
    BoundLost(st, r, q, w', MarksFor(ms, q.seqId), MarksFor(SpoilMarks(items), q.seqId));
    MarksForConcat(ms, SpoilMarks(items), q.seqId);
  }

  lemma SpoilIssued(c: Config, s: Sched, out: seq<WorkItem>, ms: seq<Mark>, items: seq<WorkItem>, w: Worker, w': Worker)
    requires Steady(c, s, out) && (forall x :: x in items ==> x in out) && Issued(s.nextSeq, w, ms)
    requires w'.made == w.made && w'.fed == w.fed && w'.latest == w.latest
        && (forall q :: q in w'.failed ==> q in w.failed || exists x :: x in items && x.seqId == q)
    ensures Issued(s.nextSeq, w', ms + SpoilMarks(items))
  {
    hide Steady, SpoilMarks;
    forall x | x in items ensures x.seqId < s.nextSeq {
      ItemOwner(c, s, out, x);
    }
    forall m | m in SpoilMarks(items) ensures m.item in items && m.verdict.Spoiled? {
      SpoilMarked(items, m);
    }
  }

  lemma PactSpoil(c: Config, s: Sched, out: seq<WorkItem>, ms: seq<Mark>, items: seq<WorkItem>, rest: seq<WorkItem>,
          w: Worker, w': Worker)
    requires Steady(c, s, out) && out == MarkItems(ms) + items + rest && Pact(c, s, w, ms)
    requires w' == w.(mem := w'.mem, failed := w'.failed) && Confined(c, w.mem, w'.mem, items)
    requires forall q :: q in w'.failed ==> q in w.failed || exists x :: x in items && x.seqId == q
    requires Shaped(s, ms + SpoilMarks(items), w')
    ensures Pact(c, s, w', ms + SpoilMarks(items))
  {
    hide Steady, MarksFor, Bound, Shaped, MarkItems, Settled, Issued, CacheTells, Confined, SpoilMarks, Linked,
        Injective;
    var ms' := ms + SpoilMarks(items);
    SpoilIssued(c, s, out, ms, items, w, w');
    forall t | Going(s, t)
      ensures var q := s.objs[t].sched.value;
        q.seqId in s.hist.starts && Bound(s.hist.starts[q.seqId], s.objs[t], q, w', MarksFor(ms', q.seqId))
    {
      SpoilBound(s, ms, items, w, w', t, s.hist.starts[s.objs[t].sched.value.seqId]);
    }
    if Injective(c, s.hist.hashed) {
      CacheConfined(c, s, out, items, w.mem, w'.mem);
      forall t | Pure(s, t)
        ensures Settled(c, s.objs[t], s.objs[t].sched.value, w', MarksFor(ms', s.objs[t].sched.value.seqId))
      {
        SpoilSettled(c, s, out, ms, items, rest, w, w', t);
      }
    }
  }

  lemma FateSpoils(c: Config, w: Worker, f: Flight, picks: seq<Pick>, broken: bool, code: ErrorCode, junk: map<nat, Kv>)
    ensures var (w', f') := Fate(c, w, f, picks, broken, code, junk);
      f'.outcome.Some? && f'.items == f.items &&
      (if f'.outcome.value.Broken? then
         && FlightMarks(f') == SpoilMarks(f.items)
         && w' == w.(mem := w'.mem, failed := w'.failed) && Confined(c, w.mem, w'.mem, f.items)
       else
         var e := ExecuteItems(c, w, f.items, 0, picks);
         !w.halted && w' == e.w && FlightMarks(f') == ZipMarks(f.items, e.results))
  {
    hide Smudge, Dirty, ExecuteItems, ZipMarks, SpoilMarks;
    SmudgeConfined(c, w, f.items, junk);
  }

  /** Whatever happens to the oldest batch without an outcome, the pact is kept. */
  lemma PactFate(c: Config, s: Sched, out: seq<WorkItem>, ms: seq<Mark>, f: Flight, rest: seq<WorkItem>, w: Worker,
          picks: seq<Pick>, broken: bool, code: ErrorCode, junk: map<nat, Kv>)
    requires Steady(c, s, out) && out == MarkItems(ms) + f.items + rest && Pact(c, s, w, ms)
        && AllBindable(s.hist, w, out)
    ensures var (w', f') := Fate(c, w, f, picks, broken, code, junk);
      Pact(c, s, w', ms + FlightMarks(f')) && AllBindable(s.hist, w', out)
  {
    FateSpoils(c, w, f, picks, broken, code, junk);
    FateFrame(c, w, f, picks, broken, code, junk);
    FateShaped(c, s, ms, w, f, picks, broken, code, junk);
    hide Steady, MarkItems, Fate, ExecuteItems, FlightMarks, Shaped, Confined, AllBindable, Issued, AllBound, Truthful;
    var (w', f') := Fate(c, w, f, picks, broken, code, junk);
    if f'.outcome.value.Broken? {
      PactSpoil(c, s, out, ms, f.items, rest, w, w');
      BindableStays(s.hist, w, w', out);
    } else {
      PactExecuteItems(c, s, out, ms, f.items, rest, w, 0, picks);
    }
  }
}
