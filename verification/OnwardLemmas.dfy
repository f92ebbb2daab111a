/**
 Everything but retirement goes onward: it leaves the record of every active sequence alone or starts a new one
 without a gap, and it misfiles nothing.
 */
module OnwardLemmas {
  import opened Types
  import opened Blocks
  import opened State
  import opened Scheduling
  import opened Invariant
  import opened CoreLemmas
  import opened BuildLemmas
  import opened AdmitLemmas
  import opened StepLemmas
  import opened CalmLemmas
  import opened Faithful
  import opened PactLemmas

  /** The sequence of an active request and its record are as they were. */
  ghost predicate Continues(s: Sched, s': Sched, t: Ticket)
    requires Going(s', t)
  {
    && Going(s, t)
    && var q, q' := s.objs[t].sched.value, s'.objs[t].sched.value;
       q'.seqId == q.seqId && s'.objs[t].prompt == s.objs[t].prompt && Gap(s'.hist, q') == Gap(s.hist, q)
  }

  ghost predicate Onward(s: Sched, s': Sched) {
    && s'.hist.tainted == s.hist.tainted && (s.hist.tainted == {} ==> s'.hist.touched == s.hist.touched)
    && forall t :: Going(s', t) ==> Continues(s, s', t) || Gap(s'.hist, s'.objs[t].sched.value) == 0
  }

  lemma OnwardTrans(a: Sched, b: Sched, c: Sched)
    requires Onward(a, b) && Onward(b, c)
    ensures Onward(a, c)
  {
    hide Gap;
    forall t | Going(c, t) ensures Continues(a, c, t) || Gap(c.hist, c.objs[t].sched.value) == 0 {
      if Gap(c.hist, c.objs[t].sched.value) != 0 { assert Continues(b, c, t); }
    }
  }

  lemma CalmOnward(s: Sched, s': Sched)
    requires Calm(s, s')
    ensures Onward(s, s')
  {
  }

  lemma EnlistOnward(c: Config, s: Sched, t: Ticket, hits: nat, parent: Hash, table: seq<BlockId>)
    requires t in s.objs && Cap(c, hits) <= |s.objs[t].prompt|
    requires forall u :: Going(s, u) ==> s.objs[u].sched.value.seqId < s.nextSeq
    ensures Onward(s, Enlist(c, s, t, s.objs[t], hits, parent, table))
  {
    hide Soiled, StartOf, Admitted, Cap;
    var s' := Enlist(c, s, t, s.objs[t], hits, parent, table);
    EnlistShape(c, s, t, hits, parent, table, s');
    AdmittedForm(c, s, s.objs[t], hits, parent, table);
    hide Enlist;
    NotSoiled(s.hist, table, hits);
    forall u | Going(s', u) ensures Continues(s, s', u) || Gap(s'.hist, s'.objs[u].sched.value) == 0 {
      if u != t { assert Going(s, u); }
    }
  }

  lemma NotSoiled(h: History, table: seq<BlockId>, hits: nat)
    ensures h.tainted == {} ==> !Soiled(h, table, hits)
  {
  }

  // ---------------------------------------------------------------- admission

  lemma OnwardGranted(c: Config, g: Stage, s: Sched, out: seq<WorkItem>, t: Ticket, hits: nat, parent: Hash,
          table: seq<BlockId>)
    requires Core(c, s, out, {t}, multiset(table)) && t in s.objs && HitOk(c, s, s.objs[t].prompt, hits, parent, table)
    ensures Onward(s, AdmitGranted(c, g, s, t, s.objs[t], hits, parent, table).g.s)
  {
    hide Core, BuildWork, HitOk, Enlist, TurnAway, Calm, Onward;
    CalmTurnedAway(s, t, table);
    CalmOnward(s, TurnAway(s, t, table));
    QueueObjs(c, s, out, {t}, multiset(table));
    HitParent(c, s, s.objs[t].prompt, hits, parent, table);
    EnlistOnward(c, s, t, hits, parent, table);
    var s' := Enlist(c, s, t, s.objs[t], hits, parent, table);
    CalmBuildWork(c, g.(s := s'), t);
    CalmOnward(s', BuildWork(c, g.(s := s'), t).s);
    OnwardTrans(s, s', BuildWork(c, g.(s := s'), t).s);
  }

  lemma OnwardPrompt(c: Config, g: Stage, out: seq<WorkItem>, t: Ticket, raised: bool)
    requires Core(c, g.s, out, {t}, multiset{}) && t in g.s.objs
    ensures Onward(g.s, AdmitPrompt(c, g, t, g.s.objs[t], raised).g.s)
  {
    hide Core, Looked, HitTable, ParentOf, TakeBlocks, Rebuff, AdmitGranted, Sub, BlocksFor, Valid, Calm, HitOk, Onward;
    var r := g.s.objs[t];
    CoreValid(c, g.s, out, {t}, multiset{});
    var hit := HitTable(c, g.s, r.prompt);
    var s1 := Looked(c, g.s, r.prompt);
    CoreLooked(c, g.s, out, t, r.prompt);
    CalmLooked(c, g.s, r.prompt);
    var n := Sub(BlocksFor(c, |r.prompt|), |hit|);
    CoreTake(c, s1, out, {t}, multiset(hit), n);
    TakenFresh(c, s1, out, {t}, multiset(hit), n);
    var k := TakeBlocks(s1, n);
    CalmTake(s1, n);
    CalmTrans(g.s, s1, k.s);
    assert multiset(hit) + multiset(k.table) == multiset(hit + k.table);
    if !k.ok {
      TakenNone(s1, n);
      assert hit + k.table == hit;
      QueueObjs(c, k.s, out, {t}, multiset(hit));
      CalmRebuff(k.s, t, hit);
      CalmTrans(g.s, k.s, Rebuff(k.s, t, hit));
      CalmOnward(g.s, Rebuff(k.s, t, hit));
    } else {
      LookupHits(c, g.s, k, r.prompt, n);
      var s2 := k.s.(accepting := k.s.accepting && !raised);
      CoreQuiet(c, k.s, s2, out, {t}, multiset(hit + k.table));
      CalmSame(k.s, s2);
      CalmTrans(g.s, k.s, s2);
      CalmOnward(g.s, s2);
      HitQuiet(c, k.s, s2, r.prompt, |hit|, ParentOf(c, r.prompt, |hit|), hit + k.table);
      OnwardGranted(c, g, s2, out, t, |hit|, ParentOf(c, r.prompt, |hit|), hit + k.table);
      OnwardTrans(g.s, s2, AdmitGranted(c, g, s2, t, r, |hit|, ParentOf(c, r.prompt, |hit|), hit + k.table).g.s);
    }
  }

  lemma TakenNone(s: Sched, n: nat)
    ensures !TakeBlocks(s, n).ok ==> TakeBlocks(s, n).table == []
  {
    hide AllocateKv;
  }

  lemma OnwardWaiting(c: Config, g: Stage, base: seq<WorkItem>, raised: bool)
    requires Steady(c, g.s, base + g.items)
    ensures Onward(g.s, AdmitWaiting(c, g, raised).g.s)
  {
    hide Core, Dismiss, AdmitPrompt, Cap, Calm, Onward;
    CalmSame(g.s, g.s);
    CalmOnward(g.s, g.s);
    if g.budget != 0 && g.s.waiting != [] && |g.s.running| < c.maxRunning
       && |g.s.running| + |g.s.skip| < c.maxSequences {
      var t := g.s.waiting[0];
      CorePopWaiting(c, g.s, base + g.items, {}, multiset{});
      assert {} + {t} == {t};
      var s := g.s.(waiting := g.s.waiting[1..]);
      CalmSame(g.s, s);
      CalmOnward(g.s, s);
      forall e ensures Onward(g.s, Dismiss(s, t, e)) {
        CalmDismiss(s, t, e);
        CalmOnward(s, Dismiss(s, t, e));
        OnwardTrans(g.s, s, Dismiss(s, t, e));
      }
      OnwardPrompt(c, g.(s := s), base + g.items, t, raised);
      OnwardTrans(g.s, s, AdmitPrompt(c, g.(s := s), t, s.objs[t], raised).g.s);
    }
  }

  lemma {:induction false} OnwardLoop(c: Config, g0: Stage, base: seq<WorkItem>, raises: seq<Raise>)
    requires Steady(c, g0.s, base + g0.items)
    ensures Onward(g0.s, AdmitLoop(c, g0, raises).s)
    decreases |g0.s.skip| + |g0.s.waiting|
  {
    hide Core, AdmitSkipped, AdmitWaiting, Calm, Onward;
    var raise := if raises == [] then Raise(false, false) else raises[0];
    var later := if raises == [] then [] else raises[1..];
    var g := g0.(s := g0.s.(accepting := g0.s.accepting && !raise.head));
    CoreQuiet(c, g0.s, g.s, base + g.items, {}, multiset{});
    CalmSame(g0.s, g.s);
    CalmOnward(g0.s, g.s);
    if !(!g.s.accepting || g.s.paused || g.budget == 0 || |g.s.running| >= c.maxRunning
         || (g.s.skip == [] && g.s.waiting == [])) {
      var a := if g.s.skip != [] then AdmitSkipped(c, g, raise.check) else Admission(g, false);
      if g.s.skip != [] {
        AdmitSkippedShrinks(c, g, raise.check);
        CoreAdmitSkipped(c, g, base, raise.check);
        CalmAdmitSkipped(c, g, raise.check);
        CalmOnward(g.s, a.g.s);
        OnwardTrans(g0.s, g.s, a.g.s);
      }
      if a.again {
        OnwardLoop(c, a.g, base, later);
        OnwardTrans(g0.s, a.g.s, AdmitLoop(c, a.g, later).s);
      } else if a.g.s.waiting != [] {
        AdmitWaitingShrinks(c, a.g, raise.check);
        SteadyAdmitWaiting(c, a.g, base, raise.check);
        OnwardWaiting(c, a.g, base, raise.check);
        var b := AdmitWaiting(c, a.g, raise.check);
        OnwardTrans(g0.s, a.g.s, b.g.s);
        if b.again {
          OnwardLoop(c, b.g, base, later);
          OnwardTrans(g0.s, b.g.s, AdmitLoop(c, b.g, later).s);
        }
      }
    }
  }

  lemma OnwardSchedule(c: Config, s: Sched, base: seq<WorkItem>, raises: seq<Raise>)
    requires Steady(c, s, base)
    ensures Onward(s, ScheduleStep(c, s, raises).s)
  {
    hide Core, MakeRoom, BuildAll, AdmitLoop, Calm, Onward;
    var s1 := s.(nextBatch := s.nextBatch + 1);
    var s0 := s1.(shortage := false);
    assert base + [] == base;
    CoreQuiet(c, s, s1, base, {}, multiset{});
    CalmSame(s, s1);
    if s1.shortage {
      CoreQuiet(c, s1, s0, base, {}, multiset{});
      QueueObjs(c, s0, base, {}, multiset{});
      CoreMakeRoom(c, s0, base, {}, multiset{});
      CalmSame(s, s0);
      CalmMakeRoom(s0);
      CalmTrans(s, s0, MakeRoom(s0));
    }
    var s2 := if s1.shortage then MakeRoom(s0) else s1;
    var g0 := Stage(s2, [], c.tokenBudget);
    SteadyBuildAll(c, g0, base, s2.running);
    CalmBuildAll(c, g0, s2.running);
    var g1 := BuildAll(c, g0, s2.running);
    CalmTrans(s, s2, g1.s);
    CalmOnward(s, g1.s);
    OnwardLoop(c, g1, base, raises);
    OnwardTrans(s, g1.s, AdmitLoop(c, g1, raises).s);
  }
}
