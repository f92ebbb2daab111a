/**
 A run that loses every block. A request of one token holds a block while another asks for two; the failed
 allocations lose first the free block and then the one the first request gives back. Nothing ever runs again.
 */
module LossRun {
  import opened Types
  import opened Blocks
  import opened Hashing
  import opened State
  import opened Scheduling
  import opened SchedulerLoops
  import opened Engine
  import opened RunSteps
  import opened Shortfalls

  function Mix(h: Hash, v: int): Hash {
    if v >= 0 then 10 * h + v else h
  }

  /** Two blocks of two tokens, and one batch in flight at a time. */
  function Setup(): Config {
    Config(2, 2, 2, 2, 1, 2, 4, 0, 4, Mix, _ => 0)
  }

  // ---------------------------------------------------------------- requests and stores

  function Small(status: Status, generated: seq<Token>, sched: Option<Sequence>): Request {
    Request("a", [1], [1], status, generated, 1, 4, true, sched)
  }

  function Large(): Request {
    Request("b", [2, 3, 4], [2, 3, 4], Active, [], 1, 4, true, None)
  }

  function Plain(refs: seq<nat>, inUse: seq<bool>, free: seq<BlockId>, misses: nat): Store {
    Store(Pool(refs, inUse, free), EMPTY_CACHE.(misses := misses))
  }

  lemma Hashes()
    ensures ChainHashes(Setup(), [1], 0, 0) == []
    ensures |ChainHashes(Setup(), [2, 3, 4], 0, 0)| == 1
  {
    assert FullBlocks(Setup(), 1) == 0 && FullBlocks(Setup(), 3) == 1;
  }

  lemma Sizes()
    ensures var c := Setup(); BlocksFor(c, 1) == 1 && BlocksFor(c, 3) == 2 && Cap(c, 0) == 0 && Cap(c, c.maxBlocks) == 4
  {
  }

  lemma MissesOne(st: Store, h: Hash)
    requires st.cache.byHash == map[]
    ensures LookupPrefix(st, [h]) == Lookup(st.(cache := st.cache.(misses := st.cache.misses + 1)), [])
  {
  }

  lemma Takes()
    ensures AllocateKv(FreshStore(2), 1) == Grant(Plain([1, 0], [true, false], [1], 0), [0], true)
  {
    var st := FreshStore(2);
    assert st.pool == Pool([0, 0], [false, false], [0, 1]);
    assert EvictMany(st, 0) == st;
    assert [0, 1][..1] == [0] && [0, 1][1..] == [1];
    assert TakeRefs([0, 0], [0]) == [1, 0] && TakeUse([false, false], [0]) == [true, false];
  }

  lemma LosesOne()
    ensures AllocateKv(Plain([1, 0], [true, false], [1], 1), 2) == Grant(Plain([1, 1], [true, true], [], 1), [1], false)
  {
    var st := Plain([1, 0], [true, false], [1], 1);
    assert EvictMany(st, 0) == st;
    assert [1][..1] == [1] && [1][1..] == [];
    assert TakeRefs([1, 0], [1]) == [1, 1] && TakeUse([true, false], [1]) == [true, true];
  }

  lemma LosesOther()
    ensures AllocateKv(Plain([0, 1], [false, true], [0], 2), 2) == Grant(Plain([1, 1], [true, true], [], 2), [0], false)
  {
    var st := Plain([0, 1], [false, true], [0], 2);
    assert EvictMany(st, 0) == st;
    assert [0][..1] == [0] && [0][1..] == [];
    assert TakeRefs([0, 1], [0]) == [1, 1] && TakeUse([false, true], [0]) == [true, true];
  }

  lemma GivesBack()
    ensures ReleaseTable(Plain([1, 1], [true, true], [], 1), [0]) == Plain([0, 1], [false, true], [0], 1)
  {
    var st := Plain([0, 1], [true, true], [], 1);
    assert multiset([0])[0] == 1 && multiset([0])[1] == 0;
    assert ReleaseRefs([1, 1], [0]) == [0, 1];
    assert [0][..0] == [];
    var st' := st.(pool := Recycle(st.pool, 0));
    assert [true, true][0 := false] == [false, true];
    assert Settle(st', [0], 1) == st';
    assert Settle(st, [0], 0) == st';
  }

  lemma GivesNothing(st: Store)
    ensures ReleaseTable(st, []) == st
  {
    assert forall b: BlockId :: multiset([])[b] == 0;
    assert ReleaseRefs(st.pool.refs, []) == st.pool.refs;
  }

  // ---------------------------------------------------------------- the first batch

  function Names(): map<string, Ticket> {
    map["a" := 0, "b" := 1]
  }

  function Accepted(h: History): Sched {
    Sched(FreshStore(2), map[0 := Small(Active, [], None), 1 := Large()], Names(), [0, 1], [], [], map[],
          false, false, true, 1, 1, 2, map[0 := [], 1 := []], h)
  }

  function SmallSeq(res: Reservation): Sequence {
    Sequence(1, res, Prefill, 0, 0, [0], 0, 0, [])
  }

  const BOOKED := Reservation(1, 1, 1, 1)

  function First(st: Store, res: Reservation, h: History): Sched {
    Sched(st, map[0 := Small(Active, [], Some(SmallSeq(res))), 1 := Large()], Names(),
          [1], [], [0], map[1 := 0], false, false, true, 2, 2, 2, map[0 := [], 1 := []], h)
  }

  const CHUNK := PrefillChunk(1, 0, 0, true, [1], [0])

  lemma Enlists(h: History)
    ensures var c := Setup(); var s := Accepted(h).(nextBatch := 2, waiting := [1]);
      var k := TakeBlocks(Looked(c, s, [1]), 1); var s' := Enlist(c, k.s, 0, Small(Active, [], None), 0, 0, [0]);
      && HitTable(c, s, [1]) == [] && k.ok && k.table == [0] && k.s.accepting && s'.hist.leaked == h.leaked
      && s' == First(Plain([1, 0], [true, false], [1], 0), NO_RESERVATION, s'.hist)
  {
    hide AllocateKv, ChainHashes, BlockPrefixes, FreshStore, Soiled, StartOf, PrefixOf;
    Hashes();
    Takes();
    Sizes();
    var c := Setup();
    var s := Accepted(h).(nextBatch := 2, waiting := [1]);
    assert LookupPrefix(s.blocks, []) == Lookup(s.blocks, []);
    hide LookupPrefix;
    var k := TakeBlocks(Looked(c, s, [1]), 1);
    var q := Admitted(c, k.s, Small(Active, [], None), 0, 0, [0]);
    assert q == SmallSeq(NO_RESERVATION);
    Alone(0);
    assert s.objs[0 := Small(Active, [], Some(q))] == First(k.s.blocks, NO_RESERVATION, h).objs;
    assert map[][1 := 0] == map[1 := 0];
  }

  lemma Builds(st: Store, h: History)
    ensures BuildWork(Setup(), Stage(First(st, NO_RESERVATION, h), [], 4), 0) == Stage(First(st, BOOKED, h), [CHUNK], 3)
  {
    hide SendDone, BuildDecode, NextChunk, Reserve;
    var q := SmallSeq(NO_RESERVATION);
    WholePrompt(Setup(), Small(Active, [], Some(q)), q, 4);
    Reserves();
    Alone(CHUNK);
    assert First(st, NO_RESERVATION, h).objs[0 := Small(Active, [], Some(SmallSeq(BOOKED)))] ==
        First(st, BOOKED, h).objs;
  }

  lemma Reserves()
    ensures Reserve(SmallSeq(NO_RESERVATION), CHUNK) == SmallSeq(BOOKED)
  {
  }

  lemma AdmitsSmall(h: History)
    ensures var a := AdmitWaiting(Setup(), Stage(Accepted(h).(nextBatch := 2), [], 4), false);
      && a == Admission(Stage(First(Plain([1, 0], [true, false], [1], 0), BOOKED, a.g.s.hist), [CHUNK], 3), true)
      && a.g.s.hist.leaked == h.leaked
  {
    hide Looked, HitTable, TakeBlocks, Enlist, BuildWork, ChainHashes, AdmitWaiting, BlocksFor, Cap;
    var c := Setup();
    var g := Stage(Accepted(h).(nextBatch := 2), [], 4);
    var s := Accepted(h).(nextBatch := 2, waiting := [1]);
    assert g.s.waiting[1..] == [1];
    Sizes();
    Enlists(h);
    var k := TakeBlocks(Looked(c, s, [1]), 1);
    Alone(0);
    AdmitsFront(c, g, 0, Small(Active, [], None), [], k);
    Builds(Plain([1, 0], [true, false], [1], 0), Enlist(c, k.s, 0, Small(Active, [], None), 0, 0, [0]).hist);
  }

  /** The large request is turned back; what its allocation took is lost. */
  lemma Rebuffs(s: Sched, st: Store, lost: BlockId)
    requires s.skip == [] && FindVictim(s).None? && s.blocks.cache.byHash == map[] && !s.shortage
    requires AllocateKv(s.blocks.(cache := s.blocks.cache.(misses := s.blocks.cache.misses + 1)), 2) ==
        Grant(st, [lost], false)
    ensures var k := TakeBlocks(Looked(Setup(), s, [2, 3, 4]), 2); var s' := Rebuff(k.s, 1, []);
      && HitTable(Setup(), s, [2, 3, 4]) == [] && !k.ok
      && s' == s.(blocks := st, waiting := [1] + s.waiting, hist := s'.hist)
      && s'.hist.leaked == s.hist.leaked + {lost}
  {
    hide AllocateKv, ChainHashes, BlockPrefixes, LookupPrefix, FindVictim, ReleaseTable;
    Hashes();
    var c := Setup();
    var hs := ChainHashes(c, [2, 3, 4], 0, 0);
    assert hs == [hs[0]];
    MissesOne(s.blocks, hs[0]);
    var s1 := Looked(c, s, [2, 3, 4]);
    var k := TakeBlocks(s1, 2);
    GivesNothing(st);
    NoVictim(s, k.s);
  }

  /** Victims depend on the requests only. */
  lemma NoVictim(s: Sched, s': Sched)
    requires s'.objs == s.objs && s'.running == s.running
    ensures FindVictim(s') == FindVictim(s)
  {
    SameSmallest(s, s', s.running, true, None);
    SameSmallest(s, s', s.running, false, None);
  }

  lemma {:induction false} SameSmallest(s: Sched, s': Sched, ts: seq<Ticket>, prefill: bool, best: Option<Ticket>)
    requires s'.objs == s.objs
    ensures FindSmallest(s', ts, prefill, best) == FindSmallest(s, ts, prefill, best)
    decreases |ts|
  {
    if ts != [] {
      var t := ts[|ts| - 1];
      var better := Movable(s, t) && IsPrefill(Get(s, t).sched.value.phase) == prefill
                    && (best.None? || TableSize(s, t) < TableSize(s, best.value));
      SameSmallest(s, s', ts[..|ts| - 1], prefill, if better then Some(t) else best);
    }
  }

  lemma TurnsBack(g: Stage, st: Store, lost: BlockId)
    requires g.budget > 0 && g.s.waiting == [1] && 1 in g.s.objs && g.s.objs[1] == Large() && |g.s.running| < 2
    requires g.s.skip == [] && FindVictim(g.s).None? && g.s.blocks.cache.byHash == map[] && !g.s.shortage
    requires AllocateKv(g.s.blocks.(cache := g.s.blocks.cache.(misses := g.s.blocks.cache.misses + 1)), 2) ==
        Grant(st, [lost], false)
    ensures var a := AdmitWaiting(Setup(), g, false);
      && a == Admission(g.(s := g.s.(blocks := st, hist := a.g.s.hist)), false)
      && a.g.s.hist.leaked == g.s.hist.leaked + {lost}
  {
    hide Looked, HitTable, TakeBlocks, Rebuff, AllocateKv, FindVictim, Dismiss, AdmitGranted, BlocksFor, Cap;
    var s := g.s.(waiting := []);
    Alone(1);
    NoVictim(g.s, s);
    Rebuffs(s, st, lost);
    Sizes();
  }

  lemma Busy(st: Store, h: History)
    ensures FindVictim(First(st, BOOKED, h)).None?
  {
    var s := First(st, BOOKED, h);
    assert !Movable(s, 0);
    assert [0][..0] == [];
    assert FindSmallest(s, [0], true, None) == FindSmallest(s, [], true, None) == None;
    assert FindSmallest(s, [0], false, None) == FindSmallest(s, [], false, None) == None;
  }

  lemma SchedulesSmall(h: History)
    ensures var g := ScheduleStep(Setup(), Accepted(h), []);
      && g == Stage(First(Plain([1, 1], [true, true], [], 1), BOOKED, g.s.hist), [CHUNK], 3)
      && g.s.hist.leaked == h.leaked + {1}
  {
    hide AdmitWaiting, AdmitSkipped, BuildWork, AdmitLoop, FindVictim, AllocateKv;
    var c := Setup();
    var g := Stage(Accepted(h).(nextBatch := 2), [], 4);
    assert BuildAll(c, g, []) == g;
    AdmitsSmall(h);
    var a := AdmitWaiting(c, g, false);
    Busy(Plain([1, 0], [true, false], [1], 0), a.g.s.hist);
    LosesOne();
    TurnsBack(a.g, Plain([1, 1], [true, true], [], 1), 1);
    AdmitNext(c, g, []);
    AdmitNext(c, a.g, []);
  }

  // ---------------------------------------------------------------- the small request ends

  const ANSWER := ItemResult(0, 1, true, [9], 1, false, false)
  const TOLD := [TokenEvent(9, true)]

  function Done1(): Sequence {
    Sequence(1, NO_RESERVATION, Decode, 1, 0, [0], 1, 0, [1])
  }

  function Second(h: History): Sched {
    Sched(Plain([1, 1], [true, true], [], 1), map[0 := Small(Finished, [9], Some(Done1())), 1 := Large()], Names(),
          [1], [], [0], map[1 := 0], false, false, true, 2, 2, 2, map[0 := TOLD, 1 := []], h)
  }

  function Third(st: Store, batch: nat, h: History): Sched {
    Sched(st, map[1 := Large()], map["b" := 1], [1], [], [], map[], false, false, true, 2, batch, 2,
        map[0 := TOLD, 1 := []], h)
  }

  lemma Executes(w: Worker)
    requires w == Idle()
    ensures var e := ExecuteItems(Setup(), w, [CHUNK], 0, [Pick(9, false)]); e.results == [ANSWER] && !e.w.halted
  {
    hide WriteTokens;
    var e := ExecuteItem(Setup(), w, CHUNK, 0, Pick(9, false));
    assert e.result == ANSWER;
    ExecutesOne(Setup(), w, e.w, CHUNK, ANSWER, Pick(9, false));
  }

  lemma Finishes(s: Sched, r: Request, q: Sequence)
    requires r == Small(Active, [], r.sched) && q == Done1() && 0 in s.log && s.log[0] == []
    ensures Deliver(s, 0, r, q, ANSWER)
         == s.(objs := s.objs[0 := Small(Finished, [9], Some(q))], log := s.log[0 := TOLD])
  {
    Alone(9);
    Alone(TokenEvent(9, true));
    var r1 := Small(Finished, [9], Some(q));
    assert Put(s, 0, r1).objs[0] == r1;
  }

  lemma Retires(h: History)
    ensures RetireWork(Setup(), First(Plain([1, 1], [true, true], [], 1), BOOKED, h), CHUNK, ANSWER) == Second(h)
  {
    hide HashWritten, Deliver;
    var c := Setup();
    var s := First(Plain([1, 1], [true, true], [], 1), BOOKED, h);
    var r1 := Small(Active, [], Some(SmallSeq(NO_RESERVATION)));
    assert RetireReservation(Small(Active, [], Some(SmallSeq(BOOKED))), CHUNK) == r1;
    var s1 := s.(objs := s.objs[0 := r1]);
    var q := Sequence(1, NO_RESERVATION, Decode, 1, 0, [0], 1, 0, []);
    assert Advance(r1, SmallSeq(NO_RESERVATION), CHUNK) == q;
    Pends(s1, r1, q);
    Finishes(s1, r1, Done1());
    assert s1.objs[0 := Small(Finished, [9], Some(Done1()))] == Second(h).objs;
    assert s.log[0 := TOLD] == Second(h).log;
  }

  lemma Pends(s: Sched, r: Request, q: Sequence)
    requires q == Sequence(1, NO_RESERVATION, Decode, 1, 0, [0], 1, 0, [])
    ensures HashWritten(Setup(), s, r, q, CHUNK) == Published(s, Done1())
  {
    Alone(1);
    PublishNext(Setup(), s, Done1(), 0);
  }

  lemma Letters()
    ensures "a" != "b" && Names() - {"a"} == map["b" := 1]
  {
    assert "a"[0] != "b"[0];
  }

  /** The small request is remembered. */
  function Parted(h: History): History {
    h.(final := h.final[0 := Small(Finished, [9], None)])
  }

  lemma Reaps(h: History)
    ensures Reap(Second(h), 0) == Third(Plain([0, 1], [false, true], [0], 1), 2, Parted(h))
  {
    hide ReleaseTable;
    GivesBack();
    Letters();
    var s := Second(h);
    Alone(0);
    assert DropTicket([0], 0) == [];
    assert s.bySeq - {1} == map[];
    assert s.objs[0 := Small(Finished, [9], None)] - {0} == map[1 := Large()];
  }

  lemma Cleans(h: History)
    ensures CleanupTerminal(Second(h)) == Third(Plain([0, 1], [false, true], [0], 1), 2, Parted(h))
  {
    hide Reap;
    Reaps(h);
    var s := Second(h);
    assert Spent(s, 0);
    Alone(0);
    Alone(1);
    var s1 := Third(Plain([0, 1], [false, true], [0], 1), 2, Parted(h));
    assert ReapAll(s, [0]) == ReapAll(s1, []) == s1;
    assert Sweep(s1, []) == Swept(s1, []);
    var s2 := s1.(waiting := []);
    assert Sweep(s2, []) == Swept(s2, []);
    assert [1] + [] == [1];
    assert Sweep(s2, [1]) == Swept(s2, [1]);
  }

  // ---------------------------------------------------------------- the rest is lost

  lemma SchedulesNothing(h: History)
    ensures var g := ScheduleStep(Setup(), Third(Plain([0, 1], [false, true], [0], 1), 2, h), []);
      && g == Stage(Third(Plain([1, 1], [true, true], [], 2), 3, g.s.hist), [], 4)
      && g.s.hist.leaked == h.leaked + {0}
  {
    hide AdmitWaiting, AdmitSkipped, BuildWork, AdmitLoop, AllocateKv;
    var c := Setup();
    var g := Stage(Third(Plain([0, 1], [false, true], [0], 1), 3, h), [], 4);
    assert BuildAll(c, g, []) == g;
    LosesOther();
    assert FindVictim(g.s).None?;
    TurnsBack(g, Plain([1, 1], [true, true], [], 2), 0);
    AdmitNext(c, g, []);
  }

  // ---------------------------------------------------------------- the run

  const ASK_SMALL := Step.SubmitRequest("a", [1], 1, 4, true)
  const ASK_LARGE := Step.SubmitRequest("b", [2, 3, 4], 1, 4, true)
  const PICKS := [Pick(9, false)]

  function Opening(): seq<Step> {
    [Step.Start] + [ASK_SMALL] + [ASK_LARGE] + [ROUND]
  }

  function Steps(): seq<Step> {
    Opening() + Batch(PICKS) + [ROUND] + [ROUND]
  }

  lemma Submits()
    ensures var c := Setup(); var s := Initial(c).(accepting := true);
      Submit(c, Submit(c, s, "a", [1], 1, 4, true), "b", [2, 3, 4], 1, 4, true) == Accepted(NO_HISTORY)
  {
    var c := Setup();
    var s := Initial(c).(accepting := true);
    var s1 := Submit(c, s, "a", [1], 1, 4, true);
    Letters();
    Alone(0);
    assert s1.registry == map["a" := 0] && s1.waiting == [0];
    assert s1.registry["b" := 1] == Names();
    assert [0] + [1] == [0, 1];
    assert s1.objs[1 := Large()] == Accepted(NO_HISTORY).objs;
    assert s1.log[1 := []] == Accepted(NO_HISTORY).log;
  }

  lemma Opens()
    ensures Run(Setup(), Opening()) == Moment(Accepted(NO_HISTORY), [], None, Idle(), Fill)
  {
    hide Submit;
    var c := Setup();
    RunStep(c, [], Step.Start);
    RunStep(c, [Step.Start], ASK_SMALL);
    RunStep(c, [Step.Start] + [ASK_SMALL], ASK_LARGE);
    RunStep(c, [Step.Start] + [ASK_SMALL] + [ASK_LARGE], ROUND);
    Alone(Step.Start);
    assert Run(c, []) == Boot(c);
    hide Run;
    Submits();
  }

  lemma FirstBatch()
    ensures var y := Run(Setup(), Opening() + Batch(PICKS));
      && y == Moment(Third(Plain([0, 1], [false, true], [0], 1), 2, y.s.hist), [], None, y.w, Top)
      && y.s.hist.leaked == {1}
  {
    hide Run, ScheduleStep, ExecuteItems, RetireAll, RetireWork, CleanupTerminal, Opening, Batch;
    var c := Setup();
    Opens();
    SchedulesSmall(NO_HISTORY);
    var g := ScheduleStep(c, Accepted(NO_HISTORY), []);
    Executes(Idle());
    Retires(g.s.hist);
    RetiresOne(c, g.s, CHUNK, ANSWER);
    Cleans(g.s.hist);
    BatchRuns(c, Opening(), Accepted(NO_HISTORY), g, Idle(), PICKS, ExecuteItems(c, Idle(), [CHUNK], 0, PICKS),
              Third(Plain([0, 1], [false, true], [0], 1), 2, Parted(g.s.hist)));
  }

  /** The run loses both blocks while the large request is active and waits. */
  lemma BothLost()
    ensures var y := Run(Setup(), Steps());
      && y.s.hist.leaked == {0, 1} && y.s.waiting == [1] && 1 in y.s.objs && y.s.objs[1] == Large() && y.s.accepting
  {
    hide Run, ScheduleStep, Opening, Batch;
    var c := Setup();
    FirstBatch();
    var a := Opening() + Batch(PICKS);
    var y := Run(c, a);
    Turns(c, a, y.s, y.w);
    SchedulesNothing(y.s.hist);
    RunStep(c, a + [ROUND], ROUND);
  }

  /** Whatever happens afterwards, nothing runs any more. */
  lemma LossStalls(more: seq<Step>)
    ensures Setup().Valid()
    ensures var y := Run(Setup(), Steps() + more); y.s.running == [] && y.s.skip == [] && y.Out() == []
  {
    hide Run, Steps;
    BothLost();
    AllLost(Setup(), Steps(), more);
  }
}
