/**
 A run in which a request is set aside after its first token for want of a block and readmitted onto its own
 cached prompt. Its next decode step is fed 0 although the last token it generated is 3.
 */
module ReplayRun {
  import opened Types
  import opened Seqs
  import opened Blocks
  import opened Hashing
  import opened State
  import opened Scheduling
  import opened SchedulerLoops
  import opened Engine
  import opened RunSteps

  function Mix(h: Hash, v: int): Hash {
    if v >= 0 then 10 * h + v else h
  }

  /** Two blocks of two tokens, and one batch in flight at a time. */
  function Setup(): Config {
    Config(2, 2, 2, 2, 1, 2, 3, 0, 4, Mix, _ => 0)
  }

  // ---------------------------------------------------------------- requests and stores

  function Long(generated: seq<Token>, sched: Option<Sequence>): Request {
    Request("a", [1, 2], [1, 2], Active, generated, 3, 4, true, sched)
  }

  function Short(status: Status, generated: seq<Token>, sched: Option<Sequence>): Request {
    Request("b", [8], [8], status, generated, 2, 2, true, sched)
  }

  function Free(refs: seq<nat>, inUse: seq<bool>, free: seq<BlockId>, misses: nat): Store {
    Store(Pool(refs, inUse, free), EMPTY_CACHE.(misses := misses))
  }

  /** The prompt of the long request is cached in block 0. */
  function Filed(refs: seq<nat>, inUse: seq<bool>, free: seq<BlockId>, idle: seq<BlockId>, hits: nat): Store {
    Store(Pool(refs, inUse, free), Cache([Entry(12, 0)], idle, map[12 := [0]], map[0 := 12], hits, 1, 0))
  }

  lemma OneHash()
    ensures ChainHashes(Setup(), [1, 2], 0, 0) == [12] && ChainHashes(Setup(), [8], 0, 0) == []
    ensures Chain(Setup(), 0, [1, 2]) == 12
  {
    var c := Setup();
    assert FullBlocks(c, 2) == 1 && FullBlocks(c, 1) == 0;
    assert [1, 2][..Cap(c, 1)] == [1, 2];
    assert [1, 2][1..] == [2] && [2][1..] == [];
    assert Chain(c, 0, [1, 2]) == Chain(c, 1, [2]) == Chain(c, 12, []) == 12;
  }

  lemma Sizes()
    ensures var c := Setup();
      BlocksFor(c, 1) == 1 && BlocksFor(c, 2) == 1 && BlocksFor(c, 3) == 2 && Cap(c, 0) == 0 && Cap(c, 1) == 2
  {
  }

  lemma TakesFirst()
    ensures AllocateKv(Free([0, 0], [false, false], [0, 1], 1), 1)
         == Grant(Free([1, 0], [true, false], [1], 1), [0], true)
  {
    var st := Free([0, 0], [false, false], [0, 1], 1);
    assert EvictMany(st, 0) == st;
    assert [0, 1][..1] == [0] && [0, 1][1..] == [1];
    assert TakeRefs([0, 0], [0]) == [1, 0] && TakeUse([false, false], [0]) == [true, false];
  }

  lemma TakesSecond()
    ensures AllocateKv(Free([1, 0], [true, false], [1], 1), 1)
         == Grant(Free([1, 1], [true, true], [], 1), [1], true)
  {
    var st := Free([1, 0], [true, false], [1], 1);
    assert EvictMany(st, 0) == st;
    assert [1][..1] == [1] && [1][1..] == [];
    assert TakeRefs([1, 0], [1]) == [1, 1] && TakeUse([true, false], [1]) == [true, true];
  }

  lemma TakesNone()
    ensures AllocateKv(Filed([1, 1], [true, true], [], [], 0), 1)
         == Grant(Filed([1, 1], [true, true], [], [], 0), [], false)
  {
    var st := Filed([1, 1], [true, true], [], [], 0);
    assert EvictMany(st, 0) == st;
    assert TakeRefs([1, 1], []) == [1, 1] && TakeUse([true, true], []) == [true, true];
  }

  lemma TakesAgain()
    ensures AllocateKv(Filed([1, 0], [true, false], [1], [], 1), 1)
         == Grant(Filed([1, 1], [true, true], [], [], 1), [1], true)
  {
    var st := Filed([1, 0], [true, false], [1], [], 1);
    assert EvictMany(st, 0) == st;
    assert [1][..1] == [1] && [1][1..] == [];
    assert TakeRefs([1, 0], [1]) == [1, 1] && TakeUse([true, false], [1]) == [true, true];
  }

  /** The short request gives its block back. */
  lemma GivesBack()
    ensures ReleaseTable(Filed([1, 1], [true, true], [], [], 0), [1]) == Filed([1, 0], [true, false], [1], [], 0)
  {
    var st := Filed([1, 0], [true, true], [], [], 0);
    assert multiset([1])[0] == 0 && multiset([1])[1] == 1;
    assert ReleaseRefs([1, 1], [1]) == [1, 0];
    assert [1][..0] == [];
    var st' := st.(pool := Recycle(st.pool, 1));
    assert [true, true][1 := false] == [true, false];
    assert Settle(st', [1], 1) == st';
    assert Settle(st, [1], 0) == st';
  }

  /** The long request gives its block back; it stays in the cache. */
  lemma Parks()
    ensures ReleaseTable(Filed([1, 0], [true, false], [1], [], 0), [0]) == Filed([0, 0], [true, false], [1], [0], 0)
  {
    var st := Filed([0, 0], [true, false], [1], [], 0);
    assert multiset([0])[0] == 1 && multiset([0])[1] == 0;
    assert ReleaseRefs([1, 0], [0]) == [0, 0];
    assert [0][..0] == [];
    var st' := Filed([0, 0], [true, false], [1], [0], 0);
    assert Settle(st', [0], 1) == st';
    assert Settle(st, [0], 0) == st';
  }

  lemma Finds()
    ensures LookupPrefix(Filed([0, 0], [true, false], [1], [0], 0), [12])
         == Lookup(Filed([1, 0], [true, false], [1], [], 1), [0])
  {
    var st := Filed([0, 0], [true, false], [1], [0], 0);
    assert Without([0], 0) == [] by { assert [0][1..] == []; }
    var st' := Filed([1, 0], [true, false], [1], [], 1);
    assert [0, 0][0 := 1] == [1, 0];
    assert Retain(st, 0) == st';
    assert [12][1..] == [];
    assert LookupPrefix(st', []) == Lookup(st', []);
  }

  lemma Misses()
    ensures LookupPrefix(FreshStore(2), [12]) == Lookup(Free([0, 0], [false, false], [0, 1], 1), [])
  {
    assert FreshStore(2).pool == Pool([0, 0], [false, false], [0, 1]);
  }

  // ---------------------------------------------------------------- both are admitted

  function Names(): map<string, Ticket> {
    map["a" := 0, "b" := 1]
  }

  function Accepted(h: History): Sched {
    Sched(FreshStore(2), map[0 := Long([], None), 1 := Short(Active, [], None)], Names(), [0, 1], [], [], map[],
          false, false, true, 1, 1, 2, map[0 := [], 1 := []], h)
  }

  function LongSeq(res: Reservation): Sequence {
    Sequence(1, res, Prefill, 0, 0, [0], 0, 0, [])
  }

  function ShortSeq(res: Reservation): Sequence {
    Sequence(2, res, Prefill, 0, 0, [1], 0, 0, [])
  }

  /** The long request has been admitted, the short one still waits. */
  function First(res: Reservation, h: History): Sched {
    Sched(Free([1, 0], [true, false], [1], 1), map[0 := Long([], Some(LongSeq(res))), 1 := Short(Active, [], None)],
        Names(),
          [1], [], [0], map[1 := 0], false, false, true, 2, 2, 2, map[0 := [], 1 := []], h)
  }

  function Second(res: Reservation, h: History): Sched {
    Sched(Free([1, 1], [true, true], [], 1),
          map[0 := Long([], Some(LongSeq(Reservation(1, 2, 1, 2)))), 1 := Short(Active, [], Some(ShortSeq(res)))],
              Names(),
          [], [], [0, 1], map[1 := 0, 2 := 1], false, false, true, 3, 2, 2, map[0 := [], 1 := []], h)
  }

  const LONG_CHUNK := PrefillChunk(1, 0, 0, true, [1, 2], [0])
  const SHORT_CHUNK := PrefillChunk(2, 0, 0, true, [8], [1])

  lemma EnlistsFirst(h: History)
    ensures var c := Setup(); var s := Accepted(h).(nextBatch := 2, waiting := [1]);
      var k := TakeBlocks(Looked(c, s, [1, 2]), 1); var s' := Enlist(c, k.s, 0, Long([], None), 0, 0, [0]);
      && HitTable(c, s, [1, 2]) == [] && k.ok && k.table == [0] && k.s.accepting
      && s' == First(NO_RESERVATION, s'.hist)
  {
    hide LookupPrefix, AllocateKv, ChainHashes, BlockPrefixes, FreshStore, Soiled, StartOf, PrefixOf;
    OneHash();
    Misses();
    TakesFirst();
    Sizes();
    var c := Setup();
    var s := Accepted(h).(nextBatch := 2, waiting := [1]);
    var k := TakeBlocks(Looked(c, s, [1, 2]), 1);
    var q := Admitted(c, k.s, Long([], None), 0, 0, [0]);
    assert q == LongSeq(NO_RESERVATION);
    Alone(0);
    assert s.objs[0 := Long([], Some(q))] == First(NO_RESERVATION, h).objs;
    assert map[][1 := 0] == map[1 := 0];
  }

  lemma BuildsFirst(h: History)
    ensures BuildWork(Setup(), Stage(First(NO_RESERVATION, h), [], 3), 0)
         == Stage(First(Reservation(1, 2, 1, 2), h), [LONG_CHUNK], 1)
  {
    hide SendDone, BuildDecode, NextChunk, Reserve;
    var q := LongSeq(NO_RESERVATION);
    CutsFirst();
    Reserves();
    Alone(LONG_CHUNK);
    assert First(NO_RESERVATION, h).objs[0 := Long([], Some(LongSeq(Reservation(1, 2, 1, 2))))]
        == First(Reservation(1, 2, 1, 2), h).objs;
  }

  lemma CutsFirst()
    ensures var q := LongSeq(NO_RESERVATION); NextChunk(Setup(), Long([], Some(q)), q, 3) == LONG_CHUNK
  {
    hide NextChunk;
    var q := LongSeq(NO_RESERVATION);
    WholePrompt(Setup(), Long([], Some(q)), q, 3);
  }

  lemma Reserves()
    ensures Reserve(LongSeq(NO_RESERVATION), LONG_CHUNK) == LongSeq(Reservation(1, 2, 1, 2))
    ensures Reserve(ShortSeq(NO_RESERVATION), SHORT_CHUNK) == ShortSeq(Reservation(1, 1, 1, 1))
  {
  }

  lemma AdmitsFirst(h: History)
    ensures var a := AdmitWaiting(Setup(), Stage(Accepted(h).(nextBatch := 2), [], 3), false);
      a == Admission(Stage(First(Reservation(1, 2, 1, 2), a.g.s.hist), [LONG_CHUNK], 1), true)
  {
    hide Looked, HitTable, TakeBlocks, Enlist, BuildWork, ChainHashes, AdmitWaiting, BlocksFor, Cap;
    var c := Setup();
    var g := Stage(Accepted(h).(nextBatch := 2), [], 3);
    var s := Accepted(h).(nextBatch := 2, waiting := [1]);
    assert g.s.waiting[1..] == [1];
    Sizes();
    EnlistsFirst(h);
    var k := TakeBlocks(Looked(c, s, [1, 2]), 1);
    Alone(0);
    Room();
    AdmitsFront(c, g, 0, Long([], None), [], k);
    BuildsFirst(Enlist(c, k.s, 0, Long([], None), 0, 0, [0]).hist);
  }

  lemma Room()
    ensures Cap(Setup(), Setup().maxBlocks) == 4
  {
  }

  lemma EnlistsSecond(h: History)
    ensures var c := Setup(); var s := First(Reservation(1, 2, 1, 2), h).(waiting := []);
      var k := TakeBlocks(Looked(c, s, [8]), 1); var s' := Enlist(c, k.s, 1, Short(Active, [], None), 0, 0, [1]);
      && HitTable(c, s, [8]) == [] && k.ok && k.table == [1] && k.s.accepting
      && s' == Second(NO_RESERVATION, s'.hist)
  {
    hide AllocateKv, ChainHashes, BlockPrefixes, Soiled, StartOf, PrefixOf;
    OneHash();
    TakesSecond();
    Sizes();
    var c := Setup();
    var s := First(Reservation(1, 2, 1, 2), h).(waiting := []);
    assert LookupPrefix(s.blocks, []) == Lookup(s.blocks, []);
    hide LookupPrefix;
    var k := TakeBlocks(Looked(c, s, [8]), 1);
    var q := Admitted(c, k.s, Short(Active, [], None), 0, 0, [1]);
    assert q == ShortSeq(NO_RESERVATION);
    assert [0] + [1] == [0, 1];
    assert s.objs[1 := Short(Active, [], Some(q))] == Second(NO_RESERVATION, h).objs;
    assert map[1 := 0][2 := 1] == map[1 := 0, 2 := 1];
  }

  lemma BuildsSecond(h: History)
    ensures BuildWork(Setup(), Stage(Second(NO_RESERVATION, h), [LONG_CHUNK], 1), 1)
         == Stage(Second(Reservation(1, 1, 1, 1), h), [LONG_CHUNK, SHORT_CHUNK], 0)
  {
    hide SendDone, BuildDecode, NextChunk, Reserve;
    var q := ShortSeq(NO_RESERVATION);
    CutsSecond();
    Reserves();
    assert [LONG_CHUNK] + [SHORT_CHUNK] == [LONG_CHUNK, SHORT_CHUNK];
    assert Second(NO_RESERVATION, h).objs[1 := Short(Active, [], Some(ShortSeq(Reservation(1, 1, 1, 1))))]
        == Second(Reservation(1, 1, 1, 1), h).objs;
  }

  lemma CutsSecond()
    ensures var q := ShortSeq(NO_RESERVATION); NextChunk(Setup(), Short(Active, [], Some(q)), q, 1) == SHORT_CHUNK
  {
    hide NextChunk;
    var q := ShortSeq(NO_RESERVATION);
    WholePrompt(Setup(), Short(Active, [], Some(q)), q, 1);
  }

  lemma AdmitsSecond(h: History)
    ensures var a := AdmitWaiting(Setup(), Stage(First(Reservation(1, 2, 1, 2), h), [LONG_CHUNK], 1), false);
      a == Admission(Stage(Second(Reservation(1, 1, 1, 1), a.g.s.hist), [LONG_CHUNK, SHORT_CHUNK], 0), true)
  {
    hide Looked, HitTable, TakeBlocks, Enlist, BuildWork, ChainHashes, AdmitWaiting, BlocksFor, Cap;
    var c := Setup();
    var g := Stage(First(Reservation(1, 2, 1, 2), h), [LONG_CHUNK], 1);
    var s := First(Reservation(1, 2, 1, 2), h).(waiting := []);
    Alone(1);
    Sizes();
    EnlistsSecond(h);
    var k := TakeBlocks(Looked(c, s, [8]), 1);
    Room();
    AdmitsFront(c, g, 1, Short(Active, [], None), [], k);
    BuildsSecond(Enlist(c, k.s, 1, Short(Active, [], None), 0, 0, [1]).hist);
  }

  lemma SchedulesBoth(h: History)
    ensures var g := ScheduleStep(Setup(), Accepted(h), []);
      g == Stage(Second(Reservation(1, 1, 1, 1), g.s.hist), [LONG_CHUNK, SHORT_CHUNK], 0)
  {
    hide AdmitWaiting, AdmitSkipped, BuildWork, AdmitLoop;
    var c := Setup();
    var g := Stage(Accepted(h).(nextBatch := 2), [], 3);
    assert BuildAll(c, g, []) == g;
    AdmitsFirst(h);
    var a := AdmitWaiting(c, g, false);
    AdmitsSecond(a.g.s.hist);
    var b := AdmitWaiting(c, a.g, false);
    AdmitNext(c, g, []);
    AdmitNext(c, a.g, []);
    AdmitNext(c, b.g, []);
  }

  // ---------------------------------------------------------------- both prompts are executed and retired

  function Prompted(): Worker {
    Worker(map[1 := 3, 2 := 7], {}, map[0 := Kv(1, []), 1 := Kv(2, [Kv(1, [])]), 2 := Kv(8, [])], false,
           map[1 := [3], 2 := [7]], map[])
  }

  const LONG_ANSWER := ItemResult(0, 1, true, [3], 2, false, false)
  const SHORT_ANSWER := ItemResult(1, 2, true, [7], 1, false, false)

  lemma SlotOf(c: Config, b: BlockId, pos: nat)
    requires c.blockSize == 2 && pos < 2
    ensures Slot(c, [b], pos) == b * 2 + pos
  {
    assert BlockAt(c, pos) == 0 && OffsetAt(c, pos) == pos;
  }

  lemma WritesLong()
    ensures WriteTokens(Setup(), map[], [0], 0, [1, 2]) == map[0 := Kv(1, []), 1 := Kv(2, [Kv(1, [])])]
  {
    hide Slot, WriteTokens;
    var c := Setup();
    SlotOf(c, 0, 0);
    SlotOf(c, 0, 1);
    var mem := map[0 := Kv(1, [])];
    assert Attended(c, map[], [0], 0) == [] && Attended(c, mem, [0], 1) == [Kv(1, [])];
    WritesFirst(c, map[], [0], 0, 1, [2]);
    WritesLast(c, mem, [0], 1, 2);
    assert [1] + [2] == [1, 2];
  }

  lemma WritesShort()
    ensures var mem := map[0 := Kv(1, []), 1 := Kv(2, [Kv(1, [])])];
      WriteTokens(Setup(), mem, [1], 0, [8]) == mem[2 := Kv(8, [])]
  {
    hide Slot, WriteTokens;
    var c := Setup();
    var mem := map[0 := Kv(1, []), 1 := Kv(2, [Kv(1, [])])];
    SlotOf(c, 1, 0);
    assert Attended(c, mem, [1], 0) == [];
    WritesLast(c, mem, [1], 0, 8);
  }

  lemma ExecutesBoth()
    ensures ExecuteItems(Setup(), Idle(), [LONG_CHUNK, SHORT_CHUNK], 0, [Pick(3, false), Pick(7, false)])
         == ExecutedAll(Prompted(), [LONG_ANSWER, SHORT_ANSWER])
  {
    hide WriteTokens, ExecuteItem;
    var c := Setup();
    var picks := [Pick(3, false), Pick(7, false)];
    ExecutesLong();
    ExecutesShort();
    assert [LONG_CHUNK, SHORT_CHUNK][1..] == [SHORT_CHUNK] && picks[1..] == [Pick(7, false)];
    Alone(SHORT_CHUNK);
    Alone(Pick(7, false));
    var w := ExecuteItem(c, Idle(), LONG_CHUNK, 0, Pick(3, false)).w;
    assert ExecuteItems(c, Prompted(), [], 2, []) == ExecutedAll(Prompted(), []);
    assert ExecuteItems(c, w, [SHORT_CHUNK], 1, [Pick(7, false)]) == ExecutedAll(Prompted(), [SHORT_ANSWER]);
    assert [LONG_ANSWER] + [SHORT_ANSWER] == [LONG_ANSWER, SHORT_ANSWER];
  }

  function Halfway(): Worker {
    Worker(map[1 := 3], {}, map[0 := Kv(1, []), 1 := Kv(2, [Kv(1, [])])], false, map[1 := [3]], map[])
  }

  lemma ExecutesLong()
    ensures ExecuteItem(Setup(), Idle(), LONG_CHUNK, 0, Pick(3, false)) == Executed(Halfway(), LONG_ANSWER)
  {
    hide WriteTokens;
    WritesLong();
    Alone(3);
    assert map[][1 := 3] == map[1 := 3] && map[][1 := [3]] == map[1 := [3]];
  }

  lemma ExecutesShort()
    ensures ExecuteItem(Setup(), Halfway(), SHORT_CHUNK, 1, Pick(7, false)) == Executed(Prompted(), SHORT_ANSWER)
  {
    hide WriteTokens;
    WritesShort();
    Alone(7);
    assert map[1 := 3][2 := 7] == map[1 := 3, 2 := 7] && map[1 := [3]][2 := [7]] == map[1 := [3], 2 := [7]];
    assert Halfway().mem[2 := Kv(8, [])] == Prompted().mem;
  }

  function LongDone(seqId: SeqId, res: Reservation, table: seq<BlockId>): Sequence {
    Sequence(seqId, res, Decode, 2, 0, table, 2, 12, [])
  }

  function ShortDone(): Sequence {
    Sequence(2, NO_RESERVATION, Decode, 1, 0, [1], 1, 0, [8])
  }

  /** The long request has its first token; the short one is still being retired. */
  function Third(h: History): Sched {
    Sched(Filed([1, 1], [true, true], [], [], 0),
          map[0 := Long([3], Some(LongDone(1, NO_RESERVATION, [0]))),
              1 := Short(Active, [], Some(ShortSeq(Reservation(1, 1, 1, 1))))],
          Names(), [], [], [0, 1], map[1 := 0, 2 := 1], false, false, true, 3, 2, 2,
          map[0 := [TokenEvent(3, false)], 1 := []], h)
  }

  function Fourth(batch: nat, shortage: bool, status: Status, log: seq<Event>, h: History): Sched {
    Sched(Filed([1, 1], [true, true], [], [], 0),
          map[0 := Long([3], Some(LongDone(1, NO_RESERVATION, [0]))), 1 := Short(status, [7], Some(ShortDone()))],
          Names(), [], [], [0, 1], map[1 := 0, 2 := 1], false, shortage, true, 3, batch, 2,
          map[0 := [TokenEvent(3, false)], 1 := log], h)
  }

  lemma PublishesLong(h: History)
    ensures var s := Second(Reservation(1, 1, 1, 1),
        h).(objs := Second(Reservation(1, 1, 1, 1), h).objs[0 := Long([], Some(LongSeq(NO_RESERVATION)))]);
      var q := Sequence(1, NO_RESERVATION, Decode, 2, 0, [0], 2, 0, []);
      var p := HashWritten(Setup(), s, Long([], Some(LongSeq(NO_RESERVATION))), q, LONG_CHUNK);
      p == Published(s.(blocks := Filed([1, 1], [true, true], [], [], 0), hist := p.s.hist), q.(parent := 12))
  {
    hide Chain, Reliable, PublishPending, PublishStep;
    var c := Setup();
    var s := Second(Reservation(1, 1, 1, 1), h).(objs := Second(Reservation(1, 1, 1, 1),
        h).objs[0 := Long([], Some(LongSeq(NO_RESERVATION)))]);
    var q := Sequence(1, NO_RESERVATION, Decode, 2, 0, [0], 2, 0, [1, 2]);
    assert [] + [1, 2] == [1, 2];
    StepLong(s);
    var p := PublishStep(c, s, q, 0);
    PublishNext(c, s, q, 0);
    PublishNext(c, p.s, p.q, 1);
  }

  lemma StepLong(s: Sched)
    requires s.blocks == Free([1, 1], [true, true], [], 1)
    ensures var q := Sequence(1, NO_RESERVATION, Decode, 2, 0, [0], 2, 0, [1, 2]);
        var p := PublishStep(Setup(), s, q, 0);
      && p.q == q.(parent := 12, pending := [])
      && p.s == s.(blocks := Filed([1, 1], [true, true], [], [], 0), hist := p.s.hist)
  {
    hide Chain, Reliable;
    OneHash();
    assert [1, 2][..2] == [1, 2] && [1, 2][2..] == [];
    Alone(0);
    Alone(Entry(12, 0));
    assert map[][12 := [0]] == map[12 := [0]] && map[][0 := 12] == map[0 := 12];
  }

  lemma RetiresLong(h: History)
    ensures var s' := RetireWork(Setup(), Second(Reservation(1, 1, 1, 1), h), LONG_CHUNK, LONG_ANSWER);
        s' == Third(s'.hist)
  {
    hide HashWritten, Deliver;
    var c := Setup();
    var s := Second(Reservation(1, 1, 1, 1), h);
    var r1 := Long([], Some(LongSeq(NO_RESERVATION)));
    assert RetireReservation(Long([], Some(LongSeq(Reservation(1, 2, 1, 2)))), LONG_CHUNK) == r1;
    var s1 := s.(objs := s.objs[0 := r1]);
    var q := Sequence(1, NO_RESERVATION, Decode, 2, 0, [0], 2, 0, []);
    assert Advance(r1, LongSeq(NO_RESERVATION), LONG_CHUNK) == q;
    PublishesLong(h);
    var p := HashWritten(c, s1, r1, q, LONG_CHUNK);
    DeliversLong(p.s, r1, s);
  }

  lemma DeliversLong(s: Sched, r: Request, s0: Sched)
    requires s == s0.(objs := s0.objs[0 := r], blocks := s.blocks, hist := s.hist)
        && r == Long([], Some(LongSeq(NO_RESERVATION)))
    requires s.blocks == Filed([1, 1], [true, true], [], [], 0) && s0 == Second(Reservation(1, 1, 1, 1), s0.hist)
    ensures var s' := Deliver(s, 0, r, LongDone(1, NO_RESERVATION, [0]), LONG_ANSWER); s' == Third(s'.hist)
  {
    hide Deliver;
    DeliversToken(s, 0, r, LongDone(1, NO_RESERVATION, [0]), LONG_ANSWER, 3);
    Alone(3);
    Alone(TokenEvent(3, false));
    var r1 := Long([3], Some(LongDone(1, NO_RESERVATION, [0])));
    assert s.objs[0 := r1] == Third(s.hist).objs;
    assert map[0 := [], 1 := []][0 := [TokenEvent(3, false)]] == map[0 := [TokenEvent(3, false)], 1 := []];
  }

  lemma RetiresShort(h: History)
    ensures var s' := RetireWork(Setup(), Third(h), SHORT_CHUNK, SHORT_ANSWER);
      s' == Fourth(2, false, Active, [TokenEvent(7, false)], s'.hist)
  {
    hide HashWritten, Deliver;
    var c := Setup();
    var s := Third(h);
    var r1 := Short(Active, [], Some(ShortSeq(NO_RESERVATION)));
    assert RetireReservation(Short(Active, [], Some(ShortSeq(Reservation(1, 1, 1, 1)))), SHORT_CHUNK) == r1;
    var s1 := s.(objs := s.objs[1 := r1]);
    var q := Sequence(2, NO_RESERVATION, Decode, 1, 0, [1], 1, 0, []);
    assert Advance(r1, ShortSeq(NO_RESERVATION), SHORT_CHUNK) == q;
    KeepsPending(s1, r1, q);
    DeliversShort(s1, r1, s);
  }

  lemma KeepsPending(s: Sched, r: Request, q: Sequence)
    requires q == Sequence(2, NO_RESERVATION, Decode, 1, 0, [1], 1, 0, [])
    ensures HashWritten(Setup(), s, r, q, SHORT_CHUNK) == Published(s, ShortDone())
  {
    assert [] + [8] == [8];
    PublishNext(Setup(), s, ShortDone(), 0);
  }

  lemma DeliversShort(s: Sched, r: Request, s0: Sched)
    requires s == s0.(objs := s0.objs[1 := r]) && r == Short(Active, [], Some(ShortSeq(NO_RESERVATION)))
        && s0 == Third(s0.hist)
    ensures var s' := Deliver(s, 1, r, ShortDone(), SHORT_ANSWER);
        s' == Fourth(2, false, Active, [TokenEvent(7, false)], s'.hist)
  {
    hide Deliver;
    DeliversToken(s, 1, r, ShortDone(), SHORT_ANSWER, 7);
    Alone(7);
    Alone(TokenEvent(7, false));
    var r1 := Short(Active, [7], Some(ShortDone()));
    assert s.objs[1 := r1] == Fourth(2, false, Active, [TokenEvent(7, false)], s.hist).objs;
    assert Third(s.hist).log[1 := [TokenEvent(7, false)]] ==
        map[0 := [TokenEvent(3, false)], 1 := [TokenEvent(7, false)]];
  }

  lemma RetiresBoth(h: History)
    ensures var s' := RetireAll(Setup(), Second(Reservation(1, 1, 1, 1), h), [LONG_CHUNK, SHORT_CHUNK],
        [LONG_ANSWER, SHORT_ANSWER]);
      s' == Fourth(2, false, Active, [TokenEvent(7, false)], s'.hist)
  {
    hide RetireWork;
    var c := Setup();
    RetiresLong(h);
    var s1 := RetireWork(c, Second(Reservation(1, 1, 1, 1), h), LONG_CHUNK, LONG_ANSWER);
    RetiresShort(s1.hist);
    assert [LONG_CHUNK, SHORT_CHUNK][1..] == [SHORT_CHUNK] && [LONG_ANSWER, SHORT_ANSWER][1..] == [SHORT_ANSWER];
    RetiresOne(c, s1, SHORT_CHUNK, SHORT_ANSWER);
  }

  lemma NothingSpent(s: Sched)
    requires s.skip == [] && s.waiting == [] && s.running == [0, 1]
    requires forall t :: t in s.running ==> t in s.objs && s.objs[t].status == Active
    ensures CleanupTerminal(s) == s
  {
    assert 0 in s.running && 1 in s.running;
    assert [0, 1][1..] == [1] && [1][1..] == [];
    assert ReapAll(s, [0, 1]) == ReapAll(s, [1]) == ReapAll(s, []) == s;
    assert Sweep(s, []) == Swept(s, []);
  }

  // ---------------------------------------------------------------- no block for the long request

  const HEARD := [TokenEvent(7, false), DoneEvent]

  lemma LacksBlock(h: History)
    ensures var g := BuildWork(Setup(), Stage(Fourth(3, false, Active, [TokenEvent(7, false)], h), [], 3), 0);
      g == Stage(Fourth(3, true, Active, [TokenEvent(7, false)], g.s.hist), [], 3)
  {
    hide SendDone, BuildPrefill, AllocateKv, Leak;
    TakesNone();
    Sizes();
    var c := Setup();
    var q := LongDone(1, NO_RESERVATION, [0]);
    assert MissingBlocks(c, q) == 1;
  }

  lemma EndsShort(h: History)
    ensures BuildWork(Setup(), Stage(Fourth(3, true, Active, [TokenEvent(7, false)], h), [], 3), 1)
         == Stage(Fourth(3, true, Finished, HEARD, h), [], 3)
  {
    hide BuildPrefill, TakeDecode;
    var s := Fourth(3, true, Active, [TokenEvent(7, false)], h);
    assert [TokenEvent(7, false)] + [DoneEvent] == HEARD;
    var r := Short(Finished, [7], Some(ShortDone()));
    assert s.objs[1 := r] == Fourth(3, true, Finished, HEARD, h).objs;
    assert s.log[1 := HEARD] == Fourth(3, true, Finished, HEARD, h).log;
  }

  lemma SchedulesNothing(h: History)
    ensures var g := ScheduleStep(Setup(), Fourth(2, false, Active, [TokenEvent(7, false)], h), []);
      g == Stage(Fourth(3, true, Finished, HEARD, g.s.hist), [], 3)
  {
    hide BuildWork, AdmitLoop;
    var c := Setup();
    var g := Stage(Fourth(3, false, Active, [TokenEvent(7, false)], h), [], 3);
    LacksBlock(h);
    var g1 := BuildWork(c, g, 0);
    EndsShort(g1.s.hist);
    var g2 := BuildWork(c, g1, 1);
    assert [0, 1][1..] == [1] && [1][1..] == [];
    assert BuildAll(c, g, [0, 1]) == BuildAll(c, g1, [1]) == BuildAll(c, g2, []) == g2;
    AdmitNext(c, g2, []);
  }

  /** The short request is gone and the long one set aside. */
  function Fifth(h: History): Sched {
    Sched(Filed([1, 0], [true, false], [1], [], 0), map[0 := Long([3], Some(LongDone(1, NO_RESERVATION, [0])))],
          map["a" := 0], [], [0], [], map[], false, true, true, 3, 3, 2,
              map[0 := [TokenEvent(3, false)], 1 := HEARD], h)
  }

  /** The short request is remembered. */
  function Parted(h: History): History {
    h.(final := h.final[1 := Short(Finished, [7], None)])
  }

  lemma Reaps(h: History)
    ensures Reap(Fourth(3, true, Finished, HEARD, h), 1)
         == Fifth(Parted(h)).(skip := [], running := [0], bySeq := map[1 := 0])
  {
    hide ReleaseTable;
    GivesBack();
    var s := Fourth(3, true, Finished, HEARD, h);
    assert s.bySeq - {2} == map[1 := 0];
    assert [0, 1][1..] == [1] && [1][1..] == [];
    assert DropTicket([0, 1], 1) == [0] + DropTicket([1], 1) == [0];
    assert s.registry - {"b"} == map["a" := 0] by { Letters(); }
    assert s.objs[1 := Short(Finished, [7], None)] - {1} == Fifth(h).objs;
  }

  lemma Letters()
    ensures "a" != "b" && Names() - {"b"} == map["a" := 0]
  {
    assert "a"[0] != "b"[0];
  }

  lemma Cleans(h: History)
    ensures CleanupTerminal(Fourth(3, true, Finished, HEARD, h)) ==
        Fifth(Parted(h)).(skip := [], running := [0], bySeq := map[1 := 0])
  {
    hide Reap;
    Reaps(h);
    var s := Fourth(3, true, Finished, HEARD, h);
    assert [0, 1][1..] == [1] && [1][1..] == [];
    assert !Spent(s, 0) && Spent(s, 1);
    var s1 := Reap(s, 1);
    assert ReapAll(s, [0, 1]) == ReapAll(s, [1]) == ReapAll(s1, []) == s1;
    assert Sweep(s1, []) == Swept(s1, []);
  }

  lemma SetsAside(h: History)
    ensures var s := Fifth(h).(skip := [], running := [0], bySeq := map[1 := 0]);
      HasSchedulableWork(Setup(), s) && Preempt(s) == Fifth(h)
  {
    var s := Fifth(h).(skip := [], running := [0], bySeq := map[1 := 0]);
    assert 0 in s.running && WantsWork(s, 0);
    assert Movable(s, 0);
    assert FindMovable(s, [0]) == Some(0);
    assert DropTicket([0], 0) == [] by { assert [0][1..] == []; }
    assert map[1 := 0] - {1} == map[];
    Alone(0);
  }

  // ---------------------------------------------------------------- readmission

  /** Readmitted as sequence 3. */
  function Sixth(res: Reservation, refs: seq<nat>, inUse: seq<bool>, free: seq<BlockId>, table: seq<BlockId>,
          h: History): Sched {
    Sched(Filed(refs, inUse, free, [], 1), map[0 := Long([3], Some(LongDone(3, res, table)))],
          map["a" := 0], [], [], [0], map[3 := 0], false, false, true, 4, 4, 2,
              map[0 := [TokenEvent(3, false)], 1 := HEARD], h)
  }

  function Again(): WorkItem {
    DecodeOneToken(3, 0, 2, true, true, [0, 1])
  }

  function Back(h: History): Sched {
    Fifth(h).(blocks := Filed([0, 0], [true, false], [1], [0], 0), objs := map[0 := Long([3], None)], skip := [],
        waiting := [0],
              shortage := false, nextBatch := 4)
  }

  lemma GoesBack(h: History)
    ensures MakeRoom(Fifth(h).(nextBatch := 4, shortage := false)) == Back(h)
  {
    hide ReleaseTable, SuspendRunning;
    Parks();
    var s := Fifth(h).(nextBatch := 4, shortage := false);
    Alone(0);
    assert [3][..0] == [] && [1, 2] + [] == [1, 2];
    var r := Long([3], Some(LongDone(1, NO_RESERVATION, [0])));
    assert PrepareForWait(r) == r;
    assert s.objs[0 := r][0 := Long([3], None)] == map[0 := Long([3], None)];
    assert s.bySeq - {1} == s.bySeq;
  }

  lemma EnlistsAgain(h: History)
    ensures var c := Setup(); var s := Back(h).(waiting := []);
      var k := TakeBlocks(Looked(c, s, [1, 2]), 0); var s' := Enlist(c, k.s, 0, Long([3], None), 1, 12, [0]);
      && HitTable(c, s, [1, 2]) == [0] && k.ok && k.table == [] && k.s.accepting && ParentOf(c, [1, 2], 1) == 12
      && s' == Sixth(NO_RESERVATION, [1, 0], [true, false], [1], [0], s'.hist)
  {
    hide LookupPrefix, AllocateKv, ChainHashes, BlockPrefixes, Soiled, StartOf, PrefixOf;
    OneHash();
    Finds();
    Sizes();
    var c := Setup();
    var s := Back(h).(waiting := []);
    var k := TakeBlocks(Looked(c, s, [1, 2]), 0);
    var q := Admitted(c, k.s, Long([3], None), 1, 12, [0]);
    assert q == LongDone(3, NO_RESERVATION, [0]);
    Alone(0);
    assert s.objs[0 := Long([3], Some(q))] == map[0 := Long([3], Some(q))];
    assert map[][3 := 0] == map[3 := 0];
  }

  lemma BuildsAgain(h: History)
    ensures var g := BuildWork(Setup(), Stage(Sixth(NO_RESERVATION, [1, 0], [true, false], [1], [0], h), [], 3), 0);
      g == Stage(Sixth(Reservation(1, 0, 1, 1), [1, 1], [true, true], [], [0, 1], h), [Again()], 2)
  {
    hide SendDone, BuildPrefill, TakeDecode;
    TakesStep(h);
  }

  lemma TakesStep(h: History)
    ensures var q := LongDone(3, NO_RESERVATION, [0]);
      TakeDecode(Setup(), Stage(Sixth(NO_RESERVATION, [1, 0], [true, false], [1], [0], h), [], 3), 0,
          Long([3], Some(q)), q)
        == Stage(Sixth(Reservation(1, 0, 1, 1), [1, 1], [true, true], [], [0, 1], h), [Again()], 2)
  {
    hide AllocateKv, MissingBlocks, Reserve, NextDecode;
    TakesAgain();
    var q := LongDone(3, NO_RESERVATION, [0]);
    NextStep();
    assert [0] + [1] == [0, 1];
    Alone(Again());
    var r := Long([3], Some(LongDone(3, Reservation(1, 0, 1, 1), [0, 1])));
    assert map[0 := Long([3], Some(q))][0 := r] == map[0 := r];
  }

  lemma NextStep()
    ensures var q, q1 := LongDone(3, NO_RESERVATION, [0]), LongDone(3, NO_RESERVATION, [0, 1]);
      && MissingBlocks(Setup(), q) == 1 && NextDecode(Long([3], Some(q)), q1) == Again()
      && Reserve(q1, Again()) == LongDone(3, Reservation(1, 0, 1, 1), [0, 1])
  {
    hide MissingBlocks, NextDecode, Reserve;
    Lacks();
    DecodeStep(Long([3], Some(LongDone(3, NO_RESERVATION, [0]))), LongDone(3, NO_RESERVATION, [0, 1]));
  }

  lemma Lacks()
    ensures MissingBlocks(Setup(), LongDone(3, NO_RESERVATION, [0])) == 1
  {
    hide BlocksFor;
    Sizes();
  }

  lemma SchedulesAgain(h: History)
    ensures var g := ScheduleStep(Setup(), Fifth(h), []);
      g == Stage(Sixth(Reservation(1, 0, 1, 1), [1, 1], [true, true], [], [0, 1], g.s.hist), [Again()], 2)
  {
    hide AdmitWaiting, AdmitSkipped, BuildWork, AdmitLoop, MakeRoom, Looked, HitTable, TakeBlocks, Enlist, ParentOf,
        BlocksFor, Cap;
    var c := Setup();
    GoesBack(h);
    var g := Stage(Back(h), [], 3);
    assert BuildAll(c, g, []) == g;
    Alone(0);
    EnlistsAgain(h);
    Sizes();
    Room();
    var k := TakeBlocks(Looked(c, Back(h).(waiting := []), [1, 2]), 0);
    assert [0] + [] == [0];
    AdmitsFront(c, g, 0, Long([3], None), [0], k);
    BuildsAgain(Enlist(c, k.s, 0, Long([3], None), 1, 12, [0]).hist);
    AdmitNext(c, g, []);
    AdmitNext(c, AdmitWaiting(c, g, false).g, []);
  }

  lemma FeedsZero()
    ensures var w := ExecuteItems(Setup(), Prompted(), [Again()], 0, [Pick(4, false)]).w;
      FedTo(w, 3) == [0] && 3 !in Prompted().latest
  {
    hide WriteTokens;
    ExecutesOne(Setup(), Prompted(), ExecuteItem(Setup(), Prompted(), Again(), 0, Pick(4, false)).w, Again(),
                ExecuteItem(Setup(), Prompted(), Again(), 0, Pick(4, false)).result, Pick(4, false));
    Alone(0);
  }

  // ---------------------------------------------------------------- the run

  const ASK_LONG := Step.SubmitRequest("a", [1, 2], 3, 4, true)
  const ASK_SHORT := Step.SubmitRequest("b", [8], 2, 2, true)
  const PICKS := [Pick(3, false), Pick(7, false)]

  function Opening(): seq<Step> {
    [Step.Start] + [ASK_LONG] + [ASK_SHORT] + [ROUND]
  }

  /** Up to the batch with the first decode step after the readmission. */
  function Leading(): seq<Step> {
    Opening() + Batch(PICKS) + [ROUND] + [ROUND] + [ROUND] + [ROUND] + [ROUND]
  }

  function Steps(): seq<Step> {
    Leading() + [Execute([Pick(4, false)])]
  }

  lemma Submits()
    ensures var c := Setup(); var s := Initial(c).(accepting := true);
      Submit(c, Submit(c, s, "a", [1, 2], 3, 4, true), "b", [8], 2, 2, true) == Accepted(NO_HISTORY)
  {
    var c := Setup();
    var s := Initial(c).(accepting := true);
    var s1 := Submit(c, s, "a", [1, 2], 3, 4, true);
    Letters();
    Alone(0);
    assert s1.registry == map["a" := 0] && s1.waiting == [0];
    assert s1.registry["b" := 1] == Names();
    assert [0] + [1] == [0, 1];
    assert s1.objs[1 := Short(Active, [], None)] == Accepted(NO_HISTORY).objs;
    assert s1.log[1 := []] == Accepted(NO_HISTORY).log;
  }

  lemma Opens()
    ensures Run(Setup(), Opening()) == Moment(Accepted(NO_HISTORY), [], None, Idle(), Fill)
  {
    hide Submit;
    var c := Setup();
    RunStep(c, [], Step.Start);
    RunStep(c, [Step.Start], ASK_LONG);
    RunStep(c, [Step.Start] + [ASK_LONG], ASK_SHORT);
    RunStep(c, [Step.Start] + [ASK_LONG] + [ASK_SHORT], ROUND);
    Alone(Step.Start);
    assert Run(c, []) == Boot(c);
    hide Run;
    Submits();
  }

  lemma Prompts()
    ensures var y := Run(Setup(), Opening() + Batch(PICKS));
      y == Moment(Fourth(2, false, Active, [TokenEvent(7, false)], y.s.hist), [], None, Prompted(), Top)
  {
    hide Run, ScheduleStep, ExecuteItems, RetireAll, CleanupTerminal, Opening, Batch;
    var c := Setup();
    Opens();
    SchedulesBoth(NO_HISTORY);
    var g := ScheduleStep(c, Accepted(NO_HISTORY), []);
    ExecutesBoth();
    RetiresBoth(g.s.hist);
    var s := RetireAll(c, g.s, g.items, [LONG_ANSWER, SHORT_ANSWER]);
    NothingSpent(s);
    BatchRuns(c, Opening(), Accepted(NO_HISTORY), g, Idle(), PICKS,
        ExecutedAll(Prompted(), [LONG_ANSWER, SHORT_ANSWER]), s);
  }

  /** The round in which nothing can be built, and the one that cleans up and sets the long request aside. */
  lemma Stalls(steps: seq<Step>, h: History)
    requires Run(Setup(), steps) == Moment(Fourth(2, false, Active, [TokenEvent(7, false)], h), [], None, Prompted(),
        Fill)
    ensures var y := Run(Setup(), steps + [ROUND] + [ROUND]); y == Moment(Fifth(y.s.hist), [], None, Prompted(), Top)
  {
    hide Run, ScheduleStep, CleanupTerminal, HasSchedulableWork, Preempt;
    var c := Setup();
    SchedulesNothing(h);
    RunStep(c, steps, ROUND);
    RunStep(c, steps + [ROUND], ROUND);
    var h' := ScheduleStep(c, Fourth(2, false, Active, [TokenEvent(7, false)], h), []).s.hist;
    assert Run(c, steps + [ROUND]) == Moment(Fourth(3, true, Finished, HEARD, h'), [], None, Prompted(), Check);
    Cleans(h');
    SetsAside(Parted(h'));
  }

  lemma Resumes(steps: seq<Step>, h: History)
    requires Run(Setup(), steps) == Moment(Fifth(h), [], None, Prompted(), Fill)
    ensures var y := Run(Setup(), steps + [ROUND]); Again() in y.Out() && y.w == Prompted()
    ensures var y := Run(Setup(), steps + [ROUND] + [Execute([Pick(4, false)])]);
      && y.s == Sixth(Reservation(1, 0, 1, 1), [1, 1], [true, true], [], [0, 1], y.s.hist)
      && y.w == ExecuteItems(Setup(), Prompted(), [Again()], 0, [Pick(4, false)]).w
  {
    hide Run, ScheduleStep, ExecuteItems, Barred;
    var c := Setup();
    SchedulesAgain(h);
    var g := ScheduleStep(c, Fifth(h), []);
    RunStep(c, steps, ROUND);
    RunStep(c, steps + [ROUND], Execute([Pick(4, false)]));
    var f := Flight([Again()], None);
    Alone(f);
    assert Run(c, steps + [ROUND]) == Moment(g.s, [f], None, Prompted(), Fill);
    assert FirstPending([f]) == 0;
    OneFlight(Run(c, steps + [ROUND]), f);
  }

  lemma OneFlight(y: Sys, f: Flight)
    requires y.current.None? && y.flights == [f]
    ensures y.Out() == f.items
  {
    assert y.Aloft() == [f];
    assert [f][1..] == [];
    assert f.items + ItemsOf([]) == f.items;
  }

  /** The last step of the run executes a late-bound step of a sequence the worker has no token for, which the
      source asserts cannot happen. The run ends with the long request active as this sequence 3, its last token 3,
      and the step fed what the environment took, here 0. */
  lemma ReplayMisfed()
    ensures Setup().Valid()
    ensures var y := Run(Setup(), Leading());
      exists x :: x in y.Out() && x.DecodeOneToken? && x.lateBind && x.seqId == 3 && 3 !in y.w.latest
    ensures var y := Run(Setup(), Steps());
      && 0 in y.s.objs && y.s.objs[0].status == Active && y.s.objs[0].generated == [3]
      && y.s.objs[0].sched.Some? && y.s.objs[0].sched.value.seqId == 3
      && FedTo(y.w, 3) == [0]
  {
    hide Run, Opening, Batch, FedTo, ExecuteItems;
    var c := Setup();
    Prompts();
    var a := Opening() + Batch(PICKS);
    Turns(c, a, Run(c, a).s, Prompted());
    Stalls(a + [ROUND], Run(c, a).s.hist);
    var b := a + [ROUND] + [ROUND] + [ROUND];
    Turns(c, b, Run(c, b).s, Prompted());
    Resumes(b + [ROUND], Run(c, b).s.hist);
    FeedsZero();
  }
}
