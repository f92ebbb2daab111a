/**
 A run in which a chunked prompt is misfiled: blocks of one token, one token per batch, and the prompt [5, 7].
 Afterwards a lookup of the prompt [7] hits a block that was computed behind 5.
 */
module ChunkRun {
  import opened Types
  import opened Blocks
  import opened Hashing
  import opened State
  import opened Scheduling
  import opened SchedulerLoops
  import opened Engine
  import opened RunSteps
  import opened Faithful

  /** Mixes decimal digits, so that no two prefixes of digits other than 0 collide. */
  function Mix(h: Hash, v: int): Hash {
    if v >= 0 then 10 * h + v else h
  }

  function Setup(): Config {
    Config(2, 1, 1, 1, 1, 1, 1, 0, 2, Mix, _ => 0)
  }

  // ---------------------------------------------------------------- states

  function Asked(generated: seq<Token>, sched: Option<Sequence>): Request {
    Request("a", [5, 7], [5, 7], Active, generated, 2, 2, true, sched)
  }

  function Accepted(): Sched {
    Initial(Setup()).(accepting := true, nextTicket := 1, objs := map[][0 := Asked([], None)],
        registry := map[]["a" := 0],
                      waiting := [] + [0], log := map[][0 := []])
  }

  /** The sequence with the first `cursor` tokens executed. */
  function Prefilling(res: Reservation, cursor: nat): Sequence {
    Sequence(1, res, Prefill, cursor, 0, [0, 1], cursor, 0, [])
  }

  function Looking(): History {
    NO_HISTORY.(hashed := {[5], [5, 7]}, starts := map[1 := Cold(0)], base := map[1 := 0],
                chain := map[1 := []])
  }

  function Admitted1(res: Reservation, cursor: nat, batch: nat): Sched {
    Sched(Store(Pool([1, 1], [true, true], []), EMPTY_CACHE.(misses := 1)),
          map[0 := Asked([], Some(Prefilling(res, cursor)))], map["a" := 0], [], [], [0], map[1 := 0],
          false, false, true, 2, batch, 1, map[0 := []], Looking())
  }

  lemma PromptHashes()
    ensures ChainHashes(Setup(), [5, 7], 0, 0) == [5, 57]
    ensures BlockPrefixes(Setup(), [5, 7]) == {[5], [5, 7]}
  {
    var c := Setup();
    assert FullBlocks(c, 2) == 2;
    assert [5, 7][..Cap(c, 1)] == [5] && [5, 7][..Cap(c, 2)] == [5, 7];
    assert [5, 7][1..] == [7] && [7][1..] == [] && [5][1..] == [];
    assert Chain(c, 0, [5]) == Chain(c, 5, []) == 5;
    assert Chain(c, 0, [5, 7]) == Chain(c, 5, [7]) == Chain(c, 57, []) == 57;
    assert PrefixOf(c, [5, 7], 1) == [5] && PrefixOf(c, [5, 7], 2) == [5, 7];
    var ps := BlockPrefixes(c, [5, 7]);
    assert PrefixOf(c, [5, 7], 1) in ps && PrefixOf(c, [5, 7], 2) in ps;
    forall p | p in ps ensures p in {[5], [5, 7]} {
      var i: nat :| 1 <= i <= FullBlocks(c, 2) && p == PrefixOf(c, [5, 7], i);
      assert i == 1 || i == 2;
    }
  }

  lemma Misses()
    ensures var r := LookupPrefix(FreshStore(2), [5, 57]);
      r.table == [] && r.store == FreshStore(2).(cache := EMPTY_CACHE.(misses := 1))
  {
  }

  lemma TakesBoth()
    ensures var st := FreshStore(2).(cache := EMPTY_CACHE.(misses := 1)); var g := AllocateKv(st, 2);
      g == Grant(Store(Pool([1, 1], [true, true], []), EMPTY_CACHE.(misses := 1)), [0, 1], true)
  {
    var st := FreshStore(2).(cache := EMPTY_CACHE.(misses := 1));
    assert st.pool == Pool([0, 0], [false, false], [0, 1]);
    assert EvictMany(st, 0) == st;
    assert [0, 1][..2] == [0, 1] && [0, 1][2..] == [];
    assert TakeRefs([0, 0], [0, 1]) == [1, 1] && TakeUse([false, false], [0, 1]) == [true, true];
  }

  // ---------------------------------------------------------------- the first chunk

  function Chunk(from: nat, tokens: seq<Token>, last: bool): WorkItem {
    PrefillChunk(1, from, from, last, tokens, [0, 1])
  }

  lemma Enlisted()
    ensures var c := Setup(); var s := Accepted().(nextBatch := 2, waiting := []);
      var k := TakeBlocks(Looked(c, s, [5, 7]), 2);
      && HitTable(c, s, [5, 7]) == [] && k.ok && k.table == [0, 1]
      && Enlist(c, k.s, 0, Asked([], None), 0, 0, [0, 1]) == Admitted1(NO_RESERVATION, 0, 2)
  {
    hide LookupPrefix, AllocateKv, ChainHashes, BlockPrefixes, FreshStore;
    PromptHashes();
    Misses();
    TakesBoth();
    var c := Setup();
    var s := Accepted().(nextBatch := 2, waiting := []);
    var s1 := Looked(c, s, [5, 7]);
    assert s1.hist.hashed == {[5], [5, 7]};
    var k := TakeBlocks(s1, 2);
    assert PrefixOf(c, [5, 7], 0) == [];
    var q := Admitted(c, k.s, Asked([], None), 0, 0, [0, 1]);
    assert q == Prefilling(NO_RESERVATION, 0);
    assert !Soiled(k.s.hist, [0, 1], 0);
    assert StartOf(Setup(), Asked([], None), Prefilling(NO_RESERVATION, 0)) == Cold(0);
    var s' := Enlist(c, k.s, 0, Asked([], None), 0, 0, [0, 1]);
    assert s'.objs == map[0 := Asked([], Some(q))];
    assert s'.hist == Looking();
  }

  /** Building the next chunk of the prompt. */
  lemma Builds(cursor: nat, batch: nat, token: Token)
    requires cursor < 2 && token == [5, 7][cursor]
    ensures BuildWork(Setup(), Stage(Admitted1(NO_RESERVATION, cursor, batch), [], 1), 0)
         == Stage(Admitted1(Reservation(1, 1, cursor, 1), cursor, batch), [Chunk(cursor, [token], cursor == 1)], 0)
  {
    hide SendDone, BuildDecode, BuildPrefill;
    var q := Prefilling(NO_RESERVATION, cursor);
    BuildsChunk(cursor, batch, token);
  }

  lemma BuildsChunk(cursor: nat, batch: nat, token: Token)
    requires cursor < 2 && token == [5, 7][cursor]
    ensures var q := Prefilling(NO_RESERVATION, cursor);
      BuildPrefill(Setup(), Stage(Admitted1(NO_RESERVATION, cursor, batch), [], 1), 0, Asked([], Some(q)), q)
         == Stage(Admitted1(Reservation(1, 1, cursor, 1), cursor, batch), [Chunk(cursor, [token], cursor == 1)], 0)
  {
    hide NextChunk, Reserve, Asked;
    var s := Admitted1(NO_RESERVATION, cursor, batch);
    var q := Prefilling(NO_RESERVATION, cursor);
    CutsChunk(cursor, token);
    AskedFor(Some(q));
    var r := Asked([], Some(Prefilling(Reservation(1, 1, cursor, 1), cursor)));
    assert s.objs[0 := r] == Admitted1(Reservation(1, 1, cursor, 1), cursor, batch).objs;
  }

  lemma AskedFor(sched: Option<Sequence>)
    ensures Asked([], sched).prompt == [5, 7]
    ensures forall other :: Asked([], sched).(sched := other) == Asked([], other)
  {
  }

  lemma CutsChunk(cursor: nat, token: Token)
    requires cursor < 2 && token == [5, 7][cursor]
    ensures var q := Prefilling(NO_RESERVATION, cursor); var r := Asked([], Some(q));
      && q.cursor + q.res.prompt < |r.prompt| && NextChunk(Setup(), r, q, 1) == Chunk(cursor, [token], cursor == 1)
      && Reserve(q, Chunk(cursor, [token], cursor == 1)) == Prefilling(Reservation(1, 1, cursor, 1), cursor)
  {
    hide NextChunk, Reserve;
    if cursor == 0 { CutsFirst(); } else { CutsSecond(); }
    Reserves(cursor, token);
  }

  lemma Reserves(cursor: nat, token: Token)
    requires cursor < 2
    ensures Reserve(Prefilling(NO_RESERVATION, cursor), Chunk(cursor, [token], cursor == 1))
         == Prefilling(Reservation(1, 1, cursor, 1), cursor)
  {
  }

  lemma CutsFirst()
    ensures var q := Prefilling(NO_RESERVATION, 0); NextChunk(Setup(), Asked([], Some(q)), q, 1) == Chunk(0, [5], false)
  {
    assert ChunkLength(Setup(), 2, 1) == 1;
    hide ChunkLength;
    assert [5, 7][0..1] == [5];
  }

  lemma CutsSecond()
    ensures var q := Prefilling(NO_RESERVATION, 1); NextChunk(Setup(), Asked([], Some(q)), q, 1) == Chunk(1, [7], true)
  {
    assert ChunkLength(Setup(), 1, 1) == 1;
    hide ChunkLength;
    assert [5, 7][1..2] == [7];
  }

  lemma Grants()
    ensures var g := Stage(Accepted().(nextBatch := 2, waiting := []), [], 1);
      AdmitPrompt(Setup(), g, 0, Asked([], None), false)
        == Admission(Stage(Admitted1(Reservation(1, 1, 0, 1), 0, 2), [Chunk(0, [5], false)], 0), true)
  {
    hide Looked, HitTable, TakeBlocks, Enlist, BuildWork, ChainHashes;
    var c := Setup();
    var s := Accepted().(nextBatch := 2, waiting := []);
    Enlisted();
    Builds(0, 2, 5);
    assert BlocksFor(c, 2) == 2;
    var k := TakeBlocks(Looked(c, s, [5, 7]), 2);
    assert [] + [0, 1] == [0, 1];
    assert k.s.accepting by { Looks(s); }
    assert k.s.(accepting := true) == k.s;
  }

  lemma Looks(s: Sched)
    ensures TakeBlocks(Looked(Setup(), s, [5, 7]), 2).s.accepting == s.accepting
  {
    hide LookupPrefix, AllocateKv, ChainHashes, BlockPrefixes;
  }

  lemma Admits()
    ensures AdmitWaiting(Setup(), Stage(Accepted().(nextBatch := 2), [], 1), false)
         == Admission(Stage(Admitted1(Reservation(1, 1, 0, 1), 0, 2), [Chunk(0, [5], false)], 0), true)
  {
    hide AdmitPrompt, Dismiss;
    Grants();
    var s := Accepted().(nextBatch := 2);
    assert s.waiting[1..] == [];
    assert Get(s, 0) == Asked([], None);
  }

  lemma SchedulesFirst()
    ensures ScheduleStep(Setup(), Accepted(), []) ==
        Stage(Admitted1(Reservation(1, 1, 0, 1), 0, 2), [Chunk(0, [5], false)], 0)
  {
    hide AdmitWaiting, AdmitSkipped, BuildWork, AdmitLoop;
    var c := Setup();
    Admits();
    var g := Stage(Accepted().(nextBatch := 2), [], 1);
    AdmitNext(c, g, []);
    AdmitNext(c, Stage(Admitted1(Reservation(1, 1, 0, 1), 0, 2), [Chunk(0, [5], false)], 0), []);
    assert BuildAll(c, g, []) == g;
  }

  // ---------------------------------------------------------------- execution and retirement

  function Half(): Worker {
    Worker(map[1 := 5], {}, map[0 := Kv(5, [])], false, map[], map[])
  }

  function Whole(): Worker {
    Worker(map[1 := 9], {}, map[0 := Kv(5, []), 1 := Kv(7, [Kv(5, [])])], false, map[1 := [9]], map[])
  }

  function Answer(sampled: seq<Token>): ItemResult {
    ItemResult(0, 1, true, sampled, 1, false, false)
  }

  lemma Slots()
    ensures Slot(Setup(), [0, 1], 0) == 0 && Slot(Setup(), [0, 1], 1) == 1
  {
  }

  lemma WritesFirst()
    ensures WriteTokens(Setup(), map[], [0, 1], 0, [5]) == map[0 := Kv(5, [])]
  {
    hide Slot;
    Slots();
    assert Attended(Setup(), map[], [0, 1], 0) == [];
    assert [5][1..] == [];
  }

  lemma WritesSecond()
    ensures WriteTokens(Setup(), map[0 := Kv(5, [])], [0, 1], 1, [7]) == map[0 := Kv(5, []), 1 := Kv(7, [Kv(5, [])])]
  {
    hide Slot;
    Slots();
    var mem := map[0 := Kv(5, [])];
    assert Attended(Setup(), mem, [0, 1], 1) == [Kv(5, [])];
    assert [7][1..] == [];
  }

  lemma ExecutesFirst()
    ensures ExecuteItem(Setup(), Idle(), Chunk(0, [5], false), 0, Pick(9, false)) == Executed(Half(), Answer([]))
  {
    hide WriteTokens;
    WritesFirst();
  }

  lemma ExecutesSecond()
    ensures ExecuteItem(Setup(), Half(), Chunk(1, [7], true), 0, Pick(9, false)) == Executed(Whole(), Answer([9]))
  {
    hide WriteTokens;
    WritesSecond();
    Alone(9);
    assert map[][1 := [9]] == map[1 := [9]];
    hide Fed;
  }

  lemma RetiresFirst()
    ensures RetireWork(Setup(), Admitted1(Reservation(1, 1, 0, 1), 0, 2), Chunk(0, [5], false), Answer([]))
         == Admitted1(NO_RESERVATION, 1, 2)
  {
    hide HashWritten, Deliver;
    var s := Admitted1(Reservation(1, 1, 0, 1), 0, 2);
    var x := Chunk(0, [5], false);
    var r := Asked([], Some(Prefilling(Reservation(1, 1, 0, 1), 0)));
    assert RetireReservation(r, x) == Asked([], Some(Prefilling(NO_RESERVATION, 0)));
    var s1 := Put(s, 0, Asked([], Some(Prefilling(NO_RESERVATION, 0))));
    assert Advance(Asked([], Some(Prefilling(NO_RESERVATION, 0))), Prefilling(NO_RESERVATION, 0), x) ==
        Prefilling(NO_RESERVATION, 1);
    assert s1.objs[0 := Asked([], Some(Prefilling(NO_RESERVATION, 1)))] == Admitted1(NO_RESERVATION, 1, 2).objs;
  }

  lemma NothingSpent(s: Sched)
    requires s.skip == [] && s.waiting == [] && s.running == [0] && 0 in s.objs && s.objs[0].status == Active
    ensures CleanupTerminal(s) == s
  {
    assert [0][1..] == [];
    assert ReapAll(s, [0]) == ReapAll(s, []) == s;
    assert Sweep(s, []) == Swept(s, []);
  }

  lemma SchedulesSecond()
    ensures ScheduleStep(Setup(), Admitted1(NO_RESERVATION, 1, 2), [])
         == Stage(Admitted1(Reservation(1, 1, 1, 1), 1, 3), [Chunk(1, [7], true)], 0)
  {
    hide BuildWork, AdmitLoop;
    var c := Setup();
    Builds(1, 3, 7);
    var g := Stage(Admitted1(NO_RESERVATION, 1, 3), [], 1);
    var g' := Stage(Admitted1(Reservation(1, 1, 1, 1), 1, 3), [Chunk(1, [7], true)], 0);
    assert [0][1..] == [];
    assert BuildAll(c, g, [0]) == BuildAll(c, g', []) == g';
    AdmitNext(c, g', []);
  }

  // ---------------------------------------------------------------- the misfiled block

  /** The state after the second chunk was retired. */
  function Misfiled(): Sched {
    var q := Sequence(1, NO_RESERVATION, Decode, 2, 0, [0, 1], 2, 7, []);
    Sched(Store(Pool([1, 1], [true, true], []), Cache([Entry(7, 1)], [], map[7 := [1]], map[1 := 7], 0, 1, 0)),
          map[0 := Asked([9], Some(q))], map["a" := 0], [], [], [0], map[1 := 0],
          false, false, true, 2, 3, 1, map[0 := [TokenEvent(9, false)]],
          Looking().(hashed := {[5], [5, 7], [7]}, tainted := {1}, meaning := map[1 := [7]], chain := map[1 := [7]]))
  }

  lemma OneHash()
    ensures Chain(Setup(), 0, [7]) == 7 && ChainHashes(Setup(), [7], 0, 0) == [7]
    ensures BlockPrefixes(Setup(), [7]) == {[7]}
  {
    var c := Setup();
    assert [7][1..] == [];
    assert Chain(c, 0, [7]) == Chain(c, 7, []) == 7;
    assert FullBlocks(c, 1) == 1 && [7][..Cap(c, 1)] == [7];
    assert PrefixOf(c, [7], 1) == [7];
    assert forall p :: p in BlockPrefixes(c, [7]) ==> p == [7];
    assert PrefixOf(c, [7], 1) in BlockPrefixes(c, [7]);
  }

  lemma Publishes()
    ensures var s := Admitted1(NO_RESERVATION, 1, 3); var r := Asked([], Some(Prefilling(NO_RESERVATION, 1)));
      var q := Sequence(1, NO_RESERVATION, Decode, 2, 0, [0, 1], 2, 0, []);
      HashWritten(Setup(), s, r, q, Chunk(1, [7], true))
        == Published(s.(blocks := Misfiled().blocks, hist := Misfiled().hist), q.(parent := 7))
  {
    hide Chain;
    OneHash();
    var c := Setup();
    var s := Admitted1(NO_RESERVATION, 1, 3);
    var q := Sequence(1, NO_RESERVATION, Decode, 2, 0, [0, 1], 2, 0, [7]);
    assert [] + [7] == [7] && [7][..1] == [7] && [7][1..] == [];
    var p := PublishStep(c, s, q, 1);
    assert !Reliable(c, s, 1, 1, [7]);
    assert p.s.hist.hashed == {[5], [5, 7], [7]};
    assert p.s.hist == Misfiled().hist;
    Alone(1);
    Alone(Entry(7, 1));
    assert map[][7 := [1]] == map[7 := [1]] && map[][1 := 7] == map[1 := 7];
    assert p.s.blocks == Misfiled().blocks;
    hide PublishPending;
    PublishNext(c, s, q, 1);
    PublishNext(c, p.s, p.q, 2);
  }

  lemma RetiresSecond()
    ensures RetireWork(Setup(), Admitted1(Reservation(1, 1, 1, 1), 1, 3), Chunk(1, [7], true), Answer([9])) ==
        Misfiled()
  {
    hide HashWritten, Deliver;
    Publishes();
    var s := Admitted1(Reservation(1, 1, 1, 1), 1, 3);
    var x := Chunk(1, [7], true);
    var r := Asked([], Some(Prefilling(Reservation(1, 1, 1, 1), 1)));
    var r1 := Asked([], Some(Prefilling(NO_RESERVATION, 1)));
    assert RetireReservation(r, x) == r1;
    assert Put(s, 0, r1) == Admitted1(NO_RESERVATION, 1, 3) by { assert s.objs[0 := r1] == map[0 := r1]; }
    var q := Sequence(1, NO_RESERVATION, Decode, 2, 0, [0, 1], 2, 0, []);
    assert Advance(r1, Prefilling(NO_RESERVATION, 1), x) == q;
    Delivers();
  }

  lemma Delivers()
    ensures var s := Admitted1(NO_RESERVATION, 1, 3).(blocks := Misfiled().blocks, hist := Misfiled().hist);
      var r := Asked([], Some(Prefilling(NO_RESERVATION, 1)));
      var q := Sequence(1, NO_RESERVATION, Decode, 2, 0, [0, 1], 2, 7, []);
      Deliver(s, 0, r, q, Answer([9])) == Misfiled()
  {
    var s := Admitted1(NO_RESERVATION, 1, 3).(blocks := Misfiled().blocks, hist := Misfiled().hist);
    var q := Sequence(1, NO_RESERVATION, Decode, 2, 0, [0, 1], 2, 7, []);
    var r1 := Asked([9], Some(q));
    assert s.objs[0 := r1] == map[0 := r1];
    Alone(9);
    Alone(TokenEvent(9, false));
    assert map[0 := []][0 := [TokenEvent(9, false)]] == map[0 := [TokenEvent(9, false)]];
  }

  // ---------------------------------------------------------------- the run

  function Opening(): seq<Step> {
    [Step.Start] + [Step.SubmitRequest("a", [5, 7], 2, 2, true)] + [ROUND]
  }

  const PICKS := [Pick(9, false)]

  function Steps(): seq<Step> {
    Opening() + Batch(PICKS) + [ROUND] + Batch(PICKS)
  }

  lemma Opens()
    ensures Run(Setup(), Opening()) == Moment(Accepted(), [], None, Idle(), Fill)
  {
    var c := Setup();
    RunStep(c, [], Step.Start);
    RunStep(c, [Step.Start], Step.SubmitRequest("a", [5, 7], 2, 2, true));
    RunStep(c, [Step.Start] + [Step.SubmitRequest("a", [5, 7], 2, 2, true)], ROUND);
    Alone(Step.Start);
    assert Run(c, []) == Boot(c);
    hide Run;
    assert Submit(c, Initial(c).(accepting := true), "a", [5, 7], 2, 2, true) == Accepted();
  }

  lemma FirstBatch()
    ensures Run(Setup(), Opening() + Batch(PICKS)) == Moment(Admitted1(NO_RESERVATION, 1, 2), [], None, Half(), Top)
  {
    hide Run, Next, ScheduleStep, ExecuteItem, ExecuteItems, RetireWork, RetireAll, CleanupTerminal, Opening, Batch;
    var c := Setup();
    var s1 := Admitted1(Reservation(1, 1, 0, 1), 0, 2);
    var x := Chunk(0, [5], false);
    Opens();
    SchedulesFirst();
    ExecutesFirst();
    ExecutesOne(c, Idle(), Half(), x, Answer([]), Pick(9, false));
    RetiresFirst();
    RetiresOne(c, s1, x, Answer([]));
    NothingSpent(Admitted1(NO_RESERVATION, 1, 2));
    BatchRuns(c, Opening(), Accepted(), Stage(s1, [x], 0), Idle(), PICKS, ExecutedAll(Half(), [Answer([])]),
              Admitted1(NO_RESERVATION, 1, 2));
  }

  lemma Ends()
    ensures Run(Setup(), Steps()) == Moment(Misfiled(), [], None, Whole(), Top)
  {
    hide Run, Next, ScheduleStep, ExecuteItem, ExecuteItems, RetireWork, RetireAll, CleanupTerminal, Opening, Batch;
    var c := Setup();
    var s := Admitted1(NO_RESERVATION, 1, 2);
    var s1 := Admitted1(Reservation(1, 1, 1, 1), 1, 3);
    var x := Chunk(1, [7], true);
    FirstBatch();
    Turns(c, Opening() + Batch(PICKS), s, Half());
    SchedulesSecond();
    ExecutesSecond();
    ExecutesOne(c, Half(), Whole(), x, Answer([9]), Pick(9, false));
    RetiresSecond();
    RetiresOne(c, s1, x, Answer([9]));
    NothingSpent(Misfiled());
    BatchRuns(c, Opening() + Batch(PICKS) + [ROUND], s, Stage(s1, [x], 0), Half(), PICKS,
              ExecutedAll(Whole(), [Answer([9])]), Misfiled());
  }

  /** The run ends, without a collision, in a state where a lookup of [7] returns block 1, which is recorded as
      misfiled and holds the entry of a 7 computed behind a 5. */
  lemma ChunkMisfiled()
    ensures Setup().Valid()
    ensures var c := Setup(); var y := Run(c, Steps());
      && HitTable(c, y.s, [7]) == [1] && 1 in y.s.hist.tainted && Injective(c, Looked(c, y.s, [7]).hist.hashed)
      && Read(y.w.mem, Slot(c, [1], 0)) == Kv(7, [Kv(5, [])]) && Canon([7], 0) == Kv(7, [])
  {
    hide Run, LookupPrefix, ChainHashes, BlockPrefixes, Injective;
    var c := Setup();
    Ends();
    OneHash();
    HitsOne();
    assert Looked(c, Misfiled(), [7]).hist.hashed == {[5], [5, 7], [7]};
    NoCollision();
  }

  lemma HitsOne()
    ensures LookupPrefix(Misfiled().blocks, [7]).table == [1]
  {
    var st := Retain(Misfiled().blocks, 1);
    assert [7][1..] == [];
    assert LookupPrefix(st, []) == Lookup(st, []);
  }

  lemma NoCollision()
    ensures Injective(Setup(), {[5], [5, 7], [7]})
  {
    var c := Setup();
    PromptHashes();
    OneHash();
    assert ChainHashes(c, [5, 7], 0, 0)[0] == Chain(c, 0, [5, 7][..Cap(c, 1)]) && [5, 7][..Cap(c, 1)] == [5];
    assert ChainHashes(c, [5, 7], 0, 0)[1] == Chain(c, 0, [5, 7][..Cap(c, 2)]) && [5, 7][..Cap(c, 2)] == [5, 7];
  }
}
