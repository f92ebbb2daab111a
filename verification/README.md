# ccInfer: a verified model of the inference engine's core

ccInfer serves language-model requests by continuous batching. A scheduler moves requests between a
waiting queue, a running list and a queue of preempted ("skipped") sequences, and builds batches of work
items; an engine loop keeps several batches in flight; a worker executes them in order. The KV memory is
paged: blocks are reference counted, shared between requests through a cache indexed by chained prefix
hashes, parked in an idle list when unreferenced, evicted and reused. Beside these stand a byte-level BPE
tokenizer and a cache of recurrent-state snapshots.

The model is written in two layers.

* **Values.** `Scheduling`, `Blocks` and `Hashing` give every operation as a function on the state, and
  `Engine` puts them together with the worker, its memory and the clients into one step machine. A run is
  any sequence of steps: clients submit, cancel and hang up; the engine goes from one suspension point to
  the next; the worker finishes a batch with any samples, or fails, or stops; another thread raises the
  shutdown flag at any moment, also in the middle of an admission loop. The results about runs are in
  `Theorems`, `VoiceTheorems`, `TokenTheorems`, `RetireTheorems`, `FilingTheorems`, `CleanTheorems`,
  `BatchTheorems`, `ProgressTheorems` and `Answers`; they follow from one invariant (`SystemInvariant`) and a
  relation between any two moments of a run (`VoiceLemmas`, `RecordLemmas`). `VictimLemmas`, `ServiceTheorems`,
  `QueueTheorems` and `CleanupTheorems` say whom each operation chooses, serves, keeps and dismisses, and `BpeChain`, `Cutting` and `EncodeTheorems` which ids a
  text has, each without naming the procedure.
* **Objects.** `BlockClasses`, `SchedulerClass`, `WorkerClass`, `EngineClass`, `Translation`, `Device`,
  `Tokenizer` and `StateClasses` are the source's classes with its loops and in-place updates. An
  `EngineCore` owns a `Scheduler`, which owns a `BlockCache` over a `BlockPool`, and a `BatchWorker`, which
  translates batches and launches them. Its invariant says that the fields of all these objects together
  are the state of a run, and every method keeps it; `BookLemmas` and `EngineBooks` show that each block is
  released, evicted and published in the middle of an operation only where the cache allows it. So the
  results about runs hold of the objects; `EngineCore.Drained` and `EngineCore.Heard` read two of them off.

Some notions used throughout:

* A *ticket* stands for the identity of one request object, which the queues of the source
  share. Released requests leave the map of objects.
* The memory of the worker maps slots to what was computed there: a token together with everything it
  attended to. `Canon` is what a slot holds when a token sequence is computed from its start, so the two can
  be compared without arithmetic.
* `History` records what the scheduler itself never reads: lost blocks, how each sequence was admitted
  (`Cold`, `Warm` or `Blind`) and over how much of its prompt, the tokens behind published hashes, clients
  that cancelled or left (`excused`), and forgotten requests as they were (`final`). A published block is
  *misfiled* (`tainted`) if the tokens behind its hash are not those it was computed for, or if its sequence
  was itself admitted over a misfiled block (`touched`). `FilingTheorems` says of every published block when
  that is, and `CleanTheorems` on which runs it never happens.
* The *gap* of a sequence is the number of executed positions whose tokens were never hashed.
* The hash-mixing function and the token a worker takes for a sequence it has none for (`unseen`, where the
  source asserts) are parameters; collision-freedom (`Injective`) is a hypothesis where it is used and
  nowhere else.

`SystemInvariant` is built from parts that can be read on their own: `Invariant` (queues, references,
reservations, block tables), `Protocol` (events and limits), `EngineInvariant` and `Marks` (batches in flight
and their answers), `Faithful` (tokens and KV contents). The `...Lemmas` files show that each operation keeps
them.

Where the code and its comments disagree the model follows the code: a failed allocation keeps what it took,
only the last chunk of a chunked prompt is hashed, a readmitted request is fed a token other than its last,
a nonzero seed is mixed in once per published block, retaining an idle block violates the assertion in the
pool, special tokens that are not literal text do not survive decoding, and decoding without special tokens
loses ordinary symbols that go by a special token's id. `Shortfalls`, `FilingTheorems`, `BlockLemmas`,
`Tokenizing` and `SkipTheorems` give for each the exact condition under which the promise holds, and
`ChunkRun`, `ReplayRun` and `LossRun` are runs in which it does not.

## Model

| member | source | states |
|---|---|---|
| `SystemInvariant.RunOk` | src/engine/engine_core.cpp:26-79 | every state of every run (any clients, any interleaving of client calls, engine rounds and worker batches, any sampled tokens, failures and shutdown) satisfies the system invariant the results below are read from |
| `SystemInvariant.NextOk` | src/engine/engine_core.cpp:21-79 | each single step, of a client, the engine, the worker or a shutting-down thread, keeps the system invariant |
| `Theorems.InFlightSafety` | src/scheduler/scheduler.cpp:577-620 | a block named by an unretired work item is never free, idle or evicted: its request still runs, its table still extends the item's snapshot, and the block has a reference |
| `Theorems.SingleWriter` | src/scheduler/scheduler.cpp:511-530 | the KV slots written by all work items in flight are pairwise distinct, and none lies in a cached block |
| `Theorems.ExactReservations` | src/scheduler/scheduler.cpp:622-644 | leases and the three reserved counters equal the sums over the sequence's items in flight, so the clamps never act; while the request is active the items are consecutive from the executed frontier and the oldest chunk starts at the prefill cursor |
| `Theorems.ReferencesConserved` | src/scheduler/scheduler.cpp:599-620 | the reference count of every block is its number of occurrences in all block tables, with multiplicity, plus one if a failed allocation lost it |
| `Theorems.BlockPartition` | src/cache/block_cache.cpp:79-140 | the entry list, hash buckets and block index hold the same entries once each; a block is free exactly when unreferenced and uncached, idle exactly when unreferenced and cached; the active statistic counts the referenced blocks |
| `Theorems.QueueDiscipline` | src/scheduler/scheduler.cpp:115-136 | every registered request is in exactly one queue, once; the sequence index holds exactly the running requests; waiting ones have no sequence and skipped ones no leases; the limits on running, admitted and in-flight work hold; a pause implies something runs |
| `Theorems.WithinBounds` | src/scheduler/scheduler.cpp:442-531 | generated plus reserved tokens never exceed the request's maximum, nor positions its context length, its table or the pool |
| `Theorems.OneBlockAtATime` | src/scheduler/scheduler.cpp:511-523 | a decode step never needs more than one new block |
| `Theorems.EventProtocol` | src/scheduler/scheduler.cpp:157-193 | a terminal event is the last event a client hears, whatever late results, cancellations, failures, suspensions and shutdown do |
| `VoiceTheorems.ClientsHear` | src/scheduler/scheduler.cpp:175-193 | on every run, the tokens of the token events a client was sent are, in order, exactly those its request generated, while its channel exists and whenever it neither cancelled nor left, also after the request was forgotten; otherwise they are the first of them |
| `VoiceTheorems.HearingGrows` | src/scheduler/scheduler.cpp:736-747 | what a client was sent and what its request generated only grow, and a forgotten request had generated all it was ever seen to have |
| `VoiceTheorems.ResultCredited` | src/scheduler/scheduler.cpp:736-748 | in the middle of any batch of any run, a result retired on an active request adds its sampled token; the request is Finished exactly if the result says end of sequence or it has all its tokens, otherwise Cancelled exactly if nobody was there to hear the token; and the client is sent exactly the matching event |
| `VoiceTheorems.EosEnds` | src/scheduler/scheduler.cpp:736-748 | once a result that says end of sequence was retired on a request, no continuation of the run has it active again, and the last its client hears is that token marked as the final one |
| `VoiceTheorems.CancelEnds` | src/scheduler/scheduler.cpp:138-147 | cancelling a registered request makes it not active and changes nothing else; on no continuation is it active again, gets a token or a token event, or a work item that was not in flight before; an unknown identifier changes nothing |
| `VoiceTheorems.EndedStays` | src/scheduler/scheduler.cpp:664-675 | the same for a request that ended in any way: never active again, nothing generated, told or issued for it |
| `VoiceTheorems.HonestAnswers` | src/scheduler/scheduler.cpp:442-506 | on every run, a client is told its answer is done without a token only if the request has all its tokens or its context is full; a forgotten request that no failure ended was told it is invalid only if its prompt can never be admitted, and that it was cancelled only if its client called it off or left |
| `Answers.EveryoneAnswered` | src/scheduler/scheduler.cpp:736-857 | every submitted request is still active, or its client cancelled or left, or the client heard exactly one terminal event as its last; after shutdown none is left |
| `Theorems.BatchWellFormed` | src/scheduler/scheduler.cpp:386-422 | every batch names a sequence at most once, fits the token budget, and gives every item a table with room for what it writes |
| `ServiceTheorems.BuildsFor` | src/scheduler/scheduler.cpp:431-531 | building work for one request adds one item of its sequence exactly if the request has unclaimed work, is not satisfied by what it has and what is in flight, and the blocks suffice; if they do not it notes the shortage; no other request changes |
| `ServiceTheorems.ListServed` | src/scheduler/scheduler.cpp:424-429 | every running request that wants work and is not satisfied gets an item, unless the batch is full or blocks are short |
| `ServiceTheorems.BuiltForList` | src/scheduler/scheduler.cpp:424-429 | every item built for a list of requests belongs to one of them that wanted work |
| `ServiceTheorems.BatchFails` | src/scheduler/scheduler.cpp:753-760 | a failed batch fails exactly the active requests it has items of, tells each client once and why, and changes no other request or log |
| `QueueTheorems.ScheduledInTurn` | src/scheduler/scheduler.cpp:386-422 | nobody is overtaken: a scheduling step takes waiting requests from the front only and puts before the rest only requests that ran, were set aside or had been taken |
| `QueueTheorems.SubmitExact` | src/scheduler/scheduler.cpp:57-136 | a submission is accepted, behind all others, exactly if the scheduler accepts, the identifier is free and the queue has room; otherwise nothing is queued and the client hears which of these failed first |
| `VictimLemmas.SuspendsVictim` | src/scheduler/scheduler.cpp:263-293 | a shortage suspends a movable running request, one being prefilled if there is one, holding the fewest blocks of its kind and fewer than every later one of its kind; none is suspended exactly when none is movable |
| `VictimLemmas.PreemptsLast` | src/scheduler/scheduler.cpp:807-820 | preemption moves the last movable running request to the front of the skipped queue and changes nothing if there is none |
| `QueueTheorems.SkippedGives` | src/scheduler/scheduler.cpp:246-261 | a shortage with requests set aside takes the blocks of the first of them and puts it in front of the waiting queue; no other request changes |
| `CleanupTheorems.CleanupExact` | src/scheduler/scheduler.cpp:767-805 | cleaning up forgets exactly the running requests that are over with nothing in flight and the queued ones that are not active, tells nobody anything, and leaves every other request as it is |
| `CleanupTheorems.SleepsIdle` | src/engine/engine_core.cpp:42-51 | with nothing in flight the engine sleeps only if admission is paused, or nobody waits and no running request would get an item |
| `CleanupTheorems.QueuedTold` | src/scheduler/scheduler.cpp:822-839 | shutdown dismisses every queued request, tells each client that is there why, once, and touches no other request |
| `CleanupTheorems.RunningTold` | src/scheduler/scheduler.cpp:841-857 | the requests running when the engine stops are forgotten, and exactly the active ones are told why, once |
| `Theorems.WorkerAnswers` | src/worker/worker.cpp:337-364 | every answered batch in flight has one result per item, in order, with the item's sequence and kind; an item that was executed consumed all its tokens, sampled exactly what it was to sample, and ends the sequence only with a sample |
| `RetireTheorems.RetireAsserts` | src/scheduler/scheduler.cpp:646-700 | in the middle of any batch, the result that is retired on an active request is not stale and meets every assertion on its kind, count, start, context and table |
| `RetireTheorems.PublishAsserts` | src/scheduler/scheduler.cpp:696-734 | every block a result makes complete lies in its request's table, has a reference and no cache entry yet, so both assertions of publishing hold; afterwards less than a block of tokens is pending |
| `TokenTheorems.TokensAgree` | src/worker/worker.cpp:253-270 | the tokens the worker sampled for an active request are those it received since its sequence was admitted followed by those under way, and its decode steps were fed exactly these but the last, behind the lead token of a readmission onto a cached prompt |
| `TokenTheorems.LateBinding` | src/worker/worker.cpp:253-270 | the oldest executed decode step was fed the last token its request has received, or the lead token if none was received since the sequence was admitted |
| `TokenTheorems.AlwaysBindable` | src/worker/worker.cpp:262-268 | a late-bound item of an active request finds a token of an earlier batch, as the source asserts, exactly when its sequence was not readmitted onto a wholly cached prompt or has sampled since |
| `TokenTheorems.KvFaithful` | src/scheduler/scheduler.cpp:664-748 | without hash collisions, every executed position of an active request not admitted over a misfiled block holds the KV that computing the tokens it was fed from the start would give; these are the request's own tokens unless it was readmitted onto a cached prompt |
| `TokenTheorems.PrefixHit` | src/cache/block_cache.cpp:24-52 | without hash collisions, every block a lookup returns holds the KV of exactly the looked-up prompt's tokens at their positions, unless it was filed under tokens it was not computed for or by a sequence admitted over such a block |
| `CleanTheorems.NothingMisfiled` | src/scheduler/scheduler.cpp:696-734 | on every run in which so far no active sequence was readmitted onto a cached part of its prompt and every chunk ended its prompt, no block was ever misfiled and no sequence admitted over one |
| `CleanTheorems.CleanHit` | src/cache/block_cache.cpp:24-52 | on such a run, without hash collisions, every block of every hit holds the KV of the looked-up prompt's tokens |
| `CleanTheorems.CleanKv` | src/scheduler/scheduler.cpp:664-748 | on such a run, without hash collisions, every executed position of every active request holds the KV of its own tokens |
| `CleanRuns.GapRun` | src/scheduler/scheduler.cpp:687-720 | on every run, a sequence all of whose chunks ended its prompt has every executed position hashed or pending |
| `CleanRuns.SequenceClean` | src/scheduler/scheduler.cpp:696-734 | on every run, whatever the others do, such a sequence misfiles nothing if it was not a replay and not admitted over a misfiled block |
| `Theorems.ShutdownDrains` | src/engine/engine_core.cpp:56-79 | shutdown is acknowledged at most once, and exactly once when the loop ends; then registry, queues, indexes and batches in flight are empty and every block not lost is free or idle |
| `BatchTheorems.NothingDropped` | src/scheduler/scheduler.cpp:411-419 | the filter at the end of a scheduling step never removes an item |
| `BatchTheorems.FlightOnce` | src/scheduler/scheduler.cpp:386-422 | every batch in flight names a sequence at most once and fits the token budget |
| `BatchTheorems.FlightTranslatable` | src/worker/worker.cpp:34-50 | every item of every batch in flight, with its token bound, meets the assertions of translation |
| `BatchTheorems.FlightBinding` | src/worker/worker.cpp:246-285 | in every batch in flight, binding all late tokens before execution gives each item the token it would get if it were bound when its turn comes |
| `BatchTheorems.TablesReleasable` | src/scheduler/scheduler.cpp:607-620 | the table of every request can be released: each block has a reference for each of its occurrences, as the release asserts |
| `BatchTheorems.PrivateBlocks` | src/scheduler/scheduler.cpp:329-364 | an uncached block occurs in at most one table, once, and a lost block in none |
| `BlockLemmas.FailedAllocationKeepsPoolIff` | src/block/block_pool.cpp:43-52 | a failed allocation leaves the reference counts alone exactly when nothing was free or idle; otherwise what it took is lost |
| `Shortfalls.LostForever` | src/block/block_pool.cpp:43-52 | a lost block keeps its reference and is never cached, whatever happens later |
| `Shortfalls.AllLost` | src/block/block_pool.cpp:43-52 | once every block is lost nothing runs, is preempted or is in flight ever again |
| `LossRun.BothLost` | src/block/block_pool.cpp:43-52 | a run that loses the whole pool while a request waits and new ones are still accepted |
| `LossRun.LossStalls` | src/block/block_pool.cpp:43-52 | no continuation of that run ever runs anything |
| `ProgressTheorems.HeadProgress` | src/scheduler/scheduler.cpp:295-384 | with nothing running, preempted or in flight, a scheduling step answers or admits the head of the waiting queue exactly when it can never run or the blocks its prompt still needs fit beside the lost and the cached ones; with nothing lost, always |
| `Shortfalls.OneChunkExact` | src/scheduler/scheduler.cpp:696-734 | the tokens filed for the first block of a final chunk are the true prefix, for all prompts of a length, exactly when the chunk starts where hashing left off |
| `FilingTheorems.BlockFiled` | src/scheduler/scheduler.cpp:710-734 | on every run, for every block that retiring a final chunk or a decode step publishes: the tokens it is filed under (the sequence's as the scheduler knows them, but for the unhashed gap after the cached prefix), and that it holds them exactly when each is the token fed that much earlier. Without a gap: always for a sequence that is no replay, and for a replay exactly while the block is prompt only or the lead token is the one generated last; with a gap of a block or more never |
| `FilingTheorems.FiledExact` | src/cache/block_cache.cpp:54-77 | a block of a computation holds what a token prefix gives exactly when that prefix is the one it was computed for, length included |
| `FilingTheorems.CanonTells` | src/scheduler/scheduler.cpp:696-734 | a KV entry determines every token up to its position, so a block filed under other tokens is told apart by what it holds |
| `ChunkRun.ChunkMisfiled` | src/scheduler/scheduler.cpp:696-734 | a run of sixteen steps without collision after which looking up one prompt returns a block computed behind another token |
| `Shortfalls.ReadmissionGuard` | src/scheduler/scheduler.cpp:361-380 | the three ways a request with generated tokens is readmitted, told apart by how much of its prompt is cached: none, some, all |
| `Shortfalls.ReadmissionFeeds` | src/worker/worker.cpp:253-270 | on every run, the first decode step after a readmission is fed the last generated token exactly when, with nothing cached, the replayed prompt sampled it again; with some cached, the request's last two tokens were equal; with all cached, it is the token the environment supplies where the worker has none |
| `RecordLemmas.RunWorded` | src/scheduler/scheduler.cpp:570-575 | on every run, the prompt of an active request is what was submitted followed by what it had generated when its sequence was admitted, without the last token |
| `ReplayRun.ReplayMisfed` | src/scheduler/scheduler.cpp:263-293 | a run that suspends a request, readmits it onto its wholly cached prompt and dispatches a late-bound step the worker has no token for, against the source's assertion; the step is fed a token that is not the request's last |
| `Shortfalls.SeedExact` | src/cache/block_cache.cpp:54-77 | publishing block by block and looking up agree for every mixing function exactly when the seed is 0 |
| `Shortfalls.RetainContract` | src/block/block_pool.cpp:54-60 | a cached block is always in use, and has the reference the assertion asks for exactly when it is not idle |
| `BlockLemmas.AllocateKvOk` | src/scheduler/scheduler.cpp:599-605 | allocation keeps the indexes and the partition, hands out distinct unreferenced uncached blocks, and changes no other count |
| `BlockLemmas.EvictOneOk` | src/cache/block_cache.cpp:95-126 | eviction keeps the indexes and the partition and moves exactly the least recently parked block to the end of the free list |
| `BlockLemmas.ReleaseTableOk` | src/scheduler/scheduler.cpp:607-620 | release lowers each count by the block's multiplicity in the table and gives every block that reaches zero its one home |
| `BlockLemmas.LookupPrefixOk` | src/cache/block_cache.cpp:24-52 | lookup returns exactly the longest run of leading hashes that are all cached, and adds one reference per returned occurrence and no other |
| `BlockLemmas.PublishOk` | src/cache/block_cache.cpp:54-77 | publishing keeps the indexes, enters an uncached block once and leaves a cached one alone |
| `BlockLemmas.Partition` | src/cache/block_cache.cpp:128-140 | every block is referenced, free or idle, and only one of these |
| `Hashing.ChainConcat` | src/cache/prefix_cache.cpp:22-39 | hashing on from the hash of a prefix is hashing the concatenation |
| `BlockClasses.ComputeChainHashes` | src/cache/prefix_cache.cpp:22-39 | the nested loop computes, for every full block, the hash of the whole prefix up to its end |
| `BlockClasses.BlockPool.Allocate` | src/block/block_pool.cpp:32-41 | takes the first free block with one reference, or reports that there is none and changes nothing |
| `BlockClasses.BlockPool.AllocateBlocks` | src/block/block_pool.cpp:43-52 | takes blocks from the front of the free list until enough or none are left, keeping what it took on failure |
| `BlockClasses.BlockPool.RetainRequest` | src/block/block_pool.cpp:54-60 | adds one reference to one block that is in use |
| `BlockClasses.BlockPool.ReleaseRequest` | src/block/block_pool.cpp:62-69 | removes one reference from one block and reports how many are left |
| `BlockClasses.BlockPool.ReleaseBlocks` | src/block/block_pool.cpp:71-73 | removes one reference per occurrence in the table |
| `BlockClasses.BlockPool.RecycleBlock` | src/block/block_pool.cpp:75-82 | marks an unreferenced block that was in use unused and appends it to the free list |
| `BlockClasses.BlockCache.EraseEntry` | src/cache/block_cache.cpp:105-126 | removes one entry from all four indexes, swapping inside its bucket |
| `BlockClasses.BlockCache.EvictOne` | src/cache/block_cache.cpp:95-103 | evicts the front of the idle list, as the value function proved correct does |
| `BlockClasses.BlockCache.LookupPrefixCache` | src/cache/block_cache.cpp:24-52 | the loop returns the table, parent hash and store of the longest cached run |
| `BlockClasses.BlockCache.PublishFullBlock` | src/cache/block_cache.cpp:54-77 | returns the chained hash and enters the block; a block that is cached already must have this hash, as asserted, and keeps its entry |
| `BlockClasses.BlockCache.CountActive` | src/cache/block_cache.cpp:128-140 | total minus free minus idle is the number of blocks with references |
| `BlockClasses.BlockCache.AllocateKvBlocks` | src/scheduler/scheduler.cpp:599-605 | the evict-until-enough loop computes the allocation proved correct as a value |
| `BlockClasses.BlockCache.ReleaseRequestBlocks` | src/scheduler/scheduler.cpp:607-620 | the release loop with its set of seen blocks computes the release proved correct as a value |
| `SchedulerClass.Scheduler.BuildRunningBatch` | src/scheduler/scheduler.cpp:424-429 | the loop over the running list computes the build of all of them in order until the budget is gone |
| `SchedulerClass.Scheduler.FindSmallestRunning` | src/scheduler/scheduler.cpp:264-283 | the reverse scan finds a movable sequence of the kind such that none of that kind holds fewer blocks and every later one holds more, or reports that there is none |
| `SchedulerClass.Scheduler.SuspendOneRunning` | src/scheduler/scheduler.cpp:263-293 | suspends such a victim, prefilled ones first, exactly when some running sequence is movable |
| `SchedulerClass.Scheduler.AdmitOnePrompt` | src/scheduler/scheduler.cpp:329-384 | looks the prompt up in the block cache and allocates the rest, or gives the looked-up blocks back and makes room: the releases and evictions in the middle meet the cache's preconditions, and the result is the admission of the runs |
| `SchedulerClass.Scheduler.Admit` | src/scheduler/scheduler.cpp:403-409 | the admission loop computes the admission of the runs, also when the flag is lowered in the middle |
| `SchedulerClass.Scheduler.NextBatch` | src/scheduler/scheduler.cpp:386-422 | from every steady state, a whole scheduling step on the scheduler and its block cache and pool computes the batch and the state of the runs, and every block operation in between meets its precondition |
| `SchedulerClass.Scheduler.PublishFullBlocks` | src/scheduler/scheduler.cpp:721-733 | the loop publishes every full block among the pending tokens; in the middle of a retire each block is uncached and referenced, as the cache asserts |
| `SchedulerClass.Scheduler.UpdateFromOutput` | src/scheduler/scheduler.cpp:646-662 | the loop retires all results of a batch in order, publishing as it goes, from every state in which the batch is the oldest outstanding one; what each result does is `VoiceTheorems.ResultCredited` |
| `SchedulerClass.Scheduler.FailWholeBatch` | src/scheduler/scheduler.cpp:753-760 | retires the reservations of a failed batch and fails its active requests once |
| `SchedulerClass.Scheduler.ReapSpent` | src/scheduler/scheduler.cpp:767-785 | collecting first and releasing afterwards releases exactly the running requests that are over and have no lease |
| `SchedulerClass.Scheduler.CleanupTerminalQueue` | src/scheduler/scheduler.cpp:790-805 | keeps the active requests of a queue in order and releases and forgets the others |
| `SchedulerClass.Scheduler.PreemptOneForAdmission` | src/scheduler/scheduler.cpp:807-820 | the last movable running sequence moves to the front of the skipped queue with its blocks, and nothing else changes |
| `SchedulerClass.Scheduler.CleanupRunning` | src/scheduler/scheduler.cpp:841-857 | tells, releases and forgets everything that runs |
| `SchedulerClass.Scheduler.CanSchedule` | src/scheduler/scheduler.cpp:533-556 | true exactly when a skipped request may resume or some running one has unclaimed work |
| `SchedulerClass.Scheduler.FailQueued` | src/scheduler/scheduler.cpp:829-833 | empties the waiting queue from the front, telling and forgetting every request, and leaves every reference accounted for |
| `SchedulerClass.Scheduler.FailPreempted` | src/scheduler/scheduler.cpp:834-838 | the same for the skipped queue, whose requests give their blocks back |
| `SchedulerClass.Scheduler.DropStaleWork` | src/scheduler/scheduler.cpp:411-419 | keeps exactly the items of sequences that are still indexed, in order |
| `SchedulerLoops.SpentFirst` | src/scheduler/scheduler.cpp:767-785 | releasing one finished request never changes whether another is finished, so collecting them beforehand releases the same ones |
| `BookLemmas.CoreBooks` | src/scheduler/scheduler.cpp:607-620 | at every point of every operation, also with requests and blocks in hand, the table of every request can be released |
| `BookLemmas.HeldReleasable` | src/scheduler/scheduler.cpp:329-345 | so can a table that was looked up and belongs to no request yet |
| `BookLemmas.HeadWritable` | src/scheduler/scheduler.cpp:696-734 | when the oldest result of an active request is retired, its written tokens start at the hashed end, fit the table, and touch no cached block |
| `EngineClass.EngineCore.Advance` | src/engine/engine_core.cpp:26-79 | resuming the coroutine of the composed objects (scheduler, block cache and pool, worker, window) leaves them in the state of the run extended by that engine step |
| `EngineClass.EngineCore.RunWorker` | src/worker/worker.cpp:222-366 | executing the oldest waiting batch (resolve, translate, launch, make up results, sort) leaves the composed objects in the state of the run extended by that worker step |
| `EngineClass.EngineCore.Submit` | src/scheduler/scheduler.cpp:57-136 | submitting leaves the composed objects in the state of the run extended by that submission |
| `EngineClass.EngineCore.FinishRequest` | src/scheduler/scheduler.cpp:104-155 | so does the posted half of a shutdown request, which fails what waits and acknowledges if nothing ran |
| `EngineClass.EngineCore.Drained` | src/engine/engine_core.cpp:56-79 | once an engine object has acknowledged shutdown, no request or batch is left, and every block not lost is on the pool's free list or the cache's idle list |
| `EngineClass.EngineCore.Heard` | src/scheduler/scheduler.cpp:157-193 | by then every client of the object that neither cancelled nor left has heard exactly one terminal event, as its last |
| `SystemInvariant.StartStep` | src/scheduler/scheduler.cpp:94-100 | starting, also twice or after a shutdown request, keeps the system invariant |
| `SystemInvariant.RaiseStep` | src/scheduler/scheduler.cpp:104-113 | raising shutdown at any moment keeps the system invariant, so it is asked for and acknowledged at most once |
| `SystemInvariant.CancelStep` | src/scheduler/scheduler.cpp:138-147 | cancelling any identifier at any moment keeps the system invariant; what it does to the request is `VoiceTheorems.CancelEnds` |
| `WorkerClass.BatchWorker.ResolveBatch` | src/worker/worker.cpp:246-285 | splits the batch into items with their late tokens bound, their original positions, and stale answers for barred sequences |
| `WorkerClass.BatchWorker.Process` | src/worker/worker.cpp:238-366 | a stopped worker refuses, a failure bars the sequences left to execute, and otherwise resolving, translating, launching, remapping and sorting give the results, latest tokens and KV memory of executing the batch item by item in order |
| `WorkerClass.SameMemory` | src/worker/worker.cpp:287-337 | in a batch naming each sequence once, the rows of the items bound beforehand write the KV memory that executing item by item writes |
| `WorkerClass.BatchWorker.MakeResults` | src/worker/model_runner.h:157-174 | the results made up from the host's copy of the batch are the runner's results for the items |
| `WorkerClass.BatchWorker.FailSequences` | src/worker/worker.cpp:304-308 | bars exactly the sequences of the items left to execute |
| `WorkerClass.SameResults` | src/worker/worker.cpp:339-364 | the remapped results and the stale ones are disjoint parts of the item-by-item results, each in order, and together all of them |
| `WorkerClass.SameLatest` | src/worker/worker.cpp:340-359 | the remembered tokens are those of item-by-item execution |
| `WorkerClass.SortResults` | src/worker/worker.cpp:362-363 | the final sort returns the same results in increasing position |
| `Translation.RowAt` | src/worker/worker.cpp:69-108 | token t of item i stands at the item's start plus t with its own token, position and slot |
| `Translation.LogitRowAt` | src/worker/worker.cpp:109-115 | the k-th logits row is the last token row of the k-th sampled item |
| `Translation.TranslateMeta` | src/worker/worker.cpp:68-141 | the host keeps every item's sequence, kind, token count, sampling flag and state slot; the mode says which kinds occur, and the largest position is attained and exceeded by none |
| `Translation.Translate` | src/worker/worker.cpp:27-141 | the physical batch describes its items: rows, starts, context lengths, logits numbering, padded tables and what the host keeps; a decode-only batch has as many rows as items, as the runner asserts |
| `Device.Launch` | src/worker/model_runner.h:109-144 | running the rows of the flat arrays in order, attending through the padded block table, writes what running the rows of the items writes |
| `Device.ItemWritten` | src/worker/worker.cpp:82-108 | the rows of an item write exactly what computing its tokens one after the other from its context writes, and a step without KV writes nothing |
| `ByteAlphabet.Utf8Decodable` | src/tokenizer/byte_level_bpe_tokenizer.cpp:55-75 | the encoding of every code point decodes to it, and its first byte tells its length |
| `ByteAlphabet.SymbolInjective` | src/tokenizer/byte_level_bpe_tokenizer.cpp:77-111 | two bytes never share a symbol |
| `ByteAlphabet.SymbolDecodable` | src/tokenizer/byte_level_bpe_tokenizer.cpp:77-111 | the symbol of a byte is one UTF-8 character whose first byte tells its length |
| `ByteAlphabet.BuildByteMaps` | src/tokenizer/byte_level_bpe_tokenizer.cpp:77-111 | the loops build both tables of the byte alphabet, each the inverse of the other, for all 256 bytes |
| `Bpe.MergeShrinks` | src/tokenizer/byte_level_bpe_tokenizer.cpp:335-354 | a pass at the best rank merges at least one pair, so merging ends |
| `Bpe.MergedOk` | src/tokenizer/byte_level_bpe_tokenizer.cpp:311-358 | merging keeps the concatenation, never adds symbols, and ends with no adjacent pair in the merge table |
| `Bpe.MergedKnown` | src/tokenizer/byte_level_bpe_tokenizer.cpp:311-358 | if the symbols and all merge results are known, so is everything merging leaves |
| `BpeChain.MergedExact` | src/tokenizer/byte_level_bpe_tokenizer.cpp:311-358 | the merged symbols are exactly those at the end of a chain of passes, each of which replaces, from left to right, all non-overlapping pairs of a rank that no adjacent mergeable pair undercuts; the chain ends where no pair is left |
| `BpeChain.ApplyBpe` | src/tokenizer/byte_level_bpe_tokenizer.cpp:311-358 | the loop reaches the end of such a chain; the concatenation is the same and nothing is left to merge |
| `Cutting.CutExact` | src/tokenizer/byte_level_bpe_tokenizer.cpp:420-529 | exactly one cut of a text obeys the rules, and it is the one segmentation makes: special tokens are the longest that match; runs of newlines stand alone; of a run of blanks at most the last is joined to what follows, exactly when a word follows before the next special token; a word ends at a blank, a newline or a special token |
| `EncodeTheorems.EncodeExact` | src/tokenizer/byte_level_bpe_tokenizer.cpp:360-529 | encoding succeeds with exactly the ids of that cut: those of its special tokens and, for every other part, those of the symbols a chain of least-rank passes ends with, the unknown token for symbols without one; and fails exactly if there are none or nothing is loaded |
| `Tokenizing.EncodeOk` | src/tokenizer/byte_level_bpe_tokenizer.cpp:360-382 | encoding succeeds exactly when there is an unknown token or every ordinary piece is in the vocabulary |
| `Tokenizing.PiecesRead` | src/tokenizer/byte_level_bpe_tokenizer.cpp:420-529 | segmentation covers the text exactly: reading back the pieces from any point gives the rest of the text |
| `Tokenizing.RoundTrip` | src/tokenizer/byte_level_bpe_tokenizer.cpp:420-599 | decode after encode is the text, for every byte string whose pieces are in the vocabulary, when special tokens read back literally |
| `Tokenizing.CompleteRoundTrip` | src/tokenizer/byte_level_bpe_tokenizer.cpp:420-599 | with all byte symbols and merge results in the vocabulary, encoding never fails and decode after encode is the text |
| `Tokenizing.RoundTripExact` | src/tokenizer/byte_level_bpe_tokenizer.cpp:531-599 | for such a vocabulary every text round-trips exactly when every special token is literal text |
| `Tokenizing.LiteralExact` | src/tokenizer/byte_level_bpe_tokenizer.cpp:560-599 | a byte string read back by the decoder is itself exactly when it is literal |
| `Tokenizing.AsciiLiteral` | src/tokenizer/byte_level_bpe_tokenizer.cpp:560-599 | ASCII special tokens are literal |
| `Tokenizing.SpecialExample` | src/tokenizer/byte_level_bpe_tokenizer.cpp:560-599 | a special token that is not literal: two bytes come back as one |
| `SkipTheorems.SkipExact` | src/tokenizer/byte_level_bpe_tokenizer.cpp:420-599 | encoding and decoding without special tokens gives the text without the special tokens of its cut, exactly when no symbol of its ordinary text goes by the id of a special token |
| `SkipTheorems.SkipExample` | src/tokenizer/byte_level_bpe_tokenizer.cpp:531-547 | a vocabulary whose special token is the blank's symbol, with which a blank is lost |
| `Tokenizer.ByteLevelBpeTokenizer.Load` | src/tokenizer/byte_level_bpe_tokenizer.cpp:151-195 | identifiers are positions, the last of equal tokens counts, kinds decide special and unknown tokens, a pair's rank is the number of usable lines before its last one, and the tables invert each other |
| `Tokenizer.ByteLevelBpeTokenizer.TryMatchSpecial` | src/tokenizer/byte_level_bpe_tokenizer.cpp:384-418 | the longest special token at a position, or none |
| `Tokenizer.ByteLevelBpeTokenizer.EncodeNormalSegment` | src/tokenizer/byte_level_bpe_tokenizer.cpp:360-382 | the ids of the symbols at the end of a chain of least-rank passes over the segment's byte symbols, the unknown token for those without, or failure |
| `Tokenizer.ByteLevelBpeTokenizer.Encode` | src/tokenizer/byte_level_bpe_tokenizer.cpp:420-529 | the segmentation loop computes the ids of the one cut that obeys the rules, and fails when there are none |
| `Tokenizer.ByteLevelBpeTokenizer.Decode` | src/tokenizer/byte_level_bpe_tokenizer.cpp:531-599 | the two decoding loops compute the decoding the round trip is proved about |
| `Tokenizer.EncodeThenDecode` | src/tokenizer/byte_level_bpe_tokenizer.cpp:420-599 | running the two methods of a complete tokenizer one after the other returns the text |
| `StateStore.StateStorage.ZeroState` | src/state/state_storage.cpp:86-100 | clears one state in every layer and no other; fails for a state out of range or when the device fails |
| `StateStore.StateStorage.CopyState` | src/state/state_storage.cpp:102-120 | makes one state equal to another in every layer and changes no third |
| `StateStore.OverwriteOk` | src/state/state_storage.cpp:19-22 | writing one slice of a layer changes that slice only |
| `StateClasses.StatePool.AcquireActive` | src/state/state_pool.cpp:37-52 | gives a sequence a zeroed slot nobody else has, once; on failure the slot returns to the end of the free list and no state in use changes |
| `StateClasses.StatePool.ReleaseActive` | src/state/state_pool.cpp:54-65 | frees the slot of one sequence and leaves the others |
| `StateClasses.StatePool.AcquireSnapshot` | src/state/state_pool.cpp:73-81 | takes the first free snapshot slot, or reports that there is none |
| `StateClasses.StatePool.ReleaseSnapshot` | src/state/state_pool.cpp:83-92 | returns a snapshot slot to the end of its list; anything else is refused |
| `StateClasses.StatePool.CopyActiveToSnapshot` | src/state/state_pool.cpp:94-102 | copies from an active slot into a snapshot slot only, and changes no third state |
| `StateClasses.StatePool.RestoreSnapshotToActive` | src/state/state_pool.cpp:104-112 | copies from a snapshot slot into an active slot only |
| `StateClasses.StateCache.EvictOne` | src/cache/state_cache.cpp:70-80 | drops the least recently used entry and frees its slot |
| `StateClasses.StateCache.Snapshot` | src/cache/state_cache.cpp:23-46 | the cache stays the bounded LRU map of its history, to which this adds a capture of the present active state, nothing for a known prefix or a bad frontier, or an eviction when it made room and then failed; active states do not change |
| `StateClasses.StateCache.Restore` | src/cache/state_cache.cpp:48-60 | yields the state captured for the prefix; the history grows by a use, which makes the entry the most recent, and a miss changes nothing but the counter |
| `StateClasses.StateCache.WriteActive` | src/cache/state_cache.cpp:23-60 | overwriting an active state leaves the cache the map of its history |
| `StateClasses.SequenceStates.AcquireAll` | src/worker/worker.cpp:310-319 | every sequence of a batch gets a state or the first failure ends it; states in use keep their contents, new ones are blank, and no snapshot changes |
| `StateClasses.SequenceStates.Release` | src/worker/worker.cpp:408-411 | releasing a sequence changes no other sequence's state and no snapshot |
| `SnapshotCache.CapturedStays` | src/cache/state_cache.cpp:23-60 | over any history of captures, uses and evictions, also those of failed snapshots, while an entry stays cached its value is the state captured when the entry was made |
| `SnapshotCache.EvictsOldest` | src/cache/state_cache.cpp:70-80 | over any history the eviction order is the order of last insertion or restore |
| `SnapshotCache.HistoryConsistent` | src/cache/state_cache.cpp:91-98 | over any history the map and its order list the same entries once each, never more than the capacity |

## Left out

- Model arithmetic, device kernels, tensors, model files and the HTTP front end: an executed item yields a sample chosen by the environment, and a KV slot holds its token and context.
- Fixed-width integers: counters, positions and identifiers are unbounded, and hashes are values of an arbitrary mixing function.
- Coroutines, timers, channels, mutexes and atomics: each stretch between two suspension points is one step, and a worker batch is one step.
- The race between `start` and `shutdown_async` on different threads inside `start`: its test and its exchange are one step.
- Delivery failures reported after posting an event: a client either still listens or has left, and is told at once if it listens.
- Sampling parameters and the choice of one set of them per batch: they affect only which samples the environment picks.
- Acquiring and releasing recurrent state inside a run: `StateClasses.SequenceStates` does both beside the snapshot cache, but the engine object takes the table of state slots as given.
- Loading a tokenizer from its JSON file: the loader from token and merge lists is modelled instead.
- WorkerClass.BatchWorker.Process: the samples and whether the device fails are the environment's choice, and after a failure the slots the batch was writing hold anything.
- Device.Launch: runs the rows one after the other; that kernels may run them in parallel is not part of this model beyond `Theorems.SingleWriter`, by which no two rows in flight write the same slot.
- TokenTheorems.LateBinding: a sequence readmitted onto a cached prompt is fed its lead token first; `Shortfalls.ReadmissionFeeds` says exactly when that is the request's last token.
- TokenTheorems.PrefixHit: speaks of blocks not misfiled; `FilingTheorems.BlockFiled` says exactly when a published block is, `CleanTheorems.CleanHit` that on clean runs none is, and `ChunkRun.ChunkMisfiled` is a run in which one is.
- TokenTheorems.KvFaithful: speaks of requests not admitted over a misfiled block; on clean runs `CleanTheorems.CleanKv` says it of all.
- BlockClasses.BlockPool.RetainRequest: does not ask for the positive count the source asserts, because the lookup itself retains idle blocks; `Shortfalls.RetainContract` says exactly when the assertion holds.
- Progress: that a waiting request eventually finishes is not stated beyond `ProgressTheorems.HeadProgress`, which is about one scheduling step of an idle engine; once the pool is lost it is false (`LossRun.LossStalls`).
