/** Values shared by the scheduler, the block cache and the worker. */
module Types {

  type Token = int
  type Hash = nat
  type SeqId = nat
  type BlockId = nat

  /** Identity of one submitted request object (shared by the queues of the scheduler). */
  type Ticket = nat

  datatype Option<+T> = None | Some(value: T)

  datatype ErrorCode =
    | InvalidArgument
    | RequestQueueFull
    | RequestCancelled
    | ServerShuttingDown
    | KVBlockExhausted
    | MaxSequencesReached
    | ModelLoadFailed
    | InternalError

  /** Engine configuration, plus two things over which everything is generic: the hash-mixing function, and
      the token a worker takes for a sequence it has never produced one for. */
  datatype Config = Config(
    maxBlocks: nat,
    blockSize: nat,
    maxSequences: nat,
    maxRunning: nat,
    maxConcurrent: nat,
    maxPending: nat,
    tokenBudget: nat,
    maxSeqPrefill: nat,
    defaultContext: nat,
    combine: (Hash, int) -> Hash,
    unseen: SeqId -> Token)
  {
    /** What EngineConfig::validate accepts. */
    ghost predicate Valid() {
      && 0 < maxBlocks && 0 < blockSize && 0 < maxRunning <= maxSequences
      && 0 < maxConcurrent && 0 < maxPending && 0 < tokenBudget && 0 < defaultContext
      && defaultContext <= maxBlocks * blockSize
    }
  }

  /** One unit of work for one sequence. The table is a snapshot taken when the item was built. */
  datatype WorkItem =
    | PrefillChunk(seqId: SeqId, start: nat, context: nat, needsSample: bool,
                   tokens: seq<Token>, table: seq<BlockId>)
    | DecodeOneToken(seqId: SeqId, inputToken: Token, context: nat, writeKv: bool,
                     lateBind: bool, table: seq<BlockId>)

  /** KV positions an item writes. */
  function KvCount(item: WorkItem): nat {
    match item
    case PrefillChunk(_, _, _, _, tokens, _) => |tokens|
    case DecodeOneToken(_, _, _, writeKv, _, _) => if writeKv then 1 else 0
  }

  /** Tokens an item feeds to the model. */
  function TokenCount(item: WorkItem): nat {
    if item.PrefillChunk? then |item.tokens| else 1
  }

  function PromptCount(item: WorkItem): nat {
    if item.PrefillChunk? then |item.tokens| else 0
  }

  /** Tokens an item samples. */
  function GenCount(item: WorkItem): nat {
    if item.PrefillChunk? && !item.needsSample then 0 else 1
  }

  datatype ItemResult = ItemResult(index: nat, seqId: SeqId, prefill: bool, sampled: seq<Token>,
                                   consumed: nat, eos: bool, stale: bool)

  /** Tokens that fit in k blocks. */
  function Cap(c: Config, k: nat): nat {
    k * c.blockSize
  }

  lemma CapMono(c: Config, j: nat, k: nat)
    requires j <= k
    ensures Cap(c, j) <= Cap(c, k)
  {
  }
}
