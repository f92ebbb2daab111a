/** Chain hashes of token prefixes. The mixing function is a parameter of the configuration. */
module Hashing {
  import opened Types

  /** Mixes the tokens into h, first to last. */
  function Chain(c: Config, h: Hash, tokens: seq<Token>): Hash
    decreases |tokens|
  {
    if tokens == [] then h else Chain(c, c.combine(h, tokens[0]), tokens[1..])
  }

  lemma {:induction false} ChainConcat(c: Config, h: Hash, a: seq<Token>, b: seq<Token>)
    ensures Chain(c, h, a + b) == Chain(c, Chain(c, h, a), b)
    decreases |a|
  {
    if a == [] {
      assert a + b == b;
    } else {
      ChainConcat(c, c.combine(h, a[0]), a[1..], b);
      assert (a + b)[1..] == a[1..] + b;
    }
  }

  function Seeded(c: Config, parent: Hash, seed: Hash): Hash {
    if seed == 0 then parent else c.combine(parent, seed)
  }

  /** Number of full blocks in n tokens. */
  function FullBlocks(c: Config, n: nat): (k: nat)
    ensures c.blockSize > 0 ==> Cap(c, k) <= n < Cap(c, k + 1)
  {
    if c.blockSize == 0 then 0 else n / c.blockSize
  }

  /** The hash of every full-block prefix of the tokens. */
  function ChainHashes(c: Config, tokens: seq<Token>, parent: Hash, seed: Hash): (r: seq<Hash>)
    ensures |r| == FullBlocks(c, |tokens|)
  {
    seq(FullBlocks(c, |tokens|), i requires 0 <= i < FullBlocks(c, |tokens|) =>
      BlockPrefixFits(c, |tokens|, i);
      Chain(c, Seeded(c, parent, seed), tokens[..Cap(c, i + 1)]))
  }

  lemma BlockPrefixFits(c: Config, n: nat, i: nat)
    requires i < FullBlocks(c, n)
    ensures Cap(c, i + 1) <= n
  {
    CapMono(c, i + 1, FullBlocks(c, n));
  }
}
