/** Byte-pair merging. */
module Bpe {
  import opened ByteAlphabet

  type Sym = seq<Byte>

  /** Merge priorities; lower merges first. The source looks for ranks below the largest 32-bit integer. */
  type Ranks = map<(Sym, Sym), int>

  const MAX_RANK: int := 0x7FFF_FFFF

  /** Symbols written one after the other. */
  function Concat(symbols: seq<Sym>): seq<Byte> {
    if symbols == [] then [] else symbols[0] + Concat(symbols[1..])
  }

  lemma {:induction false} ConcatAppend(a: seq<Sym>, b: seq<Sym>)
    ensures Concat(a + b) == Concat(a) + Concat(b)
  {
    if a == [] {
      assert a + b == b;
    } else {
      ConcatAppend(a[1..], b);
      assert (a + b)[1..] == a[1..] + b && (a + b)[0] == a[0];
    }
  }

  /** The pair at position i can be merged. */
  predicate Mergeable(ranks: Ranks, symbols: seq<Sym>, i: nat)
    requires i + 1 < |symbols|
  {
    (symbols[i], symbols[i + 1]) in ranks && ranks[(symbols[i], symbols[i + 1])] < MAX_RANK
  }

  function RankAt(ranks: Ranks, symbols: seq<Sym>, i: nat): int
    requires i + 1 < |symbols| && Mergeable(ranks, symbols, i)
  {
    ranks[(symbols[i], symbols[i + 1])]
  }

  /** Replaces, left to right, every pair of the given rank by its concatenation. */
  function MergePass(ranks: Ranks, best: int, symbols: seq<Sym>): (r: seq<Sym>)
    ensures |r| <= |symbols|
    decreases |symbols|
  {
    if |symbols| < 2 then symbols
    else if (symbols[0], symbols[1]) in ranks && ranks[(symbols[0], symbols[1])] == best then
      [symbols[0] + symbols[1]] + MergePass(ranks, best, symbols[2..])
    else [symbols[0]] + MergePass(ranks, best, symbols[1..])
  }

  /** A pass over a list that has a pair of that rank makes it shorter. */
  lemma {:induction false} MergeShrinks(ranks: Ranks, best: int, symbols: seq<Sym>, i: nat)
    requires i + 1 < |symbols| && Mergeable(ranks, symbols, i) && RankAt(ranks, symbols, i) == best
    ensures |MergePass(ranks, best, symbols)| < |symbols|
    decreases |symbols|
  {
    if !((symbols[0], symbols[1]) in ranks && ranks[(symbols[0], symbols[1])] == best) {
      MergeShrinks(ranks, best, symbols[1..], i - 1);
    }
  }

  lemma {:induction false} MergeConcat(ranks: Ranks, best: int, symbols: seq<Sym>)
    ensures Concat(MergePass(ranks, best, symbols)) == Concat(symbols)
    decreases |symbols|
  {
    if |symbols| >= 2 {
      var a, b := symbols[0], symbols[1];
      if (a, b) in ranks && ranks[(a, b)] == best {
        MergeConcat(ranks, best, symbols[2..]);
        assert symbols[1..][1..] == symbols[2..] && symbols[1..][0] == b;
        assert a + (b + Concat(symbols[2..])) == (a + b) + Concat(symbols[2..]);
      } else {
        MergeConcat(ranks, best, symbols[1..]);
      }
    }
  }

  // ---------------------------------------------------------------- the best pair

  /** The first position at or after i whose rank is smallest and below the bound. */
  function BestFrom(ranks: Ranks, symbols: seq<Sym>, i: nat, best: int, pos: nat): (int, nat)
    requires i <= |symbols|
    decreases |symbols| - i
  {
    if i + 1 >= |symbols| then (best, pos)
    else
      var p := (symbols[i], symbols[i + 1]);
      if p in ranks && ranks[p] < best then BestFrom(ranks, symbols, i + 1, ranks[p], i)
      else BestFrom(ranks, symbols, i + 1, best, pos)
  }

  lemma {:induction false} BestOk(ranks: Ranks, symbols: seq<Sym>, i: nat, best: int, pos: nat)
    requires i <= |symbols| && best <= MAX_RANK && pos <= |symbols|
    requires pos < |symbols| ==>
        pos + 1 < |symbols| && Mergeable(ranks, symbols, pos)
        && RankAt(ranks, symbols, pos) == best
    requires pos == |symbols| ==> best == MAX_RANK
    ensures var (b, p) := BestFrom(ranks, symbols, i, best, pos);
      && b <= best && p <= |symbols|
      && (p < |symbols| ==> p + 1 < |symbols| && Mergeable(ranks, symbols, p) && RankAt(ranks, symbols, p) == b)
      && (p == |symbols| ==> b == MAX_RANK)
      && (forall k | i <= k < |symbols| - 1 :: Mergeable(ranks, symbols, k) ==> b <= RankAt(ranks, symbols, k))
    decreases |symbols| - i
  {
    if i + 1 < |symbols| {
      var p := (symbols[i], symbols[i + 1]);
      if p in ranks && ranks[p] < best {
        BestOk(ranks, symbols, i + 1, ranks[p], i);
      } else {
        BestOk(ranks, symbols, i + 1, best, pos);
      }
    }
  }

  function Best(ranks: Ranks, symbols: seq<Sym>): (int, nat) {
    BestFrom(ranks, symbols, 0, MAX_RANK, |symbols|)
  }

  /** No adjacent pair can be merged. */
  ghost predicate Final(ranks: Ranks, symbols: seq<Sym>) {
    forall i: nat | i + 1 < |symbols| :: !Mergeable(ranks, symbols, i)
  }

  lemma BestFinal(ranks: Ranks, symbols: seq<Sym>)
    ensures Best(ranks, symbols).1 == |symbols| <==> Final(ranks, symbols)
    ensures Best(ranks, symbols).1 != |symbols| ==>
      var (b, p) := Best(ranks, symbols);
      p + 1 < |symbols| && Mergeable(ranks, symbols, p) && RankAt(ranks, symbols, p) == b
  {
    BestOk(ranks, symbols, 0, MAX_RANK, |symbols|);
  }

  // ---------------------------------------------------------------- merging to the end

  function Merged(ranks: Ranks, symbols: seq<Sym>): (r: seq<Sym>)
    decreases |symbols|
  {
    var (best, pos) := Best(ranks, symbols);
    if pos == |symbols| then symbols
    else
      BestFinal(ranks, symbols);
      MergeShrinks(ranks, best, symbols, pos);
      Merged(ranks, MergePass(ranks, best, symbols))
  }

  /** Merging keeps what is written and stops only when nothing can be merged. */
  lemma {:induction false} MergedOk(ranks: Ranks, symbols: seq<Sym>)
    ensures Concat(Merged(ranks, symbols)) == Concat(symbols)
    ensures Final(ranks, Merged(ranks, symbols))
    ensures |Merged(ranks, symbols)| <= |symbols|
    decreases |symbols|
  {
    BestFinal(ranks, symbols);
    var (best, pos) := Best(ranks, symbols);
    if pos != |symbols| {
      MergeShrinks(ranks, best, symbols, pos);
      MergeConcat(ranks, best, symbols);
      MergedOk(ranks, MergePass(ranks, best, symbols));
    }
  }

  /** Every symbol that comes out went in or is the result of a merge. */
  ghost predicate Closed(ranks: Ranks, known: set<Sym>) {
    forall a, b :: (a, b) in ranks ==> a + b in known
  }

  lemma {:induction false} MergePassKnown(ranks: Ranks, best: int, symbols: seq<Sym>, known: set<Sym>)
    requires Closed(ranks, known) && forall s :: s in symbols ==> s in known
    ensures forall s :: s in MergePass(ranks, best, symbols) ==> s in known
    decreases |symbols|
  {
    if |symbols| >= 2 {
      if (symbols[0], symbols[1]) in ranks && ranks[(symbols[0], symbols[1])] == best {
        MergePassKnown(ranks, best, symbols[2..], known);
      } else {
        MergePassKnown(ranks, best, symbols[1..], known);
      }
    }
  }

  lemma {:induction false} MergedKnown(ranks: Ranks, symbols: seq<Sym>, known: set<Sym>)
    requires Closed(ranks, known) && forall s :: s in symbols ==> s in known
    ensures forall s :: s in Merged(ranks, symbols) ==> s in known
    decreases |symbols|
  {
    var (best, pos) := Best(ranks, symbols);
    if pos != |symbols| {
      BestFinal(ranks, symbols);
      MergeShrinks(ranks, best, symbols, pos);
      MergePassKnown(ranks, best, symbols, known);
      MergedKnown(ranks, MergePass(ranks, best, symbols), known);
    }
  }
}
