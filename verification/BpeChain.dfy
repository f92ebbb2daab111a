/**
 What byte-pair merging means, said without a procedure: a list is rewritten by passes, each of which merges, left
 to right, every occurrence of a pair of least rank, until no pair is left that can be merged.
 */
module BpeChain {
  import opened Bpe

  // ---------------------------------------------------------------- one pass

  /** The pair that begins at position i has this rank. */
  predicate HasRank(ranks: Ranks, a: seq<Sym>, i: nat, rank: int) {
    i + 1 < |a| && (a[i], a[i + 1]) in ranks && ranks[(a[i], a[i + 1])] == rank
  }

  /** Where each symbol of b comes from in a: a symbol that begins at a pair of this rank is that pair, any other a
      single symbol, and together they cover a. */
  ghost predicate Cover(ranks: Ranks, rank: int, a: seq<Sym>, b: seq<Sym>, from: seq<nat>) {
    && |from| == |b| + 1 && from[0] == 0 && from[|b|] == |a|
    && forall k | 0 <= k < |b| ::
         && from[k] < |a|
         && if HasRank(ranks, a, from[k], rank) then from[k + 1] == from[k] + 2 && b[k] == a[from[k]] + a[from[k] + 1]
            else from[k + 1] == from[k] + 1 && b[k] == a[from[k]]
  }

  /** No pair that can be merged has a smaller rank, and some pair has this one. */
  ghost predicate LeastRank(ranks: Ranks, a: seq<Sym>, rank: int) {
    && rank < MAX_RANK && (exists i: nat :: HasRank(ranks, a, i, rank))
    && forall i: nat | i + 1 < |a| && Mergeable(ranks, a, i) :: rank <= RankAt(ranks, a, i)
  }

  ghost predicate Rewrites(ranks: Ranks, a: seq<Sym>, b: seq<Sym>) {
    exists rank, from :: LeastRank(ranks, a, rank) && Cover(ranks, rank, a, b, from)
  }

  // ---------------------------------------------------------------- passes to the end

  /** A chain of passes that ends where nothing can be merged. */
  ghost predicate Chain(ranks: Ranks, chain: seq<seq<Sym>>) {
    && chain != [] && Final(ranks, chain[|chain| - 1])
    && forall k | 0 <= k < |chain| - 1 :: Rewrites(ranks, chain[k], chain[k + 1])
  }

  ghost predicate Reaches(ranks: Ranks, a: seq<Sym>, z: seq<Sym>) {
    exists chain :: Chain(ranks, chain) && chain[0] == a && chain[|chain| - 1] == z
  }

  // ---------------------------------------------------------------- the procedure does that

  function Shifted(from: seq<nat>, n: nat): seq<nat> {
    seq(|from|, k requires 0 <= k < |from| => from[k] + n)
  }

  lemma CoverMore(ranks: Ranks, rank: int, a: seq<Sym>, b: seq<Sym>, from: seq<nat>, head: Sym, n: nat)
    requires n <= |a| && 0 < n && Cover(ranks, rank, a[n..], b, from)
    requires if HasRank(ranks, a, 0, rank) then n == 2 && head == a[0] + a[1] else n == 1 && head == a[0]
    ensures Cover(ranks, rank, a, [head] + b, [0] + Shifted(from, n))
  {
    var b', from' := [head] + b, [0] + Shifted(from, n);
    forall k | 0 <= k < |b'|
      ensures from'[k] < |a|
      ensures if HasRank(ranks, a, from'[k], rank) then
                from'[k + 1] == from'[k] + 2 && b'[k] == a[from'[k]] + a[from'[k] + 1]
              else from'[k + 1] == from'[k] + 1 && b'[k] == a[from'[k]]
    {
      if k > 0 {
        assert from'[k] == from[k - 1] + n && from'[k + 1] == from[k] + n;
        assert HasRank(ranks, a, from'[k], rank) <==> HasRank(ranks, a[n..], from[k - 1], rank);
      }
    }
  }

  lemma {:induction false} PassCovers(ranks: Ranks, rank: int, a: seq<Sym>) returns (from: seq<nat>)
    ensures Cover(ranks, rank, a, MergePass(ranks, rank, a), from)
    decreases |a|
  {
    if a == [] {
      from := [0];
    } else if |a| == 1 {
      from := [0, 1];
    } else {
      var n := if HasRank(ranks, a, 0, rank) then 2 else 1;
      var head := if n == 2 then a[0] + a[1] else a[0];
      var later := PassCovers(ranks, rank, a[n..]);
      CoverMore(ranks, rank, a, MergePass(ranks, rank, a[n..]), later, head, n);
      from := [0] + Shifted(later, n);
    }
  }

  lemma BestLeast(ranks: Ranks, a: seq<Sym>)
    ensures Best(ranks, a).1 != |a| ==> LeastRank(ranks, a, Best(ranks, a).0)
  {
    BestOk(ranks, a, 0, MAX_RANK, |a|);
    var (b, p) := Best(ranks, a);
    if p != |a| { assert HasRank(ranks, a, p, b); }
  }

  lemma PassRewrites(ranks: Ranks, a: seq<Sym>)
    ensures var (b, p) := Best(ranks, a); p != |a| ==> Rewrites(ranks, a, MergePass(ranks, b, a))
  {
    BestLeast(ranks, a);
    var from := PassCovers(ranks, Best(ranks, a).0, a);
  }

  /** Merging to the end reaches the end of such a chain. */
  lemma {:induction false} MergedReached(ranks: Ranks, a: seq<Sym>)
    ensures Reaches(ranks, a, Merged(ranks, a))
    decreases |a|
  {
    BestFinal(ranks, a);
    PassRewrites(ranks, a);
    var (b, p) := Best(ranks, a);
    if p == |a| {
      assert Chain(ranks, [a]);
    } else {
      MergeShrinks(ranks, b, a, p);
      var a1 := MergePass(ranks, b, a);
      MergedReached(ranks, a1);
      var chain :| Chain(ranks, chain) && chain[0] == a1 && chain[|chain| - 1] == Merged(ranks, a1);
      var all := [a] + chain;
      forall k | 0 <= k < |all| - 1 ensures Rewrites(ranks, all[k], all[k + 1]) {
        if k > 0 { assert all[k] == chain[k - 1] && all[k + 1] == chain[k]; }
      }
      assert Chain(ranks, all) && all[0] == a && all[|all| - 1] == Merged(ranks, a);
    }
  }

  // ---------------------------------------------------------------- and there is only one end

  lemma {:induction false} CoverAgrees(ranks: Ranks, rank: int, a: seq<Sym>, b: seq<Sym>, b': seq<Sym>, from: seq<nat>,
          from': seq<nat>, k: nat)
    requires Cover(ranks, rank, a, b, from) && Cover(ranks, rank, a, b', from') && k <= |b| && k <= |b'|
    ensures from[k] == from'[k] && b[..k] == b'[..k]
  {
    if k > 0 {
      CoverAgrees(ranks, rank, a, b, b', from, from', k - 1);
      assert b[..k] == b[..k - 1] + [b[k - 1]] && b'[..k] == b'[..k - 1] + [b'[k - 1]];
    }
  }

  lemma CoverUnique(ranks: Ranks, rank: int, a: seq<Sym>, b: seq<Sym>, b': seq<Sym>, from: seq<nat>, from': seq<nat>)
    requires Cover(ranks, rank, a, b, from) && Cover(ranks, rank, a, b', from')
    ensures b == b'
  {
    var n := if |b| <= |b'| then |b| else |b'|;
    CoverAgrees(ranks, rank, a, b, b', from, from', n);
    assert |b| == n && |b'| == n;
    assert b[..n] == b && b'[..n] == b';
  }

  lemma LeastUnique(ranks: Ranks, a: seq<Sym>, rank: int, rank': int)
    requires LeastRank(ranks, a, rank) && LeastRank(ranks, a, rank')
    ensures rank == rank'
  {
    var i: nat :| HasRank(ranks, a, i, rank);
    var i': nat :| HasRank(ranks, a, i', rank');
    assert Mergeable(ranks, a, i) && Mergeable(ranks, a, i');
  }

  lemma RewritesUnique(ranks: Ranks, a: seq<Sym>, b: seq<Sym>, b': seq<Sym>)
    requires Rewrites(ranks, a, b) && Rewrites(ranks, a, b')
    ensures b == b'
  {
    var rank, from :| LeastRank(ranks, a, rank) && Cover(ranks, rank, a, b, from);
    var rank', from' :| LeastRank(ranks, a, rank') && Cover(ranks, rank', a, b', from');
    LeastUnique(ranks, a, rank, rank');
    CoverUnique(ranks, rank, a, b, b', from, from');
  }

  lemma FinalStays(ranks: Ranks, a: seq<Sym>, b: seq<Sym>)
    requires Final(ranks, a)
    ensures !Rewrites(ranks, a, b)
  {
    if Rewrites(ranks, a, b) {
      var rank, from :| LeastRank(ranks, a, rank) && Cover(ranks, rank, a, b, from);
      var i: nat :| HasRank(ranks, a, i, rank);
      assert Mergeable(ranks, a, i);
    }
  }

  lemma {:induction false} ChainUnique(ranks: Ranks, one: seq<seq<Sym>>, two: seq<seq<Sym>>)
    requires Chain(ranks, one) && Chain(ranks, two) && one[0] == two[0]
    ensures one[|one| - 1] == two[|two| - 1]
    decreases |one|
  {
    if |one| == 1 {
      if |two| > 1 { FinalStays(ranks, two[0], two[1]); }
    } else if |two| == 1 {
      FinalStays(ranks, one[0], one[1]);
    } else {
      RewritesUnique(ranks, one[0], one[1], two[1]);
      ChainTail(ranks, one);
      ChainTail(ranks, two);
      ChainUnique(ranks, one[1..], two[1..]);
    }
  }

  lemma ChainTail(ranks: Ranks, chain: seq<seq<Sym>>)
    requires Chain(ranks, chain) && |chain| > 1
    ensures Chain(ranks, chain[1..])
  {
    hide Rewrites, Final;
    var tail := chain[1..];
    forall k | 0 <= k < |tail| - 1 ensures Rewrites(ranks, tail[k], tail[k + 1]) {
      assert tail[k] == chain[k + 1] && tail[k + 1] == chain[k + 2];
    }
  }

  /** What merging leaves is the one list such chains end with. */
  lemma MergedExact(ranks: Ranks, a: seq<Sym>, z: seq<Sym>)
    ensures Reaches(ranks, a, z) <==> z == Merged(ranks, a)
  {
    MergedReached(ranks, a);
    if Reaches(ranks, a, z) {
      var one :| Chain(ranks, one) && one[0] == a && one[|one| - 1] == z;
      var two :| Chain(ranks, two) && two[0] == a && two[|two| - 1] == Merged(ranks, a);
      ChainUnique(ranks, one, two);
    }
  }

  // ---------------------------------------------------------------- the loops of the source

  method FindBest(ranks: Ranks, symbols: seq<Sym>) returns (best: int, pos: nat)
    ensures (best, pos) == Best(ranks, symbols)
    ensures if pos == |symbols| then Final(ranks, symbols) else LeastRank(ranks, symbols, best)
  {
    BestFinal(ranks, symbols);
    BestLeast(ranks, symbols);
    best, pos := MAX_RANK, |symbols|;
    var i := 0;
    while i + 1 < |symbols|
      invariant 0 <= i <= |symbols|
      invariant BestFrom(ranks, symbols, i, best, pos) == Best(ranks, symbols)
    {
      var p := (symbols[i], symbols[i + 1]);
      if p in ranks && ranks[p] < best {
        best, pos := ranks[p], i;
      }
      i := i + 1;
    }
  }

  lemma PassNext(ranks: Ranks, best: int, symbols: seq<Sym>, i: nat)
    requires i <= |symbols|
    ensures MergePass(ranks, best, symbols[i..]) ==
      if i == |symbols| then []
      else if HasRank(ranks, symbols, i, best) then
        [symbols[i] + symbols[i + 1]] + MergePass(ranks, best, symbols[i + 2..])
      else [symbols[i]] + MergePass(ranks, best, symbols[i + 1..])
  {
    if i < |symbols| { assert symbols[i..][1..] == symbols[i + 1..]; }
    if i + 1 < |symbols| { assert symbols[i..][2..] == symbols[i + 2..]; }
  }

  method Pass(ranks: Ranks, best: int, symbols: seq<Sym>) returns (next: seq<Sym>)
    ensures next == MergePass(ranks, best, symbols)
  {
    hide MergePass;
    next := [];
    var i := 0;
    assert symbols[0..] == symbols;
    while i < |symbols|
      invariant 0 <= i <= |symbols|
      invariant next + MergePass(ranks, best, symbols[i..]) == MergePass(ranks, best, symbols)
    {
      PassNext(ranks, best, symbols, i);
      if i + 1 < |symbols| && (symbols[i], symbols[i + 1]) in ranks && ranks[(symbols[i], symbols[i + 1])] == best {
        next := next + [symbols[i] + symbols[i + 1]];
        i := i + 2;
      } else {
        next := next + [symbols[i]];
        i := i + 1;
      }
    }
    PassNext(ranks, best, symbols, i);
  }

  method ApplyBpe(ranks: Ranks, input: seq<Sym>) returns (symbols: seq<Sym>)
    ensures symbols == Merged(ranks, input)
    ensures Reaches(ranks, input, symbols)
    ensures Concat(symbols) == Concat(input) && Final(ranks, symbols)
  {
    MergedReached(ranks, input);
    symbols := input;
    while |symbols| >= 2
      invariant Merged(ranks, symbols) == Merged(ranks, input)
      decreases |symbols|
    {
      var best, pos := FindBest(ranks, symbols);
      BestFinal(ranks, symbols);
      if pos == |symbols| {
        MergedOk(ranks, input);
        return;
      }
      MergeShrinks(ranks, best, symbols, pos);
      symbols := Pass(ranks, best, symbols);
    }
    BestFinal(ranks, symbols);
    MergedOk(ranks, input);
  }
}
