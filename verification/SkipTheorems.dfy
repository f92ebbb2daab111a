/**
 Decoding without special tokens: encoding a text and decoding it that way gives the text without the special tokens of
 its cut, exactly when no symbol of its ordinary text goes by the id of a special token.
 */
module SkipTheorems {
  import opened ByteAlphabet
  import opened Bpe
  import opened Tokenizing
  import opened Cutting

  /** The ordinary text of a cut. */
  function Ordinary(text: seq<Byte>, ps: seq<Part>): seq<Byte> {
    if ps == [] then []
    else
      var p := ps[0];
      (if p.Token? || !(p.begin <= p.end <= |text|) then [] else text[p.begin..p.end]) + Ordinary(text, ps[1..])
  }

  // ---------------------------------------------------------------- symbols are spelled

  ghost predicate Spelled(s: Sym) {
    exists bytes: seq<Byte> :: bytes != [] && s == Spell(bytes)
  }

  ghost predicate AllSpelled(symbols: seq<Sym>) {
    forall s :: s in symbols ==> Spelled(s)
  }

  lemma SpelledPair(a: Sym, b: Sym)
    requires Spelled(a) && Spelled(b)
    ensures Spelled(a + b)
  {
    var x: seq<Byte> :| x != [] && a == Spell(x);
    var y: seq<Byte> :| y != [] && b == Spell(y);
    SpellAppend(x, y);
    assert x + y != [];
  }

  lemma {:induction false} PassSpelled(ranks: Ranks, rank: int, a: seq<Sym>)
    requires AllSpelled(a)
    ensures AllSpelled(MergePass(ranks, rank, a))
    decreases |a|
  {
    hide Spelled;
    if |a| >= 2 {
      PassSpelled(ranks, rank, a[2..]);
      PassSpelled(ranks, rank, a[1..]);
      SpelledPair(a[0], a[1]);
    }
  }

  lemma {:induction false} MergedSpelled(ranks: Ranks, a: seq<Sym>)
    requires AllSpelled(a)
    ensures AllSpelled(Merged(ranks, a))
    decreases |a|
  {
    hide AllSpelled;
    var (b, p) := Best(ranks, a);
    if p != |a| {
      BestFinal(ranks, a);
      MergeShrinks(ranks, b, a, p);
      PassSpelled(ranks, b, a);
      MergedSpelled(ranks, MergePass(ranks, b, a));
    }
  }

  lemma {:induction false} BytesSpelled(bytes: seq<Byte>)
    ensures AllSpelled(ByteSymbols(bytes))
    decreases |bytes|
  {
    if bytes != [] {
      BytesSpelled(bytes[1..]);
      assert [bytes[0]][1..] == [] && Spell([bytes[0]]) == Symbol(bytes[0]) + [] == Symbol(bytes[0]);
      assert Spelled(Symbol(bytes[0]));
    }
  }

  // ---------------------------------------------------------------- reading symbols

  ghost predicate Plainly(ps: seq<Piece>) {
    forall p :: p in ps ==> p.Plain? && Spelled(p.sym)
  }

  /** Number of bytes a symbol stands for, and that of several. */
  ghost function Own(p: Piece): nat {
    var c := Characters(p.sym, true);
    if c.Ok? then |c.value| else 0
  }

  ghost function Weight(ps: seq<Piece>): nat {
    if ps == [] then 0
    else Own(ps[0]) + Weight(ps[1..])
  }

  lemma SpelledWeight(p: Piece, rest: seq<Byte>) returns (bytes: seq<Byte>)
    requires Spelled(p.sym)
    ensures bytes != [] && Characters(p.sym, true) == Ok(bytes)
    ensures Characters(p.sym + rest, true) == Before(bytes, Characters(rest, true))
  {
    bytes :| bytes != [] && p.sym == Spell(bytes);
    ReadSpelled(bytes, rest, true);
    ReadSpelled(bytes, [], true);
    assert p.sym + [] == p.sym && bytes + [] == bytes;
    assert Characters([], true) == Ok([]);
  }

  lemma {:induction false} ReadWeight(ps: seq<Piece>)
    requires Plainly(ps)
    ensures Characters(Written(ps), true).Ok? && |Characters(Written(ps), true).value| == Weight(ps)
    decreases |ps|
  {
    hide Spelled, Characters;
    if ps == [] {
      ReadNothing();
    } else {
      ReadWeight(ps[1..]);
      var bytes := SpelledWeight(ps[0], Written(ps[1..]));
    }
  }

  lemma ReadNothing()
    ensures Characters([], true) == Ok([])
  {
  }

  // ---------------------------------------------------------------- what is skipped

  function Symbols(ps: seq<Piece>): seq<Piece> {
    if ps == [] then [] else (if ps[0].Plain? then [ps[0]] else []) + Symbols(ps[1..])
  }

  predicate Skipped(v: Vocabulary, p: Piece) {
    p.Special? || (p.sym in v.ids && v.ids[p.sym] in v.specialTokens)
  }

  function Kept(v: Vocabulary, ps: seq<Piece>): seq<Piece> {
    if ps == [] then [] else (if Skipped(v, ps[0]) then [] else [ps[0]]) + Kept(v, ps[1..])
  }

  lemma {:induction false} IdsStreamKept(v: Vocabulary, ps: seq<Piece>)
    requires Inverse(v) && Known(v, ps)
    ensures IdsOf(v, ps).Ok? && Stream(v, IdsOf(v, ps).value, true) == Ok(Written(Kept(v, ps)))
    decreases |ps|
  {
    if ps != [] {
      assert ps[0] in ps;
      IdsStreamKept(v, ps[1..]);
      var ids, rest := IdsOf(v, ps).value, IdsOf(v, ps[1..]).value;
      assert ids == [IdOf(v, ps[0]).value] + rest && ids[1..] == rest;
      WrittenAppend(if Skipped(v, ps[0]) then [] else [ps[0]], Kept(v, ps[1..]));
      assert Written([ps[0]]) == ps[0].sym + Written([ps[0]][1..]) == ps[0].sym;
    }
  }

  ghost predicate SpelledPieces(ps: seq<Piece>) {
    forall p :: p in ps && p.Plain? ==> Spelled(p.sym)
  }

  /** What is kept are symbols of ordinary text. */
  lemma {:induction false} KeptPlainly(v: Vocabulary, ps: seq<Piece>)
    requires SpelledPieces(ps)
    ensures Plainly(Kept(v, ps)) && Plainly(Symbols(ps))
    decreases |ps|
  {
    hide Spelled, Skipped;
    if ps != [] {
      assert ps[0] in ps;
      KeptPlainly(v, ps[1..]);
      SkippedSpecial(v, ps[0]);
    }
  }

  /** All of them, unless one goes by a special token's id. */
  lemma {:induction false} KeptAll(v: Vocabulary, ps: seq<Piece>)
    requires forall p :: p in ps && p.Plain? ==> !Skipped(v, p)
    ensures Kept(v, ps) == Symbols(ps)
    decreases |ps|
  {
    hide Skipped;
    if ps != [] {
      assert ps[0] in ps;
      KeptAll(v, ps[1..]);
      SkippedSpecial(v, ps[0]);
    }
  }

  lemma WeightMore(p: Piece, rest: seq<Piece>)
    requires Spelled(p.sym)
    ensures Own(p) > 0 && Weight([p] + rest) == Own(p) + Weight(rest)
  {
    hide Spelled, Characters;
    var bytes := SpelledWeight(p, []);
    assert ([p] + rest)[1..] == rest;
  }

  lemma {:induction false} KeptLess(v: Vocabulary, ps: seq<Piece>)
    requires SpelledPieces(ps)
    ensures Weight(Kept(v, ps)) <= Weight(Symbols(ps))
    ensures (exists p :: p in ps && p.Plain? && Skipped(v, p)) ==> Weight(Kept(v, ps)) < Weight(Symbols(ps))
    decreases |ps|
  {
    hide Spelled, Skipped, Weight;
    if ps != [] {
      KeptLess(v, ps[1..]);
      SkippedSpecial(v, ps[0]);
      assert ps[0] in ps && ps == [ps[0]] + ps[1..];
      assert [] + Kept(v, ps[1..]) == Kept(v, ps[1..]) && [] + Symbols(ps[1..]) == Symbols(ps[1..]);
      if ps[0].Plain? {
        WeightMore(ps[0], Symbols(ps[1..]));
        WeightMore(ps[0], Kept(v, ps[1..]));
      }
    }
  }

  lemma SkippedSpecial(v: Vocabulary, p: Piece)
    ensures p.Special? ==> Skipped(v, p)
  {
  }

  // ---------------------------------------------------------------- cuts

  lemma {:induction false} SymbolsConcat(a: seq<Piece>, b: seq<Piece>)
    ensures Symbols(a + b) == Symbols(a) + Symbols(b)
    decreases |a|
  {
    if a == [] {
      assert a + b == b;
    } else {
      SymbolsConcat(a[1..], b);
      assert (a + b)[1..] == a[1..] + b && (a + b)[0] == a[0];
    }
  }

  lemma {:induction false} SymbolsPlain(ps: seq<Piece>)
    requires forall p :: p in ps ==> p.Plain?
    ensures Symbols(ps) == ps
    decreases |ps|
  {
    if ps != [] {
      SymbolsPlain(ps[1..]);
      assert ps == [ps[0]] + ps[1..];
    }
  }

  lemma PartSymbols(v: Vocabulary, text: seq<Byte>, p: Part)
    requires p.begin <= p.end <= |text|
    ensures Written(Symbols(PartPieces(v, text, p))) == if p.Token? then [] else Spell(text[p.begin..p.end])
  {
    hide Segment, Spell;
    if p.Token? {
      assert PartPieces(v, text, p)[1..] == [];
    } else {
      SegmentPlain(v, text, p.begin, p.end);
      SymbolsPlain(Segment(v, text, p.begin, p.end));
      SegmentWritten(v, text, p.begin, p.end);
    }
  }

  /** Read back, the symbols of a cut are its ordinary text. */
  lemma {:induction false} CutRead(v: Vocabulary, text: seq<Byte>, ps: seq<Part>)
    requires Parts(text, ps)
    ensures Characters(Written(Symbols(CutPieces(v, text, ps))), true) == Ok(Ordinary(text, ps))
    decreases |ps|
  {
    hide PartPieces, Spell, Characters;
    if ps == [] {
      ReadNothing();
    } else {
      var p := ps[0];
      var first, rest := PartPieces(v, text, p), CutPieces(v, text, ps[1..]);
      CutRead(v, text, ps[1..]);
      SymbolsConcat(first, rest);
      WrittenAppend(Symbols(first), Symbols(rest));
      PartSymbols(v, text, p);
      if p.Token? {
        assert [] + Written(Symbols(rest)) == Written(Symbols(rest));
        assert [] + Ordinary(text, ps[1..]) == Ordinary(text, ps[1..]);
      } else {
        ReadSpelled(text[p.begin..p.end], Written(Symbols(rest)), true);
      }
    }
  }

  lemma SegmentSpelled(v: Vocabulary, text: seq<Byte>, begin: nat, end: nat)
    requires begin <= end <= |text|
    ensures forall p :: p in Segment(v, text, begin, end) ==> Spelled(p.sym)
  {
    hide Merged, ByteSymbols, Spelled;
    BytesSpelled(text[begin..end]);
    MergedSpelled(v.ranks, ByteSymbols(text[begin..end]));
    SegmentPlain(v, text, begin, end);
  }

  lemma {:induction false} CutSpelled(v: Vocabulary, text: seq<Byte>, ps: seq<Part>)
    requires Parts(text, ps)
    ensures forall p :: p in CutPieces(v, text, ps) && p.Plain? ==> Spelled(p.sym)
    decreases |ps|
  {
    hide Spelled, Segment;
    if ps != [] {
      CutSpelled(v, text, ps[1..]);
      SegmentSpelled(v, text, ps[0].begin, ps[0].end);
    }
  }

  /** Encoding and decoding without special tokens, for every text whose symbols are known. */
  lemma SkipExact(v: Vocabulary, text: seq<Byte>, ps: seq<Part>)
    requires v.ids != map[] && Inverse(v) && RightCut(v, text, ps)
    requires forall p :: p in Pieces(v, text) && p.Plain? ==> p.sym in v.ids
    ensures Encode(v, text).Ok?
    ensures Decode(v, Encode(v, text).value, true) == Ok(Ordinary(text, ps)) <==>
      forall p :: p in Pieces(v, text) && p.Plain? ==> v.ids[p.sym] !in v.specialTokens
  {
    hide Characters, CutOk, CutPieces, Pieces, Spelled, Stream, Symbols, Kept, Ordinary, Cut, Weight;
    PiecesSpecial(v, text, 0, 0);
    PiecesAre(v, text);
    var pieces := Pieces(v, text);
    IdsStreamKept(v, pieces);
    CutExact(v, text, ps);
    CutParts(v, text, START, 0, ps);
    CutSpelled(v, text, ps);
    CutRead(v, text, ps);
    KeptPlainly(v, pieces);
    KeptLess(v, pieces);
    if forall p :: p in pieces && p.Plain? ==> !Skipped(v, p) { KeptAll(v, pieces); }
    ReadWeight(Kept(v, pieces));
    ReadWeight(Symbols(pieces));
    var s :| s in v.ids;
    assert v.ids[s] in v.tokens;
  }

  lemma PiecesAre(v: Vocabulary, text: seq<Byte>)
    ensures Pieces(v, text) == PiecesFrom(v, text, 0, 0)
  {
  }

  // ---------------------------------------------------------------- an id that is skipped

  /** The blank's symbol is also a special token. */
  function Blanked(): Vocabulary {
    Vocabulary(map[Symbol(32) := 0], map[0 := Symbol(32)], map[], map[Symbol(32) := 0], map[0 := Symbol(32)], -1)
  }

  lemma BlankPieces()
    ensures Pieces(Blanked(), [32]) == [Plain(Symbol(32))]
  {
    var v, text := Blanked(), [32 as Byte];
    OthersBound(32);
    assert |Symbol(32)| == 2;
    assert text[0..1] == [32] && MatchSpecial(v, text, 0) == 0;
    assert SkipSpaces(text, 1) == 1 && SkipSpaces(text, 0) == 1;
    assert ByteSymbols(text) == [Symbol(32)] by { assert text[1..] == []; }
    assert Best(v.ranks, [Symbol(32)]).1 == 1;
    assert Merged(v.ranks, [Symbol(32)]) == [Symbol(32)];
    assert Plains([Symbol(32)]) == [Plain(Symbol(32))] by { assert [Symbol(32)][1..] == []; }
    assert Segment(v, text, 0, 0) == [] && Segment(v, text, 0, 1) == [Plain(Symbol(32))];
    assert PiecesFrom(v, text, 1, 1) == [];
  }

  /** A text that loses its blank. */
  lemma SkipExample()
    ensures var v := Blanked(); Inverse(v) && Encode(v, [32]) == Ok([0]) && Decode(v, [0], true) == Ok([])
  {
    var v, p := Blanked(), Plain(Symbol(32));
    hide Symbol, Pieces;
    BlankPieces();
    assert [p][1..] == [] && IdsOf(v, []) == Ok([]) && IdOf(v, p) == Ok(0) && [0] + [] == [0];
    assert IdsOf(v, [p]) == Ok([0]);
    assert Known(v, [p]) && Inverse(v);
    IdsStreamKept(v, [p]);
    assert Kept(v, [p]) == Kept(v, [p][1..]) == [];
    ReadNothing();
  }
}
