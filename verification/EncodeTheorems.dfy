/**
 Which ids a text has, said without the procedure: the text is cut by the rules of Cutting, each part of ordinary text
 is rewritten by a chain of least-rank passes to its end, and every symbol goes by its id. Encoding succeeds exactly
 with those ids.
 */
module EncodeTheorems {
  import opened ByteAlphabet
  import opened Bpe
  import opened BpeChain
  import opened Tokenizing
  import opened Cutting

  /** The symbols of a part. */
  ghost predicate Spells(v: Vocabulary, text: seq<Byte>, p: Part, symbols: seq<Sym>) {
    && p.begin <= p.end <= |text|
    && if p.Token? then symbols == [text[p.begin..p.end]]
       else Reaches(v.ranks, ByteSymbols(text[p.begin..p.end]), symbols)
  }

  ghost predicate SpellsAll(v: Vocabulary, text: seq<Byte>, ps: seq<Part>, spelt: seq<seq<Sym>>) {
    |spelt| == |ps| && forall k | 0 <= k < |ps| :: Spells(v, text, ps[k], spelt[k])
  }

  /** The pieces that a part and its symbols stand for, and those of all parts in order. */
  function PiecesOf(p: Part, symbols: seq<Sym>): seq<Piece> {
    if p.Token? && symbols != [] then [Special(symbols[0])] else Plains(symbols)
  }

  function AllPieces(ps: seq<Part>, spelt: seq<seq<Sym>>): seq<Piece>
    requires |ps| == |spelt|
  {
    if ps == [] then [] else PiecesOf(ps[0], spelt[0]) + AllPieces(ps[1..], spelt[1..])
  }

  /** The id of a piece: special tokens by their own table; other symbols by the vocabulary, or else unknown. */
  predicate Names(v: Vocabulary, p: Piece, id: Id) {
    match p
    case Special(s) => s in v.specials && v.specials[s] == id
    case Plain(s) => if s in v.ids then v.ids[s] == id else v.unknown >= 0 && v.unknown == id
  }

  predicate NamesAll(v: Vocabulary, ps: seq<Piece>, ids: seq<Id>) {
    |ids| == |ps| && forall i | 0 <= i < |ps| :: Names(v, ps[i], ids[i])
  }

  /** The ids that the rules give a text. */
  ghost predicate Encodes(v: Vocabulary, text: seq<Byte>, ids: seq<Id>) {
    exists ps, spelt ::
      RightCut(v, text, ps) && SpellsAll(v, text, ps, spelt) && NamesAll(v, AllPieces(ps, spelt), ids)
  }

  // ---------------------------------------------------------------- proofs

  /** Symbols by the rules make the pieces of the cut. */
  lemma SpeltPieces(v: Vocabulary, text: seq<Byte>, p: Part, symbols: seq<Sym>)
    requires p.begin < p.end
    requires Spells(v, text, p, symbols)
    ensures PiecesOf(p, symbols) == PartPieces(v, text, p)
  {
    hide Reaches, Merged, ByteSymbols, Plains;
    if !p.Token? { MergedExact(v.ranks, ByteSymbols(text[p.begin..p.end]), symbols); }
  }

  lemma {:induction false} AllSpelt(v: Vocabulary, text: seq<Byte>, ps: seq<Part>, spelt: seq<seq<Sym>>)
    requires Parts(text, ps) && SpellsAll(v, text, ps, spelt)
    ensures AllPieces(ps, spelt) == CutPieces(v, text, ps)
    decreases |ps|
  {
    hide Spells, PiecesOf, PartPieces;
    if ps != [] {
      SpeltPieces(v, text, ps[0], spelt[0]);
      AllSpelt(v, text, ps[1..], spelt[1..]);
    }
  }

  /** Every part can be spelt. */
  lemma {:induction false} SomeSpelling(v: Vocabulary, text: seq<Byte>, ps: seq<Part>) returns (spelt: seq<seq<Sym>>)
    requires Parts(text, ps)
    ensures SpellsAll(v, text, ps, spelt)
    decreases |ps|
  {
    hide Reaches, Merged, ByteSymbols;
    if ps == [] {
      spelt := [];
    } else {
      var p := ps[0];
      var rest := SomeSpelling(v, text, ps[1..]);
      var word := ByteSymbols(text[p.begin..p.end]);
      MergedReached(v.ranks, word);
      spelt := [if p.Token? then [text[p.begin..p.end]] else Merged(v.ranks, word)] + rest;
      SpellsMore(v, text, ps, spelt);
    }
  }

  lemma SpellsMore(v: Vocabulary, text: seq<Byte>, ps: seq<Part>, spelt: seq<seq<Sym>>)
    requires ps != [] && spelt != [] && Spells(v, text, ps[0], spelt[0]) && SpellsAll(v, text, ps[1..], spelt[1..])
    ensures SpellsAll(v, text, ps, spelt)
  {
    hide Spells;
    forall k | 0 <= k < |ps| ensures Spells(v, text, ps[k], spelt[k]) {
      if k > 0 { assert ps[k] == ps[1..][k - 1] && spelt[k] == spelt[1..][k - 1]; }
    }
  }

  lemma {:induction false} IdsNamed(v: Vocabulary, ps: seq<Piece>, ids: seq<Id>)
    ensures IdsOf(v, ps) == Ok(ids) <==> NamesAll(v, ps, ids)
    decreases |ps|
  {
    hide NamesAll;
    if ps == [] {
      NamesNone(v, ids);
    } else if ids == [] {
      NamesSome(v, ps);
    } else {
      IdsNamed(v, ps[1..], ids[1..]);
      NamesFirst(v, ps, ids);
      assert ids == [ids[0]] + ids[1..];
    }
  }

  lemma NamesNone(v: Vocabulary, ids: seq<Id>)
    ensures NamesAll(v, [], ids) <==> ids == []
  {
  }

  lemma NamesSome(v: Vocabulary, ps: seq<Piece>)
    ensures NamesAll(v, ps, []) <==> ps == []
  {
  }

  lemma NamesFirst(v: Vocabulary, ps: seq<Piece>, ids: seq<Id>)
    requires ps != [] && ids != []
    ensures NamesAll(v, ps, ids) <==> Names(v, ps[0], ids[0]) && NamesAll(v, ps[1..], ids[1..])
  {
    hide Names;
    if Names(v, ps[0], ids[0]) && NamesAll(v, ps[1..], ids[1..]) {
      forall i | 0 <= i < |ps| ensures Names(v, ps[i], ids[i]) {
        if i > 0 { assert ps[i] == ps[1..][i - 1] && ids[i] == ids[1..][i - 1]; }
      }
    }
  }

  /** The pieces of a text are those of any cut and spelling by the rules. */
  lemma RulesPieces(v: Vocabulary, text: seq<Byte>, ps: seq<Part>, spelt: seq<seq<Sym>>)
    requires RightCut(v, text, ps) && SpellsAll(v, text, ps, spelt)
    ensures AllPieces(ps, spelt) == Pieces(v, text)
  {
    hide CutOk, SpellsAll, Pieces, CutPieces, Cut;
    CutParts(v, text, START, 0, ps);
    AllSpelt(v, text, ps, spelt);
    CutExact(v, text, ps);
  }

  /** The ids of ordinary text that is not cut. */
  lemma WordExact(v: Vocabulary, text: seq<Byte>)
    ensures forall ids, symbols | Reaches(v.ranks, ByteSymbols(text), symbols) ::
      IdsOf(v, Plains(Merged(v.ranks, ByteSymbols(text)))) == Ok(ids) <==> NamesAll(v, Plains(symbols), ids)
  {
    hide Reaches, Merged, ByteSymbols, Plains, NamesAll, IdsOf;
    forall ids, symbols | Reaches(v.ranks, ByteSymbols(text), symbols)
      ensures IdsOf(v, Plains(Merged(v.ranks, ByteSymbols(text)))) == Ok(ids) <==> NamesAll(v, Plains(symbols), ids)
    {
      MergedExact(v.ranks, ByteSymbols(text), symbols);
      IdsNamed(v, Plains(symbols), ids);
    }
  }

  /** Encoding gives the ids of the rules, and fails exactly when they give none or nothing is loaded. */
  lemma EncodeExact(v: Vocabulary, text: seq<Byte>, ids: seq<Id>)
    ensures Encode(v, text) == Ok(ids) <==> v.ids != map[] && Encodes(v, text, ids)
  {
    hide RightCut, Spells, NamesAll, AllPieces, Pieces, CutPieces, IdsOf, Cut;
    IdsNamed(v, Pieces(v, text), ids);
    var ps := Cut(v, text);
    CutExact(v, text, ps);
    CutHasParts(v, text, ps);
    var spelt := SomeSpelling(v, text, ps);
    RulesPieces(v, text, ps, spelt);
    if Encodes(v, text, ids) {
      var ps', spelt' :|
        RightCut(v, text, ps') && SpellsAll(v, text, ps', spelt') && NamesAll(v, AllPieces(ps', spelt'), ids);
      RulesPieces(v, text, ps', spelt');
    }
  }

  lemma EncodeAll(v: Vocabulary, text: seq<Byte>)
    ensures forall ids :: Encode(v, text) == Ok(ids) <==> v.ids != map[] && Encodes(v, text, ids)
  {
    hide Encode, Encodes;
    forall ids ensures Encode(v, text) == Ok(ids) <==> v.ids != map[] && Encodes(v, text, ids) {
      EncodeExact(v, text, ids);
    }
  }

  lemma CutHasParts(v: Vocabulary, text: seq<Byte>, ps: seq<Part>)
    requires RightCut(v, text, ps)
    ensures Parts(text, ps)
  {
    CutParts(v, text, START, 0, ps);
  }
}
