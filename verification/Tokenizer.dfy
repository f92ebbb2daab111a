/** The tokenizer object: its loading, encoding and decoding loops compute the functions of Tokenizing. */
module Tokenizer {
  import opened ByteAlphabet
  import opened Bpe
  import opened BpeChain
  import opened Tokenizing
  import EncodeTheorems

  /** Put identifiers in front of an outcome. */
  function After(ids: seq<Id>, rest: Outcome<seq<Id>>): Outcome<seq<Id>> {
    if rest.Failed? then Failed else Ok(ids + rest.value)
  }

  lemma {:induction false} IdsOfAppend(v: Vocabulary, a: seq<Piece>, b: seq<Piece>)
    ensures IdsOf(v, a + b) == if IdsOf(v, a).Failed? then Failed else After(IdsOf(v, a).value, IdsOf(v, b))
  {
    if a == [] {
      assert a + b == b;
      assert IdsOf(v, b).Ok? ==> [] + IdsOf(v, b).value == IdsOf(v, b).value;
    } else {
      assert (a + b)[1..] == a[1..] + b && (a + b)[0] == a[0];
      IdsOfAppend(v, a[1..], b);
      if IdOf(v, a[0]).Ok? && IdsOf(v, a[1..]).Ok? && IdsOf(v, b).Ok? {
        assert [IdOf(v, a[0]).value] + (IdsOf(v, a[1..]).value + IdsOf(v, b).value)
            == [IdOf(v, a[0]).value] + IdsOf(v, a[1..]).value + IdsOf(v, b).value;
      }
    }
  }

  lemma AfterTwice(a: seq<Id>, b: seq<Id>, rest: Outcome<seq<Id>>)
    ensures After(a, After(b, rest)) == After(a + b, rest)
  {
    if rest.Ok? { assert a + (b + rest.value) == a + b + rest.value; }
  }

  // ---------------------------------------------------------------- loading

  /** Position of the first blank, or the length if there is none. */
  function Blank(s: Sym): (i: nat)
    ensures i <= |s|
    ensures i < |s| ==> s[i] == 32
  {
    if s == [] || s[0] == 32 then 0 else 1 + Blank(s[1..])
  }

  function PairOf(s: Sym): (Sym, Sym)
    requires Blank(s) < |s|
  {
    (s[..Blank(s)], s[Blank(s) + 1..])
  }

  /** A merge line has two parts separated by a blank. */
  predicate Splits(line: Sym) {
    Blank(line) < |line|
  }

  /** Number of usable lines among the first k. */
  function Lines(merges: seq<Sym>, k: nat): (n: nat)
    requires k <= |merges|
    ensures n <= k
  {
    if k == 0 then 0 else Lines(merges, k - 1) + if Splits(merges[k - 1]) then 1 else 0
  }

  /** Line k is the last of the first n that merges the pair. */
  ghost predicate LastLine(merges: seq<Sym>, n: nat, k: nat, p: (Sym, Sym))
    requires n <= |merges|
  {
    && k < n && Splits(merges[k]) && PairOf(merges[k]) == p
    && forall j | k < j < n && Splits(merges[j]) :: PairOf(merges[j]) != p
  }

  /** A pair ranks by the usable lines before its last one. */
  ghost predicate RankIs(merges: seq<Sym>, n: nat, p: (Sym, Sym), rank: int)
    requires n <= |merges|
  {
    exists k: nat :: LastLine(merges, n, k, p) && rank == Lines(merges, k)
  }

  /** The ranks of the first n lines. */
  ghost predicate Ranked(ranks: Ranks, merges: seq<Sym>, n: nat)
    requires n <= |merges|
  {
    && (forall p :: p in ranks ==> RankIs(merges, n, p, ranks[p]))
    && (forall k | 0 <= k < n && Splits(merges[k]) :: PairOf(merges[k]) in ranks)
  }

  lemma RankStays(merges: seq<Sym>, i: nat, p: (Sym, Sym), rank: int)
    requires i < |merges| && RankIs(merges, i, p, rank) && !(Splits(merges[i]) && PairOf(merges[i]) == p)
    ensures RankIs(merges, i + 1, p, rank)
  {
    hide Blank, PairOf, Lines;
    var k: nat :| LastLine(merges, i, k, p) && rank == Lines(merges, k);
    assert LastLine(merges, i + 1, k, p);
  }

  lemma RankNew(merges: seq<Sym>, i: nat)
    requires i < |merges| && Splits(merges[i])
    ensures RankIs(merges, i + 1, PairOf(merges[i]), Lines(merges, i))
  {
    hide Blank, PairOf, Lines;
    assert LastLine(merges, i + 1, i, PairOf(merges[i]));
  }

  lemma RankedSkip(ranks: Ranks, merges: seq<Sym>, i: nat)
    requires i < |merges| && Ranked(ranks, merges, i) && !Splits(merges[i])
    ensures Ranked(ranks, merges, i + 1)
  {
    hide Blank, PairOf, Lines, RankIs;
    forall p | p in ranks ensures RankIs(merges, i + 1, p, ranks[p]) {
      RankStays(merges, i, p, ranks[p]);
    }
  }

  lemma RankedNext(ranks: Ranks, merges: seq<Sym>, i: nat)
    requires i < |merges| && Ranked(ranks, merges, i) && Splits(merges[i])
    ensures Ranked(ranks[PairOf(merges[i]) := Lines(merges, i)], merges, i + 1)
  {
    hide Blank, PairOf, Lines, RankIs;
    RankNew(merges, i);
    forall p | p in ranks && p != PairOf(merges[i]) ensures RankIs(merges, i + 1, p, ranks[p]) {
      RankStays(merges, i, p, ranks[p]);
    }
  }

  class ByteLevelBpeTokenizer {
    var ids: map<Sym, Id>
    var tokens: map<Id, Sym>
    var ranks: Ranks
    var byteToStr: map<Byte, seq<Byte>>
    var strToByte: map<seq<Byte>, Byte>
    var specials: map<Sym, Id>
    var specialTokens: map<Id, Sym>
    var maxId: int
    var eosId: int
    var padId: int
    var unknownId: int

    ghost predicate Valid()
      reads this
    {
      Tables(byteToStr, strToByte)
    }

    function View(): Vocabulary
      reads this
    {
      Vocabulary(ids, tokens, ranks, specials, specialTokens, unknownId)
    }

    constructor ()
      ensures Valid() && ids == map[] && tokens == map[]
    {
      ids, tokens, ranks, specials, specialTokens := map[], map[], map[], map[], map[];
      maxId, eosId, padId, unknownId := -1, -1, -1, -1;
      new;
      byteToStr, strToByte := BuildByteMaps();
    }

    /** Tokens with types: kind 3 and above are special, the first of kind 2 is the unknown token. */
    method LoadTokens(list: seq<Sym>, types: seq<int>)
      modifies this
      ensures Loaded(View(), list, types, |list|)
    {
      hide Loaded;
      ids, tokens, specials, specialTokens := map[], map[], map[], map[];
      maxId, unknownId := -1, -1;
      LoadedNone(View(), list, types);
      var i := 0;
      while i < |list|
        invariant 0 <= i <= |list| && Loaded(View(), list, types, i)
      {
        ghost var v := View();
        ids := ids[list[i] := i];
        tokens := tokens[i := list[i]];
        if i > maxId { maxId := i; }
        if i < |types| {
          if types[i] >= 3 {
            specials := specials[list[i] := i];
            specialTokens := specialTokens[i := list[i]];
          } else if types[i] == 2 && unknownId < 0 {
            unknownId := i;
          }
        }
        LoadedNext(v, View(), list, types, i);
        i := i + 1;
      }
    }

    /** Merges in order of priority; lines without a blank are skipped. */
    method LoadMerges(merges: seq<Sym>)
      modifies this`ranks
      ensures Ranked(ranks, merges, |merges|)
    {
      hide Ranked, Blank, PairOf;
      ranks := map[];
      var rank, i := 0, 0;
      assert Ranked(ranks, merges, 0) by { RankedNone(merges); }
      while i < |merges|
        invariant 0 <= i <= |merges| && rank == Lines(merges, i) && Ranked(ranks, merges, i)
      {
        if !Splits(merges[i]) {
          RankedSkip(ranks, merges, i);
        } else {
          RankedNext(ranks, merges, i);
          ranks := ranks[PairOf(merges[i]) := rank];
          rank := rank + 1;
        }
        i := i + 1;
      }
    }

    /** load_from_vocab_and_merges. */
    method Load(list: seq<Sym>, merges: seq<Sym>, types: seq<int>, eos: int, pad: int) returns (ok: bool)
      modifies this
      ensures Valid() && Inverse(View())
      ensures ok <==> list != []
      ensures Loaded(View(), list, types, |list|) && Ranked(ranks, merges, |merges|)
      ensures eosId == eos && padId == pad
    {
      hide Loaded, Inverse, Tables, Blank, Ranked;
      LoadTokens(list, types);
      ghost var v := View();
      LoadMerges(merges);
      eosId, padId := eos, pad;
      byteToStr, strToByte := BuildByteMaps();
      ok := ids != map[];
      LoadedAll(v, View(), list, types);
    }

    // -------------------------------------------------------------- encoding

    method ByteEncodeSegment(text: seq<Byte>) returns (symbols: seq<Sym>)
      requires Valid()
      ensures symbols == ByteSymbols(text)
    {
      symbols := [];
      var i := 0;
      while i < |text|
        invariant 0 <= i <= |text|
        invariant symbols + ByteSymbols(text[i..]) == ByteSymbols(text)
      {
        assert text[i..][1..] == text[i + 1..];
        symbols := symbols + [byteToStr[text[i]]];
        i := i + 1;
      }
    }

    /** One segment: split into bytes, merge, and look every symbol up. */
    method EncodeNormalSegment(text: seq<Byte>) returns (r: Outcome<seq<Id>>)
      requires Valid()
      ensures r == IdsOf(View(), Plains(Merged(ranks, ByteSymbols(text))))
      ensures forall list, symbols | Reaches(ranks, ByteSymbols(text), symbols) ::
        r == Ok(list) <==> EncodeTheorems.NamesAll(View(), Plains(symbols), list)
    {
      EncodeTheorems.WordExact(View(), text);
      hide Tables, Merged, Concat, Final;
      var bytes := ByteEncodeSegment(text);
      var symbols := ApplyBpe(ranks, bytes);
      ghost var v := View();
      var out: seq<Id> := [];
      var i := 0;
      EmptyAfter(IdsOf(v, Plains(symbols)));
      assert symbols[0..] == symbols;
      hide IdsOf, Plains;
      while i < |symbols|
        invariant 0 <= i <= |symbols|
        invariant IdsOf(v, Plains(symbols)) == After(out, IdsOf(v, Plains(symbols[i..])))
      {
        var s := symbols[i];
        PlainNext(v, symbols, i);
        if s in ids {
          AfterTwice(out, [ids[s]], IdsOf(v, Plains(symbols[i + 1..])));
          out := out + [ids[s]];
        } else if unknownId >= 0 {
          AfterTwice(out, [unknownId], IdsOf(v, Plains(symbols[i + 1..])));
          out := out + [unknownId];
        } else {
          return Failed;
        }
        i := i + 1;
      }
      assert symbols[i..] == [];
      PlainEnd(v);
      assert out + [] == out;
      return Ok(out);
    }

    /** Segments are encoded only if they are not empty. */
    method Flush(text: seq<Byte>, begin: nat, end: nat) returns (r: Outcome<seq<Id>>)
      requires Valid() && begin <= end <= |text|
      ensures r == IdsOf(View(), Segment(View(), text, begin, end))
    {
      if begin == end { return Ok([]); }
      r := EncodeNormalSegment(text[begin..end]);
    }

    /** try_match_special: visits the special tokens in any order and keeps the longest that matches. */
    method TryMatchSpecial(text: seq<Byte>, pos: nat) returns (len: nat)
      requires pos <= |text|
      ensures len == MatchSpecial(View(), text, pos)
    {
      len := 0;
      var left := specials.Keys;
      while left != {}
        invariant left <= specials.Keys && pos + len <= |text|
        invariant 0 < len ==> text[pos..pos + len] in specials
        invariant forall s :: s in specials && s !in left && |s| > len ==> !StartsAt(text, pos, s)
        decreases |left|
      {
        var s :| s in left;
        left := left - {s};
        if |s| > len && StartsAt(text, pos, s) {
          len := |s|;
        }
      }
      LongestIs(View(), text, pos, len);
    }

    /** The scanning loop of encode. */
    method Encode(text: seq<Byte>) returns (r: Outcome<seq<Id>>)
      requires Valid()
      ensures r == Tokenizing.Encode(View(), text)
      ensures forall list :: r == Ok(list) <==> ids != map[] && EncodeTheorems.Encodes(View(), text, list)
    {
      EncodeTheorems.EncodeAll(View(), text);
      if ids == map[] { return Failed; }
      ghost var v := View();
      var out: seq<Id> := [];
      var pos, start := 0, 0;
      EmptyAfter(IdsOf(v, Pieces(v, text)));
      hide IdsOf, Tables, Segment;
      while pos < |text|
        invariant 0 <= start <= pos <= |text|
        invariant IdsOf(v, Pieces(v, text)) == After(out, IdsOf(v, PiecesFrom(v, text, pos, start)))
        decreases |text| - pos
      {
        hide PiecesFrom;
        var step := NextStep(text, pos, start);
        if step.Failed? { return Failed; }
        AfterTwice(out, step.value.ids, IdsOf(v, PiecesFrom(v, text, step.value.pos, step.value.start)));
        out, pos, start := out + step.value.ids, step.value.pos, step.value.start;
      }
      var last := Flush(text, start, pos);
      if last.Failed? { return Failed; }
      return Ok(out + last.value);
    }

    /** One turn of the scanning loop: what it emits and where it goes on. */
    method NextStep(text: seq<Byte>, pos: nat, start: nat) returns (r: Outcome<Step>)
      requires Valid() && start <= pos < |text|
      ensures r.Ok? ==> start <= r.value.start <= r.value.pos <= |text| && pos < r.value.pos
      ensures var rest := IdsOf(View(), PiecesFrom(View(), text, pos, start));
        if r.Failed? then rest == Failed
        else rest == After(r.value.ids, IdsOf(View(), PiecesFrom(View(), text, r.value.pos, r.value.start)))
    {
      hide PiecesFrom, Segment, IdsOf, Tables, MatchSpecial, WordFollows, SkipNewlines, SkipSpaces;
      ghost var v := View();
      var len := TryMatchSpecial(text, pos);
      if len > 0 {
        var first := Flush(text, start, pos);
        SpecialNext(v, text, pos, start, len);
        if first.Failed? { return Failed; }
        return Ok(Step(first.value + [specials[text[pos..pos + len]]], pos + len, pos + len));
      }
      PlainText(v, text, pos, start);
      if IsNewline(text[pos]) {
        var e := ScanNewlines(text, pos);
        r := TwoSegments(text, start, pos, e, e);
        return;
      }
      if IsSpace(text[pos]) {
        var e := ScanSpaces(text, pos);
        var word := HasNext(text, e);
        r := TwoSegments(text, start, pos, if word then e - 1 else e, e);
        return;
      }
      EmptyAfter(IdsOf(v, PiecesFrom(v, text, pos + 1, start)));
      return Ok(Step([], pos + 1, start));
    }

    /** Flushes text[start..pos] and text[pos..split], and goes on at next with a segment from split. */
    method TwoSegments(text: seq<Byte>, start: nat, pos: nat, split: nat, next: nat) returns (r: Outcome<Step>)
      requires Valid() && start <= pos <= split <= next <= |text|
      ensures r.Ok? ==> r.value.pos == next && r.value.start == split
      ensures var v := View();
        var rest := IdsOf(v, Segment(v, text, start, pos) + Segment(v, text, pos, split) + PiecesFrom(v, text, next,
            split));
        if r.Failed? then rest == Failed else rest == After(r.value.ids, IdsOf(v, PiecesFrom(v, text, next, split)))
    {
      hide PiecesFrom, Segment, IdsOf, Tables;
      var first := Flush(text, start, pos);
      ghost var v := View();
      ghost var a, b, tail := Segment(v, text, start, pos), Segment(v, text, pos, split),
          PiecesFrom(v, text, next, split);
      IdsOfAppend(v, a + b, tail);
      IdsOfAppend(v, a, b);
      if first.Failed? { return Failed; }
      var second := Flush(text, pos, split);
      if second.Failed? { return Failed; }
      return Ok(Step(first.value + second.value, next, split));
    }

    /** Looks ahead for a word before the next special token. */
    method HasNext(text: seq<Byte>, from: nat) returns (word: bool)
      requires from <= |text|
      ensures word == WordFollows(View(), text, from)
    {
      var k := from;
      while k < |text|
        invariant from <= k <= |text| && WordFollows(View(), text, k) == WordFollows(View(), text, from)
      {
        var len := TryMatchSpecial(text, k);
        if len > 0 { return false; }
        if !IsSpace(text[k]) && !IsNewline(text[k]) { return true; }
        k := k + 1;
      }
      return false;
    }

    // -------------------------------------------------------------- decoding

    method Decode(list: seq<Id>, skip: bool) returns (r: Outcome<seq<Byte>>)
      requires Valid()
      ensures r == Tokenizing.Decode(View(), list, skip)
    {
      if tokens == map[] { return Failed; }
      var stream := Gather(list, skip);
      if stream.Failed? { return Failed; }
      r := ReadBack(stream.value, skip);
    }

    /** The texts of the tokens, one after the other. */
    method Gather(list: seq<Id>, skip: bool) returns (r: Outcome<seq<Byte>>)
      ensures r == Stream(View(), list, skip)
    {
      ghost var v := View();
      var out: seq<Byte> := [];
      var i := 0;
      EmptyBefore(Stream(v, list, skip));
      assert list[0..] == list;
      hide Stream;
      while i < |list|
        invariant 0 <= i <= |list|
        invariant Stream(v, list, skip) == Before(out, Stream(v, list[i..], skip))
      {
        var id := list[i];
        StreamNext(v, list, i, skip);
        if id in specialTokens {
          BeforeTwice(out, if skip then [] else specialTokens[id], Stream(v, list[i + 1..], skip));
          if !skip { out := out + specialTokens[id]; } else { assert out + [] == out; }
        } else if id in tokens {
          BeforeTwice(out, tokens[id], Stream(v, list[i + 1..], skip));
          out := out + tokens[id];
        } else {
          return Failed;
        }
        i := i + 1;
      }
      assert list[i..] == [];
      StreamEnd(v, skip);
      assert out + [] == out;
      return Ok(out);
    }

    /** Character by character, back to bytes. */
    method ReadBack(stream: seq<Byte>, skip: bool) returns (r: Outcome<seq<Byte>>)
      requires Valid()
      ensures r == Characters(stream, skip)
    {
      hide Characters, Tables, CharLen, IsSymbol, ByteOf;
      var out: seq<Byte> := [];
      var i := 0;
      EmptyBefore(Characters(stream, skip));
      assert stream[0..] == stream;
      while i < |stream|
        invariant 0 <= i <= |stream|
        invariant Characters(stream, skip) == Before(out, Characters(stream[i..], skip))
        decreases |stream| - i
      {
        var len := CharLen(stream[i]);
        CharacterNext(stream, i, skip);
        if len == 0 || i + len > |stream| { return Failed; }
        var ch := stream[i..i + len];
        TableSymbol(byteToStr, strToByte, ch);
        if ch !in strToByte {
          if skip { return Failed; }
          BeforeTwice(out, ch, Characters(stream[i + len..], skip));
          out := out + ch;
        } else {
          BeforeTwice(out, [strToByte[ch]], Characters(stream[i + len..], skip));
          out := out + [strToByte[ch]];
        }
        i := i + len;
      }
      assert stream[i..] == [];
      CharactersEnd(skip);
      assert out + [] == out;
      return Ok(out);
    }
  }

  method ScanNewlines(text: seq<Byte>, pos: nat) returns (e: nat)
    requires pos <= |text|
    ensures e == SkipNewlines(text, pos)
  {
    e := pos;
    while e < |text| && IsNewline(text[e])
      invariant pos <= e <= |text| && SkipNewlines(text, e) == SkipNewlines(text, pos)
    {
      e := e + 1;
    }
  }

  method ScanSpaces(text: seq<Byte>, pos: nat) returns (e: nat)
    requires pos <= |text|
    ensures e == SkipSpaces(text, pos)
  {
    e := pos;
    while e < |text| && IsSpace(text[e])
      invariant pos <= e <= |text| && SkipSpaces(text, e) == SkipSpaces(text, pos)
    {
      e := e + 1;
    }
  }

  datatype Step = Step(ids: seq<Id>, pos: nat, start: nat)

  /** The first n tokens are loaded: identifiers are positions, the last of equal tokens counts, and
      exactly the tokens of kind 3 and above are special. */
  ghost predicate Loaded(v: Vocabulary, list: seq<Sym>, types: seq<int>, n: nat)
    requires n <= |list|
  {
    && Listed(v, list, n) && Inverse(v) && Marked(v, list, types, n)
    && Newest(v, list, types, n) && FirstUnknown(v.unknown, types, n)
  }

  ghost predicate Listed(v: Vocabulary, list: seq<Sym>, n: nat)
    requires n <= |list|
  {
    && (forall k | 0 <= k < n :: k in v.tokens && v.tokens[k] == list[k])
    && (forall id :: id in v.tokens ==> 0 <= id < n)
    && (forall s :: s in v.ids <==> s in list[..n])
  }

  ghost predicate Marked(v: Vocabulary, list: seq<Sym>, types: seq<int>, n: nat)
    requires n <= |list|
  {
    && (forall k | 0 <= k < n && k < |types| && types[k] >= 3 :: list[k] in v.specials)
    && (forall id :: id in v.specialTokens <==> 0 <= id < n && id < |types| && types[id] >= 3)
  }

  ghost predicate Newest(v: Vocabulary, list: seq<Sym>, types: seq<int>, n: nat)
    requires n <= |list|
  {
    && (forall k | 0 <= k < n :: list[k] in v.ids ==> k <= v.ids[list[k]])
    && (forall k | 0 <= k < n && k < |types| && types[k] >= 3 :: list[k] in v.specials ==> k <= v.specials[list[k]])
  }

  /** The unknown token is the first one of kind 2. */
  ghost predicate FirstUnknown(unknown: Id, types: seq<int>, n: nat) {
    && (unknown == -1 || (0 <= unknown < n && unknown < |types| && types[unknown] == 2))
    && (forall k | 0 <= k < n && k < |types| && types[k] == 2 :: 0 <= unknown <= k)
  }

  lemma LoadedNone(v: Vocabulary, list: seq<Sym>, types: seq<int>)
    requires v.ids == map[] && v.tokens == map[] && v.specials == map[] && v.specialTokens == map[] && v.unknown == -1
    ensures Loaded(v, list, types, 0)
  {
  }

  lemma LoadedNext(v: Vocabulary, v': Vocabulary, list: seq<Sym>, types: seq<int>, i: nat)
    requires i < |list| && Loaded(v, list, types, i)
    requires v'.ids == v.ids[list[i] := i] && v'.tokens == v.tokens[i := list[i]]
    requires if i < |types| && types[i] >= 3 then v'.specials == v.specials[list[i] := i]
        && v'.specialTokens == v.specialTokens[i := list[i]]
             else v'.specials == v.specials && v'.specialTokens == v.specialTokens
    requires v'.unknown == if i < |types| && types[i] == 2 && v.unknown < 0 then i else v.unknown
    ensures Loaded(v', list, types, i + 1)
  {
    hide Inverse, Newest, Marked, FirstUnknown;
    assert i !in v.tokens;
    InverseAdd(v, v', list[i], i);
    NewestNext(v, v', list, types, i);
    MarkedNext(v, v', list, types, i);
    UnknownNext(v.unknown, v'.unknown, types, i);
    assert list[..i + 1] == list[..i] + [list[i]];
  }

  lemma MarkedNext(v: Vocabulary, v': Vocabulary, list: seq<Sym>, types: seq<int>, i: nat)
    requires i < |list| && Marked(v, list, types, i)
    requires if i < |types| && types[i] >= 3 then v'.specials == v.specials[list[i] := i]
        && v'.specialTokens == v.specialTokens[i := list[i]]
             else v'.specials == v.specials && v'.specialTokens == v.specialTokens
    ensures Marked(v', list, types, i + 1)
  {
  }

  lemma UnknownNext(unknown: Id, unknown': Id, types: seq<int>, i: nat)
    requires FirstUnknown(unknown, types, i) && unknown' == if i < |types| && types[i] == 2 && unknown < 0 then i
        else unknown
    ensures FirstUnknown(unknown', types, i + 1)
  {
  }

  lemma NewestNext(v: Vocabulary, v': Vocabulary, list: seq<Sym>, types: seq<int>, i: nat)
    requires i < |list| && Newest(v, list, types, i) && v'.ids == v.ids[list[i] := i]
    requires v'.specials == if i < |types| && types[i] >= 3 then v.specials[list[i] := i] else v.specials
    ensures Newest(v', list, types, i + 1)
  {
  }

  lemma RankedNone(merges: seq<Sym>)
    ensures Ranked(map[], merges, 0)
  {
  }

  lemma LoadedAll(v: Vocabulary, v': Vocabulary, list: seq<Sym>, types: seq<int>)
    requires Loaded(v, list, types, |list|) && v' == v.(ranks := v'.ranks)
    ensures Inverse(v') && (v'.ids != map[] <==> list != []) && Loaded(v', list, types, |list|)
  {
    hide FirstUnknown;
    assert list[..|list|] == list;
    if list != [] {
      assert list[0] in list && list[0] in v.ids;
    } else {
      assert forall s :: s !in v.ids;
    }
  }

  /** A fresh identifier for a token, special or not. */
  lemma InverseAdd(v: Vocabulary, v': Vocabulary, s: Sym, i: Id)
    requires Inverse(v) && v'.ids == v.ids[s := i] && v'.tokens == v.tokens[i := s]
    requires i !in v.tokens
    requires || (v'.specials == v.specials && v'.specialTokens == v.specialTokens)
             || (v'.specials == v.specials[s := i] && v'.specialTokens == v.specialTokens[i := s])
    ensures Inverse(v')
  {
    assert i !in v.specialTokens;
  }

  lemma PlainNext(v: Vocabulary, symbols: seq<Sym>, i: nat)
    requires i < |symbols|
    ensures var s := symbols[i]; var rest := IdsOf(v, Plains(symbols[i + 1..]));
      IdsOf(v, Plains(symbols[i..])) ==
        if s in v.ids then After([v.ids[s]], rest) else if v.unknown >= 0 then After([v.unknown], rest) else Failed
  {
    var tail := symbols[i..];
    assert tail[1..] == symbols[i + 1..] && tail[0] == symbols[i];
    assert Plains(tail) == [Plain(tail[0])] + Plains(tail[1..]) && Plains(tail)[1..] == Plains(tail[1..]);
  }

  lemma PlainEnd(v: Vocabulary)
    ensures IdsOf(v, Plains([])) == Ok([])
  {
  }

  lemma StreamNext(v: Vocabulary, list: seq<Id>, i: nat, skip: bool)
    requires i < |list|
    ensures var first := TokenText(v, list[i], skip);
      Stream(v, list[i..], skip) == if first.Failed? then Failed
          else Before(first.value, Stream(v, list[i + 1..], skip))
  {
    assert list[i..][1..] == list[i + 1..];
  }

  lemma StreamEnd(v: Vocabulary, skip: bool)
    ensures Stream(v, [], skip) == Ok([])
  {
  }

  lemma CharactersEnd(skip: bool)
    ensures Characters([], skip) == Ok([])
  {
  }

  lemma CharacterNext(stream: seq<Byte>, i: nat, skip: bool)
    requires i < |stream|
    ensures var len := CharLen(stream[i]);
      Characters(stream[i..], skip) ==
        if len == 0 || i + len > |stream| then Failed
        else
          var ch := stream[i..i + len];
          if IsSymbol(ch) then Before([ByteOf(ch)], Characters(stream[i + len..], skip))
          else if skip then Failed
          else Before(ch, Characters(stream[i + len..], skip))
  {
    var len := CharLen(stream[i]);
    if len != 0 && i + len <= |stream| {
      assert stream[i..][..len] == stream[i..i + len] && stream[i..][len..] == stream[i + len..];
    }
  }

  /** starts_with_at. */
  predicate StartsAt(text: seq<Byte>, pos: nat, s: Sym) {
    pos + |s| <= |text| && text[pos..pos + |s|] == s
  }

  /** What follows a position where no special token starts. */
  lemma PlainText(v: Vocabulary, text: seq<Byte>, pos: nat, start: nat)
    requires start <= pos < |text| && MatchSpecial(v, text, pos) == 0
    ensures var e, f := SkipNewlines(text, pos), SkipSpaces(text, pos);
      PiecesFrom(v, text, pos, start) ==
        if IsNewline(text[pos]) then Segment(v, text, start, pos) + Segment(v, text, pos, e) + PiecesFrom(v, text, e, e)
        else if IsSpace(text[pos]) then
          if WordFollows(v, text, f) then
            Segment(v, text, start, pos) + Segment(v, text, pos, f - 1) + PiecesFrom(v, text, f, f - 1)
          else Segment(v, text, start, pos) + Segment(v, text, pos, f) + PiecesFrom(v, text, f, f)
        else PiecesFrom(v, text, pos + 1, start)
  {
    hide Segment, WordFollows;
  }

  lemma EmptyAfter(rest: Outcome<seq<Id>>)
    ensures After([], rest) == rest
  {
    assert rest.Ok? ==> [] + rest.value == rest.value;
  }

  lemma EmptyBefore(rest: Outcome<seq<Byte>>)
    ensures Before([], rest) == rest
  {
    assert rest.Ok? ==> [] + rest.value == rest.value;
  }

  /** Whatever matches and is longest is what MatchSpecial finds. */
  lemma LongestIs(v: Vocabulary, text: seq<Byte>, pos: nat, len: nat)
    requires pos + len <= |text| && (0 < len ==> text[pos..pos + len] in v.specials)
    requires forall s :: s in v.specials && |s| > len ==> !StartsAt(text, pos, s)
    ensures len == MatchSpecial(v, text, pos)
  {
    var m := MatchSpecial(v, text, pos);
    var s := text[pos..pos + m];
    assert |s| == m && StartsAt(text, pos, s);
    assert 0 < len ==> text[pos..pos + len] in v.specials;
  }

  lemma SpecialNext(v: Vocabulary, text: seq<Byte>, pos: nat, start: nat, len: nat)
    requires start <= pos < |text| && len == MatchSpecial(v, text, pos) && 0 < len
    ensures var s := text[pos..pos + len]; var first := IdsOf(v, Segment(v, text, start, pos));
      IdsOf(v, PiecesFrom(v, text, pos, start)) ==
        if first.Failed? then Failed
        else After(first.value + [v.specials[s]], IdsOf(v, PiecesFrom(v, text, pos + len, pos + len)))
  {
    hide Segment;
    var s := text[pos..pos + len];
    var first, tail := Segment(v, text, start, pos), PiecesFrom(v, text, pos + len, pos + len);
    IdsOfAppend(v, first + [Special(s)], tail);
    IdsOfAppend(v, first, [Special(s)]);
    OneId(v, s);
    hide IdsOf;
    if IdsOf(v, first).Ok? && IdsOf(v, tail).Ok? {
      assert IdsOf(v, first).value + [v.specials[s]] + IdsOf(v, tail).value
          == IdsOf(v, first).value + ([v.specials[s]] + IdsOf(v, tail).value);
    }
  }

  lemma OneId(v: Vocabulary, s: Sym)
    requires s in v.specials
    ensures IdsOf(v, [Special(s)]) == Ok([v.specials[s]])
  {
    assert [Special(s)][1..] == [];
    assert [v.specials[s]] + [] == [v.specials[s]];
  }

  lemma TableSymbol(byteToStr: map<Byte, seq<Byte>>, strToByte: map<seq<Byte>, Byte>, ch: seq<Byte>)
    requires Tables(byteToStr, strToByte)
    ensures ch in strToByte <==> IsSymbol(ch)
    ensures ch in strToByte ==> strToByte[ch] == ByteOf(ch)
  {
    if ch in strToByte {
      assert Symbol(strToByte[ch]) == ch;
      ByteOfSymbol(strToByte[ch]);
    }
  }

  /** A freshly loaded tokenizer with literal special tokens whose vocabulary is complete gives every
      text back. */
  method EncodeThenDecode(t: ByteLevelBpeTokenizer, text: seq<Byte>) returns (r: Outcome<seq<Byte>>)
    requires t.Valid() && Complete(t.View()) && Inverse(t.View()) && LiteralSpecials(t.View())
    ensures r == Ok(text)
  {
    CompleteRoundTrip(t.View(), text);
    var list := t.Encode(text);
    r := t.Decode(list.value, false);
  }
}
