/** Segmentation, encoding and decoding of text, and the round trip between them. */
module Tokenizing {
  import opened ByteAlphabet
  import opened Bpe

  type Id = int

  datatype Outcome<+T> = Ok(value: T) | Failed

  /** The tables of a loaded tokenizer. */
  datatype Vocabulary = Vocabulary(
    ids: map<Sym, Id>, tokens: map<Id, Sym>, ranks: Ranks,
    specials: map<Sym, Id>, specialTokens: map<Id, Sym>, unknown: Id)

  // ---------------------------------------------------------------- segmentation

  /** What a text is cut into: special tokens, and symbols of ordinary text. */
  datatype Piece = Special(sym: Sym) | Plain(sym: Sym)

  /** Length of the longest special token of at most n bytes at a position; 0 if there is none. */
  function LongestSpecial(v: Vocabulary, text: seq<Byte>, pos: nat, n: nat): (len: nat)
    requires pos + n <= |text|
    ensures len <= n
    ensures 0 < len ==> text[pos..pos + len] in v.specials
    ensures forall e | pos + len < e <= pos + n :: text[pos..e] !in v.specials
  {
    if n == 0 then 0
    else if text[pos..pos + n] in v.specials then n
    else LongestSpecial(v, text, pos, n - 1)
  }

  function MatchSpecial(v: Vocabulary, text: seq<Byte>, pos: nat): (len: nat)
    requires pos <= |text|
    ensures pos + len <= |text|
    ensures 0 < len ==> text[pos..pos + len] in v.specials
    ensures forall e | pos + len < e <= |text| :: text[pos..e] !in v.specials
  {
    LongestSpecial(v, text, pos, |text| - pos)
  }

  predicate IsSpace(c: Byte) {
    c == 32 || c == 9
  }

  predicate IsNewline(c: Byte) {
    c == 10 || c == 13
  }

  function SkipNewlines(text: seq<Byte>, pos: nat): (e: nat)
    requires pos <= |text|
    ensures pos <= e <= |text|
    ensures pos < |text| && IsNewline(text[pos]) ==> pos < e
    decreases |text| - pos
  {
    if pos < |text| && IsNewline(text[pos]) then SkipNewlines(text, pos + 1) else pos
  }

  function SkipSpaces(text: seq<Byte>, pos: nat): (e: nat)
    requires pos <= |text|
    ensures pos <= e <= |text|
    ensures pos < |text| && IsSpace(text[pos]) ==> pos < e
    decreases |text| - pos
  {
    if pos < |text| && IsSpace(text[pos]) then SkipSpaces(text, pos + 1) else pos
  }

  /** A word follows before the next special token. */
  predicate WordFollows(v: Vocabulary, text: seq<Byte>, k: nat)
    requires k <= |text|
    decreases |text| - k
  {
    k < |text| && MatchSpecial(v, text, k) == 0
    && ((!IsSpace(text[k]) && !IsNewline(text[k])) || WordFollows(v, text, k + 1))
  }

  function ByteSymbols(bytes: seq<Byte>): seq<Sym> {
    if bytes == [] then [] else [Symbol(bytes[0])] + ByteSymbols(bytes[1..])
  }

  function Plains(symbols: seq<Sym>): seq<Piece> {
    if symbols == [] then [] else [Plain(symbols[0])] + Plains(symbols[1..])
  }

  /** One segment of ordinary text. */
  function Segment(v: Vocabulary, text: seq<Byte>, begin: nat, end: nat): seq<Piece>
    requires begin <= end <= |text|
  {
    if begin == end then [] else Plains(Merged(v.ranks, ByteSymbols(text[begin..end])))
  }

  /** The pieces of text[start..], when text[start..pos] is the segment under way. */
  function PiecesFrom(v: Vocabulary, text: seq<Byte>, pos: nat, start: nat): seq<Piece>
    requires start <= pos <= |text|
    decreases |text| - pos
  {
    if pos == |text| then Segment(v, text, start, pos)
    else
      var len := MatchSpecial(v, text, pos);
      if len > 0 then
        Segment(v, text, start, pos) + [Special(text[pos..pos + len])] + PiecesFrom(v, text, pos + len, pos + len)
      else if IsNewline(text[pos]) then
        var e := SkipNewlines(text, pos);
        Segment(v, text, start, pos) + Segment(v, text, pos, e) + PiecesFrom(v, text, e, e)
      else if IsSpace(text[pos]) then
        var e := SkipSpaces(text, pos);
        if !WordFollows(v, text, e) then
          Segment(v, text, start, pos) + Segment(v, text, pos, e) + PiecesFrom(v, text, e, e)
        else
          Segment(v, text, start, pos) + Segment(v, text, pos, e - 1) + PiecesFrom(v, text, e, e - 1)
      else PiecesFrom(v, text, pos + 1, start)
  }

  function Pieces(v: Vocabulary, text: seq<Byte>): seq<Piece> {
    PiecesFrom(v, text, 0, 0)
  }

  // ---------------------------------------------------------------- encoding

  function IdOf(v: Vocabulary, p: Piece): Outcome<Id> {
    match p
    case Special(s) => if s in v.specials then Ok(v.specials[s]) else Failed
    case Plain(s) =>
      if s in v.ids then Ok(v.ids[s]) else if v.unknown >= 0 then Ok(v.unknown) else Failed
  }

  function IdsOf(v: Vocabulary, ps: seq<Piece>): Outcome<seq<Id>> {
    if ps == [] then Ok([])
    else
      var first, rest := IdOf(v, ps[0]), IdsOf(v, ps[1..]);
      if first.Failed? || rest.Failed? then Failed else Ok([first.value] + rest.value)
  }

  function Encode(v: Vocabulary, text: seq<Byte>): Outcome<seq<Id>> {
    if v.ids == map[] then Failed else IdsOf(v, Pieces(v, text))
  }

  // ---------------------------------------------------------------- decoding

  function TokenText(v: Vocabulary, id: Id, skip: bool): Outcome<seq<Byte>> {
    if id in v.specialTokens then Ok(if skip then [] else v.specialTokens[id])
    else if id in v.tokens then Ok(v.tokens[id])
    else Failed
  }

  function Stream(v: Vocabulary, ids: seq<Id>, skip: bool): Outcome<seq<Byte>> {
    if ids == [] then Ok([])
    else
      var first, rest := TokenText(v, ids[0], skip), Stream(v, ids[1..], skip);
      if first.Failed? || rest.Failed? then Failed else Ok(first.value + rest.value)
  }

  ghost predicate IsSymbol(s: seq<Byte>) {
    exists b: Byte :: Symbol(b) == s
  }

  ghost function ByteOf(s: seq<Byte>): Byte
    requires IsSymbol(s)
  {
    var b: Byte :| Symbol(b) == s; b
  }

  lemma ByteOfSymbol(b: Byte)
    ensures IsSymbol(Symbol(b)) && ByteOf(Symbol(b)) == b
  {
    SymbolInjective(ByteOf(Symbol(b)), b);
  }

  /** Reads characters back; one that stands for no byte is kept as it is, unless special tokens are
      skipped. */
  ghost function Characters(stream: seq<Byte>, skip: bool): Outcome<seq<Byte>>
    decreases |stream|
  {
    if stream == [] then Ok([])
    else
      var len := CharLen(stream[0]);
      if len == 0 || len > |stream| then Failed
      else
        var ch := stream[..len];
        var rest := Characters(stream[len..], skip);
        if rest.Failed? || (!IsSymbol(ch) && skip) then Failed
        else Ok((if IsSymbol(ch) then [ByteOf(ch)] else ch) + rest.value)
  }

  ghost function Decode(v: Vocabulary, ids: seq<Id>, skip: bool): Outcome<seq<Byte>> {
    if v.tokens == map[] then Failed
    else
      var stream := Stream(v, ids, skip);
      if stream.Failed? then Failed else Characters(stream.value, skip)
  }

  // ---------------------------------------------------------------- round trip

  /** A text in the byte alphabet. */
  function Spell(bytes: seq<Byte>): seq<Byte> {
    if bytes == [] then [] else Symbol(bytes[0]) + Spell(bytes[1..])
  }

  lemma {:induction false} SpellConcat(bytes: seq<Byte>)
    ensures Concat(ByteSymbols(bytes)) == Spell(bytes)
  {
    if bytes != [] {
      SpellConcat(bytes[1..]);
      assert ([Symbol(bytes[0])] + ByteSymbols(bytes[1..]))[1..] == ByteSymbols(bytes[1..]);
    }
  }

  /** What the pieces read as, one after the other. */
  function Written(ps: seq<Piece>): seq<Byte> {
    if ps == [] then [] else ps[0].sym + Written(ps[1..])
  }

  lemma {:induction false} WrittenAppend(a: seq<Piece>, b: seq<Piece>)
    ensures Written(a + b) == Written(a) + Written(b)
  {
    if a == [] {
      assert a + b == b;
    } else {
      WrittenAppend(a[1..], b);
      assert (a + b)[1..] == a[1..] + b && (a + b)[0] == a[0];
    }
  }

  lemma {:induction false} WrittenPlains(symbols: seq<Sym>)
    ensures Written(Plains(symbols)) == Concat(symbols)
  {
    if symbols != [] {
      WrittenPlains(symbols[1..]);
      assert ([Plain(symbols[0])] + Plains(symbols[1..]))[1..] == Plains(symbols[1..]);
    }
  }

  lemma SegmentWritten(v: Vocabulary, text: seq<Byte>, begin: nat, end: nat)
    requires begin <= end <= |text|
    ensures Written(Segment(v, text, begin, end)) == Spell(text[begin..end])
  {
    var symbols := ByteSymbols(text[begin..end]);
    MergedOk(v.ranks, symbols);
    WrittenPlains(Merged(v.ranks, symbols));
    SpellConcat(text[begin..end]);
    assert begin == end ==> text[begin..end] == [];
  }

  /** A string of whole characters, none of which is a longer character of the byte alphabet. */
  ghost predicate Literal(s: seq<Byte>)
    decreases |s|
  {
    s == [] ||
    var len := CharLen(s[0]);
    0 < len <= |s| && (len == 1 || !IsSymbol(s[..len])) && Literal(s[len..])
  }

  ghost predicate LiteralSpecials(v: Vocabulary) {
    forall s :: s in v.specials && s != [] ==> Literal(s)
  }

  /** ASCII strings are literal. */
  lemma {:induction false} AsciiLiteral(s: seq<Byte>)
    requires forall i | 0 <= i < |s| :: s[i] < 128
    ensures Literal(s)
  {
    if s != [] { AsciiLiteral(s[1..]); }
  }

  /** Put bytes in front of an outcome. */
  function Before(bytes: seq<Byte>, rest: Outcome<seq<Byte>>): Outcome<seq<Byte>> {
    if rest.Failed? then Failed else Ok(bytes + rest.value)
  }

  lemma ReadSymbol(b: Byte, rest: seq<Byte>, skip: bool)
    ensures Characters(Symbol(b) + rest, skip) == Before([b], Characters(rest, skip))
  {
    SymbolDecodable(b);
    ByteOfSymbol(b);
    var stream := Symbol(b) + rest;
    var len := |Symbol(b)|;
    assert stream[0] == Symbol(b)[0] && stream[..len] == Symbol(b) && stream[len..] == rest;
  }

  lemma {:induction false} ReadSpelled(bytes: seq<Byte>, rest: seq<Byte>, skip: bool)
    ensures Characters(Spell(bytes) + rest, skip) == Before(bytes, Characters(rest, skip))
    decreases |bytes|
  {
    if bytes == [] {
      assert Spell(bytes) + rest == rest;
      assert Characters(rest, skip).Ok? ==> [] + Characters(rest, skip).value == Characters(rest, skip).value;
    } else {
      var tail := Spell(bytes[1..]) + rest;
      assert Spell(bytes) + rest == Symbol(bytes[0]) + tail;
      ReadSymbol(bytes[0], tail, skip);
      ReadSpelled(bytes[1..], rest, skip);
      BeforeTwice([bytes[0]], bytes[1..], Characters(rest, skip));
      assert [bytes[0]] + bytes[1..] == bytes;
    }
  }

  lemma BeforeTwice(a: seq<Byte>, b: seq<Byte>, rest: Outcome<seq<Byte>>)
    ensures Before(a, Before(b, rest)) == Before(a + b, rest)
  {
    if rest.Ok? { assert a + (b + rest.value) == a + b + rest.value; }
  }

  /** An ASCII character reads as itself, whether or not it stands for a byte. */
  lemma ReadAscii(c: Byte, rest: seq<Byte>)
    requires c < 128
    ensures Characters([c] + rest, false) == Before([c], Characters(rest, false))
  {
    var stream := [c] + rest;
    assert stream[..1] == [c] && stream[1..] == rest;
    if IsSymbol([c]) { SymbolAscii(ByteOf([c]), c); }
  }

  /** A literal character reads as itself. */
  lemma ReadCharacter(s: seq<Byte>, rest: seq<Byte>)
    requires s != [] && Literal(s)
    ensures var len := CharLen(s[0]);
      0 < len <= |s| && Characters(s + rest, false) == Before(s[..len], Characters(s[len..] + rest, false))
  {
    var len := CharLen(s[0]);
    var ch := s[..len];
    assert (s + rest)[..len] == ch && (s + rest)[len..] == s[len..] + rest && (s + rest)[0] == s[0];
    if len == 1 {
      assert ch == [s[0]];
      assert s + rest == [s[0]] + (s[1..] + rest);
      AsciiOne(s[0]);
      ReadAscii(s[0], s[1..] + rest);
    }
  }

  lemma AsciiOne(c: Byte)
    ensures CharLen(c) == 1 <==> c < 128
  {
  }

  lemma {:induction false} ReadLiteral(s: seq<Byte>, rest: seq<Byte>)
    requires Literal(s)
    ensures Characters(s + rest, false) == Before(s, Characters(rest, false))
    decreases |s|
  {
    hide Characters;
    if s == [] {
      assert s + rest == rest;
      assert Characters(rest, false).Ok? ==> [] + Characters(rest, false).value == Characters(rest, false).value;
    } else {
      var len := CharLen(s[0]);
      ReadCharacter(s, rest);
      ReadLiteral(s[len..], rest);
      BeforeTwice(s[..len], s[len..], Characters(rest, false));
      assert s[..len] + s[len..] == s;
    }
  }

  /** Reading never makes a string longer. */
  lemma {:induction false} ReadShrinks(s: seq<Byte>, skip: bool)
    ensures Characters(s, skip).Ok? ==> |Characters(s, skip).value| <= |s|
    decreases |s|
  {
    if s != [] && 0 < CharLen(s[0]) <= |s| { ReadShrinks(s[CharLen(s[0])..], skip); }
  }

  /** A string reads as itself exactly when it is literal. */
  lemma {:induction false} LiteralExact(s: seq<Byte>)
    ensures Characters(s, false) == Ok(s) <==> Literal(s)
    decreases |s|
  {
    if s != [] && 0 < CharLen(s[0]) <= |s| {
      var len := CharLen(s[0]);
      var ch, tail := s[..len], s[len..];
      assert s == ch + tail;
      LiteralExact(tail);
      ReadShrinks(tail, false);
      if len == 1 {
        AsciiOne(s[0]);
        assert ch == [s[0]];
        ReadAscii(s[0], tail);
        assert Characters(tail, false).Ok? ==>
            (([s[0]] + Characters(tail, false).value == [s[0]] + tail) <==> Characters(tail, false).value == tail)
          by { if Characters(tail, false).Ok? { SameTail([s[0]], Characters(tail, false).value, tail); } }
      } else if !IsSymbol(ch) && Characters(tail, false).Ok? {
        SameTail(ch, Characters(tail, false).value, tail);
      }
    }
  }

  lemma SameTail(a: seq<Byte>, b: seq<Byte>, c: seq<Byte>)
    ensures a + b == a + c <==> b == c
  {
    if a + b == a + c {
      assert b == (a + b)[|a|..] && c == (a + c)[|a|..];
    }
  }

  /** Two adjacent stretches of ordinary text read as one. */
  lemma {:induction false} SpellAppend(a: seq<Byte>, b: seq<Byte>)
    ensures Spell(a + b) == Spell(a) + Spell(b)
  {
    if a == [] {
      assert a + b == b;
    } else {
      SpellAppend(a[1..], b);
      assert (a + b)[1..] == a[1..] + b && (a + b)[0] == a[0];
    }
  }

  /** Reading a run of segments before the rest of the text. */
  lemma ReadSegments(v: Vocabulary, text: seq<Byte>, a: nat, b: nat, d: nat, rest: seq<Piece>)
    requires a <= b <= d <= |text|
    requires Characters(Written(rest), false) == Ok(text[d..])
    ensures Characters(Written(Segment(v, text, a, b) + Segment(v, text, b, d) + rest), false) == Ok(text[a..])
  {
    hide Segment, Spell, Written, Characters;
    SegmentWritten(v, text, a, b);
    SegmentWritten(v, text, b, d);
    var first, second := Segment(v, text, a, b), Segment(v, text, b, d);
    WrittenAppend(first + second, rest);
    WrittenAppend(first, second);
    SpellAppend(text[a..b], text[b..d]);
    assert text[a..b] + text[b..d] == text[a..d];
    ReadSpelled(text[a..d], Written(rest), false);
    assert text[a..d] + text[d..] == text[a..];
  }

  lemma ReadSpecial(text: seq<Byte>, pos: nat, len: nat, rest: seq<Piece>)
    requires pos + len <= |text| && Literal(text[pos..pos + len])
    requires Characters(Written(rest), false) == Ok(text[pos + len..])
    ensures Characters(Written([Special(text[pos..pos + len])] + rest), false) == Ok(text[pos..])
  {
    hide Literal, Characters;
    var s := text[pos..pos + len];
    var all := [Special(s)] + rest;
    assert all[1..] == rest && Written(all) == s + Written(rest);
    ReadLiteral(s, Written(rest));
    assert s + text[pos + len..] == text[pos..];
  }

  /** The pieces cover the text exactly, whatever the vocabulary: read back they are the text. */
  lemma {:induction false} PiecesRead(v: Vocabulary, text: seq<Byte>, pos: nat, start: nat)
    requires start <= pos <= |text| && LiteralSpecials(v)
    ensures Characters(Written(PiecesFrom(v, text, pos, start)), false) == Ok(text[start..])
    decreases |text| - pos
  {
    hide Segment, Characters, Written, WordFollows, LiteralSpecials;
    if pos == |text| {
      NothingLeft();
      assert text[pos..] == [];
      ReadSegments(v, text, start, pos, pos, []);
      EmptySegment(v, text, pos);
      assert Segment(v, text, start, pos) + [] + [] == Segment(v, text, start, pos);
    } else {
      var len := MatchSpecial(v, text, pos);
      if len > 0 {
        var rest := PiecesFrom(v, text, pos + len, pos + len);
        PiecesRead(v, text, pos + len, pos + len);
        SpecialLiteral(v, text, pos, len);
        ReadSpecial(text, pos, len, rest);
        ReadSegments(v, text, start, pos, pos, [Special(text[pos..pos + len])] + rest);
        EmptySegment(v, text, pos);
        assert Segment(v, text, start, pos) + [] + ([Special(text[pos..pos + len])] + rest)
            == Segment(v, text, start, pos) + [Special(text[pos..pos + len])] + rest;
      } else if IsNewline(text[pos]) {
        var e := SkipNewlines(text, pos);
        PiecesRead(v, text, e, e);
        ReadSegments(v, text, start, pos, e, PiecesFrom(v, text, e, e));
      } else if IsSpace(text[pos]) {
        var e := SkipSpaces(text, pos);
        if !WordFollows(v, text, e) {
          PiecesRead(v, text, e, e);
          ReadSegments(v, text, start, pos, e, PiecesFrom(v, text, e, e));
        } else {
          PiecesRead(v, text, e, e - 1);
          ReadSegments(v, text, start, pos, e - 1, PiecesFrom(v, text, e, e - 1));
        }
      } else {
        PiecesRead(v, text, pos + 1, start);
      }
    }
  }

  lemma NothingLeft()
    ensures Written([]) == [] && Characters([], false) == Ok([])
  {
  }

  lemma EmptySegment(v: Vocabulary, text: seq<Byte>, pos: nat)
    requires pos <= |text|
    ensures Segment(v, text, pos, pos) == []
  {
  }

  lemma SpecialLiteral(v: Vocabulary, text: seq<Byte>, pos: nat, len: nat)
    requires LiteralSpecials(v) && 0 < len && pos + len <= |text| && text[pos..pos + len] in v.specials
    ensures Literal(text[pos..pos + len])
  {
  }

  /** The identifier tables invert the token tables. */
  ghost predicate Inverse(v: Vocabulary) {
    && (forall s :: s in v.ids ==> v.ids[s] in v.tokens && v.tokens[v.ids[s]] == s)
    && (forall s :: s in v.specials ==> v.specials[s] in v.specialTokens && v.specialTokens[v.specials[s]] == s)
    && (forall id :: id in v.specialTokens ==> id in v.tokens && v.tokens[id] == v.specialTokens[id])
  }

  /** Every symbol of ordinary text that comes out is in the vocabulary. */
  ghost predicate Known(v: Vocabulary, ps: seq<Piece>) {
    forall p :: p in ps ==> if p.Special? then p.sym in v.specials else p.sym in v.ids
  }

  lemma {:induction false} IdsStream(v: Vocabulary, ps: seq<Piece>)
    requires Inverse(v) && Known(v, ps)
    ensures IdsOf(v, ps).Ok? && Stream(v, IdsOf(v, ps).value, false) == Ok(Written(ps))
  {
    if ps != [] {
      assert ps[0] in ps;
      IdsStream(v, ps[1..]);
      var ids, rest := IdsOf(v, ps).value, IdsOf(v, ps[1..]).value;
      assert ids == [IdOf(v, ps[0]).value] + rest && ids[1..] == rest;
    }
  }

  /** Specials found by segmentation are specials. */
  lemma {:induction false} PiecesSpecial(v: Vocabulary, text: seq<Byte>, pos: nat, start: nat)
    requires start <= pos <= |text|
    ensures forall p :: p in PiecesFrom(v, text, pos, start) && p.Special? ==> p.sym in v.specials
    decreases |text| - pos
  {
    hide WordFollows, Segment;
    if pos < |text| {
      var len := MatchSpecial(v, text, pos);
      var e, f := SkipNewlines(text, pos), SkipSpaces(text, pos);
      SegmentPlain(v, text, start, pos);
      if len > 0 {
        PiecesSpecial(v, text, pos + len, pos + len);
      } else if IsNewline(text[pos]) {
        SegmentPlain(v, text, pos, e);
        PiecesSpecial(v, text, e, e);
      } else if IsSpace(text[pos]) {
        SegmentPlain(v, text, pos, f);
        SegmentPlain(v, text, pos, f - 1);
        PiecesSpecial(v, text, f, if WordFollows(v, text, f) then f - 1 else f);
      } else {
        PiecesSpecial(v, text, pos + 1, start);
      }
    } else {
      SegmentPlain(v, text, start, pos);
    }
  }

  lemma SegmentPlain(v: Vocabulary, text: seq<Byte>, begin: nat, end: nat)
    requires begin <= end <= |text|
    ensures forall p :: p in Segment(v, text, begin, end) ==>
        p.Plain?
        && p.sym in Merged(v.ranks, ByteSymbols(text[begin..end]))
  {
    hide Merged, ByteSymbols;
    PlainsPlain(Merged(v.ranks, ByteSymbols(text[begin..end])));
  }

  lemma {:induction false} PlainsPlain(symbols: seq<Sym>)
    ensures forall p :: p in Plains(symbols) ==> p.Plain? && p.sym in symbols
  {
    if symbols != [] { PlainsPlain(symbols[1..]); }
  }

  /** Encoding succeeds exactly when there is an unknown token to fall back on or every symbol of the text
      is in the vocabulary. */
  lemma {:induction false} IdsOfOk(v: Vocabulary, ps: seq<Piece>)
    requires forall p :: p in ps && p.Special? ==> p.sym in v.specials
    ensures IdsOf(v, ps).Ok? <==> v.unknown >= 0 || forall p :: p in ps && p.Plain? ==> p.sym in v.ids
  {
    if ps != [] {
      assert ps == [ps[0]] + ps[1..];
      IdsOfOk(v, ps[1..]);
    }
  }

  lemma EncodeOk(v: Vocabulary, text: seq<Byte>)
    requires v.ids != map[]
    ensures Encode(v, text).Ok? <==> v.unknown >= 0 || forall p :: p in Pieces(v, text) && p.Plain? ==> p.sym in v.ids
  {
    PiecesSpecial(v, text, 0, 0);
    IdsOfOk(v, Pieces(v, text));
  }

  /** Decoding what was encoded gives the text back, for every byte string whose symbols are known. */
  lemma RoundTrip(v: Vocabulary, text: seq<Byte>)
    requires v.ids != map[] && Inverse(v) && LiteralSpecials(v)
    requires forall p :: p in Pieces(v, text) && p.Plain? ==> p.sym in v.ids
    ensures Encode(v, text).Ok? && Decode(v, Encode(v, text).value, false) == Ok(text)
  {
    hide Characters;
    PiecesSpecial(v, text, 0, 0);
    IdsStream(v, Pieces(v, text));
    PiecesRead(v, text, 0, 0);
    assert text[0..] == text;
    var s :| s in v.ids;
    assert v.ids[s] in v.tokens;
  }

  /** The vocabulary has all byte symbols and all merge results. */
  ghost predicate Complete(v: Vocabulary) {
    (forall b: Byte :: Symbol(b) in v.ids) && Closed(v.ranks, v.ids.Keys)
  }

  lemma {:induction false} ByteSymbolsKnown(v: Vocabulary, bytes: seq<Byte>)
    requires Complete(v)
    ensures forall s :: s in ByteSymbols(bytes) ==> s in v.ids.Keys
  {
    if bytes != [] { ByteSymbolsKnown(v, bytes[1..]); }
  }

  lemma SegmentKnown(v: Vocabulary, text: seq<Byte>, begin: nat, end: nat)
    requires begin <= end <= |text| && Complete(v)
    ensures forall p :: p in Segment(v, text, begin, end) ==> p.sym in v.ids
  {
    hide Merged;
    ByteSymbolsKnown(v, text[begin..end]);
    MergedKnown(v.ranks, ByteSymbols(text[begin..end]), v.ids.Keys);
    SegmentPlain(v, text, begin, end);
  }

  lemma {:induction false} PiecesKnown(v: Vocabulary, text: seq<Byte>, pos: nat, start: nat)
    requires start <= pos <= |text| && Complete(v)
    ensures forall p :: p in PiecesFrom(v, text, pos, start) && p.Plain? ==> p.sym in v.ids
    decreases |text| - pos
  {
    hide Segment, Complete, WordFollows;
    SegmentKnown(v, text, start, pos);
    if pos < |text| {
      var len := MatchSpecial(v, text, pos);
      var e, f := SkipNewlines(text, pos), SkipSpaces(text, pos);
      if len > 0 {
        PiecesKnown(v, text, pos + len, pos + len);
      } else if IsNewline(text[pos]) {
        SegmentKnown(v, text, pos, e);
        PiecesKnown(v, text, e, e);
      } else if IsSpace(text[pos]) {
        SegmentKnown(v, text, pos, f);
        SegmentKnown(v, text, pos, f - 1);
        PiecesKnown(v, text, f, if WordFollows(v, text, f) then f - 1 else f);
      } else {
        PiecesKnown(v, text, pos + 1, start);
      }
    }
  }

  /** With a complete vocabulary every byte string can be encoded, and decodes to itself. */
  lemma CompleteRoundTrip(v: Vocabulary, text: seq<Byte>)
    requires Complete(v) && Inverse(v) && LiteralSpecials(v)
    ensures Encode(v, text).Ok? && Decode(v, Encode(v, text).value, false) == Ok(text)
  {
    assert Symbol(0) in v.ids;
    PiecesKnown(v, text, 0, 0);
    RoundTrip(v, text);
  }

  /** A text that is one special token is one piece. */
  lemma SpecialPiece(v: Vocabulary, s: seq<Byte>)
    requires s in v.specials && s != []
    ensures Pieces(v, s) == [Special(s)]
  {
    assert s[0..|s|] == s;
    var len := MatchSpecial(v, s, 0);
    assert len == |s|;
    EmptySegment(v, s, 0);
    EmptySegment(v, s, |s|);
    assert PiecesFrom(v, s, |s|, |s|) == [];
    assert [] + [Special(s)] + [] == [Special(s)];
  }

  /** With a complete vocabulary, every byte string decodes to itself exactly when every special token
      reads as itself. */
  lemma RoundTripExact(v: Vocabulary)
    requires Complete(v) && Inverse(v)
    ensures (forall text: seq<Byte> :: Encode(v, text).Ok? && Decode(v, Encode(v, text).value, false) == Ok(text)) <==>
            LiteralSpecials(v)
  {
    if LiteralSpecials(v) {
      forall text: seq<Byte> ensures Encode(v, text).Ok? && Decode(v, Encode(v, text).value, false) == Ok(text) {
        CompleteRoundTrip(v, text);
      }
    } else {
      var s :| s in v.specials && s != [] && !Literal(s);
      OneSpecial(v, s);
      LiteralExact(s);
    }
  }

  lemma OneSpecial(v: Vocabulary, s: seq<Byte>)
    requires Complete(v) && Inverse(v) && s in v.specials && s != []
    ensures Encode(v, s).Ok? && Decode(v, Encode(v, s).value, false) == Characters(s, false)
  {
    hide Characters, Pieces;
    assert Symbol(0) in v.ids && v.ids[Symbol(0)] in v.tokens;
    SpecialPiece(v, s);
    IdsStream(v, [Special(s)]);
    assert [Special(s)][1..] == [];
    assert s + [] == s;
  }

  /** The special token é reads back as another byte. */
  lemma SpecialExample()
    ensures Characters([0xC3, 0xA9], false) == Ok([0xE9])
  {
    assert Symbol(0xE9) == [0xC3, 0xA9] && CharLen(0xC3) == 2;
    ReadSymbol(0xE9, [], false);
    assert Symbol(0xE9) + [] == [0xC3, 0xA9];
    assert [0xE9 as Byte] + [] == [0xE9];
  }
}
