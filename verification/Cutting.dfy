/**
 How a text is cut before merging, said by rules about the text: special tokens are the longest that match; a run of
 newlines stands alone; the last blank of a run of blanks is cut off from the others and joined to what follows
 exactly when a word follows before the next special token; a word goes on to the next blank, newline or special
 token. The rules leave exactly one cut, which is the one the encoder makes.
 */
module Cutting {
  import opened ByteAlphabet
  import opened Tokenizing

  datatype Part =
    | Token(begin: nat, end: nat)
    | Lines(begin: nat, end: nat)
    | Blanks(begin: nat, end: nat)
    | Word(begin: nat, body: nat, end: nat)

  // ---------------------------------------------------------------- the rules

  predicate WordByte(c: Byte) {
    !IsSpace(c) && !IsNewline(c)
  }

  /** No special token begins here. */
  predicate NoSpecial(v: Vocabulary, text: seq<Byte>, i: nat)
    requires i <= |text|
  {
    forall e | i < e <= |text| :: text[i..e] !in v.specials
  }

  /** The longest special token that begins at b ends at e. */
  predicate LongestAt(v: Vocabulary, text: seq<Byte>, b: nat, e: nat) {
    b < e <= |text| && text[b..e] in v.specials && forall f | e < f <= |text| :: text[b..f] !in v.specials
  }

  /** A word begins at m or later, and no special token before it or with it. */
  ghost predicate WordAhead(v: Vocabulary, text: seq<Byte>, m: nat) {
    exists k | m <= k < |text| :: WordByte(text[k]) && forall i | m <= i <= k :: NoSpecial(v, text, i)
  }

  predicate BlanksEnd(text: seq<Byte>, e: nat) {
    e <= |text| && (e < |text| ==> !IsSpace(text[e]))
  }

  ghost predicate WordEnd(v: Vocabulary, text: seq<Byte>, e: nat) {
    e <= |text| && (e < |text| && WordByte(text[e]) ==> !NoSpecial(v, text, e))
  }

  predicate Joined(p: Part) {
    p.Word? && p.body == p.begin + 1
  }

  /** A run of blanks was cut before its last one. */
  predicate CutShort(text: seq<Byte>, prev: Part) {
    prev.Blanks? && prev.end < |text| && IsSpace(text[prev.end])
  }

  /** The rule for each kind of part, given the part before it. */
  ghost predicate PartOk(v: Vocabulary, text: seq<Byte>, prev: Part, p: Part) {
    && p.begin < p.end <= |text|
    && (CutShort(text, prev) && prev.end == p.begin ==> Joined(p))
    && match p
       case Token(b, e) => LongestAt(v, text, b, e)
       case Lines(b, e) =>
         && NoSpecial(v, text, b) && (forall i | b <= i < e :: IsNewline(text[i]))
         && (e < |text| ==> !IsNewline(text[e]))
       case Blanks(b, e) =>
         && NoSpecial(v, text, b) && (forall i | b <= i < e :: IsSpace(text[i]))
         && (if e < |text| && IsSpace(text[e]) then BlanksEnd(text, e + 1) && WordAhead(v, text, e + 1)
             else !WordAhead(v, text, e))
       case Word(b, m, e) =>
         && b <= m <= b + 1 && m <= e && WordEnd(v, text, e)
         && (forall i | m <= i < e :: WordByte(text[i]) && NoSpecial(v, text, i))
         && (m == b + 1 ==>
               && IsSpace(text[b]) && BlanksEnd(text, m) && WordAhead(v, text, m)
               && (NoSpecial(v, text, b) || (CutShort(text, prev) && prev.end == b)))
  }

  /** Parts that follow one another from a position to the end of the text, each by its rule. */
  ghost predicate CutOk(v: Vocabulary, text: seq<Byte>, prev: Part, from: nat, ps: seq<Part>)
    decreases |ps|
  {
    if ps == [] then from == |text|
    else ps[0].begin == from && PartOk(v, text, prev, ps[0]) && CutOk(v, text, ps[0], ps[0].end, ps[1..])
  }

  /** Stands before the first part. */
  const START := Token(0, 0)

  ghost predicate RightCut(v: Vocabulary, text: seq<Byte>, ps: seq<Part>) {
    CutOk(v, text, START, 0, ps)
  }

  /** The symbols of a cut: a special token is one, other parts are merged on their own. */
  function PartPieces(v: Vocabulary, text: seq<Byte>, p: Part): seq<Piece> {
    if !(p.begin <= p.end <= |text|) then []
    else if p.Token? then [Special(text[p.begin..p.end])]
    else Segment(v, text, p.begin, p.end)
  }

  function CutPieces(v: Vocabulary, text: seq<Byte>, ps: seq<Part>): seq<Piece> {
    if ps == [] then [] else PartPieces(v, text, ps[0]) + CutPieces(v, text, ps[1..])
  }

  /** No part is empty. */
  ghost predicate Parts(text: seq<Byte>, ps: seq<Part>) {
    forall k | 0 <= k < |ps| :: ps[k].begin < ps[k].end <= |text|
  }

  lemma {:induction false} CutParts(v: Vocabulary, text: seq<Byte>, prev: Part, from: nat, ps: seq<Part>)
    requires CutOk(v, text, prev, from, ps)
    ensures Parts(text, ps)
    decreases |ps|
  {
    if ps != [] {
      CutParts(v, text, ps[0], ps[0].end, ps[1..]);
      forall k | 0 <= k < |ps| ensures ps[k].begin < ps[k].end <= |text| {
        if k > 0 { assert ps[k] == ps[1..][k - 1]; }
      }
    }
  }

  // ---------------------------------------------------------------- there is at most one

  lemma SameLines(text: seq<Byte>, b: nat, e: nat, e': nat)
    requires b < e <= |text| && b < e' <= |text|
    requires (forall i | b <= i < e :: IsNewline(text[i])) && (e < |text| ==> !IsNewline(text[e]))
    requires (forall i | b <= i < e' :: IsNewline(text[i])) && (e' < |text| ==> !IsNewline(text[e']))
    ensures e == e'
  {
  }

  lemma SameWord(v: Vocabulary, text: seq<Byte>, m: nat, e: nat, e': nat)
    requires m <= e && m <= e' && WordEnd(v, text, e) && WordEnd(v, text, e')
    requires forall i | m <= i < e :: WordByte(text[i]) && NoSpecial(v, text, i)
    requires forall i | m <= i < e' :: WordByte(text[i]) && NoSpecial(v, text, i)
    ensures e == e'
  {
  }

  /** Where a run of blanks is cut. */
  lemma SameBlanks(v: Vocabulary, text: seq<Byte>, b: nat, e: nat, e': nat)
    requires b < e <= |text| && b < e' <= |text|
    requires (forall i | b <= i < e :: IsSpace(text[i])) && (forall i | b <= i < e' :: IsSpace(text[i]))
    requires if e < |text| && IsSpace(text[e]) then BlanksEnd(text, e + 1) && WordAhead(v, text, e + 1)
             else !WordAhead(v, text, e)
    requires if e' < |text| && IsSpace(text[e']) then BlanksEnd(text, e' + 1) && WordAhead(v, text, e' + 1)
             else !WordAhead(v, text, e')
    ensures e == e'
  {
    hide WordAhead;
  }

  /** The kind of a part follows from the text where it begins. */
  lemma KindOf(v: Vocabulary, text: seq<Byte>, prev: Part, p: Part)
    requires PartOk(v, text, prev, p) && prev.end == p.begin
    ensures var b := p.begin; var cut := CutShort(text, prev);
      var join := BlanksEnd(text, b + 1) && WordAhead(v, text, b + 1);
      && (p.Token? <==> !cut && !NoSpecial(v, text, b))
      && (p.Lines? <==> !cut && NoSpecial(v, text, b) && IsNewline(text[b]))
      && (p.Blanks? <==> !cut && NoSpecial(v, text, b) && IsSpace(text[b]) && !join)
      && (p.Word? ==> p.body == if IsSpace(text[b]) then b + 1 else b)
  {
    hide WordAhead;
    if p.Token? { assert text[p.begin..p.end] in v.specials; }
    assert p.Blanks? && p.end > p.begin + 1 ==> IsSpace(text[p.begin + 1]);
  }

  lemma PartUnique(v: Vocabulary, text: seq<Byte>, prev: Part, p: Part, p': Part)
    requires PartOk(v, text, prev, p) && PartOk(v, text, prev, p') && p.begin == p'.begin == prev.end
    ensures p == p'
  {
    hide WordAhead, NoSpecial, WordEnd, BlanksEnd;
    KindOf(v, text, prev, p);
    KindOf(v, text, prev, p');
    match p
    case Token(b, e) => SameToken(v, text, b, e, p'.end);
    case Lines(b, e) => SameLines(text, b, e, p'.end);
    case Blanks(b, e) => SameBlanks(v, text, b, e, p'.end);
    case Word(b, m, e) => SameWord(v, text, m, e, p'.end);
  }

  lemma SameToken(v: Vocabulary, text: seq<Byte>, b: nat, e: nat, e': nat)
    requires LongestAt(v, text, b, e) && LongestAt(v, text, b, e')
    ensures e == e'
  {
  }

  lemma {:induction false} CutUnique(v: Vocabulary, text: seq<Byte>, prev: Part, from: nat, ps: seq<Part>,
          qs: seq<Part>)
    requires CutOk(v, text, prev, from, ps) && CutOk(v, text, prev, from, qs) && prev.end == from
    ensures ps == qs
    decreases |ps|
  {
    hide PartOk;
    CutRoom(v, text, prev, from, ps);
    CutRoom(v, text, prev, from, qs);
    if ps != [] && qs != [] {
      PartUnique(v, text, prev, ps[0], qs[0]);
      CutUnique(v, text, ps[0], ps[0].end, ps[1..], qs[1..]);
      assert ps == [ps[0]] + ps[1..] && qs == [qs[0]] + qs[1..];
    }
  }

  lemma CutRoom(v: Vocabulary, text: seq<Byte>, prev: Part, from: nat, ps: seq<Part>)
    requires CutOk(v, text, prev, from, ps)
    ensures ps == [] <==> from == |text|
  {
  }

  // ---------------------------------------------------------------- the encoder makes it

  /** The word under way. */
  function WordPart(text: seq<Byte>, start: nat, pos: nat): seq<Part>
    requires start <= pos <= |text|
  {
    if start == pos then [] else [Word(start, if IsSpace(text[start]) then start + 1 else start, pos)]
  }

  /** The parts of text[start..], when text[start..pos] is the word under way. */
  function CutFrom(v: Vocabulary, text: seq<Byte>, pos: nat, start: nat): seq<Part>
    requires start <= pos <= |text|
    decreases |text| - pos
  {
    if pos == |text| then WordPart(text, start, pos)
    else
      var len := MatchSpecial(v, text, pos);
      if len > 0 then WordPart(text, start, pos) + [Token(pos, pos + len)] + CutFrom(v, text, pos + len, pos + len)
      else if IsNewline(text[pos]) then
        var e := SkipNewlines(text, pos);
        WordPart(text, start, pos) + [Lines(pos, e)] + CutFrom(v, text, e, e)
      else if IsSpace(text[pos]) then
        var e := SkipSpaces(text, pos);
        if !WordFollows(v, text, e) then
          WordPart(text, start, pos) + [Blanks(pos, e)] + CutFrom(v, text, e, e)
        else
          WordPart(text, start, pos) + (if pos == e - 1 then [] else [Blanks(pos, e - 1)]) + CutFrom(v, text, e, e - 1)
      else CutFrom(v, text, pos + 1, start)
  }

  lemma {:induction false} CutPiecesConcat(v: Vocabulary, text: seq<Byte>, a: seq<Part>, b: seq<Part>)
    ensures CutPieces(v, text, a + b) == CutPieces(v, text, a) + CutPieces(v, text, b)
  {
    hide PartPieces;
    if a == [] {
      assert a + b == b;
    } else {
      CutPiecesConcat(v, text, a[1..], b);
      assert (a + b)[1..] == a[1..] + b && (a + b)[0] == a[0];
    }
  }

  lemma OnePart(v: Vocabulary, text: seq<Byte>, p: Part)
    ensures CutPieces(v, text, [p]) == PartPieces(v, text, p) && CutPieces(v, text, []) == []
  {
    hide PartPieces;
    assert [p][1..] == [];
  }

  lemma WordPieces(v: Vocabulary, text: seq<Byte>, start: nat, pos: nat)
    requires start <= pos <= |text|
    ensures CutPieces(v, text, WordPart(text, start, pos)) == Segment(v, text, start, pos)
  {
    hide CutPieces;
    if start == pos { OnePart(v, text, START); } else { OnePart(v, text, WordPart(text, start, pos)[0]); }
  }

  /** Three stretches of a cut and their symbols. */
  lemma ThreeStretches(v: Vocabulary, text: seq<Byte>, a: seq<Part>, b: seq<Part>, rest: seq<Part>)
    ensures CutPieces(v, text, a + b + rest) == CutPieces(v, text, a) + CutPieces(v, text, b) + CutPieces(v, text, rest)
  {
    hide CutPieces;
    CutPiecesConcat(v, text, a + b, rest);
    CutPiecesConcat(v, text, a, b);
  }

  lemma {:induction false} CutFromPieces(v: Vocabulary, text: seq<Byte>, pos: nat, start: nat)
    requires start <= pos <= |text|
    ensures CutPieces(v, text, CutFrom(v, text, pos, start)) == PiecesFrom(v, text, pos, start)
    decreases |text| - pos
  {
    hide CutPieces, Segment, WordPart, MatchSpecial, WordFollows, SkipNewlines, SkipSpaces;
    WordPieces(v, text, start, pos);
    if pos < |text| {
      var word := WordPart(text, start, pos);
      var len := MatchSpecial(v, text, pos);
      if len > 0 {
        CutFromPieces(v, text, pos + len, pos + len);
        OnePart(v, text, Token(pos, pos + len));
        ThreeStretches(v, text, word, [Token(pos, pos + len)], CutFrom(v, text, pos + len, pos + len));
      } else if IsNewline(text[pos]) {
        var e := SkipNewlines(text, pos);
        CutFromPieces(v, text, e, e);
        OnePart(v, text, Lines(pos, e));
        ThreeStretches(v, text, word, [Lines(pos, e)], CutFrom(v, text, e, e));
      } else if IsSpace(text[pos]) {
        var e := SkipSpaces(text, pos);
        if !WordFollows(v, text, e) {
          CutFromPieces(v, text, e, e);
          OnePart(v, text, Blanks(pos, e));
          ThreeStretches(v, text, word, [Blanks(pos, e)], CutFrom(v, text, e, e));
        } else {
          CutFromPieces(v, text, e, e - 1);
          OnePart(v, text, Blanks(pos, e - 1));
          SegmentNone(v, text, pos);
          ThreeStretches(v, text, word, if pos == e - 1 then [] else [Blanks(pos, e - 1)], CutFrom(v, text, e, e - 1));
        }
      } else {
        CutFromPieces(v, text, pos + 1, start);
      }
    }
  }

  lemma SegmentNone(v: Vocabulary, text: seq<Byte>, pos: nat)
    requires pos <= |text|
    ensures Segment(v, text, pos, pos) == []
  {
  }

  // ---------------------------------------------------------------- by the rules

  lemma MatchMeans(v: Vocabulary, text: seq<Byte>, i: nat)
    requires i <= |text|
    ensures var len := MatchSpecial(v, text, i);
      && (len == 0 <==> NoSpecial(v, text, i)) && (len > 0 ==> LongestAt(v, text, i, i + len))
  {
    var len := MatchSpecial(v, text, i);
    if len > 0 { assert text[i..i + len] in v.specials; }
  }

  lemma {:induction false} FollowsAhead(v: Vocabulary, text: seq<Byte>, m: nat)
    requires m <= |text|
    ensures WordFollows(v, text, m) <==> WordAhead(v, text, m)
    decreases |text| - m
  {
    hide NoSpecial, MatchSpecial;
    if m < |text| {
      MatchMeans(v, text, m);
      FollowsAhead(v, text, m + 1);
      if WordFollows(v, text, m) {
        if WordByte(text[m]) {
          assert forall i | m <= i <= m :: NoSpecial(v, text, i);
        } else {
          var k :| m + 1 <= k < |text| && WordByte(text[k]) && forall i | m + 1 <= i <= k :: NoSpecial(v, text, i);
          assert forall i | m <= i <= k :: NoSpecial(v, text, i);
        }
      }
      if WordAhead(v, text, m) {
        var k :| m <= k < |text| && WordByte(text[k]) && forall i | m <= i <= k :: NoSpecial(v, text, i);
        assert NoSpecial(v, text, m);
        assert k > m ==> WordAhead(v, text, m + 1);
      }
    }
  }

  lemma {:induction false} LinesRun(text: seq<Byte>, pos: nat)
    requires pos <= |text|
    ensures var e := SkipNewlines(text, pos);
      (forall i | pos <= i < e :: IsNewline(text[i])) && (e < |text| ==> !IsNewline(text[e]))
    decreases |text| - pos
  {
    if pos < |text| && IsNewline(text[pos]) { LinesRun(text, pos + 1); }
  }

  lemma {:induction false} BlanksRun(text: seq<Byte>, pos: nat)
    requires pos <= |text|
    ensures var e := SkipSpaces(text, pos); (forall i | pos <= i < e :: IsSpace(text[i])) && BlanksEnd(text, e)
    decreases |text| - pos
  {
    if pos < |text| && IsSpace(text[pos]) { BlanksRun(text, pos + 1); }
  }

  /** The word under way obeys its rule so far. */
  ghost predicate Begun(v: Vocabulary, text: seq<Byte>, prev: Part, start: nat, pos: nat) {
    && prev.end == start <= pos <= |text|
    && if start == pos then !CutShort(text, prev)
       else
         var m := if IsSpace(text[start]) then start + 1 else start;
         && m <= pos && (forall i | m <= i < pos :: WordByte(text[i]) && NoSpecial(v, text, i))
         && (m == start + 1 ==>
               BlanksEnd(text, m) && WordAhead(v, text, m) && (NoSpecial(v, text, start) || CutShort(text, prev)))
  }

  lemma WordDone(v: Vocabulary, text: seq<Byte>, prev: Part, start: nat, pos: nat)
    requires Begun(v, text, prev, start, pos) && start < pos && WordEnd(v, text, pos)
    ensures var p := WordPart(text, start, pos)[0]; PartOk(v, text, prev, p) && Joined(p) == IsSpace(text[start])
  {
    hide WordAhead, NoSpecial;
  }

  /** The part before position pos, once the word under way is done. */
  function PartBefore(text: seq<Byte>, prev: Part, start: nat, pos: nat): Part
    requires start <= pos <= |text|
  {
    if start == pos then prev else WordPart(text, start, pos)[0]
  }

  /** Parts after the word under way. */
  lemma CutAfter(v: Vocabulary, text: seq<Byte>, prev: Part, start: nat, pos: nat, rest: seq<Part>)
    requires Begun(v, text, prev, start, pos) && WordEnd(v, text, pos)
    requires CutOk(v, text, PartBefore(text, prev, start, pos), pos, rest)
    ensures CutOk(v, text, prev, start, WordPart(text, start, pos) + rest)
  {
    hide PartOk, WordEnd;
    var word := WordPart(text, start, pos);
    if start == pos {
      assert word + rest == rest;
    } else {
      WordDone(v, text, prev, start, pos);
      assert (word + rest)[0] == word[0] && (word + rest)[1..] == rest;
    }
  }

  lemma CutMore(v: Vocabulary, text: seq<Byte>, prev: Part, p: Part, rest: seq<Part>)
    requires PartOk(v, text, prev, p) && CutOk(v, text, p, p.end, rest)
    ensures CutOk(v, text, prev, p.begin, [p] + rest)
  {
    hide PartOk;
    assert ([p] + rest)[1..] == rest;
  }

  lemma BeforeOpen(v: Vocabulary, text: seq<Byte>, prev: Part, start: nat, pos: nat)
    requires Begun(v, text, prev, start, pos)
    ensures PartBefore(text, prev, start, pos).end == pos && !CutShort(text, PartBefore(text, prev, start, pos))
  {
    hide WordAhead, NoSpecial;
  }

  lemma BegunRoom(v: Vocabulary, text: seq<Byte>, prev: Part, start: nat, pos: nat)
    requires Begun(v, text, prev, start, pos)
    ensures prev.end == start <= pos <= |text|
  {
  }

  /** A part that is no word under way leaves none. */
  lemma NoneBegun(v: Vocabulary, text: seq<Byte>, p: Part)
    requires p.end <= |text| && !CutShort(text, p)
    ensures Begun(v, text, p, p.end, p.end)
  {
  }

  lemma BegunNext(v: Vocabulary, text: seq<Byte>, prev: Part, start: nat, pos: nat)
    requires Begun(v, text, prev, start, pos) && pos < |text| && WordByte(text[pos]) && NoSpecial(v, text, pos)
    ensures Begun(v, text, prev, start, pos + 1)
  {
    hide WordAhead, NoSpecial;
  }

  lemma TokenPart(v: Vocabulary, text: seq<Byte>, last: Part, b: nat, e: nat)
    requires LongestAt(v, text, b, e) && last.end == b && !CutShort(text, last)
    ensures PartOk(v, text, last, Token(b, e)) && Begun(v, text, Token(b, e), e, e) && WordEnd(v, text, b)
  {
  }

  lemma LinesPart(v: Vocabulary, text: seq<Byte>, last: Part, pos: nat)
    requires last.end == pos < |text| && !CutShort(text, last) && NoSpecial(v, text, pos) && IsNewline(text[pos])
    ensures var e := SkipNewlines(text, pos);
      PartOk(v, text, last, Lines(pos, e)) && Begun(v, text, Lines(pos, e), e, e) && WordEnd(v, text, pos)
  {
    hide NoSpecial;
    LinesRun(text, pos);
  }

  lemma BlanksPart(v: Vocabulary, text: seq<Byte>, last: Part, pos: nat)
    requires last.end == pos < |text| && !CutShort(text, last) && NoSpecial(v, text, pos) && IsSpace(text[pos])
    requires !WordFollows(v, text, SkipSpaces(text, pos))
    ensures var e := SkipSpaces(text, pos);
      PartOk(v, text, last, Blanks(pos, e)) && Begun(v, text, Blanks(pos, e), e, e) && WordEnd(v, text, pos)
  {
    hide NoSpecial, WordAhead;
    BlanksRun(text, pos);
    FollowsAhead(v, text, SkipSpaces(text, pos));
  }

  /** All blanks but the last, which is joined to what follows. */
  lemma JoinedPart(v: Vocabulary, text: seq<Byte>, last: Part, pos: nat)
    requires last.end == pos < |text| && !CutShort(text, last) && NoSpecial(v, text, pos) && IsSpace(text[pos])
    requires WordFollows(v, text, SkipSpaces(text, pos))
    ensures var e := SkipSpaces(text, pos);
      && WordEnd(v, text, pos)
      && if pos == e - 1 then Begun(v, text, last, pos, e)
         else PartOk(v, text, last, Blanks(pos, e - 1)) && Begun(v, text, Blanks(pos, e - 1), e - 1, e)
  {
    hide NoSpecial, WordAhead;
    BlanksRun(text, pos);
    FollowsAhead(v, text, SkipSpaces(text, pos));
  }

  /** What follows the word under way: one part, then the rest. */
  lemma PartAfter(v: Vocabulary, text: seq<Byte>, prev: Part, start: nat, pos: nat, p: Part, rest: seq<Part>)
    requires Begun(v, text, prev, start, pos) && WordEnd(v, text, pos) && p.begin == pos
    requires PartOk(v, text, PartBefore(text, prev, start, pos), p) && CutOk(v, text, p, p.end, rest)
    ensures CutOk(v, text, prev, start, WordPart(text, start, pos) + [p] + rest)
  {
    hide PartOk, Begun, CutOk, WordEnd, WordPart;
    BegunRoom(v, text, prev, start, pos);
    CutMore(v, text, PartBefore(text, prev, start, pos), p, rest);
    CutAfter(v, text, prev, start, pos, [p] + rest);
    assert WordPart(text, start, pos) + ([p] + rest) == WordPart(text, start, pos) + [p] + rest;
  }

  lemma EndOk(v: Vocabulary, text: seq<Byte>, prev: Part, start: nat)
    requires Begun(v, text, prev, start, |text|)
    ensures CutOk(v, text, prev, start, WordPart(text, start, |text|))
  {
    hide PartOk, Begun, WordPart;
    BegunRoom(v, text, prev, start, |text|);
    CutAfter(v, text, prev, start, |text|, []);
    assert WordPart(text, start, |text|) + [] == WordPart(text, start, |text|);
  }

  lemma {:induction false} CutFromOk(v: Vocabulary, text: seq<Byte>, prev: Part, pos: nat, start: nat)
    requires Begun(v, text, prev, start, pos)
    ensures CutOk(v, text, prev, start, CutFrom(v, text, pos, start))
    decreases |text| - pos
  {
    hide PartOk, Begun, CutOk, WordEnd, WordAhead, NoSpecial, MatchSpecial, WordFollows, SkipNewlines, SkipSpaces;
    hide WordPart, LongestAt, PartBefore, CutShort;
    BegunRoom(v, text, prev, start, pos);
    var last := PartBefore(text, prev, start, pos);
    BeforeOpen(v, text, prev, start, pos);
    if pos == |text| {
      EndOk(v, text, prev, start);
    } else {
      MatchMeans(v, text, pos);
      var len := MatchSpecial(v, text, pos);
      if len > 0 {
        TokenPart(v, text, last, pos, pos + len);
        CutFromOk(v, text, Token(pos, pos + len), pos + len, pos + len);
        PartAfter(v, text, prev, start, pos, Token(pos, pos + len), CutFrom(v, text, pos + len, pos + len));
      } else if IsNewline(text[pos]) {
        var e := SkipNewlines(text, pos);
        LinesPart(v, text, last, pos);
        CutFromOk(v, text, Lines(pos, e), e, e);
        PartAfter(v, text, prev, start, pos, Lines(pos, e), CutFrom(v, text, e, e));
      } else if IsSpace(text[pos]) {
        var e := SkipSpaces(text, pos);
        if !WordFollows(v, text, e) {
          BlanksPart(v, text, last, pos);
          CutFromOk(v, text, Blanks(pos, e), e, e);
          PartAfter(v, text, prev, start, pos, Blanks(pos, e), CutFrom(v, text, e, e));
        } else {
          JoinedPart(v, text, last, pos);
          if pos == e - 1 {
            CutFromOk(v, text, last, e, pos);
            CutAfter(v, text, prev, start, pos, CutFrom(v, text, e, pos));
            assert WordPart(text, start, pos) + [] == WordPart(text, start, pos);
          } else {
            CutFromOk(v, text, Blanks(pos, e - 1), e, e - 1);
            PartAfter(v, text, prev, start, pos, Blanks(pos, e - 1), CutFrom(v, text, e, e - 1));
          }
        }
      } else {
        BegunNext(v, text, prev, start, pos);
        CutFromOk(v, text, prev, pos + 1, start);
      }
    }
  }

  function Cut(v: Vocabulary, text: seq<Byte>): seq<Part> {
    CutFrom(v, text, 0, 0)
  }

  /** The encoder's cut is the one the rules allow, and its symbols are those of that cut. */
  lemma CutExact(v: Vocabulary, text: seq<Byte>, ps: seq<Part>)
    ensures RightCut(v, text, ps) <==> ps == Cut(v, text)
    ensures RightCut(v, text, ps) ==> Pieces(v, text) == CutPieces(v, text, ps)
  {
    hide PartOk, CutOk, CutPieces, CutFrom, PiecesFrom;
    NoneBegun(v, text, START);
    CutFromOk(v, text, START, 0, 0);
    CutFromPieces(v, text, 0, 0);
    if RightCut(v, text, ps) { CutUnique(v, text, START, 0, ps, Cut(v, text)); }
  }
}
