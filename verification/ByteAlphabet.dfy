/** The byte alphabet of the tokenizer: every byte is written as one UTF-8 encoded character. */
module ByteAlphabet {

  type Byte = b: int | 0 <= b < 256

  // ---------------------------------------------------------------- UTF-8

  /** Encoding of a code point, section 3 of RFC 3629. */
  function Utf8(cp: nat): (s: seq<Byte>)
    requires cp < 0x110000
    ensures 1 <= |s| <= 4
  {
    if cp < 0x80 then [cp]
    else if cp < 0x800 then [0xC0 + cp / 64, 0x80 + cp % 64]
    else if cp < 0x10000 then [0xE0 + cp / 4096, 0x80 + cp / 64 % 64, 0x80 + cp % 64]
    else [0xF0 + cp / 262144, 0x80 + cp / 4096 % 64, 0x80 + cp / 64 % 64, 0x80 + cp % 64]
  }

  /** Length of a character by its first byte; 0 if no character starts so. */
  function CharLen(c: Byte): nat {
    if c < 0x80 then 1
    else if 0xC0 <= c < 0xE0 then 2
    else if 0xE0 <= c < 0xF0 then 3
    else if 0xF0 <= c < 0xF8 then 4
    else 0
  }

  /** The code point behind one encoded character. */
  function CodePoint(s: seq<Byte>): int
    requires 1 <= |s| <= 4
  {
    if |s| == 1 then s[0] as int
    else if |s| == 2 then (s[0] as int - 0xC0) * 64 + (s[1] as int - 0x80)
    else if |s| == 3 then ((s[0] as int - 0xE0) * 64 + (s[1] as int - 0x80)) * 64 + (s[2] as int - 0x80)
    else (((s[0] as int - 0xF0) * 64 + (s[1] as int - 0x80)) * 64 + (s[2] as int - 0x80)) * 64 + (s[3] as int - 0x80)
  }

  /** Encoded characters can be read back, and the first byte tells where each one ends. */
  lemma Utf8Decodable(cp: nat)
    requires cp < 0x110000
    ensures CodePoint(Utf8(cp)) == cp && CharLen(Utf8(cp)[0]) == |Utf8(cp)|
  {
    Digits(cp);
  }

  lemma Digits(cp: nat)
    ensures cp == cp / 64 * 64 + cp % 64
    ensures cp / 64 == cp / 4096 * 64 + cp / 64 % 64
    ensures cp / 4096 == cp / 262144 * 64 + cp / 4096 % 64
  {
  }

  // ---------------------------------------------------------------- the alphabet

  /** Bytes that stand for themselves. */
  predicate Kept(b: int) {
    33 <= b <= 126 || 161 <= b <= 172 || 174 <= b <= 255
  }

  /** Number of other bytes below b. */
  function Others(b: nat): nat {
    if b == 0 then 0 else Others(b - 1) + if Kept(b - 1) then 0 else 1
  }

  function Code(b: Byte): nat {
    if Kept(b) then b else 256 + Others(b)
  }

  lemma {:induction false} OthersBound(b: nat)
    requires b <= 256
    ensures Others(b) == if b <= 33 then b else if b <= 127 then 33 else if b <= 161 then b - 94
                         else if b <= 173 then 67 else 68
  {
    if b > 0 { OthersBound(b - 1); }
  }

  lemma CodeRange(b: Byte)
    ensures Code(b) < 0x800
  {
    OthersBound(b);
  }

  lemma CodeInjective(a: Byte, b: Byte)
    requires Code(a) == Code(b)
    ensures a == b
  {
    OthersBound(a);
    OthersBound(b);
  }

  /** The character written for a byte. */
  function Symbol(b: Byte): seq<Byte> {
    CodeRange(b);
    Utf8(Code(b))
  }

  /** The characters are a prefix-decodable alphabet: distinct bytes have distinct characters, and the
      first byte of a character tells its length. */
  lemma SymbolDecodable(b: Byte)
    ensures 1 <= |Symbol(b)| <= 2 && CharLen(Symbol(b)[0]) == |Symbol(b)|
  {
    CodeRange(b);
    Utf8Decodable(Code(b));
  }

  lemma SymbolInjective(a: Byte, b: Byte)
    requires Symbol(a) == Symbol(b)
    ensures a == b
  {
    CodeRange(a);
    CodeRange(b);
    Utf8Decodable(Code(a));
    Utf8Decodable(Code(b));
    CodeInjective(a, b);
  }

  /** A one-byte character is a byte that stands for itself. */
  lemma SymbolAscii(b: Byte, c: Byte)
    requires c < 0x80 && Symbol(b) == [c]
    ensures b == c
  {
    CodeRange(b);
    OthersBound(b);
  }

  // ---------------------------------------------------------------- tables

  /** The two tables the tokenizer looks bytes and characters up in. */
  ghost predicate Tables(byteToStr: map<Byte, seq<Byte>>, strToByte: map<seq<Byte>, Byte>) {
    && (forall b: Byte :: b in byteToStr && byteToStr[b] == Symbol(b))
    && (forall b: Byte :: Symbol(b) in strToByte && strToByte[Symbol(b)] == b)
    && (forall s :: s in strToByte ==> s == Symbol(strToByte[s]))
  }

  /** Bytes and code points in the order the source lists them. */
  ghost predicate Listing(bytes: seq<Byte>, codes: seq<nat>) {
    |bytes| == |codes| && forall i | 0 <= i < |bytes| :: codes[i] == Code(bytes[i])
  }

  method AddRange(bytes: seq<Byte>, codes: seq<nat>, lo: Byte, hi: Byte) returns (bytes': seq<Byte>, codes': seq<nat>)
    requires Listing(bytes, codes) && lo <= hi && forall b | lo <= b <= hi :: Kept(b)
    ensures Listing(bytes', codes')
    ensures forall b: Byte :: b in bytes' <==> b in bytes || lo <= b <= hi
  {
    bytes', codes' := bytes, codes;
    var b: int := lo;
    while b <= hi
      invariant lo <= b <= hi + 1
      invariant Listing(bytes', codes')
      invariant forall x: Byte :: x in bytes' <==> x in bytes || lo <= x < b
    {
      bytes', codes' := bytes' + [b], codes' + [b];
      b := b + 1;
    }
  }

  /** One entry per listed byte in each table. */
  method FillTables(bytes: seq<Byte>, codes: seq<nat>) returns (byteToStr: map<Byte, seq<Byte>>,
          strToByte: map<seq<Byte>, Byte>)
    requires Listing(bytes, codes) && forall x: Byte :: x in bytes
    ensures Tables(byteToStr, strToByte)
  {
    byteToStr, strToByte := map[], map[];
    var i := 0;
    while i < |bytes|
      invariant 0 <= i <= |bytes|
      invariant forall x: Byte :: x in bytes[..i] ==> x in byteToStr && byteToStr[x] == Symbol(x)
      invariant forall x: Byte :: x in bytes[..i] ==> Symbol(x) in strToByte && strToByte[Symbol(x)] == x
      invariant forall s :: s in strToByte ==> s == Symbol(strToByte[s])
    {
      var x := bytes[i];
      CodeRange(x);
      forall y: Byte | Symbol(y) == Symbol(x) ensures y == x { SymbolInjective(y, x); }
      var s := Utf8(codes[i]);
      assert s == Symbol(x);
      hide Symbol, Utf8, Code;
      byteToStr := byteToStr[x := s];
      strToByte := strToByte[s := x];
      assert bytes[..i + 1] == bytes[..i] + [x];
      i := i + 1;
    }
    assert bytes[..i] == bytes;
  }

  /** build_byte_maps: the tables are exactly the alphabet, both ways. */
  method BuildByteMaps() returns (byteToStr: map<Byte, seq<Byte>>, strToByte: map<seq<Byte>, Byte>)
    ensures Tables(byteToStr, strToByte)
  {
    var bytes: seq<Byte>, codes: seq<nat> := [], [];
    bytes, codes := AddRange(bytes, codes, 33, 126);
    bytes, codes := AddRange(bytes, codes, 161, 172);
    bytes, codes := AddRange(bytes, codes, 174, 255);
    var n := 0;
    var b: int := 0;
    while b < 256
      invariant 0 <= b <= 256 && n == Others(b)
      invariant Listing(bytes, codes)
      invariant forall x: Byte :: x in bytes <==> Kept(x) || x < b
    {
      if b !in bytes {
        bytes, codes := bytes + [b], codes + [256 + n];
        n := n + 1;
      }
      b := b + 1;
    }
    byteToStr, strToByte := FillTables(bytes, codes);
  }
}
