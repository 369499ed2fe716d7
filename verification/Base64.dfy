/** Padded base64 with the standard alphabet, and Go's strict decoder (sections 3.5 and 4 of RFC 4648). The decoder
    skips CR and LF anywhere in its input, as encoding/base64 does even in strict mode. How the bits of three bytes are
    cut into four codes is a parameter of type Cut, which STANDARD, the cut of the RFC, is shown to inhabit. */
module Base64 {
  import opened Basics

  predicate Newline(b: byte) { b == LF || b == CR }

  // ----- characters: codes 0 to 63 are the alphabet A-Z a-z 0-9 + /, code 64 is the padding '='

  const PAD := 64

  type code = v: int | 0 <= v <= 64

  type sextet = v: int | 0 <= v < 64

  function Char(v: code): byte {
    if v < 26 then 65 + v
    else if v < 52 then 97 + (v - 26)
    else if v < 62 then 48 + (v - 52)
    else if v == 62 then 43 else if v == 63 then 47 else 61
  }

  function Code(c: byte): Option<code> {
    if 65 <= c <= 90 then Some(c - 65)
    else if 97 <= c <= 122 then Some(c - 97 + 26)
    else if 48 <= c <= 57 then Some(c - 48 + 52)
    else if c == 43 then Some(62)
    else if c == 47 then Some(63)
    else if c == 61 then Some(PAD)
    else None
  }

  lemma CodeOfChar(v: code)
    ensures Code(Char(v)) == Some(v)
    ensures !Newline(Char(v)) && Char(v) != NUL && Char(v) != TAB
  {
  }

  lemma CharOfCode(c: byte)
    requires Code(c).Some?
    ensures Char(Code(c).value) == c
  {
  }

  function Chars(codes: seq<code>): Bytes {
    if codes == [] then [] else [Char(codes[0])] + Chars(codes[1..])
  }

  function Codes(s: Bytes): Option<seq<code>> {
    if s == [] then Some([])
    else if Code(s[0]).None? || Codes(s[1..]).None? then None
    else Some([Code(s[0]).value] + Codes(s[1..]).value)
  }

  // ----- groups of three bytes and four codes

  /** The codes of three bytes, the bytes of four codes, and whether the second or third code has no bits set below
      those that spell a whole byte. */
  datatype Grouping = Grouping(
    code0: byte -> sextet, code1: (byte, byte) -> sextet, code2: (byte, byte) -> sextet, code3: byte -> sextet,
    byte0: (sextet, sextet) -> byte, byte1: (sextet, sextet) -> byte, byte2: (sextet, sextet) -> byte,
    clear1: sextet -> bool, clear2: sextet -> bool)

  const STANDARD := Grouping(
    (a: byte) => a / 4, (a: byte, b: byte) => a % 4 * 16 + b / 16, (b: byte, c: byte) => b % 16 * 4 + c / 64,
    (c: byte) => c % 64,
    (a: sextet, b: sextet) => a * 4 + b / 16, (b: sextet, c: sextet) => b % 16 * 16 + c / 4,
    (c: sextet, d: sextet) => c % 4 * 64 + d,
    (b: sextet) => b % 16 == 0, (c: sextet) => c % 4 == 0)

  /** The bytes are back after cutting them into codes, and a missing last byte leaves no stray bits. */
  predicate BytesBack(g: Grouping, a: byte, b: byte, c: byte) {
    && g.byte0(g.code0(a), g.code1(a, b)) == a
    && g.byte1(g.code1(a, b), g.code2(b, c)) == b
    && g.byte2(g.code2(b, c), g.code3(c)) == c
    && g.clear1(g.code1(a, 0)) && g.clear2(g.code2(b, 0))
  }

  /** The codes are back after joining them to bytes, also at the end when they hold no stray bits. */
  predicate CodesBack(g: Grouping, a: sextet, b: sextet, c: sextet, d: sextet) {
    && g.code0(g.byte0(a, b)) == a
    && g.code1(g.byte0(a, b), g.byte1(b, c)) == b
    && g.code2(g.byte1(b, c), g.byte2(c, d)) == c
    && g.code3(g.byte2(c, d)) == d
    && (g.clear1(b) ==> g.code1(g.byte0(a, b), 0) == b)
    && (g.clear2(c) ==> g.code2(g.byte1(b, c), 0) == c)
  }

  ghost predicate Inverse(g: Grouping) {
    (forall a, b, c :: BytesBack(g, a, b, c)) && (forall a, b, c, d :: CodesBack(g, a, b, c, d))
  }

  lemma BytesOfCodes(a: byte, b: byte, c: byte)
    ensures BytesBack(STANDARD, a, b, c)
  {
  }

  lemma CodesOfBytes(a: sextet, b: sextet, c: sextet, d: sextet)
    ensures CodesBack(STANDARD, a, b, c, d)
  {
  }

  /** The cut of the RFC. */
  function Standard(): (g: Grouping)
    ensures Inverse(g)
  {
    assert Inverse(STANDARD) by {
      forall a, b, c ensures BytesBack(STANDARD, a, b, c) { BytesOfCodes(a, b, c); }
      forall a, b, c, d ensures CodesBack(STANDARD, a, b, c, d) { CodesOfBytes(a, b, c, d); }
    }
    STANDARD
  }

  /** Any way to cut three bytes into four codes and back; the one of the RFC is the witness. */
  type Cut = g: Grouping | Inverse(g) witness Standard()

  function Pack(g: Grouping, p: Bytes): seq<code> {
    if |p| == 0 then []
    else if |p| == 1 then [g.code0(p[0]), g.code1(p[0], 0), PAD, PAD]
    else if |p| == 2 then [g.code0(p[0]), g.code1(p[0], p[1]), g.code2(p[1], 0), PAD]
    else [g.code0(p[0]), g.code1(p[0], p[1]), g.code2(p[1], p[2]), g.code3(p[2])] + Pack(g, p[3..])
  }

  /** Strict unpacking: padding only at the very end, and no stray bits before it. */
  function Unpack(g: Cut, q: seq<code>): Option<Bytes> {
    if q == [] then Some([])
    else if |q| < 4 || q[0] == PAD || q[1] == PAD then None
    else if q[2] == PAD then
      if |q| == 4 && q[3] == PAD && g.clear1(q[1]) then Some([g.byte0(q[0], q[1])]) else None
    else if q[3] == PAD then
      if |q| == 4 && g.clear2(q[2]) then Some([g.byte0(q[0], q[1]), g.byte1(q[1], q[2])]) else None
    else
      var rest := Unpack(g, q[4..]);
      if rest.None? then None
      else Some([g.byte0(q[0], q[1]), g.byte1(q[1], q[2]), g.byte2(q[2], q[3])] + rest.value)
  }

  function StripNewlines(s: Bytes): Bytes {
    if s == [] then []
    else if Newline(s[0]) then StripNewlines(s[1..])
    else [s[0]] + StripNewlines(s[1..])
  }

  function Encode(g: Cut, p: Bytes): Bytes { Chars(Pack(g, p)) }

  function Decode(g: Cut, s: Bytes): Option<Bytes> {
    var codes := Codes(StripNewlines(s));
    if codes.None? then None else Unpack(g, codes.value)
  }

  // ----- proofs

  lemma {:induction false} UnpackPack(g: Cut, p: Bytes)
    ensures Unpack(g, Pack(g, p)) == Some(p)
  {
    if |p| == 1 {
      assert BytesBack(g, p[0], 0, 0);
      assert p == [p[0]];
    } else if |p| == 2 {
      assert BytesBack(g, p[0], p[1], 0);
      assert p == [p[0], p[1]];
    } else if |p| >= 3 {
      assert BytesBack(g, p[0], p[1], p[2]);
      UnpackPack(g, p[3..]);
      assert Pack(g, p)[4..] == Pack(g, p[3..]);
      assert p == [p[0], p[1], p[2]] + p[3..];
    }
  }

  lemma {:induction false} PackUnpack(g: Cut, q: seq<code>)
    requires Unpack(g, q).Some?
    ensures Pack(g, Unpack(g, q).value) == q
  {
    if q == [] {
    } else if q[2] == PAD {
      assert CodesBack(g, q[0], q[1], 0, 0);
      assert q == [q[0], q[1], PAD, PAD];
    } else if q[3] == PAD {
      assert CodesBack(g, q[0], q[1], q[2], 0);
      assert q == [q[0], q[1], q[2], PAD];
    } else {
      assert CodesBack(g, q[0], q[1], q[2], q[3]);
      PackUnpack(g, q[4..]);
      assert Unpack(g, q).value[3..] == Unpack(g, q[4..]).value;
      assert q == [q[0], q[1], q[2], q[3]] + q[4..];
    }
  }

  predicate Clean(s: Bytes) { forall i :: 0 <= i < |s| ==> !Newline(s[i]) && s[i] != NUL && s[i] != TAB }

  lemma {:induction false} CodesOfChars(codes: seq<code>)
    ensures Codes(Chars(codes)) == Some(codes) && Clean(Chars(codes)) && |Chars(codes)| == |codes|
  {
    if codes != [] {
      CodeOfChar(codes[0]);
      CodesOfChars(codes[1..]);
      assert Chars(codes)[1..] == Chars(codes[1..]);
      assert [codes[0]] + codes[1..] == codes;
    }
  }

  lemma {:induction false} CharsOfCodes(s: Bytes)
    requires Codes(s).Some?
    ensures Chars(Codes(s).value) == s
  {
    if s != [] {
      CharOfCode(s[0]);
      CharsOfCodes(s[1..]);
      assert Codes(s).value[1..] == Codes(s[1..]).value;
    }
  }

  lemma {:induction false} StripClean(s: Bytes)
    ensures (forall i :: 0 <= i < |s| ==> !Newline(s[i])) ==> StripNewlines(s) == s
    ensures forall i :: 0 <= i < |StripNewlines(s)| ==> !Newline(StripNewlines(s)[i])
  {
    if s != [] { StripClean(s[1..]); }
  }

  /** Encodings hold no newline, NUL or tab. */
  lemma EncodeClean(g: Cut, p: Bytes)
    ensures Clean(Encode(g, p)) && (Encode(g, p) == [] <==> p == [])
  {
    CodesOfChars(Pack(g, p));
  }

  /** Decoding undoes encoding on every byte string. */
  lemma RoundTrip(g: Cut, p: Bytes)
    ensures Decode(g, Encode(g, p)) == Some(p)
  {
    EncodeClean(g, p);
    StripClean(Encode(g, p));
    CodesOfChars(Pack(g, p));
    UnpackPack(g, p);
  }

  /** Text that decodes re-encodes to itself exactly when it holds no CR or LF. */
  lemma CanonicalIffNoNewline(g: Cut, s: Bytes)
    requires Decode(g, s).Some?
    ensures Encode(g, Decode(g, s).value) == s <==> forall i :: 0 <= i < |s| ==> !Newline(s[i])
  {
    StripClean(s);
    PackUnpack(g, Codes(StripNewlines(s)).value);
    CharsOfCodes(StripNewlines(s));
    EncodeClean(g, Decode(g, s).value);
  }
}
