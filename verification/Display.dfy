/** EscapeDisplay (internal/protocol/codec.go): any byte string as one safe line of text. Which code points count as
    graphic is a parameter; UTF-8 is decoded as section 3 of RFC 3629 defines it. */
module Display {
  import opened Basics

  // ----- UTF-8

  /** The code point at the front of s, or a byte that starts none. */
  datatype Decoded = Rune(value: int, size: nat) | Invalid

  predicate Tail(s: Bytes, i: nat) { i < |s| && 0x80 <= s[i] <= 0xBF }

  /** The second byte of a sequence, whose range depends on the first. */
  predicate Second(s: Bytes) {
    && Tail(s, 1)
    && (s[0] == 0xE0 ==> 0xA0 <= s[1]) && (s[0] == 0xED ==> s[1] <= 0x9F)
    && (s[0] == 0xF0 ==> 0x90 <= s[1]) && (s[0] == 0xF4 ==> s[1] <= 0x8F)
  }

  function DecodeRune(s: Bytes): (d: Decoded)
    requires s != []
    ensures d.Rune? ==> 1 <= d.size <= |s| && d.size <= 4
    ensures d.Rune? && d.size == 1 ==> d.value == s[0] < 0x80
    ensures d.Rune? && d.size > 1 ==> forall i :: 0 <= i < d.size ==> s[i] >= 0x80
  {
    var a: int := s[0];
    if a < 0x80 then Rune(a, 1)
    else if 0xC2 <= a <= 0xDF && Second(s) then Rune(a % 32 * 64 + Low(s[1]), 2)
    else if 0xE0 <= a <= 0xEF && Second(s) && Tail(s, 2) then Rune(a % 16 * 4096 + Low(s[1]) * 64 + Low(s[2]), 3)
    else if 0xF0 <= a <= 0xF4 && Second(s) && Tail(s, 2) && Tail(s, 3) then
      Rune(a % 8 * 262144 + Low(s[1]) * 4096 + Low(s[2]) * 64 + Low(s[3]), 4)
    else Invalid
  }

  /** The six payload bits of a continuation byte. */
  function Low(b: int): int { b % 64 }

  // ----- UTF-8 is decoded as it is encoded: payload bits by sixes, shortest form only, no surrogates

  predicate Six(bits: int) { 0 <= bits < 64 }

  lemma OneByte(a: byte, rest: Bytes)
    ensures DecodeRune([a] + rest) == Rune(a, 1) <==> a < 0x80
  {
  }

  lemma TwoBytes(a: int, b: int, rest: Bytes)
    requires 0 <= a < 32 && Six(b)
    ensures DecodeRune([0xC0 + a, 0x80 + b] + rest) == if a * 64 + b >= 0x80 then Rune(a * 64 + b, 2) else Invalid
  {
  }

  lemma ThreeBytes(a: int, b: int, c: int, rest: Bytes)
    requires 0 <= a < 16 && Six(b) && Six(c)
    ensures var value := (a * 64 + b) * 64 + c;
            DecodeRune([0xE0 + a, 0x80 + b, 0x80 + c] + rest) ==
              if value >= 0x800 && !(0xD800 <= value < 0xE000) then Rune(value, 3) else Invalid
  {
  }

  lemma FourBytes(a: int, b: int, c: int, d: int, rest: Bytes)
    requires 0 <= a < 8 && Six(b) && Six(c) && Six(d)
    ensures var value := ((a * 64 + b) * 64 + c) * 64 + d;
            DecodeRune([0xF0 + a, 0x80 + b, 0x80 + c, 0x80 + d] + rest) ==
              if 0x10000 <= value < 0x110000 then Rune(value, 4) else Invalid
  {
  }

  /** Nothing else starts a code point. */
  lemma OtherBytes(s: Bytes)
    requires s != [] && DecodeRune(s).Rune? && DecodeRune(s).size > 1
    ensures var n := DecodeRune(s).size;
            && (n == 2 ==> 0xC0 <= s[0] < 0xE0) && (n == 3 ==> 0xE0 <= s[0] < 0xF0) && (n == 4 ==> 0xF0 <= s[0] < 0xF8)
            && forall i :: 1 <= i < n ==> 0x80 <= s[i] < 0xC0
  {
  }

  // ----- escaping

  const QUOTE: byte := 39

  function HexDigit(v: int): (c: byte)
    requires 0 <= v < 16
    ensures HexValue(c) == v && c >= 48
  {
    if v < 10 then 48 + v else 65 + (v - 10)
  }

  function HexValue(c: byte): int {
    if c <= 57 then c - 48 else c - 65 + 10
  }

  /** Backslash, x and two upper-case hexadecimal digits. */
  function Hex(b: byte): Bytes { [BACKSLASH, 120, HexDigit(b / 16), HexDigit(b % 16)] }

  function HexAll(s: Bytes): Bytes {
    if s == [] then [] else Hex(s[0]) + HexAll(s[1..])
  }

  /** The letter after the backslash for the five bytes with a short escape. */
  function Short(b: byte): Option<byte> {
    if b == BACKSLASH then Some(BACKSLASH)
    else if b == QUOTE then Some(QUOTE)
    else if b == TAB then Some(116)
    else if b == LF then Some(110)
    else if b == CR then Some(114)
    else None
  }

  /** How many bytes one turn of the loop consumes, and what it writes for them. */
  function Head(graphic: int -> bool, s: Bytes): (r: (nat, Bytes))
    requires s != []
    ensures 1 <= r.0 <= |s|
  {
    if Short(s[0]).Some? then (1, [BACKSLASH, Short(s[0]).value])
    else
      match DecodeRune(s)
      case Invalid => (1, Hex(s[0]))
      case Rune(value, size) => (size, if graphic(value) then s[..size] else HexAll(s[..size]))
  }

  function Escape(graphic: int -> bool, s: Bytes): Bytes {
    if s == [] then []
    else
      var (size, text) := Head(graphic, s);
      text + Escape(graphic, s[size..])
  }

  /** The body of the loop: what it consumes from the front of the path and writes. */
  method EscapeHead(graphic: int -> bool, path: Bytes) returns (size: nat, text: Bytes)
    requires path != []
    ensures (size, text) == Head(graphic, path)
  {
    if Short(path[0]).Some? {
      return 1, [BACKSLASH, Short(path[0]).value];
    }
    var d := DecodeRune(path);
    if d.Invalid? {
      return 1, Hex(path[0]);
    }
    if graphic(d.value) {
      return d.size, path[..d.size];
    }
    return d.size, HexAll(path[..d.size]);
  }

  /** The loop over a shrinking path and a growing builder. */
  method EscapeDisplay(graphic: int -> bool, input: Bytes) returns (display: Bytes)
    ensures display == Escape(graphic, input)
  {
    var path := input;
    display := [];
    while |path| > 0
      invariant Escape(graphic, input) == display + Escape(graphic, path)
      decreases |path|
    {
      var size, text := EscapeHead(graphic, path);
      ConcatAssoc(display, text, Escape(graphic, path[size..]));
      display := display + text;
      path := path[size..];
    }
  }

  lemma ConcatAssoc(a: Bytes, b: Bytes, c: Bytes)
    ensures a + b + c == a + (b + c)
  {
  }

  // ----- the left inverse

  /** Reads escapes back; text no escaping produces is read arbitrarily. */
  function Unescape(t: Bytes): Bytes {
    if t == [] then []
    else if t[0] != BACKSLASH then [t[0]] + Unescape(t[1..])
    else if |t| >= 4 && t[1] == 120 then [(HexValue(t[2]) * 16 + HexValue(t[3])) % 256] + Unescape(t[4..])
    else if |t| >= 2 then
      [if t[1] == 116 then TAB else if t[1] == 110 then LF else if t[1] == 114 then CR else t[1]] + Unescape(t[2..])
    else []
  }

  lemma UnescapeHex(b: byte, t: Bytes)
    ensures Unescape(Hex(b) + t) == [b] + Unescape(t)
  {
    assert (Hex(b) + t)[4..] == t;
  }

  lemma UnescapeShort(b: byte, t: Bytes)
    requires Short(b).Some?
    ensures Unescape([BACKSLASH, Short(b).value] + t) == [b] + Unescape(t)
  {
    assert ([BACKSLASH, Short(b).value] + t)[2..] == t;
  }

  lemma {:induction false} UnescapeHexAll(s: Bytes, t: Bytes)
    ensures Unescape(HexAll(s) + t) == s + Unescape(t)
  {
    if s == [] {
      assert HexAll(s) + t == t;
    } else {
      UnescapeHexAll(s[1..], t);
      ConcatAssoc(Hex(s[0]), HexAll(s[1..]), t);
      UnescapeHex(s[0], HexAll(s[1..]) + t);
      ConcatAssoc([s[0]], s[1..], Unescape(t));
      assert [s[0]] + s[1..] == s;
    }
  }

  lemma {:induction false} UnescapeRaw(s: Bytes, t: Bytes)
    requires BACKSLASH !in s
    ensures Unescape(s + t) == s + Unescape(t)
  {
    if s == [] {
      assert s + t == t;
    } else {
      UnescapeRaw(s[1..], t);
      assert (s + t)[1..] == s[1..] + t;
      ConcatAssoc([s[0]], s[1..], Unescape(t));
      assert [s[0]] + s[1..] == s;
    }
  }

  lemma RawHasNoBackslash(s: Bytes)
    requires s != [] && Short(s[0]).None? && DecodeRune(s).Rune?
    ensures BACKSLASH !in s[..DecodeRune(s).size]
  {
    var d := DecodeRune(s);
    assert forall i :: 0 <= i < d.size ==> s[i] != BACKSLASH;
  }

  lemma UnescapeHead(graphic: int -> bool, s: Bytes, t: Bytes)
    requires s != []
    ensures Unescape(Head(graphic, s).1 + t) == s[..Head(graphic, s).0] + Unescape(t)
  {
    if Short(s[0]).Some? {
      UnescapeShort(s[0], t);
      assert s[..1] == [s[0]];
    } else if DecodeRune(s).Invalid? {
      UnescapeHex(s[0], t);
      assert s[..1] == [s[0]];
    } else {
      var size := DecodeRune(s).size;
      RawHasNoBackslash(s);
      UnescapeRaw(s[..size], t);
      UnescapeHexAll(s[..size], t);
    }
  }

  lemma UnescapeStep(graphic: int -> bool, s: Bytes, t: Bytes, u: Bytes)
    requires s != [] && Unescape(t) == s[Head(graphic, s).0..] + u
    ensures Unescape(Head(graphic, s).1 + t) == s + u
  {
    UnescapeHead(graphic, s, t);
    var size := Head(graphic, s).0;
    ConcatAssoc(s[..size], s[size..], u);
    assert s[..size] + s[size..] == s;
  }

  /** Whatever follows the escaped text is read after it. */
  lemma {:induction false} UnescapeThen(graphic: int -> bool, s: Bytes, t: Bytes)
    ensures Unescape(Escape(graphic, s) + t) == s + Unescape(t)
    decreases |s|
  {
    if s == [] {
      assert Escape(graphic, s) + t == t;
    } else {
      var rest := Escape(graphic, s[Head(graphic, s).0..]);
      UnescapeThen(graphic, s[Head(graphic, s).0..], t);
      UnescapeStep(graphic, s, rest + t, Unescape(t));
      ConcatAssoc(Head(graphic, s).1, rest, t);
    }
  }

  /** Unescape undoes Escape on every byte string, whatever counts as graphic; so escaping is injective. */
  lemma UnescapeEscape(graphic: int -> bool, s: Bytes)
    ensures Unescape(Escape(graphic, s)) == s
  {
    UnescapeThen(graphic, s, []);
    assert Escape(graphic, s) + [] == Escape(graphic, s);
  }

  lemma EscapeInjective(graphic: int -> bool, s1: Bytes, s2: Bytes)
    requires Escape(graphic, s1) == Escape(graphic, s2)
    ensures s1 == s2
  {
    UnescapeEscape(graphic, s1);
    UnescapeEscape(graphic, s2);
  }

  // ----- what is left alone

  /** Well-formed UTF-8 of graphic code points, none of them with a short escape. */
  predicate Plain(graphic: int -> bool, s: Bytes)
    decreases |s|
  {
    s != [] ==>
      && s[0] !in [TAB, LF, CR, QUOTE, BACKSLASH] && DecodeRune(s).Rune? && graphic(DecodeRune(s).value)
      && Plain(graphic, s[DecodeRune(s).size..])
  }

  lemma {:induction false} HexAllLength(s: Bytes)
    ensures |HexAll(s)| == 4 * |s|
  {
    if s != [] { HexAllLength(s[1..]); }
  }

  /** One turn never shortens, and writes exactly as much as it consumes only when it copies. */
  lemma HeadLength(graphic: int -> bool, s: Bytes)
    requires s != []
    ensures |Head(graphic, s).1| >= Head(graphic, s).0
    ensures |Head(graphic, s).1| == Head(graphic, s).0 <==>
              s[0] !in [TAB, LF, CR, QUOTE, BACKSLASH] && DecodeRune(s).Rune? && graphic(DecodeRune(s).value)
    ensures |Head(graphic, s).1| == Head(graphic, s).0 ==>
              Head(graphic, s) == (DecodeRune(s).size, s[..DecodeRune(s).size])
  {
    if DecodeRune(s).Rune? { HexAllLength(s[..DecodeRune(s).size]); }
  }

  /** Exactly such text is displayed as it is; everything else grows. */
  lemma {:induction false} PlainIffUnchanged(graphic: int -> bool, s: Bytes)
    ensures |Escape(graphic, s)| >= |s|
    ensures Plain(graphic, s) <==> |Escape(graphic, s)| == |s|
    ensures Plain(graphic, s) <==> Escape(graphic, s) == s
    decreases |s|
  {
    if s != [] {
      HeadLength(graphic, s);
      var size := Head(graphic, s).0;
      PlainIffUnchanged(graphic, s[size..]);
      assert s[..size] + s[size..] == s;
    }
  }

  // ----- the line stays one line

  predicate Control(r: int) { 0 <= r < 32 || r == 127 }

  ghost predicate RejectsControls(graphic: int -> bool) { forall r :: Control(r) ==> !graphic(r) }

  predicate OneLine(t: Bytes) { forall i :: 0 <= i < |t| ==> t[i] >= 32 }

  lemma OneLineConcat(a: Bytes, b: Bytes)
    requires OneLine(a) && OneLine(b)
    ensures OneLine(a + b)
  {
  }

  lemma {:induction false} HexAllOneLine(s: Bytes)
    ensures OneLine(HexAll(s))
  {
    if s != [] {
      HexAllOneLine(s[1..]);
      assert OneLine(Hex(s[0]));
      OneLineConcat(Hex(s[0]), HexAll(s[1..]));
    }
  }

  lemma HeadOneLine(graphic: int -> bool, s: Bytes)
    requires RejectsControls(graphic) && s != []
    ensures OneLine(Head(graphic, s).1)
  {
    if Short(s[0]).None? && DecodeRune(s).Rune? {
      var d := DecodeRune(s);
      HexAllOneLine(s[..d.size]);
      assert graphic(d.value) ==> !Control(d.value);
    }
  }

  /** The output never contains tab, CR, LF, NUL or any other byte below space. */
  lemma {:induction false} EscapeOneLine(graphic: int -> bool, s: Bytes)
    requires RejectsControls(graphic)
    ensures OneLine(Escape(graphic, s))
    decreases |s|
  {
    if s != [] {
      var (size, text) := Head(graphic, s);
      HeadOneLine(graphic, s);
      EscapeOneLine(graphic, s[size..]);
      OneLineConcat(text, Escape(graphic, s[size..]));
    }
  }
}
