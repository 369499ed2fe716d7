/** The callback command grammar (internal/callback/grammar.go) and the load argument fzf is told to call back with
    (internal/fzf/action.go). */
module Grammar {
  import opened Basics
  import opened Protocol

  datatype Command =
    | EventCommand(opcode: Opcode)
    | Load(generation: nat, event: nat)
    | Preview
    | Display
    | Info(picker: Picker)
    | EmptySource
    | InvalidPreview

  // ----- decimals

  function DigitChar(d: nat): char
    requires d < 10
  {
    '0' + d as char
  }

  predicate IsDigit(c: char) { '0' <= c <= '9' }

  function DigitValue(c: char): nat
    requires IsDigit(c)
  {
    (c - '0') as nat
  }

  predicate AllDigits(s: string) { forall i :: 0 <= i < |s| ==> IsDigit(s[i]) }

  /** What %d prints. */
  function Decimal(n: nat): string {
    if n < 10 then [DigitChar(n)] else Decimal(n / 10) + [DigitChar(n % 10)]
  }

  function Value(s: string): nat
    requires AllDigits(s)
  {
    if s == [] then 0 else 10 * Value(s[..|s| - 1]) + DigitValue(s[|s| - 1])
  }

  /** strconv.ParseUint of a string of digits, base 10, 64 bits. */
  function ParseUint(s: string): Option<nat>
    requires AllDigits(s)
  {
    if Value(s) <= MAX_UINT64 then Some(Value(s)) else None
  }

  // ----- the grammar

  function Split(s: string): (parts: seq<string>)
    ensures |parts| > 0
  {
    if s == [] then [[]]
    else
      var rest := Split(s[1..]);
      if s[0] == ':' then [[]] + rest else [[s[0]] + rest[0]] + rest[1..]
  }

  function ParsePositive(s: string): Option<nat> {
    if s == "" || s == "0" || s[0] == '0' then None
    else if !AllDigits(s) then None
    else
      var n := ParseUint(s);
      if n.None? || n.value == 0 then None else n
  }

  function ParseLoad(digits: string): Option<Command> {
    var parts := Split(digits);
    if |parts| > 2 then None
    else
      var generation := ParsePositive(parts[0]);
      if generation.None? then None
      else if |parts| == 1 then Some(Load(generation.value, 0))
      else
        var event := ParsePositive(parts[1]);
        if event.None? then None else Some(Load(generation.value, event.value))
  }

  const EVENTS: map<string, Opcode> := map[
    "e:mi" := OpModeInsert, "e:ma" := OpModeAdd, "e:es" := OpEscape, "e:fw" := OpForward, "e:up" := OpParent,
    "e:sl" := OpSlash, "e:hm" := OpHome, "e:en" := OpEnter, "e:rs" := OpRestoreView]

  function Parse(raw: string): Option<Command> {
    if raw in EVENTS then Some(EventCommand(EVENTS[raw]))
    else if raw == "p" then Some(Preview)
    else if raw == "d" then Some(Display)
    else if raw == "i:cd" then Some(Info(PickerCD))
    else if raw == "i:cp" then Some(Info(PickerCP))
    else if raw == "l:empty" then Some(EmptySource)
    else if raw == "p:invalid" then Some(InvalidPreview)
    else if !("l:" <= raw) then None
    else ParseLoad(raw[2..])
  }

  /** The argument reloadForEvent puts into reload-sync. */
  function LoadArgument(generation: nat, event: nat): string {
    "l:" + if event == 0 then Decimal(generation) else Decimal(generation) + ":" + Decimal(event)
  }

  // ----- decimals round trip

  lemma {:induction false} ValueOfDecimal(n: nat)
    ensures AllDigits(Decimal(n)) && Value(Decimal(n)) == n
    ensures Decimal(n) != [] && (n > 0 ==> Decimal(n)[0] != '0')
  {
    if n >= 10 {
      ValueOfDecimal(n / 10);
      assert Decimal(n)[..|Decimal(n)| - 1] == Decimal(n / 10);
    } else {
      assert Decimal(n)[..0] == [];
    }
  }

  predicate Numeral(s: string) { s != [] && AllDigits(s) && s[0] != '0' }

  lemma {:induction false} DecimalOfValue(s: string)
    requires Numeral(s)
    ensures Value(s) > 0 && Decimal(Value(s)) == s
  {
    var front, last := s[..|s| - 1], DigitValue(s[|s| - 1]);
    if front == [] {
      assert Value(front) == 0 && s == [DigitChar(last)];
    } else {
      DecimalOfValue(front);
      assert Value(s) / 10 == Value(front) && Value(s) % 10 == last;
    }
  }

  lemma ParsePositiveDecimal(n: nat)
    ensures ParsePositive(Decimal(n)) == if 1 <= n <= MAX_UINT64 then Some(n) else None
  {
    ValueOfDecimal(n);
    if n == 0 { assert Decimal(0) == "0"; }
  }

  lemma ParsePositiveCanonical(s: string)
    ensures ParsePositive(s).Some? <==> Numeral(s) && Value(s) <= MAX_UINT64
    ensures ParsePositive(s).Some? ==> s == Decimal(ParsePositive(s).value) && 1 <= ParsePositive(s).value <= MAX_UINT64
  {
    if Numeral(s) { DecimalOfValue(s); }
  }

  // ----- splitting

  predicate NoColon(s: string) { forall i :: 0 <= i < |s| ==> s[i] != ':' }

  lemma {:induction false} SplitPlain(s: string)
    requires NoColon(s)
    ensures Split(s) == [s]
  {
    if s != [] {
      SplitPlain(s[1..]);
      assert s == [s[0]] + s[1..];
    }
  }

  lemma {:induction false} SplitPair(a: string, b: string)
    requires NoColon(a) && NoColon(b)
    ensures Split(a + ":" + b) == [a, b]
  {
    var s := a + ":" + b;
    if a == [] {
      assert s[1..] == b;
      SplitPlain(b);
    } else {
      assert s[1..] == a[1..] + ":" + b;
      SplitPair(a[1..], b);
      assert a == [a[0]] + a[1..];
    }
  }

  /** Joining the parts gives the string back. */
  lemma {:induction false} SplitJoins(s: string)
    ensures |Split(s)| == 1 ==> s == Split(s)[0]
    ensures |Split(s)| == 2 ==> s == Split(s)[0] + ":" + Split(s)[1]
  {
    if s != [] {
      SplitJoins(s[1..]);
      assert s == [s[0]] + s[1..];
    }
  }

  // ----- the load command

  lemma ParseLoadArgument(generation: nat, event: nat)
    ensures ParseLoad(LoadArgument(generation, event)[2..])
            == if 1 <= generation <= MAX_UINT64 && event <= MAX_UINT64 then Some(Load(generation, event)) else None
  {
    var g, e := Decimal(generation), Decimal(event);
    ValueOfDecimal(generation);
    ValueOfDecimal(event);
    ParsePositiveDecimal(generation);
    ParsePositiveDecimal(event);
    if event == 0 {
      assert LoadArgument(generation, event)[2..] == g;
      SplitPlain(g);
    } else {
      assert LoadArgument(generation, event)[2..] == g + ":" + e;
      SplitPair(g, e);
    }
  }

  /** Only a load argument, and never a fixed word, starts with "l:" followed by a digit. */
  lemma NotAWord(raw: string)
    requires |raw| > 2 && raw[0] == 'l' && IsDigit(raw[2])
    ensures raw !in EVENTS
    ensures raw != "p" && raw != "d" && raw != "i:cd" && raw != "i:cp" && raw != "l:empty" && raw != "p:invalid"
  {
    assert "l:empty"[2] == 'e';
  }

  /** What is printed for a generation and an event is read back as exactly that pair, and is refused exactly when a
      number is out of range. */
  lemma ParsePrinted(generation: nat, event: nat)
    ensures Parse(LoadArgument(generation, event))
            == if 1 <= generation <= MAX_UINT64 && event <= MAX_UINT64 then Some(Load(generation, event)) else None
  {
    ValueOfDecimal(generation);
    var raw := LoadArgument(generation, event);
    assert raw[2] == Decimal(generation)[0];
    NotAWord(raw);
    ParseLoadArgument(generation, event);
  }

  /** Whatever is read as a load is the one printing of what was read. */
  lemma PrintParsed(raw: string)
    requires Parse(raw).Some? && Parse(raw).value.Load?
    ensures var load := Parse(raw).value;
            && 1 <= load.generation <= MAX_UINT64 && load.event <= MAX_UINT64
            && raw == LoadArgument(load.generation, load.event)
  {
    var digits := raw[2..];
    var parts := Split(digits);
    SplitJoins(digits);
    ParsePositiveCanonical(parts[0]);
    if |parts| == 2 { ParsePositiveCanonical(parts[1]); }
    assert raw == "l:" + digits;
  }
}
