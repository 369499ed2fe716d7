/** Candidate lines and their NUL framing (internal/protocol/codec.go, internal/fzf/output.go). */
module Codec {
  import opened Basics
  import opened Protocol
  import Base64

  // ----- one record

  function KindName(kind: Kind): Bytes {
    match kind
    case KindLocal => [108, 111, 99, 97, 108]
    case KindDirectory => [100, 105, 114, 101, 99, 116, 111, 114, 121]
    case KindFile => [102, 105, 108, 101]
    case KindZoxide => [122, 111, 120, 105, 100, 101]
    case KindDrive => [100, 114, 105, 118, 101]
    case KindVirtual => [118, 105, 114, 116, 117, 97, 108]
  }

  /** "drives", the only target a virtual record may carry. */
  const VIRTUAL_DRIVES: Bytes := [100, 114, 105, 118, 101, 115]

  function KindNamed(name: Bytes): Option<Kind> {
    if name == KindName(KindLocal) then Some(KindLocal)
    else if name == KindName(KindDirectory) then Some(KindDirectory)
    else if name == KindName(KindFile) then Some(KindFile)
    else if name == KindName(KindZoxide) then Some(KindZoxide)
    else if name == KindName(KindDrive) then Some(KindDrive)
    else if name == KindName(KindVirtual) then Some(KindVirtual)
    else None
  }

  predicate Free(s: Bytes, b: byte) { forall i :: 0 <= i < |s| ==> s[i] != b }

  /** The line: kind, display and payload separated by tabs (WireRecord.Bytes, fullRecordKey). */
  function Print(w: WireRecord): Bytes { KindName(w.kind) + [TAB] + w.display + [TAB] + w.payload }

  /** bytes.IndexByte, with the length standing for "absent". */
  function Index(s: Bytes, b: byte): (i: nat)
    ensures i <= |s|
    ensures Free(s[..i], b)
    ensures i < |s| ==> s[i] == b
  {
    if s == [] || s[0] == b then 0 else 1 + Index(s[1..], b)
  }

  function Count(s: Bytes, b: byte): nat {
    if s == [] then 0 else (if s[0] == b then 1 else 0) + Count(s[1..], b)
  }

  datatype ParseError = HasNul | WrongTabs | BadKind | EmptyPayload | BadPayload | NotCanonical | BadVirtual

  /** A parser of lines; the source's is ParseRecord with the standard cut. */
  type Parser = Bytes -> Result<WireRecord, ParseError>

  function DecodePath(cut: Base64.Cut, payload: Bytes): Result<Bytes, ParseError> {
    if payload == [] then Err(EmptyPayload)
    else if Base64.Decode(cut, payload).None? then Err(BadPayload)
    else Ok(Base64.Decode(cut, payload).value)
  }

  /** The text before, between and after the two tabs. */
  function Columns(record: Bytes): Result<(Bytes, Bytes, Bytes), ParseError> {
    if Index(record, NUL) < |record| then Err(HasNul)
    else if Count(record, TAB) != 2 then Err(WrongTabs)
    else
      var first := Index(record, TAB);
      if first == |record| then Err(WrongTabs) else
      var rest := record[first + 1..];
      var second := Index(rest, TAB);
      if second == |rest| then Err(WrongTabs)
      else Ok((record[..first], rest[..second], rest[second + 1..]))
  }

  function CheckColumns(cut: Base64.Cut, name: Bytes, display: Bytes, payload: Bytes): Result<WireRecord, ParseError> {
    var kind := KindNamed(name);
    if kind.None? then Err(BadKind)
    else
      var path := DecodePath(cut, payload);
      if path.Err? then Err(path.error)
      else if Base64.Encode(cut, path.value) != payload then Err(NotCanonical)
      else if kind.value == KindVirtual && path.value != VIRTUAL_DRIVES then Err(BadVirtual)
      else Ok(WireRecord(kind.value, display, payload))
  }

  function ParseRecord(cut: Base64.Cut, record: Bytes): Result<WireRecord, ParseError> {
    var columns := Columns(record);
    if columns.Err? then Err(columns.error) else CheckColumns(cut, columns.value.0, columns.value.1, columns.value.2)
  }

  /** The records the format is for: a display without tab or NUL and the encoding of a nonempty path. */
  ghost predicate Canonical(cut: Base64.Cut, w: WireRecord) {
    && Free(w.display, TAB) && Free(w.display, NUL)
    && exists path: Bytes :: Encodes(cut, w, path)
  }

  predicate Encodes(cut: Base64.Cut, w: WireRecord, path: Bytes) {
    path != [] && w.payload == Base64.Encode(cut, path) && (w.kind == KindVirtual ==> path == VIRTUAL_DRIVES)
  }

  lemma KindNamesFree(kind: Kind)
    ensures KindNamed(KindName(kind)) == Some(kind)
    ensures Free(KindName(kind), TAB) && Free(KindName(kind), NUL)
  {
  }

  lemma KindNameUnique(name: Bytes)
    ensures KindNamed(name).Some? ==> KindName(KindNamed(name).value) == name
  {
  }

  lemma {:induction false} CountConcat(a: Bytes, b: Bytes, x: byte)
    ensures Count(a + b, x) == Count(a, x) + Count(b, x)
  {
    if a == [] {
      assert a + b == b;
    } else {
      CountConcat(a[1..], b, x);
      assert (a + b)[1..] == a[1..] + b;
    }
  }

  lemma {:induction false} CountFree(s: Bytes, x: byte)
    ensures Free(s, x) <==> Count(s, x) == 0
  {
    if s != [] {
      CountFree(s[1..], x);
      assert Free(s, x) <==> s[0] != x && Free(s[1..], x) by { assert s == [s[0]] + s[1..]; }
    }
  }

  /** The first occurrence ends any prefix that is free of the byte. */
  lemma {:induction false} IndexAfterFree(a: Bytes, b: Bytes, x: byte)
    requires Free(a, x)
    ensures Index(a + [x] + b, x) == |a|
  {
    if a != [] {
      IndexAfterFree(a[1..], b, x);
      assert (a + [x] + b)[1..] == a[1..] + [x] + b;
    }
  }

  lemma PrintShape(w: WireRecord)
    requires Free(w.display, TAB) && Free(w.payload, TAB)
    ensures Count(Print(w), TAB) == 2
    ensures Index(Print(w), TAB) == |KindName(w.kind)|
    ensures Print(w)[|KindName(w.kind)| + 1..] == w.display + [TAB] + w.payload
    ensures Index(w.display + [TAB] + w.payload, TAB) == |w.display|
  {
    var k := KindName(w.kind);
    KindNamesFree(w.kind);
    var rest := w.display + [TAB] + w.payload;
    assert Print(w) == k + [TAB] + rest;
    IndexAfterFree(k, rest, TAB);
    IndexAfterFree(w.display, w.payload, TAB);
    CountConcat(k + [TAB], rest, TAB);
    CountConcat(k, [TAB], TAB);
    CountConcat(w.display + [TAB], w.payload, TAB);
    CountConcat(w.display, [TAB], TAB);
    CountFree(k, TAB);
    CountFree(w.display, TAB);
    CountFree(w.payload, TAB);
    assert [TAB][1..] == [];
    assert Count([TAB], TAB) == 1;
  }

  lemma FreeConcat(a: Bytes, b: Bytes, x: byte)
    ensures Free(a + b, x) <==> Free(a, x) && Free(b, x)
  {
    assert Free(a + b, x) ==> Free(a, x) && Free(b, x) by {
      assert forall i :: 0 <= i < |a| ==> (a + b)[i] == a[i];
      assert forall i :: 0 <= i < |b| ==> (a + b)[|a| + i] == b[i];
    }
  }

  lemma PrintNulFree(w: WireRecord)
    ensures Free(Print(w), NUL) <==> Free(w.display, NUL) && Free(w.payload, NUL)
  {
    KindNamesFree(w.kind);
    FreeConcat(KindName(w.kind) + [TAB] + w.display + [TAB], w.payload, NUL);
    FreeConcat(KindName(w.kind) + [TAB] + w.display, [TAB], NUL);
    FreeConcat(KindName(w.kind) + [TAB], w.display, NUL);
    FreeConcat(KindName(w.kind), [TAB], NUL);
  }

  lemma ColumnsOfPrint(w: WireRecord)
    requires Free(w.display, TAB) && Free(w.display, NUL) && Free(w.payload, TAB) && Free(w.payload, NUL)
    ensures Columns(Print(w)) == Ok((KindName(w.kind), w.display, w.payload))
  {
    PrintShape(w);
    PrintNulFree(w);
    var line := Print(w);
    assert line[..|KindName(w.kind)|] == KindName(w.kind);
    var rest := w.display + [TAB] + w.payload;
    assert rest[..|w.display|] == w.display;
    assert rest[|w.display| + 1..] == w.payload;
    assert Index(line, NUL) == |line|;
  }

  lemma PrintOfColumns(record: Bytes)
    requires Columns(record).Ok?
    ensures var (name, display, payload) := Columns(record).value;
            && name + [TAB] + display + [TAB] + payload == record
            && Free(record, NUL) && Free(display, TAB)
  {
    var first := Index(record, TAB);
    TwoCuts(record, TAB);
    assert Free(record, NUL) by {
      assert record[..|record|] == record;
    }
  }

  /** Cutting twice at a separator and joining again. */
  lemma TwoCuts(s: Bytes, x: byte)
    requires Index(s, x) < |s|
    requires var rest := s[Index(s, x) + 1..]; Index(rest, x) < |rest|
    ensures var rest := s[Index(s, x) + 1..];
            s[..Index(s, x)] + [x] + rest[..Index(rest, x)] + [x] + rest[Index(rest, x) + 1..] == s
  {
    var rest := s[Index(s, x) + 1..];
    CutAt(s, x);
    CutAt(rest, x);
    Regroup(s, s[..Index(s, x)], rest, rest[..Index(rest, x)], rest[Index(rest, x) + 1..], x);
  }

  lemma CutAt(s: Bytes, x: byte)
    requires Index(s, x) < |s|
    ensures s == s[..Index(s, x)] + ([x] + s[Index(s, x) + 1..])
  {
  }

  lemma Regroup(s: Bytes, a: Bytes, rest: Bytes, b: Bytes, c: Bytes, x: byte)
    requires s == a + ([x] + rest) && rest == b + ([x] + c)
    ensures a + [x] + b + [x] + c == s
  {
  }

  /** Parsing undoes printing on every canonical record. */
  lemma ParsePrint(cut: Base64.Cut, w: WireRecord)
    requires Canonical(cut, w)
    ensures ParseRecord(cut, Print(w)) == Ok(w)
  {
    var path :| Encodes(cut, w, path);
    Base64.EncodeClean(cut, path);
    Base64.RoundTrip(cut, path);
    ColumnsOfPrint(w);
    KindNamesFree(w.kind);
  }

  /** Every accepted line is the printing of the record it parses to, and that record is canonical. */
  lemma PrintParse(cut: Base64.Cut, record: Bytes)
    requires ParseRecord(cut, record).Ok?
    ensures Print(ParseRecord(cut, record).value) == record
    ensures Canonical(cut, ParseRecord(cut, record).value)
  {
    var w := ParseRecord(cut, record).value;
    PrintOfColumns(record);
    KindNameUnique(Columns(record).value.0);
    PrintNulFree(w);
    var path := Base64.Decode(cut, w.payload).value;
    Base64.EncodeClean(cut, path);
    assert Encodes(cut, w, path);
  }

  /** The codec is a bijection: a line is accepted exactly when it prints some canonical record, and kind, display and
      decoded path together determine the line. */
  lemma AcceptedIffPrinted(cut: Base64.Cut, record: Bytes)
    ensures ParseRecord(cut, record).Ok? <==> exists w :: Canonical(cut, w) && Print(w) == record
  {
    if ParseRecord(cut, record).Ok? {
      PrintParse(cut, record);
    }
    if w :| Canonical(cut, w) && Print(w) == record {
      ParsePrint(cut, w);
    }
  }

  lemma ColumnsDetermineLine(cut: Base64.Cut, r1: Bytes, r2: Bytes)
    requires ParseRecord(cut, r1).Ok? && ParseRecord(cut, r2).Ok?
    requires var w1, w2 := ParseRecord(cut, r1).value, ParseRecord(cut, r2).value;
             w1.kind == w2.kind && w1.display == w2.display
                 && DecodePath(cut, w1.payload) == DecodePath(cut, w2.payload)
    ensures r1 == r2
  {
    PrintParse(cut, r1);
    PrintParse(cut, r2);
    SamePath(cut, ParseRecord(cut, r1).value, ParseRecord(cut, r2).value);
  }

  lemma SamePath(cut: Base64.Cut, w1: WireRecord, w2: WireRecord)
    requires Canonical(cut, w1) && Canonical(cut, w2) && DecodePath(cut, w1.payload) == DecodePath(cut, w2.payload)
    ensures w1.payload == w2.payload
  {
    var p1 :| Encodes(cut, w1, p1);
    var p2 :| Encodes(cut, w2, p2);
    Base64.EncodeClean(cut, p1);
    Base64.EncodeClean(cut, p2);
    Base64.RoundTrip(cut, p1);
    Base64.RoundTrip(cut, p2);
  }

  /** What the re-encoding test in ParseRecord adds to strict decoding: it rejects just the payloads with CR or LF. */
  lemma CanonicalTestIsNewlineTest(cut: Base64.Cut, w: WireRecord)
    requires Free(w.display, TAB) && Free(w.display, NUL) && Free(w.payload, TAB) && Free(w.payload, NUL)
    requires w.payload != [] && Base64.Decode(cut, w.payload).Some?
    ensures ParseRecord(cut, Print(w)) == Err(NotCanonical) <==> !(Free(w.payload, CR) && Free(w.payload, LF))
  {
    ColumnsOfPrint(w);
    KindNamesFree(w.kind);
    Base64.CanonicalIffNoNewline(cut, w.payload);
  }

  // ----- framing

  function FrameLines(lines: seq<Bytes>): Bytes {
    if lines == [] then [] else lines[0] + [NUL] + FrameLines(lines[1..])
  }

  function Lines(records: seq<Record>): seq<Bytes> { Map((r: Record) => Print(r.Wire()), records) }

  /** FrameRecordValues: what fzf is fed for a list of records. */
  function Frame(records: seq<Record>): Bytes { FrameLines(Lines(records)) }

  lemma {:induction false} FrameLinesConcat(a: seq<Bytes>, b: seq<Bytes>)
    ensures FrameLines(a + b) == FrameLines(a) + FrameLines(b)
  {
    if a == [] {
      assert a + b == b;
    } else {
      FrameLinesConcat(a[1..], b);
      assert (a + b)[1..] == a[1..] + b;
    }
  }

  lemma FrameConcat(a: seq<Record>, b: seq<Record>)
    ensures Frame(a + b) == Frame(a) + Frame(b)
  {
    assert Lines(a + b) == Lines(a) + Lines(b);
    FrameLinesConcat(Lines(a), Lines(b));
  }

  lemma FrameSnoc(records: seq<Record>, i: nat)
    requires i < |records|
    ensures Frame(records[..i + 1]) == Frame(records[..i]) + (Print(records[i].Wire()) + [NUL])
  {
    assert records[..i + 1] == records[..i] + [records[i]];
    FrameConcat(records[..i], [records[i]]);
    assert Lines([records[i]]) == [Print(records[i].Wire())];
    OneFrame(Print(records[i].Wire()));
  }

  /** FrameRecords and FrameRecordValues, as the loop over a growing buffer they are. */
  method FrameRecords(records: seq<Record>) returns (framed: Bytes)
    ensures framed == Frame(records)
  {
    framed := [];
    for i := 0 to |records|
      invariant framed == Frame(records[..i])
    {
      var w := records[i].Wire();
      framed := framed + KindName(w.kind) + [TAB] + w.display + [TAB] + w.payload;
      framed := framed + [NUL];
      FrameSnoc(records, i);
    }
    assert records[..|records|] == records;
  }

  /** bytes.Split on a single separator byte. */
  function Split(s: Bytes, sep: byte): (parts: seq<Bytes>)
    ensures |parts| >= 1
    decreases |s|
  {
    var i := Index(s, sep);
    if i == |s| then [s] else [s[..i]] + Split(s[i + 1..], sep)
  }

  function NulFrames(output: Bytes): Result<seq<Bytes>, ()> {
    if output == [] then Ok([])
    else if output[|output| - 1] != NUL then Err(())
    else Ok(Split(output[..|output| - 1], NUL))
  }

  predicate AllFree(lines: seq<Bytes>) { forall i :: 0 <= i < |lines| ==> Free(lines[i], NUL) }

  lemma {:induction false} SplitFrames(lines: seq<Bytes>)
    requires lines != [] && AllFree(lines)
    ensures FrameLines(lines) != [] && FrameLines(lines)[|FrameLines(lines)| - 1] == NUL
    ensures Split(FrameLines(lines)[..|FrameLines(lines)| - 1], NUL) == lines
  {
    var f := FrameLines(lines);
    var body := f[..|f| - 1];
    if |lines| == 1 {
      assert FrameLines(lines[1..]) == [];
      assert body == lines[0];
      assert Index(body, NUL) == |body|;
    } else {
      SplitFrames(lines[1..]);
      var g := FrameLines(lines[1..]);
      assert body == lines[0] + [NUL] + g[..|g| - 1];
      IndexAfterFree(lines[0], g[..|g| - 1], NUL);
      assert body[|lines[0]| + 1..] == g[..|g| - 1];
      assert body[..|lines[0]|] == lines[0];
    }
  }

  lemma {:induction false} FramesOfSplit(s: Bytes)
    ensures FrameLines(Split(s, NUL)) == s + [NUL] && AllFree(Split(s, NUL))
    decreases |s|
  {
    var i := Index(s, NUL);
    assert s[..i] == s || i < |s|;
    if i == |s| {
      OneFrame(s);
    } else {
      FramesOfSplit(s[i + 1..]);
      NextFrame(s[..i], Split(s[i + 1..], NUL));
      CutAt(s, NUL);
      Regroup(s + [NUL], s[..i], s[i + 1..] + [NUL], s[i + 1..], [], NUL);
    }
  }

  lemma OneFrame(line: Bytes)
    ensures FrameLines([line]) == line + [NUL]
  {
    assert [line][1..] == [];
    assert line + [NUL] + [] == line + [NUL];
  }

  lemma NextFrame(line: Bytes, lines: seq<Bytes>)
    ensures FrameLines([line] + lines) == line + [NUL] + FrameLines(lines)
    ensures Free(line, NUL) && AllFree(lines) ==> AllFree([line] + lines)
  {
    assert ([line] + lines)[1..] == lines;
  }

  /** Unframing undoes framing on every list of NUL-free lines, the empty list included. */
  lemma UnframeFrame(lines: seq<Bytes>)
    requires AllFree(lines)
    ensures NulFrames(FrameLines(lines)) == Ok(lines)
  {
    if lines != [] { SplitFrames(lines); }
  }

  /** Whatever unframes is the framing of its result, and every frame is NUL-free. */
  lemma FrameUnframe(output: Bytes)
    requires NulFrames(output).Ok?
    ensures FrameLines(NulFrames(output).value) == output && AllFree(NulFrames(output).value)
  {
    if output != [] {
      FramesOfSplit(output[..|output| - 1]);
      assert output == output[..|output| - 1] + [NUL];
    }
  }

  /** nulFrames, as the loop that clones each part. */
  method UnframeOutput(output: Bytes) returns (frames: Result<seq<Bytes>, ()>)
    ensures frames.Ok? ==> FrameLines(frames.value) == output && AllFree(frames.value)
    ensures frames.Ok? <==> output == [] || output[|output| - 1] == NUL
  {
    if |output| == 0 {
      return Ok([]);
    }
    if output[|output| - 1] != 0 {
      return Err(());
    }
    var parts := Split(output[..|output| - 1], NUL);
    var copies: seq<Bytes> := [];
    for i := 0 to |parts|
      invariant copies == parts[..i]
    {
      copies := copies + [parts[i]];
    }
    assert copies == parts;
    FrameUnframe(output);
    return Ok(copies);
  }

  /** Framing loses nothing: equal bytes come from equal lines. */
  lemma FrameInjective(a: seq<Bytes>, b: seq<Bytes>)
    requires AllFree(a) && AllFree(b) && FrameLines(a) == FrameLines(b)
    ensures a == b
  {
    UnframeFrame(a);
    UnframeFrame(b);
  }
}
