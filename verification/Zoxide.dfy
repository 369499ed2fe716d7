/** Parsing zoxide's output (internal/candidate/zoxide.go). `display` stands for the display form of a path. */
module Zoxide {
  import opened Basics
  import opened Protocol
  import opened Codec
  import Base64
  import ZoxideLimits

  datatype OutputError = OverLimit | Malformed

  // ----- rows

  predicate LegalRow(row: Bytes) { row != [] && Free(row, NUL) && row[0] == SLASH }

  /** Every row followed by a newline. */
  function Terminated(rows: seq<Bytes>): Bytes {
    if rows == [] then [] else rows[0] + [LF] + Terminated(rows[1..])
  }

  ghost predicate AllLegal(rows: seq<Bytes>) {
    forall i :: 0 <= i < |rows| ==> LegalRow(rows[i]) && Free(rows[i], LF)
  }

  /** What follows the row that ends at i. */
  function AfterRow(body: Bytes, i: nat): Bytes
    requires i <= |body|
  {
    if i < |body| then body[i + 1..] else []
  }

  function Prepend(rows: seq<Bytes>, rest: Option<seq<Bytes>>): Option<seq<Bytes>> {
    if rest.None? then None else Some(rows + rest.value)
  }

  function RowsOf(body: Bytes): Option<seq<Bytes>>
    decreases |body|
  {
    if body == [] then Some([])
    else
      var i := Index(body, LF);
      if LegalRow(body[..i]) then Prepend([body[..i]], RowsOf(AfterRow(body, i))) else None
  }

  function Parsed(output: Bytes): Option<seq<Bytes>> {
    if output == [] then Some([])
    else
      if Trimmed(output) == [] then None else RowsOf(Trimmed(output))
  }

  /** The output without its last newline. */
  function Trimmed(output: Bytes): (body: Bytes)
    requires output != []
    ensures output == body || output == body + [LF]
  {
    if output[|output| - 1] == LF then output[..|output| - 1] else output
  }

  function RecordOf(display: Bytes -> Bytes, row: Bytes): Record {
    Record(KindZoxide, display(row), row, Base64.Encode(Base64.Standard(), row), Filesystem(row))
  }

  /** The record of a row has the row for its path and target, and its line parses back to it and the row. */
  lemma RecordOfRow(display: Bytes -> Bytes, row: Bytes)
    requires row != [] && Free(display(row), TAB) && Free(display(row), NUL)
    ensures var r, cut := RecordOf(display, row), Base64.Standard();
            && r.kind == KindZoxide && r.path == row && r.target == Filesystem(row) && r.display == display(row)
            && ParseRecord(cut, Print(r.Wire())) == Ok(r.Wire())
            && DecodePath(cut, r.payload) == Ok(row)
  {
    var r, cut := RecordOf(display, row), Base64.Standard();
    assert Encodes(cut, r.Wire(), row);
    ParsePrint(cut, r.Wire());
    Base64.EncodeClean(cut, row);
    Base64.RoundTrip(cut, row);
  }

  // ----- the loop

  method ScanRows(body: Bytes) returns (rows: Option<seq<Bytes>>)
    ensures rows == RowsOf(body)
  {
    var found: seq<Bytes> := [];
    var start := 0;
    assert body[0..] == body;
    PrependNothing([], RowsOf(body));
    while start < |body|
      invariant 0 <= start <= |body|
      invariant RowsOf(body) == Prepend(found, RowsOf(body[start..]))
    {
      var end := Index(body[start..], LF);
      var row := body[start..start + end];
      assert row == body[start..][..end];
      if |row| == 0 || Index(row, NUL) < |row| || row[0] != SLASH {
        LegalIffIndex(row);
        return None;
      }
      LegalIffIndex(row);
      ghost var rest := body[start..];
      PrependTwice(found, row, RowsOf(AfterRow(rest, end)));
      found := found + [row];
      start := start + end;
      if start < |body| && body[start] == LF {
        start := start + 1;
      }
      assert body[start..] == AfterRow(rest, end);
    }
    assert body[start..] == [];
    PrependNothing(found, Some([]));
    return Some(found);
  }

  lemma LegalIffIndex(row: Bytes)
    ensures LegalRow(row) <==> row != [] && Index(row, NUL) == |row| && row[0] == SLASH
  {
    assert row[..|row|] == row;
  }

  lemma PrependNothing(rows: seq<Bytes>, rest: Option<seq<Bytes>>)
    ensures Prepend([], rest) == rest && Prepend(rows, Some([])) == Some(rows)
  {
    if rest.Some? { assert [] + rest.value == rest.value; }
    assert rows + [] == rows;
  }

  lemma PrependTwice(found: seq<Bytes>, row: Bytes, rest: Option<seq<Bytes>>)
    ensures Prepend(found, Prepend([row], rest)) == Prepend(found + [row], rest)
  {
    if rest.Some? { assert found + ([row] + rest.value) == found + [row] + rest.value; }
  }

  method ParseZoxideRecords(display: Bytes -> Bytes, output: Bytes) returns (records: Result<seq<Record>, OutputError>)
    ensures records ==
              if !ZoxideLimits.Within(ZoxideLimits.ZOXIDE_LIMITS, output) then Err(OverLimit)
              else if Parsed(output).None? then Err(Malformed)
              else Ok(Map(row => RecordOf(display, row), Parsed(output).value))
  {
    var bounded := ZoxideLimits.ValidateBounds(output);
    if !bounded {
      return Err(OverLimit);
    }
    if |output| == 0 {
      return Ok([]);
    }
    var body := if output[|output| - 1] == LF then output[..|output| - 1] else output;
    if |body| == 0 {
      return Err(Malformed);
    }
    var rows := ScanRows(body);
    if rows.None? {
      return Err(Malformed);
    }
    return Ok(Map(row => RecordOf(display, row), rows.value));
  }

  // ----- exactly what is accepted

  lemma TerminatedEnds(rows: seq<Bytes>)
    requires rows != []
    ensures |Terminated(rows)| > 0 && Terminated(rows)[|Terminated(rows)| - 1] == LF
  {
    if |rows| > 1 { TerminatedEnds(rows[1..]); }
  }

  /** The rows with a newline after each, the last one's newline optional. */
  ghost predicate Spells(body: Bytes, rows: seq<Bytes>) {
    body == Terminated(rows) || (rows != [] && body + [LF] == Terminated(rows))
  }

  lemma {:induction false} RowsSpell(body: Bytes)
    requires RowsOf(body).Some?
    ensures AllLegal(RowsOf(body).value) && Spells(body, RowsOf(body).value)
    ensures body != [] ==> RowsOf(body).value != []
    decreases |body|
  {
    if body != [] {
      var i := Index(body, LF);
      var rest := AfterRow(body, i);
      RowsSpell(rest);
      var rows := RowsOf(body).value;
      assert rows == [body[..i]] + RowsOf(rest).value;
      assert rows[1..] == RowsOf(rest).value;
      if i == |body| {
        assert body + [LF] == body[..i] + [LF] + Terminated([]);
      } else {
        assert body == body[..i] + [LF] + rest;
        assert body + [LF] == body[..i] + [LF] + (rest + [LF]);
      }
    }
  }

  lemma {:induction false} SpelledRows(rows: seq<Bytes>)
    requires AllLegal(rows)
    ensures RowsOf(Terminated(rows)) == Some(rows)
  {
    if rows != [] {
      SpelledRows(rows[1..]);
      FirstRow(rows[0], Terminated(rows[1..]));
      assert [rows[0]] + rows[1..] == rows;
    }
  }

  lemma {:induction false} SpelledRowsCut(body: Bytes, rows: seq<Bytes>)
    requires AllLegal(rows) && rows != [] && body + [LF] == Terminated(rows)
    ensures RowsOf(body) == Some(rows)
    decreases |rows|
  {
    var row, rest := rows[0], Terminated(rows[1..]);
    if |rows| == 1 {
      assert rest == [] && rows == [row];
      SameBeforeLast(body, row, LF);
      OnlyRow(row);
    } else {
      TerminatedEnds(rows[1..]);
      var cut := rest[..|rest| - 1];
      assert rest == cut + [LF];
      assert Terminated(rows) == (row + [LF] + cut) + [LF];
      SameBeforeLast(body, row + [LF] + cut, LF);
      SpelledRowsCut(cut, rows[1..]);
      FirstRow(row, cut);
      assert [row] + rows[1..] == rows;
    }
  }

  lemma SameBeforeLast(a: Bytes, b: Bytes, last: byte)
    requires a + [last] == b + [last]
    ensures a == b
  {
    assert a == (a + [last])[..|a|];
    assert b == (b + [last])[..|b|];
  }

  lemma FirstRow(row: Bytes, rest: Bytes)
    requires LegalRow(row) && Free(row, LF)
    ensures RowsOf(row + [LF] + rest) == Prepend([row], RowsOf(rest))
  {
    var body := row + [LF] + rest;
    IndexAfterFree(row, rest, LF);
    assert body[..|row|] == row && AfterRow(body, |row|) == rest;
  }

  lemma OnlyRow(row: Bytes)
    requires LegalRow(row) && Free(row, LF)
    ensures RowsOf(row) == Some([row])
  {
    assert Index(row, LF) == |row|;
    assert row[..|row|] == row && AfterRow(row, |row|) == [];
    PrependNothing([row], RowsOf([]));
  }

  /** Output is accepted with these rows exactly when the rows are legal and the output is the rows joined by newlines,
      followed by at most two newlines; empty output has no rows. */
  lemma ParsedIff(output: Bytes, rows: seq<Bytes>)
    ensures Parsed(output) == Some(rows) <==>
              && AllLegal(rows)
              && (rows == [] ==> output == [])
              && (rows != [] ==>
                    output + [LF] == Terminated(rows) || output == Terminated(rows)
                        || output == Terminated(rows) + [LF])
  {
    if output != [] && Parsed(output) == Some(rows) {
      AcceptedSpells(output);
    }
    if AllLegal(rows) && rows != [] {
      if output + [LF] == Terminated(rows) {
        JoinedAccepted(output, rows);
      } else if output == Terminated(rows) {
        TerminatedAccepted(rows);
      } else if output == Terminated(rows) + [LF] {
        DoublyTerminatedAccepted(rows);
      }
    }
  }

  lemma AcceptedSpells(output: Bytes)
    requires output != [] && Parsed(output).Some?
    ensures var rows := Parsed(output).value;
            && AllLegal(rows) && rows != []
            && (output + [LF] == Terminated(rows) || output == Terminated(rows) || output == Terminated(rows) + [LF])
  {
    RowsSpell(Trimmed(output));
  }

  lemma JoinedAccepted(body: Bytes, rows: seq<Bytes>)
    requires AllLegal(rows) && rows != [] && body + [LF] == Terminated(rows)
    ensures body != [] && Parsed(body) == Some(rows)
  {
    LastByte(rows);
    assert |Terminated(rows)| == |body| + 1;
    assert body[|body| - 1] == (body + [LF])[|body| - 1];
    SpelledRowsCut(body, rows);
  }

  lemma TerminatedAccepted(rows: seq<Bytes>)
    requires AllLegal(rows) && rows != []
    ensures Parsed(Terminated(rows)) == Some(rows)
  {
    TerminatedEnds(rows);
    LastByte(rows);
    SpelledRowsCut(Trimmed(Terminated(rows)), rows);
  }

  lemma DoublyTerminatedAccepted(rows: seq<Bytes>)
    requires AllLegal(rows) && rows != []
    ensures Parsed(Terminated(rows) + [LF]) == Some(rows)
  {
    var t := Terminated(rows);
    LastByte(rows);
    SpelledRows(rows);
    SameBeforeLast(Trimmed(t + [LF]), t, LF);
  }

  /** Before the last newline comes the last byte of a row. */
  lemma {:induction false} LastByte(rows: seq<Bytes>)
    requires AllLegal(rows) && rows != []
    ensures var t := Terminated(rows); |t| > 1 && t[|t| - 2] != LF
  {
    var row, rest := rows[0], Terminated(rows[1..]);
    if |rows| > 1 {
      LastByte(rows[1..]);
    } else {
      assert Terminated(rows)[|row| - 1] == row[|row| - 1];
    }
  }
}
