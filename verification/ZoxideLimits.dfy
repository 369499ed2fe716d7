/** Bounding zoxide's output while it streams in (internal/candidate/zoxide_limits.go). */
module ZoxideLimits {
  import opened Basics
  import opened Codec

  datatype Limits = Limits(maxBytes: nat, maxRows: nat, maxRowSize: nat)

  const ZOXIDE_LIMITS := Limits(0x40_0000, 1_000_000, 0x2_0000)

  // ----- what the limits mean

  /** Newlines in s, and bytes since the last one. */
  function Feeds(s: Bytes): nat {
    if s == [] then 0 else Feeds(s[..|s| - 1]) + (if s[|s| - 1] == LF then 1 else 0)
  }

  function Column(s: Bytes): (n: nat)
    ensures n <= |s|
  {
    if s == [] || s[|s| - 1] == LF then 0 else Column(s[..|s| - 1]) + 1
  }

  /** Rows in s, a last row without newline included. */
  function Rows(s: Bytes): nat { Feeds(s) + if Column(s) > 0 then 1 else 0 }

  /** No stretch without a newline is longer than a row may be. */
  ghost predicate RowsShort(limits: Limits, s: Bytes) {
    forall i, j :: 0 <= i <= j <= |s| && Free(s[i..j], LF) ==> j - i <= limits.maxRowSize
  }

  ghost predicate Within(limits: Limits, s: Bytes) {
    |s| <= limits.maxBytes && Rows(s) <= limits.maxRows && RowsShort(limits, s)
  }

  /** The length of the longest prefix within the limits. */
  ghost function Longest(limits: Limits, s: Bytes): (n: nat)
    ensures n <= |s|
  {
    if s == [] then 0
    else
      var n := Longest(limits, s[..|s| - 1]);
      if n == |s| - 1 && Within(limits, s) then |s| else n
  }

  lemma {:induction false} ColumnIsLastStretch(s: Bytes, i: nat)
    requires i <= |s|
    ensures Free(s[i..], LF) <==> |s| - i <= Column(s)
  {
    if i < |s| {
      var front := s[..|s| - 1];
      ColumnIsLastStretch(front, i);
      assert s[i..] == front[i..] + [s[|s| - 1]];
    }
  }

  lemma ShortStep(limits: Limits, s: Bytes, b: byte)
    requires RowsShort(limits, s)
    ensures RowsShort(limits, s + [b]) <==> b == LF || Column(s) < limits.maxRowSize
  {
    var t := s + [b];
    if b != LF {
      assert t[..|t| - 1] == s;
      ColumnIsLastStretch(t, |t| - Column(t));
      assert t[|t| - Column(t)..] == t[|t| - Column(t)..|t|];
    }
    if b == LF || Column(s) < limits.maxRowSize {
      forall i, j | 0 <= i <= j <= |t| && Free(t[i..j], LF) ensures j - i <= limits.maxRowSize {
        ShortStepAt(limits, s, b, i, j);
      }
    }
  }

  lemma ShortStepAt(limits: Limits, s: Bytes, b: byte, i: nat, j: nat)
    requires RowsShort(limits, s) && (b == LF || Column(s) < limits.maxRowSize)
    requires i <= j <= |s| + 1 && Free((s + [b])[i..j], LF)
    ensures j - i <= limits.maxRowSize
  {
    var t := s + [b];
    if j <= |s| {
      assert t[i..j] == s[i..j];
    } else if i < j {
      assert t[i..j][j - i - 1] == t[j - 1] == b;
      forall k | 0 <= k < |s[i..]| ensures s[i..][k] != LF {
        assert s[i..][k] == s[i + k] == t[i + k] == t[i..j][k];
      }
      ColumnIsLastStretch(s, i);
    }
  }

  lemma ShortPrefix(limits: Limits, s: Bytes, b: byte)
    requires RowsShort(limits, s + [b])
    ensures RowsShort(limits, s)
  {
    forall i, j | 0 <= i <= j <= |s| && Free(s[i..j], LF) ensures j - i <= limits.maxRowSize {
      assert (s + [b])[i..j] == s[i..j];
    }
  }

  /** The test the writer makes for one more byte decides exactly whether the limits still hold. */
  lemma WithinStep(limits: Limits, s: Bytes, b: byte)
    requires Within(limits, s)
    ensures Within(limits, s + [b]) <==>
              |s| < limits.maxBytes && Feeds(s) < limits.maxRows && (b == LF || Column(s) < limits.maxRowSize)
  {
    assert (s + [b])[..|s|] == s;
    ShortStep(limits, s, b);
  }

  lemma WithinPrefix(limits: Limits, s: Bytes, b: byte)
    requires Within(limits, s + [b])
    ensures Within(limits, s)
  {
    assert (s + [b])[..|s|] == s;
    ShortPrefix(limits, s, b);
  }

  lemma {:induction false} WithinPrefixes(limits: Limits, s: Bytes, n: nat)
    requires Within(limits, s) && n <= |s|
    ensures Within(limits, s[..n])
    decreases |s|
  {
    if n == |s| {
      assert s[..n] == s;
    } else {
      var front := s[..|s| - 1];
      assert s == front + [s[|s| - 1]];
      WithinPrefix(limits, front, s[|s| - 1]);
      WithinPrefixes(limits, front, n);
      assert front[..n] == s[..n];
    }
  }

  /** Longest is what its name says: that prefix is within the limits and no longer one is. */
  lemma {:induction false} LongestIsLongest(limits: Limits, s: Bytes, m: nat)
    requires m <= |s|
    ensures Within(limits, s[..m]) <==> m <= Longest(limits, s)
  {
    if s == [] {
      assert s[..m] == [];
    } else {
      var front := s[..|s| - 1];
      assert s[..|s|] == s && front[..|front|] == front;
      LongestIsLongest(limits, front, |front|);
      if m < |s| {
        LongestIsLongest(limits, front, m);
        assert front[..m] == s[..m];
      } else if Within(limits, s) {
        WithinPrefixes(limits, s, |front|);
      }
    }
  }

  /** Once a byte does not fit, nothing after it matters; while everything fits, s is its own longest prefix. */
  lemma {:induction false} LongestOfMore(limits: Limits, s: Bytes, more: Bytes)
    ensures Longest(limits, s) <= Longest(limits, s + more)
    ensures Longest(limits, s) < |s| ==> Longest(limits, s + more) == Longest(limits, s)
    decreases |more|
  {
    if more == [] {
      assert s + more == s;
    } else {
      var front := more[..|more| - 1];
      LongestOfMore(limits, s, front);
      assert (s + more)[..|s + more| - 1] == s + front;
    }
  }

  // ----- the writer

  /** The writer's sticky error. */
  datatype Status = Fine | OverLimit | SinkFailed

  /** What the sink makes of the next bytes it is given: how many it takes, and whether it then reports an error. */
  datatype SinkReply = SinkReply(takes: nat, fails: bool)

  class LimitWriter {
    const limits: Limits
    var sink: Bytes
    var total: nat
    var rows: nat
    var rowBytes: nat
    var status: Status
    var cancelled: bool
    ghost var offered: Bytes  // everything handed to Write so far

    /** Until the sink fails it holds the longest prefix within the limits; never anything beyond that. */
    ghost predicate Valid()
      reads this
    {
      && sink <= offered[..Longest(limits, offered)]
      && (!status.SinkFailed? ==> sink == offered[..Longest(limits, offered)])
      && (status.OverLimit? ==> Longest(limits, offered) < |offered|)
      && (cancelled <==> status.OverLimit?)
      && (status.Fine? ==>
            && Longest(limits, offered) == |offered|
            && total == |offered| && rows == Feeds(offered) && rowBytes == Column(offered))
    }

    constructor (limits: Limits)
      ensures Valid() && offered == [] && status.Fine? && this.limits == limits
    {
      this.limits := limits;
      sink, total, rows, rowBytes, status, cancelled, offered := [], 0, 0, 0, Fine, false, [];
    }

    /** writeSink: a short write is as bad as an error. */
    method WriteSink(data: Bytes, reply: SinkReply) returns (ok: bool)
      modifies this`sink
      ensures ok == (!reply.fails && reply.takes >= |data|)
      ensures old(sink) <= sink <= old(sink) + data
      ensures ok ==> sink == old(sink) + data
    {
      var taken := if reply.takes < |data| then reply.takes else |data|;
      sink := sink + data[..taken];
      return !reply.fails && taken == |data|;
    }

    /** The per-byte loop of Write: how many bytes of data fit after what was offered so far. */
    method Scan(data: Bytes) returns (accepted: nat)
      requires Valid() && status.Fine?
      modifies this`rows, this`rowBytes
      ensures accepted <= |data| && Longest(limits, offered + data) == |offered| + accepted
      ensures accepted == |data| ==> rows == Feeds(offered + data) && rowBytes == Column(offered + data)
    {
      LongestIsLongest(limits, offered, |offered|);
      assert offered + data[..0] == offered;
      for i := 0 to |data|
        invariant Longest(limits, offered + data[..i]) == |offered| + i
        invariant rows == Feeds(offered + data[..i]) && rowBytes == Column(offered + data[..i])
      {
        ScanStep(limits, offered, data, i);
        if total + i >= limits.maxBytes {
          return i;
        }
        if data[i] == LF {
          if rows >= limits.maxRows {
            return i;
          }
          rows := rows + 1;
          rowBytes := 0;
          continue;
        }
        if rows >= limits.maxRows || rowBytes >= limits.maxRowSize {
          return i;
        }
        rowBytes := rowBytes + 1;
      }
      assert data[..|data|] == data;
      return |data|;
    }

    /** Write: whatever came before and however it was cut, a sink that takes what it is given holds the longest prefix
        within the limits, and the source is cancelled exactly when the limits are exceeded. */
    method Write(data: Bytes, reply: SinkReply) returns (n: nat, ok: bool)
      requires Valid()
      modifies this
      ensures Valid() && offered == old(offered) + data && ok == status.Fine?
      ensures !old(status).Fine? ==> status == old(status) && n == 0
      ensures old(status).Fine? ==>
                var fits := Longest(limits, offered) - |old(offered)|;
                if fits > 0 && (reply.fails || reply.takes < fits) then status.SinkFailed? && n == 0
                else status == (if Within(limits, offered) then Fine else OverLimit) && n == fits
    {
      if !status.Fine? {
        MoreIsNoBetter(limits, offered, data);
        offered := offered + data;
        return 0, false;
      }
      n := Scan(data);
      AllOrCut(limits, offered, data, n);
      offered := offered + data;
      var written := n == 0;
      if n > 0 {
        written := WriteSink(data[..n], reply);
      }
      if !written {
        status := SinkFailed;
        return 0, false;
      }
      total := total + n;
      if n < |data| {
        status, cancelled := OverLimit, true;
      }
      return n, n == |data|;
    }

    /** finalize: it never rejects what Write accepted, because an unfinished row was counted when it began. */
    method Finalize() returns (ok: bool)
      requires Valid()
      modifies this`rows, this`status, this`cancelled
      ensures status == old(status) && cancelled == old(cancelled) && ok == status.Fine?
      ensures ok ==> rows == Rows(offered)
      ensures !status.SinkFailed? ==> (ok <==> Within(limits, offered))
    {
      LongestIsLongest(limits, offered, |offered|);
      assert offered[..|offered|] == offered;
      if !status.Fine? {
        return false;
      }
      var over := rowBytes != 0 && rows >= limits.maxRows;
      if rowBytes != 0 && !over {
        rows := rows + 1;
      }
      status, cancelled := if over then OverLimit else Fine, over;
      return !over;
    }
  }

  /** More input never takes back what fitted, and adds nothing once something did not fit. */
  lemma MoreIsNoBetter(limits: Limits, s: Bytes, more: Bytes)
    ensures s[..Longest(limits, s)] <= (s + more)[..Longest(limits, s + more)]
    ensures Longest(limits, s) < |s| ==>
              && (s + more)[..Longest(limits, s + more)] == s[..Longest(limits, s)]
              && Longest(limits, s + more) < |s + more|
  {
    LongestOfMore(limits, s, more);
  }

  /** When n bytes of data fit after s: what the sink must hold, and whether everything is within the limits. */
  lemma AllOrCut(limits: Limits, s: Bytes, data: Bytes, n: nat)
    requires n <= |data| && Longest(limits, s) == |s| && Longest(limits, s + data) == |s| + n
    ensures (s + data)[..|s| + n] == s + data[..n] && s[..|s|] == s
    ensures Within(limits, s + data) <==> n == |data|
  {
    LongestIsLongest(limits, s + data, |s + data|);
    assert (s + data)[..|s + data|] == s + data;
  }

  lemma ScanStep(limits: Limits, offered: Bytes, data: Bytes, i: nat)
    requires i < |data| && Longest(limits, offered + data[..i]) == |offered| + i
    ensures var s, b := offered + data[..i], data[i];
            && offered + data[..i + 1] == s + [b]
            && Feeds(s + [b]) == Feeds(s) + (if b == LF then 1 else 0)
            && Column(s + [b]) == (if b == LF then 0 else Column(s) + 1)
            && if |s| < limits.maxBytes && Feeds(s) < limits.maxRows && (b == LF || Column(s) < limits.maxRowSize)
               then Longest(limits, s + [b]) == |s| + 1
               else Longest(limits, offered + data) == |s|
  {
    var s, b := offered + data[..i], data[i];
    assert offered + data[..i + 1] == s + [b];
    LongestStep(limits, s, b);
    assert offered + data == s + [b] + data[i + 1..];
    LongestOfMore(limits, s + [b], data[i + 1..]);
  }

  lemma LongestStep(limits: Limits, s: Bytes, b: byte)
    requires Longest(limits, s) == |s|
    ensures Feeds(s + [b]) == Feeds(s) + (if b == LF then 1 else 0)
    ensures Column(s + [b]) == (if b == LF then 0 else Column(s) + 1)
    ensures var fits := |s| < limits.maxBytes && Feeds(s) < limits.maxRows
                        && (b == LF || Column(s) < limits.maxRowSize);
            Longest(limits, s + [b]) == |s| + if fits then 1 else 0
  {
    assert (s + [b])[..|s|] == s && s[..|s|] == s;
    LongestIsLongest(limits, s, |s|);
    WithinStep(limits, s, b);
  }

  // ----- all ways of cutting the output into writes

  function Join(chunks: seq<Bytes>): Bytes {
    if chunks == [] then [] else Join(chunks[..|chunks| - 1]) + chunks[|chunks| - 1]
  }

  /** Any sequence of writes, then finalize: what reaches the sink and the verdict depend only on the bytes. */
  method Stream(limits: Limits, chunks: seq<Bytes>) returns (forwarded: Bytes, ok: bool)
    ensures forwarded == Join(chunks)[..Longest(limits, Join(chunks))]
    ensures ok <==> Within(limits, Join(chunks))
    ensures ok ==> forwarded == Join(chunks)
  {
    var writer := new LimitWriter(limits);
    for i := 0 to |chunks|
      invariant fresh(writer) && writer.Valid() && writer.limits == limits && writer.offered == Join(chunks[..i])
      invariant !writer.status.SinkFailed?
    {
      var _, _ := writer.Write(chunks[i], SinkReply(|chunks[i]|, false));
      assert chunks[..i + 1][..i] == chunks[..i];
    }
    assert chunks[..|chunks|] == chunks;
    ok := writer.Finalize();
    forwarded := writer.sink;
    LongestIsLongest(limits, Join(chunks), |Join(chunks)|);
    assert Join(chunks)[..|Join(chunks)|] == Join(chunks);
  }

  /** validateZoxideOutputBounds: the same limits on the whole output at once. */
  method ValidateBounds(output: Bytes) returns (ok: bool)
    ensures ok <==> Within(ZOXIDE_LIMITS, output)
  {
    var writer := new LimitWriter(ZOXIDE_LIMITS);
    var _, accepted := writer.Write(output, SinkReply(|output|, false));
    assert [] + output == output;
    if !accepted {
      return false;
    }
    ok := writer.Finalize();
  }

  /** The check on the whole output never refuses what a stream forwarded, whether or not the stream was cut short. */
  lemma ForwardedIsWithin(limits: Limits, s: Bytes)
    ensures Within(limits, s[..Longest(limits, s)])
    ensures Longest(limits, s[..Longest(limits, s)]) == Longest(limits, s)
  {
    var n := Longest(limits, s);
    LongestIsLongest(limits, s, n);
    LongestIsLongest(limits, s[..n], n);
    assert s[..n][..n] == s[..n];
  }
}
