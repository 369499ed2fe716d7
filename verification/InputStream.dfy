/** fzf's input (internal/fzf/input.go): an appendable buffer that can be closed once. `Stream` is what others can
    tell of it, and the sections of its mutex are functions on that; the class is proved to compute them. */
module InputStream {
  import opened Basics
  import opened Protocol

  /** Everything ever appended, whether the stream is closed, and whether AppendAfter holds its lock. */
  datatype Stream = Stream(appended: Bytes, closed: bool, held: bool)

  function Shut(s: Stream): Stream { s.(closed := true) }

  /** AppendAfter up to its callback: it refuses a closed stream, else it holds the lock. */
  function Taken(s: Stream): Stream { if s.closed then s else s.(held := true) }

  /** The end of AppendAfter when the callback failed, and when it did not. */
  function Freed(s: Stream): Stream { s.(held := false) }

  function Extended(s: Stream, data: Bytes): Stream { Stream(s.appended + data, s.closed, false) }

  class InputStream {
    var buffer: Bytes            // what has not been read yet
    var closed: bool
    var cause: Option<Error>
    ghost var appended: Bytes    // everything ever written to the buffer
    ghost var consumed: Bytes    // everything ever returned by Read

    /** Nothing written is lost, reordered or invented. */
    ghost predicate Valid()
      reads this
    {
      appended == consumed + buffer && (cause.Some? ==> closed)
    }

    ghost function View(): Stream
      reads this
    {
      Stream(appended, closed, false)
    }

    constructor (initial: Bytes)
      ensures Valid() && View() == Stream(initial, false, false) && consumed == []
    {
      buffer, closed, cause := initial, false, None;
      appended, consumed := initial, [];
    }

    /** Read, once its wait is over: some buffered bytes, or the end of a closed stream with its cause. */
    method Read(max: nat) returns (data: Bytes, end: bool, err: Option<Error>)
      requires Valid() && (max == 0 || buffer != [] || closed)
      modifies this`buffer, this`consumed
      ensures Valid() && View() == old(View()) && consumed == old(consumed) + data
      ensures |data| == (if max < |old(buffer)| then max else |old(buffer)|)
      ensures end <==> max > 0 && old(buffer) == []
      ensures end ==> closed && err == cause
    {
      if max == 0 {
        return [], false, None;
      }
      if |buffer| > 0 {
        var n := if max < |buffer| then max else |buffer|;
        data, end, err := buffer[..n], false, None;
        buffer := buffer[n..];
        consumed := consumed + data;
        return;
      }
      return [], true, cause;
    }

    method Append(data: Bytes) returns (ok: bool)
      requires Valid()
      modifies this`buffer, this`appended
      ensures Valid() && ok == !closed
      ensures View() == if ok then Extended(old(View()), data) else old(View())
    {
      if closed {
        return false;
      }
      buffer := buffer + data;
      appended := appended + data;
      return true;
    }

    /** AppendAfter, with the outcome of the publication callback it runs under the lock: the bytes become visible
        exactly when the stream is open and the publication succeeded. */
    method AppendAfter(data: Bytes, publishErr: Option<Error>) returns (err: Option<Error>)
      requires Valid()
      modifies this`buffer, this`appended
      ensures Valid()
      ensures err == (if closed then Some(InputClosed) else publishErr)
      ensures View() == (if err.None? then Extended(Taken(old(View())), data) else Freed(Taken(old(View()))))
    {
      if closed {
        return Some(InputClosed);
      }
      if publishErr.Some? {
        return publishErr;
      }
      buffer := buffer + data;
      appended := appended + data;
      return None;
    }

    method CloseWithError(err: Option<Error>)
      requires Valid()
      modifies this`closed, this`cause
      ensures Valid() && View() == Shut(old(View()))
      ensures cause == (if old(closed) then old(cause) else err)
    {
      if closed {
        return;
      }
      closed := true;
      cause := err;
    }
  }
}
