/** Small shared vocabulary: optional values, results, bytes and 64-bit bounds. */
module Basics {

  datatype Option<+T> = None | Some(value: T)

  datatype Result<+T, +E> = Ok(value: T) | Err(error: E)

  type byte = b: int | 0 <= b < 256

  type Bytes = seq<byte>

  /** The largest value of an unsigned 64-bit counter (math.MaxUint64). */
  const MAX_UINT64: nat := 0xFFFF_FFFF_FFFF_FFFF

  const NUL: byte := 0
  const TAB: byte := 9
  const LF: byte := 10
  const CR: byte := 13
  const SLASH: byte := 47
  const BACKSLASH: byte := 92

  function Map<A, B>(f: A -> B, s: seq<A>): (r: seq<B>)
    ensures |r| == |s|
    ensures forall i :: 0 <= i < |s| ==> r[i] == f(s[i])
  {
    seq(|s|, i requires 0 <= i < |s| => f(s[i]))
  }
}
