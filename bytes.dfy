/** Byte strings and the failure-carrying wrappers shared by every module.
    Go strings and []byte are both immutable sequences of bytes, so both are `Str` here. */
module Bytes {

  newtype byte = x: int | 0 <= x < 256

  /** A Go string or byte slice. */
  type Str = seq<byte>

  datatype Option<+T> = None | Some(value: T)

  datatype Result<+T, +E> = Success(value: T) | Failure(error: E)

  /** The bytes of an ASCII literal (every literal written with it is plain ASCII). */
  function S(lit: string): (r: Str)
    ensures |r| == |lit|
  {
    seq(|lit|, i requires 0 <= i < |lit| => (lit[i] as int % 256) as byte)
  }

  /** Regrouping a concatenation of three sequences. */
  lemma AppendAssoc<T>(a: seq<T>, b: seq<T>, c: seq<T>)
    ensures (a + b) + c == a + (b + c)
  {
  }

  /** A sequence of three or more elements is its first three followed by the rest. */
  lemma SplitThree<T>(b: seq<T>)
    requires |b| >= 3
    ensures [b[0], b[1], b[2]] + b[3..] == b
  {
    assert b == b[..3] + b[3..];
  }

  /** Equal sequences with a common prefix and suffix agree in between. */
  lemma CancelAround<T>(p: seq<T>, x: seq<T>, y: seq<T>, q: seq<T>)
    requires p + x + q == p + y + q
    ensures x == y
  {
    assert |x| == |y|;
    assert (p + x + q)[|p|..|p| + |x|] == x;
    assert (p + y + q)[|p|..|p| + |y|] == y;
  }

  /** strings.HasPrefix */
  predicate HasPrefix(s: Str, prefix: Str) {
    |prefix| <= |s| && s[..|prefix|] == prefix
  }
}
