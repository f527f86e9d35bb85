/** Go strings: immutable sequences of bytes, as `len`, indexing and slicing see them. */
module GoBytes {

  newtype byte = b: int | 0 <= b < 256

  type GoString = seq<byte>

  /** The bytes of a Go string literal. Every literal of the model is ASCII,
      whose UTF-8 encoding is one byte per character. */
  function Ascii(s: string): (r: GoString)
    ensures |r| == |s|
  {
    seq(|s|, i requires 0 <= i < |s| => ((s[i] as int) % 256) as byte)
  }
}
