/** Java's primitive byte and the byte arrays the core passes around. */
module Primitives {

  /** A Java `byte`: a signed 8-bit value. */
  newtype byte = b: int | -128 <= b < 128

  /** The contents of a `byte[]`, as a value. */
  type Bytes = seq<byte>

  function Min(a: int, b: int): (m: int) {
    if a <= b then a else b
  }
}
