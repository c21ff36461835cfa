/**
 * The input stream supplySignatureWithData reads the document from: a
 * BufferedInputStream over a ByteArrayInputStream holding the document bytes.
 */
module Streams {
  import opened Primitives

  class ByteArrayStream {
    /** The byte array the stream was opened on. */
    const source: Bytes
    /** How many bytes have been read so far. */
    var pos: nat

    ghost predicate Valid()
      reads this
    {
      pos <= |source|
    }

    constructor (source: Bytes)
      ensures Valid() && this.source == source && pos == 0
    {
      this.source := source;
      pos := 0;
    }

    /** `available()`: the number of bytes not yet read. */
    function Available(): (n: nat)
      reads this
      requires Valid()
    {
      |source| - pos
    }

    /**
     * `read(b)`: 0 for an empty array, -1 at the end of the stream, and otherwise
     * the next min(b.length, available()) bytes copied to the front of b. Over a
     * byte array the buffered stream keeps reading until b is full or the
     * array is exhausted, so a read is never short for any other reason.
     */
    method Read(b: array<byte>) returns (n: int)
      requires Valid()
      modifies this, b
      ensures Valid()
      ensures n == if b.Length == 0 then 0
                   else if old(Available()) == 0 then -1
                   else Min(b.Length, old(Available()))
      ensures pos == old(pos) + (if n < 0 then 0 else n)
      ensures 0 <= n ==> b[..n] == source[old(pos)..pos] && b[n..] == old(b[n..])
      ensures n < 0 ==> b[..] == old(b[..])
    {
      if b.Length == 0 {
        return 0;
      }
      if pos == |source| {
        return -1;
      }
      n := Min(b.Length, |source| - pos);
      forall k | 0 <= k < n {
        b[k] := source[pos + k];
      }
      pos := pos + n;
    }
  }
}
