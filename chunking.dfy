/** How supplySignatureWithData cuts a document into the pieces it hands to `update`. */
module Chunking {
  import opened Primitives

  /** Length of the buffer that supplySignatureWithData reads into. */
  const BufferSize: nat := 1024

  /** The bytes of a sequence of pieces, joined in order. */
  function Concat(pieces: seq<Bytes>): (bytes: Bytes) {
    if pieces == [] then [] else pieces[0] + Concat(pieces[1..])
  }

  /** Appending one piece appends its bytes. */
  lemma {:induction false} ConcatAppend(pieces: seq<Bytes>, last: Bytes)
    ensures Concat(pieces + [last]) == Concat(pieces) + last
  {
    if pieces == [] {
      assert pieces + [last] == [last];
      assert [last][1..] == [];
    } else {
      assert (pieces + [last])[0] == pieces[0];
      assert (pieces + [last])[1..] == pieces[1..] + [last];
      ConcatAppend(pieces[1..], last);
    }
  }

  /** Joining two histories joins their bytes. */
  lemma {:induction false} ConcatJoin(first: seq<Bytes>, second: seq<Bytes>)
    ensures Concat(first + second) == Concat(first) + Concat(second)
    decreases |first|
  {
    if first == [] {
      assert first + second == second;
    } else {
      assert (first + second)[0] == first[0];
      assert (first + second)[1..] == first[1..] + second;
      ConcatJoin(first[1..], second);
    }
  }

  /**
   * The pieces in which a reader with a BufferSize-byte buffer delivers `data`:
   * each read takes as much as fits, so every piece is a full buffer except
   * possibly the last.
   */
  function Chunks(data: Bytes): (pieces: seq<Bytes>)
    ensures pieces == [] <==> data == []
    decreases |data|
  {
    if data == [] then []
    else
      var n := Min(BufferSize, |data|);
      [data[..n]] + Chunks(data[n..])
  }

  /** Chunking neither loses nor reorders nor adds bytes. */
  lemma {:induction false} ConcatChunks(data: Bytes)
    ensures Concat(Chunks(data)) == data
    decreases |data|
  {
    if data != [] {
      var n := Min(BufferSize, |data|);
      var rest := Chunks(data[n..]);
      assert Chunks(data) == [data[..n]] + rest;
      assert ([data[..n]] + rest)[1..] == rest;
      ConcatChunks(data[n..]);
      assert data == data[..n] + data[n..];
    }
  }

  /**
   * Each piece holds between 1 and BufferSize bytes, every piece but the last is a
   * full buffer, and there are as many pieces as BufferSize-byte blocks needed.
   */
  lemma {:induction false} ChunkSizes(data: Bytes)
    ensures |Chunks(data)| == (|data| + BufferSize - 1) / BufferSize
    ensures forall i :: 0 <= i < |Chunks(data)| ==> 1 <= |Chunks(data)[i]| <= BufferSize
    ensures forall i :: 0 <= i < |Chunks(data)| - 1 ==> |Chunks(data)[i]| == BufferSize
    decreases |data|
  {
    if data != [] {
      var n := Min(BufferSize, |data|);
      var rest := Chunks(data[n..]);
      assert Chunks(data) == [data[..n]] + rest;
      ChunkSizes(data[n..]);
      if |data| <= BufferSize {
        assert rest == [];
      } else {
        assert n == BufferSize;
        assert |data[n..]| == |data| - BufferSize;
      }
      forall i | 0 <= i < |Chunks(data)|
        ensures 1 <= |Chunks(data)[i]| <= BufferSize
      {
        if i > 0 { assert Chunks(data)[i] == rest[i - 1]; }
      }
      forall i | 0 <= i < |Chunks(data)| - 1
        ensures |Chunks(data)[i]| == BufferSize
      {
        if i > 0 { assert Chunks(data)[i] == rest[i - 1]; }
      }
    }
  }

  /**
   * A read of n bytes from offset start takes the first piece of what remains:
   * the pieces already delivered plus those of the remainder stay the same.
   */
  lemma ChunksStep(data: Bytes, start: nat, n: nat, delivered: seq<Bytes>)
    requires start < |data| && n == Min(BufferSize, |data| - start)
    ensures delivered + Chunks(data[start..]) == (delivered + [data[start..start + n]]) + Chunks(data[start + n..])
  {
    assert data[start..][..n] == data[start..start + n];
    assert data[start..][n..] == data[start + n..];
    assert Chunks(data[start..]) == [data[start..start + n]] + Chunks(data[start + n..]);
  }
}
