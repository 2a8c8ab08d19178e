/**
 * Byte streams cut into fixed-size chunks. A file is read in slices of at
 * most `size` bytes until a read comes back empty; `Chunks` is the list of
 * slices that loop produces, `Concat` puts a chunk stream back together and
 * `TotalLength` is what a progress counter bumped once per chunk reaches.
 */
module Chunking {
  newtype byte = b: int | 0 <= b < 256

  /** The bytes of a chunk stream, the chunks laid end to end in order. */
  function Concat(chunks: seq<seq<byte>>): seq<byte>
  {
    if chunks == [] then [] else Concat(chunks[..|chunks| - 1]) + chunks[|chunks| - 1]
  }

  /** The sum of the chunk lengths. */
  function TotalLength(chunks: seq<seq<byte>>): nat
  {
    if chunks == [] then 0 else TotalLength(chunks[..|chunks| - 1]) + |chunks[|chunks| - 1]|
  }

  /** Appending one chunk to the stream appends its bytes to the concatenation. */
  lemma ConcatAppend(chunks: seq<seq<byte>>, c: seq<byte>)
    ensures Concat(chunks + [c]) == Concat(chunks) + c
  {
    assert (chunks + [c])[..|chunks|] == chunks;
  }

  /** Putting one chunk in front of the stream puts its bytes in front of the concatenation. */
  lemma {:induction false} ConcatCons(c: seq<byte>, chunks: seq<seq<byte>>)
    ensures Concat([c] + chunks) == c + Concat(chunks)
  {
    if chunks == [] {
      assert [c] + chunks == [] + [c];
      ConcatAppend([], c);
    } else {
      var init, last := chunks[..|chunks| - 1], chunks[|chunks| - 1];
      assert chunks == init + [last];
      assert [c] + chunks == ([c] + init) + [last];
      ConcatAppend([c] + init, last);
      ConcatCons(c, init);
      ConcatAppend(init, last);
    }
  }

  /** A progress counter bumped by each chunk's length ends at the number of bytes in the stream. */
  lemma {:induction false} TotalLengthIsConcatLength(chunks: seq<seq<byte>>)
    ensures TotalLength(chunks) == |Concat(chunks)|
  {
    if chunks != [] {
      TotalLengthIsConcatLength(chunks[..|chunks| - 1]);
    }
  }

  /**
   * The slices a read loop takes from `data` when every read asks for `size`
   * bytes: every chunk is non-empty and at most `size` long, and only the last
   * one may be shorter.
   */
  function Chunks(data: seq<byte>, size: nat): (chunks: seq<seq<byte>>)
    requires size > 0
    ensures chunks == [] <==> data == []
    ensures forall i :: 0 <= i < |chunks| ==> 0 < |chunks[i]| <= size
    ensures forall i :: 0 <= i < |chunks| - 1 ==> |chunks[i]| == size
    decreases |data|
  {
    if |data| == 0 then []
    else if |data| <= size then [data]
    else [data[..size]] + Chunks(data[size..], size)
  }

  /** The chunks put back together are exactly the data, in order. */
  lemma {:induction false} ConcatChunks(data: seq<byte>, size: nat)
    requires size > 0
    ensures Concat(Chunks(data, size)) == data
    decreases |data|
  {
    if |data| == 0 {
    } else if |data| <= size {
      ConcatCons(data, []);
    } else {
      ConcatChunks(data[size..], size);
      ConcatCons(data[..size], Chunks(data[size..], size));
      assert data[..size] + data[size..] == data;
    }
  }

  /** The chunk lengths add up to the length of the data. */
  lemma ChunksTotalLength(data: seq<byte>, size: nat)
    requires size > 0
    ensures TotalLength(Chunks(data, size)) == |data|
  {
    ConcatChunks(data, size);
    TotalLengthIsConcatLength(Chunks(data, size));
  }
}
