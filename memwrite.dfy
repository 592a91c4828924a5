/** `WMStrm`: a writable stream that keeps everything written to it in one
    in-memory buffer. */
module MemWrite {
  import opened Values

  newtype byte = b: int | 0 <= b < 256

  /** A chunk handed to `_write`: a Buffer, or a string still to be encoded. */
  datatype Chunk = BufferChunk(bytes: seq<byte>) | StringChunk(text: string)

  /** The bytes a chunk contributes: a Buffer as it is, a string through the
      encoding (Node's own encoders are not part of this model). */
  function ChunkBytes(c: Chunk, encode: string -> seq<byte>): (r: seq<byte>)
    ensures c.BufferChunk? ==> r == c.bytes
    ensures c.StringChunk? ==> r == encode(c.text)
  {
    match c
    case BufferChunk(bytes) => bytes
    case StringChunk(text) => encode(text)
  }

  /** Everything a sequence of writes leaves in the store, in order: the
      concatenation of the pieces they contributed. */
  function Stored(pieces: seq<seq<byte>>): seq<byte>
    decreases |pieces|
  {
    if pieces == [] then [] else Stored(pieces[..|pieces| - 1]) + pieces[|pieces| - 1]
  }

  /** Writing in two batches stores the same bytes as writing them at once. */
  lemma {:induction false} StoredAppend(a: seq<seq<byte>>, b: seq<seq<byte>>)
    ensures Stored(a + b) == Stored(a) + Stored(b)
    decreases |b|
  {
    if b == [] {
      assert a + b == a;
    } else {
      var b' := b[..|b| - 1];
      assert (a + b)[..|a + b| - 1] == a + b';
      assert (a + b)[|a + b| - 1] == b[|b| - 1];
      StoredAppend(a, b');
    }
  }

  /** Earlier contents are never lost or reordered: what was stored after a
      prefix of the writes is a prefix of what is stored after all of them,
      and the length is the sum of the pieces' lengths. */
  lemma {:induction false} StoredGrows(pieces: seq<seq<byte>>, k: nat)
    requires k <= |pieces|
    ensures Stored(pieces[..k]) <= Stored(pieces)
    ensures |Stored(pieces)| == |Stored(pieces[..k])| + |Stored(pieces[k..])|
  {
    assert pieces == pieces[..k] + pieces[k..];
    StoredAppend(pieces[..k], pieces[k..]);
  }

  /** The store's length is the sum of what each write contributed. */
  function TotalLength(pieces: seq<seq<byte>>): nat
    decreases |pieces|
  {
    if pieces == [] then 0 else TotalLength(pieces[..|pieces| - 1]) + |pieces[|pieces| - 1]|
  }

  lemma {:induction false} StoredLength(pieces: seq<seq<byte>>)
    ensures |Stored(pieces)| == TotalLength(pieces)
    decreases |pieces|
  {
    if pieces != [] {
      StoredLength(pieces[..|pieces| - 1]);
    }
  }

  class WMStrm {
    var memStore: seq<byte>
    ghost var pieces: seq<seq<byte>>

    ghost predicate Valid()
      reads this
    {
      memStore == Stored(pieces)
    }

    /** The constructor: an empty store. */
    constructor ()
      ensures Valid() && memStore == [] && pieces == []
    {
      memStore := [];
      pieces := [];
    }

    /** `_write`: appends the chunk's bytes, converting a string with the
        write's encoding, and returns the callback's invocations: one, with
        no error argument. */
    method Write(chunk: Chunk, encode: string -> seq<byte>) returns (callbackErrors: seq<Value>)
      requires Valid()
      modifies this
      ensures Valid()
      ensures memStore == old(memStore) + ChunkBytes(chunk, encode)
      ensures pieces == old(pieces) + [ChunkBytes(chunk, encode)]
      ensures callbackErrors == [Undefined]
    {
      memStore := memStore + ChunkBytes(chunk, encode);
      pieces := pieces + [ChunkBytes(chunk, encode)];
      assert pieces[..|pieces| - 1] == old(pieces);
      callbackErrors := [Undefined];
    }
  }
}
