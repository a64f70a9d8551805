/** An in-memory binary stream in the manner of Python's `io.BytesIO`: a byte
    sequence and a cursor. Writing happens at the cursor and moves it past what
    was written; reading returns everything from the cursor on and moves the
    cursor to the end. Only bytes-like objects may be written; a `str` is
    refused with a TypeError. */
module Buffers {
  import opened Wrappers
  import opened Errors

  newtype byte = b: int | 0 <= b < 256

  /** What a caller hands to `write`: a bytes-like object or a `str`. */
  datatype Chunk = Bytes(bytes: seq<byte>) | Text(text: string)

  /** The contents after writing `b` at offset `pos` of `s`: the prefix before
      `pos` is kept, `b` replaces what was there, and whatever lay beyond the
      written part survives. */
  function Overwrite(s: seq<byte>, pos: nat, b: seq<byte>): (r: seq<byte>)
    requires pos <= |s|
    ensures |r| == if pos + |b| <= |s| then |s| else pos + |b|
    ensures r[..pos] == s[..pos]
    ensures r[pos..pos + |b|] == b
    ensures pos + |b| <= |s| ==> r[pos + |b|..] == s[pos + |b|..]
  {
    if pos + |b| <= |s| then s[..pos] + b + s[pos + |b|..] else s[..pos] + b
  }

  /** Reading right after writing `b` into a fresh buffer, without moving the
      cursor back, yields nothing; after moving it back to 0 it yields `b`. */
  lemma FreshWriteThenRead(b: seq<byte>)
    ensures Overwrite([], 0, b)[|b|..] == []
    ensures Overwrite([], 0, b)[0..] == b
  {
  }

  /** Bytes written into a new stream and read back without a rewind: the
      read starts at the cursor, which sits past everything written, so
      nothing comes back. */
  method WriteThenReadWithoutRewind(b: seq<byte>) returns (out: seq<byte>)
    ensures out == []
  {
    var buffer := new BytesBuffer();
    var written := buffer.Write(Bytes(b));
    out := buffer.Read();
  }

  class BytesBuffer {
    var bytes: seq<byte>
    var pos: nat

    ghost predicate Valid()
      reads this
    {
      pos <= |bytes|
    }

    /** `BytesIO()`: empty, cursor at 0. */
    constructor ()
      ensures Valid() && bytes == [] && pos == 0
    {
      bytes := [];
      pos := 0;
    }

    /** `write(chunk)`: a `str` is refused and nothing changes; bytes are
        written at the cursor, which then sits just past them, and the number
        of bytes written is returned. */
    method Write(chunk: Chunk) returns (r: Result<nat, Error>)
      requires Valid()
      modifies this
      ensures Valid()
      ensures chunk.Text? ==> r == Failure(TypeError) && bytes == old(bytes) && pos == old(pos)
      ensures chunk.Bytes? ==> r == Success(|chunk.bytes|)
      ensures chunk.Bytes? ==> bytes == Overwrite(old(bytes), old(pos), chunk.bytes)
      ensures chunk.Bytes? ==> pos == old(pos) + |chunk.bytes|
    {
      match chunk
      case Text(_) =>
        r := Failure(TypeError);
      case Bytes(b) =>
        bytes := Overwrite(bytes, pos, b);
        pos := pos + |b|;
        r := Success(|b|);
    }

    /** `seek(0)`: the cursor goes back to the start; the contents stay. */
    method Rewind()
      requires Valid()
      modifies this
      ensures Valid() && bytes == old(bytes) && pos == 0
    {
      pos := 0;
    }

    /** `read()`: everything from the cursor to the end; the cursor moves to
        the end and the contents stay. */
    method Read() returns (out: seq<byte>)
      requires Valid()
      modifies this
      ensures Valid() && bytes == old(bytes) && pos == |bytes|
      ensures out == old(bytes)[old(pos)..]
    {
      out := bytes[pos..];
      pos := |bytes|;
    }
  }
}
