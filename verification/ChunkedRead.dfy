/**
Reading a file through the guest in chunks, against the one-shot read of the process backend.

The file does not change during a read. A read call may return fewer bytes than asked for, but it
returns none only at the end of the file. A seek fails from 2^63 on.
*/
module ChunkedRead {
  import opened Core

  type Byte = bv8

  const MAX_FILE_BYTES: nat := 64 * 1024 * 1024
  const FILE_CHUNK_BYTES: nat := 1024 * 1024
  const SEEK_LIMIT: nat := 0x8000_0000_0000_0000

  datatype Chunk = Chunk(data: seq<Byte>, eof: bool)

  datatype ReadResult = ReadResult(data: seq<Byte>, eof: bool)

  /** The bytes at `offset`, at most `maximum` of them. */
  function Slice(file: seq<Byte>, offset: nat, maximum: nat): seq<Byte> {
    if offset >= |file| then [] else file[offset..Min(|file|, offset + maximum)]
  }

  /** What the process backend answers. */
  function OneShot(file: seq<Byte>, offset: nat, maxBytes: nat): Result<ReadResult, ()> {
    if offset >= SEEK_LIMIT then Err(()) else
    var data := Slice(file, offset, Min(maxBytes, MAX_FILE_BYTES));
    Ok(ReadResult(data, offset + |data| >= |file|))
  }

  /** What the guest and the host answer together: a request for no bytes is always told the end of the file. */
  function ThroughGuest(file: seq<Byte>, offset: nat, maxBytes: nat): Result<ReadResult, ()> {
    if offset >= SEEK_LIMIT then Err(()) else
    var data := Slice(file, offset, Min(maxBytes, MAX_FILE_BYTES));
    Ok(ReadResult(data, maxBytes == 0 || offset + |data| >= |file|))
  }

  function Joined(chunks: seq<Chunk>): seq<Byte> {
    if chunks == [] then [] else Joined(chunks[..|chunks| - 1]) + chunks[|chunks| - 1].data
  }

  lemma JoinedAppend(chunks: seq<Chunk>, chunk: Chunk)
    ensures Joined(chunks + [chunk]) == Joined(chunks) + chunk.data
  {
    assert (chunks + [chunk])[..|chunks|] == chunks;
  }

  lemma SliceStep(file: seq<Byte>, offset: nat, n: nat, k: nat)
    ensures Slice(file, offset, n) + Slice(file, offset + n, k) == Slice(file, offset, n + k)
  {}

  lemma SliceEnd(file: seq<Byte>, offset: nat, n: nat, maximum: nat)
    requires n == maximum || (n <= maximum && offset + n >= |file|)
    ensures Slice(file, offset, n) == Slice(file, offset, maximum)
  {}

  /** Every chunk fits the chunk size; all but the last carry data and do not end the file. */
  predicate Pieces(chunks: seq<Chunk>) {
    forall i | 0 <= i < |chunks| ::
      |chunks[i].data| <= FILE_CHUNK_BYTES && (i < |chunks| - 1 ==> chunks[i].data != [] && !chunks[i].eof)
  }

  /** Appending the next read extends what was read. */
  lemma JoinedStep(chunks: seq<Chunk>, chunk: Chunk, file: seq<Byte>, offset: nat, n: nat)
    requires Joined(chunks) == Slice(file, offset, n) && |Joined(chunks)| == n
    requires chunk.data == Slice(file, offset + n, |chunk.data|)
    ensures Joined(chunks + [chunk]) == Slice(file, offset, n + |chunk.data|)
    ensures |Joined(chunks + [chunk])| == n + |chunk.data|
  {
    JoinedAppend(chunks, chunk);
    SliceStep(file, offset, n, |chunk.data|);
  }

  /** The chunks hold the first `n` bytes from `offset`, and the last one says whether the file ended there. */
  predicate Progress(chunks: seq<Chunk>, file: seq<Byte>, offset: nat, n: nat) {
    && Pieces(chunks) && Joined(chunks) == Slice(file, offset, n) && |Joined(chunks)| == n
    && (chunks == [] ==> n == 0)
    && (chunks != [] ==> (chunks[|chunks| - 1].eof <==> offset + n >= |file|))
    && (chunks != [] && !chunks[|chunks| - 1].eof ==> chunks[|chunks| - 1].data != [])
  }

  lemma ProgressStep(chunks: seq<Chunk>, data: seq<Byte>, file: seq<Byte>, offset: nat, n: nat)
    requires Progress(chunks, file, offset, n) && (chunks != [] ==> !chunks[|chunks| - 1].eof)
    requires data == Slice(file, offset + n, |data|) && |data| <= FILE_CHUNK_BYTES
    requires data == [] ==> offset + n >= |file|
    ensures Progress(chunks + [Chunk(data, data == [] || offset + n + |data| >= |file|)], file, offset, n + |data|)
  {
    JoinedStep(chunks, Chunk(data, data == [] || offset + n + |data| >= |file|), file, offset, n);
  }

  /** One read call: any non-empty part of what is there, and nothing only at the end. */
  method ReadCall(file: seq<Byte>, position: nat, size: nat) returns (data: seq<Byte>)
    requires size > 0
    ensures |data| <= size && (data == [] <==> position >= |file|)
    ensures data == Slice(file, position, |data|)
  {
    if position >= |file| {
      return [];
    }
    var available := Min(size, |file| - position);
    assert 1 <= 1 <= available;
    var length: nat :| 1 <= length <= available;
    data := file[position..position + length];
  }

  /** The guest's chunk loop, from a position that could be sought. */
  method ReadChunks(file: seq<Byte>, offset: nat, maximum: nat) returns (chunks: seq<Chunk>)
    ensures var n := |Joined(chunks)|;
      n <= maximum && (n == maximum || offset + n >= |file|) && Progress(chunks, file, offset, n)
    ensures chunks == [] <==> maximum == 0
  {
    var remaining, done := maximum, false;
    chunks := [];
    while remaining > 0 && !done
      invariant 0 <= remaining <= maximum
      invariant Progress(chunks, file, offset, maximum - remaining)
      invariant done <==> chunks != [] && chunks[|chunks| - 1].eof
      invariant remaining < maximum ==> chunks != []
      invariant chunks != [] ==> maximum > 0
      decreases remaining, !done
    {
      var data := ReadCall(file, offset + (maximum - remaining), Min(remaining, FILE_CHUNK_BYTES));
      ProgressStep(chunks, data, file, offset, maximum - remaining);
      remaining := remaining - |data|;
      done := data == [] || offset + (maximum - remaining) >= |file|;
      chunks := chunks + [Chunk(data, done)];
    }
  }

  /** The answer to one request; a request for no bytes gets one empty chunk that ends the file. */
  method ReadFile(file: seq<Byte>, offset: nat, maxBytes: nat) returns (r: Result<seq<Chunk>, ()>)
    ensures r.Err? <==> offset >= SEEK_LIMIT
    ensures r.Ok? ==> r.value != [] && Joined(r.value) == Slice(file, offset, Min(maxBytes, MAX_FILE_BYTES))
    ensures r.Ok? ==> Pieces(r.value)
    ensures r.Ok? ==>
      (r.value[|r.value| - 1].eof <==> maxBytes == 0 || offset + |Joined(r.value)| >= |file|)
  {
    if offset >= SEEK_LIMIT {
      return Err(());
    }
    var maximum := Min(maxBytes, MAX_FILE_BYTES);
    var chunks := ReadChunks(file, offset, maximum);
    SliceEnd(file, offset, |Joined(chunks)|, maximum);
    if chunks == [] {
      JoinedAppend([], Chunk([], true));
      chunks := [Chunk([], true)];
    }
    return Ok(chunks);
  }

  /** The host concatenates the chunks and keeps the last flag. */
  method Read(file: seq<Byte>, offset: nat, maxBytes: nat) returns (r: Result<ReadResult, ()>)
    ensures r == ThroughGuest(file, offset, maxBytes)
  {
    var stream := ReadFile(file, offset, maxBytes);
    if stream.Err? {
      return Err(());
    }
    var data, eof := [], false;
    for i := 0 to |stream.value|
      invariant data == Joined(stream.value[..i])
      invariant i > 0 ==> eof == stream.value[i - 1].eof
    {
      assert stream.value[..i + 1] == stream.value[..i] + [stream.value[i]];
      JoinedAppend(stream.value[..i], stream.value[i]);
      data := data + stream.value[i].data;
      eof := stream.value[i].eof;
    }
    assert stream.value[..|stream.value|] == stream.value;
    return Ok(ReadResult(data, eof));
  }

  /** The two backends answer alike exactly when at least one byte is asked for, or there is none to read. */
  lemma BackendsAgree(file: seq<Byte>, offset: nat, maxBytes: nat)
    ensures ThroughGuest(file, offset, maxBytes) == OneShot(file, offset, maxBytes)
            <==> maxBytes >= 1 || offset >= |file| || offset >= SEEK_LIMIT
  {
    if maxBytes == 0 && offset < |file| && offset < SEEK_LIMIT {
      assert Slice(file, offset, 0) == [];
    }
  }

  /** A client that asks for at least one byte at a time and moves on by what it received gets the whole file. */
  method Download(file: seq<Byte>, sizes: nat -> nat) returns (content: seq<Byte>)
    requires |file| <= SEEK_LIMIT
    ensures content == file
  {
    content := [];
    var eof, asked := false, 0;
    while !eof
      invariant |content| <= |file| && content == file[..|content|]
      invariant eof <==> asked > 0 && |content| == |file|
      invariant |content| == SEEK_LIMIT ==> eof
      decreases |file| - |content|, !eof
    {
      var part := Read(file, |content|, if sizes(asked) == 0 then 1 else sizes(asked));
      content := content + part.value.data;
      eof := part.value.eof;
      asked := asked + 1;
    }
  }
}
