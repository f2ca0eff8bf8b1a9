/** The thread of one game connection: the loops between a socket and a channel. */
module GameConnection {
  import opened Basics

  const BUFFER_SIZE := 16384

  // ---------------------------------------------------------------- from the socket

  datatype ReadEnd = Closed | Refused | Pending

  /** How much one read yields: at least a byte while there is one, at most a buffer full. */
  function ReadLen(wanted: nat, left: nat): nat {
    var n := if wanted == 0 then 1 else if wanted > BUFFER_SIZE then BUFFER_SIZE else wanted;
    if n > left then left else n
  }

  ghost predicate ChunkSized(chunks: seq<Bytes>) {
    forall c :: c in chunks ==> 0 < |c| <= BUFFER_SIZE
  }

  /**
   Reads the socket through one reused buffer and passes on what each read yields: in whatever portions the bytes
   arrive, the chunks passed on are, in order, all that was read; no chunk is empty or larger than the buffer; and
   the loop ends by itself only at the end of the stream.
   */
  method ReadLoop(stream: Bytes, portions: seq<nat>, refuses: nat -> bool)
    returns (passed: seq<Bytes>, at: nat, end: ReadEnd)
    ensures at <= |stream| && Flat(passed) == stream[..at] && ChunkSized(passed)
    ensures end.Closed? ==> at == |stream|
    ensures end.Refused? ==> at < |stream| && refuses(|passed|)
    ensures end.Pending? ==> |passed| == |portions|
    ensures forall i :: 0 <= i < |passed| ==> !refuses(i)
  {
    var buf := new byte[BUFFER_SIZE](_ => 0);
    passed, at := [], 0;
    for i := 0 to |portions|
      invariant at <= |stream| && Flat(passed) == stream[..at] && ChunkSized(passed)
      invariant |passed| == i && forall j :: 0 <= j < i ==> !refuses(j)
    {
      var len := ReadLen(portions[i], |stream| - at);
      Copy(buf, 0, stream[at..at + len]);
      if len == 0 { return passed, at, Closed; }
      assert buf[..len] == stream[at..at + len];
      if refuses(i) { return passed, at, Refused; }
      FlatConcat(passed, [buf[..len]]);
      assert Flat([buf[..len]]) == buf[..len] + Flat([]);
      assert stream[..at + len] == stream[..at] + buf[..len];
      passed, at := passed + [buf[..len]], at + len;
    }
    end := Pending;
  }

  // ---------------------------------------------------------------- to the socket

  /** As much of `data` as the socket takes, when it takes `room` bytes in all. */
  function Fitting(data: Bytes, room: nat): Bytes {
    if |data| <= room then data else data[..room]
  }

  /** Writes one chunk; when the socket fails, part of the chunk may be written. */
  method WriteAll(data: Bytes, room: nat) returns (written: Bytes, ok: bool)
    ensures ok <==> |data| <= room
    ensures written == Fitting(data, room)
  {
    ok := |data| <= room;
    written := if ok then data else data[..room];
  }

  /** The first chunks fit, and so does what fits of the rest. */
  lemma FittingNext(chunks: seq<Bytes>, i: nat, room: nat)
    requires i < |chunks| && |Flat(chunks[..i])| <= room
    ensures var sum := Flat(chunks[..i + 1]);
            && sum == Flat(chunks[..i]) + chunks[i] && IsPrefix(sum, Flat(chunks))
            && Fitting(sum, room) == Flat(chunks[..i]) + Fitting(chunks[i], room - |Flat(chunks[..i])|)
  {
    FlatPrefix(chunks[..i + 1], chunks);
    assert chunks[..i + 1] == chunks[..i] + [chunks[i]];
    FlatConcat(chunks[..i], [chunks[i]]);
    assert Flat([chunks[i]]) == chunks[i] + Flat([]);
  }

  /** Writes chunk after chunk, until the channel is closed or the socket fails; whatever is written is in order. */
  method WriteLoop(chunks: seq<Bytes>, room: nat) returns (written: Bytes, ok: bool)
    ensures ok <==> |Flat(chunks)| <= room
    ensures written == Fitting(Flat(chunks), room)
  {
    written, ok := [], true;
    for i := 0 to |chunks|
      invariant written == Flat(chunks[..i]) && |written| <= room
    {
      FittingNext(chunks, i, room);
      var part, fits := WriteAll(chunks[i], room - |written|);
      written := written + part;
      if !fits { return written, false; }
    }
    assert chunks[..|chunks|] == chunks;
  }

  /** A client's thread takes one chunk before it starts to read, and writes it. */
  method WaitForData(chunks: seq<Bytes>, room: nat) returns (written: Bytes, rest: seq<Bytes>, ok: bool)
    ensures chunks == [] ==> written == [] && rest == [] && ok
    ensures chunks != [] ==> rest == chunks[1..] && written == Fitting(chunks[0], room) && (ok <==> |chunks[0]| <= room)
  {
    if chunks == [] { return [], [], true; }
    written, ok := WriteAll(chunks[0], room);
    rest := chunks[1..];
  }

  /**
   Waiting first and looping afterwards writes what the channel carried, once and in order, as far as the socket
   takes it; and fails exactly when the socket takes less than all.
   */
  method ServeClient(chunks: seq<Bytes>, room: nat) returns (written: Bytes, ok: bool)
    ensures ok <==> |Flat(chunks)| <= room
    ensures written == Fitting(Flat(chunks), room)
  {
    var rest;
    written, rest, ok := WaitForData(chunks, room);
    if ok {
      var more;
      more, ok := WriteLoop(rest, room - |written|);
      written := written + more;
    }
  }
}
