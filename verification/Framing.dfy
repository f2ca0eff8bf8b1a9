/** The framed, encrypted link between two relays. */
module Framing {
  import opened Basics
  import opened RelayTypes
  import opened MessageSize

  const MAX_ENCODED_LEN := 65535
  const MAX_ENCRYPTED_LEN := 16 + 65535
  const MESSAGE_BUFFER_SIZE := 2 + MAX_ENCODED_LEN
  const TAG_LEN := 16
  const MAX_NOISE_LEN := 65535

  // ---------------------------------------------------------------- foreign code

  // One direction of a Noise transport: authenticated encryption under a counting nonce.
  datatype Cipher = Cipher(seal: (nat, Bytes) -> Bytes, open: (nat, Bytes) -> Option<Bytes>)

  ghost predicate Sound(c: Cipher) {
    forall nonce, text :: |c.seal(nonce, text)| == |text| + TAG_LEN && c.open(nonce, c.seal(nonce, text)) == Some(text)
  }

  datatype Codec = Codec(encode: RelayMessage -> Bytes, decode: Bytes -> Option<RelayMessage>)

  ghost predicate Faithful(k: Codec) {
    forall m :: |k.encode(m)| == EncodedLen(m) && k.decode(k.encode(m)) == Some(m)
  }

  class Transport {
    var sending: nat
    var receiving: nat
  }

  // ---------------------------------------------------------------- writing

  /** A u16 in network order; longer lengths are truncated as by a cast. */
  function U16(n: nat): Bytes {
    [n % 0x1_0000 / 0x100, n % 0x100]
  }

  function FromU16(hi: byte, lo: byte): (r: nat)
    ensures r < 0x1_0000
  {
    hi * 0x100 + lo
  }

  /** The most significant byte comes first, in both directions. */
  lemma U16RoundTrip(n: nat)
    ensures FromU16(U16(n)[0], U16(n)[1]) == n % 0x1_0000
    ensures |U16(n)| == 2 && var hi: int, lo: int := U16(n)[0], U16(n)[1]; hi * 0x100 + lo == n % 0x1_0000
  {}

  // What the writer's queue yields: a message, or nothing for a whole ping interval.
  datatype Item = Send(message: RelayMessage) | Ping

  datatype WriteEnd = Disconnected | EncryptError | SlicePanic

  datatype Written = Written(wire: Bytes, nonce: nat, end: WriteEnd)

  function Sealed(k: Codec, c: Cipher, nonce: nat, m: RelayMessage): Bytes {
    c.seal(nonce, k.encode(m))
  }

  /** What the writer puts on the wire for a queue that yields `items` and is then disconnected. */
  function Write(k: Codec, c: Cipher, nonce: nat, items: seq<Item>): Written
    decreases |items|
  {
    if items == [] then Written([], nonce, Disconnected)
    else match items[0]
      case Ping =>
        var w := Write(k, c, nonce, items[1..]);
        w.(wire := [0, 0] + w.wire)
      case Send(m) =>
        if |k.encode(m)| > MAX_ENCODED_LEN then Written([], nonce, SlicePanic)
        else if |k.encode(m)| + TAG_LEN > MAX_NOISE_LEN then Written([], nonce, EncryptError)
        else
          var data := Sealed(k, c, nonce, m);
          var w := Write(k, c, nonce + 1, items[1..]);
          w.(wire := U16(|data|) + data + w.wire)
  }

  /** Encrypts the first `len` bytes of the encode buffer behind a length, all in the message buffer. */
  method Emit(c: Cipher, transport: Transport, encodeBuf: array<byte>, len: nat, dataBuf: array<byte>)
    returns (frame: Bytes)
    requires Sound(c) && dataBuf.Length == MESSAGE_BUFFER_SIZE && dataBuf != encodeBuf
    requires len <= encodeBuf.Length && len + TAG_LEN <= MAX_NOISE_LEN
    modifies transport`sending, dataBuf
    ensures transport.sending == old(transport.sending) + 1
    ensures var data := c.seal(old(transport.sending), encodeBuf[..len]); frame == U16(|data|) + data
  {
    var data := c.seal(transport.sending, encodeBuf[..len]);
    transport.sending := transport.sending + 1;
    Copy(dataBuf, 2, data);
    assert dataBuf[2..2 + |data|] == data;
    Copy(dataBuf, 0, U16(|data|));
    frame := dataBuf[..2 + |data|];
    assert frame == U16(|data|) + data;
  }

  /** The sequence that `write_loop` writes, through its two reused buffers. */
  method WriteLoop(k: Codec, c: Cipher, transport: Transport, items: seq<Item>, dataBuf: array<byte>)
    returns (wire: Bytes, end: WriteEnd)
    requires Sound(c) && dataBuf.Length == MESSAGE_BUFFER_SIZE
    modifies transport`sending, dataBuf
    ensures Written(wire, transport.sending, end) == Write(k, c, old(transport.sending), items)
  {
    var encodeBuf := new byte[0xFFFF](_ => 0);
    wire := [];
    for i := 0 to |items|
      invariant var w := Write(k, c, transport.sending, items[i..]);
                Write(k, c, old(transport.sending), items) == Written(wire + w.wire, w.nonce, w.end)
    {
      ghost var nonce, rest := transport.sending, items[i..];
      assert rest[0] == items[i] && rest[1..] == items[i + 1..];
      var frame: Bytes := [0, 0];
      if items[i].Send? {
        var encoded := k.encode(items[i].message);
        if |encoded| > encodeBuf.Length { return wire, SlicePanic; }
        Copy(encodeBuf, 0, encoded);
        assert encodeBuf[..|encoded|] == encoded;
        if |encoded| + TAG_LEN > MAX_NOISE_LEN { return wire, EncryptError; }
        frame := Emit(c, transport, encodeBuf, |encoded|, dataBuf);
      }
      ghost var w := Write(k, c, transport.sending, rest[1..]);
      assert Write(k, c, nonce, rest) == w.(wire := frame + w.wire);
      Assoc(wire, frame, w.wire);
      wire := wire + frame;
    }
    end := Disconnected;
  }

  // ---------------------------------------------------------------- reading

  datatype ReadEnd = Eof | DecryptError | DecodeError | Returned

  datatype ReadResult = ReadResult(got: seq<RelayMessage>, nonce: nat, end: ReadEnd)

  // One frame taken off the wire: what it decodes to, or why reading ends; the next nonce.
  datatype Received = Message(message: RelayMessage, nonce: nat) | Stop(end: ReadEnd, nonce: nat)

  function Receive(k: Codec, c: Cipher, nonce: nat, data: Bytes): Received {
    var text := if data == [] then Some([]) else if |data| < TAG_LEN then None else c.open(nonce, data);
    if text.None? then Stop(DecryptError, nonce)
    else
      var next := if data == [] then nonce else nonce + 1;
      var m := k.decode(text.value);
      if m.None? then Stop(DecodeError, next) else Message(m.value, next)
  }

  /** The wire holds one whole frame, at least. */
  predicate HasFrame(wire: Bytes) {
    |wire| >= 2 && |wire| >= 2 + FromU16(wire[0], wire[1])
  }

  /** What a reader passes on from a stream that breaks off after `wire`; call number `i` may be refused. */
  function Read(k: Codec, c: Cipher, nonce: nat, wire: Bytes, refuses: nat -> bool, i: nat): ReadResult
    decreases |wire|
  {
    if !HasFrame(wire) then ReadResult([], nonce, Eof)
    else
      var len := FromU16(wire[0], wire[1]);
      match Receive(k, c, nonce, wire[2..2 + len])
      case Stop(end, next) => ReadResult([], next, end)
      case Message(m, next) =>
        if refuses(i) then ReadResult([], next, Returned)
        else
          var r := Read(k, c, next, wire[2 + len..], refuses, i + 1);
          r.(got := [m] + r.got)
  }

  method Decrypt(k: Codec, c: Cipher, transport: Transport, data: Bytes) returns (r: Received)
    modifies transport`receiving
    ensures r == Receive(k, c, old(transport.receiving), data) && transport.receiving == r.nonce
  {
    var decrypted: Bytes := [];
    if |data| != 0 {
      var text := if |data| < TAG_LEN then None else c.open(transport.receiving, data);
      if text.None? { return Stop(DecryptError, transport.receiving); }
      decrypted := text.value;
      transport.receiving := transport.receiving + 1;
    }
    var m := k.decode(decrypted);
    r := if m.None? then Stop(DecodeError, transport.receiving) else Message(m.value, transport.receiving);
  }

  method ReadLoop(k: Codec, c: Cipher, transport: Transport, input: Bytes, dataBuf: array<byte>, refuses: nat -> bool)
    returns (got: seq<RelayMessage>, end: ReadEnd)
    requires dataBuf.Length == MAX_ENCRYPTED_LEN
    modifies transport`receiving, dataBuf
    ensures ReadResult(got, transport.receiving, end) == Read(k, c, old(transport.receiving), input, refuses, 0)
  {
    got := [];
    var at := 0;
    while true
      invariant 0 <= at <= |input|
      invariant var r := Read(k, c, transport.receiving, input[at..], refuses, |got|);
                Read(k, c, old(transport.receiving), input, refuses, 0) == ReadResult(got + r.got, r.nonce, r.end)
      decreases |input| - at
    {
      ghost var wire := input[at..];
      if |input| - at < 2 { return got, Eof; }
      assert wire[0] == input[at] && wire[1] == input[at + 1];
      var len := FromU16(input[at], input[at + 1]);
      if |input| - at < 2 + len { return got, Eof; }
      Copy(dataBuf, 0, input[at + 2..at + 2 + len]);
      at := at + 2 + len;
      assert dataBuf[..len] == wire[2..2 + len] && input[at..] == wire[2 + len..];
      var r := Decrypt(k, c, transport, dataBuf[..len]);
      if r.Stop? { return got, r.end; }
      if refuses(|got|) { return got, Returned; }
      Assoc(got, [r.message], Read(k, c, transport.receiving, input[at..], refuses, |got| + 1).got);
      got := got + [r.message];
    }
  }
}
