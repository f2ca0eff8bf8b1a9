/** What arrives over a framed link, wherever the byte stream breaks off. */
module FramedStream {
  import opened Basics
  import opened RelayTypes
  import opened MessageSize
  import opened Framing
  import Routes

  ghost predicate Fits(k: Codec, items: seq<Item>) {
    forall i :: i in items && i.Send? ==> |k.encode(i.message)| <= MAX_PAYLOAD
  }

  /** What the reader makes of an item: a ping reads as a message without content. */
  function Text(i: Item): RelayMessage {
    if i.Send? then i.message else NoInner
  }

  function Texts(items: seq<Item>): seq<RelayMessage> {
    seq(|items|, j requires 0 <= j < |items| => Text(items[j]))
  }

  function Messages(items: seq<Item>): nat {
    if items == [] then 0 else (if items[0].Send? then 1 else 0) + Messages(items[1..])
  }

  // ---------------------------------------------------------------- the writer

  /** The writer gets through its queue if, and only if, every message leaves room for its tag; then it counted them. */
  lemma {:induction false} WriteExact(k: Codec, c: Cipher, nonce: nat, items: seq<Item>)
    ensures var w := Write(k, c, nonce, items);
            && (w.end == Disconnected <==> Fits(k, items))
            && (w.end == Disconnected ==> w.nonce == nonce + Messages(items))
    decreases |items|
  {
    if items != [] {
      var tail := items[1..];
      assert items == [items[0]] + tail;
      WriteExact(k, c, if items[0].Send? then nonce + 1 else nonce, tail);
      assert Fits(k, items) <==> (items[0].Send? ==> |k.encode(items[0].message)| <= MAX_PAYLOAD) && Fits(k, tail);
    }
  }

  /** The bytes that carry one item. */
  function FrameOf(k: Codec, c: Cipher, nonce: nat, i: Item): Bytes {
    if i.Ping? then [0, 0] else U16(|Sealed(k, c, nonce, i.message)|) + Sealed(k, c, nonce, i.message)
  }

  function Later(nonce: nat, i: Item): nat {
    if i.Send? then nonce + 1 else nonce
  }

  lemma WriteHead(k: Codec, c: Cipher, nonce: nat, items: seq<Item>)
    requires items != [] && Fits(k, [items[0]])
    ensures Write(k, c, nonce, items).wire
         == FrameOf(k, c, nonce, items[0]) + Write(k, c, Later(nonce, items[0]), items[1..]).wire
  {
    assert items[0] in [items[0]];
  }

  /** The first item that does not fit stops the writer, after everything before it was written. */
  lemma {:induction false} WriteStops(k: Codec, c: Cipher, nonce: nat, items: seq<Item>, m: RelayMessage,
                                      rest: seq<Item>)
    requires Fits(k, items) && |k.encode(m)| > MAX_PAYLOAD
    ensures Write(k, c, nonce, items + ([Send(m)] + rest))
            == Write(k, c, nonce, items).(end := if |k.encode(m)| > MAX_ENCODED_LEN then SlicePanic else EncryptError)
    decreases |items|
  {
    var all := items + ([Send(m)] + rest);
    if items == [] {
      assert all[0] == Send(m);
    } else {
      assert all[0] == items[0] && all[1..] == items[1..] + ([Send(m)] + rest) && items[0] in items;
      WriteStops(k, c, Later(nonce, items[0]), items[1..], m, rest);
    }
  }

  // ---------------------------------------------------------------- the reader

  lemma HeadOf(data: Bytes, rest: Bytes)
    requires |data| < 0x1_0000
    ensures var wire := (U16(|data|) + data) + rest;
            && |wire| >= 2 && FromU16(wire[0], wire[1]) == |data| && HasFrame(wire)
            && wire[2..2 + |data|] == data && wire[2 + |data|..] == rest
  {
    var wire := (U16(|data|) + data) + rest;
    U16RoundTrip(|data|);
    assert wire[0] == U16(|data|)[0] && wire[1] == U16(|data|)[1];
  }

  /** A whole frame at the head of the wire is read as the item it carries. */
  lemma ReadHead(k: Codec, c: Cipher, nonce: nat, i: Item, rest: Bytes)
    requires Sound(c) && Faithful(k) && Fits(k, [i])
    ensures var wire := FrameOf(k, c, nonce, i) + rest;
            && HasFrame(wire)
            && var len := FromU16(wire[0], wire[1]);
               wire[2 + len..] == rest && Receive(k, c, nonce, wire[2..2 + len]) == Message(Text(i), Later(nonce, i))
  {
    hide U16, FromU16, HasFrame;
    assert i in [i];
    if i.Ping? {
      assert |k.encode(NoInner)| == 0;
      assert k.encode(NoInner) == [];
      HeadOf([], rest);
      ZeroHead(rest);
    } else {
      HeadOf(Sealed(k, c, nonce, i.message), rest);
    }
  }

  lemma ZeroHead(rest: Bytes)
    ensures U16(0) + [] + rest == [0, 0] + rest
  {}

  /** A frame that is cut short is not read. */
  lemma ReadShort(k: Codec, c: Cipher, nonce: nat, i: Item, cut: nat)
    requires Sound(c) && Fits(k, [i]) && cut < |FrameOf(k, c, nonce, i)|
    ensures !HasFrame(FrameOf(k, c, nonce, i)[..cut])
  {
    assert i in [i];
    if i.Send? { U16RoundTrip(|Sealed(k, c, nonce, i.message)|); }
  }

  /** Encrypted frames are never taken for pings, nor pings for encrypted frames. */
  lemma PingsDistinct(k: Codec, c: Cipher, nonce: nat, i: Item)
    requires Sound(c) && Fits(k, [i])
    ensures var f := FrameOf(k, c, nonce, i); |f| >= 2 && (FromU16(f[0], f[1]) == 0 <==> i.Ping?)
  {
    assert i in [i];
    if i.Send? { U16RoundTrip(|Sealed(k, c, nonce, i.message)|); }
  }

  /** How much of the queue is whole within the first `cut` bytes. */
  ghost predicate WholeWithin(k: Codec, c: Cipher, nonce: nat, items: seq<Item>, cut: nat, j: nat) {
    && j <= |items| && |Write(k, c, nonce, items[..j]).wire| <= cut
    && (j < |items| ==> cut < |Write(k, c, nonce, items[..j + 1]).wire|)
  }

  lemma WholeStep(k: Codec, c: Cipher, nonce: nat, items: seq<Item>, cut: nat, j: nat)
    requires items != [] && Fits(k, [items[0]])
    requires cut >= |FrameOf(k, c, nonce, items[0])|
    requires WholeWithin(k, c, Later(nonce, items[0]), items[1..], cut - |FrameOf(k, c, nonce, items[0])|, j)
    ensures WholeWithin(k, c, nonce, items, cut, j + 1)
  {
    assert items[..j + 1][1..] == items[1..][..j];
    WriteHead(k, c, nonce, items[..j + 1]);
    if j + 1 < |items| {
      assert items[..j + 2][1..] == items[1..][..j + 1];
      WriteHead(k, c, nonce, items[..j + 2]);
    }
  }

  lemma NothingWhole(k: Codec, c: Cipher, nonce: nat, items: seq<Item>, cut: nat)
    requires items != [] && Fits(k, [items[0]]) && cut < |FrameOf(k, c, nonce, items[0])|
    ensures WholeWithin(k, c, nonce, items, cut, 0)
  {
    WriteHead(k, c, nonce, items[..1]);
  }

  /** The result of reading `cut` bytes of a written queue, from call number `i` on. */
  ghost predicate Delivers(k: Codec, c: Cipher, nonce: nat, items: seq<Item>, cut: nat, refuses: nat -> bool, i: nat,
                           r: ReadResult) {
    && IsPrefix(r.got, Texts(items))
    && (r.end == Eof || r.end == Returned)
    && (r.end == Eof ==> r.nonce == nonce + Messages(items[..|r.got|]))
    && (r.end == Eof && Fits(k, items) ==> WholeWithin(k, c, nonce, items, cut, |r.got|))
    && (r.end == Returned ==> refuses(i + |r.got|))
    && (forall j :: i <= j < i + |r.got| ==> !refuses(j))
  }

  lemma ReadStep(k: Codec, c: Cipher, nonce: nat, head: Item, rest: Bytes, refuses: nat -> bool, i: nat)
    requires Sound(c) && Faithful(k) && Fits(k, [head])
    ensures var r := Read(k, c, Later(nonce, head), rest, refuses, i + 1);
            Read(k, c, nonce, FrameOf(k, c, nonce, head) + rest, refuses, i) ==
              if refuses(i) then ReadResult([], Later(nonce, head), Returned) else r.(got := [Text(head)] + r.got)
  {
    hide U16, FromU16, HasFrame, Receive, FrameOf;
    ReadHead(k, c, nonce, head, rest);
  }

  lemma DeliversStep(k: Codec, c: Cipher, nonce: nat, items: seq<Item>, cut: nat, refuses: nat -> bool, i: nat,
                     r: ReadResult)
    requires items != [] && Fits(k, [items[0]]) && cut >= |FrameOf(k, c, nonce, items[0])| && !refuses(i)
    requires Delivers(k, c, Later(nonce, items[0]), items[1..], cut - |FrameOf(k, c, nonce, items[0])|, refuses, i + 1,
                      r)
    ensures Delivers(k, c, nonce, items, cut, refuses, i, r.(got := [Text(items[0])] + r.got))
  {
    hide WholeWithin, FrameOf;
    assert Texts(items) == [Text(items[0])] + Texts(items[1..]);
    assert items[..|r.got| + 1][1..] == items[1..][..|r.got|];
    if r.end == Eof && Fits(k, items) {
      assert Fits(k, items[1..]);
      WholeStep(k, c, nonce, items, cut, |r.got|);
    }
  }

  /**
   The round trip: cut the written stream anywhere, and the reader passes on a prefix of what was queued. It
   stops for no other reason than the end of the stream or a refused call, with its nonce in step with the
   writer's after as many items; and unless refused, it passes on every item that is whole.
   */
  lemma {:induction false} FramedRoundTrip(k: Codec, c: Cipher, nonce: nat, items: seq<Item>, cut: nat,
                                           refuses: nat -> bool, i: nat)
    requires Sound(c) && Faithful(k) && cut <= |Write(k, c, nonce, items).wire|
    ensures Delivers(k, c, nonce, items, cut, refuses, i,
                     Read(k, c, nonce, Write(k, c, nonce, items).wire[..cut], refuses, i))
    decreases |items|
  {
    var wire := Write(k, c, nonce, items).wire;
    if items == [] || !Fits(k, [items[0]]) {
      Unwritable(k, c, nonce, items);
    } else {
      hide FrameOf, Write, Read, Delivers;
      var head, tail := items[0], items[1..];
      var frame, next := FrameOf(k, c, nonce, head), Later(nonce, head);
      WriteHead(k, c, nonce, items);
      if cut < |frame| {
        assert wire[..cut] == frame[..cut];
        CutShort(k, c, nonce, items, cut, refuses, i);
      } else {
        var rest := Write(k, c, next, tail).wire[..cut - |frame|];
        assert wire[..cut] == frame + rest;
        ReadStep(k, c, nonce, head, rest, refuses, i);
        if refuses(i) {
          Refused(k, c, nonce, items, cut, refuses, i, next);
        } else {
          FramedRoundTrip(k, c, next, tail, cut - |frame|, refuses, i + 1);
          DeliversStep(k, c, nonce, items, cut, refuses, i, Read(k, c, next, rest, refuses, i + 1));
        }
      }
    }
  }

  lemma Refused(k: Codec, c: Cipher, nonce: nat, items: seq<Item>, cut: nat, refuses: nat -> bool, i: nat, next: nat)
    requires refuses(i)
    ensures Delivers(k, c, nonce, items, cut, refuses, i, ReadResult([], next, Returned))
  {}

  lemma Unwritable(k: Codec, c: Cipher, nonce: nat, items: seq<Item>)
    requires items == [] || !Fits(k, [items[0]])
    ensures Write(k, c, nonce, items).wire == []
  {
    if items != [] { assert items[0] in items; }
  }

  lemma CutShort(k: Codec, c: Cipher, nonce: nat, items: seq<Item>, cut: nat, refuses: nat -> bool, i: nat)
    requires Sound(c) && items != [] && Fits(k, [items[0]]) && cut < |FrameOf(k, c, nonce, items[0])|
    ensures Delivers(k, c, nonce, items, cut, refuses, i,
                     Read(k, c, nonce, FrameOf(k, c, nonce, items[0])[..cut], refuses, i))
  {
    hide FrameOf, HasFrame;
    ReadShort(k, c, nonce, items[0], cut);
    NothingWhole(k, c, nonce, items, cut);
  }

  /** The whole stream carries the whole queue, and leaves both ends at the same nonce. */
  lemma FramedComplete(k: Codec, c: Cipher, nonce: nat, items: seq<Item>, refuses: nat -> bool)
    requires Sound(c) && Faithful(k) && Fits(k, items) && forall j :: !refuses(j)
    ensures var w := Write(k, c, nonce, items);
            Read(k, c, nonce, w.wire, refuses, 0) == ReadResult(Texts(items), w.nonce, Eof)
  {
    hide Read, Write, Fits;
    var w := Write(k, c, nonce, items);
    var r := Read(k, c, nonce, w.wire, refuses, 0);
    assert w.wire[..|w.wire|] == w.wire;
    FramedRoundTrip(k, c, nonce, items, |w.wire|, refuses, 0);
    WriteExact(k, c, nonce, items);
    assert items[..|items|] == items;
    if |r.got| < |items| { WireMonotone(k, c, nonce, items, |r.got| + 1); }
  }

  lemma {:induction false} WireMonotone(k: Codec, c: Cipher, nonce: nat, items: seq<Item>, j: nat)
    requires Fits(k, items) && j <= |items|
    ensures |Write(k, c, nonce, items[..j]).wire| <= |Write(k, c, nonce, items).wire|
    decreases |items|
  {
    if j > 0 {
      assert items[0] in items && forall i :: i in items[1..] ==> i in items;
      assert items[..j][1..] == items[1..][..j - 1];
      WriteHead(k, c, nonce, items[..j]);
      WriteHead(k, c, nonce, items);
      WireMonotone(k, c, Later(nonce, items[0]), items[1..], j - 1);
    }
  }

  /** Behind a written queue the reader goes on with what follows it. */
  lemma {:induction false} ReadOn(k: Codec, c: Cipher, nonce: nat, items: seq<Item>, more: Bytes, refuses: nat -> bool,
                                  i: nat)
    requires Sound(c) && Faithful(k) && Fits(k, items) && forall j :: i <= j < i + |items| ==> !refuses(j)
    ensures var w := Write(k, c, nonce, items);
            var r := Read(k, c, w.nonce, more, refuses, i + |items|);
            Read(k, c, nonce, w.wire + more, refuses, i) == r.(got := Texts(items) + r.got)
    decreases |items|
  {
    hide Read, FrameOf, Write, Sound, Faithful, Texts;
    if items == [] {
      NothingRead(k, c, nonce, more, refuses, i);
    } else {
      assert items[0] in items && Fits(k, [items[0]]) && Fits(k, items[1..]);
      hide Fits;
      var tail := Write(k, c, Later(nonce, items[0]), items[1..]);
      WriteTail(k, c, nonce, items);
      ReadOn(k, c, Later(nonce, items[0]), items[1..], more, refuses, i + 1);
      Assoc(FrameOf(k, c, nonce, items[0]), tail.wire, more);
      ReadStep(k, c, nonce, items[0], tail.wire + more, refuses, i);
      TextsOn(items, Read(k, c, tail.nonce, more, refuses, i + |items|).got);
    }
  }

  lemma NothingRead(k: Codec, c: Cipher, nonce: nat, more: Bytes, refuses: nat -> bool, i: nat)
    ensures Write(k, c, nonce, []).nonce == nonce && Write(k, c, nonce, []).wire + more == more
    ensures var r := Read(k, c, nonce, more, refuses, i); r == r.(got := Texts([]) + r.got)
  {}

  lemma TextsOn(items: seq<Item>, got: seq<RelayMessage>)
    requires items != []
    ensures [Text(items[0])] + (Texts(items[1..]) + got) == Texts(items) + got
  {}

  lemma WriteTail(k: Codec, c: Cipher, nonce: nat, items: seq<Item>)
    requires items != [] && Fits(k, [items[0]])
    ensures var w := Write(k, c, Later(nonce, items[0]), items[1..]);
            Write(k, c, nonce, items) == w.(wire := FrameOf(k, c, nonce, items[0]) + w.wire)
  {
    assert items[0] in [items[0]];
  }

  /** Why a frame that no writer wrote stops the reader, and where the nonce is then. */
  ghost predicate Spoilt(k: Codec, c: Cipher, nonce: nat, data: Bytes, end: ReadEnd, next: nat) {
    && 0 < |data| < 0x1_0000
    && if |data| < TAG_LEN || c.open(nonce, data) == None then end == DecryptError && next == nonce
       else k.decode(c.open(nonce, data).value) == None && end == DecodeError && next == nonce + 1
  }

  /**
   A spoilt frame ends the stream: everything queued before it is passed on, nothing behind it is, and the error
   says whether decryption or decoding failed.
   */
  lemma SpoiltFrame(k: Codec, c: Cipher, nonce: nat, items: seq<Item>, data: Bytes, more: Bytes, refuses: nat -> bool,
                    end: ReadEnd, next: nat)
    requires Sound(c) && Faithful(k) && Fits(k, items) && forall j :: !refuses(j)
    requires Spoilt(k, c, nonce + Messages(items), data, end, next)
    ensures Read(k, c, nonce, Write(k, c, nonce, items).wire + ((U16(|data|) + data) + more), refuses, 0)
            == ReadResult(Texts(items), next, end)
  {
    hide U16, FromU16, HasFrame, Write, Fits, Messages;
    WriteExact(k, c, nonce, items);
    ReadOn(k, c, nonce, items, (U16(|data|) + data) + more, refuses, 0);
    HeadOf(data, more);
  }

  /** On a link that carries messages of a relay network, with pings in between, the writer never fails. */
  lemma WriterNeverFails(n: Routes.Net, ls: seq<Routes.Label>, items: seq<Item>, k: Codec, c: Cipher, nonce: nat)
    requires Routes.Start(n) && Routes.Valid(n, ls) && Faithful(k)
    requires forall i :: i in items && i.Send? ==>
               IdsFit(i.message) && exists p :: p in Routes.Exec(n, ls).sent && p.message == i.message
    ensures Write(k, c, nonce, items).end == Disconnected
  {
    forall i | i in items && i.Send? ensures |k.encode(i.message)| <= MAX_PAYLOAD {
      var p :| p in Routes.Exec(n, ls).sent && p.message == i.message;
      QueuedMessagesFit(n, ls, p);
    }
    WriteExact(k, c, nonce, items);
  }
}
