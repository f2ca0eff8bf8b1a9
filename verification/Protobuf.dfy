/**
 The canonical proto3 encoding of the messages between relays, and a decoder for it: a codec with the two
 properties that the framed link relies on.
 */
module Protobuf {
  import opened Basics
  import opened RelayTypes
  import opened MessageSize
  import Framing

  // ---------------------------------------------------------------- varints

  /** Base 128, least significant group first; all groups but the last have their high bit set. */
  function Varint(n: nat): Bytes {
    if n < 128 then [n] else [128 + n % 128] + Varint(n / 128)
  }

  // A value read off the head of some bytes, and the rest.
  datatype Taken<T> = Taken(value: T, rest: Bytes)

  function ReadVarint(b: Bytes): (r: Option<Taken<nat>>)
    ensures r.Some? ==> |r.value.rest| < |b|
  {
    if b == [] then None
    else if b[0] < 128 then Some(Taken(b[0], b[1..]))
    else
      var more := ReadVarint(b[1..]);
      if more.None? then None else Some(Taken(more.value.value * 128 + (b[0] - 128), more.value.rest))
  }

  lemma {:induction false} VarintRoundTrip(n: nat, rest: Bytes)
    ensures ReadVarint(Varint(n) + rest) == Some(Taken(n, rest)) && |Varint(n)| == VarintLen(n)
  {
    if n >= 128 {
      VarintRoundTrip(n / 128, rest);
      var b := Varint(n) + rest;
      assert b[0] == 128 + n % 128 && b[1..] == Varint(n / 128) + rest;
      assert n / 128 * 128 + n % 128 == n;
    } else {
      assert (Varint(n) + rest)[1..] == rest;
    }
  }

  /** The `i`th group of seven bits of a number. */
  function Group(n: nat, i: nat): nat {
    if i == 0 then n % 128 else Group(n / 128, i - 1)
  }

  /** Byte `i` of a varint is the `i`th group, with the high bit set in all bytes but the last. */
  lemma {:induction false} VarintGroups(n: nat, i: nat)
    requires i < |Varint(n)|
    ensures Varint(n)[i] == Group(n, i) + if i + 1 < |Varint(n)| then 128 else 0
  {
    if n >= 128 && i > 0 { VarintGroups(n / 128, i - 1); }
  }

  // ---------------------------------------------------------------- fields

  // Wire types: 0 is a varint, 2 is length-delimited.
  function Key(field: nat, wire: nat): byte
    requires 0 < field < 16 && wire < 8
  {
    field * 8 + wire
  }

  function IntField(field: nat, n: nat): Bytes
    requires 0 < field < 16
  {
    if n == 0 then [] else [Key(field, 0)] + Varint(n)
  }

  function BytesField(field: nat, b: Bytes): Bytes
    requires 0 < field < 16
  {
    if b == [] then [] else Delimited(field, b)
  }

  function Delimited(field: nat, b: Bytes): Bytes
    requires 0 < field < 16
  {
    [Key(field, 2)] + (Varint(|b|) + b)
  }

  function BoolField(field: nat, b: bool): Bytes
    requires 0 < field < 16
  {
    IntField(field, if b then 1 else 0)
  }

  predicate Starts(b: Bytes, key: byte) {
    b != [] && b[0] == key
  }

  /** An absent field reads as the default value. */
  function ReadInt(field: nat, b: Bytes): Option<Taken<nat>>
    requires 0 < field < 16
  {
    if Starts(b, Key(field, 0)) then ReadVarint(b[1..]) else Some(Taken(0, b))
  }

  function ReadDelimited(b: Bytes): Option<Taken<Bytes>> {
    var len := ReadVarint(b);
    if len.None? || |len.value.rest| < len.value.value then None
    else Some(Taken(len.value.rest[..len.value.value], len.value.rest[len.value.value..]))
  }

  function ReadBytes(field: nat, b: Bytes): Option<Taken<Bytes>>
    requires 0 < field < 16
  {
    if Starts(b, Key(field, 2)) then ReadDelimited(b[1..]) else Some(Taken([], b))
  }

  lemma IntRoundTrip(field: nat, n: nat, rest: Bytes)
    requires 0 < field < 16 && !Starts(rest, Key(field, 0))
    ensures ReadInt(field, IntField(field, n) + rest) == Some(Taken(n, rest))
    ensures |IntField(field, n)| == IntFieldLen(n)
    ensures forall key :: Starts(IntField(field, n) + rest, key) ==> key == Key(field, 0) || Starts(rest, key)
  {
    VarintRoundTrip(n, rest);
    if n == 0 {
      assert [] + rest == rest;
    } else {
      assert (IntField(field, n) + rest)[1..] == Varint(n) + rest;
    }
  }

  lemma DelimitedRoundTrip(field: nat, b: Bytes, rest: Bytes)
    requires 0 < field < 16
    ensures Starts(Delimited(field, b) + rest, Key(field, 2))
    ensures ReadDelimited((Delimited(field, b) + rest)[1..]) == Some(Taken(b, rest))
    ensures |Delimited(field, b)| == 1 + VarintLen(|b|) + |b|
  {
    VarintRoundTrip(|b|, b + rest);
    assert (Delimited(field, b) + rest)[1..] == Varint(|b|) + (b + rest);
    assert (b + rest)[..|b|] == b && (b + rest)[|b|..] == rest;
  }

  lemma BytesRoundTrip(field: nat, b: Bytes, rest: Bytes)
    requires 0 < field < 16 && !Starts(rest, Key(field, 2))
    ensures ReadBytes(field, BytesField(field, b) + rest) == Some(Taken(b, rest))
    ensures |BytesField(field, b)| == BytesFieldLen(b)
    ensures forall key :: Starts(BytesField(field, b) + rest, key) ==> key == Key(field, 2) || Starts(rest, key)
  {
    if b == [] { assert [] + rest == rest; } else { DelimitedRoundTrip(field, b, rest); }
  }

  // ---------------------------------------------------------------- messages

  function Variant(m: RelayMessage): nat
    requires !m.NoInner?
  {
    match m
    case RelayGame(_, _, _) => 1
    case RelayConnect(_, _, _) => 2
    case RelayData(_, _, _) => 3
    case RelayClose(_, _) => 4
  }

  function Body(m: RelayMessage): Bytes {
    match m
    case NoInner => []
    case RelayGame(id, motd, hops) => IntField(1, id) + (BytesField(2, motd) + (IntField(3, hops) + []))
    case RelayConnect(gameId, cid, hops) => IntField(1, gameId) + (IntField(2, cid) + (IntField(3, hops) + []))
    case RelayData(cid, local, data) => IntField(1, cid) + (BoolField(2, local) + (BytesField(3, data) + []))
    case RelayClose(cid, local) => IntField(1, cid) + (BoolField(2, local) + [])
  }

  function Encode(m: RelayMessage): Bytes {
    if m.NoInner? then [] else Delimited(Variant(m), Body(m)) + []
  }

  /** Nothing may be left over. */
  function Whole(m: RelayMessage, rest: Bytes): Option<RelayMessage> {
    if rest == [] then Some(m) else None
  }

  function DecodeGame(b: Bytes): Option<RelayMessage> {
    var id := ReadInt(1, b);
    if id.None? then None
    else
      var motd := ReadBytes(2, id.value.rest);
      if motd.None? then None
      else
        var hops := ReadInt(3, motd.value.rest);
        if hops.None? then None else Whole(RelayGame(id.value.value, motd.value.value, hops.value.value),
                                           hops.value.rest)
  }

  function DecodeConnect(b: Bytes): Option<RelayMessage> {
    var id := ReadInt(1, b);
    if id.None? then None
    else
      var cid := ReadInt(2, id.value.rest);
      if cid.None? then None
      else
        var hops := ReadInt(3, cid.value.rest);
        if hops.None? then None else Whole(RelayConnect(id.value.value, cid.value.value, hops.value.value),
                                           hops.value.rest)
  }

  function DecodeData(b: Bytes): Option<RelayMessage> {
    var cid := ReadInt(1, b);
    if cid.None? then None
    else
      var local := ReadInt(2, cid.value.rest);
      if local.None? then None
      else
        var data := ReadBytes(3, local.value.rest);
        if data.None? then None else Whole(RelayData(cid.value.value, local.value.value != 0, data.value.value),
                                           data.value.rest)
  }

  function DecodeClose(b: Bytes): Option<RelayMessage> {
    var cid := ReadInt(1, b);
    if cid.None? then None
    else
      var local := ReadInt(2, cid.value.rest);
      if local.None? then None else Whole(RelayClose(cid.value.value, local.value.value != 0), local.value.rest)
  }

  function Decode(b: Bytes): Option<RelayMessage> {
    if b == [] then Some(NoInner)
    else
      var body := ReadDelimited(b[1..]);
      if body.None? || body.value.rest != [] then None
      else if b[0] == Key(1, 2) then DecodeGame(body.value.value)
      else if b[0] == Key(2, 2) then DecodeConnect(body.value.value)
      else if b[0] == Key(3, 2) then DecodeData(body.value.value)
      else if b[0] == Key(4, 2) then DecodeClose(body.value.value)
      else None
  }

  lemma GameRoundTrip(m: RelayMessage)
    requires m.RelayGame?
    ensures DecodeGame(Body(m)) == Some(m) && |Body(m)| == BodyLen(m)
  {
    hide IntField, BytesField, ReadInt, ReadBytes, IntFieldLen, BytesFieldLen;
    IntRoundTrip(3, m.hops, []);
    var tail := IntField(3, m.hops) + [];
    BytesRoundTrip(2, m.motd, tail);
    IntRoundTrip(1, m.id, BytesField(2, m.motd) + tail);
  }

  lemma ConnectRoundTrip(m: RelayMessage)
    requires m.RelayConnect?
    ensures DecodeConnect(Body(m)) == Some(m) && |Body(m)| == BodyLen(m)
  {
    hide IntField, ReadInt, IntFieldLen;
    IntRoundTrip(3, m.hops, []);
    var tail := IntField(3, m.hops) + [];
    IntRoundTrip(2, m.connectionId, tail);
    IntRoundTrip(1, m.gameId, IntField(2, m.connectionId) + tail);
  }

  lemma BoolLen(b: bool)
    ensures IntFieldLen(if b then 1 else 0) == BoolFieldLen(b)
  {}

  lemma DataRoundTrip(m: RelayMessage)
    requires m.RelayData?
    ensures DecodeData(Body(m)) == Some(m) && |Body(m)| == BodyLen(m)
  {
    hide IntField, BytesField, ReadInt, ReadBytes, IntFieldLen, BytesFieldLen, BoolFieldLen;
    BytesRoundTrip(3, m.data, []);
    var tail := BytesField(3, m.data) + [];
    BoolLen(m.connectionLocal);
    IntRoundTrip(2, if m.connectionLocal then 1 else 0, tail);
    IntRoundTrip(1, m.connectionId, BoolField(2, m.connectionLocal) + tail);
  }

  lemma CloseRoundTrip(m: RelayMessage)
    requires m.RelayClose?
    ensures DecodeClose(Body(m)) == Some(m) && |Body(m)| == BodyLen(m)
  {
    hide IntField, ReadInt, IntFieldLen, BoolFieldLen;
    BoolLen(m.connectionLocal);
    IntRoundTrip(2, if m.connectionLocal then 1 else 0, []);
    IntRoundTrip(1, m.connectionId, BoolField(2, m.connectionLocal) + []);
  }

  /** Decoding inverts encoding, and the encoded length is the one that the size bound speaks of. */
  lemma MessageRoundTrip(m: RelayMessage)
    ensures Decode(Encode(m)) == Some(m) && |Encode(m)| == EncodedLen(m)
  {
    hide Body, BodyLen, DecodeGame, DecodeConnect, DecodeData, DecodeClose, ReadDelimited, Delimited;
    if !m.NoInner? {
      DelimitedRoundTrip(Variant(m), Body(m), []);
      match m {
        case RelayGame(_, _, _) => GameRoundTrip(m);
        case RelayConnect(_, _, _) => ConnectRoundTrip(m);
        case RelayData(_, _, _) => DataRoundTrip(m);
        case RelayClose(_, _) => CloseRoundTrip(m);
      }
    }
  }

  /** The field of that number and wire type, behind its key byte; a field with a default value is left out. */
  ghost predicate Field(b: Bytes, key: byte, absent: bool, content: Bytes) {
    b == if absent then [] else [key] + content
  }

  /**
   The fields of each message, in order, with the key bytes that the schema gives them: eight times the field number,
   and 2 for length-delimited fields.
   */
  lemma WireFormat(m: RelayMessage) returns (a: Bytes, b: Bytes, c: Bytes)
    ensures match m
            case NoInner => Encode(m) == []
            case RelayGame(id, motd, hops) =>
              && Encode(m) == [10] + (Varint(|a + b + c|) + (a + b + c)) && Field(a, 8, id == 0, Varint(id))
              && Field(b, 18, motd == [], Varint(|motd|) + motd) && Field(c, 24, hops == 0, Varint(hops))
            case RelayConnect(gameId, cid, hops) =>
              && Encode(m) == [18] + (Varint(|a + b + c|) + (a + b + c)) && Field(a, 8, gameId == 0, Varint(gameId))
              && Field(b, 16, cid == 0, Varint(cid)) && Field(c, 24, hops == 0, Varint(hops))
            case RelayData(cid, local, data) =>
              && Encode(m) == [26] + (Varint(|a + b + c|) + (a + b + c)) && Field(a, 8, cid == 0, Varint(cid))
              && Field(b, 16, !local, [1]) && Field(c, 26, data == [], Varint(|data|) + data)
            case RelayClose(cid, local) =>
              && Encode(m) == [34] + (Varint(|a + b|) + (a + b)) && Field(a, 8, cid == 0, Varint(cid))
              && Field(b, 16, !local, [1])
  {
    hide Varint;
    a, b, c := [], [], [];
    match m {
      case NoInner =>
      case RelayGame(id, motd, hops) =>
        a, b, c := IntField(1, id), BytesField(2, motd), IntField(3, hops);
        EncodedFields(m, a, b, c);
      case RelayConnect(gameId, cid, hops) =>
        a, b, c := IntField(1, gameId), IntField(2, cid), IntField(3, hops);
        EncodedFields(m, a, b, c);
      case RelayData(cid, local, data) =>
        a, b, c := IntField(1, cid), BoolField(2, local), BytesField(3, data);
        BitText();
        EncodedFields(m, a, b, c);
      case RelayClose(cid, local) =>
        a, b := IntField(1, cid), BoolField(2, local);
        BitText();
        EncodedFields(m, a, b, []);
        assert a + b + [] == a + b;
    }
  }

  lemma BitText()
    ensures Varint(1) == [1]
  {}

  lemma EncodedFields(m: RelayMessage, a: Bytes, b: Bytes, c: Bytes)
    requires !m.NoInner? && (Body(m) == a + (b + (c + [])) || (c == [] && Body(m) == a + (b + [])))
    ensures Encode(m) == [Variant(m) * 8 + 2] + (Varint(|a + b + c|) + (a + b + c))
  {
    hide Varint, Body;
    assert Body(m) == a + b + c;
    var d := Delimited(Variant(m), Body(m));
    assert d + [] == d;
  }

  /** The canonical encoding is a faithful codec, so what is proved of the framed link holds of it. */
  lemma CanonicalIsFaithful()
    ensures Framing.Faithful(Framing.Codec(Encode, Decode))
  {
    forall m ensures |Encode(m)| == EncodedLen(m) && Decode(Encode(m)) == Some(m) { MessageRoundTrip(m); }
  }
}
