/** The packet that advertises a game on the local network. */
module DiscoveryPacket {
  import opened Basics
  import opened Discovery

  datatype Packet = Packet(port: nat, motd: Bytes)

  // ---------------------------------------------------------------- decimal ports

  predicate IsDigit(b: byte) {
    ZERO <= b < ZERO + 10
  }

  /** A number as its decimal digits, without leading zeros. */
  function Decimal(n: nat): (r: Bytes)
    ensures r != [] && forall b :: b in r ==> IsDigit(b)
  {
    if n < 10 then [ZERO + n] else Decimal(n / 10) + [ZERO + n % 10]
  }

  ghost predicate AllDigits(b: Bytes) {
    forall i :: 0 <= i < |b| ==> IsDigit(b[i])
  }

  ghost function Value(b: Bytes): nat
    requires AllDigits(b)
  {
    if b == [] then 0
    else
      assert IsDigit(b[|b| - 1]);
      Value(b[..|b| - 1]) * 10 + (b[|b| - 1] - ZERO)
  }

  /** Digit by digit from the left, giving up at a strange byte or as soon as 16 bits are exceeded. */
  function Digits(b: Bytes, acc: nat): Option<nat> {
    if b == [] then Some(acc)
    else if !IsDigit(b[0]) || acc * 10 + (b[0] - ZERO) > 0xFFFF then None
    else Digits(b[1..], acc * 10 + (b[0] - ZERO))
  }

  function Unsigned(b: Bytes): Bytes {
    if b != [] && b[0] == PLUS then b[1..] else b
  }

  function ParseU16(b: Bytes): Option<nat> {
    if Unsigned(b) == [] then None else Digits(Unsigned(b), 0)
  }

  /** The value of `acc`, continued by the digits of `b`. */
  ghost function Continued(acc: nat, b: Bytes): nat
    requires AllDigits(b)
    decreases |b|
  {
    if b == [] then acc else Continued(acc * 10 + (b[0] - ZERO), b[1..])
  }

  lemma {:induction false} ContinuedGrows(acc: nat, b: Bytes)
    requires AllDigits(b)
    ensures Continued(acc, b) >= acc
    decreases |b|
  {
    if b != [] { ContinuedGrows(acc * 10 + (b[0] - ZERO), b[1..]); }
  }

  lemma {:induction false} DigitsExact(b: Bytes, acc: nat)
    requires acc <= 0xFFFF
    ensures Digits(b, acc).Some? <==> AllDigits(b) && Continued(acc, b) <= 0xFFFF
    ensures Digits(b, acc).Some? ==> Digits(b, acc).value == Continued(acc, b)
    decreases |b|
  {
    if b != [] {
      assert AllDigits(b) <==> IsDigit(b[0]) && AllDigits(b[1..]) by { assert b == [b[0]] + b[1..]; }
      if IsDigit(b[0]) {
        var next := acc * 10 + (b[0] - ZERO);
        if next <= 0xFFFF { DigitsExact(b[1..], next); }
        if AllDigits(b) { ContinuedGrows(next, b[1..]); }
      }
    }
  }

  lemma {:induction false} ContinuedSnoc(acc: nat, b: Bytes, d: byte)
    requires AllDigits(b) && IsDigit(d)
    ensures AllDigits(b + [d]) && Continued(acc, b + [d]) == Continued(acc, b) * 10 + (d - ZERO)
    decreases |b|
  {
    if b == [] {
      assert b + [d] == [d] && [d][1..] == [];
    } else {
      assert (b + [d])[0] == b[0] && (b + [d])[1..] == b[1..] + [d];
      ContinuedSnoc(acc * 10 + (b[0] - ZERO), b[1..], d);
    }
  }

  lemma {:induction false} ContinuedValue(b: Bytes)
    requires AllDigits(b)
    ensures Continued(0, b) == Value(b)
    decreases |b|
  {
    if b != [] {
      var front, d := b[..|b| - 1], b[|b| - 1];
      assert b == front + [d];
      ContinuedValue(front);
      ContinuedSnoc(0, front, d);
    }
  }

  /** A port parses exactly when it is a sign at most, then digits, whose value fits 16 bits; leading zeros are fine. */
  lemma ParseU16Exact(b: Bytes)
    ensures var d := Unsigned(b);
            && (ParseU16(b).Some? <==> d != [] && AllDigits(d) && Value(d) <= 0xFFFF)
            && (ParseU16(b).Some? ==> ParseU16(b).value == Value(d))
  {
    var d := Unsigned(b);
    DigitsExact(d, 0);
    if AllDigits(d) { ContinuedValue(d); }
  }

  lemma {:induction false} DecimalValue(n: nat)
    ensures AllDigits(Decimal(n)) && Value(Decimal(n)) == n
  {
    if n < 10 {
      assert [ZERO + n][..0] == [];
    } else {
      DecimalValue(n / 10);
      var d := Decimal(n);
      assert d[..|d| - 1] == Decimal(n / 10);
    }
  }

  lemma DecimalRoundTrip(n: nat)
    requires n <= 0xFFFF
    ensures ParseU16(Decimal(n)) == Some(n)
  {
    DecimalValue(n);
    assert Decimal(n)[0] in Decimal(n);
    ParseU16Exact(Decimal(n));
  }

  // ---------------------------------------------------------------- parsing

  datatype ParseResult = Ok(packet: Packet) | InvalidPort(data: Bytes)

  function ParseMap(m: map<Bytes, Bytes>): ParseResult {
    if AD !in m then InvalidPort([])
    else
      var port := ParseU16(m[AD]);
      if port.None? then InvalidPort(m[AD])
      else Ok(Packet(port.value, if MOTD in m then m[MOTD] else []))
  }

  // What the elements of a packet say.

  /** The last element of that name has that value. */
  ghost predicate Says(es: seq<Element>, name: Bytes, value: Bytes) {
    exists i: nat :: LastNamed(es, name, i) && es[i].value == value
  }

  /** That value, or nothing when no element has the name. */
  ghost predicate SaysOrNothing(es: seq<Element>, name: Bytes, value: Bytes) {
    Says(es, name, value) || (value == [] && forall e :: e in es ==> e.name != name)
  }

  /** At most a plus sign, then digits, for a number of 16 bits. */
  ghost predicate PortText(b: Bytes, port: nat) {
    exists d :: (b == d || b == [PLUS] + d) && Spells(d, port) && port <= 0xFFFF
  }

  ghost predicate Spells(d: Bytes, n: nat) {
    d != [] && AllDigits(d) && Value(d) == n
  }

  lemma PortTextExact(b: Bytes, port: nat)
    ensures ParseU16(b) == Some(port) <==> PortText(b, port)
  {
    ParseU16Exact(b);
    if ParseU16(b) == Some(port) {
      assert Spells(Unsigned(b), port) && (b == Unsigned(b) || b == [PLUS] + Unsigned(b));
    }
    if PortText(b, port) {
      var d :| (b == d || b == [PLUS] + d) && Spells(d, port) && port <= 0xFFFF;
      assert IsDigit(d[0]);
      assert Unsigned(b) == d;
    }
  }

  /**
   The meaning of a list of elements: the last AD gives the port if it is the text of one, and is reported otherwise;
   the last MOTD gives the MOTD, whatever bytes it holds.
   */
  ghost predicate Means(es: seq<Element>, r: ParseResult) {
    match r
    case Ok(p) => (exists v :: Says(es, AD, v) && PortText(v, p.port)) && SaysOrNothing(es, MOTD, p.motd)
    case InvalidPort(v) => SaysOrNothing(es, AD, v) && !exists n :: PortText(v, n)
  }

  lemma SaysExact(es: seq<Element>, name: Bytes, value: Bytes)
    ensures Says(es, name, value) <==> name in Inserted(es) && Inserted(es)[name] == value
  {
    LastWins(es, name, value);
  }

  lemma NamedExact(es: seq<Element>, name: Bytes)
    ensures name in Inserted(es) <==> exists e :: e in es && e.name == name
  {
    hide Inserted;
    if name in Inserted(es) {
      LastWins(es, name, Inserted(es)[name]);
      var i: nat :| LastNamed(es, name, i) && es[i].value == Inserted(es)[name];
      assert es[i] in es;
    }
    if e :| e in es && e.name == name {
      var k: nat :| k < |es| && es[k] == e;
      var i := LastOf(es, name, k);
      LastWins(es, name, es[i].value);
    }
  }

  lemma {:induction false} LastOf(es: seq<Element>, name: Bytes, k: nat) returns (i: nat)
    requires k < |es| && es[k].name == name
    ensures LastNamed(es, name, i)
    decreases |es| - k
  {
    if j :| k < j < |es| && es[j].name == name { i := LastOf(es, name, j); } else { i := k; }
  }

  lemma SaysOrNothingExact(es: seq<Element>, name: Bytes, value: Bytes)
    ensures var m := Inserted(es);
            SaysOrNothing(es, name, value) <==> value == if name in m then m[name] else []
  {
    hide Inserted;
    SaysExact(es, name, value);
    NamedExact(es, name);
  }

  lemma NoPort()
    ensures ParseU16([]) == None
  {}

  /** For all bytes, a packet is read as what its elements mean, and as nothing else. */
  lemma ParseExact(data: Bytes, es: seq<Element>, rest: Bytes, r: ParseResult)
    requires AllWellFormed(es) && StartsNone(rest) && data == PrintAll(es) + rest
    ensures ParseMap(Inserted(SplitElements(data).elements)) == r <==> Means(es, r)
  {
    hide Inserted, SplitElements, ParseU16, PortText, Says, SaysOrNothing, PrintAll, StartsNone, AllWellFormed;
    SplitExact(data, es, rest);
    var m := Inserted(es);
    match r {
      case Ok(p) =>
        if AD in m {
          SaysExact(es, AD, m[AD]);
          PortTextExact(m[AD], p.port);
        }
        forall v ensures Says(es, AD, v) <==> AD in m && m[AD] == v { SaysExact(es, AD, v); }
        SaysOrNothingExact(es, MOTD, p.motd);
      case InvalidPort(v) =>
        SaysOrNothingExact(es, AD, v);
        forall n: nat ensures ParseU16(v) == Some(n) <==> PortText(v, n) { PortTextExact(v, n); }
        NoPort();
    }
  }

  method Parse(data: Bytes) returns (r: ParseResult)
    ensures r == ParseMap(Inserted(SplitElements(data).elements))
    ensures Means(SplitElements(data).elements, r)
  {
    var rest, m := Elements(data);
    r := ParseMap(m);
    SplitPrints(data);
    ParseExact(data, SplitElements(data).elements, rest, r);
  }

  lemma {:induction false} ValueFits(es: seq<Element>, i: nat)
    requires i < |es|
    ensures |es[i].value| <= |PrintAll(es)|
  {
    if i > 0 { ValueFits(es[1..], i - 1); }
  }

  /** A MOTD that was parsed is no longer than the packet it came in, which fits the receive buffer. */
  lemma ParsedMotdFits(data: Bytes)
    requires |data| <= MAX_PACKET_SIZE
    ensures var r := ParseMap(Inserted(SplitElements(data).elements));
            r.Ok? ==> |r.packet.motd| <= |data| <= MAX_PACKET_SIZE
  {
    hide SplitElements, ParseU16, Inserted, PrintAll, WellFormed;
    var es := SplitElements(data).elements;
    SplitPrints(data);
    if MOTD in Inserted(es) {
      LastWins(es, MOTD, Inserted(es)[MOTD]);
      var i: nat :| LastNamed(es, MOTD, i) && es[i].value == Inserted(es)[MOTD];
      ValueFits(es, i);
    }
  }

  // ---------------------------------------------------------------- printing

  datatype EncodeResult = Encoded(len: nat) | InvalidMotd(motd: Bytes) | BufferTooSmall

  predicate ValidMotd(motd: Bytes) {
    OPEN !in motd && |motd| <= MAX_MOTD_LEN
  }

  function Encoding(p: Packet): Bytes {
    PrintAll([Element(MOTD, p.motd), Element(AD, Decimal(p.port))])
  }

  /** As much of `data` as there is room for. */
  method WriteAll(buf: array<byte>, at: nat, data: Bytes) returns (ok: bool)
    requires at <= buf.Length
    modifies buf
    ensures ok <==> at + |data| <= buf.Length
    ensures buf[..at] == old(buf[..at])
    ensures ok ==> buf[..at + |data|] == old(buf[..at]) + data
  {
    var n := if at + |data| <= buf.Length then |data| else buf.Length - at;
    for i := 0 to n
      invariant buf[..at + i] == old(buf[..at]) + data[..i]
    {
      buf[at + i] := data[i];
    }
    ok := n == |data|;
    assert buf[..at] == buf[..at + n][..at];
  }

  lemma EncodingPieces(p: Packet)
    ensures Encoding(p) == ([OPEN] + MOTD + [CLOSE] + p.motd) + Closing(p.port)
  {
    hide Print;
    var a, b := Element(MOTD, p.motd), Element(AD, Decimal(p.port));
    TwoPrinted(a, b);
    PrintPieces(a);
    PrintPieces(b);
    Assoc([OPEN] + MOTD + [CLOSE] + p.motd, [OPEN, SLASH] + MOTD + [CLOSE], Print(b));
  }

  /** What the last write puts after the MOTD. */
  function Closing(port: nat): Bytes {
    ([OPEN, SLASH] + MOTD + [CLOSE]) + (([OPEN] + AD + [CLOSE] + Decimal(port)) + ([OPEN, SLASH] + AD + [CLOSE]))
  }

  lemma TwoPrinted(a: Element, b: Element)
    ensures PrintAll([a, b]) == Print(a) + Print(b)
  {
    assert [a, b][1..] == [b] && [b][1..] == [];
    calc {
      PrintAll([a, b]);
      Print(a) + PrintAll([b]);
      { assert PrintAll([b]) == Print(b) + PrintAll([]); }
      Print(a) + Print(b);
    }
  }

  lemma TwoInserted(a: Element, b: Element)
    ensures Inserted([a, b]) == map[a.name := a.value][b.name := b.value]
  {
    assert [a, b][..1] == [a] && [a][..0] == [];
    assert Inserted([a]) == Inserted([])[a.name := a.value];
  }

  /** Writes step by step into the buffer, and fails exactly for a bad MOTD or a buffer that is too small. */
  method Encode(p: Packet, buf: array<byte>) returns (r: EncodeResult)
    modifies buf
    ensures r.InvalidMotd? <==> !ValidMotd(p.motd)
    ensures r.InvalidMotd? ==> r.motd == p.motd && buf[..] == old(buf[..])
    ensures r.Encoded? <==> ValidMotd(p.motd) && |Encoding(p)| <= buf.Length
    ensures r.Encoded? ==> r.len == |Encoding(p)| && buf[..r.len] == Encoding(p)
  {
    if OPEN in p.motd || |p.motd| > MAX_MOTD_LEN { return InvalidMotd(p.motd); }
    EncodingPieces(p);
    var first := [OPEN] + MOTD + [CLOSE];
    var ok := WriteAll(buf, 0, first);
    if !ok { return BufferTooSmall; }
    if buf.Length - |first| < |p.motd| { return BufferTooSmall; }
    ok := WriteAll(buf, |first|, p.motd);
    var at := |first| + |p.motd|;
    assert buf[..at] == [OPEN] + MOTD + [CLOSE] + p.motd;
    var last := Closing(p.port);
    ok := WriteAll(buf, at, last);
    if !ok { return BufferTooSmall; }
    r := Encoded(at + |last|);
  }

  // ---------------------------------------------------------------- round trip

  lemma NoBracketNoTag(b: Bytes)
    requires OPEN !in b
    ensures !HasTag(b)
  {}

  lemma NothingLeft()
    ensures StartsNone([])
  {
    StartsNoneExact([]);
  }

  lemma PacketElements(p: Packet)
    requires !HasTag(p.motd)
    ensures SplitElements(Encoding(p)) == Split([Element(MOTD, p.motd), Element(AD, Decimal(p.port))], [])
  {
    var es := [Element(MOTD, p.motd), Element(AD, Decimal(p.port))];
    NoBracketNoTag(Decimal(p.port));
    NothingLeft();
    SplitPrinted(es, []);
    assert PrintAll(es) + [] == PrintAll(es);
  }

  lemma PrintedParses(p: Packet)
    requires p.port <= 0xFFFF && !HasTag(p.motd)
    ensures ParseMap(Inserted(SplitElements(Encoding(p)).elements)) == Ok(p)
  {
    hide SplitElements, Inserted, ParseU16, Decimal;
    PacketElements(p);
    var a, b := Element(MOTD, p.motd), Element(AD, Decimal(p.port));
    TwoInserted(a, b);
    assert MOTD != AD;
    DecimalRoundTrip(p.port);
  }

  /** Whatever the bytes, a parsed port has 16 bits and a parsed MOTD no closing tag. */
  lemma ParsedPacket(data: Bytes, p: Packet)
    requires ParseMap(Inserted(SplitElements(data).elements)) == Ok(p)
    ensures p.port <= 0xFFFF && !HasTag(p.motd)
  {
    hide SplitElements, Inserted, ParseMap, PrintAll, StartsNone, HasTag;
    var es := SplitElements(data).elements;
    SplitPrints(data);
    ParseExact(data, es, SplitElements(data).rest, Ok(p));
    if Says(es, MOTD, p.motd) {
      var i: nat :| LastNamed(es, MOTD, i) && es[i].value == p.motd;
      assert es[i] in es && WellFormed(es[i]);
    } else {
      NoBracketNoTag([]);
    }
  }

  /**
   Parsing the printed form of a packet gives it back if, and only if, its port has 16 bits and its MOTD holds no
   closing tag.
   */
  lemma RoundTripExact(p: Packet)
    ensures ParseMap(Inserted(SplitElements(Encoding(p)).elements)) == Ok(p) <==> p.port <= 0xFFFF && !HasTag(p.motd)
  {
    if p.port <= 0xFFFF && !HasTag(p.motd) { PrintedParses(p); }
    if ParseMap(Inserted(SplitElements(Encoding(p)).elements)) == Ok(p) { ParsedPacket(Encoding(p), p); }
  }

  /** Parsing what was encoded gives back the port and the MOTD, for every port and every MOTD that is accepted. */
  lemma PacketRoundTrip(p: Packet)
    requires p.port <= 0xFFFF && ValidMotd(p.motd)
    ensures ParseMap(Inserted(SplitElements(Encoding(p)).elements)) == Ok(p)
  {
    NoBracketNoTag(p.motd);
    PrintedParses(p);
  }

  /** The bytes are the ASCII codes of the text. */
  predicate Ascii(b: Bytes, text: string) {
    |b| == |text| && forall i :: 0 <= i < |b| ==> b[i] == text[i] as int
  }

  lemma TagTexts()
    ensures Ascii([OPEN] + MOTD + [CLOSE], "[MOTD]")
    ensures Ascii([OPEN, SLASH] + MOTD + [CLOSE] + [OPEN] + AD + [CLOSE], "[/MOTD][AD]")
    ensures Ascii([OPEN, SLASH] + AD + [CLOSE], "[/AD]")
  {}

  /** The bytes of a packet on the network: the port and the MOTD between three fixed texts. */
  lemma PrintedAs(p: Packet) returns (a: Bytes, b: Bytes, c: Bytes)
    ensures Ascii(a, "[MOTD]") && Ascii(b, "[/MOTD][AD]") && Ascii(c, "[/AD]")
    ensures Encoding(p) == a + p.motd + b + Decimal(p.port) + c
  {
    hide Ascii;
    TagTexts();
    EncodingPieces(p);
    a, c := [OPEN] + MOTD + [CLOSE], [OPEN, SLASH] + AD + [CLOSE];
    b := [OPEN, SLASH] + MOTD + [CLOSE] + [OPEN] + AD + [CLOSE];
  }

  lemma DecimalShort(n: nat)
    requires n <= 0xFFFF
    ensures |Decimal(n)| <= 5
  {
    assert |Decimal(n / 10000)| == 1;
    assert n >= 1000 ==> |Decimal(n / 1000)| <= 2 && n / 1000 / 10 == n / 10000;
    assert n >= 100 ==> |Decimal(n / 100)| <= 3 && n / 100 / 10 == n / 1000;
    assert n >= 10 ==> |Decimal(n / 10)| <= 4 && n / 10 / 10 == n / 100;
  }

  /** Every packet that is accepted fits the buffer of `send`, so its encoding never runs out of room. */
  lemma PacketFits(p: Packet)
    requires p.port <= 0xFFFF && ValidMotd(p.motd)
    ensures |Encoding(p)| <= 283 <= SEND_BUFFER_SIZE
  {
    EncodingPieces(p);
    DecimalShort(p.port);
  }

  /** What `send` puts on the network: refused for a bad MOTD, and for no other reason. */
  method Send(p: Packet) returns (r: Option<Bytes>)
    requires p.port <= 0xFFFF
    ensures r == if ValidMotd(p.motd) then Some(Encoding(p)) else None
  {
    var buf := new byte[SEND_BUFFER_SIZE](_ => 0);
    if ValidMotd(p.motd) { PacketFits(p); }
    var e := Encode(p, buf);
    r := if e.Encoded? then Some(buf[..e.len]) else None;
  }
}
