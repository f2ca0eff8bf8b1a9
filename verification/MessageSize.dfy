/** How long the protobuf encoding of a message is, and that every message of a relay network fits a frame. */
module MessageSize {
  import opened Basics
  import opened RelayTypes
  import Routes

  // The longest message that leaves room for a 16-byte tag in a 65535-byte Noise message.
  const MAX_PAYLOAD := 65519

  // ---------------------------------------------------------------- encoded lengths

  /** The length of a base 128 varint. */
  function VarintLen(n: nat): (r: nat)
    ensures r >= 1
  {
    if n < 128 then 1 else 1 + VarintLen(n / 128)
  }

  function Power(base: nat, k: nat): nat {
    if k == 0 then 1 else base * Power(base, k - 1)
  }

  /** All fields have numbers below 16, so every key is one byte; default values are left out. */
  function IntFieldLen(n: nat): nat {
    if n == 0 then 0 else 1 + VarintLen(n)
  }

  function BoolFieldLen(b: bool): nat {
    if b then 2 else 0
  }

  function BytesFieldLen(b: Bytes): nat {
    if b == [] then 0 else 1 + VarintLen(|b|) + |b|
  }

  /** The length of the fields inside the chosen variant. */
  function BodyLen(m: RelayMessage): nat {
    match m
    case NoInner => 0
    case RelayGame(id, motd, hops) => IntFieldLen(id) + BytesFieldLen(motd) + IntFieldLen(hops)
    case RelayConnect(gameId, cid, hops) => IntFieldLen(gameId) + IntFieldLen(cid) + IntFieldLen(hops)
    case RelayData(cid, local, data) => IntFieldLen(cid) + BoolFieldLen(local) + BytesFieldLen(data)
    case RelayClose(cid, local) => IntFieldLen(cid) + BoolFieldLen(local)
  }

  /** A chosen variant is written even when its body is empty. */
  function EncodedLen(m: RelayMessage): nat {
    if m.NoInner? then 0 else 1 + VarintLen(BodyLen(m)) + BodyLen(m)
  }

  /** A varint takes at most `k` bytes exactly when the number has at most `k` groups of seven bits. */
  lemma {:induction false} VarintLenExact(n: nat, k: nat)
    requires k >= 1
    ensures VarintLen(n) <= k <==> n < Power(128, k)
    decreases k
  {
    if k == 1 {
      assert Power(128, 1) == 128 * Power(128, 0) == 128;
    } else {
      VarintLenExact(n / 128, k - 1);
      assert Power(128, k) == 128 * Power(128, k - 1);
      assert n / 128 < Power(128, k - 1) <==> n < 128 * Power(128, k - 1);
      if n < 128 { PowerPositive(k - 1); }
    }
  }

  lemma {:induction false} PowerPositive(k: nat)
    ensures Power(128, k) >= 1
  {
    if k > 0 { PowerPositive(k - 1); }
  }

  // ---------------------------------------------------------------- the bound

  const U64_LIMIT: nat := 0x1_0000_0000_0000_0000

  /** The ids of the message are representable: no counter has overflowed. */
  predicate IdsFit(m: RelayMessage) {
    match m
    case NoInner => true
    case RelayGame(id, _, _) => id < U64_LIMIT
    case RelayConnect(gameId, cid, _) => gameId < U64_LIMIT && cid < U64_LIMIT
    case RelayData(cid, _, _) => cid < U64_LIMIT
    case RelayClose(cid, _) => cid < U64_LIMIT
  }

  predicate HopsFit(m: RelayMessage) {
    m.RelayGame? || m.RelayConnect? ==> m.hops <= MAX_FORWARDING_HOPS
  }

  lemma IntFieldBound(n: nat)
    requires n < U64_LIMIT
    ensures IntFieldLen(n) <= 11
  {
    assert Power(128, 10) >= U64_LIMIT by {
      assert Power(128, 2) == 0x4000 && Power(128, 4) == 0x1000_0000 by {
        assert Power(128, 1) == 128 && Power(128, 3) == 0x20_0000;
      }
      assert Power(128, 6) == 0x400_0000_0000 by { assert Power(128, 5) == 0x8_0000_0000; }
      assert Power(128, 8) == 0x100_0000_0000_0000 by { assert Power(128, 7) == 0x2_0000_0000_0000; }
      assert Power(128, 9) == 0x8000_0000_0000_0000;
    }
    VarintLenExact(n, 10);
  }

  lemma ShortLen(n: nat)
    requires n < 0x20_0000
    ensures VarintLen(n) <= 3
  {
    assert Power(128, 3) == 128 * Power(128, 2) == 128 * (128 * Power(128, 1)) == 0x20_0000 by {
      assert Power(128, 1) == 128 * Power(128, 0);
    }
    VarintLenExact(n, 3);
  }

  /** A message within the network's size limits fits a frame, with much room to spare. */
  lemma SizeBound(m: RelayMessage)
    requires IdsFit(m) && HopsFit(m) && Routes.SizeOk(m)
    ensures EncodedLen(m) <= 16405 <= MAX_PAYLOAD
  {
    match m {
      case NoInner =>
      case RelayGame(id, motd, hops) =>
        IntFieldBound(id);
        IntFieldBound(hops);
        ShortLen(|motd|);
        ShortLen(BodyLen(m));
      case RelayConnect(gameId, cid, hops) =>
        IntFieldBound(gameId);
        IntFieldBound(cid);
        IntFieldBound(hops);
        ShortLen(BodyLen(m));
      case RelayData(cid, _, data) =>
        IntFieldBound(cid);
        ShortLen(|data|);
        ShortLen(BodyLen(m));
      case RelayClose(cid, _) =>
        IntFieldBound(cid);
        ShortLen(BodyLen(m));
    }
  }

  /** Every message queued anywhere in a network of relays fits a frame, however often its ids were rewritten. */
  lemma QueuedMessagesFit(n: Routes.Net, ls: seq<Routes.Label>, k: Routes.Packet)
    requires Routes.Start(n) && Routes.Valid(n, ls) && k in Routes.Exec(n, ls).sent && IdsFit(k.message)
    ensures EncodedLen(k.message) <= 16405 <= MAX_PAYLOAD
  {
    Routes.InvStart(n);
    Routes.InvRun(n, ls);
    if k.message.RelayGame? { Routes.AdCarriesDepth(n, ls, k); }
    if k.message.RelayConnect? { Routes.HopBudget(n, ls, k); }
    SizeBound(k.message);
  }
}
