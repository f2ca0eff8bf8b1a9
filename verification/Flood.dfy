/** One local advertisement causes a bounded number of deliveries in the whole network. */
module Flood {
  import opened RelayTypes
  import opened RelayModel

  // `flood` marks the descendants of one chosen local advertisement.
  datatype Flying = Flying(from: PeerId, to: PeerId, message: RelayMessage, flood: bool)

  /** All messages in flight, and how many advertisements of the flood were delivered so far. */
  datatype Net = Net(relays: map<PeerId, State>, air: seq<Flying>, started: bool, delivered: nat)

  // `order` is the order in which a handler's loop happens to visit the peers it sends to.
  datatype Label =
    | Deliver(index: nat, env: Env, order: seq<PeerId>)
    | Lose(index: nat)
    | Happen(relay: PeerId, event: Event, env: Env, order: seq<PeerId>, flood: bool)

  ghost predicate Enumerates(order: seq<PeerId>, sends: map<PeerId, RelayMessage>) {
    && (forall i, j :: 0 <= i < j < |order| ==> order[i] != order[j])
    && (forall p :: p in order <==> p in sends)
  }

  function Batch(p: PeerId, order: seq<PeerId>, sends: map<PeerId, RelayMessage>, flood: bool): seq<Flying>
    requires forall q :: q in order ==> q in sends
  {
    seq(|order|, i requires 0 <= i < |order| => Flying(p, order[i], sends[order[i]], flood))
  }

  function Without(air: seq<Flying>, i: nat): seq<Flying>
    requires i < |air|
  {
    air[..i] + air[i + 1..]
  }

  ghost predicate Enabled(n: Net, l: Label) {
    match l
    case Lose(i) => i < |n.air|
    case Deliver(i, env, order) =>
      && i < |n.air| && n.air[i].to in n.relays
      && Enumerates(order, Handle(n.relays[n.air[i].to], Recv(n.air[i].from, n.air[i].message), env).sends)
    case Happen(p, e, env, order, flood) =>
      && p in n.relays && !e.Recv? && (flood ==> e.AddLocalGame? && !n.started)
      && Enumerates(order, Handle(n.relays[p], e, env).sends)
  }

  ghost function Next(n: Net, l: Label): Net
    requires Enabled(n, l)
  {
    match l
    case Lose(i) => n.(air := Without(n.air, i))
    case Deliver(i, env, order) =>
      var k := n.air[i];
      var o := Handle(n.relays[k.to], Recv(k.from, k.message), env);
      Net(n.relays[k.to := o.state],
          Without(n.air, i) + Batch(k.to, order, o.sends, k.flood),
          n.started,
          n.delivered + if k.flood then 1 else 0)
    case Happen(p, e, env, order, flood) =>
      var o := Handle(n.relays[p], e, env);
      Net(n.relays[p := o.state], n.air + Batch(p, order, o.sends, flood), n.started || flood, n.delivered)
  }

  /** No relay has more than `max` peers. */
  ghost predicate Degree(n: Net, max: nat) {
    forall p :: p in n.relays ==> |n.relays[p].peers| <= max
  }

  /** Every step is possible, and no relay ever has more than `max` peers. */
  ghost predicate Valid(n: Net, ls: seq<Label>, max: nat)
    decreases |ls|
  {
    Degree(n, max) && (ls == [] || (Enabled(n, ls[0]) && Valid(Next(n, ls[0]), ls[1..], max)))
  }

  ghost function Exec(n: Net, ls: seq<Label>, max: nat): Net
    requires Valid(n, ls, max)
    decreases |ls|
  {
    if ls == [] then n else Exec(Next(n, ls[0]), ls[1..], max)
  }

  // ---------------------------------------------------------------- the measure

  /** How many deliveries an advertisement with the given hops can cause, itself included. */
  function Cost(max: nat, hops: nat): nat
    requires max >= 1
    decreases MAX_FORWARDING_HOPS - hops
  {
    if hops >= MAX_FORWARDING_HOPS then 1 else 1 + (max - 1) * Cost(max, hops + 1)
  }

  function Weight(max: nat, k: Flying): nat
    requires max >= 1
  {
    if k.flood && k.message.RelayGame? then Cost(max, k.message.hops) else 0
  }

  function Total(max: nat, air: seq<Flying>): nat
    requires max >= 1
  {
    if air == [] then 0 else Weight(max, air[0]) + Total(max, air[1..])
  }

  lemma {:induction false} TotalConcat(max: nat, a: seq<Flying>, b: seq<Flying>)
    requires max >= 1
    ensures Total(max, a + b) == Total(max, a) + Total(max, b)
  {
    if a == [] {
      assert a + b == b;
    } else {
      assert (a + b)[1..] == a[1..] + b;
      TotalConcat(max, a[1..], b);
    }
  }

  lemma TotalWithout(max: nat, air: seq<Flying>, i: nat)
    requires max >= 1 && i < |air|
    ensures Total(max, air) == Total(max, Without(air, i)) + Weight(max, air[i])
  {
    assert air == air[..i] + air[i..];
    TotalConcat(max, air[..i], air[i..]);
    TotalConcat(max, air[..i], air[i + 1..]);
  }

  lemma OneMore(n: nat, w: nat)
    requires n >= 1
    ensures n * w == w + (n - 1) * w
  {}

  lemma TimesMonotone(a: nat, b: nat, w: nat)
    requires a <= b
    ensures a * w <= b * w
  {}

  lemma {:induction false} TotalBounded(max: nat, air: seq<Flying>, w: nat)
    requires max >= 1 && forall k :: k in air ==> Weight(max, k) <= w
    ensures Total(max, air) <= |air| * w
  {
    if air != [] {
      forall k | k in air[1..] ensures Weight(max, k) <= w { assert k in air; }
      TotalBounded(max, air[1..], w);
      assert air[0] in air;
      OneMore(|air|, w);
    }
  }

  lemma {:induction false} OrderSize(order: seq<PeerId>, within: set<PeerId>)
    requires forall i, j :: 0 <= i < j < |order| ==> order[i] != order[j]
    requires forall p :: p in order ==> p in within
    ensures |order| <= |within|
    decreases |order|
  {
    if order != [] {
      OrderSize(order[1..], within - {order[0]});
    }
  }

  /** A delivered advertisement is forwarded one hop on, and never to the peer it came from. */
  lemma GameFanOut(s: State, from: PeerId, m: RelayMessage, env: Env)
    requires m.RelayGame?
    ensures var sends := Handle(s, Recv(from, m), env).sends;
            && (forall q :: q in sends ==> from in s.peers && q in s.peers.Keys - {from} && m.hops < MAX_FORWARDING_HOPS
                                           && sends[q].RelayGame? && sends[q].hops == m.hops + 1)
  {}

  lemma LocalFanOut(s: State, e: Event, env: Env)
    requires e.AddLocalGame?
    ensures var sends := Handle(s, e, env).sends;
            forall q :: q in sends ==> q in s.peers && sends[q].RelayGame? && sends[q].hops == 0
  {}

  ghost predicate OnlyAds(air: seq<Flying>) {
    forall k :: k in air && k.flood ==> k.message.RelayGame?
  }

  lemma BatchEach(max: nat, p: PeerId, order: seq<PeerId>, sends: map<PeerId, RelayMessage>, flood: bool, hops: nat)
    requires max >= 1 && Enumerates(order, sends)
    requires flood ==> forall q :: q in sends ==> sends[q].RelayGame? && sends[q].hops == hops
    ensures var batch := Batch(p, order, sends, flood);
            && |batch| == |order| && OnlyAds(batch)
            && forall k :: k in batch ==> Weight(max, k) <= if flood then Cost(max, hops) else 0
  {}

  lemma BatchWeight(max: nat, p: PeerId, order: seq<PeerId>, sends: map<PeerId, RelayMessage>, flood: bool, hops: nat,
                    within: set<PeerId>, size: nat)
    requires max >= 1 && Enumerates(order, sends) && |within| <= size
    requires flood ==> forall q :: q in sends ==> q in within && sends[q].RelayGame? && sends[q].hops == hops
    ensures Total(max, Batch(p, order, sends, flood)) <= if flood then size * Cost(max, hops) else 0
    ensures OnlyAds(Batch(p, order, sends, flood))
  {
    var batch := Batch(p, order, sends, flood);
    var w := if flood then Cost(max, hops) else 0;
    BatchEach(max, p, order, sends, flood, hops);
    TotalBounded(max, batch, w);
    if flood {
      OrderSize(order, within);
      TimesMonotone(|order|, size, w);
    }
  }

  /** What an advertisement causes costs less than the advertisement. */
  lemma FanOutCost(max: nat, s: State, from: PeerId, to: PeerId, m: RelayMessage, env: Env, order: seq<PeerId>)
    requires max >= 1 && |s.peers| <= max && m.RelayGame?
    requires Enumerates(order, Handle(s, Recv(from, m), env).sends)
    ensures var batch := Batch(to, order, Handle(s, Recv(from, m), env).sends, true);
            OnlyAds(batch) && Total(max, batch) + 1 <= Cost(max, m.hops)
  {
    var sends := Handle(s, Recv(from, m), env).sends;
    GameFanOut(s, from, m, env);
    if q :| q in sends {
      BatchWeight(max, to, order, sends, true, m.hops + 1, s.peers.Keys - {from}, max - 1);
    } else {
      BatchWeight(max, to, order, sends, true, m.hops, {}, 0);
    }
  }

  /** Delivering an advertisement of the flood strictly decreases the measure. */
  lemma DeliverDecreases(n: Net, l: Label, max: nat)
    requires max >= 1 && Degree(n, max) && l.Deliver? && Enabled(n, l) && OnlyAds(n.air)
    ensures OnlyAds(Next(n, l).air)
    ensures Total(max, Next(n, l).air) + (if n.air[l.index].flood then 1 else 0) <= Total(max, n.air)
  {
    var k := n.air[l.index];
    var sends := Handle(n.relays[k.to], Recv(k.from, k.message), l.env).sends;
    TotalWithout(max, n.air, l.index);
    TotalConcat(max, Without(n.air, l.index), Batch(k.to, l.order, sends, k.flood));
    if k.flood {
      FanOutCost(max, n.relays[k.to], k.from, k.to, k.message, l.env, l.order);
    } else {
      BatchWeight(max, k.to, l.order, sends, false, 0, {}, 0);
    }
  }

  lemma HappenAdds(n: Net, l: Label, max: nat)
    requires max >= 1 && Degree(n, max) && l.Happen? && Enabled(n, l) && OnlyAds(n.air)
    ensures OnlyAds(Next(n, l).air)
    ensures Total(max, Next(n, l).air) <= Total(max, n.air) + if l.flood then max * Cost(max, 0) else 0
  {
    var s := n.relays[l.relay];
    var o := Handle(s, l.event, l.env);
    TotalConcat(max, n.air, Batch(l.relay, l.order, o.sends, l.flood));
    if l.flood { LocalFanOut(s, l.event, l.env); }
    BatchWeight(max, l.relay, l.order, o.sends, l.flood, 0, s.peers.Keys, max);
  }

  lemma {:induction false} FloodRun(n: Net, ls: seq<Label>, max: nat)
    requires max >= 1 && Valid(n, ls, max) && OnlyAds(n.air)
    ensures var e := Exec(n, ls, max);
            e.delivered + Total(max, e.air)
              <= n.delivered + Total(max, n.air) + if n.started then 0 else max * Cost(max, 0)
    decreases |ls|
  {
    if ls != [] {
      var l := ls[0];
      match l {
        case Lose(i) => TotalWithout(max, n.air, i);
        case Deliver(_, _, _) => DeliverDecreases(n, l, max);
        case Happen(_, _, _, _, _) => HappenAdds(n, l, max);
      }
      FloodRun(Next(n, l), ls[1..], max);
    }
  }

  /**
   Floods terminate: with at most D peers per relay, one local advertisement causes at most
   D * (1 + (D-1) + (D-1)^2) deliveries, whatever else happens in the network.
   */
  lemma FloodBound(n: Net, ls: seq<Label>, max: nat)
    requires max >= 1 && Valid(n, ls, max)
    requires !n.started && n.delivered == 0 && forall k :: k in n.air ==> !k.flood
    ensures Exec(n, ls, max).delivered <= max * (1 + (max - 1) + (max - 1) * (max - 1))
  {
    TotalBounded(max, n.air, 0);
    FloodRun(n, ls, max);
    calc {
      Cost(max, 0);
      1 + (max - 1) * Cost(max, 1);
      { assert Cost(max, 1) == 1 + (max - 1) * Cost(max, 2) == 1 + (max - 1); }
      1 + (max - 1) * (1 + (max - 1));
      1 + (max - 1) + (max - 1) * (max - 1);
    }
  }
}
