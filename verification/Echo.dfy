/** When a relay can be offered its own local game as a remote one. */
module Echo {
  import opened Basics
  import opened RelayTypes
  import opened RelayModel
  import opened Tables
  import opened Routes

  // Which relay may take which other relay as a peer.
  type Topology = set<(PeerId, PeerId)>

  ghost predicate Mutual(t: Topology, p: PeerId, q: PeerId) {
    (p, q) in t && (q, p) in t
  }

  ghost predicate Triangle(t: Topology, p: PeerId, q: PeerId, r: PeerId) {
    Mutual(t, p, q) && Mutual(t, q, r) && Mutual(t, r, p)
  }

  /** The run only makes peers of relays that the topology allows. */
  ghost predicate Respects(t: Topology, ls: seq<Label>) {
    forall l :: l in ls && l.Loop? && l.event.AddPeer? ==> (l.relay, l.event.peer) in t
  }

  /** Some relay holds a remote entry whose root is one of its own local games. */
  ghost predicate Echoes(n: Net) {
    exists p, g, d, addr :: d > 0 && Leads(n.hist, p, g, d, Site(p, addr))
  }

  /** Split horizon: what `p` learns from `q`, `q` did not learn from `p`. */
  ghost predicate NotBack(h: History, p: PeerId, q: PeerId, id: GameId) {
    Key(q, id) in h && (h[Key(q, id)].origin.Via? ==> h[Key(q, id)].origin.peer != p)
  }

  ghost predicate PeersAllowed(t: Topology, n: Net) {
    forall p, q :: p in n.relays && q in n.relays[p].peers ==> (p, q) in t
  }

  ghost predicate EntriesAllowed(t: Topology, h: History) {
    forall k :: k in h && h[k].origin.Via? ==>
      Mutual(t, k.relay, h[k].origin.peer) && NotBack(h, k.relay, h[k].origin.peer, h[k].origin.id)
  }

  ghost predicate SendAllowed(t: Topology, h: History, k: Packet) {
    k.message.RelayGame? ==> (k.from, k.to) in t && NotBack(h, k.to, k.from, k.message.id)
  }

  ghost predicate Allowed(t: Topology, n: Net) {
    && PeersAllowed(t, n) && EntriesAllowed(t, n.hist)
    && (forall k :: k in n.sent ==> SendAllowed(t, n.hist, k))
  }

  lemma PeersStep(s: State, e: Event, env: Env)
    ensures forall q :: q in Handle(s, e, env).state.peers ==> q in s.peers || e == AddPeer(q)
  {
    var o := Handle(s, e, env).state;
    match e {
      case AddGameConnection(p, c, _, tx) => AddConnectionTouches(s, p, c, tx, env);
      case Recv(from, m) => if !m.RelayGame? { MessageTouches(s, from, m, env); }
      case _ =>
    }
  }

  lemma LocalSend(t: Topology, n: Net, l: Label, k: Packet)
    requires Enabled(n, l) && l.Loop? && l.event.AddLocalGame?
    requires k.from == l.relay && Sends(n, l, k)
    requires PeersAllowed(t, n) && Inv(n)
    ensures SendAllowed(t, Next(n, l).hist, k)
  {
    hide HandleLocalGame;
    TabledStep(n, l);
    LocalGameSends(n.relays[l.relay], l.event.from, l.event.port, l.event.motd, l.env);
  }

  lemma ForwardedSend(t: Topology, n: Net, l: Label, k: Packet)
    requires Enabled(n, l) && l.Loop? && l.event.Recv? && l.event.message.RelayGame?
    requires k.from == l.relay && Sends(n, l, k)
    requires PeersAllowed(t, n) && Inv(n)
    ensures SendAllowed(t, Next(n, l).hist, k)
  {
    hide HandleGame;
    TabledStep(n, l);
    var m := l.event.message;
    var id := GameSends(n.relays[l.relay], l.event.peer, m.id, m.motd, m.hops, l.env);
    assert Next(n, l).hist[Key(l.relay, id)].origin == Via(l.event.peer, m.id);
  }

  /** The packet `k` is one the step sends. */
  ghost predicate Sends(n: Net, l: Label, k: Packet)
    requires Enabled(n, l) && l.Loop?
  {
    var sends := Handle(n.relays[l.relay], l.event, l.env).sends;
    k.to in sends && sends[k.to] == k.message
  }

  lemma SendsStep(t: Topology, n: Net, l: Label, k: Packet)
    requires Inv(n) && Allowed(t, n) && Enabled(n, l) && l.Loop?
    requires k in Next(n, l).sent && k !in n.sent
    ensures SendAllowed(t, Next(n, l).hist, k)
  {
    NewPacket(n, l, k);
    if l.event.AddLocalGame? {
      LocalSend(t, n, l, k);
    } else if l.event.Recv? && l.event.message.RelayGame? {
      ForwardedSend(t, n, l, k);
    } else {
      OtherSends(n.relays[l.relay], l.event, l.env);
    }
  }

  lemma EntriesStep(t: Topology, n: Net, l: Label, k: Key)
    requires Inv(n) && Allowed(t, n) && Enabled(n, l) && l.Loop?
    requires k in Next(n, l).hist && k !in n.hist && Next(n, l).hist[k].origin.Via?
    ensures var o := Next(n, l).hist[k].origin;
            Mutual(t, k.relay, o.peer) && NotBack(n.hist, k.relay, o.peer, o.id)
  {
    var s := n.relays[l.relay];
    var s' := Handle(s, l.event, l.env).state;
    NewGamesStep(s, l.event, l.env);
    assert k in Keys(l.relay, s'.games);
    assert k.game !in s.games;
    var ad := Packet(l.event.peer, l.relay, l.event.message, l.cause);
    assert ad in n.sent && SendAllowed(t, n.hist, ad);
  }

  lemma AllowedStep(t: Topology, n: Net, l: Label)
    requires Inv(n) && Allowed(t, n) && Enabled(n, l) && Respects(t, [l])
    ensures Allowed(t, Next(n, l))
  {
    hide Handle, Inv;
    var n' := Next(n, l);
    InvStep(n, l);
    if l.Loop? {
      assert l in [l];
      PeersStep(n.relays[l.relay], l.event, l.env);
      forall k | k in n'.hist && n'.hist[k].origin.Via?
        ensures Mutual(t, k.relay, n'.hist[k].origin.peer)
             && NotBack(n'.hist, k.relay, n'.hist[k].origin.peer, n'.hist[k].origin.id)
      {
        if k !in n.hist { EntriesStep(t, n, l, k); }
      }
    }
    forall k | k in n'.sent ensures SendAllowed(t, n'.hist, k) {
      if k !in n.sent && l.Loop? { SendsStep(t, n, l, k); }
    }
  }

  lemma {:induction false} AllowedRun(t: Topology, n: Net, ls: seq<Label>)
    requires Inv(n) && Allowed(t, n) && Valid(n, ls) && Respects(t, ls)
    ensures Inv(Exec(n, ls)) && Allowed(t, Exec(n, ls))
    decreases |ls|
  {
    if ls != [] {
      assert ls[0] in ls && forall l :: l in ls[1..] ==> l in ls;
      AllowedStep(t, n, ls[0]);
      InvStep(n, ls[0]);
      AllowedRun(t, Next(n, ls[0]), ls[1..]);
    }
  }

  /** A chain of at most three allowed entries from `p` ends elsewhere, or closes a triangle at `p`. */
  lemma EchoClosesTriangle(t: Topology, h: History, p: PeerId, g: GameId, d: nat, site: Site)
    returns (q: PeerId, r: PeerId)
    requires EntriesAllowed(t, h) && Leads(h, p, g, d, site) && 0 < d <= 3 && site.relay == p
    ensures Triangle(t, p, q, r)
  {
    var a := h[Key(p, g)].origin;
    q, r := a.peer, a.peer;
    assert Mutual(t, p, q) && NotBack(h, p, q, a.id);
    assert Leads(h, q, a.id, d - 1, site);
    if d > 1 {
      var b := h[Key(q, a.id)].origin;
      r := b.peer;
      assert Mutual(t, q, r) && NotBack(h, q, r, b.id);
      assert Leads(h, r, b.id, d - 2, site);
      if d > 2 {
        var c := h[Key(r, b.id)].origin;
        assert Mutual(t, r, c.peer);
        assert Leads(h, c.peer, c.id, 0, site);
      }
    }
  }

  /** No echo: without three mutually peered relays, and without a relay that peers with itself, nothing echoes. */
  lemma NoEcho(t: Topology, n: Net, ls: seq<Label>)
    requires forall p, q, r :: !Triangle(t, p, q, r)
    requires Start(n) && Valid(n, ls) && Respects(t, ls)
    ensures !Echoes(Exec(n, ls))
  {
    InvStart(n);
    forall p | p in n.relays ensures n.relays[p].peers == map[] {
      assert n.relays[p] == Init(n.relays[p].discoveryPort);
    }
    AllowedRun(t, n, ls);
    var n' := Exec(n, ls);
    if Echoes(n') {
      var p, g, d, addr :| d > 0 && Leads(n'.hist, p, g, d, Site(p, addr));
      var root := n'.hist[Key(p, g)].cause.site;
      var e :| 0 <= e <= 3 && Leads(n'.hist, p, g, e, root);
      LeadsUnique(n'.hist, p, g, d, Site(p, addr), e, root);
      var q, r := EchoClosesTriangle(t, n'.hist, p, g, d, Site(p, addr));
    }
  }

  // ---------------------------------------------------------------- the condition is exact

  const CALM := Env({}, {}, None, {}, 0)

  /** A relay that is told of `rid` by peer `q` for the first time records it under its next id. */
  lemma Learns(s: State, q: PeerId, rid: GameId, hops: nat)
    requires q in s.peers && rid !in s.peers[q].games && s.nextKey !in s.games
    ensures var o := Handle(s, Recv(q, RelayGame(rid, [], hops)), CALM);
            && s.nextKey in o.state.games && OriginOf(o.state.games[s.nextKey]) == Via(q, rid)
            && (hops < 2 ==>
                  forall x :: x in s.peers && x != q ==>
                    x in o.sends && o.sends[x] == RelayGame(s.nextKey, [], hops + 1))
  {
    var (s1, id) := AddGame(s, q, rid, CALM);
    assert GamesOf(s1, (s1.peers.Keys - {q}) * s1.peers.Keys * {}) == {};
  }

  /** Some run that respects the topology ends in `n`. */
  ghost predicate Reachable(t: Topology, n: Net) {
    exists n0, ls :: Start(n0) && Valid(n0, ls) && Respects(t, ls) && Exec(n0, ls) == n
  }

  lemma ReachableNext(t: Topology, n: Net, l: Label)
    requires Reachable(t, n) && Enabled(n, l) && Respects(t, [l])
    ensures Reachable(t, Next(n, l))
  {
    var n0, ls :| Start(n0) && Valid(n0, ls) && Respects(t, ls) && Exec(n0, ls) == n;
    ExecAppend(n0, ls, l);
    assert l in [l];
    assert Respects(t, ls + [l]);
  }

  lemma AddPeerNext(n: Net, p: PeerId, q: PeerId)
    requires p in n.relays && n.relays[p].games == map[]
    ensures var l := Loop(p, AddPeer(q), CALM, NoCause);
            Enabled(n, l) &&
            Next(n, l) == n.(relays := n.relays[p := n.relays[p].(peers := n.relays[p].peers[q := NEW_PEER])])
  {
    assert Record(n.hist, p, map[], NoCause) == n.hist;
    assert Packets(p, map[], NoCause) == {};
  }

  lemma PeerUp(t: Topology, n: Net, p: PeerId, q: PeerId) returns (n': Net)
    requires Reachable(t, n) && (p, q) in t && p in n.relays && n.relays[p].games == map[]
    ensures Reachable(t, n')
    ensures n' == n.(relays := n.relays[p := n.relays[p].(peers := n.relays[p].peers[q := NEW_PEER])])
  {
    var l := Loop(p, AddPeer(q), CALM, NoCause);
    AddPeerNext(n, p, q);
    n' := Next(n, l);
    assert Respects(t, [l]);
    ReachableNext(t, n, l);
  }

  /** A relay without games advertises a local one to all its peers. */
  lemma Announce(t: Topology, n: Net, p: PeerId, addr: SocketAddr) returns (n': Net)
    requires Reachable(t, n) && p in n.relays && n.hist == map[]
    requires var s := n.relays[p]; s.games == map[] && s.localGames == map[] && s.ports == {} && s.nextKey == 0
    ensures Reachable(t, n')
    ensures Leads(n'.hist, p, 0, 0, Site(p, addr)) && (forall k :: k in n'.hist ==> k == Key(p, 0))
    ensures n'.relays.Keys == n.relays.Keys && forall q :: q in n.relays && q != p ==> n'.relays[q] == n.relays[q]
    ensures n'.relays[p].peers == n.relays[p].peers && n'.relays[p].nextKey == 1 && 1 !in n'.relays[p].games
    ensures forall q ::
              q in n.relays[p].peers ==> Packet(p, q, RelayGame(0, [], 0), Advert(Site(p, addr), [])) in n'.sent
  {
    var l := Loop(p, AddLocalGame(addr, addr.port, []), CALM, Advert(Site(p, addr), []));
    var s := n.relays[p];
    var s1 := InternLocal(s, addr).0;
    assert s1.peers.Keys * s1.peers.Keys * {} == {};
    RemoveNone(s1);
    var o := Handle(s, l.event, CALM);
    assert o.state == s1;
    assert Key(p, 0) in Keys(p, o.state.games);
    n' := Next(n, l);
    forall q | q in s.peers ensures Packet(p, q, RelayGame(0, [], 0), Advert(Site(p, addr), [])) in n'.sent {
      assert q in o.sends;
    }
    ReachableNext(t, n, l);
  }

  /** Relay `p` has not heard of anything from `from`, and its next id is unused. */
  ghost predicate Unaware(n: Net, p: PeerId, from: PeerId, rid: GameId) {
    && p in n.relays && from in n.relays[p].peers && rid !in n.relays[p].peers[from].games
    && n.relays[p].nextKey !in n.relays[p].games && Key(p, n.relays[p].nextKey) !in n.hist
  }

  /** Relay `p` learns of a game from `from`, one link deeper, and tells its other peers. */
  lemma Tour(t: Topology, n: Net, from: PeerId, p: PeerId, rid: GameId, hops: nat, site: Site) returns (n': Net)
    requires Reachable(t, n) && Unaware(n, p, from, rid)
    requires Packet(from, p, RelayGame(rid, [], hops), Advert(site, [])) in n.sent
    requires Leads(n.hist, from, rid, hops, site)
    ensures Reachable(t, n')
    ensures Leads(n'.hist, p, n.relays[p].nextKey, hops + 1, site)
    ensures n'.relays.Keys == n.relays.Keys && forall q :: q in n.relays && q != p ==> n'.relays[q] == n.relays[q]
    ensures forall k :: k in n'.hist && k.relay != p ==> k in n.hist
    ensures hops < 2 ==> forall q :: q in n.relays[p].peers && q != from ==>
              Packet(p, q, RelayGame(n.relays[p].nextKey, [], hops + 1), Advert(site, [])) in n'.sent
  {
    var l := Loop(p, Recv(from, RelayGame(rid, [], hops)), CALM, Advert(site, []));
    var id := n.relays[p].nextKey;
    n' := Next(n, l);
    Learns(n.relays[p], from, rid, hops);
    var o := Handle(n.relays[p], l.event, CALM);
    assert Key(p, id) in Keys(p, o.state.games);
    LeadsExtends(n.hist, n'.hist, from, rid, hops, site);
    StepUp(n'.hist, p, id, from, rid, hops, site);
    if hops < 2 {
      forall q | q in n.relays[p].peers && q != from
        ensures Packet(p, q, RelayGame(id, [], hops + 1), Advert(site, [])) in n'.sent
      {
        assert q in o.sends;
      }
    }
    ReachableNext(t, n, l);
  }

  lemma Begin(t: Topology, relays: map<PeerId, State>) returns (n: Net)
    requires forall p :: p in relays ==> relays[p] == Init(0)
    ensures Reachable(t, n) && n == Net(relays, {}, map[], {})
  {
    n := Net(relays, {}, map[], {});
    assert Valid(n, []) && Exec(n, []) == n && Respects(t, []);
  }

  /** A new relay takes two peers. */
  lemma TwoPeersUp(t: Topology, n: Net, p: PeerId, q: PeerId, r: PeerId) returns (n': Net)
    requires Reachable(t, n) && (p, q) in t && (p, r) in t && p in n.relays && n.relays[p] == Init(0)
    ensures Reachable(t, n')
    ensures n' == n.(relays := n.relays[p := Init(0).(peers := map[q := NEW_PEER, r := NEW_PEER])])
  {
    n' := PeerUp(t, n, p, q);
    n' := PeerUp(t, n', p, r);
  }

  /** Three mutually peered relays, before the first advertisement. */
  lemma LinkUp(t: Topology, p: PeerId, q: PeerId, r: PeerId) returns (n: Net)
    requires Triangle(t, p, q, r) && p != q && q != r && r != p
    ensures Reachable(t, n) && n.relays.Keys == {p, q, r} && n.hist == map[]
    ensures n.relays[p] == Init(0).(peers := map[q := NEW_PEER, r := NEW_PEER])
    ensures n.relays[q] == Init(0).(peers := map[p := NEW_PEER, r := NEW_PEER])
    ensures n.relays[r] == Init(0).(peers := map[q := NEW_PEER, p := NEW_PEER])
  {
    n := Begin(t, map[p := Init(0), q := Init(0), r := Init(0)]);
    n := TwoPeersUp(t, n, p, q, r);
    n := TwoPeersUp(t, n, q, p, r);
    n := TwoPeersUp(t, n, r, q, p);
  }

  /** Three mutually peered relays: the game of `p` comes back to `p` through `q` and `r`. */
  lemma TriangleEchoes(t: Topology, p: PeerId, q: PeerId, r: PeerId) returns (n: Net)
    requires Triangle(t, p, q, r) && p != q && q != r && r != p
    ensures Reachable(t, n) && Echoes(n)
  {
    var site := Site(p, SocketAddr(1, 1));
    var n0 := LinkUp(t, p, q, r);
    var n1 := Announce(t, n0, p, site.addr);
    var n2 := Tour(t, n1, p, q, 0, 0, site);
    assert r in n1.relays[q].peers && p in n2.relays[r].peers;
    var n3 := Tour(t, n2, q, r, 0, 1, site);
    assert Key(p, 1) !in n3.hist;
    n := Tour(t, n3, r, p, 0, 2, site);
    assert Leads(n.hist, p, 1, 3, Site(p, site.addr));
  }

  /** A relay that peers with itself echoes at once. */
  lemma SelfEchoes(t: Topology, p: PeerId) returns (n: Net)
    requires (p, p) in t
    ensures Reachable(t, n) && Echoes(n)
  {
    var site := Site(p, SocketAddr(1, 1));
    var n0 := Begin(t, map[p := Init(0)]);
    var n1 := PeerUp(t, n0, p, p);
    var n2 := Announce(t, n1, p, site.addr);
    n := Tour(t, n2, p, p, 0, 0, site);
    assert Leads(n.hist, p, 1, 1, Site(p, site.addr));
  }

  /** The exact condition: a topology admits an echo if, and only if, it has a triangle or a self-loop. */
  lemma EchoExactly(t: Topology)
    ensures (exists p, q, r :: Triangle(t, p, q, r)) <==> (exists n :: Reachable(t, n) && Echoes(n))
  {
    if p, q, r :| Triangle(t, p, q, r) {
      if p == q || r == p {
        var n := SelfEchoes(t, p);
      } else if q == r {
        var n := SelfEchoes(t, q);
      } else {
        var n := TriangleEchoes(t, p, q, r);
      }
    }
    if n :| Reachable(t, n) && Echoes(n) {
      var n0, ls :| Start(n0) && Valid(n0, ls) && Respects(t, ls) && Exec(n0, ls) == n;
      if forall p, q, r :: !Triangle(t, p, q, r) { NoEcho(t, n0, ls); }
    }
  }
}
