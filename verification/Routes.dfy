/**
 Advertisement routes in a network of relays.

 A network run interleaves the event loops of any number of relays. A message that was sent once may be
 delivered late, never, out of order or several times, and peers join, leave and return at any moment:
 whatever holds here holds for the ordered links of the program too.
 */
module Routes {
  import opened Basics
  import opened RelayTypes
  import opened RelayModel
  import opened Tables
  import Discovery
  import GameConnection

  // A game server, as seen by the relay on its local network.
  datatype Site = Site(relay: PeerId, addr: SocketAddr)

  // Why a step happened: an advertisement heard on some local network, or a client accepted by some relay.
  datatype Cause = NoCause | Advert(site: Site, motd: Bytes) | Client(relay: PeerId, game: GameId)

  datatype Packet = Packet(from: PeerId, to: PeerId, message: RelayMessage, cause: Cause)

  datatype Key = Key(relay: PeerId, game: GameId)

  datatype Entry = Entry(origin: Origin, cause: Cause)

  type History = map<Key, Entry>

  datatype Connection = Connection(relay: PeerId, addr: SocketAddr, cause: Cause)

  /**
   `sent`, `hist` and `dials` only grow: all packets ever sent, every game entry ever created together
   with the cause that created it, and every connection ever opened to a game server.
   */
  datatype Net = Net(relays: map<PeerId, State>, sent: set<Packet>, hist: History, dials: set<Connection>)

  datatype Label =
    | Loop(relay: PeerId, event: Event, env: Env, cause: Cause)
    | Thread(relay: PeerId, peer: PeerId, message: RelayMessage)

  predicate Start(n: Net) {
    && (forall p :: p in n.relays ==> n.relays[p] == Init(n.relays[p].discoveryPort))
    && n.sent == {} && n.hist == map[] && n.dials == {}
  }

  /** What a game connection's thread may queue on a peer's link. */
  predicate ThreadMessage(m: RelayMessage) {
    (m.RelayData? && |m.data| <= GameConnection.BUFFER_SIZE) || m.RelayClose?
  }

  predicate Enabled(n: Net, l: Label) {
    && l.relay in n.relays
    && match l
       case Thread(_, _, m) => ThreadMessage(m)
       case Loop(p, e, _, cause) =>
         match e
         case Recv(from, m) => Packet(from, p, m, cause) in n.sent
         case AddLocalGame(from, port, motd) =>
           cause == Advert(Site(p, SocketAddr(from.ip, port)), motd) && |motd| <= Discovery.MAX_PACKET_SIZE
         case AcceptGameConnection(g) => cause == Client(p, g)
         case _ => cause == NoCause
  }

  function Packets(p: PeerId, sends: map<PeerId, RelayMessage>, cause: Cause): set<Packet> {
    set q | q in sends :: Packet(p, q, sends[q], cause)
  }

  function Keys(p: PeerId, games: map<GameId, Game>): set<Key> {
    set g | g in games :: Key(p, g)
  }

  function Record(h: History, p: PeerId, games: map<GameId, Game>, cause: Cause): History {
    (map k | k in Keys(p, games) :: Entry(OriginOf(games[k.game]), cause)) + h
  }

  function Next(n: Net, l: Label): Net
    requires Enabled(n, l)
  {
    match l
    case Thread(p, q, m) => n.(sent := n.sent + {Packet(p, q, m, NoCause)})
    case Loop(p, e, env, cause) =>
      var o := Handle(n.relays[p], e, env);
      Net(n.relays[p := o.state],
          n.sent + Packets(p, o.sends, cause),
          Record(n.hist, p, o.state.games, cause),
          n.dials + if o.spawn.Dial? then {Connection(p, o.spawn.addr, cause)} else {})
  }

  ghost predicate Valid(n: Net, ls: seq<Label>)
    decreases |ls|
  {
    ls == [] || (Enabled(n, ls[0]) && Valid(Next(n, ls[0]), ls[1..]))
  }

  ghost function Exec(n: Net, ls: seq<Label>): Net
    requires Valid(n, ls)
    decreases |ls|
  {
    if ls == [] then n else Exec(Next(n, ls[0]), ls[1..])
  }

  // ---------------------------------------------------------------- depth and root

  /** Following exactly `d` remote pointers from game `g` of relay `p` ends at `site`. */
  ghost predicate Leads(h: History, p: PeerId, g: GameId, d: nat, site: Site)
    decreases d
  {
    Key(p, g) in h &&
    match h[Key(p, g)].origin
    case At(addr) => d == 0 && site == Site(p, addr)
    case Via(q, r) => d > 0 && Leads(h, q, r, d - 1, site)
  }

  /** Following at most `k` remote pointers ends at `site`. */
  ghost predicate Within(h: History, p: PeerId, g: GameId, k: nat, site: Site) {
    exists d :: 0 <= d <= k && Leads(h, p, g, d, site)
  }

  ghost predicate Extends(h: History, h': History) {
    forall k :: k in h ==> k in h' && h'[k] == h[k]
  }

  lemma {:induction false} LeadsExtends(h: History, h': History, p: PeerId, g: GameId, d: nat, site: Site)
    requires Extends(h, h') && Leads(h, p, g, d, site)
    ensures Leads(h', p, g, d, site)
    decreases d
  {
    if d > 0 {
      var o := h[Key(p, g)].origin;
      LeadsExtends(h, h', o.peer, o.id, d - 1, site);
    }
  }

  lemma WithinExtends(h: History, h': History, p: PeerId, g: GameId, k: nat, site: Site)
    requires Extends(h, h') && Within(h, p, g, k, site)
    ensures Within(h', p, g, k, site)
  {
    var d :| 0 <= d <= k && Leads(h, p, g, d, site);
    LeadsExtends(h, h', p, g, d, site);
  }

  /** Depth and root are functions of the entry. */
  lemma {:induction false} LeadsUnique(h: History, p: PeerId, g: GameId, d: nat, site: Site, d': nat, site': Site)
    requires Leads(h, p, g, d, site) && Leads(h, p, g, d', site')
    ensures d == d' && site == site'
    decreases d
  {
    var o := h[Key(p, g)].origin;
    if o.Via? {
      LeadsUnique(h, o.peer, o.id, d - 1, site, d' - 1, site');
    }
  }

  /** Following `n` remote pointers from `a` arrives at `b`. */
  ghost predicate Follows(h: History, a: Key, n: nat, b: Key)
    decreases n
  {
    if n == 0 then a == b
    else a in h && h[a].origin.Via? && Follows(h, Key(h[a].origin.peer, h[a].origin.id), n - 1, b)
  }

  lemma {:induction false} FollowsLeads(h: History, a: Key, n: nat, b: Key, d: nat, site: Site)
    requires Follows(h, a, n, b) && Leads(h, a.relay, a.game, d, site)
    ensures n <= d && Leads(h, b.relay, b.game, d - n, site)
    decreases n
  {
    if n > 0 {
      FollowsLeads(h, Key(h[a].origin.peer, h[a].origin.id), n - 1, b, d - 1, site);
    }
  }

  /** A chain of remote pointers that ends at a site never returns to where it started. */
  lemma NoCycle(h: History, a: Key, n: nat, d: nat, site: Site)
    requires Follows(h, a, n, a) && Leads(h, a.relay, a.game, d, site)
    ensures n == 0
  {
    FollowsLeads(h, a, n, a, d, site);
    LeadsUnique(h, a.relay, a.game, d, site, d - n, site);
  }

  /** One more step of a run. */
  lemma {:induction false} ExecAppend(n: Net, ls: seq<Label>, l: Label)
    requires Valid(n, ls) && Enabled(Exec(n, ls), l)
    ensures Valid(n, ls + [l]) && Exec(n, ls + [l]) == Next(Exec(n, ls), l)
    decreases |ls|
  {
    if ls == [] {
      assert Valid(Next(n, l), []);
    } else {
      assert (ls + [l])[0] == ls[0] && (ls + [l])[1..] == ls[1..] + [l];
      ExecAppend(Next(n, ls[0]), ls[1..], l);
    }
  }

  // ---------------------------------------------------------------- the invariant

  ghost predicate Tabled(n: Net) {
    && (forall p :: p in n.relays ==> Indexed(n.relays[p]))
    && (forall p, g :: p in n.relays && g in n.relays[p].games ==>
          Key(p, g) in n.hist && n.hist[Key(p, g)].origin == OriginOf(n.relays[p].games[g]))
    && (forall k :: k in n.hist ==> k.relay in n.relays && k.game < n.relays[k.relay].nextKey)
  }

  /** Every entry leads to the site whose advertisement created it. */
  ghost predicate Rooted(h: History) {
    forall k :: k in h ==> h[k].cause.Advert? && Within(h, k.relay, k.game, MAX_FORWARDING_HOPS + 1, h[k].cause.site)
  }

  ghost predicate AdOk(h: History, k: Packet) {
    k.message.RelayGame? ==>
      && k.cause.Advert? && k.message.motd == k.cause.motd && k.message.hops <= MAX_FORWARDING_HOPS
      && Leads(h, k.from, k.message.id, k.message.hops, k.cause.site)
  }

  /** The site for which client cause `c` was accepted. */
  ghost predicate Wants(h: History, c: Cause, site: Site) {
    c.Client? && Key(c.relay, c.game) in h && h[Key(c.relay, c.game)].cause.Advert?
    && h[Key(c.relay, c.game)].cause.site == site
  }

  ghost predicate ConnectOk(h: History, k: Packet) {
    k.message.RelayConnect? ==>
      && k.message.hops <= MAX_FORWARDING_HOPS
      && exists site :: Wants(h, k.cause, site)
                     && Within(h, k.to, k.message.gameId, MAX_FORWARDING_HOPS - k.message.hops, site)
  }

  ghost predicate DialOk(h: History, c: Connection) {
    Wants(h, c.cause, Site(c.relay, c.addr))
  }

  ghost predicate SizeOk(m: RelayMessage) {
    match m
    case RelayGame(_, motd, _) => |motd| <= Discovery.MAX_PACKET_SIZE
    case RelayData(_, _, data) => |data| <= GameConnection.BUFFER_SIZE
    case _ => true
  }

  ghost predicate Inv(n: Net) {
    && Tabled(n)
    && Rooted(n.hist)
    && (forall k :: k in n.sent ==> AdOk(n.hist, k) && ConnectOk(n.hist, k) && SizeOk(k.message))
    && (forall c :: c in n.dials ==> DialOk(n.hist, c))
  }

  lemma OkExtends(h: History, h': History, k: Packet)
    requires Extends(h, h') && AdOk(h, k) && ConnectOk(h, k)
    ensures AdOk(h', k) && ConnectOk(h', k)
  {
    if k.message.RelayGame? {
      LeadsExtends(h, h', k.from, k.message.id, k.message.hops, k.cause.site);
    }
    if k.message.RelayConnect? {
      var site :| Wants(h, k.cause, site)
                  && Within(h, k.to, k.message.gameId, MAX_FORWARDING_HOPS - k.message.hops, site);
      WithinExtends(h, h', k.to, k.message.gameId, MAX_FORWARDING_HOPS - k.message.hops, site);
      assert Wants(h', k.cause, site);
    }
  }

  // ---------------------------------------------------------------- what one event adds

  /** Which games an event can create. */
  ghost predicate NewGames(s: State, e: Event, t: State) {
    forall g :: g in t.games && g !in s.games ==>
      match e
      case AddLocalGame(from, port, _) => t.games[g] == Local(SocketAddr(from.ip, port))
      case Recv(from, m) => m.RelayGame? && from in s.peers && OriginOf(t.games[g]) == Via(from, m.id)
      case _ => false
  }

  lemma TouchesNoNew(s: State, t: State)
    requires TouchesConnections(s, t)
    ensures forall g :: g in t.games ==> g in s.games
  {}

  lemma NewGamesStep(s: State, e: Event, env: Env)
    requires Indexed(s)
    ensures NewGames(s, e, Handle(s, e, env).state)
  {
    var t := Handle(s, e, env).state;
    match e {
      case AcceptGameConnection(g) =>
      case AddGameConnection(p, c, _, tx) => AddConnectionTouches(s, p, c, tx, env); TouchesNoNew(s, t);
      case Recv(from, m) =>
        if m.RelayGame? { IndexedAddGame(s, from, m.id, env); NewRemote(s, from, m.id, env); }
        else { MessageTouches(s, from, m, env); TouchesNoNew(s, t); }
      case _ =>
    }
  }

  lemma NewRemote(s: State, from: PeerId, rid: GameId, env: Env)
    requires Indexed(s)
    ensures var (t, _) := AddGame(s, from, rid, env);
            forall g :: g in t.games && g !in s.games ==> from in s.peers && OriginOf(t.games[g]) == Via(from, rid)
  {
    if from in s.peers && rid in s.peers[from].games { assert Owns(s, from, rid); }
  }

  /** An advertisement that is handled is forwarded, one hop on, under the id of the entry it refreshed. */
  lemma GameSends(s: State, from: PeerId, rid: GameId, motd: Bytes, hops: nat, env: Env) returns (id: GameId)
    requires Indexed(s)
    ensures var o := HandleGame(s, from, rid, motd, hops, env);
            && o.spawn == NoThread
            && (o.sends != map[] ==> hops < MAX_FORWARDING_HOPS && from in s.peers)
            && (from in s.peers ==>
                  && id in o.state.games && OriginOf(o.state.games[id]) == Via(from, rid)
                  && forall q ::
                       q in o.sends ==> q in s.peers && q != from && o.sends[q] == RelayGame(id, motd, hops + 1))
  {
    id := 0;
    IndexedAddGame(s, from, rid, env);
    if from in s.peers {
      var (s1, id') := AddGame(s, from, rid, env);
      id := id'.value;
      var gone := (s1.peers.Keys - {from}) * s1.peers.Keys * env.failing;
      GoneGames(s1, gone);
      var o := HandleGame(s, from, rid, motd, hops, env);
      assert id in o.state.games && OriginOf(o.state.games[id]) == Via(from, rid);
      assert forall q :: q in o.sends ==> q in s.peers && q != from && o.sends[q] == RelayGame(id, motd, hops + 1);
    }
  }

  lemma LocalGameSends(s: State, from: SocketAddr, port: nat, motd: Bytes, env: Env)
    requires Indexed(s)
    ensures var o := HandleLocalGame(s, from, port, motd, env);
            && o.spawn == NoThread
            && (o.sends != map[] ==>
                  exists id :: id in o.state.games && o.state.games[id] == Local(SocketAddr(from.ip, port))
                    && forall q :: q in o.sends ==> q in s.peers && o.sends[q] == RelayGame(id, motd, 0))
  {
    var addr := SocketAddr(from.ip, port);
    IndexedIntern(s, addr);
    var (s1, id) := InternLocal(s, addr);
    GoneGames(s1, s1.peers.Keys * s1.peers.Keys * env.failing);
    var o := HandleLocalGame(s, from, port, motd, env);
    if o.sends != map[] {
      assert id in o.state.games && o.state.games[id] == Local(addr);
    }
  }

  /** The other events: a Connect is sent or forwarded only towards the owner of a remote entry. */
  ghost predicate ConnectSent(s: State, e: Event, o: Outcome, q: PeerId)
    requires q in o.sends
  {
    match e
    case AcceptGameConnection(g) =>
      && g in s.games && s.games[g].Remote? && s.games[g].peer == q
      && o.sends[q].RelayConnect? && o.sends[q].gameId == s.games[g].remoteId && o.sends[q].hops == 0
    case AddGameConnection(_, _, _, _) => o.sends[q].RelayData? && o.sends[q].data == []
    case Recv(_, RelayConnect(g, _, hops)) =>
      && g in s.games && s.games[g].Remote? && s.games[g].peer == q && hops < MAX_FORWARDING_HOPS
      && o.sends[q].RelayConnect? && o.sends[q].gameId == s.games[g].remoteId && o.sends[q].hops == hops + 1
    case Recv(_, RelayData(_, _, data)) => o.sends[q].RelayData? && o.sends[q].data == data
    case _ => false
  }

  lemma OtherSends(s: State, e: Event, env: Env)
    requires !e.AddLocalGame? && !(e.Recv? && e.message.RelayGame?)
    ensures var o := Handle(s, e, env);
            && (forall q :: q in o.sends ==> ConnectSent(s, e, o, q))
            && (o.spawn.Dial? ==> e.Recv? && e.message.RelayConnect? && e.message.gameId in s.games
                                  && s.games[e.message.gameId] == Local(o.spawn.addr))
  {}

  // ---------------------------------------------------------------- preservation

  lemma TabledStep(n: Net, l: Label)
    requires Tabled(n) && Enabled(n, l) && l.Loop?
    ensures Tabled(Next(n, l)) && Extends(n.hist, Next(n, l).hist)
  {
    IndexedStep(n.relays[l.relay], l.event, l.env);
    var n' := Next(n, l);
    forall p, g | p in n'.relays && g in n'.relays[p].games
      ensures Key(p, g) in n'.hist && n'.hist[Key(p, g)].origin == OriginOf(n'.relays[p].games[g])
    {
      if p == l.relay { assert Key(p, g) in Keys(p, n'.relays[p].games); }
      if Key(p, g) in n.hist && p == l.relay { assert g < n.relays[p].nextKey; assert g in n.relays[p].games; }
    }
  }

  /** Where an entry of relay `p` leads, given what it points at. */
  lemma StepUp(h: History, p: PeerId, g: GameId, q: PeerId, r: GameId, d: nat, site: Site)
    requires Key(p, g) in h && h[Key(p, g)].origin == Via(q, r) && Leads(h, q, r, d, site)
    ensures Leads(h, p, g, d + 1, site)
  {}

  lemma StepDown(h: History, p: PeerId, g: GameId, q: PeerId, r: GameId, k: nat, site: Site)
    requires Key(p, g) in h && h[Key(p, g)].origin == Via(q, r) && Within(h, p, g, k, site)
    ensures k > 0 && Within(h, q, r, k - 1, site)
  {
    var d :| 0 <= d <= k && Leads(h, p, g, d, site);
    assert Leads(h, q, r, d - 1, site);
  }

  lemma RootedStep(n: Net, l: Label)
    requires Inv(n) && Enabled(n, l) && l.Loop?
    ensures Rooted(Next(n, l).hist)
  {
    TabledStep(n, l);
    var n' := Next(n, l);
    var s, t := n.relays[l.relay], n'.relays[l.relay];
    NewGamesStep(s, l.event, l.env);
    IndexedStep(s, l.event, l.env);
    forall k | k in n'.hist
      ensures n'.hist[k].cause.Advert?
           && Within(n'.hist, k.relay, k.game, MAX_FORWARDING_HOPS + 1, n'.hist[k].cause.site)
    {
      if k in n.hist {
        WithinExtends(n.hist, n'.hist, k.relay, k.game, MAX_FORWARDING_HOPS + 1, n.hist[k].cause.site);
      } else {
        assert k.relay == l.relay && k.game in t.games && k.game !in s.games;
        if l.event.AddLocalGame? {
          assert Leads(n'.hist, k.relay, k.game, 0, l.cause.site);
        } else {
          var m := l.event.message;
          var pk := Packet(l.event.peer, l.relay, m, l.cause);
          assert pk in n.sent && AdOk(n.hist, pk);
          LeadsExtends(n.hist, n'.hist, pk.from, m.id, m.hops, l.cause.site);
          StepUp(n'.hist, k.relay, k.game, pk.from, m.id, m.hops, l.cause.site);
        }
      }
    }
  }

  lemma NewPacket(n: Net, l: Label, k: Packet)
    requires Enabled(n, l) && l.Loop? && k in Next(n, l).sent && k !in n.sent
    ensures var o := Handle(n.relays[l.relay], l.event, l.env);
            k.to in o.sends && k == Packet(l.relay, k.to, o.sends[k.to], l.cause)
  {
    var o := Handle(n.relays[l.relay], l.event, l.env);
    assert k in Packets(l.relay, o.sends, l.cause);
  }

  lemma LocalAdsStep(n: Net, l: Label, k: Packet)
    requires Tabled(n) && Enabled(n, l) && l.Loop? && l.event.AddLocalGame?
    requires k in Next(n, l).sent && k !in n.sent
    ensures AdOk(Next(n, l).hist, k) && k.message.RelayGame? && SizeOk(k.message)
  {
    hide HandleLocalGame;
    TabledStep(n, l);
    NewPacket(n, l, k);
    LocalGameSends(n.relays[l.relay], l.event.from, l.event.port, l.event.motd, l.env);
    assert k.message.id in Next(n, l).relays[l.relay].games;
    assert Leads(Next(n, l).hist, l.relay, k.message.id, 0, l.cause.site);
  }

  /** The ad forwarded for a refreshed entry carries the depth of that entry. */
  lemma ForwardedDepth(h: History, h': History, p: PeerId, s: State, ad: Packet, id: GameId)
    requires Extends(h, h') && AdOk(h, ad) && ad.message.RelayGame?
    requires id in s.games && OriginOf(s.games[id]) == Via(ad.from, ad.message.id)
    requires Key(p, id) in h' && h'[Key(p, id)].origin == OriginOf(s.games[id])
    ensures Leads(h', p, id, ad.message.hops + 1, ad.cause.site)
  {
    LeadsExtends(h, h', ad.from, ad.message.id, ad.message.hops, ad.cause.site);
    StepUp(h', p, id, ad.from, ad.message.id, ad.message.hops, ad.cause.site);
  }

  lemma RemoteAdsStep(n: Net, l: Label, k: Packet)
    requires Tabled(n) && Enabled(n, l) && l.Loop? && l.event.Recv? && l.event.message.RelayGame?
    requires AdOk(n.hist, Packet(l.event.peer, l.relay, l.event.message, l.cause)) && SizeOk(l.event.message)
    requires k in Next(n, l).sent && k !in n.sent
    ensures AdOk(Next(n, l).hist, k) && k.message.RelayGame? && SizeOk(k.message)
  {
    hide HandleGame;
    var s, m, from := n.relays[l.relay], l.event.message, l.event.peer;
    var o := Handle(s, l.event, l.env);
    NewPacket(n, l, k);
    var id := GameSends(s, from, m.id, m.motd, m.hops, l.env);
    TabledStep(n, l);
    ForwardedDepth(n.hist, Next(n, l).hist, l.relay, o.state, Packet(from, l.relay, m, l.cause), id);
  }

  lemma ConnectsStep(n: Net, l: Label, k: Packet)
    requires Inv(n) && Enabled(n, l) && l.Loop?
    requires !l.event.AddLocalGame? && !(l.event.Recv? && l.event.message.RelayGame?)
    requires k in Next(n, l).sent && k !in n.sent
    ensures ConnectOk(n.hist, k) && !k.message.RelayGame? && SizeOk(k.message)
  {
    var s := n.relays[l.relay];
    NewPacket(n, l, k);
    OtherSends(s, l.event, l.env);
    if k.message.RelayConnect? {
      if l.event.AcceptGameConnection? {
        var g := l.event.gameId;
        var site := n.hist[Key(l.relay, g)].cause.site;
        assert Wants(n.hist, l.cause, site);
        StepDown(n.hist, l.relay, g, k.to, k.message.gameId, MAX_FORWARDING_HOPS + 1, site);
      } else {
        var m := l.event.message;
        var pk := Packet(l.event.peer, l.relay, m, l.cause);
        assert pk in n.sent && ConnectOk(n.hist, pk);
        var site :| Wants(n.hist, l.cause, site)
                    && Within(n.hist, l.relay, m.gameId, MAX_FORWARDING_HOPS - m.hops, site);
        StepDown(n.hist, l.relay, m.gameId, k.to, k.message.gameId, MAX_FORWARDING_HOPS - m.hops, site);
      }
    } else {
      if l.event.Recv? {
        var pk := Packet(l.event.peer, l.relay, l.event.message, l.cause);
        assert pk in n.sent && SizeOk(pk.message);
      }
    }
  }

  lemma DialsStep(n: Net, l: Label, c: Connection)
    requires Inv(n) && Enabled(n, l) && l.Loop?
    requires c in Next(n, l).dials && c !in n.dials
    ensures DialOk(n.hist, c)
  {
    var s := n.relays[l.relay];
    if l.event.AddLocalGame? {
      LocalGameSends(s, l.event.from, l.event.port, l.event.motd, l.env);
      assert false;
    } else if l.event.Recv? && l.event.message.RelayGame? {
      var _ := GameSends(s, l.event.peer, l.event.message.id, l.event.message.motd, l.event.message.hops, l.env);
      assert false;
    } else {
      OtherSends(s, l.event, l.env);
      var m := l.event.message;
      var pk := Packet(l.event.peer, l.relay, m, l.cause);
      assert pk in n.sent && ConnectOk(n.hist, pk);
      var site :| Wants(n.hist, l.cause, site)
                  && Within(n.hist, l.relay, m.gameId, MAX_FORWARDING_HOPS - m.hops, site);
    }
  }

  lemma PacketStep(n: Net, l: Label, k: Packet)
    requires Inv(n) && Enabled(n, l) && l.Loop? && k in Next(n, l).sent && k !in n.sent
    ensures AdOk(Next(n, l).hist, k) && ConnectOk(Next(n, l).hist, k) && SizeOk(k.message)
  {
    hide Handle, Rooted, Leads, Within;
    if l.event.AddLocalGame? {
      LocalAdsStep(n, l, k);
    } else if l.event.Recv? && l.event.message.RelayGame? {
      var ad := Packet(l.event.peer, l.relay, l.event.message, l.cause);
      assert ad in n.sent;
      RemoteAdsStep(n, l, k);
    } else {
      ConnectsStep(n, l, k);
      TabledStep(n, l);
      OkExtends(n.hist, Next(n, l).hist, k);
    }
  }

  lemma LoopStep(n: Net, l: Label)
    requires Inv(n) && Enabled(n, l) && l.Loop?
    ensures Inv(Next(n, l)) && Extends(n.hist, Next(n, l).hist)
  {
    hide Next, Rooted, Tabled, AdOk, ConnectOk, DialOk, SizeOk;
    var n' := Next(n, l);
    TabledStep(n, l);
    RootedStep(n, l);
    forall k | k in n'.sent ensures AdOk(n'.hist, k) && ConnectOk(n'.hist, k) && SizeOk(k.message) {
      if k in n.sent { OkExtends(n.hist, n'.hist, k); } else { PacketStep(n, l, k); }
    }
    forall c | c in n'.dials ensures DialOk(n'.hist, c) {
      if c in n.dials { DialExtends(n.hist, n'.hist, c); } else { DialsStep(n, l, c); DialExtends(n.hist, n'.hist, c); }
    }
  }

  lemma DialExtends(h: History, h': History, c: Connection)
    requires Extends(h, h') && DialOk(h, c)
    ensures DialOk(h', c)
  {}

  lemma InvStep(n: Net, l: Label)
    requires Inv(n) && Enabled(n, l)
    ensures Inv(Next(n, l)) && Extends(n.hist, Next(n, l).hist)
  {
    if l.Loop? { LoopStep(n, l); }
  }

  lemma {:induction false} InvRun(n: Net, ls: seq<Label>)
    requires Inv(n) && Valid(n, ls)
    ensures Inv(Exec(n, ls)) && Extends(n.hist, Exec(n, ls).hist)
    decreases |ls|
  {
    if ls != [] {
      InvStep(n, ls[0]);
      InvRun(Next(n, ls[0]), ls[1..]);
    }
  }

  lemma InvStart(n: Net)
    requires Start(n)
    ensures Inv(n)
  {
    forall p | p in n.relays ensures Indexed(n.relays[p]) && n.relays[p].games == map[] {
      assert n.relays[p] == Init(n.relays[p].discoveryPort);
    }
  }

  // ---------------------------------------------------------------- the theorems

  /** An advertisement carries the depth of its entry at the sender, and the MOTD it was first heard with. */
  lemma AdCarriesDepth(n: Net, ls: seq<Label>, k: Packet)
    requires Start(n) && Valid(n, ls) && k in Exec(n, ls).sent && k.message.RelayGame?
    ensures k.cause.Advert? && k.message.motd == k.cause.motd && k.message.hops <= MAX_FORWARDING_HOPS
    ensures Leads(Exec(n, ls).hist, k.from, k.message.id, k.message.hops, k.cause.site)
  {
    InvStart(n);
    InvRun(n, ls);
    assert AdOk(Exec(n, ls).hist, k);
  }

  /** The step hears the advertisement `c` on the local network of a relay. */
  ghost predicate Hears(l: Label, c: Cause) {
    && l.Loop? && l.event.AddLocalGame? && l.cause == c
    && c == Advert(Site(l.relay, SocketAddr(l.event.from.ip, l.event.port)), l.event.motd)
  }

  ghost predicate Advertised(n: Net, c: Cause) {
    exists k :: k in n.sent && k.message.RelayGame? && k.cause == c
  }

  lemma HeardStep(n: Net, l: Label, k: Packet)
    requires Inv(n) && Enabled(n, l) && k in Next(n, l).sent && k.message.RelayGame?
    ensures Advertised(n, k.cause) || Hears(l, k.cause)
  {
    hide Handle;
    if k !in n.sent && l.Loop? {
      NewPacket(n, l, k);
      if l.event.Recv? && l.event.message.RelayGame? {
        assert Packet(l.event.peer, l.relay, l.event.message, l.cause) in n.sent;
      } else if !l.event.AddLocalGame? {
        ConnectsStep(n, l, k);
      }
    }
  }

  lemma {:induction false} HeardRun(n: Net, ls: seq<Label>, k: Packet)
    requires Inv(n) && Valid(n, ls) && k in Exec(n, ls).sent && k.message.RelayGame?
    ensures Advertised(n, k.cause) || exists l :: l in ls && Hears(l, k.cause)
    decreases |ls|
  {
    if ls != [] {
      assert ls[0] in ls;
      InvStep(n, ls[0]);
      HeardRun(Next(n, ls[0]), ls[1..], k);
      if Advertised(Next(n, ls[0]), k.cause) {
        var x :| x in Next(n, ls[0]).sent && x.message.RelayGame? && x.cause == k.cause;
        HeardStep(n, ls[0], x);
      } else {
        var l :| l in ls[1..] && Hears(l, k.cause);
        assert l in ls;
      }
    }
  }

  /**
   Every advertisement in the network was heard, with that very MOTD, on the local network of the relay it leads
   to.
   */
  lemma AdvertHeard(n: Net, ls: seq<Label>, k: Packet)
    requires Start(n) && Valid(n, ls) && k in Exec(n, ls).sent && k.message.RelayGame?
    ensures exists l, addr :: l in ls && Hears(l, Advert(Site(l.relay, addr), k.message.motd))
                       && Leads(Exec(n, ls).hist, k.from, k.message.id, k.message.hops, Site(l.relay, addr))
  {
    InvStart(n);
    HeardRun(n, ls, k);
    AdCarriesDepth(n, ls, k);
    var l :| l in ls && Hears(l, k.cause);
    assert k.cause == Advert(Site(l.relay, k.cause.site.addr), k.message.motd);
  }

  /** A Connect has hops left for the rest of its route: its hops and the depth of its game sum to at most two. */
  lemma HopBudget(n: Net, ls: seq<Label>, k: Packet)
    requires Start(n) && Valid(n, ls) && k in Exec(n, ls).sent && k.message.RelayConnect?
    ensures exists d, site :: Leads(Exec(n, ls).hist, k.to, k.message.gameId, d, site)
                              && k.message.hops + d <= MAX_FORWARDING_HOPS
  {
    InvStart(n);
    InvRun(n, ls);
    assert ConnectOk(Exec(n, ls).hist, k);
  }

  /** Remote pointers form chains of at most three links, without cycles. */
  lemma ChainsBounded(n: Net, ls: seq<Label>, k: Key)
    requires Start(n) && Valid(n, ls) && k in Exec(n, ls).hist
    ensures exists d, site :: Leads(Exec(n, ls).hist, k.relay, k.game, d, site) && d <= 3
    ensures forall i: nat :: Follows(Exec(n, ls).hist, k, i, k) ==> i == 0
  {
    InvStart(n);
    InvRun(n, ls);
    var h := Exec(n, ls).hist;
    var d :| 0 <= d <= 3 && Leads(h, k.relay, k.game, d, h[k].cause.site);
    forall i: nat | Follows(h, k, i, k) ensures i == 0 {
      NoCycle(h, k, i, d, h[k].cause.site);
    }
  }

  /** The hop check of `forward_connect` never rejects a Connect that a relay of this network sent. */
  lemma HopCheckNeverRejects(n: Net, ls: seq<Label>, k: Packet)
    requires Start(n) && Valid(n, ls)
    requires k in Exec(n, ls).sent && k.message.RelayConnect? && k.to in Exec(n, ls).relays
    requires k.message.gameId in Exec(n, ls).relays[k.to].games
    requires Exec(n, ls).relays[k.to].games[k.message.gameId].Remote?
    ensures k.message.hops < MAX_FORWARDING_HOPS
  {
    InvStart(n);
    InvRun(n, ls);
    var h := Exec(n, ls).hist;
    assert ConnectOk(h, k);
    var site :| Wants(h, k.cause, site)
                && Within(h, k.to, k.message.gameId, MAX_FORWARDING_HOPS - k.message.hops, site);
    var d :| 0 <= d <= MAX_FORWARDING_HOPS - k.message.hops && Leads(h, k.to, k.message.gameId, d, site);
  }

  /**
   Route correctness: a client accepted for entry (p, g) is only ever connected, by whichever relay dials,
   to the one game server whose advertisement created that entry.
   */
  lemma RouteCorrectness(n: Net, ls: seq<Label>, c: Connection)
    requires Start(n) && Valid(n, ls) && c in Exec(n, ls).dials
    ensures var h := Exec(n, ls).hist;
            && c.cause.Client? && Key(c.cause.relay, c.cause.game) in h
            && h[Key(c.cause.relay, c.cause.game)].cause.Advert?
            && h[Key(c.cause.relay, c.cause.game)].cause.site == Site(c.relay, c.addr)
            && exists d :: 0 <= d <= 3 && Leads(h, c.cause.relay, c.cause.game, d, Site(c.relay, c.addr))
  {
    InvStart(n);
    InvRun(n, ls);
    assert DialOk(Exec(n, ls).hist, c);
  }
}
