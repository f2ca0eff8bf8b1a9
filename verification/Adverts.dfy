/** What a relay does with the advertisements that it hears, on the local network and from its peers. */
module Adverts {
  import opened Basics
  import opened Discovery
  import opened DiscoveryPacket
  import opened RelayTypes
  import opened RelayModel
  import opened Tables
  import opened Ports
  import opened Handlers

  // ---------------------------------------------------------------- remote games

  /** Every peer but the sender that takes it gets the advertisement, under this relay's id, one hop further on. */
  lemma ForwardExact(s: State, from: PeerId, rid: GameId, motd: Bytes, hops: nat, env: Env, q: PeerId)
    requires Indexed(s)
    ensures var o := HandleGame(s, from, rid, motd, hops, env);
            && (q in o.sends <==>
                  from in s.peers && hops < MAX_FORWARDING_HOPS && q in s.peers && q != from && q !in env.failing)
            && (q in o.sends ==>
                  from in o.state.peers && rid in o.state.peers[from].games
                  && o.sends[q] == RelayGame(o.state.peers[from].games[rid], motd, hops + 1))
  {
    IndexedAddGame(s, from, rid, env);
    if from in s.peers {
      var (s0, id) := InternRemote(s, from, rid);
      RenewPeers(s0, id, env);
    }
  }

  /** The listener recorded for game `rid` of peer `from`. */
  ghost function ListenerOf(s: State, from: PeerId, rid: GameId): Option<Listener> {
    var id := IdOf(s, from, rid);
    if id.Some? && Listens(s, id.value) then s.games[id.value].listener else None
  }

  ghost predicate Open(l: Option<Listener>, env: Env) {
    l.Some? && l.value.handle in env.openListeners
  }

  function PortSet(l: Option<Listener>): set<nat> {
    if l.Some? then {l.value.addr.port} else {}
  }

  /** The id of a game of a peer: the one it has, or else the next unused one. */
  ghost function KnownAs(s: State, from: PeerId, rid: GameId): GameId {
    if IdOf(s, from, rid).Some? then IdOf(s, from, rid).value else s.nextKey
  }

  /**
   The tables once game `rid` of peer `from` is known: an open listener stays, and otherwise the one that was
   bound, if any, and its port take the place of the old ones.
   */
  ghost function Learned(s: State, from: PeerId, rid: GameId, env: Env): State
    requires from in s.peers
  {
    var id, was := KnownAs(s, from, rid), ListenerOf(s, from, rid);
    s.(peers := s.peers[from := s.peers[from].(games := s.peers[from].games[rid := id])],
       nextKey := if IdOf(s, from, rid).Some? then s.nextKey else s.nextKey + 1,
       games := s.games[id := Remote(from, rid, if Open(was, env) then was else env.bind)],
       ports := if Open(was, env) then s.ports else s.ports - PortSet(was) + PortSet(env.bind))
  }

  lemma RenewedTo(s: State, id: GameId, env: Env)
    requires id in s.games && s.games[id].Remote?
    ensures var was := s.games[id].listener;
            RenewListener(s, id, env)
            == s.(games := s.games[id := s.games[id].(listener := if Open(was, env) then was else env.bind)],
                  ports := if Open(was, env) then s.ports else s.ports - PortSet(was) + PortSet(env.bind))
  {
    var g := s.games[id];
    assert s.games[id := g] == s.games;
    assert s.games[id := g.(listener := None)][id := g.(listener := env.bind)]
           == s.games[id := g.(listener := env.bind)];
    assert s.ports - {} + {} == s.ports;
  }

  /** One advertisement leaves exactly those tables. */
  lemma AddGameExact(s: State, from: PeerId, rid: GameId, env: Env)
    requires Indexed(s) && from in s.peers
    ensures AddGame(s, from, rid, env) == (Learned(s, from, rid, env), Some(KnownAs(s, from, rid)))
  {
    hide RenewListener;
    var peer := s.peers[from];
    var (s1, id) := InternRemote(s, from, rid);
    if rid in peer.games {
      assert Owns(s, from, rid);
      assert peer.games[rid := id] == peer.games;
      assert s.peers[from := peer] == s.peers;
    } else {
      assert id !in s.games;
    }
    RenewedTo(s1, id, env);
    assert s1.games[id := Remote(from, rid, s1.games[id].listener)] == s1.games;
    var now := Learned(s, from, rid, env).games[id];
    assert s1.games[id := now] == s.games[id := now];
  }

  /**
   After an advertisement from a present peer the relay has those tables, but for the peers that refused it; and
   offers to the local network, if the game has a listener then, a packet with its port and the given MOTD.
   */
  lemma GameExact(s: State, from: PeerId, rid: GameId, motd: Bytes, hops: nat, env: Env)
    requires Indexed(s)
    ensures var e := Recv(from, RelayGame(rid, motd, hops));
            var o, gone := Handle(s, e, env), Dropped(s, e, env);
            if from !in s.peers then o == Quiet(s)
            else
              && Bereft(Learned(s, from, rid, env), o.state, gone) && from !in gone && o.spawn == NoThread
              && o.delivered == None
  {
    hide Bereft, RemovePeers, Learned, Indexed;
    var e := Recv(from, RelayGame(rid, motd, hops));
    if from in s.peers {
      AddGameExact(s, from, rid, env);
      IndexedAddGame(s, from, rid, env);
      var s1, gone := Learned(s, from, rid, env), Dropped(s, e, env);
      RemoveExact(s1, gone);
      RemoveNone(s1);
      if hops < MAX_FORWARDING_HOPS {
        assert gone == (s1.peers.Keys - {from}) * s1.peers.Keys * env.failing;
      } else {
        assert gone == {};
      }
    }
  }

  /** After an advertisement, the recorded listener is the old one if that is open, and else the one just bound. */
  lemma ListenerExact(s: State, from: PeerId, rid: GameId, motd: Bytes, hops: nat, env: Env)
    requires Indexed(s) && from in s.peers
    ensures var t, was := HandleGame(s, from, rid, motd, hops, env).state, ListenerOf(s, from, rid);
            && IdOf(t, from, rid) == Some(KnownAs(s, from, rid)) && KnownAs(s, from, rid) in t.games
            && t.games[KnownAs(s, from, rid)] == Remote(from, rid, if Open(was, env) then was else env.bind)
  {
    hide HandleGame, Dropped, AddGame;
    var e := Recv(from, RelayGame(rid, motd, hops));
    var s1, gone, id := Learned(s, from, rid, env), Dropped(s, e, env), KnownAs(s, from, rid);
    AddGameExact(s, from, rid, env);
    IndexedAddGame(s, from, rid, env);
    GameExact(s, from, rid, motd, hops, env);
    assert IdOf(s1, from, rid) == Some(id);
    forall p, r | p in gone ensures IdOf(s1, p, r) != Some(id) {
      if IdOf(s1, p, r).Some? { assert Owns(s1, p, r); }
    }
  }

  /** What an advertisement offers: a packet with the port of the recorded listener, if there is one. */
  lemma GameAdvertised(s: State, from: PeerId, rid: GameId, motd: Bytes, hops: nat, env: Env)
    requires Indexed(s) && from in s.peers
    ensures var o := HandleGame(s, from, rid, motd, hops, env);
            var l := ListenerOf(o.state, from, rid);
            o.advertised == if l.Some? then Some(Packet(l.value.addr.port, motd)) else None
  {
    hide RemovePeers, AddGame, Indexed, KnownAs;
    ListenerExact(s, from, rid, motd, hops, env);
    AddGameExact(s, from, rid, env);
  }

  /** The packet that an event offers to the local network: one for each advertisement of a game with a listener. */
  lemma AdvertisedExact(s: State, e: Event, env: Env, x: Packet)
    requires Indexed(s)
    ensures var o := Handle(s, e, env);
            o.advertised == Some(x) <==>
              && e.Recv? && e.message.RelayGame? && e.peer in s.peers && x.motd == e.message.motd
              && var id := IdOf(o.state, e.peer, e.message.id);
                 id.Some? && Listens(o.state, id.value) && PortOf(o.state, id.value) == x.port
  {
    if e.Recv? && e.message.RelayGame? {
      hide Indexed;
      if e.peer in s.peers {
        hide HandleGame;
        GameAdvertised(s, e.peer, e.message.id, e.message.motd, e.message.hops, env);
      }
    }
  }

  /** The tables after an advertisement that no peer refused. */
  lemma GameState(s: State, from: PeerId, rid: GameId, motd: Bytes, hops: nat, env: Env)
    requires env.failing == {}
    ensures HandleGame(s, from, rid, motd, hops, env).state == AddGame(s, from, rid, env).0
  {
    var s1 := AddGame(s, from, rid, env).0;
    assert (s1.peers.Keys - {from}) * s1.peers.Keys * {} == {};
    RemoveNone(s1);
  }

  /** A known game is interned already. */
  lemma InternAgain(s: State, from: PeerId, rid: GameId)
    requires from in s.peers && rid in s.peers[from].games && s.peers[from].games[rid] in s.games
    ensures InternRemote(s, from, rid) == (s, s.peers[from].games[rid])
  {}

  /** The recorded listener of the game is open, or there is none and none can be bound. */
  ghost predicate NothingToDo(s: State, from: PeerId, rid: GameId, env: Env) {
    from in s.peers && rid in s.peers[from].games && s.peers[from].games[rid] in s.games ==>
      var g := s.games[s.peers[from].games[rid]];
      g.Remote? ==> if g.listener.Some? then g.listener.value.handle in env.openListeners else env.bind.None?
  }

  /** Hearing a remote game again, whenever its listener needs no renewal, changes no table. */
  lemma GameAgain(s: State, from: PeerId, rid: GameId, motd: Bytes, hops: nat, env: Env, later: Env)
    requires Indexed(s) && env.failing == {} && later.failing == {}
    requires NothingToDo(HandleGame(s, from, rid, motd, hops, env).state, from, rid, later)
    ensures var t := HandleGame(s, from, rid, motd, hops, env).state;
            HandleGame(t, from, rid, motd, hops, later).state == t
  {
    var t := AddGame(s, from, rid, env).0;
    GameState(s, from, rid, motd, hops, env);
    GameState(t, from, rid, motd, hops, later);
    if from in s.peers {
      IndexedAddGame(s, from, rid, env);
      var (s0, id) := InternRemote(s, from, rid);
      RenewPeers(s0, id, env);
      InternAgain(t, from, rid);
    }
  }

  // ---------------------------------------------------------------- local games

  /** The relay's own packets: from its discovery socket, for a port that one of its listeners has. */
  predicate FromItself(s: State, from: SocketAddr, port: nat) {
    from.port == s.discoveryPort && port in s.ports
  }

  /** The tables once the local game at `addr` is known. */
  function Noted(s: State, addr: SocketAddr): State {
    if addr in s.localGames then s
    else s.(games := s.games[s.nextKey := Local(addr)], localGames := s.localGames[addr := s.nextKey],
            nextKey := s.nextKey + 1)
  }

  /**
   Every hearing of a local game, the first or a repeated one, tells every peer that takes it, under the one id of
   the game's address and without a hop; only the relay's own packets are ignored.
   */
  lemma LocalExact(s: State, from: SocketAddr, port: nat, motd: Bytes, env: Env, q: PeerId)
    ensures var e, addr := AddLocalGame(from, port, motd), SocketAddr(from.ip, port);
            var o := Handle(s, e, env);
            && (FromItself(s, from, port) ==> o == Quiet(s))
            && (!FromItself(s, from, port) ==>
                  && Bereft(Noted(s, addr), o.state, Dropped(s, e, env)) && addr in o.state.localGames)
            && (q in o.sends <==> !FromItself(s, from, port) && q in s.peers && q !in env.failing)
            && (q in o.sends ==> o.sends[q] == RelayGame(o.state.localGames[addr], motd, 0))
            && o == Outcome(o.state, o.sends, NoThread, None, None)
  {
    hide Bereft;
    var e, s1 := AddLocalGame(from, port, motd), Noted(s, SocketAddr(from.ip, port));
    if !FromItself(s, from, port) {
      var gone := Dropped(s, e, env);
      assert gone == s1.peers.Keys * s1.peers.Keys * env.failing;
      RemoveExact(s1, gone);
    }
  }

  /** A local game keeps its id for ever. */
  lemma LocalStep(s: State, e: Event, env: Env, addr: SocketAddr)
    requires addr in s.localGames
    ensures var t := Handle(s, e, env).state; addr in t.localGames && t.localGames[addr] == s.localGames[addr]
  {
    if e.Recv? && e.message.RelayGame? && e.peer in s.peers {
      var (s1, id) := InternRemote(s, e.peer, e.message.id);
      if s1.games[id].Remote? { assert RenewListener(s1, id, env).localGames == s.localGames; }
    }
  }

  lemma {:induction false} LocalRun(s: State, inputs: seq<Input>, addr: SocketAddr)
    requires addr in s.localGames
    ensures var t := Run(s, inputs); addr in t.localGames && t.localGames[addr] == s.localGames[addr]
    decreases |inputs|
  {
    if inputs != [] {
      LocalStep(s, inputs[0].event, inputs[0].env, addr);
      LocalRun(Handle(s, inputs[0].event, inputs[0].env).state, inputs[1..], addr);
    }
  }

  /** Whatever happens in between, a game heard twice is told under the same id both times. */
  lemma HeardAgain(s: State, first: Event, env: Env, between: seq<Input>, again: Event, later: Env, p: PeerId,
                   q: PeerId)
    requires first.AddLocalGame? && again.AddLocalGame? && first.port == again.port && first.from.ip == again.from.ip
    requires p in Handle(s, first, env).sends
    ensures var o := Handle(s, first, env);
            var t := Run(o.state, between);
            var r := Handle(t, again, later);
            && (q in r.sends <==> !FromItself(t, again.from, again.port) && q in t.peers && q !in later.failing)
            && (q in r.sends ==> o.sends[p].RelayGame? && r.sends[q] == RelayGame(o.sends[p].id, again.motd, 0))
  {
    hide Handle, Bereft, FromItself;
    var addr := SocketAddr(first.from.ip, first.port);
    LocalExact(s, first.from, first.port, first.motd, env, p);
    var t := Run(Handle(s, first, env).state, between);
    LocalRun(Handle(s, first, env).state, between, addr);
    LocalExact(t, again.from, again.port, again.motd, later, q);
    if q in Handle(t, again, later).sends { LocalStep(t, again, later, addr); }
  }

  // ---------------------------------------------------------------- both

  /**
   What a relay offers to the local network comes back to it: the packet parses, and the relay ignores it. This is
   for every run that binds no recorded port.
   */
  lemma OwnPacketIgnored(port: nat, inputs: seq<Input>, i: Input, ip: nat, env: Env)
    requires FreshRun(Init(port), inputs + [i])
    requires Handle(Run(Init(port), inputs), i.event, i.env).advertised.Some?
    ensures var o := Handle(Run(Init(port), inputs), i.event, i.env);
            var x := o.advertised.value;
            && Handle(o.state, AddLocalGame(SocketAddr(ip, o.state.discoveryPort), x.port, x.motd), env)
            == Quiet(o.state)
            && (x.port <= 0xFFFF && ValidMotd(x.motd) ==>
                  ParseMap(Inserted(SplitElements(Encoding(x)).elements)) == Ok(x))
  {
    hide Handle, Encoding, SplitElements, Inserted, ParseMap, Decimal;
    var s := Run(Init(port), inputs);
    var o := Handle(s, i.event, i.env);
    var x := o.advertised.value;
    IndexedRun(Init(port), inputs);
    AdvertisedExact(s, i.event, i.env, x);
    RunAppend(Init(port), inputs, i);
    NoSelfFeedback(port, inputs + [i], IdOf(o.state, i.event.peer, i.event.message.id).value,
                   SocketAddr(ip, o.state.discoveryPort), x.motd, env);
    if x.port <= 0xFFFF && ValidMotd(x.motd) { PacketRoundTrip(x); }
  }
}
