/** The relay as the program runs it: tables updated in place by one event loop. */
module Relays {
  import opened Basics
  import opened DiscoveryPacket
  import opened RelayTypes
  import opened RelayModel
  import opened Tables

  /** A map that hands out ascending keys. */
  class IdMap<V> {
    var entries: map<GameId, V>
    var nextKey: nat

    constructor ()
      ensures entries == map[] && nextKey == 0
    {
      entries, nextKey := map[], 0;
    }

    method Add(value: V) returns (key: GameId)
      modifies this
      ensures key == old(nextKey) && nextKey == old(nextKey) + 1 && entries == old(entries)[key := value]
    {
      key := NextId();
      entries := entries[key := value];
    }

    method NextId() returns (key: GameId)
      modifies this`nextKey
      ensures key == old(nextKey) && nextKey == old(nextKey) + 1
    {
      key := nextKey;
      nextKey := nextKey + 1;
    }
  }

  /** The listener ports of a list of games. */
  function PortsIn(games: seq<Game>): set<nat> {
    set g | g in games && g.Remote? && g.listener.Some? :: g.listener.value.addr.port
  }

  /** The ids that the given remote ids map to. */
  function GamesUnder(games: map<GameId, GameId>, keys: set<GameId>): set<GameId> {
    set r | r in keys && r in games :: games[r]
  }

  lemma GamesOfOne(s: State, p: PeerId)
    ensures GamesOf(s, {p}) == if p in s.peers then GamesUnder(s.peers[p].games, s.peers[p].games.Keys) else {}
  {
    if p in s.peers {
      forall g | g in GamesUnder(s.peers[p].games, s.peers[p].games.Keys) ensures g in GamesOf(s, {p}) {
        var r :| r in s.peers[p].games && g == s.peers[p].games[r];
      }
    }
  }

  lemma PortsUnion(s: State, a: set<GameId>, b: set<GameId>)
    ensures PortsOf(s, a + b) == PortsOf(s, a) + PortsOf(s, b)
  {}

  lemma PortsAfter(s: State, a: set<GameId>, b: set<GameId>, t: State)
    requires t.games == s.games - a
    ensures PortsOf(s, a) + PortsOf(t, b) == PortsOf(s, a) + PortsOf(s, b)
  {
    forall x | x in PortsOf(s, b) ensures x in PortsOf(s, a) + PortsOf(t, b) {
      var g :| g in b && g in s.games && s.games[g].Remote? && s.games[g].listener.Some?
               && s.games[g].listener.value.addr.port == x;
      assert g in a || (g in t.games && t.games[g] == s.games[g]);
    }
  }

  /** Removing peers one after the other removes them all. */
  lemma RemoveOneMore(s: State, gone: set<PeerId>, p: PeerId)
    ensures RemovePeers(RemovePeers(s, gone), {p}) == RemovePeers(s, gone + {p})
  {
    var t, a := RemovePeers(s, gone), GamesOf(s, gone);
    var b := GamesOf(t, {p});
    GamesOfOne(s, p);
    GamesOfOne(t, p);
    assert GamesOf(s, gone + {p}) == a + GamesOf(s, {p});
    assert a + GamesOf(s, {p}) == a + b by {
      if p in gone { assert GamesOf(s, {p}) <= a; }
    }
    PortsUnion(s, a, b);
    PortsAfter(s, a, b, t);
    assert t.games - b == s.games - (a + b);
    assert t.peers - {p} == s.peers - (gone + {p});
    assert (s.ports - PortsOf(s, a)) - PortsOf(t, b) == s.ports - (PortsOf(s, a) + PortsOf(t, b));
  }

  /** `removed` lists exactly the games of `all` under the given ids. */
  ghost predicate Taken(all: map<GameId, Game>, ids: set<GameId>, removed: seq<Game>) {
    && (forall g :: g in ids && g in all ==> all[g] in removed)
    && (forall x :: x in removed ==> exists g :: g in ids && g in all && all[g] == x)
  }

  lemma TakenPorts(s: State, ids: set<GameId>, removed: seq<Game>)
    requires Taken(s.games, ids, removed)
    ensures PortsIn(removed) == PortsOf(s, ids)
  {}

  class Relay {
    var peers: map<PeerId, Peer>
    const games: IdMap<Game>
    var localGames: map<SocketAddr, GameId>
    var listenPorts: set<nat>
    const discoveryPort: nat

    ghost function View(): State
      reads this, games
    {
      State(peers, games.entries, games.nextKey, localGames, listenPorts, discoveryPort)
    }

    constructor (port: nat)
      ensures View() == Init(port) && fresh(games)
    {
      discoveryPort := port;
      peers, localGames, listenPorts := map[], map[], {};
      games := new IdMap<Game>();
    }

    /** The event loop, over the messages that its channel yields before it is closed. */
    method RunLoop(inputs: seq<Input>)
      modifies this, games
      ensures View() == Run(old(View()), inputs)
      ensures Indexed(old(View())) ==> Indexed(View()) && KeepsIds(old(View()), View())
    {
      ghost var s := View();
      for i := 0 to |inputs|
        invariant Run(View(), inputs[i..]) == Run(s, inputs)
      {
        assert inputs[i..][0] == inputs[i] && inputs[i..][1..] == inputs[i + 1..];
        var sends, spawn, advertised, delivered := Handle(inputs[i].event, inputs[i].env);
      }
      if Indexed(s) { IndexedRun(s, inputs); }
    }

    /** One round of the event loop. */
    method Handle(e: Event, env: Env)
      returns (sends: map<PeerId, RelayMessage>, spawn: Spawn, advertised: Option<Packet>, delivered: Option<Delivery>)
      modifies this, games
      ensures Outcome(View(), sends, spawn, advertised, delivered) == RelayModel.Handle(old(View()), e, env)
    {
      sends, spawn, advertised, delivered := map[], NoThread, None, None;
      match e {
        case AcceptGameConnection(g) => sends, spawn := AcceptGameConnection(g, env);
        case AddGameConnection(p, c, _, tx) => sends := AddGameConnection(p, c, tx, env);
        case AddPeer(p) => peers := peers[p := NEW_PEER];
        case AddLocalGame(from, port, motd) => sends := AddLocalGame(from, port, motd, env);
        case RemoveGameListener(g) => RemoveGameListener(g, env);
        case RemovePeer(p) => RemovePeer(p);
        case Recv(p, m) =>
          match m {
            case NoInner =>
            case RelayGame(id, motd, hops) => sends, advertised := HandleGame(p, id, motd, hops, env);
            case RelayConnect(g, c, hops) => sends, spawn := HandleConnect(p, g, c, hops, env);
            case RelayData(c, local, data) => sends, delivered := HandleData(p, ConnectionId(c, local), data, env);
            case RelayClose(c, local) => HandleCloseConnection(p, ConnectionId(c, local));
          }
      }
    }

    method AcceptGameConnection(g: GameId, env: Env) returns (sends: map<PeerId, RelayMessage>, spawn: Spawn)
      modifies this, games
      ensures Outcome(View(), sends, spawn, None, None) == HandleAccept(old(View()), g, env)
    {
      sends, spawn := map[], NoThread;
      if g !in games.entries || !games.entries[g].Remote? { return; }
      var game := games.entries[g];
      if game.peer !in peers { return; }
      var peer := peers[game.peer];
      var c := peer.next;
      peers := peers[game.peer := peer.(next := Bump(c), locals := peer.locals[c := env.newHandle])];
      if game.peer in env.failing { return; }
      sends := map[game.peer := RelayConnect(game.remoteId, c.id, 0)];
      spawn := Serve(game.peer, c);
    }

    method AddGameConnection(from: PeerId, c: ConnectionId, tx: Tx, env: Env) returns (sends: map<PeerId, RelayMessage>)
      modifies this, games
      ensures Outcome(View(), sends, NoThread, None, None) == HandleAddGameConnection(old(View()), from, c, tx, env)
    {
      sends := map[];
      if from !in peers { return; }
      peers := peers[from := peers[from].(locals := peers[from].locals[c := tx])];
      if from in env.failing {
        RemovePeer(from);
      } else {
        sends := map[from := RelayData(c.id, c.local, [])];
      }
    }

    method AddLocalGame(from: SocketAddr, port: nat, motd: Bytes, env: Env) returns (sends: map<PeerId, RelayMessage>)
      modifies this, games
      ensures Outcome(View(), sends, NoThread, None, None) == HandleLocalGame(old(View()), from, port, motd, env)
    {
      sends := map[];
      var addr := SocketAddr(from.ip, port);
      if from.port == discoveryPort && port in listenPorts { return; }
      if addr !in localGames {
        var id := games.Add(Local(addr));
        localGames := localGames[addr := id];
      }
      sends := SendGame(peers.Keys, localGames[addr], motd, 0, env);
    }

    /** Sends an advertisement to each peer in `to`, and drops the peers that refuse it. */
    method SendGame(to: set<PeerId>, id: GameId, motd: Bytes, hops: nat, env: Env)
      returns (sends: map<PeerId, RelayMessage>)
      modifies this, games
      ensures Outcome(View(), sends, NoThread, None, None) == Advertise(old(View()), to, id, motd, hops, env)
    {
      var errors;
      sends, errors := OfferGame(to, id, motd, hops, env);
      RemoveAll(errors);
      assert (set p | p in errors) == to * old(peers.Keys) * env.failing;
    }

    /** Queues an advertisement for each peer in `to`, and returns the peers that refuse it. */
    method OfferGame(to: set<PeerId>, id: GameId, motd: Bytes, hops: nat, env: Env)
      returns (sends: map<PeerId, RelayMessage>, errors: seq<PeerId>)
      ensures sends == map p | p in peers && p in to && p !in env.failing :: RelayGame(id, motd, hops)
      ensures forall p :: p in errors <==> p in peers && p in to && p in env.failing
    {
      sends, errors := map[], [];
      var todo := peers.Keys;
      while todo != {}
        invariant todo <= peers.Keys
        invariant forall p :: p in sends <==> p in peers.Keys - todo && p in to && p !in env.failing
        invariant forall p :: p in sends ==> sends[p] == RelayGame(id, motd, hops)
        invariant forall p :: p in errors <==> p in peers.Keys - todo && p in to && p in env.failing
        decreases |todo|
      {
        var p :| p in todo;
        if p in to {
          if p in env.failing { errors := errors + [p]; } else { sends := sends[p := RelayGame(id, motd, hops)]; }
        }
        todo := todo - {p};
      }
    }

    method RemoveAll(errors: seq<PeerId>)
      modifies this, games
      ensures View() == RemovePeers(old(View()), set p | p in errors)
    {
      ghost var s := View();
      RemoveNone(s);
      ghost var done: set<PeerId> := {};
      for i := 0 to |errors|
        invariant done == set p | p in errors[..i]
        invariant View() == RemovePeers(s, done)
      {
        RemovePeer(errors[i]);
        RemoveOneMore(s, done, errors[i]);
        done := done + {errors[i]};
      }
      assert errors[..|errors|] == errors;
    }

    method RemovePeer(p: PeerId)
      modifies this, games
      ensures View() == RemovePeers(old(View()), {p})
    {
      ghost var s := View();
      GamesOfOne(s, p);
      if p !in peers {
        assert PortsOf(s, {}) == {};
        return;
      }
      var peer := peers[p];
      peers := peers - {p};
      var removed := TakeGames(peer.games);
      CleanupAll(removed);
      assert PortsIn(removed) == PortsOf(s, GamesOf(s, {p})) by { TakenPorts(s, GamesOf(s, {p}), removed); }
    }

    /** Removes the games that the given table points at, and returns them. */
    method TakeGames(table: map<GameId, GameId>) returns (removed: seq<Game>)
      modifies games`entries
      ensures games.entries == old(games.entries) - GamesUnder(table, table.Keys)
      ensures Taken(old(games.entries), GamesUnder(table, table.Keys), removed)
    {
      removed := [];
      ghost var all := games.entries;
      ghost var done: set<GameId> := {};
      var todo := table.Keys;
      while todo != {}
        invariant todo <= table.Keys && done == GamesUnder(table, table.Keys - todo)
        invariant games.entries == all - done && Taken(all, done, removed)
        decreases |todo|
      {
        var r :| r in todo;
        var id := table[r];
        if id in games.entries { removed := removed + [games.entries[id]]; }
        games.entries := games.entries - {id};
        todo := todo - {r};
        done := done + {id};
      }
    }

    method CleanupAll(removed: seq<Game>)
      modifies this`listenPorts
      ensures listenPorts == old(listenPorts) - PortsIn(removed)
    {
      for i := 0 to |removed|
        invariant listenPorts == old(listenPorts) - PortsIn(removed[..i])
      {
        CleanupRemovedGame(removed[i]);
        assert removed[..i + 1] == removed[..i] + [removed[i]];
        assert PortsIn(removed[..i + 1]) == PortsIn(removed[..i]) + PortsIn([removed[i]]);
      }
      assert removed[..|removed|] == removed;
    }

    method CleanupRemovedGame(game: Game)
      modifies this`listenPorts
      ensures listenPorts == old(listenPorts) - PortsIn([game])
    {
      if game.Remote? && game.listener.Some? {
        listenPorts := listenPorts - {game.listener.value.addr.port};
        assert PortsIn([game]) == {game.listener.value.addr.port};
      } else {
        assert PortsIn([game]) == {};
      }
    }

    method HandleGame(from: PeerId, rid: GameId, motd: Bytes, hops: nat, env: Env)
      returns (sends: map<PeerId, RelayMessage>, advertised: Option<Packet>)
      modifies this, games
      ensures Outcome(View(), sends, NoThread, advertised, None)
              == RelayModel.HandleGame(old(View()), from, rid, motd, hops, env)
    {
      sends, advertised := map[], None;
      var id := AddGame(from, rid, env);
      if id.None? { return; }
      var listener := games.entries[id.value].listener;
      if listener.Some? { advertised := Some(Packet(listener.value.addr.port, motd)); }
      if hops >= MAX_FORWARDING_HOPS { return; }
      sends := SendGame(peers.Keys - {from}, id.value, motd, hops + 1, env);
    }

    method AddGame(from: PeerId, rid: GameId, env: Env) returns (r: Option<GameId>)
      modifies this, games
      ensures (View(), r) == RelayModel.AddGame(old(View()), from, rid, env)
    {
      if from !in peers { return None; }
      if rid !in peers[from].games {
        var key := games.NextId();
        peers := peers[from := peers[from].(games := peers[from].games[rid := key])];
      }
      var id := peers[from].games[rid];
      if id !in games.entries { games.entries := games.entries[id := Remote(from, rid, None)]; }
      assert (View(), id) == InternRemote(old(View()), from, rid);
      if !games.entries[id].Remote? { return None; }
      Reap(id, env);
      if games.entries[id].listener.None? && env.bind.Some? {
        listenPorts := listenPorts + {env.bind.value.addr.port};
        games.entries := games.entries[id := games.entries[id].(listener := env.bind)];
      }
      return Some(id);
    }

    /** Forgets a recorded listener whose keepalive fails. */
    method Reap(id: GameId, env: Env)
      requires id in games.entries && games.entries[id].Remote?
      modifies this`listenPorts, games`entries
      ensures View() == ReapListener(old(View()), id, env)
    {
      var game := games.entries[id];
      if game.listener.Some? && game.listener.value.handle !in env.openListeners {
        listenPorts := listenPorts - {game.listener.value.addr.port};
        games.entries := games.entries[id := game.(listener := None)];
      }
    }

    method RemoveGameListener(id: GameId, env: Env)
      modifies this, games
      ensures Quiet(View()) == HandleRemoveListener(old(View()), id, env)
    {
      if id in games.entries && games.entries[id].Remote? { Reap(id, env); }
    }

    method HandleConnect(from: PeerId, g: GameId, cid: nat, hops: nat, env: Env)
      returns (sends: map<PeerId, RelayMessage>, spawn: Spawn)
      modifies this, games
      ensures Outcome(View(), sends, spawn, None, None)
              == RelayModel.HandleConnect(old(View()), from, g, cid, hops, env)
    {
      sends, spawn := map[], NoThread;
      if g !in games.entries { return; }
      match games.entries[g] {
        case Local(addr) =>
          if from in peers { spawn := Dial(from, ConnectionId(cid, false), g, addr); }
        case Remote(to, rid, _) =>
          sends := ForwardConnect(from, to, rid, cid, hops, env);
      }
    }

    method ForwardConnect(from: PeerId, to: PeerId, rid: GameId, cid: nat, hops: nat, env: Env)
      returns (sends: map<PeerId, RelayMessage>)
      modifies this, games
      ensures Outcome(View(), sends, NoThread, None, None)
              == RelayModel.ForwardConnect(old(View()), from, to, rid, cid, hops, env)
    {
      sends := map[];
      if hops >= MAX_FORWARDING_HOPS || from !in peers { return; }
      var c := ConnectionId(cid, false);
      if c in peers[from].relayed || to !in peers { return; }
      var d := peers[to].next;
      peers := peers[to := peers[to].(next := Bump(d), relayed := peers[to].relayed[d := RelayedConnection(from, c)])];
      assert View() == Allocate(old(View()), from, c, to);
      if to in env.failing {
        RemovePeer(to);
        return;
      }
      sends := map[to := RelayConnect(rid, d.id, hops + 1)];
      peers := peers[from := peers[from].(relayed := peers[from].relayed[c := RelayedConnection(to, d)])];
    }

    method HandleData(from: PeerId, c: ConnectionId, data: Bytes, env: Env)
      returns (sends: map<PeerId, RelayMessage>, delivered: Option<Delivery>)
      modifies this, games
      ensures Outcome(View(), sends, NoThread, None, delivered)
              == RelayModel.HandleData(old(View()), from, c, data, env)
    {
      sends, delivered := map[], None;
      if from !in peers { return; }
      var peer := peers[from];
      if c in peer.locals {
        if peer.locals[c] in env.closed {
          peers := peers[from := peer.(locals := peer.locals - {c})];
        } else {
          delivered := Some(Delivery(peer.locals[c], data));
        }
      } else if c in peer.relayed {
        var r := peer.relayed[c];
        if r.peer !in peers { return; }
        if r.peer in env.failing {
          RemovePeer(r.peer);
        } else {
          sends := map[r.peer := RelayData(r.conn.id, r.conn.local, data)];
        }
      }
    }

    method HandleCloseConnection(from: PeerId, c: ConnectionId)
      modifies this, games
      ensures Quiet(View()) == HandleClose(old(View()), from, c)
    {
      if from !in peers { return; }
      var peer := peers[from];
      peers := peers[from := peer.(locals := peer.locals - {c}, relayed := peer.relayed - {c})];
      if c in peer.relayed && peer.relayed[c].peer in peers {
        var r := peer.relayed[c];
        peers := peers[r.peer := peers[r.peer].(relayed := peers[r.peer].relayed - {r.conn})];
      }
    }
  }
}
