/** The data of one relay process and of the messages that relays exchange. */
module RelayTypes {
  import opened Basics
  import opened DiscoveryPacket

  // A peer is named by its static key; only equality of keys matters.
  type PeerId = nat

  // Ids of games. `LocalGameId` and `RemoteGameId` are the same number space seen from two relays.
  type GameId = nat

  // The sending end of one game connection's channel.
  type Tx = nat

  datatype ConnectionId = ConnectionId(id: nat, local: bool)

  datatype SocketAddr = SocketAddr(ip: nat, port: nat)

  // `handle` identifies the keepalive flag shared with one listener thread.
  datatype Listener = Listener(handle: nat, addr: SocketAddr)

  datatype Game =
    | Local(addr: SocketAddr)
    | Remote(peer: PeerId, remoteId: GameId, listener: Option<Listener>)

  datatype RelayedConnection = RelayedConnection(peer: PeerId, conn: ConnectionId)

  datatype Peer = Peer(
    games: map<GameId, GameId>,
    locals: map<ConnectionId, Tx>,
    relayed: map<ConnectionId, RelayedConnection>,
    next: ConnectionId)

  const NEW_PEER := Peer(map[], map[], map[], ConnectionId(0, false))

  datatype State = State(
    peers: map<PeerId, Peer>,
    games: map<GameId, Game>,
    nextKey: nat,
    localGames: map<SocketAddr, GameId>,
    ports: set<nat>,
    discoveryPort: nat)

  datatype RelayMessage =
    | NoInner
    | RelayGame(id: GameId, motd: Bytes, hops: nat)
    | RelayConnect(gameId: GameId, connectionId: nat, hops: nat)
    | RelayData(connectionId: nat, connectionLocal: bool, data: Bytes)
    | RelayClose(connectionId: nat, connectionLocal: bool)

  // The messages of a relay's event loop.
  datatype Event =
    | AcceptGameConnection(gameId: GameId)
    | AddGameConnection(peer: PeerId, conn: ConnectionId, gameId: GameId, tx: Tx)
    | AddPeer(peer: PeerId)
    | AddLocalGame(from: SocketAddr, port: nat, motd: Bytes)
    | Recv(peer: PeerId, message: RelayMessage)
    | RemoveGameListener(gameId: GameId)
    | RemovePeer(peer: PeerId)

  // What the outside world answers while one event is handled.
  datatype Env = Env(
    failing: set<PeerId>,        // peers whose connection refuses a send
    openListeners: set<nat>,     // listener handles whose keepalive succeeds
    bind: Option<Listener>,      // the listener a bind yields, if it succeeds
    closed: set<Tx>,         // game connections whose channel refuses a send
    newHandle: Tx)           // the handle of the connection being accepted

  // The thread that handling an event starts, if any.
  datatype Spawn =
    | NoThread
    | Serve(peer: PeerId, conn: ConnectionId)
    | Dial(peer: PeerId, conn: ConnectionId, gameId: GameId, addr: SocketAddr)

  // A chunk put on the channel of a game connection.
  datatype Delivery = Delivery(tx: Tx, data: Bytes)

  // Handling one event queues at most one message per peer, offers at most one packet to the local network, and
  // gives a chunk to at most one game connection.
  datatype Outcome = Outcome(
    state: State,
    sends: map<PeerId, RelayMessage>,
    spawn: Spawn,
    advertised: Option<Packet>,
    delivered: Option<Delivery>)

  const MAX_FORWARDING_HOPS: nat := 2
}

/** The handlers of the relay's event loop, as functions of the tables. */
module RelayModel {
  import opened Basics
  import opened DiscoveryPacket
  import opened RelayTypes

  function Init(discoveryPort: nat): State {
    State(map[], map[], 0, map[], {}, discoveryPort)
  }

  function Quiet(s: State): Outcome {
    Outcome(s, map[], NoThread, None, None)
  }

  // ---------------------------------------------------------------- peers

  /** The games recorded in the tables of the given peers. */
  function GamesOf(s: State, gone: set<PeerId>): set<GameId> {
    set p, r | p in gone && p in s.peers && r in s.peers[p].games :: s.peers[p].games[r]
  }

  /** The ports of the listeners recorded for the given games. */
  function PortsOf(s: State, ids: set<GameId>): set<nat> {
    set g | g in ids && g in s.games && s.games[g].Remote? && s.games[g].listener.Some? ::
      s.games[g].listener.value.addr.port
  }

  function RemovePeers(s: State, gone: set<PeerId>): State {
    s.(peers := s.peers - gone,
       games := s.games - GamesOf(s, gone),
       ports := s.ports - PortsOf(s, GamesOf(s, gone)))
  }

  // ---------------------------------------------------------------- games

  function Advertise(s: State, to: set<PeerId>, id: GameId, motd: Bytes, hops: nat, env: Env): Outcome {
    Outcome(RemovePeers(s, to * s.peers.Keys * env.failing),
            map p | p in s.peers && p in to && p !in env.failing :: RelayGame(id, motd, hops),
            NoThread, None, None)
  }

  function InternLocal(s: State, addr: SocketAddr): (State, GameId) {
    if addr in s.localGames then (s, s.localGames[addr])
    else (s.(games := s.games[s.nextKey := Local(addr)],
             nextKey := s.nextKey + 1,
             localGames := s.localGames[addr := s.nextKey]),
          s.nextKey)
  }

  function HandleLocalGame(s: State, from: SocketAddr, port: nat, motd: Bytes, env: Env): Outcome {
    if from.port == s.discoveryPort && port in s.ports then Quiet(s)
    else
      var (s1, id) := InternLocal(s, SocketAddr(from.ip, port));
      Advertise(s1, s1.peers.Keys, id, motd, 0, env)
  }

  function InternRemote(s: State, from: PeerId, rid: GameId): (State, GameId)
    requires from in s.peers
  {
    var peer := s.peers[from];
    var (s1, id) :=
      if rid in peer.games then (s, peer.games[rid])
      else (s.(nextKey := s.nextKey + 1,
               peers := s.peers[from := peer.(games := peer.games[rid := s.nextKey])]),
            s.nextKey);
    (if id in s1.games then s1 else s1.(games := s1.games[id := Remote(from, rid, None)]), id)
  }

  /** Forgets the recorded listener of game `id` if its keepalive fails. */
  function ReapListener(s: State, id: GameId, env: Env): State
    requires id in s.games && s.games[id].Remote?
  {
    var g := s.games[id];
    if g.listener.Some? && g.listener.value.handle !in env.openListeners
    then s.(ports := s.ports - {g.listener.value.addr.port},
            games := s.games[id := g.(listener := None)])
    else s
  }

  function RenewListener(s: State, id: GameId, env: Env): State
    requires id in s.games && s.games[id].Remote?
  {
    var s1 := ReapListener(s, id, env);
    if s1.games[id].listener.None? && env.bind.Some?
    then s1.(ports := s1.ports + {env.bind.value.addr.port},
             games := s1.games[id := s1.games[id].(listener := env.bind)])
    else s1
  }

  /** The state and id that `add_game` leaves, or no id when the advertisement is dropped. */
  function AddGame(s: State, from: PeerId, rid: GameId, env: Env): (r: (State, Option<GameId>))
    ensures r.1.Some? ==> r.1.value in r.0.games && r.0.games[r.1.value].Remote?
  {
    if from !in s.peers then (s, None)
    else
      var (s1, id) := InternRemote(s, from, rid);
      if !s1.games[id].Remote? then (s1, None)
      else (RenewListener(s1, id, env), Some(id))
  }

  function HandleGame(s: State, from: PeerId, rid: GameId, motd: Bytes, hops: nat, env: Env): Outcome {
    var (s1, id) := AddGame(s, from, rid, env);
    if id.None? then Quiet(s1)
    else
      var listener := s1.games[id.value].listener;
      var advertised := if listener.Some? then Some(Packet(listener.value.addr.port, motd)) else None;
      if hops >= MAX_FORWARDING_HOPS then Quiet(s1).(advertised := advertised)
      else Advertise(s1, s1.peers.Keys - {from}, id.value, motd, hops + 1, env).(advertised := advertised)
  }

  function HandleRemoveListener(s: State, id: GameId, env: Env): Outcome {
    if id in s.games && s.games[id].Remote? then Quiet(ReapListener(s, id, env)) else Quiet(s)
  }

  // ---------------------------------------------------------------- connections

  function Bump(c: ConnectionId): ConnectionId {
    c.(id := c.id + 1)
  }

  function HandleAccept(s: State, gameId: GameId, env: Env): Outcome {
    if gameId !in s.games || !s.games[gameId].Remote? then Quiet(s)
    else
      var g := s.games[gameId];
      if g.peer !in s.peers then Quiet(s)
      else
        var peer := s.peers[g.peer];
        var s1 := s.(peers := s.peers[g.peer := peer.(next := Bump(peer.next),
                                                     locals := peer.locals[peer.next := env.newHandle])]);
        if g.peer in env.failing then Quiet(s1)
        else Outcome(s1, map[g.peer := RelayConnect(g.remoteId, peer.next.id, 0)], Serve(g.peer, peer.next), None, None)
  }

  function HandleAddGameConnection(s: State, from: PeerId, conn: ConnectionId, tx: Tx, env: Env): Outcome {
    if from !in s.peers then Quiet(s)
    else
      var peer := s.peers[from];
      var s1 := s.(peers := s.peers[from := peer.(locals := peer.locals[conn := tx])]);
      if from in env.failing then Quiet(RemovePeers(s1, {from}))
      else Outcome(s1, map[from := RelayData(conn.id, conn.local, [])], NoThread, None, None)
  }

  function HandleConnect(s: State, from: PeerId, gameId: GameId, cid: nat, hops: nat, env: Env): Outcome {
    if gameId !in s.games then Quiet(s)
    else match s.games[gameId]
      case Local(addr) => ConnectLocal(s, from, gameId, cid, addr)
      case Remote(to, rid, _) => ForwardConnect(s, from, to, rid, cid, hops, env)
  }

  function ConnectLocal(s: State, from: PeerId, gameId: GameId, cid: nat, addr: SocketAddr): Outcome {
    if from !in s.peers then Quiet(s)
    else Outcome(s, map[], Dial(from, ConnectionId(cid, false), gameId, addr), None, None)
  }

  /** The state after the allocation towards `to`, before the Connect is sent. */
  function Allocate(s: State, from: PeerId, c: ConnectionId, to: PeerId): State
    requires to in s.peers
  {
    var peer := s.peers[to];
    s.(peers := s.peers[to := peer.(next := Bump(peer.next),
                                   relayed := peer.relayed[peer.next := RelayedConnection(from, c)])])
  }

  function ForwardConnect(s: State, from: PeerId, to: PeerId, rid: GameId, cid: nat, hops: nat, env: Env): Outcome {
    var c := ConnectionId(cid, false);
    if hops >= MAX_FORWARDING_HOPS || from !in s.peers || c in s.peers[from].relayed || to !in s.peers
    then Quiet(s)
    else
      var d := s.peers[to].next;
      var s1 := Allocate(s, from, c, to);
      if to in env.failing then Quiet(RemovePeers(s1, {to}))
      else
        var fp := s1.peers[from];
        var s2 := s1.(peers := s1.peers[from := fp.(relayed := fp.relayed[c := RelayedConnection(to, d)])]);
        Outcome(s2, map[to := RelayConnect(rid, d.id, hops + 1)], NoThread, None, None)
  }

  function HandleData(s: State, from: PeerId, c: ConnectionId, data: Bytes, env: Env): Outcome {
    if from !in s.peers then Quiet(s)
    else
      var peer := s.peers[from];
      if c in peer.locals then
        if peer.locals[c] in env.closed
        then Quiet(s.(peers := s.peers[from := peer.(locals := peer.locals - {c})]))
        else Quiet(s).(delivered := Some(Delivery(peer.locals[c], data)))
      else if c !in peer.relayed then Quiet(s)
      else
        var r := peer.relayed[c];
        if r.peer !in s.peers then Quiet(s)
        else if r.peer in env.failing then Quiet(RemovePeers(s, {r.peer}))
        else Outcome(s, map[r.peer := RelayData(r.conn.id, r.conn.local, data)], NoThread, None, None)
  }

  function HandleClose(s: State, from: PeerId, c: ConnectionId): Outcome {
    if from !in s.peers then Quiet(s)
    else
      var peer := s.peers[from];
      var s1 := s.(peers := s.peers[from := peer.(locals := peer.locals - {c}, relayed := peer.relayed - {c})]);
      if c !in peer.relayed || peer.relayed[c].peer !in s1.peers then Quiet(s1)
      else
        var r := peer.relayed[c];
        var tp := s1.peers[r.peer];
        Quiet(s1.(peers := s1.peers[r.peer := tp.(relayed := tp.relayed - {r.conn})]))
  }

  // ---------------------------------------------------------------- the event loop

  function HandleMessage(s: State, from: PeerId, m: RelayMessage, env: Env): Outcome {
    match m
    case NoInner => Quiet(s)
    case RelayGame(id, motd, hops) => HandleGame(s, from, id, motd, hops, env)
    case RelayConnect(gameId, cid, hops) => HandleConnect(s, from, gameId, cid, hops, env)
    case RelayData(cid, local, data) => HandleData(s, from, ConnectionId(cid, local), data, env)
    case RelayClose(cid, local) => HandleClose(s, from, ConnectionId(cid, local))
  }

  function Handle(s: State, e: Event, env: Env): Outcome {
    match e
    case AcceptGameConnection(gameId) => HandleAccept(s, gameId, env)
    case AddGameConnection(peer, conn, _, tx) => HandleAddGameConnection(s, peer, conn, tx, env)
    case AddPeer(peer) => Quiet(s.(peers := s.peers[peer := NEW_PEER]))
    case AddLocalGame(from, port, motd) => HandleLocalGame(s, from, port, motd, env)
    case Recv(peer, message) => HandleMessage(s, peer, message, env)
    case RemoveGameListener(id) => HandleRemoveListener(s, id, env)
    case RemovePeer(peer) => Quiet(RemovePeers(s, {peer}))
  }
}
