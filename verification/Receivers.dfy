/** How long an accepted client keeps receiving what its peer sends. */
module Receivers {
  import opened Basics
  import opened RelayTypes
  import opened RelayModel
  import opened Tables

  /** Who gets the chunks that peer `q` sends under connection `c`. */
  function Receiver(s: State, q: PeerId, c: ConnectionId): Option<Tx> {
    if q in s.peers && c in s.peers[q].locals then Some(s.peers[q].locals[c]) else None
  }

  /** The event drops peer `q`, because it is told to or because the peer refuses a message that the event sends it. */
  ghost predicate Drops(s: State, e: Event, env: Env, q: PeerId) {
    q in s.peers &&
    match e
    case RemovePeer(p) => p == q
    case AddGameConnection(p, _, _, _) => p == q && q in env.failing
    case AddLocalGame(from, port, _) => !(from.port == s.discoveryPort && port in s.ports) && q in env.failing
    case Recv(from, RelayGame(_, _, hops)) =>
      from in s.peers && hops < MAX_FORWARDING_HOPS && from != q && q in env.failing
    case Recv(from, RelayConnect(g, cid, hops)) =>
      && g in s.games && s.games[g].Remote? && s.games[g].peer == q && q in env.failing
      && hops < MAX_FORWARDING_HOPS && from in s.peers && ConnectionId(cid, false) !in s.peers[from].relayed
    case Recv(from, RelayData(cid, local, _)) =>
      var c := ConnectionId(cid, local);
      && from in s.peers && c !in s.peers[from].locals && c in s.peers[from].relayed
      && s.peers[from].relayed[c].peer == q && q in env.failing
    case _ => false
  }

  /** The event takes id `c` of peer `q` from connection `u`. */
  ghost predicate Displaces(s: State, e: Event, env: Env, q: PeerId, c: ConnectionId, u: Tx) {
    || Drops(s, e, env, q)
    || match e
       case AddPeer(p) => p == q
       case AcceptGameConnection(g) =>
         && g in s.games && s.games[g].Remote? && s.games[g].peer == q && q in s.peers
         && s.peers[q].next == c && env.newHandle != u
       case AddGameConnection(p, d, _, tx) => p == q && d == c && tx != u
       case Recv(from, RelayData(cid, local, _)) => from == q && ConnectionId(cid, local) == c && u in env.closed
       case Recv(from, RelayClose(cid, local)) => from == q && ConnectionId(cid, local) == c
       case _ => false
  }

  lemma RemoveReceiver(s: State, gone: set<PeerId>, q: PeerId, c: ConnectionId)
    ensures Receiver(RemovePeers(s, gone), q, c) == if q in gone then None else Receiver(s, q, c)
  {}

  lemma GameReceiver(s: State, from: PeerId, m: RelayMessage, env: Env, q: PeerId, c: ConnectionId)
    requires Indexed(s) && m.RelayGame?
    ensures Receiver(HandleMessage(s, from, m, env).state, q, c) ==
            if Drops(s, Recv(from, m), env, q) then None else Receiver(s, q, c)
  {
    IndexedAddGame(s, from, m.id, env);
    if from in s.peers {
      var (s0, id) := InternRemote(s, from, m.id);
      RenewPeers(s0, id, env);
      var s1 := RenewListener(s0, id, env);
      assert Receiver(s1, q, c) == Receiver(s, q, c);
      RemoveReceiver(s1, (s1.peers.Keys - {from}) * s1.peers.Keys * env.failing, q, c);
    }
  }

  lemma LocalGameReceiver(s: State, from: SocketAddr, port: nat, motd: Bytes, env: Env, q: PeerId, c: ConnectionId)
    ensures Receiver(HandleLocalGame(s, from, port, motd, env).state, q, c) ==
            if Drops(s, AddLocalGame(from, port, motd), env, q) then None else Receiver(s, q, c)
  {
    var s1 := InternLocal(s, SocketAddr(from.ip, port)).0;
    RemoveReceiver(s1, s1.peers.Keys * s1.peers.Keys * env.failing, q, c);
  }

  lemma ConnectReceiver(s: State, from: PeerId, m: RelayMessage, env: Env, q: PeerId, c: ConnectionId)
    requires m.RelayConnect?
    ensures Receiver(HandleMessage(s, from, m, env).state, q, c) ==
            if Drops(s, Recv(from, m), env, q) then None else Receiver(s, q, c)
  {
    if m.gameId in s.games && s.games[m.gameId].Remote? && s.games[m.gameId].peer in s.peers {
      var to := s.games[m.gameId].peer;
      var s1 := Allocate(s, from, ConnectionId(m.connectionId, false), to);
      RemoveReceiver(s1, {to}, q, c);
    }
  }

  lemma DataReceiver(s: State, from: PeerId, m: RelayMessage, env: Env, q: PeerId, c: ConnectionId, u: Tx)
    requires m.RelayData? && Receiver(s, q, c) == Some(u)
    ensures Receiver(HandleMessage(s, from, m, env).state, q, c) ==
            if Displaces(s, Recv(from, m), env, q, c, u) then None else Some(u)
  {
    var d := ConnectionId(m.connectionId, m.connectionLocal);
    if from in s.peers && d in s.peers[from].relayed { RemoveReceiver(s, {s.peers[from].relayed[d].peer}, q, c); }
  }

  lemma AddedReceiver(s: State, e: Event, env: Env, q: PeerId, c: ConnectionId, u: Tx)
    requires e.AddGameConnection? && Receiver(s, q, c) == Some(u)
    ensures Receiver(Handle(s, e, env).state, q, c) == Some(u) <==> !Displaces(s, e, env, q, c, u)
  {
    if e.peer in s.peers {
      RemoveReceiver(s.(peers := s.peers[e.peer := s.peers[e.peer].(locals := s.peers[e.peer].locals[e.conn := e.tx])]),
                     {e.peer}, q, c);
    }
  }

  /** One event leaves the receiver in place if, and only if, it is none of those that displace it. */
  lemma ReceiverStep(s: State, e: Event, env: Env, q: PeerId, c: ConnectionId, u: Tx)
    requires Indexed(s) && Receiver(s, q, c) == Some(u)
    ensures Receiver(Handle(s, e, env).state, q, c) == Some(u) <==> !Displaces(s, e, env, q, c, u)
  {
    hide HandleLocalGame, HandleAddGameConnection, HandleMessage, RemovePeers, Indexed;
    match e {
      case RemovePeer(p) => RemoveReceiver(s, {p}, q, c);
      case AddLocalGame(from, port, motd) => LocalGameReceiver(s, from, port, motd, env, q, c);
      case AddGameConnection(_, _, _, _) => AddedReceiver(s, e, env, q, c, u);
      case Recv(from, m) => MessageReceiver(s, from, m, env, q, c, u);
      case _ =>
    }
  }

  lemma MessageReceiver(s: State, from: PeerId, m: RelayMessage, env: Env, q: PeerId, c: ConnectionId, u: Tx)
    requires Indexed(s) && Receiver(s, q, c) == Some(u)
    ensures Receiver(HandleMessage(s, from, m, env).state, q, c) == Some(u) <==>
              !Displaces(s, Recv(from, m), env, q, c, u)
  {
    hide HandleGame, HandleConnect, HandleData, Indexed;
    match m {
      case RelayGame(_, _, _) => GameReceiver(s, from, m, env, q, c);
      case RelayConnect(_, _, _) => ConnectReceiver(s, from, m, env, q, c);
      case RelayData(_, _, _) => DataReceiver(s, from, m, env, q, c, u);
      case _ =>
    }
  }

  ghost predicate Undisturbed(s: State, inputs: seq<Input>, q: PeerId, c: ConnectionId, u: Tx)
    decreases |inputs|
  {
    inputs == [] ||
    (!Displaces(s, inputs[0].event, inputs[0].env, q, c, u)
     && Undisturbed(Handle(s, inputs[0].event, inputs[0].env).state, inputs[1..], q, c, u))
  }

  /** A connection receives under its id throughout a run if, and only if, none of the displacing events occurs. */
  lemma {:induction false} ReceiverRun(s: State, inputs: seq<Input>, q: PeerId, c: ConnectionId, u: Tx)
    requires Indexed(s) && Receiver(s, q, c) == Some(u)
    ensures Undisturbed(s, inputs, q, c, u) <==>
              forall k | 0 <= k <= |inputs| :: Receiver(Run(s, inputs[..k]), q, c) == Some(u)
    decreases |inputs|
  {
    hide Receiver, Indexed, Displaces, Handle;
    if inputs != [] {
      var t := Handle(s, inputs[0].event, inputs[0].env).state;
      IndexedStep(s, inputs[0].event, inputs[0].env);
      ReceiverStep(s, inputs[0].event, inputs[0].env, q, c, u);
      RunPrefixes(s, inputs);
      if Receiver(t, q, c) == Some(u) {
        ReceiverRun(t, inputs[1..], q, c, u);
        if Undisturbed(s, inputs, q, c, u) {
          forall k | 0 <= k <= |inputs| ensures Receiver(Run(s, inputs[..k]), q, c) == Some(u) {
            if k > 0 { assert Receiver(Run(t, inputs[1..][..k - 1]), q, c) == Some(u); }
          }
        } else {
          var k :| 0 <= k <= |inputs[1..]| && Receiver(Run(t, inputs[1..][..k]), q, c) != Some(u);
          assert Receiver(Run(s, inputs[..k + 1]), q, c) != Some(u);
        }
      } else {
        assert Receiver(Run(s, inputs[..1]), q, c) != Some(u);
      }
    }
  }

  /** The relay accepts a client for a game of a present peer. */
  ghost predicate AcceptsFor(s: State, g: GameId, q: PeerId) {
    g in s.games && s.games[g].Remote? && s.games[g].peer == q && q in s.peers
  }

  /**
   From its acceptance on, after any run, a client receives under the id it was given exactly until one of those
   events.
   */
  lemma AcceptedReceives(port: nat, before: seq<Input>, g: GameId, q: PeerId, env: Env, inputs: seq<Input>)
    requires AcceptsFor(Run(Init(port), before), g, q)
    ensures var s := Run(Init(port), before);
            var t, c := Handle(s, AcceptGameConnection(g), env).state, s.peers[q].next;
            Undisturbed(t, inputs, q, c, env.newHandle) <==>
              forall k | 0 <= k <= |inputs| :: Receiver(Run(t, inputs[..k]), q, c) == Some(env.newHandle)
  {
    var s := Run(Init(port), before);
    IndexedRun(Init(port), before);
    IndexedStep(s, AcceptGameConnection(g), env);
    ReceiverRun(Handle(s, AcceptGameConnection(g), env).state, inputs, q, s.peers[q].next, env.newHandle);
  }
}
