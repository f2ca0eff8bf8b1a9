/** A condition on the peers of a relay that rules out collisions. */
module Roles {
  import opened Basics
  import opened RelayTypes
  import opened RelayModel
  import opened Tables
  import opened Pairing

  /** Only hosts offer games, only the others ask for connections, and no peer comes twice. */
  ghost predicate InRole(hosts: set<PeerId>, seen: set<PeerId>, e: Event) {
    match e
    case AddPeer(p) => p !in seen
    case Recv(p, m) => (m.RelayGame? ==> p in hosts) && (m.RelayConnect? ==> p !in hosts)
    case _ => true
  }

  function Seen(seen: set<PeerId>, e: Event): set<PeerId> {
    if e.AddPeer? then seen + {e.peer} else seen
  }

  ghost predicate RunInRole(hosts: set<PeerId>, seen: set<PeerId>, inputs: seq<Input>)
    decreases |inputs|
  {
    inputs == [] ||
    (InRole(hosts, seen, inputs[0].event) && RunInRole(hosts, Seen(seen, inputs[0].event), inputs[1..]))
  }

  /** What a relayed entry may be: made by peers seen before and, at a host, under an id of this relay. */
  ghost predicate LinkInRole(hosts: set<PeerId>, seen: set<PeerId>, next: ConnectionId, p: PeerId, c: ConnectionId,
                             q: PeerId) {
    p in seen && q in seen && (p in hosts ==> c.id < next.id)
  }

  ghost predicate Roled(hosts: set<PeerId>, seen: set<PeerId>, s: State) {
    && s.peers.Keys <= seen
    && (forall g :: g in s.games && s.games[g].Remote? ==> s.games[g].peer in hosts)
    && (forall p, c, q, d :: Linked(s, p, c, q, d) ==> LinkInRole(hosts, seen, s.peers[p].next, p, c, q))
  }

  /** Nothing new is linked, no counter goes back, and a new remote game is `from`'s. */
  ghost predicate Settles(s: State, t: State, from: set<PeerId>) {
    && t.peers.Keys <= s.peers.Keys
    && (forall p :: p in t.peers ==> t.peers[p].next.id >= s.peers[p].next.id)
    && (forall p, c, q, d :: Linked(t, p, c, q, d) ==> Linked(s, p, c, q, d))
    && (forall g :: g in t.games && t.games[g].Remote? ==>
          t.games[g].peer in from || (g in s.games && s.games[g].Remote? && s.games[g].peer == t.games[g].peer))
  }

  lemma SettlesRoled(hosts: set<PeerId>, seen: set<PeerId>, s: State, t: State, from: set<PeerId>)
    requires Roled(hosts, seen, s) && Settles(s, t, from) && from <= hosts
    ensures Roled(hosts, seen, t)
  {
    forall p, c, q, d | Linked(t, p, c, q, d) ensures LinkInRole(hosts, seen, t.peers[p].next, p, c, q) {
      assert Linked(s, p, c, q, d);
    }
  }

  lemma SettlesTrans(s: State, t: State, u: State, from: set<PeerId>)
    requires Settles(s, t, from) && Settles(t, u, from)
    ensures Settles(s, u, from)
  {}

  lemma RemoveSettles(s: State, gone: set<PeerId>, from: set<PeerId>)
    ensures Settles(s, RemovePeers(s, gone), from)
  {}

  lemma InternSettles(s: State, from: PeerId, rid: GameId)
    requires from in s.peers
    ensures Settles(s, InternRemote(s, from, rid).0, {from})
  {
    var t := InternRemote(s, from, rid).0;
    forall p, c, q, d | Linked(t, p, c, q, d) ensures Linked(s, p, c, q, d) {}
  }

  lemma RenewSettles(s: State, id: GameId, env: Env, from: set<PeerId>)
    requires id in s.games && s.games[id].Remote?
    ensures Settles(s, RenewListener(s, id, env), from)
  {
    RenewPeers(s, id, env);
  }

  lemma AddGameSettles(s: State, from: PeerId, rid: GameId, env: Env)
    ensures Settles(s, AddGame(s, from, rid, env).0, {from})
  {
    hide InternRemote, RenewListener;
    if from in s.peers {
      var (s0, id) := InternRemote(s, from, rid);
      InternSettles(s, from, rid);
      InternRecords(s, from, rid);
      if s0.games[id].Remote? {
        RenewSettles(s0, id, env, {from});
        SettlesTrans(s, s0, RenewListener(s0, id, env), {from});
      }
    }
  }

  lemma InternRecords(s: State, from: PeerId, rid: GameId)
    requires from in s.peers
    ensures InternRemote(s, from, rid).1 in InternRemote(s, from, rid).0.games
  {}

  lemma GameSettles(s: State, from: PeerId, m: RelayMessage, env: Env)
    requires m.RelayGame?
    ensures Settles(s, HandleMessage(s, from, m, env).state, {from})
  {
    hide AddGame, RemovePeers, Settles;
    var (s1, _) := AddGame(s, from, m.id, env);
    AddGameSettles(s, from, m.id, env);
    var gone := (s1.peers.Keys - {from}) * s1.peers.Keys * env.failing;
    RemoveSettles(s1, gone, {from});
    SettlesTrans(s, s1, RemovePeers(s1, gone), {from});
  }

  lemma LocalGameSettles(s: State, from: SocketAddr, port: nat, motd: Bytes, env: Env)
    ensures Settles(s, HandleLocalGame(s, from, port, motd, env).state, {})
  {
    var (s1, _) := InternLocal(s, SocketAddr(from.ip, port));
    var gone := s1.peers.Keys * s1.peers.Keys * env.failing;
    RemoveSettles(s1, gone, {});
    SettlesTrans(s, s1, RemovePeers(s1, gone), {});
  }

  lemma LocalsSettle(s: State, p: PeerId, c: ConnectionId, tx: Tx, env: Env)
    ensures Settles(s, HandleAddGameConnection(s, p, c, tx, env).state, {})
  {
    if p in s.peers {
      var s1 := s.(peers := s.peers[p := s.peers[p].(locals := s.peers[p].locals[c := tx])]);
      assert Settles(s, s1, {});
      RemoveSettles(s1, {p}, {});
      SettlesTrans(s, s1, RemovePeers(s1, {p}), {});
    }
  }

  lemma DataSettles(s: State, from: PeerId, c: ConnectionId, data: Bytes, env: Env)
    ensures Settles(s, HandleData(s, from, c, data, env).state, {})
  {
    if from in s.peers && c in s.peers[from].relayed { RemoveSettles(s, {s.peers[from].relayed[c].peer}, {}); }
  }

  /** A Connect from a caller for a host's game links a fresh id. */
  lemma ConnectRoled(hosts: set<PeerId>, seen: set<PeerId>, s: State, from: PeerId, g: GameId, cid: nat, hops: nat,
                     env: Env)
    requires Roled(hosts, seen, s) && from !in hosts
    ensures Roled(hosts, seen, HandleConnect(s, from, g, cid, hops, env).state)
  {
    var t := HandleConnect(s, from, g, cid, hops, env).state;
    if t != s {
      var to, c := s.games[g].peer, ConnectionId(cid, false);
      var s1 := Allocate(s, from, c, to);
      forall p, x, q, d | Linked(s1, p, x, q, d) ensures LinkInRole(hosts, seen, s1.peers[p].next, p, x, q) {
        assert (p, x) == (to, s.peers[to].next) || Linked(s, p, x, q, d);
      }
      if to in env.failing {
        RemoveSettles(s1, {to}, {});
        SettlesRoled(hosts, seen, s1, t, {});
      } else {
        forall p, x, q, d | Linked(t, p, x, q, d) ensures LinkInRole(hosts, seen, t.peers[p].next, p, x, q) {
          assert (p, x) == (from, c) || Linked(s1, p, x, q, d);
        }
      }
    }
  }

  /** Every event in role is free of collisions, and keeps the roles. */
  lemma RoleStep(hosts: set<PeerId>, seen: set<PeerId>, s: State, e: Event, env: Env)
    requires Roled(hosts, seen, s) && InRole(hosts, seen, e)
    ensures NoCollision(s, e, env)
    ensures Roled(hosts, Seen(seen, e), Handle(s, e, env).state)
  {
    hide HandleMessage, HandleLocalGame, HandleAddGameConnection, HandleAccept, HandleRemoveListener, RemovePeers;
    var t := Handle(s, e, env).state;
    match e {
      case AddPeer(p) =>
        forall x, c, q, d | Linked(t, x, c, q, d) ensures LinkInRole(hosts, Seen(seen, e), t.peers[x].next, x, c, q) {
          assert Linked(s, x, c, q, d);
        }
      case AddLocalGame(from, port, motd) =>
        LocalGameSettles(s, from, port, motd, env);
        SettlesRoled(hosts, seen, s, t, {});
      case RemoveGameListener(id) =>
        RemoveListenerSettles(s, id, env);
        SettlesRoled(hosts, seen, s, t, {});
      case RemovePeer(p) =>
        RemoveSettles(s, {p}, {});
        SettlesRoled(hosts, seen, s, t, {});
      case AcceptGameConnection(g) =>
        AcceptSettles(s, g, env);
        SettlesRoled(hosts, seen, s, t, {});
      case AddGameConnection(p, c, _, tx) =>
        LocalsSettle(s, p, c, tx, env);
        SettlesRoled(hosts, seen, s, t, {});
      case Recv(from, m) => MessageRole(hosts, seen, s, from, m, env);
    }
  }

  lemma RemoveListenerSettles(s: State, id: GameId, env: Env)
    ensures Settles(s, HandleRemoveListener(s, id, env).state, {})
  {}

  lemma AcceptSettles(s: State, g: GameId, env: Env)
    ensures Settles(s, HandleAccept(s, g, env).state, {})
  {}

  lemma CloseSettles(s: State, from: PeerId, c: ConnectionId)
    ensures Settles(s, HandleClose(s, from, c).state, {})
  {
    if from in s.peers {
      var s1 := Unlink(s, from, c);
      UnlinkSettles(s, from, c);
      if c in s.peers[from].relayed && s.peers[from].relayed[c].peer in s1.peers {
        var r := s.peers[from].relayed[c];
        assert s1 == s.(peers := s.peers[from := s1.peers[from]]);
        UnlinkRelayed(s1, r.peer, r.conn);
        var tp := s1.peers[r.peer];
        SettlesTrans(s, s1, s1.(peers := s1.peers[r.peer := tp.(relayed := tp.relayed - {r.conn})]), {});
      }
    }
  }

  /** A connection taken out of both tables of a peer. */
  function Unlink(s: State, p: PeerId, c: ConnectionId): State
    requires p in s.peers
  {
    s.(peers := s.peers[p := s.peers[p].(locals := s.peers[p].locals - {c}, relayed := s.peers[p].relayed - {c})])
  }

  lemma UnlinkSettles(s: State, p: PeerId, c: ConnectionId)
    requires p in s.peers
    ensures Settles(s, Unlink(s, p, c), {})
  {}

  lemma UnlinkRelayed(s: State, p: PeerId, c: ConnectionId)
    requires p in s.peers
    ensures Settles(s, s.(peers := s.peers[p := s.peers[p].(relayed := s.peers[p].relayed - {c})]), {})
  {}

  lemma MessageRole(hosts: set<PeerId>, seen: set<PeerId>, s: State, from: PeerId, m: RelayMessage, env: Env)
    requires Roled(hosts, seen, s) && InRole(hosts, seen, Recv(from, m))
    ensures NoCollision(s, Recv(from, m), env)
    ensures Roled(hosts, seen, HandleMessage(s, from, m, env).state)
  {
    hide HandleGame, HandleConnect, HandleData, HandleClose;
    var t := HandleMessage(s, from, m, env).state;
    match m {
      case NoInner =>
      case RelayGame(_, _, _) =>
        GameSettles(s, from, m, env);
        SettlesRoled(hosts, seen, s, t, {from});
      case RelayConnect(g, cid, hops) =>
        ConnectRoled(hosts, seen, s, from, g, cid, hops, env);
        FreeAtHost(hosts, seen, s, from, m, env);
      case RelayData(cid, local, data) =>
        DataSettles(s, from, ConnectionId(cid, local), data, env);
        SettlesRoled(hosts, seen, s, t, {});
      case RelayClose(cid, local) =>
        CloseSettles(s, from, ConnectionId(cid, local));
        SettlesRoled(hosts, seen, s, t, {});
    }
  }

  lemma FreeAtHost(hosts: set<PeerId>, seen: set<PeerId>, s: State, from: PeerId, m: RelayMessage, env: Env)
    requires Roled(hosts, seen, s) && m.RelayConnect?
    ensures NoCollision(s, Recv(from, m), env)
  {
    if Forwards(s, from, m.gameId, m.connectionId, m.hops, env) {
      var to := s.games[m.gameId].peer;
      var d := s.peers[to].next;
      if d in s.peers[to].relayed {
        assert Linked(s, to, d, s.peers[to].relayed[d].peer, s.peers[to].relayed[d].conn);
      }
    }
  }

  lemma {:induction false} RoleRun(hosts: set<PeerId>, seen: set<PeerId>, s: State, inputs: seq<Input>)
    requires Roled(hosts, seen, s) && RunInRole(hosts, seen, inputs)
    ensures CollisionFree(s, inputs)
    decreases |inputs|
  {
    if inputs != [] {
      RoleStep(hosts, seen, s, inputs[0].event, inputs[0].env);
      RoleRun(hosts, Seen(seen, inputs[0].event), Handle(s, inputs[0].event, inputs[0].env).state, inputs[1..]);
    }
  }

  /** When hosts never ask for connections and the others never offer games, every run stays paired. */
  lemma RolesSuffice(port: nat, hosts: set<PeerId>, inputs: seq<Input>, k: nat)
    requires RunInRole(hosts, {}, inputs) && k <= |inputs|
    ensures Paired(Run(Init(port), inputs[..k]))
  {
    RoleRun(hosts, {}, Init(port), inputs);
    CircuitPairing(port, inputs);
  }
}
