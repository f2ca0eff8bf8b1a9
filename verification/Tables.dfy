/** Runs of one relay, and the game index that every event keeps. */
module Tables {
  import opened Basics
  import opened RelayTypes
  import opened RelayModel

  datatype Input = Input(event: Event, env: Env)

  /** The state after handling a sequence of events. */
  function Run(s: State, inputs: seq<Input>): State
    decreases |inputs|
  {
    if inputs == [] then s
    else Run(Handle(s, inputs[0].event, inputs[0].env).state, inputs[1..])
  }

  lemma {:induction false} RunAppend(s: State, inputs: seq<Input>, i: Input)
    ensures Run(s, inputs + [i]) == Handle(Run(s, inputs), i.event, i.env).state
    decreases |inputs|
  {
    if inputs == [] {
      assert Run(Handle(s, i.event, i.env).state, []) == Handle(s, i.event, i.env).state;
    } else {
      assert (inputs + [i])[0] == inputs[0] && (inputs + [i])[1..] == inputs[1..] + [i];
      RunAppend(Handle(s, inputs[0].event, inputs[0].env).state, inputs[1..], i);
    }
  }

  /** A run and its prefixes, after the first event. */
  lemma RunPrefixes(s: State, inputs: seq<Input>)
    requires inputs != []
    ensures var t := Handle(s, inputs[0].event, inputs[0].env).state;
            && Run(s, inputs[..0]) == s && Run(t, inputs[1..][..0]) == t
            && forall k | 0 < k <= |inputs| :: Run(s, inputs[..k]) == Run(t, inputs[1..][..k - 1])
  {
    forall k | 0 < k <= |inputs|
      ensures Run(s, inputs[..k]) == Run(Handle(s, inputs[0].event, inputs[0].env).state, inputs[1..][..k - 1])
    {
      assert inputs[..k][1..] == inputs[1..][..k - 1];
    }
  }

  // ---------------------------------------------------------------- the game index

  datatype Origin = At(addr: SocketAddr) | Via(peer: PeerId, id: GameId)

  function OriginOf(g: Game): Origin {
    match g
    case Local(addr) => At(addr)
    case Remote(p, r, _) => Via(p, r)
  }

  ghost predicate Owns(s: State, p: PeerId, r: GameId)
    requires p in s.peers && r in s.peers[p].games
  {
    var id := s.peers[p].games[r];
    id in s.games && OriginOf(s.games[id]) == Via(p, r)
  }

  ghost predicate LocalIndexed(s: State) {
    && (forall a :: a in s.localGames ==> s.localGames[a] in s.games && s.games[s.localGames[a]] == Local(a))
    && (forall g :: g in s.games && s.games[g].Local? ==>
          s.games[g].addr in s.localGames && s.localGames[s.games[g].addr] == g)
  }

  ghost predicate Indexed(s: State) {
    && LocalIndexed(s)
    && (forall g :: g in s.games ==> g < s.nextKey)
    && (forall p, r :: p in s.peers && r in s.peers[p].games ==> Owns(s, p, r))
  }

  /** No id is rebound: a surviving game keeps its origin and a new game has an unused id. */
  ghost predicate KeepsIds(s: State, t: State) {
    && s.nextKey <= t.nextKey
    && (forall g :: g in t.games && g in s.games ==> OriginOf(t.games[g]) == OriginOf(s.games[g]))
    && (forall g :: g in t.games && g !in s.games ==> g >= s.nextKey)
  }

  lemma GoneGames(s: State, gone: set<PeerId>)
    requires Indexed(s)
    ensures forall g :: g in GamesOf(s, gone) ==> g in s.games && s.games[g].Remote? && s.games[g].peer in gone
  {
    forall g | g in GamesOf(s, gone)
      ensures g in s.games && s.games[g].Remote? && s.games[g].peer in gone
    {
      var p, r :| p in gone && p in s.peers && r in s.peers[p].games && g == s.peers[p].games[r];
      assert Owns(s, p, r);
    }
  }

  lemma IndexedRemovePeers(s: State, gone: set<PeerId>)
    requires Indexed(s)
    ensures Indexed(RemovePeers(s, gone)) && KeepsIds(s, RemovePeers(s, gone))
  {
    var t := RemovePeers(s, gone);
    GoneGames(s, gone);
    forall p, r | p in t.peers && r in t.peers[p].games ensures Owns(t, p, r) {
      assert Owns(s, p, r);
    }
  }

  lemma IndexedAddGame(s: State, from: PeerId, rid: GameId, env: Env)
    requires Indexed(s)
    ensures var r := AddGame(s, from, rid, env);
            && Indexed(r.0) && KeepsIds(s, r.0)
            && r.0.peers.Keys == s.peers.Keys
            && (from in s.peers <==> r.1.Some?)
            && (from in s.peers ==> OriginOf(r.0.games[r.1.value]) == Via(from, rid))
  {
    if from in s.peers {
      var (s1, id) := InternRemote(s, from, rid);
      assert rid in s.peers[from].games ==> Owns(s, from, rid);
      assert s1.games[id].Remote? && OriginOf(s1.games[id]) == Via(from, rid);
      forall p, r | p in s1.peers && r in s1.peers[p].games ensures Owns(s1, p, r) {
        if r in s.peers[p].games { assert Owns(s, p, r); }
      }
      assert Indexed(s1) && KeepsIds(s, s1);
      IndexedRenew(s1, id, env);
    }
  }

  lemma IndexedReap(s: State, id: GameId, env: Env)
    requires Indexed(s) && id in s.games && s.games[id].Remote?
    ensures var t := ReapListener(s, id, env);
            Indexed(t) && KeepsIds(s, t) && t.peers == s.peers && OriginOf(t.games[id]) == OriginOf(s.games[id])
  {
    var t := ReapListener(s, id, env);
    forall p, r | p in t.peers && r in t.peers[p].games ensures Owns(t, p, r) { assert Owns(s, p, r); }
  }

  lemma IndexedRenew(s: State, id: GameId, env: Env)
    requires Indexed(s) && id in s.games && s.games[id].Remote?
    ensures var t := RenewListener(s, id, env);
            Indexed(t) && KeepsIds(s, t) && t.peers == s.peers && OriginOf(t.games[id]) == OriginOf(s.games[id])
  {
    IndexedReap(s, id, env);
    var s1 := ReapListener(s, id, env);
    var t := RenewListener(s, id, env);
    forall p, r | p in t.peers && r in t.peers[p].games ensures Owns(t, p, r) { assert Owns(s1, p, r); }
  }

  lemma RenewPeers(s: State, id: GameId, env: Env)
    requires id in s.games && s.games[id].Remote?
    ensures RenewListener(s, id, env).peers == s.peers
  {}

  lemma IndexedIntern(s: State, addr: SocketAddr)
    requires Indexed(s)
    ensures var (t, id) := InternLocal(s, addr);
            Indexed(t) && KeepsIds(s, t) && t.peers == s.peers && id in t.games && t.games[id] == Local(addr)
  {
    var (t, id) := InternLocal(s, addr);
    forall p, r | p in t.peers && r in t.peers[p].games ensures Owns(t, p, r) { assert Owns(s, p, r); }
  }

  /** Only the connection tables of `t` may differ from those of `s`. */
  ghost predicate SameGames(s: State, t: State) {
    && t.games == s.games && t.nextKey == s.nextKey && t.localGames == s.localGames && t.ports == s.ports
    && t.discoveryPort == s.discoveryPort
    && t.peers.Keys == s.peers.Keys
    && (forall p :: p in s.peers ==> t.peers[p].games == s.peers[p].games)
  }

  lemma IndexedSameGames(s: State, t: State)
    requires Indexed(s) && SameGames(s, t)
    ensures Indexed(t) && KeepsIds(s, t)
  {
    forall p, r | p in t.peers && r in t.peers[p].games ensures Owns(t, p, r) { assert Owns(s, p, r); }
  }

  lemma RemoveNone(s: State)
    ensures RemovePeers(s, {}) == s
  {
    assert GamesOf(s, {}) == {};
    assert PortsOf(s, {}) == {};
  }

  /** A connection event changes connection tables only, then drops a peer that refused a send. */
  ghost predicate TouchesConnections(s: State, t: State) {
    exists mid, gone :: SameGames(s, mid) && t == RemovePeers(mid, gone)
  }

  lemma Touches(s: State, mid: State, gone: set<PeerId>)
    requires SameGames(s, mid)
    ensures TouchesConnections(s, RemovePeers(mid, gone))
    ensures TouchesConnections(s, mid)
  {
    RemoveNone(mid);
  }

  lemma AcceptTouches(s: State, gameId: GameId, env: Env)
    ensures TouchesConnections(s, HandleAccept(s, gameId, env).state)
  {
    Touches(s, HandleAccept(s, gameId, env).state, {});
  }

  lemma AddConnectionTouches(s: State, p: PeerId, c: ConnectionId, tx: Tx, env: Env)
    ensures TouchesConnections(s, HandleAddGameConnection(s, p, c, tx, env).state)
  {
    hide RemovePeers, TouchesConnections;
    Touches(s, s, {});
    if p in s.peers {
      Touches(s, s.(peers := s.peers[p := s.peers[p].(locals := s.peers[p].locals[c := tx])]), {p});
    }
  }

  lemma ConnectTouches(s: State, from: PeerId, g: GameId, cid: nat, hops: nat, env: Env)
    ensures TouchesConnections(s, HandleConnect(s, from, g, cid, hops, env).state)
  {
    hide RemovePeers, TouchesConnections;
    var t := HandleConnect(s, from, g, cid, hops, env).state;
    if t == s {
      Touches(s, s, {});
    } else {
      var to := s.games[g].peer;
      if to in env.failing {
        Touches(s, Allocate(s, from, ConnectionId(cid, false), to), {to});
      } else {
        Touches(s, t, {});
      }
    }
  }

  lemma DataTouches(s: State, from: PeerId, c: ConnectionId, data: Bytes, env: Env)
    ensures TouchesConnections(s, HandleData(s, from, c, data, env).state)
  {
    var t := HandleData(s, from, c, data, env).state;
    if t == s || c in s.peers[from].locals {
      Touches(s, t, {});
    } else {
      Touches(s, s, {s.peers[from].relayed[c].peer});
    }
  }

  lemma MessageTouches(s: State, from: PeerId, m: RelayMessage, env: Env)
    requires !m.RelayGame?
    ensures TouchesConnections(s, HandleMessage(s, from, m, env).state)
  {
    hide HandleConnect, HandleData, TouchesConnections;
    match m {
      case NoInner => Touches(s, s, {});
      case RelayConnect(g, cid, hops) => ConnectTouches(s, from, g, cid, hops, env);
      case RelayData(cid, local, data) => DataTouches(s, from, ConnectionId(cid, local), data, env);
      case RelayClose(cid, local) => Touches(s, HandleMessage(s, from, m, env).state, {});
    }
  }

  lemma IndexedTouches(s: State, t: State)
    requires Indexed(s) && TouchesConnections(s, t)
    ensures Indexed(t) && KeepsIds(s, t)
  {
    var mid, gone :| SameGames(s, mid) && t == RemovePeers(mid, gone);
    IndexedSameGames(s, mid);
    IndexedRemovePeers(mid, gone);
  }

  lemma IndexedAdvertise(s: State, to: set<PeerId>, id: GameId, motd: Bytes, hops: nat, env: Env)
    requires Indexed(s)
    ensures var t := Advertise(s, to, id, motd, hops, env).state; Indexed(t) && KeepsIds(s, t)
  {
    IndexedRemovePeers(s, to * s.peers.Keys * env.failing);
  }

  lemma IndexedGame(s: State, from: PeerId, rid: GameId, motd: Bytes, hops: nat, env: Env)
    requires Indexed(s)
    ensures var t := HandleGame(s, from, rid, motd, hops, env).state; Indexed(t) && KeepsIds(s, t)
  {
    IndexedAddGame(s, from, rid, env);
    var (s1, id) := AddGame(s, from, rid, env);
    if id.Some? && hops < MAX_FORWARDING_HOPS {
      IndexedAdvertise(s1, s1.peers.Keys - {from}, id.value, motd, hops + 1, env);
    }
  }

  lemma IndexedLocalGame(s: State, from: SocketAddr, port: nat, motd: Bytes, env: Env)
    requires Indexed(s)
    ensures var t := HandleLocalGame(s, from, port, motd, env).state; Indexed(t) && KeepsIds(s, t)
  {
    IndexedIntern(s, SocketAddr(from.ip, port));
    var (s1, id) := InternLocal(s, SocketAddr(from.ip, port));
    IndexedAdvertise(s1, s1.peers.Keys, id, motd, 0, env);
  }

  /** Every event keeps the game index, and never rebinds an id. */
  lemma IndexedStep(s: State, e: Event, env: Env)
    requires Indexed(s)
    ensures Indexed(Handle(s, e, env).state) && KeepsIds(s, Handle(s, e, env).state)
  {
    var t := Handle(s, e, env).state;
    match e {
      case AddPeer(p) =>
        forall q, r | q in t.peers && r in t.peers[q].games ensures Owns(t, q, r) { assert Owns(s, q, r); }
      case AddLocalGame(from, port, motd) => IndexedLocalGame(s, from, port, motd, env);
      case RemoveGameListener(id) => if id in s.games && s.games[id].Remote? { IndexedReap(s, id, env); }
      case RemovePeer(p) => IndexedRemovePeers(s, {p});
      case AcceptGameConnection(g) => AcceptTouches(s, g, env); IndexedTouches(s, t);
      case AddGameConnection(p, c, _, tx) => AddConnectionTouches(s, p, c, tx, env); IndexedTouches(s, t);
      case Recv(from, m) =>
        if m.RelayGame? { IndexedGame(s, from, m.id, m.motd, m.hops, env); }
        else { MessageTouches(s, from, m, env); IndexedTouches(s, t); }
    }
  }

  /** The game index of every reachable state. */
  lemma {:induction false} IndexedRun(s: State, inputs: seq<Input>)
    requires Indexed(s)
    ensures Indexed(Run(s, inputs)) && KeepsIds(s, Run(s, inputs))
    decreases |inputs|
  {
    if inputs != [] {
      IndexedStep(s, inputs[0].event, inputs[0].env);
      var t := Handle(s, inputs[0].event, inputs[0].env).state;
      IndexedRun(t, inputs[1..]);
      KeepsIdsRun(s, t, Run(s, inputs));
    }
  }

  lemma KeepsIdsRun(s: State, t: State, u: State)
    requires Indexed(s) && KeepsIds(s, t) && KeepsIds(t, u)
    ensures KeepsIds(s, u)
  {}

  /** From an empty relay: the index is a bijection, and the branch for a non-remote game is dead. */
  lemma GameIndexAgreement(port: nat, inputs: seq<Input>)
    ensures var s := Run(Init(port), inputs);
            && Indexed(s)
            && (forall p, q, r, k | p in s.peers && q in s.peers && r in s.peers[p].games && k in s.peers[q].games
                  && s.peers[p].games[r] == s.peers[q].games[k] :: p == q && r == k)
            && (forall from, rid, env :: from in s.peers ==> AddGame(s, from, rid, env).1.Some?)
  {
    IndexedRun(Init(port), inputs);
    var s := Run(Init(port), inputs);
    forall p, q, r, k | p in s.peers && q in s.peers && r in s.peers[p].games && k in s.peers[q].games
                        && s.peers[p].games[r] == s.peers[q].games[k]
      ensures p == q && r == k
    {
      assert Owns(s, p, r) && Owns(s, q, k);
    }
    forall from, rid, env | from in s.peers ensures AddGame(s, from, rid, env).1.Some? {
      IndexedAddGame(s, from, rid, env);
    }
  }
}
