/** What each event does to peers and connections, said in terms of what a peer, a client or a host can observe. */
module Handlers {
  import opened Basics
  import opened RelayTypes
  import opened RelayModel
  import opened Tables
  import opened Pairing
  import opened Ports
  import opened Roles
  import opened Receivers

  // ---------------------------------------------------------------- peers

  /** The id that the next connection opened towards peer `p` gets. */
  function NextOf(s: State, p: PeerId): Option<ConnectionId> {
    if p in s.peers then Some(s.peers[p].next) else None
  }

  /** The id under which the relay knows game `r` of peer `p`. */
  function IdOf(s: State, p: PeerId, r: GameId): Option<GameId> {
    if p in s.peers && r in s.peers[p].games then Some(s.peers[p].games[r]) else None
  }

  /** Game `g` was told by one of the given peers. */
  ghost predicate Told(s: State, gone: set<PeerId>, g: GameId) {
    exists p, r :: p in gone && IdOf(s, p, r) == Some(g)
  }

  /** Port `x` is that of a listener for a game told by one of the given peers. */
  ghost predicate TiedUp(s: State, gone: set<PeerId>, x: nat) {
    exists g :: Told(s, gone, g) && Listens(s, g) && PortOf(s, g) == x
  }

  /** Peers and counters stay, but for the given peers. */
  ghost predicate SameCounters(s: State, t: State, gone: set<PeerId>) {
    forall p :: NextOf(t, p) == if p in gone then None else NextOf(s, p)
  }

  ghost predicate SameReceivers(s: State, t: State, gone: set<PeerId>) {
    forall p, c :: Receiver(t, p, c) == if p in gone then None else Receiver(s, p, c)
  }

  /** A link of a dropped peer goes; a link to it, in the table of another, stays. */
  ghost predicate SameLinks(s: State, t: State, gone: set<PeerId>) {
    forall p, c, q, d :: Linked(t, p, c, q, d) <==> p !in gone && Linked(s, p, c, q, d)
  }

  /** Games and ports stay, but for the games that the given peers told and the ports of their listeners. */
  ghost predicate SameAdverts(s: State, t: State, gone: set<PeerId>) {
    && t.nextKey == s.nextKey && t.localGames == s.localGames && t.discoveryPort == s.discoveryPort
    && (forall p, r :: IdOf(t, p, r) == if p in gone then None else IdOf(s, p, r))
    && (forall g :: g in t.games <==> g in s.games && !Told(s, gone, g))
    && (forall g :: g in t.games ==> t.games[g] == s.games[g])
    && (forall x :: x in t.ports <==> x in s.ports && !TiedUp(s, gone, x))
  }

  /** The tables with the given peers dropped, and no other change. */
  ghost predicate Bereft(s: State, t: State, gone: set<PeerId>) {
    SameCounters(s, t, gone) && SameReceivers(s, t, gone) && SameLinks(s, t, gone) && SameAdverts(s, t, gone)
  }

  lemma ToldExact(s: State, gone: set<PeerId>, g: GameId)
    ensures Told(s, gone, g) <==> g in GamesOf(s, gone)
  {
    if p, r :| p in gone && IdOf(s, p, r) == Some(g) {
      assert r in s.peers[p].games && g == s.peers[p].games[r];
    }
    if g in GamesOf(s, gone) {
      var p, r :| p in gone && p in s.peers && r in s.peers[p].games && g == s.peers[p].games[r];
      assert IdOf(s, p, r) == Some(g);
    }
  }

  lemma TiedUpExact(s: State, gone: set<PeerId>, x: nat)
    ensures TiedUp(s, gone, x) <==> x in PortsOf(s, GamesOf(s, gone))
  {
    hide Told, GamesOf;
    var ids := GamesOf(s, gone);
    if g :| Told(s, gone, g) && Listens(s, g) && PortOf(s, g) == x {
      ToldExact(s, gone, g);
      assert g in ids;
    }
    if x in PortsOf(s, ids) {
      var g :| g in ids && g in s.games && s.games[g].Remote? && s.games[g].listener.Some?
               && s.games[g].listener.value.addr.port == x;
      ToldExact(s, gone, g);
      assert Listens(s, g) && PortOf(s, g) == x;
    }
  }

  /** Dropping peers takes their connections, the games they told and the ports of those, and nothing else. */
  lemma RemoveExact(s: State, gone: set<PeerId>)
    ensures Bereft(s, RemovePeers(s, gone), gone)
  {
    var t := RemovePeers(s, gone);
    assert SameAdverts(s, t, gone) by {
      hide Told, TiedUp, GamesOf, PortsOf;
      forall g ensures Told(s, gone, g) <==> g in GamesOf(s, gone) { ToldExact(s, gone, g); }
      forall x ensures TiedUp(s, gone, x) <==> x in PortsOf(s, GamesOf(s, gone)) { TiedUpExact(s, gone, x); }
    }
  }

  /** What a peer had done to it before it is dropped does not matter, as long as its games are the same. */
  lemma GoneAlike(s: State, p: PeerId, was: Peer)
    requires p in s.peers && s.peers[p].games == was.games
    ensures RemovePeers(s.(peers := s.peers[p := was]), {p}) == RemovePeers(s, {p})
  {
    var s1 := s.(peers := s.peers[p := was]);
    forall g ensures g in GamesOf(s1, {p}) <==> g in GamesOf(s, {p}) {
      if r :| r in was.games && g == was.games[r] { assert r in s.peers[p].games && r in s1.peers[p].games; }
    }
    assert s1.peers - {p} == s.peers - {p};
  }

  /** Dropping an absent peer changes nothing. */
  lemma AbsentGone(s: State, p: PeerId)
    requires p !in s.peers
    ensures RemovePeers(s, {p}) == s
  {
    assert GamesOf(s, {p}) == {};
    assert PortsOf(s, {}) == {};
  }

  /** The peers that an event drops. */
  ghost function Dropped(s: State, e: Event, env: Env): (gone: set<PeerId>)
    ensures forall q :: q in gone <==> Drops(s, e, env, q)
  {
    set q | q in s.peers && Drops(s, e, env, q)
  }

  /** A peer starts without games and connections, whatever an earlier connection of it left. */
  lemma AddPeerExact(s: State, p: PeerId, env: Env)
    ensures var o := Handle(s, AddPeer(p), env);
            && o == Quiet(o.state) && SameAdverts(s.(peers := s.peers - {p}), o.state, {})
            && (forall q :: NextOf(o.state, q) == if q == p then Some(ConnectionId(0, false)) else NextOf(s, q))
            && (forall q, c :: Receiver(o.state, q, c) == if q == p then None else Receiver(s, q, c))
            && SameLinks(s, o.state, {p})
  {}

  // ---------------------------------------------------------------- connections

  /** One client more: peer `q` has moved its counter on, and `u` receives under the id it had. */
  ghost predicate Admitted(s: State, t: State, q: PeerId, u: Tx)
    requires q in s.peers
  {
    && SameGames(s, t) && SameLinks(s, t, {})
    && (forall p :: NextOf(t, p) == if p
        == q then Some(ConnectionId(s.peers[q].next.id + 1, s.peers[q].next.local)) else NextOf(s, p))
    && (forall p, c :: Receiver(t, p, c) == if p == q && c == s.peers[q].next then Some(u) else Receiver(s, p, c))
  }

  lemma AcceptTables(s: State, g: GameId, env: Env, q: PeerId)
    requires AcceptsFor(s, g, q)
    ensures Admitted(s, HandleAccept(s, g, env).state, q, env.newHandle)
  {}

  /**
   A client for a game of a present peer takes the next id of that peer and receives under it; it is served if, and
   only if, the Connect is sent, and then under the id in the Connect.
   */
  lemma AcceptExact(s: State, g: GameId, env: Env, q: PeerId)
    ensures var o := HandleAccept(s, g, env);
            && (AcceptsFor(s, g, q) ==> Admitted(s, o.state, q, env.newHandle))
            && ((forall p :: !AcceptsFor(s, g, p)) ==> o == Quiet(s))
            && (q in o.sends <==> AcceptsFor(s, g, q) && q !in env.failing)
            && (q in o.sends <==> o.spawn.Serve? && o.spawn.peer == q)
            && (q in o.sends ==>
                  && o.spawn.conn == s.peers[q].next && Receiver(o.state, q, o.spawn.conn) == Some(env.newHandle)
                  && o.sends[q] == RelayConnect(s.games[g].remoteId, o.spawn.conn.id, 0))
            && !o.spawn.Dial? && o.advertised == None && o.delivered == None
  {
    hide Admitted;
    if AcceptsFor(s, g, q) { AcceptTables(s, g, env, q); }
    if g in s.games && s.games[g].Remote? && s.games[g].peer in s.peers { assert AcceptsFor(s, g, s.games[g].peer); }
  }

  /** All ids that the relay allocates have the local bit clear. */
  ghost predicate CallsOut(s: State) {
    forall p :: p in s.peers ==> !s.peers[p].next.local
  }

  lemma GameCallsOut(s: State, from: PeerId, rid: GameId, env: Env)
    requires CallsOut(s)
    ensures CallsOut(AddGame(s, from, rid, env).0)
  {
    if from in s.peers {
      var (s1, id) := InternRemote(s, from, rid);
      if s1.games[id].Remote? { RenewPeers(s1, id, env); }
    }
  }

  lemma CallsOutStep(s: State, e: Event, env: Env)
    requires CallsOut(s)
    ensures CallsOut(Handle(s, e, env).state)
  {
    if e.Recv? && e.message.RelayGame? { GameCallsOut(s, e.peer, e.message.id, env); }
  }

  lemma {:induction false} CallsOutRun(s: State, inputs: seq<Input>)
    requires CallsOut(s)
    ensures CallsOut(Run(s, inputs))
    decreases |inputs|
  {
    if inputs != [] {
      CallsOutStep(s, inputs[0].event, inputs[0].env);
      CallsOutRun(Handle(s, inputs[0].event, inputs[0].env).state, inputs[1..]);
    }
  }

  /** After any run, the thread that serves a client, its Connect and its entry in the table have the same id. */
  lemma ServedUnderItsId(port: nat, inputs: seq<Input>, g: GameId, env: Env, q: PeerId)
    ensures var o := Handle(Run(Init(port), inputs), AcceptGameConnection(g), env);
            && (q in o.sends <==> o.spawn.Serve? && o.spawn.peer == q)
            && (q in o.sends ==>
                  && o.sends[q].RelayConnect? && o.sends[q].connectionId == o.spawn.conn.id && !o.spawn.conn.local
                  && Receiver(o.state, q, o.spawn.conn) == Some(env.newHandle))
  {
    CallsOutRun(Init(port), inputs);
    AcceptExact(Run(Init(port), inputs), g, env, q);
  }

  /** A host connection receives under its id, and its peer is told with an empty chunk or dropped. */
  lemma AddConnectionExact(s: State, from: PeerId, c: ConnectionId, tx: Tx, env: Env)
    ensures var o := HandleAddGameConnection(s, from, c, tx, env);
            && o == Outcome(o.state, o.sends, NoThread, None, None)
            && o.sends == (if from in s.peers
                           && from !in env.failing then map[from := RelayData(c.id, c.local, [])] else map[])
            && if from in o.sends then
                 && SameGames(s, o.state) && SameCounters(s, o.state, {}) && SameLinks(s, o.state, {})
                 && (forall q, d :: Receiver(o.state, q, d) == if q == from
                     && d == c then Some(tx) else Receiver(s, q, d))
               else Bereft(s, o.state, {from})
  {
    hide Bereft;
    if from in env.failing && from in s.peers {
      GoneAlike(s, from, s.peers[from].(locals := s.peers[from].locals[c := tx]));
      RemoveExact(s, {from});
    } else if from !in s.peers {
      AbsentGone(s, from);
      RemoveExact(s, {from});
    }
  }

  /** A Connect for a local game makes a thread dial the game's address under the Connect's id, and changes nothing. */
  lemma DialExact(s: State, from: PeerId, g: GameId, cid: nat, hops: nat, env: Env, th: Spawn)
    requires th.Dial?
    ensures var o := HandleConnect(s, from, g, cid, hops, env);
            && (o.spawn == th <==>
                  && from in s.peers && g in s.games && s.games[g] == Local(th.addr)
                  && th.peer == from && th.gameId == g && th.conn == ConnectionId(cid, false))
            && (o.spawn == th ==> o.state == s && o.sends == map[])
            && !o.spawn.Serve? && o.advertised == None && o.delivered == None
  {}

  /** Id `c` of `from` and the next id of `to` are linked both ways; the counter of `to` has moved on. */
  ghost predicate Joined(s: State, t: State, from: PeerId, c: ConnectionId, to: PeerId)
    requires to in s.peers
  {
    var d := s.peers[to].next;
    && SameGames(s, t) && SameReceivers(s, t, {})
    && (forall q :: NextOf(t, q) == if q == to then Some(ConnectionId(d.id + 1, d.local)) else NextOf(s, q))
    && (forall p, x, q, y :: Linked(t, p, x, q, y) <==>
          if p == from && x == c then q == to && y == d
          else if p == to && x == d then q == from && y == c
          else Linked(s, p, x, q, y))
  }

  lemma JoinedTables(s: State, from: PeerId, c: ConnectionId, to: PeerId)
    requires from in s.peers && to in s.peers
    ensures Joined(s, Bridged(s, from, c, to), from, c, to)
  {}

  /**
   A Connect for a remote game takes the next id towards the peer that told it, leaves there under that id with one
   more hop, and links the two ids both ways. If that peer refuses it, the peer is dropped.
   */
  lemma ForwardConnectExact(s: State, from: PeerId, g: GameId, cid: nat, hops: nat, env: Env)
    ensures var e := Recv(from, RelayConnect(g, cid, hops));
            var o := Handle(s, e, env);
            && (Forwards(s, from, g, cid, hops, env) ==>
                  var to := s.games[g].peer;
                  && Joined(s, o.state, from, ConnectionId(cid, false), to)
                  && o.sends == map[to := RelayConnect(s.games[g].remoteId, s.peers[to].next.id, hops + 1)])
            && (!Forwards(s, from, g, cid, hops, env) ==> o.sends == map[] && Bereft(s, o.state, Dropped(s, e, env)))
  {
    hide Joined, Bereft;
    var e := Recv(from, RelayConnect(g, cid, hops));
    if Forwards(s, from, g, cid, hops, env) {
      JoinedTables(s, from, ConnectionId(cid, false), s.games[g].peer);
    } else {
      UnsentTables(s, from, g, cid, hops, env);
    }
  }

  lemma UnsentTables(s: State, from: PeerId, g: GameId, cid: nat, hops: nat, env: Env)
    requires !Forwards(s, from, g, cid, hops, env)
    ensures var e := Recv(from, RelayConnect(g, cid, hops)); Bereft(s, Handle(s, e, env).state, Dropped(s, e, env))
  {
    hide Bereft, RemovePeers;
    var e := Recv(from, RelayConnect(g, cid, hops));
    var gone, c := Dropped(s, e, env), ConnectionId(cid, false);
    RemoveExact(s, gone);
    if q :| q in gone {
      assert gone == {q};
      GoneAlike(s, q, Allocate(s, from, c, q).peers[q]);
    } else {
      RemoveNone(s);
      assert gone == {};
      assert g in s.games && s.games[g].Remote? ==> s.games[g].peer !in gone;
    }
  }

  /**
   A chunk goes to the receiver of its id if there is one, else on to the peer that the id is linked to, under the id
   there; nobody else gets anything.
   */
  lemma DataExact(s: State, from: PeerId, cid: nat, local: bool, data: Bytes, env: Env)
    ensures var e, c := Recv(from, RelayData(cid, local, data)), ConnectionId(cid, local);
            var o := Handle(s, e, env);
            && o.delivered == (match Receiver(s, from, c)
                               case Some(t) => if t in env.closed then None else Some(Delivery(t, data))
                               case None => None)
            && (forall q, d: ConnectionId :: q in o.sends && o.sends[q] == RelayData(d.id, d.local, data) <==>
                  Receiver(s, from, c) == None && Linked(s, from, c, q, d) && q in s.peers && q !in env.failing)
            && (forall q :: q in o.sends ==> o.sends[q].RelayData? && o.sends[q].data == data)
            && o.spawn == NoThread && o.advertised == None
  {}

  lemma ClosedTables(s: State, from: PeerId, c: ConnectionId, data: Bytes, env: Env)
    requires Receiver(s, from, c).Some? && Receiver(s, from, c).value in env.closed
    ensures var t := HandleData(s, from, c, data, env).state;
            && SameGames(s, t) && SameCounters(s, t, {}) && SameLinks(s, t, {})
            && (forall q, d :: Receiver(t, q, d) == if q == from && d == c then None else Receiver(s, q, d))
  {}

  /** What a chunk changes: the receiver goes if its channel is closed, and a peer that refuses the chunk is dropped. */
  lemma DataTables(s: State, from: PeerId, cid: nat, local: bool, data: Bytes, env: Env)
    ensures var e, c := Recv(from, RelayData(cid, local, data)), ConnectionId(cid, local);
            var t, gone, u := Handle(s, e, env).state, Dropped(s, e, env), Receiver(s, from, c);
            if u.Some? && u.value in env.closed then
              && SameGames(s, t) && SameCounters(s, t, {}) && SameLinks(s, t, {})
              && (forall q, d :: Receiver(t, q, d) == if q == from && d == c then None else Receiver(s, q, d))
            else Bereft(s, t, gone)
  {
    hide Bereft, SameGames, SameCounters, SameLinks;
    var e, c := Recv(from, RelayData(cid, local, data)), ConnectionId(cid, local);
    var gone, u := Dropped(s, e, env), Receiver(s, from, c);
    if u.Some? && u.value in env.closed {
      hide HandleData;
      ClosedTables(s, from, c, data, env);
    } else {
      RemoveExact(s, gone);
      if gone == {} { RemoveNone(s); } else { assert gone == {s.peers[from].relayed[c].peer}; }
    }
  }

  /** A close takes out the entry it names and the entry paired with it, of either kind, and nothing else. */
  lemma CloseExact(s: State, from: PeerId, c: ConnectionId)
    ensures var o := HandleClose(s, from, c);
            && SameGames(s, o.state) && SameCounters(s, o.state, {}) && o == Quiet(o.state)
            && (forall p, e :: Receiver(o.state, p, e) == if p == from && e == c then None else Receiver(s, p, e))
            && (forall p, e, q, d :: Linked(o.state, p, e, q, d) <==>
                  Linked(s, p, e, q, d) && !(p == from && e == c) && !Linked(s, from, c, p, e))
  {
    if from in s.peers {
      var s1 := Unlink(s, from, c);
      UnlinkLinks(s, from, c);
      if c in s.peers[from].relayed && s.peers[from].relayed[c].peer in s1.peers {
        PairLinks(s1, s.peers[from].relayed[c].peer, s.peers[from].relayed[c].conn);
      }
    }
  }

  lemma UnlinkLinks(s: State, p: PeerId, c: ConnectionId)
    requires p in s.peers
    ensures var t := Unlink(s, p, c);
            && SameGames(s, t) && SameCounters(s, t, {})
            && (forall x, e :: Receiver(t, x, e) == if x == p && e == c then None else Receiver(s, x, e))
            && (forall x, e, q, d :: Linked(t, x, e, q, d) <==> Linked(s, x, e, q, d) && !(x == p && e == c))
  {}

  lemma PairLinks(s: State, p: PeerId, c: ConnectionId)
    requires p in s.peers
    ensures var t := s.(peers := s.peers[p := s.peers[p].(relayed := s.peers[p].relayed - {c})]);
            && SameGames(s, t) && SameCounters(s, t, {})
            && (forall x, e :: Receiver(t, x, e) == Receiver(s, x, e))
            && (forall x, e, q, d :: Linked(t, x, e, q, d) <==> Linked(s, x, e, q, d) && !(x == p && e == c))
  {}
}
