/** The two ends of a relayed connection point at each other. */
module Pairing {
  import opened Basics
  import opened RelayTypes
  import opened RelayModel
  import opened Tables

  ghost predicate Linked(s: State, p: PeerId, c: ConnectionId, q: PeerId, d: ConnectionId) {
    p in s.peers && c in s.peers[p].relayed && s.peers[p].relayed[c] == RelayedConnection(q, d)
  }

  /** Between peers that are both present, relayed entries come in mutually inverse pairs. */
  ghost predicate Paired(s: State) {
    forall p, c, q, d :: Linked(s, p, c, q, d) && q in s.peers ==> Linked(s, q, d, p, c)
  }

  ghost predicate Forwards(s: State, from: PeerId, g: GameId, cid: nat, hops: nat, env: Env) {
    && g in s.games && s.games[g].Remote?
    && hops < MAX_FORWARDING_HOPS
    && from in s.peers && ConnectionId(cid, false) !in s.peers[from].relayed
    && s.games[g].peer in s.peers && s.games[g].peer !in env.failing
  }

  /** The tables after a Connect from `from` under id `c` was forwarded to `to`. */
  function Bridged(s: State, from: PeerId, c: ConnectionId, to: PeerId): State
    requires from in s.peers && to in s.peers
  {
    var s1 := Allocate(s, from, c, to);
    var fp := s1.peers[from];
    s1.(peers := s1.peers[from := fp.(relayed := fp.relayed[c := RelayedConnection(to, s.peers[to].next)])])
  }

  /** The id about to be allocated towards `to` is not in use by another present peer. */
  ghost predicate FreeId(s: State, to: PeerId)
    requires to in s.peers
  {
    var d := s.peers[to].next;
    d in s.peers[to].relayed ==>
      s.peers[to].relayed[d] == RelayedConnection(to, d) || s.peers[to].relayed[d].peer !in s.peers
  }

  /** The condition a caller can check before an event: no collision of ids, and no stale link to a new peer. */
  ghost predicate NoCollision(s: State, e: Event, env: Env) {
    match e
    case AddPeer(p) => forall q, c, d :: q != p ==> !Linked(s, q, c, p, d)
    case Recv(from, RelayConnect(g, cid, hops)) =>
      Forwards(s, from, g, cid, hops, env) ==> FreeId(s, s.games[g].peer)
    case _ => true
  }

  /** The relayed tables of `t` are those of `s`. */
  ghost predicate SameRelayed(s: State, t: State) {
    t.peers.Keys == s.peers.Keys && forall p :: p in s.peers ==> t.peers[p].relayed == s.peers[p].relayed
  }

  lemma PairedSame(s: State, t: State)
    requires Paired(s) && SameRelayed(s, t)
    ensures Paired(t)
  {
    forall p, c, q, d | Linked(t, p, c, q, d) && q in t.peers ensures Linked(t, q, d, p, c) {
      assert Linked(s, p, c, q, d);
      assert Linked(s, q, d, p, c);
    }
  }

  lemma PairedRemove(s: State, gone: set<PeerId>)
    requires Paired(s)
    ensures Paired(RemovePeers(s, gone))
  {
    var t := RemovePeers(s, gone);
    forall p, c, q, d | Linked(t, p, c, q, d) && q in t.peers ensures Linked(t, q, d, p, c) {
      assert Linked(s, p, c, q, d);
      assert Linked(s, q, d, p, c);
    }
  }

  lemma PairedAddPeer(s: State, p: PeerId, env: Env)
    requires Paired(s)
    ensures Paired(Handle(s, AddPeer(p), env).state) <==> NoCollision(s, AddPeer(p), env)
  {
    var t := Handle(s, AddPeer(p), env).state;
    if NoCollision(s, AddPeer(p), env) {
      forall q, c, x, d | Linked(t, q, c, x, d) && x in t.peers ensures Linked(t, x, d, q, c) {
        assert Linked(s, q, c, x, d);
        assert Linked(s, x, d, q, c);
      }
    } else {
      var q, c, d :| q != p && Linked(s, q, c, p, d);
      assert Linked(t, q, c, p, d) && !Linked(t, p, d, q, c);
    }
  }

  lemma PairedClose(s: State, from: PeerId, c: ConnectionId)
    requires Paired(s)
    ensures Paired(HandleClose(s, from, c).state)
  {
    var t := HandleClose(s, from, c).state;
    if from in s.peers && c in s.peers[from].relayed {
      assert Linked(s, from, c, s.peers[from].relayed[c].peer, s.peers[from].relayed[c].conn);
    }
    forall p, e, q, d | Linked(t, p, e, q, d) && q in t.peers ensures Linked(t, q, d, p, e) {
      assert Linked(s, p, e, q, d);
      assert Linked(s, q, d, p, e);
    }
  }

  /** A forwarded Connect that is sent links both ends, and keeps all pairs exactly when its id was free. */
  lemma PairedForward(s: State, from: PeerId, g: GameId, cid: nat, hops: nat, env: Env)
    requires Paired(s) && Forwards(s, from, g, cid, hops, env)
    ensures var to := s.games[g].peer;
            var t := HandleConnect(s, from, g, cid, hops, env).state;
            && Linked(t, from, ConnectionId(cid, false), to, s.peers[to].next)
            && Linked(t, to, s.peers[to].next, from, ConnectionId(cid, false))
            && (Paired(t) <==> FreeId(s, to))
  {
    var to := s.games[g].peer;
    var c, d := ConnectionId(cid, false), s.peers[to].next;
    var t := HandleConnect(s, from, g, cid, hops, env).state;
    if FreeId(s, to) {
      forall p: PeerId, e, q: PeerId, f | Linked(t, p, e, q, f) && q in t.peers ensures Linked(t, q, f, p, e) {
        if (p, e) != (to, d) && (p, e) != (from, c) {
          assert Linked(s, p, e, q, f);
          assert Linked(s, q, f, p, e);
        }
      }
    } else {
      var x, e := s.peers[to].relayed[d].peer, s.peers[to].relayed[d].conn;
      assert Linked(s, to, d, x, e);
      assert Linked(s, x, e, to, d);
      assert Linked(t, x, e, to, d) && !Linked(t, to, d, x, e);
    }
  }

  lemma PairedConnect(s: State, from: PeerId, g: GameId, cid: nat, hops: nat, env: Env)
    requires Paired(s)
    ensures Paired(HandleConnect(s, from, g, cid, hops, env).state)
       <==> NoCollision(s, Recv(from, RelayConnect(g, cid, hops)), env)
  {
    var t := HandleConnect(s, from, g, cid, hops, env).state;
    if Forwards(s, from, g, cid, hops, env) {
      PairedForward(s, from, g, cid, hops, env);
    } else if t != s {
      var to := s.games[g].peer;
      assert t == RemovePeers(s, {to}) by {
        var s1 := Allocate(s, from, ConnectionId(cid, false), to);
        assert GamesOf(s1, {to}) == GamesOf(s, {to});
        assert s1.peers - {to} == s.peers - {to};
      }
      PairedRemove(s, {to});
    }
  }

  lemma PairedData(s: State, from: PeerId, c: ConnectionId, data: Bytes, env: Env)
    requires Paired(s)
    ensures Paired(HandleData(s, from, c, data, env).state)
  {
    var t := HandleData(s, from, c, data, env).state;
    if t == s || c in s.peers[from].locals {
      PairedSame(s, t);
    } else {
      PairedRemove(s, {s.peers[from].relayed[c].peer});
    }
  }

  lemma PairedLocals(s: State, p: PeerId, c: ConnectionId, tx: Tx, env: Env)
    requires Paired(s)
    ensures Paired(HandleAddGameConnection(s, p, c, tx, env).state)
  {
    if p in s.peers {
      var s1 := s.(peers := s.peers[p := s.peers[p].(locals := s.peers[p].locals[c := tx])]);
      PairedSame(s, s1);
      PairedRemove(s1, {p});
    }
  }

  lemma AddGameRelayed(s: State, from: PeerId, rid: GameId, env: Env)
    ensures SameRelayed(s, AddGame(s, from, rid, env).0)
  {
    if from in s.peers {
      var (s1, id) := InternRemote(s, from, rid);
      assert SameRelayed(s, s1);
      if s1.games[id].Remote? { RenewPeers(s1, id, env); }
    }
  }

  lemma PairedGame(s: State, from: PeerId, m: RelayMessage, env: Env)
    requires Paired(s) && m.RelayGame?
    ensures Paired(HandleMessage(s, from, m, env).state)
  {
    var s1 := AddGame(s, from, m.id, env).0;
    AddGameRelayed(s, from, m.id, env);
    PairedSame(s, s1);
    PairedRemove(s1, (s1.peers.Keys - {from}) * s1.peers.Keys * env.failing);
  }

  lemma PairedLocalGame(s: State, from: SocketAddr, port: nat, motd: Bytes, env: Env)
    requires Paired(s)
    ensures Paired(HandleLocalGame(s, from, port, motd, env).state)
  {
    var s1 := InternLocal(s, SocketAddr(from.ip, port)).0;
    PairedSame(s, s1);
    PairedRemove(s1, s1.peers.Keys * s1.peers.Keys * env.failing);
  }

  /** Every event keeps the pairing if, and only if, it causes no collision. */
  lemma PairedStep(s: State, e: Event, env: Env)
    requires Paired(s)
    ensures Paired(Handle(s, e, env).state) <==> NoCollision(s, e, env)
  {
    var t := Handle(s, e, env).state;
    match e {
      case AddPeer(p) => PairedAddPeer(s, p, env);
      case AddLocalGame(from, port, motd) => PairedLocalGame(s, from, port, motd, env);
      case RemoveGameListener(id) => PairedSame(s, t);
      case RemovePeer(p) => PairedRemove(s, {p});
      case AcceptGameConnection(g) => PairedSame(s, t);
      case AddGameConnection(p, c, _, tx) => PairedLocals(s, p, c, tx, env);
      case Recv(from, m) =>
        match m {
          case NoInner =>
          case RelayGame(_, _, _) => PairedGame(s, from, m, env);
          case RelayConnect(g, cid, hops) => PairedConnect(s, from, g, cid, hops, env);
          case RelayData(cid, local, data) => PairedData(s, from, ConnectionId(cid, local), data, env);
          case RelayClose(cid, local) => PairedClose(s, from, ConnectionId(cid, local));
        }
    }
  }

  ghost predicate CollisionFree(s: State, inputs: seq<Input>)
    decreases |inputs|
  {
    inputs == [] ||
    (NoCollision(s, inputs[0].event, inputs[0].env)
     && CollisionFree(Handle(s, inputs[0].event, inputs[0].env).state, inputs[1..]))
  }

  /** Every prefix of a run is paired exactly when the run is free of collisions. */
  lemma {:induction false} PairedRun(s: State, inputs: seq<Input>)
    requires Paired(s)
    ensures CollisionFree(s, inputs) <==> forall k | 0 <= k <= |inputs| :: Paired(Run(s, inputs[..k]))
    decreases |inputs|
  {
    if inputs != [] {
      var t := Handle(s, inputs[0].event, inputs[0].env).state;
      PairedStep(s, inputs[0].event, inputs[0].env);
      RunPrefixes(s, inputs);
      if Paired(t) {
        PairedRun(t, inputs[1..]);
        if CollisionFree(s, inputs) {
          forall k | 0 <= k <= |inputs| ensures Paired(Run(s, inputs[..k])) {
            if k > 0 { assert Paired(Run(t, inputs[1..][..k - 1])); }
          }
        } else {
          var k :| 0 <= k <= |inputs[1..]| && !Paired(Run(t, inputs[1..][..k]));
          assert !Paired(Run(s, inputs[..k + 1]));
        }
      } else {
        assert !Paired(Run(s, inputs[..1]));
      }
    }
  }

  /** Circuit pairing of one relay, over all its runs. */
  lemma CircuitPairing(port: nat, inputs: seq<Input>)
    ensures CollisionFree(Init(port), inputs)
       <==> forall k | 0 <= k <= |inputs| :: Paired(Run(Init(port), inputs[..k]))
  {
    PairedRun(Init(port), inputs);
  }

  /**
   A run that fails: a Connect of peer 2 went to peer 1 under id 0, and then a Connect of peer 1 goes to peer 2
   under id 0.
   */
  lemma PairingBroken() returns (inputs: seq<Input>)
    ensures !Paired(Run(Init(0), inputs)) && !CollisionFree(Init(0), inputs)
  {
    var env := Env({}, {}, None, {}, 0);
    var start := [Input(AddPeer(1), env)] + [Input(AddPeer(2), env)]
               + [Input(Recv(1, RelayGame(0, [], 2)), env)] + [Input(Recv(2, RelayGame(0, [], 2)), env)];
    var there, back := Input(Recv(2, RelayConnect(0, 0, 0)), env), Input(Recv(1, RelayConnect(1, 5, 0)), env);
    inputs := start + [there] + [back];
    TwoOwners(env, start);
    RunAppend(Init(0), start, there);
    RunAppend(Init(0), start + [there], back);
    var t := Run(Init(0), inputs);
    assert Linked(t, 1, ConnectionId(0, false), 2, ConnectionId(0, false));
    assert !Linked(t, 2, ConnectionId(0, false), 1, ConnectionId(0, false));
    if CollisionFree(Init(0), inputs) {
      CircuitPairing(0, inputs);
      assert inputs[..|inputs|] == inputs;
    }
  }

  lemma TwoOwners(env: Env, start: seq<Input>)
    requires env == Env({}, {}, None, {}, 0)
    requires start == [Input(AddPeer(1), env)] + [Input(AddPeer(2), env)]
                    + [Input(Recv(1, RelayGame(0, [], 2)), env)] + [Input(Recv(2, RelayGame(0, [], 2)), env)]
    ensures var s := Run(Init(0), start);
            && {1, 2} <= s.peers.Keys && {0, 1} <= s.games.Keys
            && s.games[0] == Remote(1, 0, None) && s.games[1] == Remote(2, 0, None)
            && forall p :: p in s.peers ==> s.peers[p].relayed == map[] && s.peers[p].next == ConnectionId(0, false)
  {
    var i0, i1 := Input(AddPeer(1), env), Input(AddPeer(2), env);
    var i2, i3 := Input(Recv(1, RelayGame(0, [], 2)), env), Input(Recv(2, RelayGame(0, [], 2)), env);
    assert [] + [i0] == [i0] && Run(Init(0), []) == Init(0);
    RunAppend(Init(0), [], i0);
    RunAppend(Init(0), [i0], i1);
    RunAppend(Init(0), [i0] + [i1], i2);
    RunAppend(Init(0), [i0] + [i1] + [i2], i3);
  }
}
