/** Remote games whose owner does not know of them any more. */
module Orphans {
  import opened Basics
  import opened RelayTypes
  import opened RelayModel
  import opened Tables

  /** The owner of game `g` is a peer, whose table holds the game. */
  ghost predicate OwnedAt(s: State, g: GameId)
    requires g in s.games && s.games[g].Remote?
  {
    var p, r := s.games[g].peer, s.games[g].remoteId;
    p in s.peers && r in s.peers[p].games && s.peers[p].games[r] == g
  }

  /** With the index, remote games and the tables of the peers are mutually inverse. */
  ghost predicate Owned(s: State) {
    forall g :: g in s.games && s.games[g].Remote? ==> OwnedAt(s, g)
  }

  /** The event overwrites a peer that has told of games. */
  predicate Overwrites(s: State, e: Event) {
    e.AddPeer? && e.peer in s.peers && s.peers[e.peer].games != map[]
  }

  lemma RemoveOwned(s: State, gone: set<PeerId>)
    requires Owned(s)
    ensures Owned(RemovePeers(s, gone))
    ensures forall g :: g in RemovePeers(s, gone).games && s.games[g].Remote? ==> s.games[g].peer !in gone
  {
    var t := RemovePeers(s, gone);
    forall g | g in t.games && t.games[g].Remote? ensures OwnedAt(t, g) && s.games[g].peer !in gone {
      assert OwnedAt(s, g);
      assert s.games[g].peer in gone ==> g in GamesOf(s, gone);
    }
  }

  lemma SameGamesOwned(s: State, t: State)
    requires Owned(s) && SameGames(s, t)
    ensures Owned(t)
  {
    forall g | g in t.games && t.games[g].Remote? ensures OwnedAt(t, g) { assert OwnedAt(s, g); }
  }

  lemma TouchesOwned(s: State, t: State)
    requires Owned(s) && TouchesConnections(s, t)
    ensures Owned(t)
  {
    var mid, gone :| SameGames(s, mid) && t == RemovePeers(mid, gone);
    SameGamesOwned(s, mid);
    RemoveOwned(mid, gone);
  }

  lemma InternOwned(s: State, from: PeerId, rid: GameId)
    requires Owned(s) && Indexed(s) && from in s.peers
    ensures Owned(InternRemote(s, from, rid).0)
  {
    var (t, id) := InternRemote(s, from, rid);
    if rid in s.peers[from].games { assert Owns(s, from, rid); }
    forall g | g in t.games && t.games[g].Remote? ensures OwnedAt(t, g) {
      if g in s.games { assert OwnedAt(s, g); }
    }
  }

  /** A listener more or less does not matter. */
  lemma ListenerOwned(s: State, t: State)
    requires Owned(s) && t.peers == s.peers && t.games.Keys == s.games.Keys
    requires forall g :: g in s.games ==> OriginOf(t.games[g]) == OriginOf(s.games[g])
    ensures Owned(t)
  {
    forall g | g in t.games && t.games[g].Remote? ensures OwnedAt(t, g) { assert OwnedAt(s, g); }
  }

  lemma GameOwned(s: State, from: PeerId, m: RelayMessage, env: Env)
    requires Owned(s) && Indexed(s) && m.RelayGame?
    ensures Owned(HandleMessage(s, from, m, env).state)
  {
    hide RemovePeers, Owned;
    IndexedAddGame(s, from, m.id, env);
    if from in s.peers {
      var (s0, id) := InternRemote(s, from, m.id);
      InternOwned(s, from, m.id);
      RenewPeers(s0, id, env);
      var s1 := RenewListener(s0, id, env);
      ListenerOwned(s0, s1);
      RemoveOwned(s1, (s1.peers.Keys - {from}) * s1.peers.Keys * env.failing);
    }
  }

  lemma LocalGameOwned(s: State, from: SocketAddr, port: nat, motd: Bytes, env: Env)
    requires Owned(s) && Indexed(s)
    ensures Owned(HandleLocalGame(s, from, port, motd, env).state)
  {
    var s1 := InternLocal(s, SocketAddr(from.ip, port)).0;
    forall g | g in s1.games && s1.games[g].Remote? ensures OwnedAt(s1, g) { assert OwnedAt(s, g); }
    RemoveOwned(s1, s1.peers.Keys * s1.peers.Keys * env.failing);
  }

  lemma AddPeerOwned(s: State, p: PeerId, env: Env)
    requires Owned(s) && Indexed(s)
    ensures Owned(Handle(s, AddPeer(p), env).state) <==> !Overwrites(s, AddPeer(p))
  {
    var t := Handle(s, AddPeer(p), env).state;
    if Overwrites(s, AddPeer(p)) {
      var r :| r in s.peers[p].games;
      assert Owns(s, p, r);
      assert !OwnedAt(t, s.peers[p].games[r]);
    } else {
      forall g | g in t.games && t.games[g].Remote? ensures OwnedAt(t, g) { assert OwnedAt(s, g); }
    }
  }

  /** Every event leaves each remote game in its owner's table, unless it overwrites a peer that has told of games. */
  lemma OwnedStep(s: State, e: Event, env: Env)
    requires Owned(s) && Indexed(s)
    ensures Owned(Handle(s, e, env).state) <==> !Overwrites(s, e)
  {
    hide Owned, TouchesConnections, HandleLocalGame, RemovePeers, HandleAddGameConnection;
    var t := Handle(s, e, env).state;
    match e {
      case AddPeer(p) => AddPeerOwned(s, p, env);
      case AddLocalGame(from, port, motd) => LocalGameOwned(s, from, port, motd, env);
      case RemoveGameListener(id) => ListenerOwned(s, t);
      case RemovePeer(p) => RemoveOwned(s, {p});
      case AcceptGameConnection(g) => AcceptTouches(s, g, env); TouchesOwned(s, t);
      case AddGameConnection(p, c, _, tx) => AddConnectionTouches(s, p, c, tx, env); TouchesOwned(s, t);
      case Recv(from, m) =>
        if m.RelayGame? { GameOwned(s, from, m, env); }
        else { MessageTouches(s, from, m, env); TouchesOwned(s, t); }
    }
  }

  ghost predicate NeverOverwrites(s: State, inputs: seq<Input>)
    decreases |inputs|
  {
    inputs == [] ||
    (!Overwrites(s, inputs[0].event)
     && NeverOverwrites(Handle(s, inputs[0].event, inputs[0].env).state, inputs[1..]))
  }

  lemma {:induction false} OwnedRun(s: State, inputs: seq<Input>)
    requires Owned(s) && Indexed(s)
    ensures NeverOverwrites(s, inputs) <==> forall k | 0 <= k <= |inputs| :: Owned(Run(s, inputs[..k]))
    decreases |inputs|
  {
    hide Owned, Indexed, Overwrites, Handle;
    if inputs != [] {
      var t := Handle(s, inputs[0].event, inputs[0].env).state;
      IndexedStep(s, inputs[0].event, inputs[0].env);
      OwnedStep(s, inputs[0].event, inputs[0].env);
      RunPrefixes(s, inputs);
      if Owned(t) {
        OwnedRun(t, inputs[1..]);
        if NeverOverwrites(s, inputs) {
          forall k | 0 <= k <= |inputs| ensures Owned(Run(s, inputs[..k])) {
            if k > 0 { assert Owned(Run(t, inputs[1..][..k - 1])); }
          }
        } else {
          var k :| 0 <= k <= |inputs[1..]| && !Owned(Run(t, inputs[1..][..k]));
          assert !Owned(Run(s, inputs[..k + 1]));
        }
      } else {
        assert !Owned(Run(s, inputs[..1]));
      }
    }
  }

  /**
   At every point of a run each remote game is in the table of its owner, who is present, if and only if the run
   never adds a peer over one that has told of games; peers may leave and return.
   */
  lemma NoOrphans(port: nat, inputs: seq<Input>)
    ensures NeverOverwrites(Init(port), inputs)
       <==> forall k | 0 <= k <= |inputs| :: Owned(Run(Init(port), inputs[..k]))
  {
    OwnedRun(Init(port), inputs);
  }

  /** Hence with a peer go all its games, whenever it leaves. */
  lemma GoneWithPeer(port: nat, inputs: seq<Input>, p: PeerId, env: Env)
    requires NeverOverwrites(Init(port), inputs)
    ensures var t := Handle(Run(Init(port), inputs), RemovePeer(p), env).state;
            forall g :: g in t.games && t.games[g].Remote? ==> t.games[g].peer != p
  {
    NoOrphans(port, inputs);
    assert inputs[..|inputs|] == inputs;
    RemoveOwned(Run(Init(port), inputs), {p});
  }

  /** A run that fails: a peer that is added over itself leaves a game behind, which stays when the peer is removed. */
  lemma OrphanStays() returns (inputs: seq<Input>)
    ensures var t := Run(Init(0), inputs); 5 !in t.peers && 0 in t.games && t.games[0].Remote? && t.games[0].peer == 5
  {
    var env := Env({}, {}, None, {}, 0);
    var i0, i1, i2 := Input(AddPeer(5), env), Input(Recv(5, RelayGame(0, [], 2)), env), Input(RemovePeer(5), env);
    inputs := [i0] + [i1] + [i0] + [i2];
    RunAppend(Init(0), [], i0);
    RunAppend(Init(0), [i0], i1);
    RunAppend(Init(0), [i0] + [i1], i0);
    RunAppend(Init(0), [i0] + [i1] + [i0], i2);
    assert [] + [i0] == [i0] && Run(Init(0), []) == Init(0);
  }
}
