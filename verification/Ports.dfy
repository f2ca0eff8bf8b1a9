/** The set of listener ports agrees with the listeners recorded in the game table. */
module Ports {
  import opened Basics
  import opened RelayTypes
  import opened RelayModel
  import opened Tables

  ghost predicate Listens(s: State, g: GameId) {
    g in s.games && s.games[g].Remote? && s.games[g].listener.Some?
  }

  function PortOf(s: State, g: GameId): nat
    requires Listens(s, g)
  {
    s.games[g].listener.value.addr.port
  }

  /** No port is leaked: each belongs to a recorded listener. */
  ghost predicate NoLeak(s: State) {
    forall x :: x in s.ports ==> exists g :: Listens(s, g) && PortOf(s, g) == x
  }

  /** The set of ports and the set of ports of recorded listeners are equal. */
  ghost predicate SetsEqual(s: State) {
    NoLeak(s) && forall g :: Listens(s, g) ==> PortOf(s, g) in s.ports
  }

  /** No two recorded listeners have the same port. */
  ghost predicate PortsDiffer(s: State) {
    forall g, h :: Listens(s, g) && Listens(s, h) && PortOf(s, g) == PortOf(s, h) ==> g == h
  }

  /** The two sets are equal, and will stay so when a listener goes: no port has two listeners. */
  ghost predicate PortsExact(s: State) {
    SetsEqual(s) && PortsDiffer(s)
  }

  lemma SetsEqualMeans(s: State)
    ensures SetsEqual(s) <==> s.ports == PortsOf(s, s.games.Keys)
  {
    var all := PortsOf(s, s.games.Keys);
    forall x ensures x in all <==> exists g :: Listens(s, g) && PortOf(s, g) == x {
      if g :| Listens(s, g) && PortOf(s, g) == x { assert g in s.games.Keys; }
      if x in all {
        var g :| g in s.games && s.games[g].Remote? && s.games[g].listener.Some?
            && s.games[g].listener.value.addr.port == x;
        assert Listens(s, g);
      }
    }
  }

  /** The port a bind would yield now is not the port of a recorded listener. */
  ghost predicate FreshRenew(s: State, id: GameId, env: Env)
    requires id in s.games && s.games[id].Remote?
  {
    var t := ReapListener(s, id, env);
    t.games[id].listener.None? && env.bind.Some? ==> env.bind.value.addr.port !in t.ports
  }

  ghost predicate FreshBind(s: State, e: Event, env: Env) {
    e.Recv? && e.message.RelayGame? && e.peer in s.peers ==>
      var (s1, id) := InternRemote(s, e.peer, e.message.id);
      s1.games[id].Remote? ==> FreshRenew(s1, id, env)
  }

  ghost predicate FreshRun(s: State, inputs: seq<Input>)
    decreases |inputs|
  {
    inputs == [] ||
    (FreshBind(s, inputs[0].event, inputs[0].env)
     && FreshRun(Handle(s, inputs[0].event, inputs[0].env).state, inputs[1..]))
  }

  /** Games, listeners and ports of `t` are those of `s`, up to games without a listener. */
  ghost predicate SameListeners(s: State, t: State) {
    && t.ports == s.ports
    && (forall g :: Listens(s, g) <==> Listens(t, g))
    && (forall g :: Listens(s, g) && Listens(t, g) ==> PortOf(t, g) == PortOf(s, g))
  }

  lemma SameListenersKeeps(s: State, t: State)
    requires SameListeners(s, t)
    ensures NoLeak(s) ==> NoLeak(t)
    ensures PortsExact(s) ==> PortsExact(t)
  {
    if NoLeak(s) {
      forall x | x in t.ports ensures exists g :: Listens(t, g) && PortOf(t, g) == x {
        var g :| Listens(s, g) && PortOf(s, g) == x;
        assert Listens(t, g);
      }
    }
  }

  lemma RemovePeersKeeps(s: State, gone: set<PeerId>)
    ensures NoLeak(s) ==> NoLeak(RemovePeers(s, gone))
    ensures PortsExact(s) ==> PortsExact(RemovePeers(s, gone))
  {
    var t := RemovePeers(s, gone);
    var ids := GamesOf(s, gone);
    assert forall g :: Listens(s, g) && g in ids ==> PortOf(s, g) in PortsOf(s, ids);
    if NoLeak(s) {
      forall x | x in t.ports ensures exists g :: Listens(t, g) && PortOf(t, g) == x {
        var g :| Listens(s, g) && PortOf(s, g) == x;
        assert Listens(t, g) && PortOf(t, g) == x;
      }
    }
    if PortsExact(s) {
      forall g | Listens(t, g) ensures PortOf(t, g) in t.ports {
        assert Listens(s, g);
      }
      assert forall g :: Listens(t, g) ==> Listens(s, g) && PortOf(s, g) == PortOf(t, g);
    }
  }

  lemma ReapKeeps(s: State, id: GameId, env: Env)
    requires id in s.games && s.games[id].Remote?
    ensures NoLeak(s) ==> NoLeak(ReapListener(s, id, env))
    ensures PortsExact(s) ==> PortsExact(ReapListener(s, id, env))
  {
    var t := ReapListener(s, id, env);
    assert forall g :: g != id ==> (Listens(t, g) <==> Listens(s, g));
    if NoLeak(s) {
      forall x | x in t.ports ensures exists g :: Listens(t, g) && PortOf(t, g) == x {
        var g :| Listens(s, g) && PortOf(s, g) == x;
        assert Listens(t, g) && PortOf(t, g) == x;
      }
    }
    if PortsExact(s) {
      forall g | Listens(t, g) ensures Listens(s, g) && PortOf(s, g) == PortOf(t, g) && PortOf(t, g) in t.ports {
        if g != id && Listens(s, id) { assert PortOf(s, g) != PortOf(s, id); }
      }
    }
  }

  /** Reaping a dead listener keeps the two sets equal if, and only if, no listener that stays has its port. */
  lemma ReapExact(s: State, id: GameId, env: Env)
    requires SetsEqual(s) && Listens(s, id) && s.games[id].listener.value.handle !in env.openListeners
    ensures SetsEqual(ReapListener(s, id, env)) <==>
              forall h :: h != id && Listens(s, h) ==> PortOf(s, h) != PortOf(s, id)
  {
    ReapKeeps(s, id, env);
    var t := ReapListener(s, id, env);
    assert forall g :: g != id ==> (Listens(t, g) <==> Listens(s, g));
    if h :| h != id && Listens(s, h) && PortOf(s, h) == PortOf(s, id) {
      assert Listens(t, h) && PortOf(t, h) !in t.ports;
    }
  }

  /** Binding keeps ports equal and different if, and only if, the new port is not recorded already. */
  lemma RenewExact(s: State, id: GameId, env: Env)
    requires id in s.games && s.games[id].Remote?
    ensures NoLeak(s) ==> NoLeak(RenewListener(s, id, env))
    ensures PortsExact(s) ==> (PortsExact(RenewListener(s, id, env)) <==> FreshRenew(s, id, env))
  {
    ReapKeeps(s, id, env);
    var s1 := ReapListener(s, id, env);
    var t := RenewListener(s, id, env);
    if t != s1 {
      var x := env.bind.value.addr.port;
      assert Listens(t, id) && PortOf(t, id) == x;
      assert forall g :: g != id ==> (Listens(t, g) <==> Listens(s1, g));
      if NoLeak(s) {
        forall y | y in t.ports ensures exists g :: Listens(t, g) && PortOf(t, g) == y {
          if y != x {
            var g :| Listens(s1, g) && PortOf(s1, g) == y;
            assert Listens(t, g);
          }
        }
      }
      if PortsExact(s) && x in s1.ports {
        var g :| Listens(s1, g) && PortOf(s1, g) == x;
        assert Listens(t, g) && g != id;
      }
    }
  }

  lemma TouchesKeeps(s: State, t: State)
    requires TouchesConnections(s, t)
    ensures NoLeak(s) ==> NoLeak(t)
    ensures PortsExact(s) ==> PortsExact(t)
  {
    var mid, gone :| SameGames(s, mid) && t == RemovePeers(mid, gone);
    SameListenersKeeps(s, mid);
    RemovePeersKeeps(mid, gone);
  }

  lemma LocalGameKeeps(s: State, from: SocketAddr, port: nat, motd: Bytes, env: Env)
    requires Indexed(s)
    ensures NoLeak(s) ==> NoLeak(HandleLocalGame(s, from, port, motd, env).state)
    ensures PortsExact(s) ==> PortsExact(HandleLocalGame(s, from, port, motd, env).state)
  {
    var s1 := InternLocal(s, SocketAddr(from.ip, port)).0;
    SameListenersKeeps(s, s1);
    RemovePeersKeeps(s1, s1.peers.Keys * s1.peers.Keys * env.failing);
  }

  lemma GameKeeps(s: State, from: PeerId, m: RelayMessage, env: Env)
    requires Indexed(s) && m.RelayGame?
    ensures NoLeak(s) ==> NoLeak(HandleMessage(s, from, m, env).state)
    ensures PortsExact(s) && FreshBind(s, Recv(from, m), env) ==> PortsExact(HandleMessage(s, from, m, env).state)
  {
    hide NoLeak, PortsExact, RemovePeers, RenewListener, SameListeners;
    if from in s.peers {
      IndexedAddGame(s, from, m.id, env);
      var (s1, id) := InternRemote(s, from, m.id);
      InternKeeps(s, from, m.id);
      RenewExact(s1, id, env);
      var s2 := RenewListener(s1, id, env);
      RemovePeersKeeps(s2, (s2.peers.Keys - {from}) * s2.peers.Keys * env.failing);
    }
  }

  lemma InternKeeps(s: State, from: PeerId, rid: GameId)
    requires Indexed(s) && from in s.peers
    ensures var (s1, id) := InternRemote(s, from, rid);
            id in s1.games && s1.games[id].Remote? && s1.games[id].peer == from
            && (NoLeak(s) ==> NoLeak(s1)) && (PortsExact(s) ==> PortsExact(s1))
  {
    var (s1, id) := InternRemote(s, from, rid);
    if rid in s.peers[from].games { assert Owns(s, from, rid); }
    assert SameListeners(s, s1);
    SameListenersKeeps(s, s1);
  }

  /** Two listeners on one port stay one too many, even if the owner of one of them is dropped. */
  lemma ClashStays(t: State, id: GameId, h: GameId, gone: set<PeerId>)
    requires Listens(t, id) && Listens(t, h) && id != h && PortOf(t, id) == PortOf(t, h) && id !in GamesOf(t, gone)
    ensures !PortsExact(RemovePeers(t, gone))
  {
    var u, ids := RemovePeers(t, gone), GamesOf(t, gone);
    assert Listens(u, id) && PortOf(u, id) == PortOf(t, id);
    if h in ids {
      assert PortOf(t, h) in PortsOf(t, ids);
    } else {
      assert Listens(u, h) && PortOf(u, h) == PortOf(t, h);
    }
  }

  /** A bind to a recorded port leaves two listeners on it. */
  lemma RenewClash(s: State, id: GameId, env: Env) returns (h: GameId)
    requires id in s.games && s.games[id].Remote? && PortsExact(s) && !FreshRenew(s, id, env)
    ensures var t := RenewListener(s, id, env);
            Listens(t, id) && Listens(t, h) && id != h && PortOf(t, id) == PortOf(t, h)
  {
    ReapKeeps(s, id, env);
    var s1 := ReapListener(s, id, env);
    h :| Listens(s1, h) && PortOf(s1, h) == env.bind.value.addr.port;
    var t := RenewListener(s, id, env);
    assert t.games[h] == s1.games[h];
  }

  lemma GameClash(s: State, from: PeerId, m: RelayMessage, env: Env)
    requires Indexed(s) && PortsExact(s) && m.RelayGame? && !FreshBind(s, Recv(from, m), env)
    ensures !PortsExact(HandleMessage(s, from, m, env).state)
  {
    hide PortsExact, RemovePeers, RenewListener, GamesOf, NoLeak;
    IndexedAddGame(s, from, m.id, env);
    InternKeeps(s, from, m.id);
    var (s1, id) := InternRemote(s, from, m.id);
    var h := RenewClash(s1, id, env);
    var s2 := RenewListener(s1, id, env);
    var gone := (s2.peers.Keys - {from}) * s2.peers.Keys * env.failing;
    GoneGames(s2, gone);
    ClashStays(s2, id, h, gone);
    NoneGone(s2);
    ClashStays(s2, id, h, {});
    RemoveNone(s2);
  }

  lemma NoneGone(s: State)
    ensures GamesOf(s, {}) == {}
  {}

  /** Every event keeps the port sets equal and the ports different if, and only if, it binds no recorded port. */
  lemma PortsStep(s: State, e: Event, env: Env)
    requires Indexed(s)
    ensures NoLeak(s) ==> NoLeak(Handle(s, e, env).state)
    ensures PortsExact(s) ==> (PortsExact(Handle(s, e, env).state) <==> FreshBind(s, e, env))
  {
    hide NoLeak, PortsExact, FreshBind;
    match e {
      case Recv(from, m) =>
        if m.RelayGame? {
          GameKeeps(s, from, m, env);
          if PortsExact(s) && !FreshBind(s, e, env) { GameClash(s, from, m, env); }
        } else {
          OtherKeeps(s, e, env);
        }
      case _ => OtherKeeps(s, e, env);
    }
  }

  lemma OtherKeeps(s: State, e: Event, env: Env)
    requires Indexed(s) && !(e.Recv? && e.message.RelayGame?)
    ensures NoLeak(s) ==> NoLeak(Handle(s, e, env).state)
    ensures PortsExact(s) ==> PortsExact(Handle(s, e, env).state)
    ensures FreshBind(s, e, env)
  {
    hide NoLeak, PortsExact;
    var t := Handle(s, e, env).state;
    match e {
      case AddPeer(p) => SameListenersKeeps(s, t);
      case AddLocalGame(from, port, motd) => LocalGameKeeps(s, from, port, motd, env);
      case RemoveGameListener(id) => if id in s.games && s.games[id].Remote? { ReapKeeps(s, id, env); }
      case RemovePeer(p) => RemovePeersKeeps(s, {p});
      case AcceptGameConnection(g) => AcceptTouches(s, g, env); TouchesKeeps(s, t);
      case AddGameConnection(p, c, _, tx) => AddConnectionTouches(s, p, c, tx, env); TouchesKeeps(s, t);
      case Recv(from, m) => MessageTouches(s, from, m, env); TouchesKeeps(s, t);
    }
  }

  lemma {:induction false} NoLeakRun(s: State, inputs: seq<Input>)
    requires Indexed(s) && NoLeak(s)
    ensures NoLeak(Run(s, inputs))
    decreases |inputs|
  {
    if inputs != [] {
      IndexedStep(s, inputs[0].event, inputs[0].env);
      PortsStep(s, inputs[0].event, inputs[0].env);
      NoLeakRun(Handle(s, inputs[0].event, inputs[0].env).state, inputs[1..]);
    }
  }

  /** Ports are equal and different at every point of a run exactly when the run binds no recorded port. */
  lemma {:induction false} PortsRun(s: State, inputs: seq<Input>)
    requires Indexed(s) && PortsExact(s)
    ensures FreshRun(s, inputs) <==> forall k | 0 <= k <= |inputs| :: PortsExact(Run(s, inputs[..k]))
    decreases |inputs|
  {
    hide PortsExact, Indexed, FreshBind, Handle;
    if inputs != [] {
      var t := Handle(s, inputs[0].event, inputs[0].env).state;
      IndexedStep(s, inputs[0].event, inputs[0].env);
      PortsStep(s, inputs[0].event, inputs[0].env);
      RunPrefixes(s, inputs);
      if PortsExact(t) {
        PortsRun(t, inputs[1..]);
        if FreshRun(s, inputs) {
          forall k | 0 <= k <= |inputs| ensures PortsExact(Run(s, inputs[..k])) {
            if k > 0 { assert PortsExact(Run(t, inputs[1..][..k - 1])); }
          }
        } else {
          var k :| 0 <= k <= |inputs[1..]| && !PortsExact(Run(t, inputs[1..][..k]));
          assert !PortsExact(Run(s, inputs[..k + 1]));
        }
      } else {
        assert !PortsExact(Run(s, inputs[..1]));
      }
    }
  }

  /**
   In every reachable state no port is leaked; and the recorded ports are, at every point of a run, those of the
   recorded listeners, all different, if and only if the run binds no port that is recorded already.
   */
  lemma PortAgreement(port: nat, inputs: seq<Input>)
    ensures NoLeak(Run(Init(port), inputs))
    ensures FreshRun(Init(port), inputs) <==> forall k | 0 <= k <= |inputs| :: PortsExact(Run(Init(port), inputs[..k]))
  {
    NoLeakRun(Init(port), inputs);
    PortsRun(Init(port), inputs);
  }

  /** However a run goes on from `s`, if it binds no recorded port the two sets stay equal. */
  ghost predicate StaysEqual(s: State) {
    forall more | FreshRun(s, more) :: SetsEqual(Run(s, more))
  }

  /** Why ports must differ: that is what keeps the two sets equal from here on, whatever happens. */
  lemma StaysEqualExactly(s: State)
    requires Indexed(s) && SetsEqual(s)
    ensures PortsExact(s) <==> StaysEqual(s)
  {
    if PortsExact(s) {
      forall more | FreshRun(s, more) ensures SetsEqual(Run(s, more)) {
        PortsRun(s, more);
        assert more[..|more|] == more;
      }
    } else {
      var g, h :| Listens(s, g) && Listens(s, h) && PortOf(s, g) == PortOf(s, h) && g != h;
      var dead := Input(RemoveGameListener(g), Env({}, {}, None, {}, 0));
      var t := Handle(s, dead.event, dead.env).state;
      ReapExact(s, g, dead.env);
      assert [dead][1..] == [] && Run(t, []) == t;
      assert FreshRun(t, []) && FreshRun(s, [dead]) && Run(s, [dead]) == t;
    }
  }

  /**
   The exact condition for the two sets: a run binds no recorded port if, and only if, from each of its points on
   the recorded ports stay those of the recorded listeners, as long as no recorded port is bound.
   */
  lemma SetsEqualExactly(port: nat, inputs: seq<Input>)
    ensures FreshRun(Init(port), inputs) <==> forall k | 0 <= k <= |inputs| :: StaysEqual(Run(Init(port), inputs[..k]))
  {
    hide PortsExact, SetsEqual, Run;
    PortAgreement(port, inputs);
    forall k | 0 <= k <= |inputs|
      ensures PortsExact(Run(Init(port), inputs[..k])) <==> StaysEqual(Run(Init(port), inputs[..k]))
    {
      PointExactly(port, inputs[..k]);
    }
  }

  lemma PointExactly(port: nat, inputs: seq<Input>)
    ensures PortsExact(Run(Init(port), inputs)) <==> StaysEqual(Run(Init(port), inputs))
  {
    var s := Run(Init(port), inputs);
    IndexedRun(Init(port), inputs);
    assert FreshRun(s, []) && Run(s, []) == s;
    if SetsEqual(s) { StaysEqualExactly(s); }
  }

  lemma FreshEnd(port: nat, inputs: seq<Input>)
    requires FreshRun(Init(port), inputs)
    ensures PortsExact(Run(Init(port), inputs))
  {
    PortAgreement(port, inputs);
    assert inputs[..|inputs|] == inputs;
  }

  /** The listener of game 0 is dead but still recorded when game 1 is given its port: two listeners on one port. */
  lemma PortReused() returns (inputs: seq<Input>)
    ensures var t := Run(Init(0), inputs);
            && !FreshRun(Init(0), inputs) && Listens(t, 0) && Listens(t, 1) && PortOf(t, 0) == PortOf(t, 1) == 7
            && SetsEqual(t) && !PortsDiffer(t) && t.games[0].listener.value.handle == 1
            && t.games[1].listener.value.handle == 2
  {
    var one := Env({}, {}, Some(Listener(1, SocketAddr(0, 7))), {}, 0);
    var two := Env({}, {}, Some(Listener(2, SocketAddr(0, 7))), {}, 0);
    var i0, i1 := Input(AddPeer(5), one), Input(Recv(5, RelayGame(0, [], 2)), one);
    var i2 := Input(Recv(5, RelayGame(1, [], 2)), two);
    inputs := [i0] + [i1] + [i2];
    RunAppend(Init(0), [], i0);
    RunAppend(Init(0), [i0], i1);
    RunAppend(Init(0), [i0] + [i1], i2);
    assert [] + [i0] == [i0] && Run(Init(0), []) == Init(0);
    var t := Run(Init(0), inputs);
    assert Listens(t, 0) && Listens(t, 1) && PortOf(t, 0) == PortOf(t, 1) == 7 && t.ports == {7};
    assert !PortsDiffer(t);
    if FreshRun(Init(0), inputs) { FreshEnd(0, inputs); }
  }

  /** The failure that this leads to: the dead listener is reaped, and the live one's port is no longer recorded. */
  lemma PortLost() returns (inputs: seq<Input>)
    ensures var t := Run(Init(0), inputs); Listens(t, 1) && PortOf(t, 1) !in t.ports && !SetsEqual(t)
  {
    var before := PortReused();
    var late := Input(RemoveGameListener(0), Env({}, {2}, None, {}, 0));
    inputs := before + [late];
    RunAppend(Init(0), before, late);
    var s, t := Run(Init(0), before), Run(Init(0), inputs);
    assert t == ReapListener(s, 0, late.env);
    assert Listens(t, 1);
  }

  /** A relay that hears its own advertisement of a recorded listener changes nothing and sends nothing. */
  lemma NoSelfFeedback(port: nat, inputs: seq<Input>, g: GameId, from: SocketAddr, motd: Bytes, env: Env)
    requires FreshRun(Init(port), inputs)
    requires Listens(Run(Init(port), inputs), g)
    requires from.port == Run(Init(port), inputs).discoveryPort
    ensures var s := Run(Init(port), inputs);
            Handle(s, AddLocalGame(from, PortOf(s, g), motd), env) == Quiet(s)
  {
    FreshEnd(port, inputs);
  }

  /** A late RemoveGameListener never unregisters a listener whose keepalive still succeeds. */
  lemma LateRemoval(s: State, g: GameId, env: Env)
    requires Indexed(s) && PortsExact(s) && Listens(s, g)
    ensures var t := Handle(s, RemoveGameListener(g), env).state;
            if s.games[g].listener.value.handle in env.openListeners then t == s
            else !Listens(t, g) && PortOf(s, g) !in t.ports && PortsExact(t)
                 && (forall h :: h != g && Listens(s, h) ==> Listens(t, h) && PortOf(t, h) in t.ports)
  {
    ReapKeeps(s, g, env);
    var t := ReapListener(s, g, env);
    forall h | h != g && Listens(s, h) ensures Listens(t, h) && PortOf(t, h) in t.ports {
      assert Listens(t, h);
    }
  }
}
