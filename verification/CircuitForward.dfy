/** Forwarding a Connect extends a circuit by one segment in each direction. */
module CircuitForward {
  import opened RelayTypes
  import opened RelayModel
  import opened Pairing
  import opened Circuits
  import opened CircuitInvariant
  import opened CircuitLoop
  import opened CircuitClaim
  import opened CircuitOpen

  /** The two segments about to be spliced: `k` arrived and is silent, `j` is new. */
  ghost predicate Bridgeable(b: Book, k: Seg, j: Seg) {
    && k in b.origin && b.origin[k] in b.tip && b.tip[b.origin[k]] == k && k in b.feeder && Rev(k) !in b.feeder
    && j !in b.feeder && Rev(j) !in b.feeder && j != Rev(j)
    && (forall x :: x in b.origin ==> x in b.feeder)
    && (forall x :: x !in b.feeder ==> Log(b.fed, x) == [])
    && Log(b.popped, k) == [] && Log(b.popped, Rev(j)) == []
    && k.caller == k.from && j.caller == j.from && Current(b.owner, k) && Current(b.owner, j)
  }

  function Splice(feeder: map<Seg, Feeder>, k: Seg, j: Seg): map<Seg, Feeder> {
    feeder[j := FromSeg(k)][Rev(k) := FromSeg(Rev(j))]
  }

  lemma Distinct(b: Book, k: Seg, j: Seg)
    requires Bridgeable(b, k, j)
    ensures j != k && j != Rev(k) && Rev(j) != k && Rev(j) != Rev(k)
    ensures Grows(b.feeder, Splice(b.feeder, k, j)) && Grows(b.origin, b.origin[j := b.origin[k]])
  {
    assert Rev(Rev(k)) == k && Rev(Rev(j)) == j;
  }

  lemma BridgedCounters(relays: Relays, p: PeerId, from: PeerId, c: ConnectionId, to: PeerId)
    requires Counters(relays) && p in relays && from in relays[p].peers && to in relays[p].peers
    ensures Bumped(relays, relays[p := Bridged(relays[p], from, c, to)], p, to)
  {}

  lemma BridgedEntries(b: Book, p: PeerId, from: PeerId, c: ConnectionId, to: PeerId)
    requires p in b.relays && from in b.relays[p].peers && to in b.relays[p].peers
    requires Pointers(b.relays) && RelayedEntries(b.relays, b.owner, b.feeder, b.fed, b.popped)
    requires Bridgeable(b, Seg(from, p, c, from), Seg(p, to, b.relays[p].peers[to].next, p))
    ensures var feeder := Splice(b.feeder, Seg(from, p, c, from), Seg(p, to, b.relays[p].peers[to].next, p));
            var relays := b.relays[p := Bridged(b.relays[p], from, c, to)];
            Pointers(relays) && RelayedEntries(relays, b.owner, feeder, b.fed, b.popped)
  {
    var d := b.relays[p].peers[to].next;
    var k, j := Seg(from, p, c, from), Seg(p, to, d, p);
    var feeder := Splice(b.feeder, k, j);
    var relays := b.relays[p := Bridged(b.relays[p], from, c, to)];
    Distinct(b, k, j);
    RelayedGrow(b.relays, b.owner, b.feeder, feeder, b.fed, b.popped);
    NewEntries(b, k, j);
    hide Splice, RelayedOk, Bridgeable;
    forall x, y, e | HasRelayed(relays, x, y, e)
      ensures RelayedOk(b.owner, feeder, b.fed, b.popped, At(b.owner, y, x, e), relays[x].peers[y].relayed[e])
           && relays[x].peers[y].relayed[e].peer in relays[x].peers
    {
      if (x, y, e) == (p, from, c) {
        assert relays[x].peers[y].relayed[e] == RelayedConnection(to, d);
      } else if (x, y, e) == (p, to, d) {
        assert relays[x].peers[y].relayed[e] == RelayedConnection(from, c);
      } else {
        assert HasRelayed(b.relays, x, y, e) && relays[x].peers[y].relayed[e] == b.relays[x].peers[y].relayed[e];
        assert RelayedOk(b.owner, feeder, b.fed, b.popped, At(b.owner, y, x, e), b.relays[x].peers[y].relayed[e]);
      }
    }
  }

  /** The two new entries splice the two segments. */
  lemma NewEntries(b: Book, k: Seg, j: Seg)
    requires Bridgeable(b, k, j) && k.to == j.from
    ensures var feeder := Splice(b.feeder, k, j);
            && At(b.owner, k.from, k.to, k.conn) == k && At(b.owner, j.to, j.from, j.conn) == Rev(j)
            && RelayedOk(b.owner, feeder, b.fed, b.popped, k, RelayedConnection(j.to, j.conn))
            && RelayedOk(b.owner, feeder, b.fed, b.popped, Rev(j), RelayedConnection(k.from, k.conn))
  {
    Distinct(b, k, j);
    assert Rev(Rev(j)) == j && Rev(Rev(k)) == k && At(b.owner, k.to, k.from, k.conn) == Rev(k);
  }

  lemma BridgedLocals(b: Book, p: PeerId, from: PeerId, c: ConnectionId, to: PeerId)
    requires p in b.relays && from in b.relays[p].peers && to in b.relays[p].peers
    requires LocalEntries(b.relays, b.owner, b.threads, b.popped)
    ensures LocalEntries(b.relays[p := Bridged(b.relays[p], from, c, to)], b.owner, b.threads, b.popped)
  {
    var relays := b.relays[p := Bridged(b.relays[p], from, c, to)];
    forall x, y, e | HasLocal(relays, x, y, e)
      ensures HasLocal(b.relays, x, y, e) && relays[x].peers[y].locals[e] == b.relays[x].peers[y].locals[e]
    {}
  }

  lemma BridgedIds(b: Book, relays: Relays, k: Seg, j: Seg)
    requires Ids(b.relays, b.feeder, b.origin) && Bridgeable(b, k, j)
    requires Bumped(b.relays, relays, j.from, j.to) && Allocated(relays, j)
    ensures Ids(relays, Splice(b.feeder, k, j), b.origin[j := b.origin[k]])
  {
    Distinct(b, k, j);
    assert Allocated(b.relays, k);
    assert Allocated(relays, Rev(k));
    IdsGrow(b.relays, relays, j.from, j.to, b.feeder, Splice(b.feeder, k, j), b.origin, b.origin[j := b.origin[k]]);
  }

  lemma BridgedEnds(b: Book, k: Seg, j: Seg)
    requires Ends(b.threads, b.feeder, b.origin, b.tip) && Bridgeable(b, k, j)
    ensures Ends(b.threads, Splice(b.feeder, k, j), b.origin[j := b.origin[k]], b.tip[b.origin[k] := j])
  {
    Distinct(b, k, j);
    EndsGrow(b.threads, b.feeder, Splice(b.feeder, k, j), b.origin, b.origin[j := b.origin[k]], b.tip,
             b.tip[b.origin[k] := j]);
  }

  lemma BridgedStreams(b: Book, k: Seg, j: Seg)
    requires Streams(b.origin, b.tip, b.threads, b.fed) && Bridgeable(b, k, j)
    ensures Streams(b.origin[j := b.origin[k]], b.tip[b.origin[k] := j], b.threads, b.fed)
  {
    var origin, tip := b.origin[j := b.origin[k]], b.tip[b.origin[k] := j];
    assert CircuitOk(b.tip, b.threads, b.fed, k, b.origin[k]);
    forall x | x in origin ensures CircuitOk(tip, b.threads, b.fed, x, origin[x]) {
      if x != j { assert CircuitOk(b.tip, b.threads, b.fed, x, b.origin[x]); }
    }
  }

  lemma BridgedTips(b: Book, k: Seg, j: Seg)
    requires Tips(b.feeder, b.origin, b.tip, b.threads) && Bridgeable(b, k, j)
    ensures Tips(Splice(b.feeder, k, j), b.origin[j := b.origin[k]], b.tip[b.origin[k] := j], b.threads)
  {
    var feeder, origin, tip := Splice(b.feeder, k, j), b.origin[j := b.origin[k]], b.tip[b.origin[k] := j];
    Distinct(b, k, j);
    forall u | u in tip
      ensures TipOk(feeder, origin, b.threads, u, tip[u])
           || (u in b.tip && b.tip[u] == tip[u] && (Rev(b.tip[u]) in feeder ==> Rev(b.tip[u]) in b.feeder))
    {
      if u != b.origin[k] {
        assert TipOk(b.feeder, b.origin, b.threads, u, b.tip[u]);
        assert Rev(Rev(b.tip[u])) == b.tip[u];
      }
    }
    TipsGrow(b.feeder, feeder, b.origin, origin, b.tip, tip, b.threads, b.threads);
  }

  lemma BridgedSplices(b: Book, k: Seg, j: Seg)
    requires Splices(b.feeder, b.origin) && Bridgeable(b, k, j)
    ensures Splices(Splice(b.feeder, k, j), b.origin[j := b.origin[k]])
  {
    var feeder, origin := Splice(b.feeder, k, j), b.origin[j := b.origin[k]];
    Distinct(b, k, j);
    assert forall s :: Rev(s) == j ==> s == Rev(j);
    assert Rev(Rev(k)) == k && Rev(Rev(j)) == j;
    SplicesGrow(b.feeder, feeder, b.origin, origin);
  }

  lemma BridgedBook(b: Book, p: PeerId, from: PeerId, c: ConnectionId, to: PeerId)
    requires BookOk(b) && p in b.relays && from in b.relays[p].peers && to in b.relays[p].peers
    requires Ready(b, p, to) && Bridgeable(b, Seg(from, p, c, from), Seg(p, to, b.relays[p].peers[to].next, p))
    ensures BookOk(Spliced(Updated(b, p, Bridged(b.relays[p], from, c, to)), Seg(from, p, c, from),
                           Seg(p, to, b.relays[p].peers[to].next, p)))
  {
    var k, j := Seg(from, p, c, from), Seg(p, to, b.relays[p].peers[to].next, p);
    BridgedCounters(b.relays, p, from, c, to);
    BridgedEntries(b, p, from, c, to);
    BridgedLocals(b, p, from, c, to);
    Distinct(b, k, j);
    FeedsGrow(b.feeder, Splice(b.feeder, k, j), b.fed, b.popped);
    BridgedIds(b, b.relays[p := Bridged(b.relays[p], from, c, to)], k, j);
    BridgedEnds(b, k, j);
    BridgedStreams(b, k, j);
    BridgedTips(b, k, j);
    BridgedSplices(b, k, j);
  }

  lemma BridgedOpen(b: Book, b': Book, k: Seg, j: Seg, l: Link, id: nat)
    requires OpenOk(b, l, id) && Bridgeable(b, k, j) && Seg(l.from, l.to, ConnectionId(id, false), l.from) != k
    requires b'.feeder == Splice(b.feeder, k, j) && b'.origin == b.origin[j := b.origin[k]]
    requires b'.tip == b.tip[b.origin[k] := j]
    requires b'.owner == b.owner
    requires Bumped(b.relays, b'.relays, j.from, j.to)
    ensures OpenOk(b', l, id) && (l == Link(j.from, j.to) ==> id < NextId(b.relays, j.from, j.to))
  {
    var s := Seg(l.from, l.to, ConnectionId(id, false), l.from);
    Distinct(b, k, j);
    assert Rev(s) == j ==> s == Rev(j);
    assert Rev(s) == Rev(k) ==> s == k;
    OpenStays(b, b', l, id);
  }

  lemma BridgedTip(b: Book, b': Book, k: Seg, j: Seg)
    requires Bridgeable(b, k, j) && !j.conn.local && j.conn.id < NextId(b'.relays, j.from, j.to)
    requires b'.feeder == Splice(b.feeder, k, j) && b'.origin == b.origin[j := b.origin[k]]
    requires b'.tip == b.tip[b.origin[k] := j]
    requires b'.owner == b.owner
    ensures OpenOk(b', Link(j.from, j.to), j.conn.id)
  {
    Distinct(b, k, j);
    assert j == Seg(j.from, j.to, ConnectionId(j.conn.id, false), j.from);
  }

  lemma BridgedOpens(n: Net, b': Book, p: PeerId, k: Seg, j: Seg, l: Link, id: nat)
    requires Connects(n) && Log(n.inbox, p) != [] && Bridgeable(n.book, k, j)
    requires n.inbox[p][0].Recv? && n.inbox[p][0].message.RelayConnect?
    requires k == Seg(n.inbox[p][0].peer, p, ConnectionId(n.inbox[p][0].message.connectionId, false),
                      n.inbox[p][0].peer)
    requires b'.feeder == Splice(n.book.feeder, k, j) && b'.origin == n.book.origin[j := n.book.origin[k]]
             && b'.tip == n.book.tip[n.book.origin[k] := j] && b'.owner == n.book.owner
             && Bumped(n.book.relays, b'.relays, j.from, j.to)
    requires id in Opens(n.inbox, n.links, l) && id !in PoppedOpens(p, n.inbox[p][0], l)
    ensures OpenOk(b', l, id) && (l == Link(j.from, j.to) ==> id < NextId(n.book.relays, j.from, j.to))
  {
    hide Connects, OpenOk, Increasing, Bridgeable, Opens, Splice, Bumped;
    assert l == Link(k.from, p) ==> PoppedOpens(p, n.inbox[p][0], l) == [k.conn.id];
    ConnectAt(n, l, id);
    BridgedOpen(n.book, b', k, j, l, id);
  }

  lemma BridgedConnects(n: Net, n': Net, p: PeerId, k: Seg, j: Seg, rid: GameId, hops: nat)
    requires Connects(n) && Log(n.inbox, p) != [] && Bridgeable(n.book, k, j)
    requires n.inbox[p][0].Recv? && n.inbox[p][0].message.RelayConnect?
    requires k == Seg(n.inbox[p][0].peer, p, ConnectionId(n.inbox[p][0].message.connectionId, false),
                      n.inbox[p][0].peer)
    requires n'.inbox == n.inbox[p := n.inbox[p][1..]] && j.from == p
    requires n'.links == PushAll(n.links, p, map[j.to := RelayConnect(rid, j.conn.id, hops)])
    requires var b, b' := n.book, n'.book;
             && b'.feeder == Splice(b.feeder, k, j) && b'.origin == b.origin[j := b.origin[k]]
             && b'.tip == b.tip[b.origin[k] := j] && b'.owner == b.owner && Bumped(b.relays, b'.relays, j.from, j.to)
             && j.conn == ConnectionId(NextId(b.relays, j.from, j.to), false)
    requires k.from != p
    ensures Connects(n')
  {
    hide Connects, OpenOk, Increasing, Bridgeable, Opens, Splice;
    var b, b' := n.book, n'.book;
    BridgedTip(b, b', k, j);
    forall l, id | id in Opens(n.inbox, n.links, l) && id !in PoppedOpens(p, n.inbox[p][0], l)
      ensures OpenOk(b', l, id) && (l == Link(j.from, j.to) ==> id < j.conn.id)
    {
      BridgedOpens(n, b', p, k, j, l, id);
    }
    ConnectsProcess(n, n', p, map[j.to := RelayConnect(rid, j.conn.id, hops)]);
  }

  lemma BridgeReady(n: Net, p: PeerId, from: PeerId, cid: nat, to: PeerId)
    requires BookOk(n.book) && Flow(n) && Connects(n) && Log(n.inbox, p) != []
    requires n.inbox[p][0].Recv? && n.inbox[p][0].peer == from
    requires n.inbox[p][0].message.RelayConnect? && n.inbox[p][0].message.connectionId == cid
    requires Ready(n.book, p, to)
    ensures Bridgeable(n.book, Seg(from, p, ConnectionId(cid, false), from),
                       Seg(p, to, n.book.relays[p].peers[to].next, p))
    ensures from != p && !n.book.relays[p].peers[to].next.local
  {
    hide BookOk, Flow, Connects;
    HeadOpen(n, p, from, cid);
    BridgeFresh(n.book, p, from, cid, to);
    NothingPopped(n, Rev(Seg(p, to, n.book.relays[p].peers[to].next, p)));
  }

  lemma BridgeFresh(b: Book, p: PeerId, from: PeerId, cid: nat, to: PeerId)
    requires BookOk(b) && Ready(b, p, to)
    requires OpenOk(b, Link(from, p), cid)
    ensures var j := Seg(p, to, b.relays[p].peers[to].next, p);
            j !in b.feeder && Rev(j) !in b.feeder && j != Rev(j) && !j.conn.local
    ensures from != p
    ensures (forall x :: x in b.origin ==> x in b.feeder) && (forall x :: x !in b.feeder ==> Log(b.fed, x) == [])
  {
    FreshSeg(b, p, to);
    assert Allocated(b.relays, Seg(from, p, ConnectionId(cid, false), from));
  }

  /** Relay `p` has forwarded the Connect at the head of its mailbox. */
  ghost predicate Forwarded(n: Net, n': Net, p: PeerId, from: PeerId, cid: nat, to: PeerId, rid: GameId, hops: nat) {
    && Log(n.inbox, p) != [] && Ready(n.book, p, to) && from in n.book.relays[p].peers
    && n.inbox[p][0].Recv? && n.inbox[p][0].peer == from
    && n.inbox[p][0].message.RelayConnect? && n.inbox[p][0].message.connectionId == cid
    && var c, d := ConnectionId(cid, false), n.book.relays[p].peers[to].next;
       && n'.inbox == n.inbox[p := n.inbox[p][1..]]
       && n'.links == PushAll(n.links, p, map[to := RelayConnect(rid, d.id, hops)])
       && n'.book == Spliced(Updated(n.book, p, Bridged(n.book.relays[p], from, c, to)), Seg(from, p, c, from),
                             Seg(p, to, d, p))
  }

  lemma ForwardedConnects(n: Net, n': Net, p: PeerId, from: PeerId, cid: nat, to: PeerId, rid: GameId, hops: nat)
    requires Forwarded(n, n', p, from, cid, to, rid, hops) && BookOk(n.book) && Flow(n) && Connects(n)
    ensures Connects(n')
  {
    hide BookOk, Flow, Connects, Bumped, PushAll, Bridgeable, Splice, Spliced, Bridged;
    var c, d := ConnectionId(cid, false), n.book.relays[p].peers[to].next;
    BridgeReady(n, p, from, cid, to);
    BridgedBump(n.book, p, from, c, to);
    SplicedParts(Updated(n.book, p, Bridged(n.book.relays[p], from, c, to)), n.book, Seg(from, p, c, from),
                 Seg(p, to, d, p));
    NextIdAt(n.book, p, to);
    BridgedConnects(n, n', p, Seg(from, p, c, from), Seg(p, to, d, p), rid, hops);
  }

  lemma ForwardedBook(n: Net, n': Net, p: PeerId, from: PeerId, cid: nat, to: PeerId, rid: GameId, hops: nat)
    requires Forwarded(n, n', p, from, cid, to, rid, hops) && BookOk(n.book) && Flow(n) && Connects(n)
    ensures BookOk(n'.book) && n'.book.fed == n.book.fed && n'.book.popped == n.book.popped
    ensures n'.book.owner == n.book.owner && n'.book.threads == n.book.threads
  {
    hide BookOk, Flow, Connects, PushAll, Bridgeable, Bridged;
    BridgeReady(n, p, from, cid, to);
    BridgedBook(n.book, p, from, ConnectionId(cid, false), to);
  }

  lemma BridgedNet(n: Net, n': Net, p: PeerId, from: PeerId, cid: nat, to: PeerId, rid: GameId, hops: nat)
    requires Forwarded(n, n', p, from, cid, to, rid, hops)
    requires Inv(n)
    ensures Inv(n')
  {
    hide BookOk, Flow, Connects, Posts, Bumped, PushAll, Inv, Spliced, Bridged, Ready;
    InvParts(n);
    ForwardedBook(n, n', p, from, cid, to, rid, hops);
    ForwardedConnects(n, n', p, from, cid, to, rid, hops);
    ForwardedRest(n, n', p, from, cid, to, rid, hops);
    InvWhole(n');
  }

  lemma ForwardedRest(n: Net, n': Net, p: PeerId, from: PeerId, cid: nat, to: PeerId, rid: GameId, hops: nat)
    requires Forwarded(n, n', p, from, cid, to, rid, hops) && Flow(n) && Posts(n.book.threads, n.inbox)
    requires n'.book.fed == n.book.fed && n'.book.popped == n.book.popped
    requires n'.book.owner == n.book.owner && n'.book.threads == n.book.threads
    ensures Flow(n') && Posts(n'.book.threads, n'.inbox)
  {
    hide Flow, Posts, PushAll, Spliced, Bridged;
    FlowQuiet(n, n', p, map[to := RelayConnect(rid, n.book.relays[p].peers[to].next.id, hops)]);
    PostsPop(n.book.threads, n.inbox, p);
  }

  lemma SplicedParts(b1: Book, b: Book, k: Seg, j: Seg)
    requires Bridgeable(b, k, j) && b1.feeder == b.feeder && b1.origin == b.origin && b1.tip == b.tip
    ensures var b' := Spliced(b1, k, j);
            && b'.feeder == Splice(b.feeder, k, j) && b'.origin == b.origin[j := b.origin[k]]
            && b'.tip == b.tip[b.origin[k] := j] && b'.owner == b1.owner
  {}

  lemma NextIdAt(b: Book, p: PeerId, to: PeerId)
    requires BookOk(b) && Ready(b, p, to)
    ensures p in b.relays && to in b.relays[p].peers
            && b.relays[p].peers[to].next == ConnectionId(NextId(b.relays, p, to), false)
  {}

  lemma BridgedBump(b: Book, p: PeerId, from: PeerId, c: ConnectionId, to: PeerId)
    requires BookOk(b) && p in b.relays && from in b.relays[p].peers && to in b.relays[p].peers
    ensures Bumped(b.relays, b.relays[p := Bridged(b.relays[p], from, c, to)], p, to)
  {
    BridgedCounters(b.relays, p, from, c, to);
  }

  lemma ForwardHandle(s: State, from: PeerId, g: GameId, cid: nat, hops: nat, env: Env)
    requires Forwards(s, from, g, cid, hops, env) && env.failing == {}
    ensures var to := s.games[g].peer;
            var o := HandleConnect(s, from, g, cid, hops, env);
            o.state == Bridged(s, from, ConnectionId(cid, false), to) && o.spawn == NoThread
            && o.sends == map[to := RelayConnect(s.games[g].remoteId, s.peers[to].next.id, hops + 1)]
  {}

  /** The net after the Connect at the head of a mailbox was forwarded. */
  lemma ForwardNext(n: Net, l: Label)
    requires l.Process? && Enabled(n, l) && n.inbox[l.relay][0].Recv? && n.inbox[l.relay][0].message.RelayConnect?
    requires var e, m := n.inbox[l.relay][0], n.inbox[l.relay][0].message;
             Forwards(n.book.relays[l.relay], e.peer, m.gameId, m.connectionId, m.hops, l.env)
    ensures var p, e, m := l.relay, n.inbox[l.relay][0], n.inbox[l.relay][0].message;
            var s, c := n.book.relays[p], ConnectionId(m.connectionId, false);
            var to := s.games[m.gameId].peer;
            var d := s.peers[to].next;
            && Next(n, l).inbox == n.inbox[p := n.inbox[p][1..]]
            && Next(n, l).links == PushAll(n.links, p,
                                           map[to := RelayConnect(s.games[m.gameId].remoteId, d.id, m.hops + 1)])
            && Next(n, l).book
               == Spliced(Claimed(Updated(n.book, p, Bridged(s, e.peer, c, to)), p, to, d), Seg(e.peer, p, c, e.peer),
                          Seg(p, to, d, p))
  {
    hide HandleConnect, PushAll, Spliced, Claimed, Bridged;
    var s, e, m := n.book.relays[l.relay], n.inbox[l.relay][0], n.inbox[l.relay][0].message;
    ForwardHandle(s, e.peer, m.gameId, m.connectionId, m.hops, l.env);
  }

  lemma ForwardKeeps(n: Net, l: Label)
    requires Inv(n) && Paireds(n.book.relays) && l.Process? && Enabled(n, l) && NoCollisionAt(n, l)
    requires n.inbox[l.relay][0].Recv? && n.inbox[l.relay][0].message.RelayConnect?
    requires var e, m := n.inbox[l.relay][0], n.inbox[l.relay][0].message;
             Forwards(n.book.relays[l.relay], e.peer, m.gameId, m.connectionId, m.hops, l.env)
    ensures Inv(Next(n, l))
  {
    hide Inv, Next, Handle, PushAll, Bridged, Traceless, Paireds, Spliced;
    var s, e, m := n.book.relays[l.relay], n.inbox[l.relay][0], n.inbox[l.relay][0].message;
    var to := s.games[m.gameId].peer;
    var n1 := n.(book := Claimed(n.book, l.relay, to, s.peers[to].next));
    ForwardNext(n, l);
    ForwardReady(n, l.relay, to);
    BridgedNet(n1, Next(n, l), l.relay, e.peer, m.connectionId, to, s.games[m.gameId].remoteId, m.hops + 1);
  }

  lemma ForwardReady(n: Net, p: PeerId, to: PeerId)
    requires Inv(n) && Paireds(n.book.relays) && p in n.book.relays && to in n.book.relays[p].peers
    requires Traceless(n, p, to, n.book.relays[p].peers[to].next)
    ensures var b1 := Claimed(n.book, p, to, n.book.relays[p].peers[to].next); Inv(n.(book := b1)) && Ready(b1, p, to)
  {
    hide Inv, Paireds;
    ClaimKeeps(n, p, to);
  }
}
