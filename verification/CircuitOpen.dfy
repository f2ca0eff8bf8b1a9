/** Accepting a client and dialling a host keep the circuit invariant. */
module CircuitOpen {
  import opened Basics
  import opened RelayTypes
  import opened RelayModel
  import opened Circuits
  import opened CircuitInvariant
  import opened CircuitThreads
  import opened CircuitLoop
  import opened CircuitClaim

  // ---------------------------------------------------------------- growing books

  ghost predicate Grows<K, V>(m: map<K, V>, m': map<K, V>) {
    forall k :: k in m ==> k in m' && m'[k] == m[k]
  }

  lemma FeedsGrow(feeder: map<Seg, Feeder>, feeder': map<Seg, Feeder>, fed: Chunks, popped: Chunks)
    requires Feeds(feeder, fed, popped) && Grows(feeder, feeder')
    ensures Feeds(feeder', fed, popped)
  {
    forall s | s in feeder' && feeder'[s].FromSeg? ensures IsPrefix(Log(fed, s), Log(popped, feeder'[s].seg)) {
      if s !in feeder { assert Log(fed, s) == []; }
    }
  }

  lemma EndsGrow(threads: map<Tx, Thread>, feeder: map<Seg, Feeder>, feeder': map<Seg, Feeder>,
                 origin: map<Seg, Tx>, origin': map<Seg, Tx>, tip: map<Tx, Seg>, tip': map<Tx, Seg>)
    requires Ends(threads, feeder, origin, tip) && Grows(feeder, feeder') && Grows(origin, origin')
    requires forall u :: u in tip ==> u in tip' && (tip'[u] != tip[u] ==> Rev(tip[u]) !in feeder)
    ensures Ends(threads, feeder', origin', tip')
  {
    forall t | t in threads ensures EndOk(feeder', origin', tip', t, threads[t]) {
      var th := threads[t];
      assert EndOk(feeder, origin, tip, t, th);
      assert Rev(th.In()) == th.Out();
    }
  }

  /** The counter of `p` towards `q` moved on by one. */
  ghost predicate Bumped(relays: Relays, relays': Relays, p: PeerId, q: PeerId) {
    && (forall x, y :: NextId(relays', x, y) == NextId(relays, x, y) + if x == p && y == q then 1 else 0)
    && (forall x, y :: x in relays' && y in relays'[x].peers ==> !relays'[x].peers[y].next.local)
  }

  lemma IdsGrow(relays: Relays, relays': Relays, p: PeerId, q: PeerId,
                feeder: map<Seg, Feeder>, feeder': map<Seg, Feeder>,
                origin: map<Seg, Tx>, origin': map<Seg, Tx>)
    requires Ids(relays, feeder, origin) && Bumped(relays, relays', p, q)
    requires forall s :: s in feeder' && s !in feeder ==> Allocated(relays', s)
    requires forall k :: k in origin' && k !in origin ==> k.caller == k.from
    requires Grows(feeder, feeder') && forall k :: k in origin' ==> k in feeder'
    ensures Ids(relays', feeder', origin')
  {
    forall s | s in feeder ensures Allocated(relays', s) { assert Allocated(relays, s); }
  }

  /** The segment of an id about to be allocated has never been used. */
  lemma FreshSeg(b: Book, p: PeerId, q: PeerId)
    requires Ids(b.relays, b.feeder, b.origin) && p != q
    requires p in b.relays && q in b.relays[p].peers
    ensures var k := Seg(p, q, b.relays[p].peers[q].next, p);
            k !in b.feeder && Rev(k) !in b.feeder && k != Rev(k) && !k.conn.local
            && k !in b.origin && Rev(k) !in b.origin
  {
    var k := Seg(p, q, b.relays[p].peers[q].next, p);
    assert !Allocated(b.relays, k) && !Allocated(b.relays, Rev(k));
  }

  lemma TipsGrow(feeder: map<Seg, Feeder>, feeder': map<Seg, Feeder>, origin: map<Seg, Tx>, origin': map<Seg, Tx>,
                 tip: map<Tx, Seg>, tip': map<Tx, Seg>, threads: map<Tx, Thread>, threads': map<Tx, Thread>)
    requires Tips(feeder, origin, tip, threads)
    requires Grows(feeder, feeder') && Grows(origin, origin') && Grows(threads, threads')
    requires forall u :: u in tip' ==>
               TipOk(feeder', origin', threads', u, tip'[u])
               || (u in tip && tip[u] == tip'[u] && (Rev(tip[u]) in feeder' ==> Rev(tip[u]) in feeder))
    ensures Tips(feeder', origin', tip', threads')
  {
    forall u | u in tip' ensures TipOk(feeder', origin', threads', u, tip'[u]) {
      if u in tip { assert TipOk(feeder, origin, threads, u, tip[u]); }
    }
  }

  lemma SplicesGrow(feeder: map<Seg, Feeder>, feeder': map<Seg, Feeder>, origin: map<Seg, Tx>, origin': map<Seg, Tx>)
    requires Splices(feeder, origin) && Grows(feeder, feeder') && Grows(origin, origin')
    requires forall s :: s in feeder' && s !in feeder && feeder'[s].FromSeg? ==> SpliceOk(origin', s, feeder'[s].seg)
    requires forall s :: s in feeder ==> (s in origin' ==> s in origin) && (Rev(s) in origin' ==> Rev(s) in origin)
    ensures Splices(feeder', origin')
  {
    forall s | s in feeder' && feeder'[s].FromSeg? ensures SpliceOk(origin', s, feeder'[s].seg) {
      if s in feeder { assert SpliceOk(origin, s, feeder[s].seg); }
    }
  }

  /** Only live threads own circuits. */
  lemma Owners(b: Book, u: Tx)
    requires Streams(b.origin, b.tip, b.threads, b.fed) && Tips(b.feeder, b.origin, b.tip, b.threads) && u !in b.threads
    ensures u !in b.tip && forall k :: k in b.origin ==> b.origin[k] != u
  {
    forall k | k in b.origin ensures b.origin[k] != u { assert CircuitOk(b.tip, b.threads, b.fed, k, b.origin[k]); }
    forall x | x in b.tip ensures x != u {
      assert TipOk(b.feeder, b.origin, b.threads, x, b.tip[x]);
      assert b.tip[x] in b.origin;
    }
  }

  lemma NothingPopped(n: Net, s: Seg)
    requires Flow(n) && Log(n.book.fed, s) == []
    ensures Log(n.book.popped, s) == []
  {
    assert Log(n.book.fed, s) == Log(n.book.popped, s) + OnTheWay(n.book.owner, n.inbox, n.links, s);
  }

  // ---------------------------------------------------------------- accepting a client

  /** The tables after a client was accepted towards `q`. */
  function Accepted(s: State, q: PeerId, u: Tx): State
    requires q in s.peers
  {
    var peer := s.peers[q];
    s.(peers := s.peers[q := peer.(next := Bump(peer.next), locals := peer.locals[peer.next := u])])
  }

  lemma AcceptedRelayed(b: Book, p: PeerId, q: PeerId, u: Tx)
    requires p in b.relays && q in b.relays[p].peers && Counters(b.relays)
    requires Pointers(b.relays) && RelayedEntries(b.relays, b.owner, b.feeder, b.fed, b.popped)
    ensures var relays := b.relays[p := Accepted(b.relays[p], q, u)];
            && Bumped(b.relays, relays, p, q) && Pointers(relays)
            && RelayedEntries(relays, b.owner, b.feeder, b.fed, b.popped)
  {
    hide RelayedOk;
    var relays := b.relays[p := Accepted(b.relays[p], q, u)];
    forall x, y, c | HasRelayed(relays, x, y, c)
      ensures HasRelayed(b.relays, x, y, c) && relays[x].peers[y].relayed[c] == b.relays[x].peers[y].relayed[c]
    {}
  }

  lemma AcceptedTables(b: Book, p: PeerId, q: PeerId, u: Tx, th: Thread)
    requires p in b.relays && q in b.relays[p].peers && Counters(b.relays)
    requires Pointers(b.relays) && RelayedEntries(b.relays, b.owner, b.feeder, b.fed, b.popped)
    requires LocalEntries(b.relays, b.owner, b.threads, b.popped) && u !in b.threads
    requires LocalOk(b.threads[u := th], b.popped, At(b.owner, q, p, b.relays[p].peers[q].next), u)
    ensures var relays := b.relays[p := Accepted(b.relays[p], q, u)];
            && Bumped(b.relays, relays, p, q) && Pointers(relays)
            && RelayedEntries(relays, b.owner, b.feeder, b.fed, b.popped)
            && LocalEntries(relays, b.owner, b.threads[u := th], b.popped)
  {
    AcceptedRelayed(b, p, q, u);
    hide RelayedEntries, Bumped, Pointers;
    var relays := b.relays[p := Accepted(b.relays[p], q, u)];
    forall x, y, c | HasLocal(relays, x, y, c)
      ensures LocalOk(b.threads[u := th], b.popped, At(b.owner, y, x, c), relays[x].peers[y].locals[c])
    {
      if (x, y, c) != (p, q, b.relays[p].peers[q].next) {
        assert HasLocal(b.relays, x, y, c);
        assert LocalOk(b.threads, b.popped, At(b.owner, y, x, c), b.relays[x].peers[y].locals[c]);
      }
    }
  }

  lemma RelayedGrow(relays: Relays, owner: Owners, feeder: map<Seg, Feeder>, feeder': map<Seg, Feeder>, fed: Chunks,
                    popped: Chunks)
    requires RelayedEntries(relays, owner, feeder, fed, popped) && Grows(feeder, feeder')
    ensures RelayedEntries(relays, owner, feeder', fed, popped)
  {
    forall x, y, c | HasRelayed(relays, x, y, c)
      ensures RelayedOk(owner, feeder', fed, popped, At(owner, y, x, c), relays[x].peers[y].relayed[c])
    {
      assert RelayedOk(owner, feeder, fed, popped, At(owner, y, x, c), relays[x].peers[y].relayed[c]);
    }
  }

  lemma ThreadsJoin(threads: map<Tx, Thread>, fed: Chunks, popped: Chunks, t: Tx, th: Thread)
    requires Threads(threads, fed, popped) && ThreadOk(th, Log(fed, th.Out()), Log(popped, th.In()))
    ensures Threads(threads[t := th], fed, popped)
  {}

  lemma AcceptedStreams(b: Book, u: Tx, k: Seg, th: Thread)
    requires Streams(b.origin, b.tip, b.threads, b.fed) && Tips(b.feeder, b.origin, b.tip, b.threads)
    requires u !in b.threads && Log(b.fed, k) == [] && !th.host
    ensures Streams(b.origin[k := u], b.tip[u := k], b.threads[u := th], b.fed)
  {
    Owners(b, u);
    var origin := b.origin[k := u];
    forall j | j in origin ensures CircuitOk(b.tip[u := k], b.threads[u := th], b.fed, j, origin[j]) {
      if j != k { assert CircuitOk(b.tip, b.threads, b.fed, j, b.origin[j]); }
    }
  }

  lemma EndsJoin(threads: map<Tx, Thread>, feeder: map<Seg, Feeder>, origin: map<Seg, Tx>, tip: map<Tx, Seg>, t: Tx,
                 th: Thread)
    requires Ends(threads, feeder, origin, tip) && EndOk(feeder, origin, tip, t, th)
    ensures Ends(threads[t := th], feeder, origin, tip)
  {}

  lemma AcceptedEnds(b: Book, u: Tx, k: Seg, g: GameId)
    requires Ends(b.threads, b.feeder, b.origin, b.tip) && k.caller == k.from
    requires k !in b.feeder && k !in b.origin && u !in b.tip
    ensures var th := NewClient(k, g);
            Ends(b.threads[u := th], b.feeder[k := FromThread(u)], b.origin[k := u], b.tip[u := k])
  {
    var feeder, origin, tip := b.feeder[k := FromThread(u)], b.origin[k := u], b.tip[u := k];
    EndsGrow(b.threads, b.feeder, feeder, b.origin, origin, b.tip, tip);
    EndsJoin(b.threads, feeder, origin, tip, u, NewClient(k, g));
  }

  lemma AcceptedIds(b: Book, relays: Relays, u: Tx, k: Seg)
    requires Ids(b.relays, b.feeder, b.origin)
    requires Bumped(b.relays, relays, k.from, k.to) && Allocated(relays, k) && k.caller == k.from
    requires k !in b.feeder && k !in b.origin
    ensures Ids(relays, b.feeder[k := FromThread(u)], b.origin[k := u])
  {
    IdsGrow(b.relays, relays, k.from, k.to, b.feeder, b.feeder[k := FromThread(u)], b.origin, b.origin[k := u]);
  }

  /**
   Relay `p` can allocate its next id towards `q`: no trace of the id was left, and it stands for `p`'s segment
   now.
   */
  ghost predicate Ready(b: Book, p: PeerId, q: PeerId) {
    && p in b.relays && q in b.relays[p].peers && p != q
    && Current(b.owner, Seg(p, q, b.relays[p].peers[q].next, p))
  }

  lemma AcceptedJoins(n: Net, p: PeerId, q: PeerId, u: Tx, g: GameId)
    requires BookOk(n.book) && Flow(n) && u !in n.book.threads && Ready(n.book, p, q)
    ensures var b, k := n.book, Seg(p, q, n.book.relays[p].peers[q].next, p);
            var feeder, threads := b.feeder[k := FromThread(u)], b.threads[u := NewClient(k, g)];
            && Feeds(feeder, b.fed, b.popped) && Threads(threads, b.fed, b.popped) && Live(b.owner, threads)
            && LocalOk(threads, b.popped, At(b.owner, q, p, k.conn), u)
  {
    hide RelayedEntries, LocalEntries, Streams, Tips, Splices, Ends;
    var b, k := n.book, Seg(p, q, n.book.relays[p].peers[q].next, p);
    var th := NewClient(k, g);
    FreshSeg(b, p, q);
    NothingPopped(n, Rev(k));
    assert th.Out() == k && th.In() == Rev(k) == At(b.owner, q, p, k.conn);
    FeedsGrow(b.feeder, b.feeder[k := FromThread(u)], b.fed, b.popped);
    ThreadsJoin(b.threads, b.fed, b.popped, u, th);
  }

  lemma AcceptedEntries(n: Net, p: PeerId, q: PeerId, u: Tx, g: GameId)
    requires BookOk(n.book) && Flow(n) && u !in n.book.threads && Ready(n.book, p, q)
    ensures var b, k := n.book, Seg(p, q, n.book.relays[p].peers[q].next, p);
            var relays, feeder := b.relays[p := Accepted(b.relays[p], q, u)], b.feeder[k := FromThread(u)];
            var threads := b.threads[u := NewClient(k, g)];
            && Bumped(b.relays, relays, p, q) && Pointers(relays)
            && Feeds(feeder, b.fed, b.popped)
            && RelayedEntries(relays, b.owner, feeder, b.fed, b.popped)
            && LocalEntries(relays, b.owner, threads, b.popped)
            && Threads(threads, b.fed, b.popped) && Live(b.owner, threads)
  {
    hide RelayedEntries, LocalEntries, Threads, Live, Feeds, Streams, Tips, Splices, Ends, Flow, LocalOk, Bumped,
         Pointers, Accepted;
    var b, k := n.book, Seg(p, q, n.book.relays[p].peers[q].next, p);
    FreshSeg(b, p, q);
    AcceptedJoins(n, p, q, u, g);
    AcceptedTables(b, p, q, u, NewClient(k, g));
    RelayedGrow(b.relays[p := Accepted(b.relays[p], q, u)], b.owner, b.feeder, b.feeder[k := FromThread(u)], b.fed,
                b.popped);
  }

  lemma AcceptedBook(n: Net, p: PeerId, q: PeerId, u: Tx, g: GameId)
    requires BookOk(n.book) && Flow(n) && u !in n.book.threads && Ready(n.book, p, q)
    ensures var s := n.book.relays[p];
            BookOk(Opened(Updated(n.book, p, Accepted(s, q, u)), u, Seg(p, q, s.peers[q].next, p), g))
  {
    var b, k := n.book, Seg(p, q, n.book.relays[p].peers[q].next, p);
    FreshSeg(b, p, q);
    Owners(b, u);
    AcceptedEntries(n, p, q, u, g);
    AcceptedEnds(b, u, k, g);
    AcceptedIds(b, b.relays[p := Accepted(b.relays[p], q, u)], u, k);
    AcceptedStreams(b, u, k, NewClient(k, g));
    AcceptedChains(b, u, k, NewClient(k, g));
  }

  lemma AcceptedChains(b: Book, u: Tx, k: Seg, th: Thread)
    requires Tips(b.feeder, b.origin, b.tip, b.threads) && Splices(b.feeder, b.origin)
    requires forall j :: j in b.origin ==> j in b.feeder
    requires u !in b.threads && u !in b.tip
    requires k !in b.feeder && Rev(k) !in b.feeder && k != Rev(k) && k !in b.origin
    ensures Tips(b.feeder[k := FromThread(u)], b.origin[k := u], b.tip[u := k], b.threads[u := th])
    ensures Splices(b.feeder[k := FromThread(u)], b.origin[k := u])
  {
    var feeder, origin, tip := b.feeder[k := FromThread(u)], b.origin[k := u], b.tip[u := k];
    forall x | x in tip
      ensures TipOk(feeder, origin, b.threads[u := th], x, tip[x])
           || (x in b.tip && b.tip[x] == tip[x] && (Rev(b.tip[x]) in feeder ==> Rev(b.tip[x]) in b.feeder))
    {
      if x != u {
        assert TipOk(b.feeder, b.origin, b.threads, x, b.tip[x]);
        assert Rev(Rev(b.tip[x])) == b.tip[x];
      }
    }
    TipsGrow(b.feeder, feeder, b.origin, origin, b.tip, tip, b.threads, b.threads[u := th]);
    assert forall s :: Rev(s) == k ==> s == Rev(k);
    SplicesGrow(b.feeder, feeder, b.origin, origin);
  }

  /** A Connect on its way is not touched by what happens to other segments. */
  lemma OpenStays(b: Book, b': Book, k: Link, id: nat)
    requires OpenOk(b, k, id) && Grows(b.origin, b'.origin) && b'.owner == b.owner
    requires NextId(b'.relays, k.from, k.to) >= NextId(b.relays, k.from, k.to)
    requires var s := Seg(k.from, k.to, ConnectionId(id, false), k.from);
             Rev(s) !in b'.feeder && b.origin[s] in b'.tip && b'.tip[b.origin[s]] == s
    ensures OpenOk(b', k, id)
  {}

  lemma AcceptedOpen(b: Book, b': Book, p: PeerId, q: PeerId, u: Tx, g: GameId, k: Link, id: nat)
    requires OpenOk(b, k, id) && p in b.relays && q in b.relays[p].peers
    requires b' == Opened(Updated(b, p, Accepted(b.relays[p], q, u)), u, Seg(p, q, b.relays[p].peers[q].next, p), g)
    requires Bumped(b.relays, b'.relays, p, q)
    requires b.origin[Seg(k.from, k.to, ConnectionId(id, false), k.from)] != u
    requires Seg(p, q, b.relays[p].peers[q].next, p) !in b.origin
    requires Rev(Seg(p, q, b.relays[p].peers[q].next, p)) !in b.origin
    ensures OpenOk(b', k, id) && (k == Link(p, q) ==> id < b.relays[p].peers[q].next.id)
  {
    var s, j := Seg(k.from, k.to, ConnectionId(id, false), k.from), Seg(p, q, b.relays[p].peers[q].next, p);
    assert Rev(s) == j ==> s == Rev(j);
    OpenStays(b, b', k, id);
  }

  lemma AcceptedConnects(n: Net, n': Net, p: PeerId, q: PeerId, rid: GameId, u: Tx, g: GameId)
    requires Connects(n) && Log(n.inbox, p) != [] && n.inbox[p][0].AcceptGameConnection?
    requires p in n.book.relays && q in n.book.relays[p].peers
    requires var c := n.book.relays[p].peers[q].next;
             && n'.inbox == n.inbox[p := n.inbox[p][1..]]
             && n'.links == PushAll(n.links, p, map[q := RelayConnect(rid, c.id, 0)])
             && n'.book == Opened(Updated(n.book, p, Accepted(n.book.relays[p], q, u)), u, Seg(p, q, c, p), g)
             && OpenOk(n'.book, Link(p, q), c.id)
             && Seg(p, q, c, p) !in n.book.origin && Rev(Seg(p, q, c, p)) !in n.book.origin
    requires Bumped(n.book.relays, n'.book.relays, p, q)
    requires forall k :: k in n.book.origin ==> n.book.origin[k] != u
    ensures Connects(n')
  {
    hide Connects, OpenOk, Increasing, Opens, Opened, Accepted, Bumped;
    var c := n.book.relays[p].peers[q].next;
    var sends := map[q := RelayConnect(rid, c.id, 0)];
    forall k, id | id in Opens(n.inbox, n.links, k)
      ensures OpenOk(n'.book, k, id) && (k == Link(p, q) ==> id < c.id)
    {
      ConnectAt(n, k, id);
      AcceptedOpen(n.book, n'.book, p, q, u, g, k, id);
    }
    ConnectsProcess(n, n', p, sends);
  }

  lemma AcceptHandle(s: State, g: GameId, env: Env)
    requires Accepts(s, g) && env.failing == {}
    ensures var q := s.games[g].peer;
            var o := Handle(s, AcceptGameConnection(g), env);
            o.state == Accepted(s, q, env.newHandle)
            && o.sends == map[q := RelayConnect(s.games[g].remoteId, s.peers[q].next.id, 0)]
  {}

  lemma AcceptedFresh(b: Book, p: PeerId, q: PeerId, u: Tx)
    requires BookOk(b) && Ready(b, p, q) && u !in b.threads
    ensures var k := Seg(p, q, b.relays[p].peers[q].next, p);
            k !in b.feeder && Rev(k) !in b.feeder && k != Rev(k) && !k.conn.local && k !in b.origin
            && Rev(k) !in b.origin
    ensures u !in b.tip && forall k :: k in b.origin ==> b.origin[k] != u
  {
    FreshSeg(b, p, q);
    Owners(b, u);
  }

  lemma AcceptedNet(n: Net, n': Net, p: PeerId, q: PeerId, rid: GameId, u: Tx, g: GameId)
    requires Log(n.inbox, p) != [] && n.inbox[p][0].AcceptGameConnection?
    requires Ready(n.book, p, q) && u !in n.book.threads
    requires var c := n.book.relays[p].peers[q].next;
             && n'.inbox == n.inbox[p := n.inbox[p][1..]]
             && n'.links == PushAll(n.links, p, map[q := RelayConnect(rid, c.id, 0)])
             && n'.book == Opened(Updated(n.book, p, Accepted(n.book.relays[p], q, u)), u, Seg(p, q, c, p), g)
    requires Inv(n)
    ensures Inv(n')
  {
    hide BookOk, Flow, Connects, Posts, Bumped, PushAll, RelayedEntries, LocalEntries, Pointers, Feeds, Threads, Live,
         Inv;
    InvParts(n);
    var b, c := n.book, n.book.relays[p].peers[q].next;
    AcceptedBook(n, p, q, u, g);
    AcceptedFresh(b, p, q, u);
    AcceptedEntries(n, p, q, u, g);
    AcceptedConnects(n, n', p, q, rid, u, g);
    FlowQuiet(n, n', p, map[q := RelayConnect(rid, c.id, 0)]);
    PostsPop(b.threads, n.inbox, p);
    PostsJoin(b.threads, n'.inbox, u, NewClient(Seg(p, q, c, p), g));
    InvWhole(n');
  }

  lemma AcceptKeeps(n: Net, l: Label)
    requires Inv(n) && Paireds(n.book.relays) && l.Process? && Enabled(n, l) && NoCollisionAt(n, l)
    requires n.inbox[l.relay][0].AcceptGameConnection? && Accepts(n.book.relays[l.relay], n.inbox[l.relay][0].gameId)
    ensures Inv(Next(n, l))
  {
    hide Inv;
    var s, g := n.book.relays[l.relay], n.inbox[l.relay][0].gameId;
    var q := s.games[g].peer;
    var n1 := n.(book := Claimed(n.book, l.relay, q, s.peers[q].next));
    ClaimKeeps(n, l.relay, q);
    AcceptHandle(s, g, l.env);
    AcceptedNet(n1, Next(n, l), l.relay, q, s.games[g].remoteId, l.env.newHandle, g);
  }

  // ---------------------------------------------------------------- dialling a host

  /** The Connect at the head of a mailbox is the frontier of its circuit, and nothing was sent on it yet. */
  lemma HeadOpen(n: Net, p: PeerId, from: PeerId, cid: nat)
    requires BookOk(n.book) && Flow(n) && Connects(n) && Log(n.inbox, p) != []
    requires n.inbox[p][0].Recv? && n.inbox[p][0].peer == from
    requires n.inbox[p][0].message.RelayConnect? && n.inbox[p][0].message.connectionId == cid
    ensures var k := Seg(from, p, ConnectionId(cid, false), from);
            && OpenOk(n.book, Link(from, p), cid)
            && Log(n.book.fed, k) == [] && Log(n.book.fed, Rev(k)) == []
            && Log(n.book.popped, k) == [] && Log(n.book.popped, Rev(k)) == []
  {
    var k := Seg(from, p, ConnectionId(cid, false), from);
    var opens := Opens(n.inbox, n.links, Link(from, p));
    assert InboxOpens(Log(n.inbox, p), from) == [cid] + InboxOpens(n.inbox[p][1..], from);
    assert opens[0] == cid;
    assert cid in opens;
    assert OpenOk(n.book, Link(from, p), cid);
    Silent(n, k);
    NothingPopped(n, k);
    NothingPopped(n, Rev(k));
  }

  lemma HostedTips(b: Book, t: Tx, k: Seg, g: GameId, addr: SocketAddr)
    requires Tips(b.feeder, b.origin, b.tip, b.threads) && Splices(b.feeder, b.origin)
    requires k in b.origin && k.caller == k.from && Rev(k) !in b.feeder && t !in b.threads
    ensures var th := NewHost(k, g, addr);
            Tips(b.feeder[Rev(k) := FromThread(t)], b.origin, b.tip, b.threads[t := th])
    ensures Splices(b.feeder[Rev(k) := FromThread(t)], b.origin)
  {
    var th := NewHost(k, g, addr);
    var feeder := b.feeder[Rev(k) := FromThread(t)];
    forall x | x in b.tip
      ensures TipOk(feeder, b.origin, b.threads[t := th], x, b.tip[x])
           || (Rev(b.tip[x]) in feeder ==> Rev(b.tip[x]) in b.feeder)
    {
      assert TipOk(b.feeder, b.origin, b.threads, x, b.tip[x]);
      assert Rev(b.tip[x]) == Rev(k) ==> b.tip[x] == k;
      assert th.In() == k;
    }
    TipsGrow(b.feeder, feeder, b.origin, b.origin, b.tip, b.tip, b.threads, b.threads[t := th]);
    SplicesGrow(b.feeder, feeder, b.origin, b.origin);
  }

  lemma HostedEnds(b: Book, t: Tx, k: Seg, g: GameId, addr: SocketAddr)
    requires Ends(b.threads, b.feeder, b.origin, b.tip) && k.caller == k.from
    requires k in b.origin && Rev(k) !in b.feeder && b.origin[k] in b.tip && b.tip[b.origin[k]] == k
    ensures var th := NewHost(k, g, addr);
            Ends(b.threads[t := th], b.feeder[Rev(k) := FromThread(t)], b.origin, b.tip)
  {
    var feeder := b.feeder[Rev(k) := FromThread(t)];
    EndsGrow(b.threads, b.feeder, feeder, b.origin, b.origin, b.tip, b.tip);
    EndsJoin(b.threads, feeder, b.origin, b.tip, t, NewHost(k, g, addr));
  }

  lemma StreamsJoin(b: Book, t: Tx, th: Thread)
    requires Streams(b.origin, b.tip, b.threads, b.fed) && t !in b.threads
    ensures Streams(b.origin, b.tip, b.threads[t := th], b.fed)
  {
    forall k | k in b.origin ensures CircuitOk(b.tip, b.threads[t := th], b.fed, k, b.origin[k]) {
      assert CircuitOk(b.tip, b.threads, b.fed, k, b.origin[k]);
    }
  }

  lemma LocalsJoin(b: Book, t: Tx, th: Thread)
    requires LocalEntries(b.relays, b.owner, b.threads, b.popped) && t !in b.threads
    ensures LocalEntries(b.relays, b.owner, b.threads[t := th], b.popped)
  {
    forall p, q, c | HasLocal(b.relays, p, q, c)
      ensures LocalOk(b.threads[t := th], b.popped, At(b.owner, q, p, c), b.relays[p].peers[q].locals[c])
    {
      assert LocalOk(b.threads, b.popped, At(b.owner, q, p, c), b.relays[p].peers[q].locals[c]);
    }
  }

  lemma HostedIds(b: Book, t: Tx, k: Seg)
    requires Ids(b.relays, b.feeder, b.origin) && k in b.origin
    ensures Ids(b.relays, b.feeder[Rev(k) := FromThread(t)], b.origin)
  {
    assert Allocated(b.relays, k);
  }

  lemma HostedEntries(b: Book, t: Tx, k: Seg, g: GameId, addr: SocketAddr)
    requires Feeds(b.feeder, b.fed, b.popped) && RelayedEntries(b.relays, b.owner, b.feeder, b.fed, b.popped)
    requires LocalEntries(b.relays, b.owner, b.threads, b.popped) && Threads(b.threads, b.fed, b.popped)
    requires Live(b.owner, b.threads) && Current(b.owner, k) && k.caller == k.from
    requires Rev(k) !in b.feeder && t !in b.threads && Log(b.popped, k) == []
    ensures var feeder, threads := b.feeder[Rev(k) := FromThread(t)], b.threads[t := NewHost(k, g, addr)];
            && Feeds(feeder, b.fed, b.popped) && RelayedEntries(b.relays, b.owner, feeder, b.fed, b.popped)
            && LocalEntries(b.relays, b.owner, threads, b.popped) && Threads(threads, b.fed, b.popped)
            && Live(b.owner, threads)
  {
    var th := NewHost(k, g, addr);
    var feeder := b.feeder[Rev(k) := FromThread(t)];
    assert th.Out() == Rev(k) && th.In() == k;
    FeedsGrow(b.feeder, feeder, b.fed, b.popped);
    RelayedGrow(b.relays, b.owner, b.feeder, feeder, b.fed, b.popped);
    LocalsJoin(b, t, th);
    ThreadsJoin(b.threads, b.fed, b.popped, t, th);
  }

  lemma HostedBook(b: Book, t: Tx, k: Seg, g: GameId, addr: SocketAddr)
    requires BookOk(b) && OpenOk(b, Link(k.from, k.to), k.conn.id)
    requires !k.conn.local && k.caller == k.from && t !in b.threads
    requires Log(b.popped, k) == []
    ensures BookOk(Hosted(b, t, k, g, addr))
  {
    assert k == Seg(k.from, k.to, ConnectionId(k.conn.id, false), k.from);
    HostedEntries(b, t, k, g, addr);
    HostedEnds(b, t, k, g, addr);
    HostedIds(b, t, k);
    StreamsJoin(b, t, NewHost(k, g, addr));
    HostedTips(b, t, k, g, addr);
  }

  lemma HostedConnects(n: Net, n': Net, p: PeerId, from: PeerId, cid: nat, t: Tx, g: GameId, addr: SocketAddr)
    requires Connects(n) && Log(n.inbox, p) != []
    requires n.inbox[p][0].Recv? && n.inbox[p][0].peer == from
    requires n.inbox[p][0].message.RelayConnect? && n.inbox[p][0].message.connectionId == cid
    requires n'.inbox == n.inbox[p := n.inbox[p][1..]] && n'.links == PushAll(n.links, p, map[])
    requires n'.book == Hosted(n.book, t, Seg(from, p, ConnectionId(cid, false), from), g, addr)
    ensures Connects(n')
  {
    var s0 := Seg(from, p, ConnectionId(cid, false), from);
    forall k, id | id in Opens(n.inbox, n.links, k) && id !in PoppedOpens(p, n.inbox[p][0], k)
      ensures OpenOk(n'.book, k, id)
    {
      assert OpenOk(n.book, k, id);
      if k == Link(from, p) { assert PoppedOpens(p, n.inbox[p][0], k) == [cid]; }
      assert Rev(Seg(k.from, k.to, ConnectionId(id, false), k.from)) != Rev(s0);
      OpenStays(n.book, n'.book, k, id);
    }
    ConnectsProcess(n, n', p, map[]);
  }

  lemma HostedNet(n: Net, n': Net, p: PeerId, from: PeerId, cid: nat, t: Tx, g: GameId, addr: SocketAddr)
    requires Log(n.inbox, p) != [] && t !in n.book.threads
    requires n.inbox[p][0].Recv? && n.inbox[p][0].peer == from
    requires n.inbox[p][0].message.RelayConnect? && n.inbox[p][0].message.connectionId == cid
    requires n'.inbox == n.inbox[p := n.inbox[p][1..]] && n'.links == PushAll(n.links, p, map[])
    requires n'.book == Hosted(n.book, t, Seg(from, p, ConnectionId(cid, false), from), g, addr)
    requires Inv(n)
    ensures Inv(n')
  {
    hide BookOk, Flow, Connects, Posts;
    var k := Seg(from, p, ConnectionId(cid, false), from);
    HeadOpen(n, p, from, cid);
    HostedBook(n.book, t, k, g, addr);
    HostedConnects(n, n', p, from, cid, t, g, addr);
    FlowQuiet(n, n', p, map[]);
    PostsPop(n.book.threads, n.inbox, p);
    PostsJoin(n.book.threads, n'.inbox, t, NewHost(k, g, addr));
  }

  /** The event at the head of relay `p`'s mailbox makes it dial a local game. */
  ghost predicate Dials(s: State, e: Event) {
    && e.Recv? && e.message.RelayConnect? && e.message.gameId in s.games && s.games[e.message.gameId].Local?
    && e.peer in s.peers
  }

  lemma DialKeeps(n: Net, l: Label)
    requires Inv(n) && l.Process? && Enabled(n, l) && Dials(n.book.relays[l.relay], n.inbox[l.relay][0])
    ensures Inv(Next(n, l))
  {
    hide Inv;
    var b, p, e := n.book, l.relay, n.inbox[l.relay][0];
    var o := Handle(b.relays[p], e, l.env);
    assert o.sends == map[] && o.state == b.relays[p];
    assert Updated(b, p, b.relays[p]) == b;
    HostedNet(n, Next(n, l), p, e.peer, e.message.connectionId, l.env.newHandle, e.message.gameId,
              b.relays[p].games[e.message.gameId].addr);
  }
}
