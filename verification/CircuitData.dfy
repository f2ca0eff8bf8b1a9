/** Moving chunks along a circuit keeps the circuit invariant. */
module CircuitData {
  import opened Basics
  import opened RelayTypes
  import opened RelayModel
  import opened Circuits
  import opened CircuitInvariant
  import opened CircuitThreads
  import opened CircuitLoop
  import opened CircuitOpen

  // ---------------------------------------------------------------- the handshake

  /** The event at the head of relay `p`'s mailbox is a chunk of segment `s`. */
  ghost predicate HeadChunk(n: Net, p: PeerId, s: Seg, data: Bytes) {
    && Log(n.inbox, p) != [] && s.to == p && Current(n.book.owner, s)
    && n.inbox[p][0] == Recv(s.from, RelayData(s.conn.id, s.conn.local, data))
  }

  lemma HeadPending(n: Net, p: PeerId, s: Seg, data: Bytes)
    requires HeadChunk(n, p, s, data)
    ensures Pending(n.inbox, n.links, s) != [] && Pending(n.inbox, n.links, s)[0] == data
    ensures EventData(n.inbox[p][0], s.from, s.conn) == [data]
  {
    assert InboxData(Log(n.inbox, p), s.from, s.conn) == [data] + InboxData(n.inbox[p][1..], s.from, s.conn);
  }

  /** A mailbox whose head is a chunk holds no later registration for that chunk's connection. */
  lemma NotAhead(threads: map<Tx, Thread>, p: PeerId, q: seq<Event>, t: Tx)
    requires MailboxOk(threads, p, q) && Posted(q, t) && t in threads && q[0].Recv?
    ensures EventData(q[0], threads[t].peer, threads[t].conn) == []
  {
    var i :| 0 <= i < |q| && q[i].AddGameConnection? && q[i].tx == t;
    assert PostOk(threads, p, q[i]);
  }

  /** Handshake before data: a chunk is only handled by the host relay after its connection is registered. */
  lemma HandshakeFirst(n: Net, p: PeerId, s: Seg, data: Bytes, t: Tx)
    requires Inv(n) && HeadChunk(n, p, s, data)
    requires t in n.book.threads && n.book.threads[t].host && n.book.threads[t].In() == s
    ensures n.book.threads[t].registered
  {
    HeadPending(n, p, s, data);
    var th := n.book.threads[t];
    if !th.registered {
      if th.posted {
        NotAhead(n.book.threads, p, Log(n.inbox, p), t);
      } else {
        NothingAhead(n, t);
      }
    }
  }

  lemma AllRegistered(n: Net, p: PeerId, s: Seg, data: Bytes)
    requires Inv(n) && HeadChunk(n, p, s, data)
    ensures forall t :: t in n.book.threads && n.book.threads[t].host && n.book.threads[t].In() == s ==>
              n.book.threads[t].registered
  {
    hide Inv;
    forall t | t in n.book.threads && n.book.threads[t].host && n.book.threads[t].In() == s
      ensures n.book.threads[t].registered
    {
      HandshakeFirst(n, p, s, data, t);
    }
  }

  // ---------------------------------------------------------------- taking a chunk off a segment

  lemma FeedsPop(feeder: map<Seg, Feeder>, fed: Chunks, popped: Chunks, s: Seg, data: Bytes)
    requires Feeds(feeder, fed, popped)
    ensures Feeds(feeder, fed, Append(popped, s, data))
  {
    forall x | x in feeder && feeder[x].FromSeg?
      ensures IsPrefix(Log(fed, x), Log(Append(popped, s, data), feeder[x].seg))
    {
      PrefixTrans(Log(fed, x), Log(popped, feeder[x].seg), Log(Append(popped, s, data), feeder[x].seg));
    }
  }

  lemma ThreadsPop(threads: map<Tx, Thread>, fed: Chunks, popped: Chunks, s: Seg, data: Bytes)
    requires Threads(threads, fed, popped)
    requires forall t :: t in threads && threads[t].host && threads[t].In() == s ==> threads[t].registered
    ensures Threads(threads, fed, Append(popped, s, data))
  {
    var popped' := Append(popped, s, data);
    forall t | t in threads ensures ThreadOk(threads[t], Log(fed, threads[t].Out()), Log(popped', threads[t].In())) {
      var th := threads[t];
      assert ThreadOk(th, Log(fed, th.Out()), Log(popped, th.In()));
      PrefixTrans(th.Given(), Log(popped, th.In()), Log(popped', th.In()));
    }
  }

  lemma RelayedPop(relays: Relays, owner: Owners, feeder: map<Seg, Feeder>, fed: Chunks, popped: Chunks, s: Seg,
                   data: Bytes)
    requires RelayedEntries(relays, owner, feeder, fed, popped) && !HasRelayed(relays, s.to, s.from, s.conn)
    ensures RelayedEntries(relays, owner, feeder, fed, Append(popped, s, data))
  {
    forall p, q, c | HasRelayed(relays, p, q, c)
      ensures RelayedOk(owner, feeder, fed, Append(popped, s, data), At(owner, q, p, c), relays[p].peers[q].relayed[c])
    {
      assert RelayedOk(owner, feeder, fed, popped, At(owner, q, p, c), relays[p].peers[q].relayed[c]);
    }
  }

  lemma LocalPop(relays: Relays, owner: Owners, threads: map<Tx, Thread>, popped: Chunks, s: Seg, data: Bytes)
    requires LocalEntries(relays, owner, threads, popped) && !HasLocal(relays, s.to, s.from, s.conn)
    ensures LocalEntries(relays, owner, threads, Append(popped, s, data))
  {
    forall p, q, c | HasLocal(relays, p, q, c)
      ensures LocalOk(threads, Append(popped, s, data), At(owner, q, p, c), relays[p].peers[q].locals[c])
    {
      assert LocalOk(threads, popped, At(owner, q, p, c), relays[p].peers[q].locals[c]);
    }
  }

  /** A connection is served by a thread or relayed, never both. */
  lemma NotBoth(b: Book, s: Seg)
    requires RelayedEntries(b.relays, b.owner, b.feeder, b.fed, b.popped)
    requires LocalEntries(b.relays, b.owner, b.threads, b.popped)
    requires Ends(b.threads, b.feeder, b.origin, b.tip) && HasLocal(b.relays, s.to, s.from, s.conn)
    ensures !HasRelayed(b.relays, s.to, s.from, s.conn)
  {
    var t := b.relays[s.to].peers[s.from].locals[s.conn];
    assert LocalOk(b.threads, b.popped, At(b.owner, s.from, s.to, s.conn), t);
    assert EndOk(b.feeder, b.origin, b.tip, t, b.threads[t]);
  }

  lemma HeadPopped(n: Net, p: PeerId, s: Seg, data: Bytes)
    requires HeadChunk(n, p, s, data)
    ensures Log(n.inbox, p) != []
    ensures forall x ::
              Log(Append(n.book.popped, s, data), x)
              == Log(n.book.popped, x) + if Current(n.book.owner, x) then Popped(p, n.inbox[p][0], x) else []
  {
    forall x | Current(n.book.owner, x) ensures Popped(p, n.inbox[p][0], x) == if x == s then [data] else [] {}
  }

  lemma MovedFlow(n: Net, n': Net, p: PeerId, s: Seg, data: Bytes, sends: map<PeerId, RelayMessage>)
    requires Flow(n) && HeadChunk(n, p, s, data)
    requires n'.inbox == n.inbox[p := n.inbox[p][1..]] && n'.links == PushAll(n.links, p, sends)
    requires n'.book.popped == Append(n.book.popped, s, data) && n'.book.owner == n.book.owner
    requires forall x ::
               Log(n'.book.fed, x) == Log(n.book.fed, x) + if Current(n.book.owner, x) then Pushed(p, sends, x) else []
    ensures Flow(n')
  {
    HeadPopped(n, p, s, data);
    hide Popped, Flow, PushAll, Pushed, HeadChunk;
    FlowProcess(n, n', p, sends);
  }

  // ---------------------------------------------------------------- a chunk without a destination

  /** The book when a chunk of segment `s` is dropped by a relay whose new state is `st`. */
  lemma DroppedBook(b: Book, p: PeerId, st: State, s: Seg, data: Bytes)
    requires BookOk(b) && p in b.relays && Shrinks(b.relays[p], st) && s.to == p
    requires !HasRelayed(b.relays[p := st], p, s.from, s.conn) && !HasLocal(b.relays[p := st], p, s.from, s.conn)
    requires forall t :: t in b.threads && b.threads[t].host && b.threads[t].In() == s ==> b.threads[t].registered
    ensures BookOk(Updated(b, p, st).(popped := Append(b.popped, s, data)))
  {
    EntriesShrink(b, p, st);
    IdsShrink(b, p, st);
    FeedsPop(b.feeder, b.fed, b.popped, s, data);
    ThreadsPop(b.threads, b.fed, b.popped, s, data);
    RelayedPop(b.relays[p := st], b.owner, b.feeder, b.fed, b.popped, s, data);
    LocalPop(b.relays[p := st], b.owner, b.threads, b.popped, s, data);
  }

  lemma DroppedNet(n: Net, n': Net, p: PeerId, st: State, s: Seg, data: Bytes)
    requires HeadChunk(n, p, s, data) && p in n.book.relays && Shrinks(n.book.relays[p], st)
    requires !HasRelayed(n.book.relays[p := st], p, s.from, s.conn)
    requires !HasLocal(n.book.relays[p := st], p, s.from, s.conn)
    requires n'.inbox == n.inbox[p := n.inbox[p][1..]] && n'.links == PushAll(n.links, p, map[])
    requires n'.book == Updated(n.book, p, st).(popped := Append(n.book.popped, s, data))
    requires Inv(n)
    ensures Inv(n')
  {
    hide BookOk, Flow, Connects, Posts;
    AllRegistered(n, p, s, data);
    DroppedBook(n.book, p, st, s, data);
    ShrunkIds(n.book, p, st);
    ConnectsPop(n, n', p, map[]);
    MovedFlow(n, n', p, s, data, map[]);
    PostsPop(n.book.threads, n.inbox, p);
  }

  lemma ShrunkIds(b: Book, p: PeerId, st: State)
    requires p in b.relays && Shrinks(b.relays[p], st)
    ensures forall x, y :: NextId(b.relays[p := st], x, y) == NextId(b.relays, x, y)
  {
    forall x, y ensures NextId(b.relays[p := st], x, y) == NextId(b.relays, x, y) {}
  }

  // ---------------------------------------------------------------- a chunk for a thread

  lemma DeliveredThread(th: Thread, out: seq<Bytes>, popped: seq<Bytes>, data: Bytes)
    requires ThreadOk(th, out, popped) && th.Given() == popped && (th.host ==> th.registered)
    ensures ThreadOk(th.(chan := th.chan + [data]), out, popped + [data])
    ensures th.(chan := th.chan + [data]).Given() == popped + [data]
  {
    assert th.(chan := th.chan + [data]).Given() == th.Given() + [data];
  }

  lemma DeliveredLocals(b: Book, s: Seg, t: Tx, th': Thread, data: Bytes)
    requires LocalEntries(b.relays, b.owner, b.threads, b.popped)
    requires t in b.threads && b.threads[t].In() == s && th'.In() == s
    requires th'.Given() == Log(b.popped, s) + [data]
    requires HasLocal(b.relays, s.to, s.from, s.conn)
    requires b.relays[s.to].peers[s.from].locals[s.conn] == t && Current(b.owner, s)
    ensures LocalEntries(b.relays, b.owner, b.threads[t := th'], Append(b.popped, s, data))
  {
    forall p, q, c | HasLocal(b.relays, p, q, c)
      ensures LocalOk(b.threads[t := th'], Append(b.popped, s, data), At(b.owner, q, p, c),
                      b.relays[p].peers[q].locals[c])
    {
      assert LocalOk(b.threads, b.popped, At(b.owner, q, p, c), b.relays[p].peers[q].locals[c]);
    }
  }

  lemma DeliveredEntries(b: Book, s: Seg, t: Tx, data: Bytes)
    requires Threads(b.threads, b.fed, b.popped) && LocalEntries(b.relays, b.owner, b.threads, b.popped)
    requires HasLocal(b.relays, s.to, s.from, s.conn) && Current(b.owner, s)
    requires t == b.relays[s.to].peers[s.from].locals[s.conn] && t in b.threads && b.threads[t].phase != Closed
    requires forall x :: x in b.threads && b.threads[x].host && b.threads[x].In() == s ==> b.threads[x].registered
    ensures var threads := b.threads[t := b.threads[t].(chan := b.threads[t].chan + [data])];
            var popped := Append(b.popped, s, data);
            LocalEntries(b.relays, b.owner, threads, popped) && Threads(threads, b.fed, popped)
  {
    var th := b.threads[t];
    var th' := th.(chan := th.chan + [data]);
    assert LocalOk(b.threads, b.popped, At(b.owner, s.from, s.to, s.conn), t);
    DeliveredThread(th, Log(b.fed, th.Out()), Log(b.popped, th.In()), data);
    DeliveredLocals(b, s, t, th', data);
    ThreadsPop(b.threads, b.fed, b.popped, s, data);
    ThreadsJoin(b.threads, b.fed, Append(b.popped, s, data), t, th');
  }

  lemma DeliveredBook(b: Book, s: Seg, t: Tx, data: Bytes)
    requires BookOk(b) && HasLocal(b.relays, s.to, s.from, s.conn) && Current(b.owner, s)
    requires t == b.relays[s.to].peers[s.from].locals[s.conn] && t in b.threads && b.threads[t].phase != Closed
    requires forall x :: x in b.threads && b.threads[x].host && b.threads[x].In() == s ==> b.threads[x].registered
    ensures BookOk(b.(threads := b.threads[t := b.threads[t].(chan := b.threads[t].chan + [data])],
                      popped := Append(b.popped, s, data)))
  {
    hide Feeds, RelayedEntries, LocalEntries, Threads, Live, Ends, Ids, Streams, Tips, Splices;
    var th := b.threads[t];
    NotBoth(b, s);
    FeedsPop(b.feeder, b.fed, b.popped, s, data);
    RelayedPop(b.relays, b.owner, b.feeder, b.fed, b.popped, s, data);
    DeliveredEntries(b, s, t, data);
    RoleMoves(b, t, th.(chan := th.chan + [data]));
    DeliveredLive(b.owner, b.threads, t, data);
  }

  lemma DeliveredLive(owner: Owners, threads: map<Tx, Thread>, t: Tx, data: Bytes)
    requires Live(owner, threads) && t in threads
    ensures Live(owner, threads[t := threads[t].(chan := threads[t].chan + [data])])
  {
    assert LiveOk(owner, threads[t]);
  }

  lemma DeliveredNet(n: Net, n': Net, p: PeerId, s: Seg, t: Tx, data: Bytes)
    requires HeadChunk(n, p, s, data) && HasLocal(n.book.relays, s.to, s.from, s.conn)
    requires t == n.book.relays[s.to].peers[s.from].locals[s.conn]
    requires t in n.book.threads && n.book.threads[t].phase != Closed
    requires n'.inbox == n.inbox[p := n.inbox[p][1..]] && n'.links == PushAll(n.links, p, map[])
    requires var th := n.book.threads[t];
             n'.book == n.book.(threads := n.book.threads[t := th.(chan := th.chan + [data])],
                                popped := Append(n.book.popped, s, data))
    requires Inv(n)
    ensures Inv(n')
  {
    hide BookOk, Flow, Connects, Posts;
    var th := n.book.threads[t];
    AllRegistered(n, p, s, data);
    DeliveredBook(n.book, s, t, data);
    ConnectsPop(n, n', p, map[]);
    MovedFlow(n, n', p, s, data, map[]);
    DeliveredPosts(n.book.threads, n.inbox, p, t, data);
  }

  lemma DeliveredPosts(threads: map<Tx, Thread>, inbox: Inboxes, p: PeerId, t: Tx, data: Bytes)
    requires Posts(threads, inbox) && Log(inbox, p) != [] && !inbox[p][0].AddGameConnection? && t in threads
    ensures Posts(threads[t := threads[t].(chan := threads[t].chan + [data])], inbox[p := inbox[p][1..]])
  {
    PostsPop(threads, inbox, p);
    PostsMove(threads, inbox[p := inbox[p][1..]], t, threads[t].(chan := threads[t].chan + [data]));
  }

  /** A local entry always names a thread. */
  lemma LocalThread(b: Book, s: Seg)
    requires BookOk(b) && HasLocal(b.relays, s.to, s.from, s.conn)
    ensures b.relays[s.to].peers[s.from].locals[s.conn] in b.threads
    ensures !HasRelayed(b.relays, s.to, s.from, s.conn)
  {
    assert LocalOk(b.threads, b.popped, At(b.owner, s.from, s.to, s.conn), b.relays[s.to].peers[s.from].locals[s.conn]);
    NotBoth(b, s);
  }

  // ---------------------------------------------------------------- a chunk that is forwarded

  lemma MovedRelayed(b: Book, s: Seg, j: Seg, data: Bytes)
    requires RelayedEntries(b.relays, b.owner, b.feeder, b.fed, b.popped)
    requires j in b.feeder && b.feeder[j] == FromSeg(s) && Log(b.fed, j) == Log(b.popped, s)
    requires HasRelayed(b.relays, s.to, s.from, s.conn) && Current(b.owner, s) && Current(b.owner, j)
    requires b.relays[s.to].peers[s.from].relayed[s.conn] == RelayedConnection(j.to, j.conn) && j.from == s.to
    ensures RelayedEntries(b.relays, b.owner, b.feeder, Append(b.fed, j, data), Append(b.popped, s, data))
  {
    forall p, q, c | HasRelayed(b.relays, p, q, c)
      ensures RelayedOk(b.owner, b.feeder, Append(b.fed, j, data), Append(b.popped, s, data), At(b.owner, q, p, c),
                        b.relays[p].peers[q].relayed[c])
    {
      assert RelayedOk(b.owner, b.feeder, b.fed, b.popped, At(b.owner, q, p, c), b.relays[p].peers[q].relayed[c]);
    }
  }

  lemma MovedFeeds(feeder: map<Seg, Feeder>, fed: Chunks, popped: Chunks, s: Seg, j: Seg, data: Bytes)
    requires Feeds(feeder, fed, popped) && j in feeder && feeder[j] == FromSeg(s) && Log(fed, j) == Log(popped, s)
    ensures Feeds(feeder, Append(fed, j, data), Append(popped, s, data))
  {
    FeedsPop(feeder, fed, popped, s, data);
  }

  lemma MovedThreads(b: Book, s: Seg, j: Seg, data: Bytes)
    requires Threads(b.threads, b.fed, b.popped) && Ends(b.threads, b.feeder, b.origin, b.tip)
    requires j in b.feeder && b.feeder[j] == FromSeg(s)
    requires forall x :: x in b.threads && b.threads[x].host && b.threads[x].In() == s ==> b.threads[x].registered
    ensures Threads(b.threads, Append(b.fed, j, data), Append(b.popped, s, data))
  {
    ThreadsPop(b.threads, b.fed, b.popped, s, data);
    forall t | t in b.threads ensures b.threads[t].Out() != j {
      assert EndOk(b.feeder, b.origin, b.tip, t, b.threads[t]);
    }
  }

  lemma MovedStreams(b: Book, s: Seg, j: Seg, data: Bytes)
    requires Streams(b.origin, b.tip, b.threads, b.fed) && SpliceOk(b.origin, j, s)
    requires IsPrefix(Log(b.fed, j) + [data], Log(b.fed, s)) && j != s
    ensures Streams(b.origin, b.tip, b.threads, Append(b.fed, j, data))
  {
    var x := Log(b.fed, j) + [data];
    forall k | k in b.origin ensures CircuitOk(b.tip, b.threads, Append(b.fed, j, data), k, b.origin[k]) {
      var u := b.origin[k];
      if k == j {
        assert CircuitOk(b.tip, b.threads, b.fed, s, u);
        PrefixTrans(x, Log(b.fed, s), b.threads[u].input);
      }
      if Rev(k) == j {
        assert k == Rev(j) && Rev(Rev(s)) == s;
        assert CircuitOk(b.tip, b.threads, b.fed, Rev(s), u);
        var back := Rev(b.tip[u]);
        PrefixTrans(x, Log(b.fed, s), Log(b.fed, back));
        PrefixTrans(x, Log(b.fed, back), Log(Append(b.fed, j, data), back));
      }
      FedCircuit(b.tip, b.threads, b.fed, k, u, j, data);
    }
  }

  lemma MovedBook(b: Book, s: Seg, j: Seg, data: Bytes)
    requires BookOk(b) && HasRelayed(b.relays, s.to, s.from, s.conn)
    requires j.from == s.to && Current(b.owner, j) && Current(b.owner, s)
    requires b.relays[s.to].peers[s.from].relayed[s.conn] == RelayedConnection(j.to, j.conn)
    requires !HasLocal(b.relays, s.to, s.from, s.conn)
    requires IsPrefix(Log(b.popped, s) + [data], Log(b.fed, s))
    requires forall x :: x in b.threads && b.threads[x].host && b.threads[x].In() == s ==> b.threads[x].registered
    ensures BookOk(b.(popped := Append(b.popped, s, data), fed := Append(b.fed, j, data)))
  {
    assert RelayedOk(b.owner, b.feeder, b.fed, b.popped, At(b.owner, s.from, s.to, s.conn),
                     b.relays[s.to].peers[s.from].relayed[s.conn]);
    assert j in b.feeder && b.feeder[j] == FromSeg(s) && Log(b.fed, j) == Log(b.popped, s);
    assert SpliceOk(b.origin, j, s);
    NoLoop(b, j);
    MovedFeeds(b.feeder, b.fed, b.popped, s, j, data);
    MovedRelayed(b, s, j, data);
    LocalPop(b.relays, b.owner, b.threads, b.popped, s, data);
    MovedThreads(b, s, j, data);
    MovedStreams(b, s, j, data);
  }

  lemma NoLoop(b: Book, s: Seg)
    requires Ids(b.relays, b.feeder, b.origin) && s in b.feeder
    ensures s.from != s.to
  {
    assert Allocated(b.relays, s);
  }

  /** What is taken off a segment next was fed to it. */
  lemma NextChunk(n: Net, p: PeerId, s: Seg, data: Bytes)
    requires Flow(n) && HeadChunk(n, p, s, data)
    ensures IsPrefix(Log(n.book.popped, s) + [data], Log(n.book.fed, s))
  {
    HeadPending(n, p, s, data);
    var pending := Pending(n.inbox, n.links, s);
    assert Log(n.book.fed, s) == Log(n.book.popped, s) + OnTheWay(n.book.owner, n.inbox, n.links, s);
    assert pending == [data] + pending[1..];
  }

  /** The log of a segment records the one chunk that is sent on it. */
  lemma FedPushed(owner: Owners, fed: Chunks, j: Seg, data: Bytes)
    requires Current(owner, j)
    ensures forall x :: Log(Append(fed, j, data), x) == Log(fed, x) +
                          var sends := map[j.to := RelayData(j.conn.id, j.conn.local, data)];
                          if Current(owner, x) then Pushed(j.from, sends, x) else []
  {
    var sends := map[j.to := RelayData(j.conn.id, j.conn.local, data)];
    forall x
      ensures Log(Append(fed, j, data), x) == Log(fed, x) + if Current(owner, x) then Pushed(j.from, sends, x) else []
    {
      if Current(owner, x) { assert Pushed(j.from, sends, x) == if x == j then [data] else []; }
    }
  }

  lemma MovedNet(n: Net, n': Net, p: PeerId, s: Seg, j: Seg, data: Bytes)
    requires HeadChunk(n, p, s, data) && HasRelayed(n.book.relays, s.to, s.from, s.conn)
    requires j.from == p && Current(n.book.owner, j)
    requires n.book.relays[s.to].peers[s.from].relayed[s.conn] == RelayedConnection(j.to, j.conn)
    requires !HasLocal(n.book.relays, s.to, s.from, s.conn)
    requires n'.inbox == n.inbox[p := n.inbox[p][1..]]
    requires n'.links == PushAll(n.links, p, map[j.to := RelayData(j.conn.id, j.conn.local, data)])
    requires n'.book == n.book.(popped := Append(n.book.popped, s, data), fed := Append(n.book.fed, j, data))
    requires Inv(n)
    ensures Inv(n')
  {
    hide BookOk, Flow, Connects, Posts;
    var sends := map[j.to := RelayData(j.conn.id, j.conn.local, data)];
    AllRegistered(n, p, s, data);
    NextChunk(n, p, s, data);
    MovedBook(n.book, s, j, data);
    ConnectsPop(n, n', p, sends);
    FedPushed(n.book.owner, n.book.fed, j, data);
    MovedFlow(n, n', p, s, data, sends);
    PostsPop(n.book.threads, n.inbox, p);
  }

  /** The relay is about to handle a chunk of segment `s`. */
  ghost predicate Chunk(n: Net, l: Label, s: Seg) {
    && l.Process? && Enabled(n, l) && n.inbox[l.relay][0].Recv? && n.inbox[l.relay][0].message.RelayData?
    && var m := n.inbox[l.relay][0].message;
       s == At(n.book.owner, n.inbox[l.relay][0].peer, l.relay, ConnectionId(m.connectionId, m.connectionLocal))
  }

  lemma DataNext(n: Net, l: Label, s: Seg)
    requires Chunk(n, l, s)
    ensures HeadChunk(n, s.to, s, n.inbox[s.to][0].message.data)
    ensures var st, data := n.book.relays[s.to], n.inbox[s.to][0].message.data;
            var o := HandleData(st, s.from, s.conn, data, l.env);
            Next(n, l) == Net(Moved(Updated(n.book, s.to, o.state), st, s, data, l.env),
                              PushAll(n.links, s.to, o.sends), n.inbox[s.to := n.inbox[s.to][1..]],
                              n.bound + Listening(s.to, o.state))
  {}

  lemma LocalDataKeeps(n: Net, l: Label, s: Seg)
    requires Chunk(n, l, s) && HasLocal(n.book.relays, s.to, s.from, s.conn)
    requires Inv(n)
    ensures Inv(Next(n, l))
  {
    hide Inv, Next, Handle, HeadChunk, PushAll;
    var p, data, n' := l.relay, n.inbox[l.relay][0].message.data, Next(n, l);
    var st := n.book.relays[p];
    DataNext(n, l, s);
    DataEntry(n, s);
    var t := st.peers[s.from].locals[s.conn];
    if t in l.env.closed {
      var st' := HandleData(st, s.from, s.conn, data, l.env).state;
      assert Shrinks(st, st');
      DroppedNet(n, n', p, st', s, data);
    } else {
      assert Updated(n.book, p, st) == n.book;
      DeliveredNet(n, n', p, s, t, data);
    }
  }

  lemma RelayedDataKeeps(n: Net, l: Label, s: Seg)
    requires Chunk(n, l, s) && !HasLocal(n.book.relays, s.to, s.from, s.conn)
    requires HasRelayed(n.book.relays, s.to, s.from, s.conn)
    requires Inv(n)
    ensures Inv(Next(n, l))
  {
    hide Inv, Next, Handle, HeadChunk, PushAll;
    DataNext(n, l, s);
    DataEntry(n, s);
    var st := n.book.relays[s.to];
    var r := st.peers[s.from].relayed[s.conn];
    assert Updated(n.book, s.to, st) == n.book;
    MovedNet(n, Next(n, l), s.to, s, At(n.book.owner, s.to, r.peer, r.conn), n.inbox[s.to][0].message.data);
  }

  lemma SelfShrinks(s: State)
    ensures Shrinks(s, s)
  {}

  lemma StrayDataKeeps(n: Net, l: Label, s: Seg)
    requires Chunk(n, l, s) && !HasLocal(n.book.relays, s.to, s.from, s.conn)
    requires !HasRelayed(n.book.relays, s.to, s.from, s.conn)
    requires Inv(n)
    ensures Inv(Next(n, l))
  {
    hide Inv, Next, Handle, HeadChunk, PushAll, Shrinks;
    DataNext(n, l, s);
    var st := n.book.relays[s.to];
    assert Updated(n.book, s.to, st) == n.book;
    assert n.book.relays[s.to := st] == n.book.relays;
    SelfShrinks(st);
    DroppedNet(n, Next(n, l), s.to, st, s, n.inbox[s.to][0].message.data);
  }

  /** Whatever a relay does with a chunk, it keeps the invariant. */
  lemma DataKeeps(n: Net, l: Label)
    requires Inv(n) && l.Process? && Enabled(n, l)
    requires n.inbox[l.relay][0].Recv? && n.inbox[l.relay][0].message.RelayData?
    ensures Inv(Next(n, l))
  {
    hide Inv, Next;
    var m := n.inbox[l.relay][0].message;
    var s := At(n.book.owner, n.inbox[l.relay][0].peer, l.relay, ConnectionId(m.connectionId, m.connectionLocal));
    if HasLocal(n.book.relays, s.to, s.from, s.conn) {
      LocalDataKeeps(n, l, s);
    } else if HasRelayed(n.book.relays, s.to, s.from, s.conn) {
      RelayedDataKeeps(n, l, s);
    } else {
      StrayDataKeeps(n, l, s);
    }
  }

  lemma DataEntry(n: Net, s: Seg)
    requires Inv(n)
    ensures HasLocal(n.book.relays, s.to, s.from, s.conn) ==>
              && n.book.relays[s.to].peers[s.from].locals[s.conn] in n.book.threads
              && !HasRelayed(n.book.relays, s.to, s.from, s.conn)
    ensures HasRelayed(n.book.relays, s.to, s.from, s.conn) ==>
              n.book.relays[s.to].peers[s.from].relayed[s.conn].peer in n.book.relays[s.to].peers
  {
    if HasLocal(n.book.relays, s.to, s.from, s.conn) { LocalThread(n.book, s); }
  }
}
