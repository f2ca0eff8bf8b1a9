/** The steps of the threads that serve game sockets keep the circuit invariant. */
module CircuitThreads {
  import opened Basics
  import opened RelayTypes
  import opened Circuits
  import opened CircuitInvariant

  /** `th'` is the same connection, and has read at least as much. */
  ghost predicate SameRole(th: Thread, th': Thread) {
    && th'.relay == th.relay && th'.peer == th.peer && th'.conn == th.conn && th'.host == th.host
    && IsPrefix(th.input, th'.input)
  }

  /** Moreover it has received the same chunks. */
  ghost predicate SameConnection(th: Thread, th': Thread) {
    && SameRole(th, th') && th'.Given() == th.Given() && (th.phase == Closed ==> th'.phase == Closed)
    && (th'.posted && !th'.registered ==> th.phase != Closed || (th.posted && !th.registered))
  }

  /** The parts of the book that only look at a thread's role. */
  lemma RoleMoves(b: Book, t: Tx, th': Thread)
    requires Ends(b.threads, b.feeder, b.origin, b.tip) && Streams(b.origin, b.tip, b.threads, b.fed)
    requires Tips(b.feeder, b.origin, b.tip, b.threads) && t in b.threads && SameRole(b.threads[t], th')
    ensures var threads := b.threads[t := th'];
            && Ends(threads, b.feeder, b.origin, b.tip)
            && Streams(b.origin, b.tip, threads, b.fed)
            && Tips(b.feeder, b.origin, b.tip, threads)
  {
    EndsMove(b, t, th');
    StreamsMove(b, t, th');
    TipsMove(b, t, th');
  }

  lemma ThreadMoves(b: Book, t: Tx, th': Thread)
    requires BookOk(b) && t in b.threads && SameConnection(b.threads[t], th')
    requires ThreadOk(th', Log(b.fed, th'.Out()), Log(b.popped, th'.In()))
    ensures BookOk(b.(threads := b.threads[t := th']))
  {
    LocalsMove(b.relays, b.owner, b.threads, b.popped, t, th');
    RoleMoves(b, t, th');
    ThreadsMove(b, t, th');
    LiveMoves(b.owner, b.threads, t, th');
  }

  lemma LiveMoves(owner: Owners, threads: map<Tx, Thread>, t: Tx, th': Thread)
    requires Live(owner, threads) && t in threads && SameConnection(threads[t], th')
    ensures Live(owner, threads[t := th'])
  {
    forall x | x in threads ensures LiveOk(owner, threads[t := th'][x]) { assert LiveOk(owner, threads[x]); }
  }

  lemma ThreadAt(b: Book, t: Tx)
    requires BookOk(b) && t in b.threads
    ensures ThreadOk(b.threads[t], Log(b.fed, b.threads[t].Out()), Log(b.popped, b.threads[t].In()))
  {}

  lemma LocalsMove(relays: Relays, owner: Owners, threads: map<Tx, Thread>, popped: Chunks, t: Tx, th': Thread)
    requires LocalEntries(relays, owner, threads, popped) && t in threads && SameConnection(threads[t], th')
    ensures LocalEntries(relays, owner, threads[t := th'], popped)
  {
    forall p, q, c | HasLocal(relays, p, q, c)
      ensures LocalOk(threads[t := th'], popped, At(owner, q, p, c), relays[p].peers[q].locals[c])
    {
      assert LocalOk(threads, popped, At(owner, q, p, c), relays[p].peers[q].locals[c]);
    }
  }

  lemma EndsMove(b: Book, t: Tx, th': Thread)
    requires Ends(b.threads, b.feeder, b.origin, b.tip) && t in b.threads && SameRole(b.threads[t], th')
    ensures Ends(b.threads[t := th'], b.feeder, b.origin, b.tip)
  {
    forall x | x in b.threads ensures EndOk(b.feeder, b.origin, b.tip, x, b.threads[t := th'][x]) {
      assert EndOk(b.feeder, b.origin, b.tip, x, b.threads[x]);
    }
  }

  lemma StreamsMove(b: Book, t: Tx, th': Thread)
    requires Streams(b.origin, b.tip, b.threads, b.fed) && t in b.threads && SameRole(b.threads[t], th')
    ensures Streams(b.origin, b.tip, b.threads[t := th'], b.fed)
  {
    forall k | k in b.origin ensures CircuitOk(b.tip, b.threads[t := th'], b.fed, k, b.origin[k]) {
      assert CircuitOk(b.tip, b.threads, b.fed, k, b.origin[k]);
      PrefixTrans(Log(b.fed, k), b.threads[b.origin[k]].input, b.threads[t := th'][b.origin[k]].input);
    }
  }

  lemma TipsMove(b: Book, t: Tx, th': Thread)
    requires Tips(b.feeder, b.origin, b.tip, b.threads) && t in b.threads && SameRole(b.threads[t], th')
    ensures Tips(b.feeder, b.origin, b.tip, b.threads[t := th'])
  {
    forall u | u in b.tip ensures TipOk(b.feeder, b.origin, b.threads[t := th'], u, b.tip[u]) {
      assert TipOk(b.feeder, b.origin, b.threads, u, b.tip[u]);
    }
  }

  lemma ThreadsMove(b: Book, t: Tx, th': Thread)
    requires Threads(b.threads, b.fed, b.popped) && t in b.threads
    requires ThreadOk(th', Log(b.fed, th'.Out()), Log(b.popped, th'.In()))
    ensures Threads(b.threads[t := th'], b.fed, b.popped)
  {
    hide ThreadOk;
    forall x | x in b.threads
      ensures var th := b.threads[t := th'][x]; ThreadOk(th, Log(b.fed, th.Out()), Log(b.popped, th.In()))
    {
      var th := b.threads[x];
      assert ThreadOk(th, Log(b.fed, th.Out()), Log(b.popped, th.In()));
    }
  }

  ghost predicate SamePost(th: Thread, th': Thread) {
    && th'.relay == th.relay && th'.peer == th.peer && th'.conn == th.conn && th'.host == th.host
    && th'.posted == th.posted && th'.registered == th.registered
  }

  lemma PostsMove(threads: map<Tx, Thread>, inbox: Inboxes, t: Tx, th': Thread)
    requires Posts(threads, inbox) && t in threads && SamePost(threads[t], th')
    ensures Posts(threads[t := th'], inbox)
  {
    var threads' := threads[t := th'];
    forall p ensures MailboxOk(threads', p, Log(inbox, p)) {
      var q := Log(inbox, p);
      assert MailboxOk(threads, p, q);
      forall i | 0 <= i < |q| ensures PostOk(threads', p, q[i]) { assert PostOk(threads, p, q[i]); }
    }
  }

  /** Connects and Flow only depend on parts of the book that no thread changes. */
  lemma ConnectsMove(n: Net, n': Net)
    requires Connects(n)
    requires n'.book.relays == n.book.relays && n'.book.feeder == n.book.feeder && n'.book.owner == n.book.owner
    requires n'.book.origin == n.book.origin && n'.book.tip == n.book.tip
    requires forall k :: Opens(n'.inbox, n'.links, k) == Opens(n.inbox, n.links, k)
    ensures Connects(n')
  {
    forall k ensures Increasing(Opens(n'.inbox, n'.links, k))
                  && forall id :: id in Opens(n'.inbox, n'.links, k) ==> OpenOk(n'.book, k, id)
    {
      assert forall id :: id in Opens(n.inbox, n.links, k) ==> OpenOk(n.book, k, id);
    }
  }

  lemma FlowMove(n: Net, n': Net)
    requires Flow(n) && n'.book.fed == n.book.fed && n'.book.popped == n.book.popped && n'.book.owner == n.book.owner
    requires forall s :: Pending(n'.inbox, n'.links, s) == Pending(n.inbox, n.links, s)
    ensures Flow(n')
  {}

  /** The thread after taking the head of its channel to the socket. */
  function Taken(th: Thread): Thread
    requires th.chan != []
  {
    th.(phase := Running, chan := th.chan[1..], output := th.output + [th.chan[0]])
  }

  lemma TakeThread(th: Thread, out: seq<Bytes>, popped: seq<Bytes>)
    requires ThreadOk(th, out, popped) && th.chan != [] && th.phase in {Waiting, Running}
    ensures SameConnection(th, Taken(th)) && ThreadOk(Taken(th), out, popped)
  {
    assert th.chan == [th.chan[0]] + th.chan[1..];
    assert Taken(th).Given() == th.Given() != [];
  }

  lemma TakeKeeps(n: Net, l: Label)
    requires Inv(n) && l.Take? && Enabled(n, l)
    ensures Inv(Next(n, l))
  {
    hide BookOk, Flow, Connects, Posts;
    var b, t, n' := n.book, l.tx, Next(n, l);
    var th := b.threads[t];
    ThreadAt(b, t);
    TakeThread(th, Log(b.fed, th.Out()), Log(b.popped, th.In()));
    ThreadMoves(b, t, Taken(th));
    PostsMove(b.threads, n.inbox, t, Taken(th));
    ConnectsMove(n, n');
    FlowMove(n, n');
  }

  lemma FinishThread(th: Thread, out: seq<Bytes>, popped: seq<Bytes>)
    requires ThreadOk(th, out, popped)
    ensures ThreadOk(th.(phase := Closed), out, popped) && SameConnection(th, th.(phase := Closed))
  {}

  lemma FinishKeeps(n: Net, l: Label)
    requires Inv(n) && l.Finish? && Enabled(n, l)
    ensures Inv(Next(n, l))
  {
    hide BookOk, Flow, Connects, Posts;
    var b, t, n' := n.book, l.tx, Next(n, l);
    var th := b.threads[t];
    var th' := th.(phase := Closed);
    ThreadAt(b, t);
    FinishThread(th, Log(b.fed, th.Out()), Log(b.popped, th.In()));
    ThreadMoves(b, t, th');
    PostsMove(b.threads, n.inbox, t, th');
    LinkQuiet(n.inbox, n.links, Link(th.relay, th.peer), RelayClose(th.conn.id, th.conn.local));
    ConnectsMove(n, n');
    FlowMove(n, n');
  }

  lemma BreakThread(th: Thread, out: seq<Bytes>, popped: seq<Bytes>, k: nat)
    requires ThreadOk(th, out, popped) && th.chan != [] && k <= |th.chan[0]|
    ensures var th' := th.(phase := Closed, torn := th.chan[0][..k]);
            ThreadOk(th', out, popped) && SameConnection(th, th')
  {}

  lemma BreakKeeps(n: Net, l: Label)
    requires Inv(n) && l.Break? && Enabled(n, l)
    ensures Inv(Next(n, l))
  {
    hide BookOk, Flow, Connects, Posts;
    var b, t, n' := n.book, l.tx, Next(n, l);
    var th := b.threads[t];
    var th' := th.(phase := Closed, torn := th.chan[0][..l.written]);
    ThreadAt(b, t);
    BreakThread(th, Log(b.fed, th.Out()), Log(b.popped, th.In()), l.written);
    ThreadMoves(b, t, th');
    PostsMove(b.threads, n.inbox, t, th');
    LinkQuiet(n.inbox, n.links, Link(th.relay, th.peer), RelayClose(th.conn.id, th.conn.local));
    ConnectsMove(n, n');
    FlowMove(n, n');
  }

  // ---------------------------------------------------------------- the handshake

  /** A client that has been given nothing has read nothing. */
  lemma SilentClient(th: Thread, out: seq<Bytes>, popped: seq<Bytes>, pending: seq<Bytes>, back: seq<Bytes>)
    requires ThreadOk(th, out, popped) && !th.host
    requires IsPrefix(popped + pending, back) && back == []
    ensures th.input == []
  {
    assert th.Given() == [];
  }

  /** As long as nothing came back along a circuit, its client has sent nothing. */
  lemma Silent(n: Net, k: Seg)
    requires Streams(n.book.origin, n.book.tip, n.book.threads, n.book.fed) && Flow(n)
    requires Threads(n.book.threads, n.book.fed, n.book.popped)
    requires Ends(n.book.threads, n.book.feeder, n.book.origin, n.book.tip)
    requires k in n.book.origin && n.book.origin[k] in n.book.tip
    requires Log(n.book.fed, Rev(n.book.tip[n.book.origin[k]])) == []
    ensures Log(n.book.fed, k) == []
  {
    var b, u := n.book, n.book.origin[k];
    assert CircuitOk(b.tip, b.threads, b.fed, k, u);
    var th := b.threads[u];
    assert EndOk(b.feeder, b.origin, b.tip, u, th);
    assert CircuitOk(b.tip, b.threads, b.fed, th.Out(), u);
    assert Rev(th.Out()) == th.In();
    SilentClient(th, Log(b.fed, th.Out()), Log(b.popped, th.In()), OnTheWay(b.owner, n.inbox, n.links, th.In()),
                 Log(b.fed, Rev(b.tip[u])));
  }

  lemma MailboxConnected(threads: map<Tx, Thread>, p: PeerId, q: seq<Event>, t: Tx, th': Thread)
    requires MailboxOk(threads, p, q) && t in threads && !threads[t].posted
    requires th' == threads[t].(phase := Running, posted := true) && th'.host && !th'.registered
    ensures MailboxOk(threads[t := th'], p, q)
    ensures forall i :: 0 <= i < |q| && q[i].AddGameConnection? ==> q[i].tx != t
  {
    forall i | 0 <= i < |q| ensures PostOk(threads[t := th'], p, q[i]) && (q[i].AddGameConnection? ==> q[i].tx != t) {
      assert PostOk(threads, p, q[i]);
    }
  }

  lemma MailboxPosted(threads: map<Tx, Thread>, q: seq<Event>, t: Tx, th: Thread)
    requires MailboxOk(threads, th.relay, q) && t in threads
    requires threads[t] == th && th.host && th.posted && !th.registered
    requires forall i :: 0 <= i < |q| && q[i].AddGameConnection? ==> q[i].tx != t
    requires InboxData(q, th.peer, th.conn) == []
    ensures MailboxOk(threads, th.relay, q + [AddGameConnection(th.peer, th.conn, th.game, t)])
  {
    hide EventData, InboxData;
    var e := AddGameConnection(th.peer, th.conn, th.game, t);
    var q' := q + [e];
    forall i, j | 0 <= i < j < |q'| && q'[j].AddGameConnection?
      ensures (q'[i].AddGameConnection? ==> q'[i].tx != q'[j].tx) && EventData(q'[i], q'[j].peer, q'[j].conn) == []
    {
      assert q'[i] == q[i];
      if j < |q| { assert q'[j] == q[j]; } else { InboxDataEmpty(q, th.peer, th.conn, i); }
    }
    forall i | 0 <= i < |q'| ensures PostOk(threads, th.relay, q'[i]) {
      assert i < |q| ==> q'[i] == q[i];
    }
  }

  lemma PostsConnected(threads: map<Tx, Thread>, inbox: Inboxes, t: Tx, th': Thread)
    requires Posts(threads, inbox) && t in threads && !threads[t].posted
    requires th' == threads[t].(phase := Running, posted := true) && th'.host && !th'.registered
    requires InboxData(Log(inbox, th'.relay), th'.peer, th'.conn) == []
    ensures Posts(threads[t := th'], Append(inbox, th'.relay, AddGameConnection(th'.peer, th'.conn, th'.game, t)))
  {
    hide MailboxOk;
    var threads' := threads[t := th'];
    var e := AddGameConnection(th'.peer, th'.conn, th'.game, t);
    var inbox' := Append(inbox, th'.relay, e);
    forall p ensures MailboxOk(threads', p, Log(inbox', p)) {
      MailboxConnected(threads, p, Log(inbox, p), t, th');
      if p == th'.relay { MailboxPosted(threads', Log(inbox, p), t, th'); }
    }
    forall x | x in threads' && threads'[x].posted && !threads'[x].registered
      ensures Posted(Log(inbox', threads'[x].relay), x)
    {
      var q, q' := Log(inbox, threads'[x].relay), Log(inbox', threads'[x].relay);
      if x == t {
        assert q'[|q|] == e;
      } else {
        var i :| 0 <= i < |q| && q[i].AddGameConnection? && q[i].tx == x;
        assert q'[i] == q[i];
      }
    }
  }

  /** When a host thread posts its AddGameConnection, no chunk for it can be on its way. */
  lemma NothingAhead(n: Net, t: Tx)
    requires BookOk(n.book) && Flow(n) && t in n.book.threads
    requires n.book.threads[t].host && !n.book.threads[t].posted && Current(n.book.owner, n.book.threads[t].In())
    ensures var th := n.book.threads[t]; InboxData(Log(n.inbox, th.relay), th.peer, th.conn) == []
  {
    var b, th := n.book, n.book.threads[t];
    assert EndOk(b.feeder, b.origin, b.tip, t, th);
    assert ThreadOk(th, Log(b.fed, th.Out()), Log(b.popped, th.In()));
    assert Rev(th.In()) == th.Out();
    Silent(n, th.In());
    assert Log(b.fed, th.In()) == Log(b.popped, th.In()) + Pending(n.inbox, n.links, th.In());
  }

  lemma LiveAt(b: Book, t: Tx)
    requires BookOk(b) && t in b.threads && b.threads[t].phase != Closed
    ensures Current(b.owner, b.threads[t].Out()) && Current(b.owner, b.threads[t].In())
  {
    assert LiveOk(b.owner, b.threads[t]);
  }

  lemma ConnectedThread(th: Thread, out: seq<Bytes>, popped: seq<Bytes>)
    requires ThreadOk(th, out, popped) && th.phase == Dialing
    ensures th.host && !th.posted && !th.registered
    ensures var th' := th.(phase := Running, posted := true); ThreadOk(th', out, popped) && SameConnection(th, th')
  {}

  lemma ConnectedKeeps(n: Net, l: Label)
    requires Inv(n) && l.Connected? && Enabled(n, l)
    ensures Inv(Next(n, l))
  {
    hide BookOk, Flow, Connects, Posts;
    var b, t, n' := n.book, l.tx, Next(n, l);
    var th := b.threads[t];
    var th' := th.(phase := Running, posted := true);
    ThreadAt(b, t);
    ConnectedThread(th, Log(b.fed, th.Out()), Log(b.popped, th.In()));
    LiveAt(b, t);
    NothingAhead(n, t);
    ThreadMoves(b, t, th');
    PostsConnected(b.threads, n.inbox, t, th');
    InboxGrows(n.inbox, n.links, th.relay, AddGameConnection(th.peer, th.conn, th.game, t));
    ConnectsMove(n, n');
    FlowMove(n, n');
  }

  // ---------------------------------------------------------------- reading from the socket

  lemma Opposite(relays: Relays, feeder: map<Seg, Feeder>, origin: map<Seg, Tx>, s: Seg)
    requires Ids(relays, feeder, origin) && s in origin
    ensures Rev(s) !in origin
  {}

  /** One more chunk on the outgoing segment of thread `t`. */
  lemma FedThreads(b: Book, t: Tx, th': Thread, data: Bytes)
    requires Threads(b.threads, b.fed, b.popped) && Ends(b.threads, b.feeder, b.origin, b.tip)
    requires t in b.threads && th'.Out() == b.threads[t].Out()
    requires ThreadOk(th', Log(b.fed, th'.Out()) + [data], Log(b.popped, th'.In()))
    ensures Threads(b.threads[t := th'], Append(b.fed, th'.Out(), data), b.popped)
  {
    var fed := Append(b.fed, th'.Out(), data);
    forall x | x in b.threads
      ensures var th := b.threads[t := th'][x]; ThreadOk(th, Log(fed, th.Out()), Log(b.popped, th.In()))
    {
      var th := b.threads[x];
      assert ThreadOk(th, Log(b.fed, th.Out()), Log(b.popped, th.In()));
      assert EndOk(b.feeder, b.origin, b.tip, x, th) && EndOk(b.feeder, b.origin, b.tip, t, b.threads[t]);
    }
  }

  lemma FedCircuit(tip: map<Tx, Seg>, threads: map<Tx, Thread>, fed: Chunks, k: Seg, u: Tx, s: Seg, data: Bytes)
    requires CircuitOk(tip, threads, fed, k, u)
    requires k == s ==> IsPrefix(Log(fed, s) + [data], threads[u].input)
    requires Rev(k) == s ==> IsPrefix(Log(fed, s) + [data], Log(Append(fed, s, data), Rev(tip[u])))
    ensures CircuitOk(tip, threads, Append(fed, s, data), k, u)
  {
    var fed' := Append(fed, s, data);
    if Rev(k) != s {
      PrefixTrans(Log(fed, Rev(k)), Log(fed, Rev(tip[u])), Log(fed', Rev(tip[u])));
    }
  }

  /** A host feeds no segment that leads to a host, a client none that leads back to a client. */
  lemma EndOpposite(b: Book, t: Tx)
    requires Ends(b.threads, b.feeder, b.origin, b.tip) && Ids(b.relays, b.feeder, b.origin) && t in b.threads
    ensures EndOk(b.feeder, b.origin, b.tip, t, b.threads[t])
    ensures var th := b.threads[t]; if th.host then th.Out() !in b.origin else th.In() !in b.origin
  {
    var th := b.threads[t];
    assert Rev(th.In()) == th.Out() && Rev(th.Out()) == th.In();
    Opposite(b.relays, b.feeder, b.origin, if th.host then th.In() else th.Out());
  }

  lemma FedStreams(b: Book, t: Tx, th: Thread, threads: map<Tx, Thread>, data: Bytes)
    requires Streams(b.origin, b.tip, threads, b.fed) && EndOk(b.feeder, b.origin, b.tip, t, th)
    requires if th.host then th.Out() !in b.origin else th.In() !in b.origin
    requires !th.host ==> t in threads && Log(b.fed, th.Out()) + [data] == threads[t].input
    ensures Streams(b.origin, b.tip, threads, Append(b.fed, th.Out(), data))
  {
    var fed := Append(b.fed, th.Out(), data);
    forall k | k in b.origin ensures CircuitOk(b.tip, threads, fed, k, b.origin[k]) {
      assert Rev(k) == th.Out() ==> k == th.In();
      FedCircuit(b.tip, threads, b.fed, k, b.origin[k], th.Out(), data);
    }
  }

  lemma FedRelayed(b: Book, t: Tx, data: Bytes)
    requires RelayedEntries(b.relays, b.owner, b.feeder, b.fed, b.popped) && Feeds(b.feeder, b.fed, b.popped)
    requires t in b.threads && Ends(b.threads, b.feeder, b.origin, b.tip)
    ensures var fed := Append(b.fed, b.threads[t].Out(), data);
            RelayedEntries(b.relays, b.owner, b.feeder, fed, b.popped) && Feeds(b.feeder, fed, b.popped)
  {
    var fed := Append(b.fed, b.threads[t].Out(), data);
    assert EndOk(b.feeder, b.origin, b.tip, t, b.threads[t]);
    forall p, q, c | HasRelayed(b.relays, p, q, c)
      ensures RelayedOk(b.owner, b.feeder, fed, b.popped, At(b.owner, q, p, c), b.relays[p].peers[q].relayed[c])
    {
      assert RelayedOk(b.owner, b.feeder, b.fed, b.popped, At(b.owner, q, p, c), b.relays[p].peers[q].relayed[c]);
    }
  }

  lemma FedFlow(n: Net, n': Net, s: Seg, data: Bytes)
    requires Flow(n) && n'.book.fed == Append(n.book.fed, s, data) && n'.book.popped == n.book.popped
    requires n'.inbox == n.inbox && n'.book.owner == n.book.owner && Current(n.book.owner, s)
    requires n'.links == Append(n.links, Link(s.from, s.to), RelayData(s.conn.id, s.conn.local, data))
    ensures Flow(n')
  {
    var m := RelayData(s.conn.id, s.conn.local, data);
    forall x ensures Log(n'.book.fed, x) == Log(n'.book.popped, x) + OnTheWay(n'.book.owner, n'.inbox, n'.links, x) {
      LinkGrowsAt(n.inbox, n.links, Link(s.from, s.to), m, x);
      FedFlowAt(n, n', s, data, x);
    }
  }

  lemma FedFlowAt(n: Net, n': Net, s: Seg, data: Bytes, x: Seg)
    requires Log(n.book.fed, x) == Log(n.book.popped, x) + OnTheWay(n.book.owner, n.inbox, n.links, x)
    requires n'.book.fed == Append(n.book.fed, s, data)
    requires n'.book.popped == n.book.popped && n'.book.owner == n.book.owner
    requires Pending(n'.inbox, n'.links, x) == Pending(n.inbox, n.links, x)
               + NewChunk(Link(s.from, s.to), RelayData(s.conn.id, s.conn.local, data), x)
    requires Current(n.book.owner, s)
    ensures Log(n'.book.fed, x) == Log(n'.book.popped, x) + OnTheWay(n'.book.owner, n'.inbox, n'.links, x)
  {
    hide Pending;
    var m := RelayData(s.conn.id, s.conn.local, data);
    if Current(n.book.owner, x) {
      assert NewChunk(Link(s.from, s.to), m, x) == if x == s then [data] else [];
      Assoc(Log(n.book.popped, x), Pending(n.inbox, n.links, x), NewChunk(Link(s.from, s.to), m, x));
    }
  }

  lemma FedOpens(inbox: Inboxes, links: Links, k: Link, m: RelayMessage)
    requires m.RelayData?
    ensures forall j :: Opens(inbox, Append(links, k, m), j) == Opens(inbox, links, j)
  {
    forall j ensures Opens(inbox, Append(links, k, m), j) == Opens(inbox, links, j) {
      LinkOpensAt(inbox, links, k, m, j);
    }
  }

  lemma ReadThread(th: Thread, out: seq<Bytes>, popped: seq<Bytes>, data: Bytes)
    requires ThreadOk(th, out, popped) && th.phase == Running
    ensures ThreadOk(th.(input := th.input + [data]), out + [data], popped)
    ensures SameConnection(th, th.(input := th.input + [data]))
  {
    FlatConcat(out, [data]);
    FlatConcat(th.input, [data]);
  }

  lemma ReadBook(b: Book, t: Tx, data: Bytes)
    requires BookOk(b) && t in b.threads && b.threads[t].phase == Running
    ensures var th := b.threads[t];
            BookOk(b.(threads := b.threads[t := th.(input := th.input + [data])], fed := Append(b.fed, th.Out(), data)))
  {
    var th := b.threads[t];
    var th' := th.(input := th.input + [data]);
    ReadThread(th, Log(b.fed, th.Out()), Log(b.popped, th.In()), data);
    LocalsMove(b.relays, b.owner, b.threads, b.popped, t, th');
    LiveMoves(b.owner, b.threads, t, th');
    RoleMoves(b, t, th');
    FedThreads(b, t, th', data);
    EndOpposite(b, t);
    FedStreams(b, t, th, b.threads[t := th'], data);
    FedRelayed(b, t, data);
  }

  lemma ReadKeeps(n: Net, l: Label)
    requires Inv(n) && l.Read? && Enabled(n, l)
    ensures Inv(Next(n, l))
  {
    hide BookOk, Flow, Connects, Posts;
    var b, t, n' := n.book, l.tx, Next(n, l);
    var th := b.threads[t];
    ReadBook(b, t, l.data);
    LiveAt(b, t);
    PostsMove(b.threads, n.inbox, t, th.(input := th.input + [l.data]));
    FedOpens(n.inbox, n.links, Link(th.relay, th.peer), RelayData(th.conn.id, th.conn.local, l.data));
    ConnectsMove(n, n');
    FedFlow(n, n', th.Out(), l.data);
  }
}
