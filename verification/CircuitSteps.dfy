/** Registering a host, and with it every step, keeps the circuit invariant. */
module CircuitSteps {
  import opened Basics
  import opened RelayTypes
  import opened RelayModel
  import opened Pairing
  import opened Circuits
  import opened CircuitInvariant
  import opened CircuitThreads
  import opened CircuitLoop
  import opened CircuitClaim
  import opened CircuitOpen
  import opened CircuitForward
  import opened CircuitData

  // ---------------------------------------------------------------- registering a host

  lemma RegisteredThread(th: Thread, out: seq<Bytes>, popped: seq<Bytes>)
    requires ThreadOk(th, out, popped) && th.host && th.posted && !th.registered
    ensures ThreadOk(th.(registered := true), out, popped) && ThreadOk(th.(registered := true), out + [[]], popped)
    ensures popped == [] && th.Given() == []
  {
    FlatConcat(out, [[]]);
    assert Flat([[]]) == [];
  }

  lemma RegisteredPosts(threads: map<Tx, Thread>, inbox: Inboxes, p: PeerId, t: Tx)
    requires Posts(threads, inbox) && Log(inbox, p) != [] && inbox[p][0].AddGameConnection? && inbox[p][0].tx == t
    requires t in threads && threads[t].relay == p
    ensures Posts(threads[t := threads[t].(registered := true)], inbox[p := inbox[p][1..]])
  {
    var threads', inbox' := threads[t := threads[t].(registered := true)], inbox[p := inbox[p][1..]];
    forall r ensures MailboxOk(threads', r, Log(inbox', r)) {
      var q := Log(inbox', r);
      MailboxPop(threads, r, Log(inbox, r));
      assert MailboxOk(threads, r, q);
      forall i | 0 <= i < |q| ensures PostOk(threads', r, q[i]) {
        assert PostOk(threads, r, q[i]);
        if r == p { assert q[i] == inbox[p][i + 1] && MailboxOk(threads, p, Log(inbox, p)); }
      }
    }
    forall x | x in threads' && threads'[x].posted && !threads'[x].registered
      ensures Posted(Log(inbox', threads'[x].relay), x)
    {
      var q := Log(inbox, threads[x].relay);
      var i :| 0 <= i < |q| && q[i].AddGameConnection? && q[i].tx == x;
      if threads[x].relay == p { assert q[1..][i - 1] == q[i]; }
    }
  }

  /** The tables after a game connection was added. */
  function Added(s: State, q: PeerId, c: ConnectionId, t: Tx): State
    requires q in s.peers
  {
    s.(peers := s.peers[q := s.peers[q].(locals := s.peers[q].locals[c := t])])
  }

  lemma AddedTables(b: Book, p: PeerId, q: PeerId, c: ConnectionId, t: Tx)
    requires p in b.relays && q in b.relays[p].peers && Pointers(b.relays)
    requires RelayedEntries(b.relays, b.owner, b.feeder, b.fed, b.popped)
    requires LocalEntries(b.relays, b.owner, b.threads, b.popped)
    requires LocalOk(b.threads, b.popped, At(b.owner, q, p, c), t)
    ensures var relays := b.relays[p := Added(b.relays[p], q, c, t)];
            && Pointers(relays) && RelayedEntries(relays, b.owner, b.feeder, b.fed, b.popped)
            && LocalEntries(relays, b.owner, b.threads, b.popped)
            && (forall x, y :: NextId(relays, x, y) == NextId(b.relays, x, y))
  {
    var relays := b.relays[p := Added(b.relays[p], q, c, t)];
    forall x, y, e | HasRelayed(relays, x, y, e)
      ensures HasRelayed(b.relays, x, y, e) && relays[x].peers[y].relayed[e] == b.relays[x].peers[y].relayed[e]
    {}
    forall x, y, e | HasLocal(relays, x, y, e)
      ensures LocalOk(b.threads, b.popped, At(b.owner, y, x, e), relays[x].peers[y].locals[e])
    {
      if (x, y, e) != (p, q, c) {
        assert HasLocal(b.relays, x, y, e);
        assert LocalOk(b.threads, b.popped, At(b.owner, y, x, e), b.relays[x].peers[y].locals[e]);
      }
    }
    forall x, y ensures NextId(relays, x, y) == NextId(b.relays, x, y) {}
  }

  lemma AddedIds(b: Book, p: PeerId, q: PeerId, c: ConnectionId, t: Tx)
    requires p in b.relays && q in b.relays[p].peers && Ids(b.relays, b.feeder, b.origin)
    ensures Ids(b.relays[p := Added(b.relays[p], q, c, t)], b.feeder, b.origin)
  {
    var relays := b.relays[p := Added(b.relays[p], q, c, t)];
    forall x, y ensures NextId(relays, x, y) == NextId(b.relays, x, y) {}
    forall s | s in b.feeder ensures Allocated(relays, s) { assert Allocated(b.relays, s); }
  }

  /** A connection that enters the local table of its relay. */
  lemma AddedBook(b: Book, p: PeerId, q: PeerId, c: ConnectionId, t: Tx)
    requires BookOk(b) && p in b.relays && q in b.relays[p].peers
    requires LocalOk(b.threads, b.popped, At(b.owner, q, p, c), t)
    ensures BookOk(Updated(b, p, Added(b.relays[p], q, c, t)))
  {
    AddedTables(b, p, q, c, t);
    AddedIds(b, p, q, c, t);
  }

  /** The empty chunk that answers a Connect. */
  lemma AnsweredBook(b: Book, t: Tx)
    requires BookOk(b) && t in b.threads && b.threads[t].host
    requires ThreadOk(b.threads[t], Log(b.fed, b.threads[t].Out()) + [[]], Log(b.popped, b.threads[t].In()))
    ensures BookOk(b.(fed := Append(b.fed, b.threads[t].Out(), [])))
  {
    hide Feeds, RelayedEntries, LocalEntries, Threads, Live, Ends, Ids, Streams, Tips, Splices;
    var th := b.threads[t];
    assert b.threads[t := th] == b.threads;
    FedThreads(b, t, th, []);
    EndOpposite(b, t);
    FedStreams(b, t, th, b.threads, []);
    FedRelayed(b, t, []);
  }

  /** The event at the head of a mailbox registers thread `t`. */
  ghost predicate HeadPost(n: Net, p: PeerId, q: PeerId, c: ConnectionId, t: Tx) {
    Log(n.inbox, p) != [] && n.inbox[p][0].AddGameConnection?
    && n.inbox[p][0].peer == q && n.inbox[p][0].conn == c && n.inbox[p][0].tx == t
  }

  lemma PostedThread(b: Book, inbox: Inboxes, p: PeerId, q: PeerId, c: ConnectionId, t: Tx)
    requires Posts(b.threads, inbox) && Live(b.owner, b.threads) && Threads(b.threads, b.fed, b.popped)
    requires Log(inbox, p) != [] && Registers(inbox[p][0], q, c) && inbox[p][0].tx == t
    ensures t in b.threads
    ensures var th := b.threads[t];
            && th.host && th.posted && !th.registered && th.Out() == At(b.owner, p, q, c)
            && th.In() == At(b.owner, q, p, c)
            && ThreadOk(th, Log(b.fed, th.Out()), Log(b.popped, th.In()))
  {
    hide ThreadOk;
    assert MailboxOk(b.threads, p, Log(inbox, p));
    assert PostOk(b.threads, p, inbox[p][0]);
    assert LiveOk(b.owner, b.threads[t]);
  }

  lemma HeadThread(n: Net, p: PeerId, q: PeerId, c: ConnectionId, t: Tx)
    requires Inv(n) && HeadPost(n, p, q, c, t)
    ensures t in n.book.threads
    ensures var th := n.book.threads[t];
            && th.host && th.posted && !th.registered && th.Out() == At(n.book.owner, p, q, c)
            && th.In() == At(n.book.owner, q, p, c)
            && ThreadOk(th, Log(n.book.fed, th.Out()), Log(n.book.popped, th.In()))
  {
    hide Posts, Live, Threads, ThreadOk, Flow, Connects;
    PostedThread(n.book, n.inbox, p, q, c, t);
  }

  /** The book after relay `p` registered thread `t` and answered. */
  function Answered(b: Book, p: PeerId, q: PeerId, c: ConnectionId, t: Tx): Book
    requires p in b.relays && q in b.relays[p].peers && t in b.threads
  {
    Updated(b, p, Added(b.relays[p], q, c, t)).(threads := b.threads[t := b.threads[t].(registered := true)],
                                                fed := Append(b.fed, At(b.owner, p, q, c), []))
  }

  lemma AnsweredKeeps(n: Net, p: PeerId, q: PeerId, c: ConnectionId, t: Tx)
    requires HeadPost(n, p, q, c, t) && p in n.book.relays && q in n.book.relays[p].peers && t in n.book.threads
    requires Inv(n)
    ensures BookOk(Answered(n.book, p, q, c, t)) && n.book.threads[t].relay == p
  {
    hide BookOk, Flow, Connects, Posts;
    var b, th := n.book, n.book.threads[t];
    HeadThread(n, p, q, c, t);
    RegisteredThread(th, Log(b.fed, th.Out()), Log(b.popped, th.In()));
    ThreadMoves(b, t, th.(registered := true));
    var b1 := b.(threads := b.threads[t := th.(registered := true)]);
    AddedBook(b1, p, q, c, t);
    AnsweredBook(Updated(b1, p, Added(b.relays[p], q, c, t)), t);
  }

  lemma AnsweredNet(n: Net, n': Net, p: PeerId, q: PeerId, c: ConnectionId, t: Tx)
    requires HeadPost(n, p, q, c, t) && p in n.book.relays && q in n.book.relays[p].peers && t in n.book.threads
    requires n'.inbox == n.inbox[p := n.inbox[p][1..]]
    requires n'.links == PushAll(n.links, p, map[q := RelayData(c.id, c.local, [])])
    requires n'.book == Answered(n.book, p, q, c, t)
    requires Inv(n)
    ensures Inv(n')
  {
    hide BookOk, Flow, Connects, Posts, Inv, PushAll, Added;
    var b, sends := n.book, map[q := RelayData(c.id, c.local, [])];
    InvParts(n);
    AnsweredKeeps(n, p, q, c, t);
    AddedNext(b, p, q, c, t);
    ConnectsPop(n, n', p, sends);
    RegisteredFlow(n, n', p, At(b.owner, p, q, c), sends);
    RegisteredPosts(b.threads, n.inbox, p, t);
    InvWhole(n');
  }

  lemma AddedNext(b: Book, p: PeerId, q: PeerId, c: ConnectionId, t: Tx)
    requires p in b.relays && q in b.relays[p].peers
    ensures forall x, y :: NextId(b.relays[p := Added(b.relays[p], q, c, t)], x, y) == NextId(b.relays, x, y)
  {
    forall x, y ensures NextId(b.relays[p := Added(b.relays[p], q, c, t)], x, y) == NextId(b.relays, x, y) {}
  }

  lemma RegisteredFlow(n: Net, n': Net, p: PeerId, s: Seg, sends: map<PeerId, RelayMessage>)
    requires Flow(n) && Log(n.inbox, p) != [] && n.inbox[p][0].AddGameConnection?
    requires s.from == p && Current(n.book.owner, s)
    requires sends == map[s.to := RelayData(s.conn.id, s.conn.local, [])]
    requires n'.inbox == n.inbox[p := n.inbox[p][1..]] && n'.links == PushAll(n.links, p, sends)
    requires n'.book.popped == n.book.popped && n'.book.fed == Append(n.book.fed, s, [])
    requires n'.book.owner == n.book.owner
    ensures Flow(n')
  {
    FedPushed(n.book.owner, n.book.fed, s, []);
    forall x ensures Popped(p, n.inbox[p][0], x) == [] {}
    FlowProcess(n, n', p, sends);
  }

  lemma RegisterKeeps(n: Net, l: Label)
    requires Inv(n) && l.Process? && Enabled(n, l) && n.inbox[l.relay][0].AddGameConnection?
    ensures Inv(Next(n, l))
  {
    hide Inv;
    var p, e, n' := l.relay, n.inbox[l.relay][0], Next(n, l);
    var s := n.book.relays[p];
    HeadThread(n, p, e.peer, e.conn, e.tx);
    if e.peer in s.peers {
      AnsweredNet(n, n', p, e.peer, e.conn, e.tx);
    } else {
      assert Updated(n.book, p, s) == n.book;
      UnansweredNet(n, n', p, e.peer, e.conn, e.tx);
    }
  }

  lemma UnansweredNet(n: Net, n': Net, p: PeerId, q: PeerId, c: ConnectionId, t: Tx)
    requires HeadPost(n, p, q, c, t) && t in n.book.threads
    requires n'.inbox == n.inbox[p := n.inbox[p][1..]] && n'.links == PushAll(n.links, p, map[])
    requires n'.book == n.book.(threads := n.book.threads[t := n.book.threads[t].(registered := true)])
    requires Inv(n)
    ensures Inv(n')
  {
    hide BookOk, Flow, Connects, Posts, Inv;
    var b, th := n.book, n.book.threads[t];
    HeadThread(n, p, q, c, t);
    RegisteredThread(th, Log(b.fed, th.Out()), Log(b.popped, th.In()));
    InvParts(n);
    ThreadMoves(b, t, th.(registered := true));
    ConnectsPop(n, n', p, map[]);
    FlowQuiet(n, n', p, map[]);
    RegisteredPosts(b.threads, n.inbox, p, t);
    InvWhole(n');
  }

  // ---------------------------------------------------------------- every step

  /** What all steps without collisions keep. */
  ghost predicate Steady(n: Net) {
    Inv(n) && Paireds(n.book.relays)
  }

  lemma ProcessKeeps(n: Net, l: Label)
    requires Steady(n) && l.Process? && Enabled(n, l) && NoCollisionAt(n, l)
    ensures Inv(Next(n, l))
  {
    hide Inv, Next;
    var s, e := n.book.relays[l.relay], n.inbox[l.relay][0];
    if IsQuiet(s, e, l.env) {
      QuietKeeps(n, l);
    } else {
      match e {
        case AcceptGameConnection(_) => AcceptKeeps(n, l);
        case AddGameConnection(_, _, _, _) => RegisterKeeps(n, l);
        case Recv(_, m) =>
          if m.RelayData? { DataKeeps(n, l); }
          else if Dials(s, e) { DialKeeps(n, l); }
          else { ForwardKeeps(n, l); }
      }
    }
  }

  /** No entry leads to a peer that is not there. */
  lemma NoneToNew(relays: Relays, x: PeerId, p: PeerId, env: Env)
    requires Pointers(relays) && x in relays && p !in relays[x].peers
    ensures NoCollision(relays[x], AddPeer(p), env)
  {
    forall q, c, d ensures !Linked(relays[x], q, c, p, d) {
      assert Linked(relays[x], q, c, p, d) ==> HasRelayed(relays, x, q, c);
    }
  }

  lemma NextIsFree(n: Net, x: PeerId, from: PeerId, m: RelayMessage, env: Env)
    requires x in n.book.relays && m.RelayConnect?
    requires Forwards(n.book.relays[x], from, m.gameId, m.connectionId, m.hops, env) ==>
               var to := n.book.relays[x].games[m.gameId].peer;
               !HasRelayed(n.book.relays, x, to, n.book.relays[x].peers[to].next)
    ensures NoCollision(n.book.relays[x], Recv(from, m), env)
  {}

  /** An event that allocates no id in use keeps the pairing of relayed connections. */
  lemma PairsKeep(n: Net, l: Label)
    requires Pointers(n.book.relays) && Paireds(n.book.relays) && l.Process? && Enabled(n, l) && NoCollisionAt(n, l)
    ensures Paired(Handle(n.book.relays[l.relay], n.inbox[l.relay][0], l.env).state)
  {
    hide Handle, Pointers, HasRelayed, NoCollision, Paired, Forwards;
    var s, e, env := n.book.relays[l.relay], n.inbox[l.relay][0], l.env;
    match e {
      case AddPeer(p) => NoneToNew(n.book.relays, l.relay, p, env);
      case Recv(from, m) =>
        if m.RelayConnect? { NextIsFree(n, l.relay, from, m, env); } else { NoneForwarded(s, from, m, env); }
      case _ => NoneAllocated(s, e, env);
    }
    PairedStep(s, e, env);
  }

  lemma NoneForwarded(s: State, from: PeerId, m: RelayMessage, env: Env)
    requires !m.RelayConnect?
    ensures NoCollision(s, Recv(from, m), env)
  {}

  lemma NoneAllocated(s: State, e: Event, env: Env)
    requires !e.AddPeer? && !e.Recv?
    ensures NoCollision(s, e, env)
  {}

  lemma BookPointers(n: Net)
    requires Inv(n)
    ensures Pointers(n.book.relays)
  {}

  lemma PairedsStep(n: Net, l: Label)
    requires Steady(n) && Enabled(n, l) && NoCollisionAt(n, l)
    ensures Paireds(Next(n, l).book.relays)
  {
    hide Handle, Account, Inv, Pointers, NoCollisionAt;
    if l.Process? {
      BookPointers(n);
      PairsKeep(n, l);
    }
  }

  /** Every step that causes no collision keeps the invariant. */
  lemma InvStep(n: Net, l: Label)
    requires Steady(n) && Enabled(n, l) && NoCollisionAt(n, l)
    ensures Steady(Next(n, l))
  {
    hide Inv, Next, Paireds, NoCollisionAt;
    PairedsStep(n, l);
    match l {
      case Arrive(_, _) => ArriveKeeps(n, l);
      case Transfer(_) => TransferKeeps(n, l);
      case Process(_, _) => ProcessKeeps(n, l);
      case Connected(_) => ConnectedKeeps(n, l);
      case Take(_) => TakeKeeps(n, l);
      case Break(_, _) => BreakKeeps(n, l);
      case Read(_, _) => ReadKeeps(n, l);
      case Finish(_) => FinishKeeps(n, l);
    }
  }
}
