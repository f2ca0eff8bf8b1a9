/** What holds of every run of a network that allocates no id twice at a time. */
module CircuitTheorems {
  import opened Basics
  import opened RelayTypes
  import opened RelayModel
  import opened Circuits
  import opened CircuitInvariant
  import opened CircuitThreads
  import opened CircuitData
  import opened CircuitSteps

  lemma {:induction false} InvRun(n: Net, ls: seq<Label>)
    requires Steady(n) && Valid(n, ls) && Collisionless(n, ls)
    ensures Steady(Exec(n, ls))
    decreases |ls|
  {
    hide Steady, NoCollisionAt, Next;
    if ls != [] {
      InvStep(n, ls[0]);
      InvRun(Next(n, ls[0]), ls[1..]);
    }
  }

  lemma InvStart(n: Net)
    requires Start(n)
    ensures Steady(n)
  {
    var relays := n.book.relays;
    forall p | p in relays ensures relays[p].peers == map[] { assert relays[p] == Init(relays[p].discoveryPort); }
    assert forall p, q, c :: !HasRelayed(relays, p, q, c) && !HasLocal(relays, p, q, c);
    assert forall p, q :: NextId(relays, p, q) == 0;
    assert forall s :: Pending(n.inbox, n.links, s) == [];
    assert forall k :: Opens(n.inbox, n.links, k) == [];
    assert forall p :: MailboxOk(n.book.threads, p, Log(n.inbox, p));
  }

  /** The whole of a run without collisions, as one fact. */
  lemma RunSteady(n: Net, ls: seq<Label>)
    requires Start(n) && Valid(n, ls) && Collisionless(n, ls)
    ensures Inv(Exec(n, ls))
  {
    hide Inv;
    InvStart(n);
    InvRun(n, ls);
  }

  /** The chain of prefixes along one direction of a circuit. */
  lemma PrefixChain<T>(given: seq<T>, popped: seq<T>, pending: seq<T>, fed: seq<T>, end: seq<T>)
    requires IsPrefix(given, popped) && fed == popped + pending && IsPrefix(fed, end)
    ensures IsPrefix(given, end)
  {
    PrefixTrans(given, popped, fed);
    PrefixTrans(given, fed, end);
  }

  /** What a thread has written is a prefix of what it was given, a torn chunk included. */
  lemma WrittenPrefix(th: Thread, chunks: seq<Bytes>)
    requires TornOk(th) && IsPrefix(th.Given(), chunks)
    ensures IsPrefix(th.Written(), Flat(chunks))
  {
    var more := if th.torn == [] then [] else [th.chan[0]];
    assert IsPrefix(th.output + more, th.Given());
    PrefixTrans(th.output + more, th.Given(), chunks);
    FlatPrefix(th.output + more, chunks);
    FlatConcat(th.output, more);
    if th.torn == [] {
      assert Flat(more) == [];
    } else {
      assert Flat(more) == th.chan[0] + Flat([]) == th.chan[0];
      assert Flat(th.output) + th.chan[0] == th.Written() + th.chan[0][|th.torn|..];
    }
    PrefixTrans(th.Written(), Flat(th.output + more), Flat(chunks));
  }

  lemma HostStream(n: Net, t: Tx)
    requires Inv(n) && Serves(n.book, t)
    ensures var b, u := n.book, ClientOf(n.book, t);
            && u in b.threads && !b.threads[u].host
            && IsPrefix(b.threads[t].Written(), Flat(b.threads[u].input))
  {
    var b, th := n.book, n.book.threads[t];
    var u := ClientOf(b, t);
    assert EndOk(b.feeder, b.origin, b.tip, t, th);
    assert CircuitOk(b.tip, b.threads, b.fed, th.In(), u);
    assert ThreadOk(th, Log(b.fed, th.Out()), Log(b.popped, th.In()));
    PrefixChain(th.Given(), Log(b.popped, th.In()), OnTheWay(b.owner, n.inbox, n.links, th.In()), Log(b.fed, th.In()),
                b.threads[u].input);
    WrittenPrefix(th, b.threads[u].input);
  }

  lemma ClientStream(n: Net, t: Tx)
    requires Inv(n) && Serves(n.book, t)
    ensures var b, u := n.book, ClientOf(n.book, t);
            u in b.threads && IsPrefix(b.threads[u].Written(), Flat(b.threads[t].input))
  {
    var b, th := n.book, n.book.threads[t];
    var u := ClientOf(b, t);
    assert EndOk(b.feeder, b.origin, b.tip, t, th);
    assert CircuitOk(b.tip, b.threads, b.fed, th.In(), u);
    var cl := b.threads[u];
    assert EndOk(b.feeder, b.origin, b.tip, u, cl);
    assert CircuitOk(b.tip, b.threads, b.fed, cl.Out(), u);
    assert Rev(cl.Out()) == cl.In() && Rev(th.In()) == th.Out();
    assert ThreadOk(th, Log(b.fed, th.Out()), Log(b.popped, th.In()));
    assert ThreadOk(cl, Log(b.fed, cl.Out()), Log(b.popped, cl.In()));
    PrefixChain(cl.Given(), Log(b.popped, cl.In()), OnTheWay(b.owner, n.inbox, n.links, cl.In()), Log(b.fed, cl.In()),
                Log(b.fed, th.Out()));
    WrittenPrefix(cl, Log(b.fed, th.Out()));
  }

  lemma OneHost(n: Net, t: Tx, x: Tx)
    requires Inv(n)
    requires Serves(n.book, t) && Serves(n.book, x) && ClientOf(n.book, t) == ClientOf(n.book, x)
    ensures t == x
  {
    var b := n.book;
    assert EndOk(b.feeder, b.origin, b.tip, t, b.threads[t]) && EndOk(b.feeder, b.origin, b.tip, x, b.threads[x]);
    assert b.threads[t].In() == b.threads[x].In();
    assert b.threads[t].Out() == Rev(b.threads[t].In()) && b.threads[x].Out() == Rev(b.threads[x].In());
  }

  lemma HostHasClient(n: Net, t: Tx)
    requires Inv(n) && t in n.book.threads && n.book.threads[t].host
    ensures Serves(n.book, t)
  {
    var b, th := n.book, n.book.threads[t];
    assert EndOk(b.feeder, b.origin, b.tip, t, th);
    assert CircuitOk(b.tip, b.threads, b.fed, th.In(), b.origin[th.In()]);
  }

  lemma InvSafe(n: Net)
    requires Inv(n)
    ensures StreamSafe(n.book)
  {
    hide Inv;
    var b := n.book;
    forall t | t in b.threads && b.threads[t].host
      ensures Serves(b, t) && Agree(b.threads[t], b.threads[ClientOf(b, t)])
    {
      HostHasClient(n, t);
      HostStream(n, t);
      ClientStream(n, t);
    }
    forall t, x | Serves(b, t) && Serves(b, x) && ClientOf(b, t) == ClientOf(b, x) ensures t == x {
      OneHost(n, t, x);
    }
    forall u | u in b.threads && !b.threads[u].host && Unserved(b, u)
      ensures b.threads[u].Written() == [] && b.threads[u].input == []
    {
      SilentUnserved(n, u);
    }
  }

  /**
   End-to-end stream safety: at every moment of every run without collisions, the bytes written to the game socket
   at each end of a circuit are a prefix of the bytes read from the socket at its other end; no client has two
   hosts, and a client without a host has neither sent nor received anything.
   */
  lemma StreamSafety(n: Net, ls: seq<Label>)
    requires Start(n) && Valid(n, ls) && Collisionless(n, ls)
    ensures StreamSafe(Exec(n, ls).book)
  {
    hide Inv;
    RunSteady(n, ls);
    InvSafe(Exec(n, ls));
  }

  lemma HostAtTip(b: Book, u: Tx)
    requires Tips(b.feeder, b.origin, b.tip, b.threads) && u in b.tip && u in b.threads
    ensures Rev(b.tip[u]) in b.feeder ==> !Unserved(b, u)
  {
    assert TipOk(b.feeder, b.origin, b.threads, u, b.tip[u]);
    if Rev(b.tip[u]) in b.feeder {
      var t := b.feeder[Rev(b.tip[u])].tx;
      assert Serves(b, t) && ClientOf(b, t) == u;
    }
  }

  lemma SilentClientAt(b: Book, u: Tx)
    requires u in b.threads && !b.threads[u].host && EndOk(b.feeder, b.origin, b.tip, u, b.threads[u])
    requires Feeds(b.feeder, b.fed, b.popped) && Streams(b.origin, b.tip, b.threads, b.fed)
    requires Threads(b.threads, b.fed, b.popped)
    requires IsPrefix(Log(b.popped, b.threads[u].In()), Log(b.fed, b.threads[u].In()))
    requires Rev(b.tip[u]) !in b.feeder
    ensures b.threads[u].Written() == [] && b.threads[u].input == []
  {
    var cl := b.threads[u];
    assert CircuitOk(b.tip, b.threads, b.fed, cl.Out(), u);
    assert Rev(cl.Out()) == cl.In() && Log(b.fed, cl.In()) == [];
    assert ThreadOk(cl, Log(b.fed, cl.Out()), Log(b.popped, cl.In()));
  }

  lemma PoppedPrefix(n: Net, s: Seg)
    requires Flow(n)
    ensures IsPrefix(Log(n.book.popped, s), Log(n.book.fed, s))
  {}

  lemma SilentUnserved(n: Net, u: Tx)
    requires Inv(n) && u in n.book.threads && !n.book.threads[u].host
    requires Unserved(n.book, u)
    ensures n.book.threads[u].Written() == [] && n.book.threads[u].input == []
  {
    hide Feeds, RelayedEntries, LocalEntries, Threads, Ids, Streams, Tips, Splices, Flow, Connects, Posts;
    var b := n.book;
    assert EndOk(b.feeder, b.origin, b.tip, u, b.threads[u]);
    HostAtTip(b, u);
    PoppedPrefix(n, b.threads[u].In());
    SilentClientAt(b, u);
  }

  /** Nothing is on its way on the last segment of a circuit before its host has answered. */
  lemma TipAnswered(n: Net, s: Seg)
    requires Inv(n) && s in n.book.origin && n.book.tip[n.book.origin[s]] == s && n.book.origin[s] in n.book.tip
    requires Log(n.book.fed, s) != []
    ensures Rev(s) in n.book.feeder
  {
    hide RelayedEntries, LocalEntries, Connects, Posts, Live, Ids, Splices;
    if Log(n.book.fed, Rev(s)) == [] { Silent(n, s); }
  }

  lemma TipHost(b: Book, s: Seg)
    requires Tips(b.feeder, b.origin, b.tip, b.threads) && s in b.origin
    requires b.origin[s] in b.tip && b.tip[b.origin[s]] == s
    requires Rev(s) in b.feeder
    ensures exists t :: t in b.threads && b.threads[t].host && b.threads[t].In() == s
  {
    assert TipOk(b.feeder, b.origin, b.threads, b.origin[s], s);
  }

  lemma HeadFed(n: Net, p: PeerId, s: Seg, data: Bytes)
    requires Flow(n) && HeadChunk(n, p, s, data)
    ensures Log(n.book.fed, s) != []
  {
    HeadPending(n, p, s, data);
    assert Log(n.book.fed, s) == Log(n.book.popped, s) + OnTheWay(n.book.owner, n.inbox, n.links, s);
  }

  /**
   The segment is the last that a client's Connect has reached: whoever handles its chunks is the client's host
   relay.
   */
  ghost predicate Last(b: Book, s: Seg) {
    s in b.origin && b.origin[s] in b.tip && b.tip[b.origin[s]] == s
  }

  lemma HostReady(n: Net, p: PeerId, s: Seg, data: Bytes)
    requires Inv(n) && HeadChunk(n, p, s, data) && Last(n.book, s)
    ensures exists t ::
              t in n.book.threads && n.book.threads[t].host && n.book.threads[t].In() == s
              && n.book.threads[t].registered
  {
    hide BookOk, Connects, Posts;
    HeadFed(n, p, s, data);
    TipAnswered(n, s);
    assert Tips(n.book.feeder, n.book.origin, n.book.tip, n.book.threads) by { InvTips(n); }
    TipHost(n.book, s);
    var t :| t in n.book.threads && n.book.threads[t].host && n.book.threads[t].In() == s;
    HandshakeFirst(n, p, s, data, t);
  }

  lemma InvTips(n: Net)
    requires Inv(n)
    ensures Tips(n.book.feeder, n.book.origin, n.book.tip, n.book.threads)
  {}

  /**
   Handshake before data: whenever a relay is about to handle a chunk of a client on the last segment that the
   client's Connect has reached, it has handled that Connect, has dialled, and has registered the host connection;
   so no first bytes are dropped.
   */
  lemma HandshakeBeforeData(n: Net, ls: seq<Label>, p: PeerId, s: Seg, data: Bytes)
    requires Start(n) && Valid(n, ls) && Collisionless(n, ls)
    requires HeadChunk(Exec(n, ls), p, s, data) && Last(Exec(n, ls).book, s)
    ensures var b := Exec(n, ls).book;
            exists t :: t in b.threads && b.threads[t].host && b.threads[t].In() == s && b.threads[t].registered
  {
    hide Inv;
    RunSteady(n, ls);
    HostReady(Exec(n, ls), p, s, data);
  }
}
