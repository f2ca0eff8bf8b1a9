/** The steps of the event loops keep the circuit invariant. */
module CircuitLoop {
  import opened Basics
  import opened RelayTypes
  import opened RelayModel
  import opened Tables
  import opened Pairing
  import opened Circuits
  import opened CircuitInvariant

  // ---------------------------------------------------------------- traffic

  /** What handling event `e` takes off segment `s`, and what its sends put on it. */
  function Popped(p: PeerId, e: Event, s: Seg): seq<Bytes> {
    if s.to == p then EventData(e, s.from, s.conn) else []
  }

  function Pushed(p: PeerId, sends: map<PeerId, RelayMessage>, s: Seg): seq<Bytes> {
    if s.from == p && s.to in sends then ChunkIn(sends[s.to], s.conn) else []
  }

  function PoppedOpens(p: PeerId, e: Event, k: Link): seq<nat> {
    if k.to == p then EventOpens(e, k.from) else []
  }

  function PushedOpens(p: PeerId, sends: map<PeerId, RelayMessage>, k: Link): seq<nat> {
    if k.from == p && k.to in sends then OpenIn(sends[k.to]) else []
  }

  /** A link after the sends of one event. */
  lemma PushedLink(links: Links, p: PeerId, sends: map<PeerId, RelayMessage>, k: Link, c: ConnectionId)
    ensures LinkData(Log(PushAll(links, p, sends), k), c)
            == LinkData(Log(links, k), c) + Pushed(p, sends, Seg(k.from, k.to, c, k.from))
    ensures LinkOpens(Log(PushAll(links, p, sends), k)) == LinkOpens(Log(links, k)) + PushedOpens(p, sends, k)
  {
    var l := Log(links, k);
    assert Log(PushAll(links, p, sends), k) == l + Sent(p, sends, k);
    if k.from == p && k.to in sends { LinkConcat(l, sends[k.to], c); } else { assert l + [] == l; }
  }

  /** A mailbox before and after its head is taken off. */
  lemma PoppedInbox(inbox: Inboxes, p: PeerId, q: PeerId, from: PeerId, c: ConnectionId)
    requires Log(inbox, p) != []
    ensures InboxData(Log(inbox, q), from, c)
         == Popped(p, inbox[p][0], Seg(from, q, c, from)) + InboxData(Log(inbox[p := inbox[p][1..]], q), from, c)
    ensures InboxOpens(Log(inbox, q), from)
         == PoppedOpens(p, inbox[p][0], Link(from, q)) + InboxOpens(Log(inbox[p := inbox[p][1..]], q), from)
  {}

  lemma ProcessData(inbox: Inboxes, links: Links, p: PeerId, sends: map<PeerId, RelayMessage>, s: Seg)
    requires Log(inbox, p) != []
    ensures Popped(p, inbox[p][0], s) + Pending(inbox[p := inbox[p][1..]], PushAll(links, p, sends), s)
         == Pending(inbox, links, s) + Pushed(p, sends, s)
  {
    PushedLink(links, p, sends, Link(s.from, s.to), s.conn);
    PoppedInbox(inbox, p, s.to, s.from, s.conn);
    Assoc4(Popped(p, inbox[p][0], s), InboxData(Log(inbox[p := inbox[p][1..]], s.to), s.from, s.conn),
           LinkData(Log(links, Link(s.from, s.to)), s.conn), Pushed(p, sends, s));
  }

  lemma Assoc4<T>(a: seq<T>, b: seq<T>, c: seq<T>, d: seq<T>)
    ensures a + (b + (c + d)) == ((a + b) + c) + d
  {}

  lemma ProcessOpens(inbox: Inboxes, links: Links, p: PeerId, sends: map<PeerId, RelayMessage>, k: Link)
    returns (rest: seq<nat>)
    requires Log(inbox, p) != []
    ensures Opens(inbox, links, k) == PoppedOpens(p, inbox[p][0], k) + rest
    ensures Opens(inbox[p := inbox[p][1..]], PushAll(links, p, sends), k) == rest + PushedOpens(p, sends, k)
  {
    PushedLink(links, p, sends, k, ConnectionId(0, false));
    PoppedInbox(inbox, p, k.to, k.from, ConnectionId(0, false));
    var a, x := InboxOpens(Log(inbox[p := inbox[p][1..]], k.to), k.from), LinkOpens(Log(links, k));
    rest := a + x;
    Assoc(PoppedOpens(p, inbox[p][0], k), a, x);
    Assoc(a, x, PushedOpens(p, sends, k));
  }

  lemma Balance<T>(a: seq<T>, b: seq<T>, push: seq<T>, pop: seq<T>, c: seq<T>)
    requires pop + c == b + push
    ensures (a + b) + push == (a + pop) + c
  {
    Assoc(a, b, push);
    Assoc(a, pop, c);
  }

  /** The logs record exactly what was taken off and put on, for the segments that the ids stand for. */
  lemma FlowProcess(n: Net, n': Net, p: PeerId, sends: map<PeerId, RelayMessage>)
    requires Flow(n) && Log(n.inbox, p) != [] && n'.book.owner == n.book.owner
    requires n'.inbox == n.inbox[p := n.inbox[p][1..]] && n'.links == PushAll(n.links, p, sends)
    requires forall s ::
               Log(n'.book.fed, s) == Log(n.book.fed, s) + if Current(n.book.owner, s) then Pushed(p, sends, s) else []
    requires forall s :: Log(n'.book.popped, s)
                      == Log(n.book.popped, s) + if Current(n.book.owner, s) then Popped(p, n.inbox[p][0], s) else []
    ensures Flow(n')
  {
    forall s ensures Log(n'.book.fed, s) == Log(n'.book.popped, s) + OnTheWay(n'.book.owner, n'.inbox, n'.links, s) {
      if Current(n.book.owner, s) {
        ProcessData(n.inbox, n.links, p, sends, s);
        Balance(Log(n.book.popped, s), Pending(n.inbox, n.links, s), Pushed(p, sends, s),
                Popped(p, n.inbox[p][0], s), Pending(n'.inbox, n'.links, s));
      }
    }
  }

  /** An event without a chunk that puts no chunk on any segment. */
  lemma FlowQuiet(n: Net, n': Net, p: PeerId, sends: map<PeerId, RelayMessage>)
    requires Flow(n) && Log(n.inbox, p) != []
    requires n'.inbox == n.inbox[p := n.inbox[p][1..]] && n'.links == PushAll(n.links, p, sends)
    requires n'.book.fed == n.book.fed && n'.book.popped == n.book.popped && n'.book.owner == n.book.owner
    requires !(n.inbox[p][0].Recv? && n.inbox[p][0].message.RelayData?)
    requires forall q :: q in sends ==> !sends[q].RelayData?
    ensures Flow(n')
  {
    FlowProcess(n, n', p, sends);
  }

  /** Taking an event other than AddGameConnection off a mailbox. */
  lemma PostsPop(threads: map<Tx, Thread>, inbox: Inboxes, p: PeerId)
    requires Posts(threads, inbox) && Log(inbox, p) != [] && !inbox[p][0].AddGameConnection?
    ensures Posts(threads, inbox[p := inbox[p][1..]])
  {
    var inbox' := inbox[p := inbox[p][1..]];
    forall r ensures MailboxOk(threads, r, Log(inbox', r)) {
      MailboxPop(threads, r, Log(inbox, r));
    }
    forall t | t in threads && threads[t].posted && !threads[t].registered
      ensures Posted(Log(inbox', threads[t].relay), t)
    {
      var q := Log(inbox, threads[t].relay);
      var i :| 0 <= i < |q| && q[i].AddGameConnection? && q[i].tx == t;
      if threads[t].relay == p { assert q[1..][i - 1] == q[i]; }
    }
  }

  lemma MailboxPop(threads: map<Tx, Thread>, p: PeerId, q: seq<Event>)
    requires MailboxOk(threads, p, q)
    ensures q != [] ==> MailboxOk(threads, p, q[1..])
  {
    if q != [] {
      forall i | 0 <= i < |q[1..]| ensures PostOk(threads, p, q[1..][i]) { assert PostOk(threads, p, q[i + 1]); }
      forall i, j | 0 <= i < j < |q[1..]| && q[1..][j].AddGameConnection?
        ensures (q[1..][i].AddGameConnection? ==> q[1..][i].tx != q[1..][j].tx)
             && EventData(q[1..][i], q[1..][j].peer, q[1..][j].conn) == []
      {
        assert q[1..][i] == q[i + 1] && q[1..][j] == q[j + 1];
      }
    }
  }

  /** A thread that has posted nothing joins. */
  lemma PostsJoin(threads: map<Tx, Thread>, inbox: Inboxes, t: Tx, th: Thread)
    requires Posts(threads, inbox) && t !in threads && !th.posted
    ensures Posts(threads[t := th], inbox)
  {
    forall p ensures MailboxOk(threads[t := th], p, Log(inbox, p)) {
      var q := Log(inbox, p);
      assert MailboxOk(threads, p, q);
      forall i | 0 <= i < |q| ensures PostOk(threads[t := th], p, q[i]) { assert PostOk(threads, p, q[i]); }
    }
  }

  // ---------------------------------------------------------------- events that open nothing and move nothing

  /** Connection tables only lose entries, and counters stay. */
  ghost predicate Shrinks(s: State, s': State) {
    && s.peers.Keys <= s'.peers.Keys
    && (forall q :: q in s'.peers && q !in s.peers ==> s'.peers[q] == NEW_PEER)
    && (forall q :: q in s.peers ==> PeerShrinks(s.peers[q], s'.peers[q]))
  }

  ghost predicate PeerShrinks(a: Peer, b: Peer) {
    && b.next == a.next
    && (forall c :: c in b.locals ==> c in a.locals && b.locals[c] == a.locals[c])
    && (forall c :: c in b.relayed ==> c in a.relayed && b.relayed[c] == a.relayed[c])
  }

  lemma EntriesShrink(b: Book, p: PeerId, s': State)
    requires p in b.relays && Shrinks(b.relays[p], s') && Pointers(b.relays)
    requires RelayedEntries(b.relays, b.owner, b.feeder, b.fed, b.popped)
    requires LocalEntries(b.relays, b.owner, b.threads, b.popped)
    ensures var relays := b.relays[p := s'];
            && Pointers(relays)
            && RelayedEntries(relays, b.owner, b.feeder, b.fed, b.popped)
            && LocalEntries(relays, b.owner, b.threads, b.popped)
  {
    var relays := b.relays[p := s'];
    forall x, q, c | HasRelayed(relays, x, q, c)
      ensures HasRelayed(b.relays, x, q, c) && relays[x].peers[q].relayed[c] == b.relays[x].peers[q].relayed[c]
           && relays[x].peers[q].relayed[c].peer in relays[x].peers
    {}
    forall x, q, c | HasLocal(relays, x, q, c)
      ensures HasLocal(b.relays, x, q, c) && relays[x].peers[q].locals[c] == b.relays[x].peers[q].locals[c]
    {}
  }

  lemma IdsShrink(b: Book, p: PeerId, s': State)
    requires p in b.relays && Shrinks(b.relays[p], s') && Ids(b.relays, b.feeder, b.origin)
    ensures Ids(b.relays[p := s'], b.feeder, b.origin)
    ensures forall x, y :: NextId(b.relays[p := s'], x, y) == NextId(b.relays, x, y)
  {
    var relays := b.relays[p := s'];
    forall x, y ensures NextId(relays, x, y) == NextId(b.relays, x, y) {}
    forall x | x in b.feeder ensures Allocated(relays, x) { assert Allocated(b.relays, x); }
  }

  /** The Connects on their way after one event: all that were not taken off, and what was put on. */
  lemma ConnectsProcess(n: Net, n': Net, p: PeerId, sends: map<PeerId, RelayMessage>)
    requires Connects(n) && Log(n.inbox, p) != []
    requires n'.inbox == n.inbox[p := n.inbox[p][1..]] && n'.links == PushAll(n.links, p, sends)
    requires forall k, id ::
               id in Opens(n.inbox, n.links, k) && id !in PoppedOpens(p, n.inbox[p][0], k) ==> OpenOk(n'.book, k, id)
    requires forall k, id, x :: id in PushedOpens(p, sends, k) && x in Opens(n.inbox, n.links, k) ==> x < id
    requires forall k, id :: id in PushedOpens(p, sends, k) ==> OpenOk(n'.book, k, id)
    ensures Connects(n')
  {
    forall k ensures Increasing(Opens(n'.inbox, n'.links, k))
                  && forall id :: id in Opens(n'.inbox, n'.links, k) ==> OpenOk(n'.book, k, id)
    {
      var rest := ProcessOpens(n.inbox, n.links, p, sends, k);
      var before, pop, push := Opens(n.inbox, n.links, k), PoppedOpens(p, n.inbox[p][0], k), PushedOpens(p, sends, k);
      IncreasingTail(before, pop, rest);
      assert forall id :: id in rest ==> id in before && id !in pop;
      assert forall id :: id in rest + push ==> id in rest || id in push;
      IncreasingPush(rest, push);
    }
  }

  lemma IncreasingPush(rest: seq<nat>, push: seq<nat>)
    requires Increasing(rest) && |push| <= 1 && forall x, id :: x in rest && id in push ==> x < id
    ensures Increasing(rest + push)
  {
    forall i, j | 0 <= i < j < |rest + push| ensures (rest + push)[i] < (rest + push)[j] {
      if j == |rest| { assert rest[i] in rest && push[0] in push; }
    }
  }

  /** When nothing is opened, Connects that stay on their way stay as they are. */
  lemma ConnectsPop(n: Net, n': Net, p: PeerId, sends: map<PeerId, RelayMessage>)
    requires Connects(n) && Log(n.inbox, p) != []
    requires n'.inbox == n.inbox[p := n.inbox[p][1..]] && n'.links == PushAll(n.links, p, sends)
    requires forall q :: q in sends ==> !sends[q].RelayConnect?
    requires forall x, y :: NextId(n'.book.relays, x, y) == NextId(n.book.relays, x, y)
    requires n'.book.feeder == n.book.feeder && n'.book.origin == n.book.origin && n'.book.tip == n.book.tip
    requires n'.book.owner == n.book.owner
    ensures Connects(n')
  {
    forall k, id | id in Opens(n.inbox, n.links, k) ensures OpenOk(n'.book, k, id) { assert OpenOk(n.book, k, id); }
    ConnectsProcess(n, n', p, sends);
  }

  lemma IncreasingTail(before: seq<nat>, pop: seq<nat>, after: seq<nat>)
    requires Increasing(before) && pop + after == before
    ensures Increasing(after) && forall i, id :: 0 <= i < |pop| && id in after ==> pop[i] < id
  {
    forall i, j | 0 <= i < j < |after| ensures after[i] < after[j] {
      assert after[i] == before[|pop| + i] && after[j] == before[|pop| + j];
    }
    forall i, id | 0 <= i < |pop| && id in after ensures pop[i] < id {
      var j :| 0 <= j < |after| && after[j] == id;
      assert before[i] == pop[i] && before[|pop| + j] == id;
    }
  }

  /** Events that neither open a circuit nor carry a chunk. */
  ghost predicate IsQuiet(s: State, e: Event, env: Env) {
    match e
    case AcceptGameConnection(g) => !Accepts(s, g)
    case AddGameConnection(_, _, _, _) => false
    case AddPeer(q) => q !in s.peers
    case RemovePeer(_) => false
    case Recv(_, RelayData(_, _, _)) => false
    case Recv(from, RelayConnect(g, cid, hops)) =>
      !(g in s.games && s.games[g].Local? && from in s.peers) && !Forwards(s, from, g, cid, hops, env)
    case _ => true
  }

  ghost predicate QuietSends(sends: map<PeerId, RelayMessage>) {
    forall q :: q in sends ==> !sends[q].RelayData? && !sends[q].RelayConnect?
  }

  lemma QuietAdvertise(s: State, to: set<PeerId>, id: GameId, motd: Bytes, hops: nat, env: Env)
    requires env.failing == {}
    ensures var o := Advertise(s, to, id, motd, hops, env); o.state == s && QuietSends(o.sends)
  {
    assert to * s.peers.Keys * {} == {};
    RemoveNone(s);
  }

  lemma AddGameShrinks(s: State, from: PeerId, rid: GameId, env: Env)
    ensures Shrinks(s, AddGame(s, from, rid, env).0)
  {
    if from in s.peers {
      var (s1, id) := InternRemote(s, from, rid);
      assert Shrinks(s, s1);
      if s1.games[id].Remote? { RenewPeers(s1, id, env); }
    }
  }

  lemma QuietGame(s: State, from: PeerId, rid: GameId, motd: Bytes, hops: nat, env: Env)
    requires env.failing == {}
    ensures var o := HandleGame(s, from, rid, motd, hops, env); Shrinks(s, o.state) && QuietSends(o.sends)
  {
    var (s1, id) := AddGame(s, from, rid, env);
    AddGameShrinks(s, from, rid, env);
    if id.Some? { QuietAdvertise(s1, s1.peers.Keys - {from}, id.value, motd, hops + 1, env); }
  }

  lemma QuietLocalGame(s: State, from: SocketAddr, port: nat, motd: Bytes, env: Env)
    requires env.failing == {}
    ensures var o := HandleLocalGame(s, from, port, motd, env); Shrinks(s, o.state) && QuietSends(o.sends)
  {
    var (s1, id) := InternLocal(s, SocketAddr(from.ip, port));
    QuietAdvertise(s1, s1.peers.Keys, id, motd, 0, env);
  }

  lemma QuietConnect(s: State, from: PeerId, g: GameId, cid: nat, hops: nat, env: Env)
    requires env.failing == {} && IsQuiet(s, Recv(from, RelayConnect(g, cid, hops)), env)
    ensures HandleConnect(s, from, g, cid, hops, env) == Quiet(s)
  {}

  lemma ShrinksTrans(a: State, b: State, c: State)
    requires Shrinks(a, b) && Shrinks(b, c) && b.peers.Keys == a.peers.Keys
    ensures Shrinks(a, c)
  {
    forall q | q in a.peers ensures PeerShrinks(a.peers[q], c.peers[q]) {
      assert PeerShrinks(a.peers[q], b.peers[q]) && PeerShrinks(b.peers[q], c.peers[q]);
    }
  }

  lemma DropEntry(s: State, q: PeerId, peer: Peer)
    requires q in s.peers && PeerShrinks(s.peers[q], peer)
    ensures Shrinks(s, s.(peers := s.peers[q := peer]))
  {}

  lemma QuietClose(s: State, from: PeerId, c: ConnectionId)
    ensures var o := HandleClose(s, from, c); Shrinks(s, o.state) && QuietSends(o.sends)
  {
    if from in s.peers {
      var peer := s.peers[from];
      var peer' := peer.(locals := peer.locals - {c}, relayed := peer.relayed - {c});
      var s1 := s.(peers := s.peers[from := peer']);
      DropEntry(s, from, peer');
      if c in peer.relayed && peer.relayed[c].peer in s1.peers {
        var r := peer.relayed[c];
        var tp := s1.peers[r.peer];
        var tp' := tp.(relayed := tp.relayed - {r.conn});
        DropEntry(s1, r.peer, tp');
        ShrinksTrans(s, s1, s1.(peers := s1.peers[r.peer := tp']));
      }
    }
  }

  lemma QuietHandle(s: State, e: Event, env: Env)
    requires env.failing == {} && IsQuiet(s, e, env)
    ensures var o := Handle(s, e, env); Shrinks(s, o.state) && QuietSends(o.sends)
  {
    match e {
      case AddLocalGame(from, port, motd) => QuietLocalGame(s, from, port, motd, env);
      case Recv(from, m) =>
        match m {
          case RelayGame(rid, motd, hops) => QuietGame(s, from, rid, motd, hops, env);
          case RelayConnect(g, cid, hops) => QuietConnect(s, from, g, cid, hops, env);
          case RelayClose(cid, local) => QuietClose(s, from, ConnectionId(cid, local));
          case _ =>
        }
      case _ =>
    }
  }

  lemma QuietKeeps(n: Net, l: Label)
    requires Inv(n) && l.Process? && Enabled(n, l)
    requires IsQuiet(n.book.relays[l.relay], n.inbox[l.relay][0], l.env)
    ensures Inv(Next(n, l))
  {
    var b, p, e, n' := n.book, l.relay, n.inbox[l.relay][0], Next(n, l);
    var o := Handle(b.relays[p], e, l.env);
    QuietHandle(b.relays[p], e, l.env);
    assert n'.book == Updated(b, p, o.state);
    EntriesShrink(b, p, o.state);
    IdsShrink(b, p, o.state);
    ConnectsPop(n, n', p, o.sends);
    FlowQuiet(n, n', p, o.sends);
    PostsPop(b.threads, n.inbox, p);
  }
}
