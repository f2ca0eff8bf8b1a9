/** Runs in which both ends of a link open connections, and what they do to the streams. */
module CircuitCrossed {
  import opened Basics
  import opened RelayTypes
  import opened RelayModel
  import opened Tables
  import opened Circuits
  import opened CircuitCallers
  import GameConnection

  // ---------------------------------------------------------------- building runs

  /** Some run that respects the permitted callers ends in `n`. */
  ghost predicate Reached(d: Callers, n: Net) {
    exists n0, ls :: Start(n0) && Valid(n0, ls) && Respects(d, n0, ls) && Exec(n0, ls) == n
  }

  lemma {:induction false} ExecAppend(d: Callers, n: Net, ls: seq<Label>, l: Label)
    requires Valid(n, ls) && Respects(d, n, ls) && Enabled(Exec(n, ls), l) && Permits(d, Exec(n, ls), l)
    ensures Valid(n, ls + [l]) && Respects(d, n, ls + [l]) && Exec(n, ls + [l]) == Next(Exec(n, ls), l)
    decreases |ls|
  {
    hide Next, Permits, Enabled;
    if ls == [] {
      assert [l][1..] == [] && ls + [l] == [l];
      assert Valid(Next(n, l), []) && Respects(d, Next(n, l), []);
    } else {
      assert (ls + [l])[0] == ls[0] && (ls + [l])[1..] == ls[1..] + [l];
      ExecAppend(d, Next(n, ls[0]), ls[1..], l);
    }
  }

  lemma Go(d: Callers, n: Net, l: Label)
    requires Reached(d, n) && Enabled(n, l) && Permits(d, n, l)
    ensures Reached(d, Next(n, l))
  {
    hide Next, Permits, Enabled;
    var n0, ls :| Start(n0) && Valid(n0, ls) && Respects(d, n0, ls) && Exec(n0, ls) == n;
    ExecAppend(d, n0, ls, l);
  }

  /** The mailboxes of both nets hold the same. */
  ghost predicate SameMail(n: Net, n': Net) {
    forall x :: Log(n'.inbox, x) == Log(n.inbox, x)
  }

  /** Relay `p` with an empty mailbox may handle the event now. */
  ghost predicate MayHandle(d: Callers, n: Net, p: PeerId, e: Event, env: Env) {
    && Log(n.inbox, p) == [] && EventOk(n.book, p, e, env)
    && var to := Calls(n.book.relays[p], e, env); to.Some? ==> (p, to.value) in d
  }

  ghost predicate Handled(n: Net, n': Net, links: Links, p: PeerId, e: Event, env: Env)
    requires p in n.book.relays
  {
    var s := n.book.relays[p];
    var o := Handle(s, e, env);
    && n'.book == Account(Updated(n.book, p, o.state), p, s, e, env)
    && n'.links == PushAll(links, p, o.sends) && SameMail(n, n') && n'.bound == n.bound + Listening(p, o.state)
  }

  lemma HandleNow(d: Callers, n: Net, n1: Net, p: PeerId, e: Event, env: Env) returns (n': Net)
    requires MayHandle(d, n, p, e, env) && Reached(d, n1) && n1.book == n.book && n1.bound == n.bound
    requires n1.inbox == Append(n.inbox, p, e)
    ensures Reached(d, n') && Handled(n, n', n1.links, p, e, env)
  {
    hide Handle, Account, PushAll, EventOk, Calls, Listening;
    var l := Process(p, env);
    n' := Next(n1, l);
    assert Log(n1.inbox, p) == [e];
    Go(d, n1, l);
  }

  lemma Happens(d: Callers, n: Net, p: PeerId, e: Event, env: Env) returns (n': Net)
    requires Reached(d, n) && MayHandle(d, n, p, e, env) && Enabled(n, Arrive(p, e))
    ensures Reached(d, n') && Handled(n, n', n.links, p, e, env)
  {
    Go(d, n, Arrive(p, e));
    n' := HandleNow(d, n, Next(n, Arrive(p, e)), p, e, env);
  }

  lemma Comes(d: Callers, n: Net, k: Link, env: Env) returns (n': Net)
    requires Reached(d, n) && Log(n.links, k) != [] && MayHandle(d, n, k.to, Recv(k.from, n.links[k][0]), env)
    ensures Reached(d, n') && Handled(n, n', n.links[k := n.links[k][1..]], k.to, Recv(k.from, n.links[k][0]), env)
  {
    Go(d, n, Transfer(k));
    n' := HandleNow(d, n, Next(n, Transfer(k)), k.to, Recv(k.from, n.links[k][0]), env);
  }

  // ---------------------------------------------------------------- one relay

  const HOME := SocketAddr(1, 1)
  const ZERO := ConnectionId(0, false)

  const LISTENER := Listener(0, SocketAddr(0, 2))

  function Calm(u: Tx): Env {
    Env({}, {}, None, {}, u)
  }

  /** A bind succeeds. */
  const BINDING := Env({}, {}, Some(LISTENER), {}, 0)

  /** A relay with the one peer `q`; it hosts game 0; it listens for game 1 at `q`; `u` receives under id 0. */
  function Meets(q: PeerId): State {
    Init(0).(peers := map[q := NEW_PEER])
  }

  function Hosts(q: PeerId): State {
    Meets(q).(games := map[0 := Local(HOME)], nextKey := 1, localGames := map[HOME := 0])
  }

  function Knows(q: PeerId): State {
    Hosts(q).(peers := map[q := Peer(map[0 := 1], map[], map[], ZERO)],
              games := map[0 := Local(HOME), 1 := Remote(q, 0, Some(LISTENER))], nextKey := 2, ports := {2})
  }

  function Talks(q: PeerId, u: Tx): State {
    Knows(q).(peers := map[q := Peer(map[0 := 1], map[ZERO := u], map[], ConnectionId(1, false))])
  }

  lemma HostsHandle(q: PeerId, env: Env)
    requires env.failing == {}
    ensures var o := Handle(Meets(q), AddLocalGame(HOME, 1, []), env);
            o.state == Hosts(q) && o.sends == map[q := RelayGame(0, [], 0)]
  {
    var s := InternLocal(Meets(q), HOME).0;
    assert s == Hosts(q);
    assert s.peers.Keys * s.peers.Keys * {} == {};
    RemoveNone(s);
  }

  lemma KnowsHandle(q: PeerId)
    ensures var o := Handle(Hosts(q), Recv(q, RelayGame(0, [], 0)), BINDING); o.state == Knows(q) && o.sends == map[]
  {
    var (s, id) := AddGame(Hosts(q), q, 0, BINDING);
    assert s == Knows(q) && id == Some(1);
    assert s.peers.Keys - {q} == {};
    assert ({}) * s.peers.Keys * {} == {};
    RemoveNone(s);
  }

  lemma TalksHandle(q: PeerId, u: Tx)
    ensures var o := Handle(Knows(q), AcceptGameConnection(1), Calm(u));
            o.state == Talks(q, u) && o.sends == map[q := RelayConnect(0, 0, 0)]
  {}

  lemma AnswersHandle(q: PeerId, u: Tx, t: Tx, env: Env)
    requires env.failing == {}
    ensures var o := Handle(Talks(q, u), AddGameConnection(q, ZERO, 0, t), env);
            o.state == Talks(q, t) && o.sends == map[q := RelayData(0, false, [])]
  {
    var locals: map<ConnectionId, Tx> := map[ZERO := u];
    assert locals[ZERO := t] == map[ZERO := t];
    assert Talks(q, u).peers[q := Talks(q, t).peers[q]] == Talks(q, t).peers;
  }

  lemma DialHandle(q: PeerId, u: Tx, env: Env)
    ensures var o := Handle(Talks(q, u), Recv(q, RelayConnect(0, 0, 0)), env);
            o.state == Talks(q, u) && o.sends == map[] && o.spawn == Dial(q, ZERO, 0, HOME)
    ensures Calls(Talks(q, u), Recv(q, RelayConnect(0, 0, 0)), env) == None
  {}

  lemma ChunkHandle(q: PeerId, t: Tx, data: Bytes, env: Env)
    requires env.closed == {}
    ensures var o := Handle(Talks(q, t), Recv(q, RelayData(0, false, data)), env);
            o.state == Talks(q, t) && o.sends == map[]
  {}

  // ---------------------------------------------------------------- one relay in a network

  /** No thread has finished, and the handle `u` is new. */
  ghost predicate Fresh(b: Book, u: Tx) {
    u !in b.threads && forall t :: t in b.threads ==> b.threads[t].phase != Closed
  }

  /** The book has changed in the tables of relay `p` only. */
  ghost predicate OnlyTables(b: Book, b': Book, p: PeerId, s: State) {
    b' == b.(relays := b.relays[p := s])
  }

  lemma MeetStep(d: Callers, n: Net, p: PeerId, q: PeerId) returns (n': Net)
    requires Reached(d, n) && p in n.book.relays && n.book.relays[p] == Init(0)
    requires Log(n.inbox, p) == [] && n.book.threads == map[]
    ensures Reached(d, n') && OnlyTables(n.book, n'.book, p, Meets(q)) && SameMail(n, n') && n.bound <= n'.bound
    ensures forall k :: Log(n'.links, k) == Log(n.links, k)
  {
    n' := Happens(d, n, p, AddPeer(q), Calm(0));
    assert Init(0).peers[q := NEW_PEER] == map[q := NEW_PEER];
  }

  lemma HostStep(d: Callers, n: Net, p: PeerId, q: PeerId) returns (n': Net)
    requires Reached(d, n) && p in n.book.relays && n.book.relays[p] == Meets(q)
    requires Log(n.inbox, p) == [] && n.book.threads == map[]
    ensures Reached(d, n') && OnlyTables(n.book, n'.book, p, Hosts(q)) && SameMail(n, n') && n.bound <= n'.bound
    ensures forall k :: Log(n'.links, k) == Log(n.links, k) + if k == Link(p, q) then [RelayGame(0, [], 0)] else []
  {
    hide Handle, PushAll;
    HostsHandle(q, Calm(0));
    n' := Happens(d, n, p, AddLocalGame(HOME, 1, []), Calm(0));
  }

  lemma KnowStep(d: Callers, n: Net, p: PeerId, q: PeerId) returns (n': Net)
    requires Reached(d, n) && p in n.book.relays && n.book.relays[p] == Hosts(q)
    requires Log(n.inbox, p) == [] && n.book.threads == map[]
    requires Log(n.links, Link(q, p)) != [] && n.links[Link(q, p)][0] == RelayGame(0, [], 0)
    ensures Reached(d, n') && OnlyTables(n.book, n'.book, p, Knows(q)) && SameMail(n, n')
    ensures n.bound + {(p, 1)} <= n'.bound
    ensures forall k :: Log(n'.links, k) == if k == Link(q, p) then n.links[k][1..] else Log(n.links, k)
  {
    hide Handle, PushAll;
    KnowsHandle(q);
    n' := Comes(d, n, Link(q, p), BINDING);
    assert (p, 1) in Listening(p, Knows(q));
  }

  lemma CallStep(d: Callers, n: Net, p: PeerId, q: PeerId, u: Tx) returns (n': Net)
    requires Reached(d, n) && p in n.book.relays && n.book.relays[p] == Knows(q)
    requires Log(n.inbox, p) == [] && Fresh(n.book, u)
    requires (p, q) in d && (p, 1) in n.bound
    ensures Reached(d, n') && SameMail(n, n') && n.bound <= n'.bound
    ensures n'.book.relays == n.book.relays[p := Talks(q, u)]
    ensures n'.book.threads == n.book.threads[u := NewClient(Seg(p, q, ZERO, p), 1)]
    ensures n'.book.origin == n.book.origin[Seg(p, q, ZERO, p) := u]
    ensures forall k :: Log(n'.links, k) == Log(n.links, k) + if k == Link(p, q) then [RelayConnect(0, 0, 0)] else []
  {
    hide Handle, PushAll, Account, Listening, Reached, Knows, Talks, Calls;
    TalksHandle(q, u);
    CallAccount(n.book, p, q, u);
    KnowsCalls(q, u);
    n' := Happens(d, n, p, AcceptGameConnection(1), Calm(u));
  }

  lemma KnowsCalls(q: PeerId, u: Tx)
    ensures Calls(Knows(q), AcceptGameConnection(1), Calm(u)) == Some(q)
  {}

  lemma CallAccount(b: Book, p: PeerId, q: PeerId, u: Tx)
    ensures var b' := Account(Updated(b, p, Talks(q, u)), p, Knows(q), AcceptGameConnection(1), Calm(u));
            && b'.relays == b.relays[p := Talks(q, u)]
            && b'.threads == b.threads[u := NewClient(Seg(p, q, ZERO, p), 1)]
            && b'.origin == b.origin[Seg(p, q, ZERO, p) := u]
  {
    hide Talks;
  }

  lemma DialStep(d: Callers, n: Net, p: PeerId, q: PeerId, u: Tx, t: Tx) returns (n': Net)
    requires Reached(d, n) && p in n.book.relays && n.book.relays[p] == Talks(q, u)
    requires Log(n.inbox, p) == [] && Fresh(n.book, t)
    requires Log(n.links, Link(q, p)) != [] && n.links[Link(q, p)][0] == RelayConnect(0, 0, 0)
    ensures Reached(d, n') && SameMail(n, n') && n.bound <= n'.bound
    ensures n'.book.relays == n.book.relays && n'.book.origin == n.book.origin
    ensures n'.book.threads == n.book.threads[t := NewHost(Seg(q, p, ZERO, q), 0, HOME)]
    ensures forall k :: Log(n'.links, k) == if k == Link(q, p) then n.links[k][1..] else Log(n.links, k)
  {
    hide Handle, PushAll, Calls, Account, Listening, Reached, Talks;
    DialHandle(q, u, Calm(t));
    DialAccount(n.book, p, q, u, t);
    n' := Comes(d, n, Link(q, p), Calm(t));
    assert n.book.relays[p := Talks(q, u)] == n.book.relays;
  }

  lemma DialAccount(b: Book, p: PeerId, q: PeerId, u: Tx, t: Tx)
    ensures var b1 := Updated(b, p, Talks(q, u));
            var b' := Account(b1, p, Talks(q, u), Recv(q, RelayConnect(0, 0, 0)), Calm(t));
            && b'.relays == b1.relays && b'.origin == b.origin
            && b'.threads == b.threads[t := NewHost(Seg(q, p, ZERO, q), 0, HOME)]
  {
    hide Handle, Talks;
    DialHandle(q, u, Calm(t));
  }

  lemma ConnectStep(d: Callers, n: Net, t: Tx) returns (n': Net)
    requires Reached(d, n) && t in n.book.threads && n.book.threads[t].phase == Dialing
    ensures var th := n.book.threads[t];
            && Reached(d, n') && n'.links == n.links && n'.bound == n.bound
            && n'.book == n.book.(threads := n.book.threads[t := th.(phase := Running, posted := true)])
            && n'.inbox == Append(n.inbox, th.relay, AddGameConnection(th.peer, th.conn, th.game, t))
  {
    Go(d, n, Connected(t));
    n' := Next(n, Connected(t));
  }

  lemma RegisterStep(d: Callers, n: Net, n1: Net, p: PeerId, q: PeerId, u: Tx, t: Tx, v: Tx) returns (n': Net)
    requires Reached(d, n1) && n1.book == n.book && n1.links == n.links && n1.bound == n.bound && Log(n.inbox, p) == []
    requires n1.inbox == Append(n.inbox, p, AddGameConnection(q, ZERO, 0, t))
    requires p in n.book.relays && n.book.relays[p] == Talks(q, u) && t in n.book.threads && Fresh(n.book, v)
    ensures Reached(d, n') && SameMail(n, n')
    ensures n'.book.relays == n.book.relays[p := Talks(q, t)] && n'.book.origin == n.book.origin
    ensures n'.book.threads == n.book.threads[t := n.book.threads[t].(registered := true)]
    ensures forall k :: Log(n'.links, k) == Log(n.links, k) + if k == Link(p, q) then [RelayData(0, false, [])] else []
  {
    hide Handle, PushAll;
    AnswersHandle(q, u, t, Calm(v));
    n' := HandleNow(d, n, n1, p, AddGameConnection(q, ZERO, 0, t), Calm(v));
  }

  /** Host thread `t` connects, and displaces whoever received under id 0. */
  lemma AnswerStep(d: Callers, n: Net, p: PeerId, q: PeerId, u: Tx, t: Tx, v: Tx) returns (n': Net)
    requires Reached(d, n) && p in n.book.relays && n.book.relays[p] == Talks(q, u) && Log(n.inbox, p) == []
    requires t in n.book.threads && n.book.threads[t] == NewHost(Seg(q, p, ZERO, q), 0, HOME)
    requires Fresh(n.book, v)
    ensures Reached(d, n') && SameMail(n, n')
    ensures n'.book.relays == n.book.relays[p := Talks(q, t)] && n'.book.origin == n.book.origin
    ensures n'.book.threads == n.book.threads[t := n.book.threads[t].(phase := Running, posted := true,
                                                                      registered := true)]
    ensures forall k :: Log(n'.links, k) == Log(n.links, k) + if k == Link(p, q) then [RelayData(0, false, [])] else []
  {
    hide Talks, Reached;
    var n1 := ConnectStep(d, n, t);
    n' := RegisterStep(d, n.(book := n1.book), n1, p, q, u, t, v);
  }

  lemma ReadStep(d: Callers, n: Net, t: Tx, data: Bytes) returns (n': Net)
    requires Reached(d, n) && t in n.book.threads && n.book.threads[t].phase == Running
    requires 0 < |data| <= GameConnection.BUFFER_SIZE
    ensures var th := n.book.threads[t];
            && Reached(d, n') && SameMail(n, n') && n'.book.relays == n.book.relays && n'.book.origin == n.book.origin
            && n'.book.threads == n.book.threads[t := th.(input := th.input + [data])]
            && forall k :: Log(n'.links, k) == Log(n.links, k) +
                 if k == Link(th.relay, th.peer) then [RelayData(th.conn.id, th.conn.local, data)] else []
  {
    Go(d, n, Read(t, data));
    n' := Next(n, Read(t, data));
  }

  /** A chunk from `q` goes to whoever receives under id 0. */
  lemma ChunkStep(d: Callers, n: Net, p: PeerId, q: PeerId, t: Tx, v: Tx, data: Bytes) returns (n': Net)
    requires Reached(d, n) && p in n.book.relays && n.book.relays[p] == Talks(q, t) && Log(n.inbox, p) == []
    requires t in n.book.threads && Fresh(n.book, v)
    requires Log(n.links, Link(q, p)) != [] && n.links[Link(q, p)][0] == RelayData(0, false, data)
    ensures Reached(d, n') && SameMail(n, n') && n'.book.relays == n.book.relays && n'.book.origin == n.book.origin
    ensures n'.book.threads == n.book.threads[t := n.book.threads[t].(chan := n.book.threads[t].chan + [data])]
    ensures forall k :: Log(n'.links, k) == if k == Link(q, p) then n.links[k][1..] else Log(n.links, k)
  {
    hide Handle, PushAll, Account, Listening, Reached, Talks;
    ChunkHandle(q, t, data, Calm(v));
    ChunkAccount(n.book, p, q, t, data, Calm(v));
    n' := Comes(d, n, Link(q, p), Calm(v));
    assert n.book.relays[p := Talks(q, t)] == n.book.relays;
  }

  lemma ChunkAccount(b: Book, p: PeerId, q: PeerId, t: Tx, data: Bytes, env: Env)
    requires t in b.threads && env.closed == {}
    ensures var b1 := Updated(b, p, Talks(q, t));
            var b' := Account(b1, p, Talks(q, t), Recv(q, RelayData(0, false, data)), env);
            && b'.relays == b1.relays && b'.origin == b.origin
            && b'.threads == b.threads[t := b.threads[t].(chan := b.threads[t].chan + [data])]
  {}

  lemma TakeStep(d: Callers, n: Net, t: Tx) returns (n': Net)
    requires Reached(d, n) && t in n.book.threads && n.book.threads[t].phase == Running && n.book.threads[t].chan != []
    ensures var th := n.book.threads[t];
            && Reached(d, n') && n'.links == n.links && n'.inbox == n.inbox
            && n'.book == n.book.(threads := n.book.threads[t := th.(chan := th.chan[1..],
                                                                     output := th.output + [th.chan[0]])])
  {
    Go(d, n, Take(t));
    n' := Next(n, Take(t));
  }

  // ---------------------------------------------------------------- two relays that call each other

  lemma Begin(d: Callers, relays: Relays) returns (n: Net)
    requires forall p :: p in relays ==> relays[p] == Init(0)
    ensures Reached(d, n) && n == Net(Book(relays, map[], map[], map[], map[], map[], map[], map[]), map[], map[], {})
  {
    n := Net(Book(relays, map[], map[], map[], map[], map[], map[], map[]), map[], map[], {});
    assert Valid(n, []) && Exec(n, []) == n && Respects(d, n, []);
  }

  /** All mailboxes are empty, and the two links carry the given messages. */
  ghost predicate Carry(n: Net, p: PeerId, q: PeerId, there: seq<RelayMessage>, back: seq<RelayMessage>) {
    && (forall x :: Log(n.inbox, x) == [])
    && Log(n.links, Link(p, q)) == there && Log(n.links, Link(q, p)) == back
  }

  /** Two relays that host a game each, and tell each other. */
  lemma Neighbours(d: Callers, p: PeerId, q: PeerId) returns (n: Net)
    requires p != q
    ensures Reached(d, n) && Carry(n, p, q, [RelayGame(0, [], 0)], [RelayGame(0, [], 0)])
    ensures n.book.relays == map[p := Hosts(q), q := Hosts(p)] && n.book.threads == map[]
  {
    hide Reached, Init, Meets, Hosts;
    n := Met(d, p, q);
    n := HostStep(d, n, p, q);
    n := HostStep(d, n, q, p);
  }

  lemma Met(d: Callers, p: PeerId, q: PeerId) returns (n: Net)
    requires p != q
    ensures Reached(d, n) && Carry(n, p, q, [], [])
    ensures n.book.relays == map[p := Meets(q), q := Meets(p)] && n.book.threads == map[]
  {
    hide Reached, Init, Meets;
    n := Begin(d, map[p := Init(0), q := Init(0)]);
    n := MeetStep(d, n, p, q);
    n := MeetStep(d, n, q, p);
  }

  lemma Acquainted(d: Callers, p: PeerId, q: PeerId) returns (n: Net)
    requires p != q
    ensures Reached(d, n) && Carry(n, p, q, [], [])
    ensures n.book.relays == map[p := Knows(q), q := Knows(p)] && n.book.threads == map[]
    ensures {(p, 1), (q, 1)} <= n.bound
  {
    hide Reached, Hosts, Knows;
    n := Neighbours(d, p, q);
    n := KnowStep(d, n, p, q);
    n := KnowStep(d, n, q, p);
  }

  /** Each accepts a client under id 0. */
  lemma BothCall(d: Callers, p: PeerId, q: PeerId) returns (n: Net)
    requires p != q && (p, q) in d && (q, p) in d
    ensures Reached(d, n) && Carry(n, p, q, [RelayConnect(0, 0, 0)], [RelayConnect(0, 0, 0)])
    ensures n.book.relays == map[p := Talks(q, 0), q := Talks(p, 1)]
    ensures n.book.threads == map[0 := NewClient(Seg(p, q, ZERO, p), 1), 1 := NewClient(Seg(q, p, ZERO, q), 1)]
    ensures Seg(p, q, ZERO, p) in n.book.origin && n.book.origin[Seg(p, q, ZERO, p)] == 0
  {
    hide Reached, Knows, Talks;
    n := Acquainted(d, p, q);
    n := CallStep(d, n, p, q, 0);
    n := CallStep(d, n, q, p, 1);
  }

  /** And each dials its game for the other's client. */
  lemma BothDial(d: Callers, p: PeerId, q: PeerId) returns (n: Net)
    requires p != q && (p, q) in d && (q, p) in d
    ensures Reached(d, n) && Carry(n, p, q, [], [])
    ensures n.book.relays == map[p := Talks(q, 0), q := Talks(p, 1)]
    ensures n.book.threads == map[0 := NewClient(Seg(p, q, ZERO, p), 1), 1 := NewClient(Seg(q, p, ZERO, q), 1),
                                  2 := NewHost(Seg(q, p, ZERO, q), 0, HOME), 3 := NewHost(Seg(p, q, ZERO, p), 0, HOME)]
    ensures Seg(p, q, ZERO, p) in n.book.origin && n.book.origin[Seg(p, q, ZERO, p)] == 0
  {
    hide Reached, Talks;
    n := BothCall(d, p, q);
    n := DialStep(d, n, p, q, 0, 2);
    n := DialStep(d, n, q, p, 1, 3);
  }

  lemma HostAnswers(d: Callers, p: PeerId, q: PeerId) returns (n: Net)
    requires p != q && (p, q) in d && (q, p) in d
    ensures Reached(d, n) && (forall x :: Log(n.inbox, x) == []) && Log(n.links, Link(p, q)) == []
    ensures q in n.book.relays && n.book.relays[q] == Talks(p, 3)
    ensures n.book.threads.Keys == {0, 1, 2, 3} && Fresh(n.book, 9)
    ensures n.book.threads[0] == NewClient(Seg(p, q, ZERO, p), 1)
    ensures n.book.threads[2] == NewHost(Seg(q, p, ZERO, q), 0, HOME)
    ensures n.book.threads[3] == NewHost(Seg(p, q, ZERO, p), 0, HOME).(phase := Running, posted := true,
                                                                       registered := true)
    ensures Seg(p, q, ZERO, p) in n.book.origin && n.book.origin[Seg(p, q, ZERO, p)] == 0
  {
    hide Reached, Talks;
    n := BothDial(d, p, q);
    assert n.book.threads.Keys == {0, 1, 2, 3};
    n := AnswerStep(d, n, q, p, 1, 3, 9);
    assert n.book.threads.Keys == {0, 1, 2, 3};
  }

  /** Host 3 displaces the client of `q`, and host 2 reads from its game. */
  lemma HostReads(d: Callers, p: PeerId, q: PeerId) returns (n: Net)
    requires p != q && (p, q) in d && (q, p) in d
    ensures Reached(d, n) && Log(n.inbox, q) == [] && Log(n.links, Link(p, q)) == [RelayData(0, false, [7])]
    ensures q in n.book.relays && n.book.relays[q] == Talks(p, 3) && Fresh(n.book, 9) && {0, 3} <= n.book.threads.Keys
    ensures n.book.threads[0] == NewClient(Seg(p, q, ZERO, p), 1)
    ensures n.book.threads[3] == NewHost(Seg(p, q, ZERO, p), 0, HOME).(phase := Running, posted := true,
                                                                       registered := true)
    ensures Seg(p, q, ZERO, p) in n.book.origin && n.book.origin[Seg(p, q, ZERO, p)] == 0
  {
    hide Reached, Talks;
    n := HostAnswers(d, p, q);
    assert n.book.threads[2].relay == p && n.book.threads[2].peer == q && Log(n.inbox, q) == [];
    n := ConnectStep(d, n, 2);
    assert Log(n.inbox, q) == [];
    n := ReadStep(d, n, 2, [7]);
  }

  /** The bytes that one host reads come out at the other host's socket, whose client has sent nothing. */
  lemma HostsMixed(d: Callers, p: PeerId, q: PeerId) returns (n: Net)
    requires p != q && (p, q) in d && (q, p) in d
    ensures Reached(d, n) && Serves(n.book, 3) && ClientOf(n.book, 3) == 0
    ensures n.book.threads[3].Written() == [7] && Flat(n.book.threads[0].input) == []
  {
    hide Reached, Talks;
    n := HostReads(d, p, q);
    n := ChunkStep(d, n, q, p, 3, 9, [7]);
    n := TakeStep(d, n, 3);
    FlatOne([7]);
    assert n.book.threads[3].output == [[7]] && n.book.threads[3].torn == [];
  }

  lemma FlatOne(data: Bytes)
    ensures Flat([data]) == data && Flat([[], data]) == data
  {
    assert Flat([data]) == data + Flat([]);
    assert [[], data][1..] == [data];
  }

  // ---------------------------------------------------------------- a relay that calls itself

  lemma SelfKnown(d: Callers, p: PeerId) returns (n: Net)
    ensures Reached(d, n) && Carry(n, p, p, [], []) && n.book.relays == map[p := Knows(p)] && n.book.threads == map[]
    ensures (p, 1) in n.bound
  {
    hide Reached, Init, Meets, Hosts, Knows;
    n := Begin(d, map[p := Init(0)]);
    n := MeetStep(d, n, p, p);
    n := HostStep(d, n, p, p);
    n := KnowStep(d, n, p, p);
  }

  lemma SelfDialled(d: Callers, p: PeerId) returns (n: Net)
    requires (p, p) in d
    ensures Reached(d, n) && Carry(n, p, p, [], []) && n.book.relays == map[p := Talks(p, 0)]
    ensures n.book.threads == map[0 := NewClient(Seg(p, p, ZERO, p), 1), 1 := NewHost(Seg(p, p, ZERO, p), 0, HOME)]
    ensures Seg(p, p, ZERO, p) in n.book.origin && n.book.origin[Seg(p, p, ZERO, p)] == 0
  {
    hide Reached, Knows, Talks;
    n := SelfKnown(d, p);
    n := CallStep(d, n, p, p, 0);
    n := DialStep(d, n, p, p, 0, 1);
  }

  lemma SelfReads(d: Callers, p: PeerId) returns (n: Net)
    requires (p, p) in d
    ensures Reached(d, n) && Carry(n, p, p, [RelayData(0, false, []), RelayData(0, false, [7])],
                                           [RelayData(0, false, []), RelayData(0, false, [7])])
    ensures n.book.relays == map[p := Talks(p, 1)] && n.book.threads.Keys == {0, 1} && Fresh(n.book, 9)
    ensures n.book.threads[0] == NewClient(Seg(p, p, ZERO, p), 1)
    ensures var th := n.book.threads[1];
            th.host && th.In() == Seg(p, p, ZERO, p) && th.phase == Running && th.chan == th.output == []
            && th.torn == []
    ensures Seg(p, p, ZERO, p) in n.book.origin && n.book.origin[Seg(p, p, ZERO, p)] == 0
  {
    hide Reached, Talks;
    n := SelfDialled(d, p);
    n := AnswerStep(d, n, p, p, 0, 1, 9);
    n := ReadStep(d, n, 1, [7]);
  }

  /** The host displaces its own client, and its bytes come back to it. */
  lemma HostHearsItself(d: Callers, p: PeerId) returns (n: Net)
    requires (p, p) in d
    ensures Reached(d, n) && Serves(n.book, 1) && ClientOf(n.book, 1) == 0
    ensures n.book.threads[1].Written() == [7] && Flat(n.book.threads[0].input) == []
  {
    hide Reached, Talks;
    n := SelfReads(d, p);
    n := ChunkStep(d, n, p, p, 1, 9, []);
    n := ChunkStep(d, n, p, p, 1, 9, [7]);
    n := TakeStep(d, n, 1);
    n := TakeStep(d, n, 1);
    FlatOne([7]);
  }

  // ---------------------------------------------------------------- the exact condition

  ghost predicate AlwaysSafe(d: Callers) {
    forall n, ls :: Start(n) && Valid(n, ls) && Respects(d, n, ls) ==> StreamSafe(Exec(n, ls).book)
  }

  lemma SafePrefix(b: Book, t: Tx)
    requires StreamSafe(b) && Serves(b, t)
    ensures IsPrefix(b.threads[t].Written(), Flat(b.threads[ClientOf(b, t)].input))
  {
    assert Agree(b.threads[t], b.threads[ClientOf(b, t)]);
  }

  lemma SafeWhereReached(d: Callers, n: Net, t: Tx)
    requires AlwaysSafe(d) && Reached(d, n) && Serves(n.book, t)
    ensures IsPrefix(n.book.threads[t].Written(), Flat(n.book.threads[ClientOf(n.book, t)].input))
  {
    hide Start, Valid, Respects, StreamSafe, Serves;
    var n0, ls :| Start(n0) && Valid(n0, ls) && Respects(d, n0, ls) && Exec(n0, ls) == n;
    SafePrefix(n.book, t);
  }

  /**
   The exact condition: all runs in which connections are opened by the permitted callers only are safe if, and
   only if, no two relays may open connections to each other and none to itself.
   */
  lemma StreamSafeExactly(d: Callers)
    ensures AlwaysSafe(d) <==> OneWay(d)
  {
    if OneWay(d) {
      forall n, ls | Start(n) && Valid(n, ls) && Respects(d, n, ls) ensures StreamSafe(Exec(n, ls).book) {
        OneWaySafe(d, n, ls);
      }
    }
    if AlwaysSafe(d) {
      forall p, q | (p, q) in d ensures (q, p) !in d {
        if (q, p) in d {
          if p == q {
            var n := HostHearsItself(d, p);
            SafeWhereReached(d, n, 1);
          } else {
            var n := HostsMixed(d, p, q);
            SafeWhereReached(d, n, 3);
          }
        }
      }
    }
  }
}
