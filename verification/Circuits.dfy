/**
 Byte streams across relays: the event loops, their mailboxes, the ordered links between them and the
 threads that serve game sockets, stepping in any order.

 The runs modelled here lose no peer. Both ends of a link allocate ids from 0 in one shared space: `Traceless`
 says when an id can be allocated without being confused with an earlier or concurrent use of it.
 */
module Circuits {
  import opened Basics
  import opened RelayTypes
  import opened RelayModel
  import opened Pairing
  import Discovery
  import GameConnection

  // One direction of one connection on one link: what `from` sends to `to` under the id `conn` that `caller` allocated.
  datatype Seg = Seg(from: PeerId, to: PeerId, conn: ConnectionId, caller: PeerId)

  function Rev(s: Seg): Seg {
    Seg(s.to, s.from, s.conn, s.caller)
  }

  // An id on a link, whichever end uses it.
  datatype Wire = Wire(lo: PeerId, hi: PeerId, conn: ConnectionId)

  function WireOf(p: PeerId, q: PeerId, c: ConnectionId): Wire {
    if p <= q then Wire(p, q, c) else Wire(q, p, c)
  }

  // Which end allocated an id last.
  type Owners = map<Wire, PeerId>

  function Caller(owner: Owners, p: PeerId, q: PeerId, c: ConnectionId): PeerId {
    var w := WireOf(p, q, c);
    if w in owner then owner[w] else w.lo
  }

  /** The segment that id `c` stands for on the way from `p` to `q`. */
  function At(owner: Owners, p: PeerId, q: PeerId, c: ConnectionId): Seg {
    Seg(p, q, c, Caller(owner, p, q, c))
  }

  /** The segment is the one that its id stands for now. */
  predicate Current(owner: Owners, s: Seg) {
    s.caller == Caller(owner, s.from, s.to, s.conn)
  }

  datatype Link = Link(from: PeerId, to: PeerId)

  datatype Phase = Dialing | Waiting | Running | Closed

  /**
   A thread that serves one game socket. `chan` is its channel from the event loop, `output` and `input`
   are the chunks written to and read from the socket, and `torn` is what a failing write left of a chunk. A host
   thread has `posted` its AddGameConnection once connected, and is `registered` when the event loop has handled
   it. `game` is the game that the client was accepted for or that the host thread serves, and `target` the
   address that a host thread dials.
   */
  datatype Thread = Thread(
    relay: PeerId, peer: PeerId, conn: ConnectionId, host: bool, game: GameId, target: Option<SocketAddr>, phase: Phase,
    posted: bool, registered: bool,
    chan: seq<Bytes>, output: seq<Bytes>, torn: Bytes, input: seq<Bytes>)
  {
    function Caller(): PeerId { if host then peer else relay }
    function Out(): Seg { Seg(relay, peer, conn, Caller()) }
    function In(): Seg { Seg(peer, relay, conn, Caller()) }
    function Given(): seq<Bytes> { output + chan }
    function Written(): Bytes { Flat(output) + torn }
  }

  // Where the chunks of a segment come from.
  datatype Feeder = FromThread(tx: Tx) | FromSeg(seg: Seg)

  /**
   `owner`, `feeder`, `fed`, `popped`, `origin` and `tip` are bookkeeping: who allocated an id last, who feeds
   a segment, all chunks ever put on it and ever taken off it by the receiving event loop, the client thread
   whose Connect opened it, and the last segment a client's Connect has reached.
   */
  datatype Book = Book(
    relays: Relays,
    threads: map<Tx, Thread>,
    owner: Owners,
    feeder: map<Seg, Feeder>,
    fed: Chunks,
    popped: Chunks,
    origin: map<Seg, Tx>,
    tip: map<Tx, Seg>)

  type Relays = map<PeerId, State>

  type Chunks = map<Seg, seq<Bytes>>

  type Links = map<Link, seq<RelayMessage>>

  type Inboxes = map<PeerId, seq<Event>>

  // `bound` holds the games for which a relay has bound a listener, whose thread may send it clients.
  datatype Net = Net(book: Book, links: Links, inbox: Inboxes, bound: set<(PeerId, GameId)>)

  datatype Label =
    | Arrive(relay: PeerId, event: Event)
    | Transfer(link: Link)
    | Process(relay: PeerId, env: Env)
    | Connected(tx: Tx)
    | Take(tx: Tx)
    | Break(tx: Tx, written: nat)
    | Read(tx: Tx, data: Bytes)
    | Finish(tx: Tx)

  // ---------------------------------------------------------------- logs and queues

  function Log<K, T>(m: map<K, seq<T>>, k: K): seq<T> {
    if k in m then m[k] else []
  }

  function Append<K, T>(m: map<K, seq<T>>, k: K, x: T): map<K, seq<T>> {
    m[k := Log(m, k) + [x]]
  }

  function Sent(p: PeerId, sends: map<PeerId, RelayMessage>, k: Link): seq<RelayMessage> {
    if k.from == p && k.to in sends then [sends[k.to]] else []
  }

  function PushAll(links: Links, p: PeerId, sends: map<PeerId, RelayMessage>)
    : (r: Links)
    ensures forall k :: Log(r, k) == Log(links, k) + Sent(p, sends, k)
  {
    map k | k in links.Keys + (set q | q in sends :: Link(p, q)) :: Log(links, k) + Sent(p, sends, k)
  }

  function ChunkIn(m: RelayMessage, c: ConnectionId): seq<Bytes> {
    if m.RelayData? && ConnectionId(m.connectionId, m.connectionLocal) == c then [m.data] else []
  }

  function LinkData(l: seq<RelayMessage>, c: ConnectionId): seq<Bytes> {
    if l == [] then [] else ChunkIn(l[0], c) + LinkData(l[1..], c)
  }

  function EventData(e: Event, from: PeerId, c: ConnectionId): seq<Bytes> {
    if e.Recv? && e.peer == from then ChunkIn(e.message, c) else []
  }

  function InboxData(q: seq<Event>, from: PeerId, c: ConnectionId): seq<Bytes> {
    if q == [] then [] else EventData(q[0], from, c) + InboxData(q[1..], from, c)
  }

  /** The chunks of a segment that are on their way. */
  function Pending(inbox: Inboxes, links: Links, s: Seg): seq<Bytes> {
    InboxData(Log(inbox, s.to), s.from, s.conn) + LinkData(Log(links, Link(s.from, s.to)), s.conn)
  }

  function OpenIn(m: RelayMessage): seq<nat> {
    if m.RelayConnect? then [m.connectionId] else []
  }

  function LinkOpens(l: seq<RelayMessage>): seq<nat> {
    if l == [] then [] else OpenIn(l[0]) + LinkOpens(l[1..])
  }

  function EventOpens(e: Event, from: PeerId): seq<nat> {
    if e.Recv? && e.peer == from then OpenIn(e.message) else []
  }

  function InboxOpens(q: seq<Event>, from: PeerId): seq<nat> {
    if q == [] then [] else EventOpens(q[0], from) + InboxOpens(q[1..], from)
  }

  /** The ids of the Connects on their way over a link. */
  function Opens(inbox: Inboxes, links: Links, k: Link): seq<nat> {
    InboxOpens(Log(inbox, k.to), k.from) + LinkOpens(Log(links, k))
  }

  // ---------------------------------------------------------------- steps

  predicate Start(n: Net) {
    && (forall p :: p in n.book.relays ==> n.book.relays[p] == Init(n.book.relays[p].discoveryPort))
    && n == Net(Book(n.book.relays, map[], map[], map[], map[], map[], map[], map[]), map[], map[], {})
  }

  /** How many ids relay `p` has allocated towards `q`. */
  function NextId(relays: Relays, p: PeerId, q: PeerId): nat {
    if p in relays && q in relays[p].peers then relays[p].peers[q].next.id else 0
  }

  ghost predicate Accepts(s: State, g: GameId) {
    g in s.games && s.games[g].Remote? && s.games[g].peer in s.peers
  }

  /** The environment of a run without peer loss. */
  ghost predicate EnvOk(b: Book, env: Env) {
    && env.failing == {} && env.newHandle !in b.threads
    && (forall t :: t in env.closed <==> t in b.threads && b.threads[t].phase == Closed)
  }

  ghost predicate EventOk(b: Book, p: PeerId, e: Event, env: Env) {
    && p in b.relays && EnvOk(b, env) && !e.RemovePeer?
    && (e.AddPeer? ==> e.peer !in b.relays[p].peers)
  }

  ghost predicate Enabled(n: Net, l: Label) {
    match l
    case Arrive(p, e) =>
      || (e.AcceptGameConnection? && (p, e.gameId) in n.bound) || e.RemoveGameListener? || e.AddPeer?
      || (e.AddLocalGame? && |e.motd| <= Discovery.MAX_PACKET_SIZE)
    case Transfer(k) => Log(n.links, k) != []
    case Process(p, env) => Log(n.inbox, p) != [] && EventOk(n.book, p, Log(n.inbox, p)[0], env)
    case Connected(t) => t in n.book.threads && n.book.threads[t].phase == Dialing
    case Take(t) =>
      t in n.book.threads && n.book.threads[t].phase in {Waiting, Running} && n.book.threads[t].chan != []
    case Break(t, k) =>
      t in n.book.threads && n.book.threads[t].phase in {Waiting, Running} && n.book.threads[t].chan != []
      && k <= |n.book.threads[t].chan[0]|
    case Read(t, data) =>
      t in n.book.threads && n.book.threads[t].phase == Running && 0 < |data| <= GameConnection.BUFFER_SIZE
    case Finish(t) => t in n.book.threads && n.book.threads[t].phase != Closed
  }

  function NewClient(k: Seg, g: GameId): Thread {
    Thread(k.from, k.to, k.conn, false, g, None, Waiting, false, false, [], [], [], [])
  }

  function NewHost(k: Seg, g: GameId, addr: SocketAddr): Thread {
    Thread(k.to, k.from, k.conn, true, g, Some(addr), Dialing, false, false, [], [], [], [])
  }

  /** Relay `p` allocates id `c` towards `q`. */
  function Claimed(b: Book, p: PeerId, q: PeerId, c: ConnectionId): Book {
    b.(owner := b.owner[WireOf(p, q, c) := p])
  }

  /** A client `u` accepted for game `g`, whose Connect goes out under segment `k`. */
  function Opened(b: Book, u: Tx, k: Seg, g: GameId): Book {
    b.(threads := b.threads[u := NewClient(k, g)],
       feeder := b.feeder[k := FromThread(u)],
       origin := b.origin[k := u],
       tip := b.tip[u := k])
  }

  /** A Connect that arrived under segment `k` and made thread `t` dial. */
  function Hosted(b: Book, t: Tx, k: Seg, g: GameId, addr: SocketAddr): Book {
    b.(threads := b.threads[t := NewHost(k, g, addr)],
       feeder := b.feeder[Rev(k) := FromThread(t)])
  }

  /** A Connect that arrived under segment `k` and left under segment `j`. */
  function Spliced(b: Book, k: Seg, j: Seg): (r: Book)
    ensures r.relays == b.relays
  {
    var b1 := b.(feeder := b.feeder[j := FromSeg(k)][Rev(k) := FromSeg(Rev(j))]);
    if k in b.origin
    then b1.(origin := b.origin[j := b.origin[k]], tip := b.tip[b.origin[k] := j])
    else b1
  }

  /** A chunk put on the channel of thread `t`. */
  function Delivered(b: Book, t: Tx, data: Bytes): (r: Book)
    ensures r.relays == b.relays
  {
    if t in b.threads then b.(threads := b.threads[t := b.threads[t].(chan := b.threads[t].chan + [data])]) else b
  }

  /** A chunk that the event loop of `s.to` took off segment `s`, in the state `st` before. */
  function Moved(b: Book, st: State, s: Seg, data: Bytes, env: Env): (r: Book)
    ensures r.relays == b.relays
  {
    var b1 := b.(popped := Append(b.popped, s, data));
    if s.from !in st.peers then b1
    else
      var peer := st.peers[s.from];
      var given := HandleData(st, s.from, s.conn, data, env).delivered;
      if given.Some? then Delivered(b1, given.value.tx, given.value.data)
      else if s.conn !in peer.locals && s.conn in peer.relayed && peer.relayed[s.conn].peer in st.peers then
        b1.(fed := Append(b.fed, At(b.owner, s.to, peer.relayed[s.conn].peer, peer.relayed[s.conn].conn), data))
      else b1
  }

  /** An AddGameConnection for thread `t`, whose empty chunk goes out under segment `s`. */
  function Registered(b: Book, st: State, s: Seg, t: Tx): (r: Book)
    ensures r.relays == b.relays
  {
    var b1 := if t in b.threads then b.(threads := b.threads[t := b.threads[t].(registered := true)]) else b;
    if s.to in st.peers then b1.(fed := Append(b.fed, s, [])) else b1
  }

  /**
   The bookkeeping of one event that relay `p` handled in state `s`: threads and their ids are those that the event
   loop started, and chunks go where it gave them.
   */
  ghost function Account(b: Book, p: PeerId, s: State, e: Event, env: Env): (r: Book)
    ensures r.relays == b.relays
  {
    match e
    case AcceptGameConnection(g) =>
      var spawn := Handle(s, e, env).spawn;
      if spawn.Serve?
      then Opened(Claimed(b, p, spawn.peer, spawn.conn), env.newHandle, Seg(p, spawn.peer, spawn.conn, p), g)
      else b
    case AddGameConnection(from, c, _, t) => Registered(b, s, At(b.owner, p, from, c), t)
    case Recv(from, RelayConnect(g, cid, hops)) =>
      var k := Seg(from, p, ConnectionId(cid, false), from);
      var spawn := Handle(s, e, env).spawn;
      if spawn.Dial? then
        Hosted(b, env.newHandle, Seg(spawn.peer, p, spawn.conn, spawn.peer), spawn.gameId, spawn.addr)
      else if Forwards(s, from, g, cid, hops, env) then
        var q := s.games[g].peer;
        var c := s.peers[q].next;
        Spliced(Claimed(b, p, q, c), k, Seg(p, q, c, p))
      else b
    case Recv(from, RelayData(cid, local, data)) =>
      Moved(b, s, At(b.owner, from, p, ConnectionId(cid, local)), data, env)
    case _ => b
  }

  function Updated(b: Book, p: PeerId, s: State): Book {
    b.(relays := b.relays[p := s])
  }

  /** The games for which relay `p` has a listener recorded. */
  function Listening(p: PeerId, s: State): set<(PeerId, GameId)> {
    set g | g in s.games && s.games[g].Remote? && s.games[g].listener.Some? :: (p, g)
  }

  ghost function Next(n: Net, l: Label): Net
    requires Enabled(n, l)
  {
    match l
    case Arrive(p, e) => n.(inbox := Append(n.inbox, p, e))
    case Transfer(k) =>
      n.(links := n.links[k := n.links[k][1..]], inbox := Append(n.inbox, k.to, Recv(k.from, n.links[k][0])))
    case Process(p, env) =>
      var s, e := n.book.relays[p], n.inbox[p][0];
      var o := Handle(s, e, env);
      Net(Account(Updated(n.book, p, o.state), p, s, e, env),
          PushAll(n.links, p, o.sends),
          n.inbox[p := n.inbox[p][1..]],
          n.bound + Listening(p, o.state))
    case Connected(t) =>
      var th := n.book.threads[t];
      n.(book := n.book.(threads := n.book.threads[t := th.(phase := Running, posted := true)]),
         inbox := Append(n.inbox, th.relay, AddGameConnection(th.peer, th.conn, th.game, t)))
    case Take(t) =>
      var th := n.book.threads[t];
      var th' := th.(phase := Running, chan := th.chan[1..], output := th.output + [th.chan[0]]);
      n.(book := n.book.(threads := n.book.threads[t := th']))
    case Break(t, k) =>
      var th := n.book.threads[t];
      n.(book := n.book.(threads := n.book.threads[t := th.(phase := Closed, torn := th.chan[0][..k])]),
         links := Append(n.links, Link(th.relay, th.peer), RelayClose(th.conn.id, th.conn.local)))
    case Read(t, data) =>
      var th := n.book.threads[t];
      n.(book := n.book.(threads := n.book.threads[t := th.(input := th.input + [data])],
                         fed := Append(n.book.fed, th.Out(), data)),
         links := Append(n.links, Link(th.relay, th.peer), RelayData(th.conn.id, th.conn.local, data)))
    case Finish(t) =>
      var th := n.book.threads[t];
      n.(book := n.book.(threads := n.book.threads[t := th.(phase := Closed)]),
         links := Append(n.links, Link(th.relay, th.peer), RelayClose(th.conn.id, th.conn.local)))
  }

  ghost predicate Valid(n: Net, ls: seq<Label>)
    decreases |ls|
  {
    ls == [] || (Enabled(n, ls[0]) && Valid(Next(n, ls[0]), ls[1..]))
  }

  ghost function Exec(n: Net, ls: seq<Label>): Net
    requires Valid(n, ls)
    decreases |ls|
  {
    if ls == [] then n else Exec(Next(n, ls[0]), ls[1..])
  }

  // ---------------------------------------------------------------- collisions

  /** The peer towards which a relay allocates an id when it handles the event, if any. */
  ghost function Calls(s: State, e: Event, env: Env): (to: Option<PeerId>)
    ensures to.Some? ==> to.value in s.peers
  {
    match e
    case AcceptGameConnection(g) => if Accepts(s, g) then Some(s.games[g].peer) else None
    case Recv(from, RelayConnect(g, cid, hops)) =>
      if Forwards(s, from, g, cid, hops, env) then Some(s.games[g].peer) else None
    case _ => None
  }

  ghost function Allocates(n: Net, l: Label): (to: Option<PeerId>)
    requires Enabled(n, l)
    ensures to.Some? ==> l.Process? && to.value in n.book.relays[l.relay].peers
  {
    if l.Process? then Calls(n.book.relays[l.relay], n.inbox[l.relay][0], l.env) else None
  }

  ghost predicate HasRelayed(relays: Relays, p: PeerId, q: PeerId, c: ConnectionId) {
    p in relays && q in relays[p].peers && c in relays[p].peers[q].relayed
  }

  ghost predicate HasLocal(relays: Relays, p: PeerId, q: PeerId, c: ConnectionId) {
    p in relays && q in relays[p].peers && c in relays[p].peers[q].locals
  }

  /** The thread may still send under the id. */
  predicate Holds(th: Thread, w: Wire) {
    th.phase != Closed && WireOf(th.relay, th.peer, th.conn) == w
  }

  /**
   Relay `p` has an entry for id `c` of peer `q`, or is about to make one, or has to handle a chunk or Connect
   under it.
   */
  ghost predicate Traced(n: Net, p: PeerId, q: PeerId, c: ConnectionId) {
    || HasLocal(n.book.relays, p, q, c) || HasRelayed(n.book.relays, p, q, c)
    || (exists i :: 0 <= i < |Log(n.inbox, p)| && Registers(n.inbox[p][i], q, c))
    || Pending(n.inbox, n.links, Seg(q, p, c, q)) != []
    || c in OpenIds(n, q, p)
  }

  predicate Registers(e: Event, q: PeerId, c: ConnectionId) {
    e.AddGameConnection? && e.peer == q && e.conn == c
  }

  /** The ids of the Connects on their way from `p` to `q`. */
  function OpenIds(n: Net, p: PeerId, q: PeerId): set<ConnectionId> {
    set id | id in Opens(n.inbox, n.links, Link(p, q)) :: ConnectionId(id, false)
  }

  /** No trace of id `c` is left on the link: no entry, no thread, no registration and no message at either end. */
  ghost predicate Traceless(n: Net, p: PeerId, q: PeerId, c: ConnectionId) {
    && p != q && !Traced(n, p, q, c) && !Traced(n, q, p, c)
    && (forall t :: t in n.book.threads ==> !Holds(n.book.threads[t], WireOf(p, q, c)))
  }

  /** The step allocates no id of which a trace is left. */
  ghost predicate NoCollisionAt(n: Net, l: Label)
    requires Enabled(n, l)
  {
    var to := Allocates(n, l);
    to.Some? ==> Traceless(n, l.relay, to.value, n.book.relays[l.relay].peers[to.value].next)
  }

  ghost predicate Collisionless(n: Net, ls: seq<Label>)
    requires Valid(n, ls)
    decreases |ls|
  {
    ls == [] || (NoCollisionAt(n, ls[0]) && Collisionless(Next(n, ls[0]), ls[1..]))
  }

  // ---------------------------------------------------------------- what a circuit promises

  /** Thread `t` serves a host, and the Connect that made it dial was some client's. */
  ghost predicate Serves(b: Book, t: Tx) {
    t in b.threads && b.threads[t].host && b.threads[t].In() in b.origin && b.origin[b.threads[t].In()] in b.threads
  }

  /** The client whose Connect made host thread `t` dial. */
  ghost function ClientOf(b: Book, t: Tx): Tx
    requires Serves(b, t)
  {
    b.origin[b.threads[t].In()]
  }

  ghost predicate Unserved(b: Book, u: Tx) {
    forall t :: Serves(b, t) ==> ClientOf(b, t) != u
  }

  /** What each end has written to its socket is a prefix of what the other end has read from its own. */
  ghost predicate Agree(host: Thread, client: Thread) {
    && !client.host
    && IsPrefix(host.Written(), Flat(client.input)) && IsPrefix(client.Written(), Flat(host.input))
  }

  /** Every host agrees with its client, no client has two hosts, and a client without a host exchanges nothing. */
  ghost predicate StreamSafe(b: Book) {
    && (forall t :: t in b.threads && b.threads[t].host ==>
          Serves(b, t) && Agree(b.threads[t], b.threads[ClientOf(b, t)]))
    && (forall t, x :: Serves(b, t) && Serves(b, x) && ClientOf(b, t) == ClientOf(b, x) ==> t == x)
    && (forall u :: u in b.threads && !b.threads[u].host && Unserved(b, u) ==>
          b.threads[u].Written() == [] && b.threads[u].input == [])
  }
}
