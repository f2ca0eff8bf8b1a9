/** What every step keeps true of the circuits of a network. */
module CircuitInvariant {
  import opened Basics
  import opened RelayTypes
  import opened Circuits

  // ---------------------------------------------------------------- the invariant

  /** Nothing is lost, duplicated or reordered on a segment. */
  ghost predicate Flow(n: Net) {
    forall s :: Log(n.book.fed, s) == Log(n.book.popped, s) + OnTheWay(n.book.owner, n.inbox, n.links, s)
  }

  /** The chunks of a segment that are on their way; an id that was allocated anew carries none of the old segment. */
  ghost function OnTheWay(owner: Owners, inbox: Inboxes, links: Links, s: Seg): seq<Bytes> {
    if Current(owner, s) then Pending(inbox, links, s) else []
  }

  /** A segment fed from another one carries a prefix of what was taken off that one. */
  ghost predicate Feeds(feeder: map<Seg, Feeder>, fed: Chunks, popped: Chunks) {
    && (forall s :: s !in feeder ==> Log(fed, s) == [])
    && (forall s :: s in feeder && feeder[s].FromSeg? ==> IsPrefix(Log(fed, s), Log(popped, feeder[s].seg)))
  }

  /** A relayed entry splices the two segments it names, both ways, and forwards all it takes off. */
  ghost predicate RelayedOk(owner: Owners, feeder: map<Seg, Feeder>, fed: Chunks, popped: Chunks, k: Seg,
                            r: RelayedConnection) {
    var j := At(owner, k.to, r.peer, r.conn);
    && j in feeder && feeder[j] == FromSeg(k)
    && Rev(k) in feeder && feeder[Rev(k)] == FromSeg(Rev(j))
    && Log(fed, j) == Log(popped, k)
  }

  ghost predicate RelayedEntries(relays: Relays, owner: Owners, feeder: map<Seg, Feeder>, fed: Chunks, popped: Chunks) {
    forall p, q, c :: HasRelayed(relays, p, q, c) ==>
      RelayedOk(owner, feeder, fed, popped, At(owner, q, p, c), relays[p].peers[q].relayed[c])
  }

  /** Without peer loss, both ends of a relayed entry stay present. */
  ghost predicate Pointers(relays: Relays) {
    forall p, q, c :: HasRelayed(relays, p, q, c) ==> relays[p].peers[q].relayed[c].peer in relays[p].peers
  }

  /** A local entry gives all it takes off to the thread of that very connection. */
  ghost predicate LocalOk(threads: map<Tx, Thread>, popped: Chunks, k: Seg, t: Tx) {
    && t in threads && threads[t].In() == k
    && (threads[t].phase != Closed ==> threads[t].Given() == Log(popped, k))
  }

  ghost predicate LocalEntries(relays: Relays, owner: Owners, threads: map<Tx, Thread>, popped: Chunks) {
    forall p, q, c :: HasLocal(relays, p, q, c) ==>
      LocalOk(threads, popped, At(owner, q, p, c), relays[p].peers[q].locals[c])
  }

  /** What thread `t` read is what was fed to its outgoing segment; a client first waits for a chunk. */
  ghost predicate ClientOk(th: Thread, out: seq<Bytes>) {
    && out == th.input && th.phase != Dialing && !th.posted
    && (th.phase == Running || th.input != [] ==> th.output != [])
  }

  /** A host sends one empty chunk besides, and receives nothing before it is registered. */
  ghost predicate HostOk(th: Thread, out: seq<Bytes>, popped: seq<Bytes>) {
    && Flat(out) == Flat(th.input) && th.phase != Waiting
    && (!th.posted ==> out == [] && (th.phase == Dialing || th.phase == Closed) && !th.registered)
    && (th.phase == Dialing ==> !th.posted)
    && (!th.registered ==> popped == [] && th.Given() == [])
  }

  /** Only a closed thread has written part of a chunk, and it is the next one on its channel. */
  ghost predicate TornOk(th: Thread) {
    th.torn != [] ==> th.phase == Closed && th.chan != [] && IsPrefix(th.torn, th.chan[0])
  }

  ghost predicate ThreadOk(th: Thread, out: seq<Bytes>, popped: seq<Bytes>) {
    && IsPrefix(th.Given(), popped) && TornOk(th)
    && if th.host then HostOk(th, out, popped) else ClientOk(th, out)
  }

  ghost predicate Threads(threads: map<Tx, Thread>, fed: Chunks, popped: Chunks) {
    forall t :: t in threads ==> ThreadOk(threads[t], Log(fed, threads[t].Out()), Log(popped, threads[t].In()))
  }

  /** Where a thread stands in its circuit: a client at the first segment, a host at the last. */
  ghost predicate EndOk(feeder: map<Seg, Feeder>, origin: map<Seg, Tx>, tip: map<Tx, Seg>, t: Tx, th: Thread) {
    && th.Out() in feeder && feeder[th.Out()] == FromThread(t)
    && if th.host then th.In() in origin && origin[th.In()] in tip && tip[origin[th.In()]] == th.In()
       else th.Out() in origin && origin[th.Out()] == t && t in tip
  }

  ghost predicate Ends(threads: map<Tx, Thread>, feeder: map<Seg, Feeder>, origin: map<Seg, Tx>, tip: map<Tx, Seg>) {
    forall t :: t in threads ==> EndOk(feeder, origin, tip, t, threads[t])
  }

  /** A thread that may still send, or still has to be registered, uses its id as it stands. */
  ghost predicate LiveOk(owner: Owners, th: Thread) {
    th.phase != Closed || (th.posted && !th.registered) ==> Current(owner, th.Out())
  }

  ghost predicate Live(owner: Owners, threads: map<Tx, Thread>) {
    forall t :: t in threads ==> LiveOk(owner, threads[t])
  }

  ghost predicate Counters(relays: Relays) {
    forall p, q :: p in relays && q in relays[p].peers ==> !relays[p].peers[q].next.local
  }

  /** The id of a segment was allocated by the one of its ends that the segment names. */
  ghost predicate Allocated(relays: Relays, s: Seg) {
    && !s.conn.local && s.from != s.to
    && ((s.caller == s.from && s.conn.id < NextId(relays, s.from, s.to))
        || (s.caller == s.to && s.conn.id < NextId(relays, s.to, s.from)))
  }

  /** Every segment in use has an allocated id, and a circuit leads away from the relays that allocated its ids. */
  ghost predicate Ids(relays: Relays, feeder: map<Seg, Feeder>, origin: map<Seg, Tx>) {
    && Counters(relays)
    && (forall s :: s in feeder ==> Allocated(relays, s))
    && (forall k :: k in origin ==> k in feeder && k.caller == k.from)
  }

  ghost predicate OpenOk(b: Book, k: Link, id: nat) {
    var s := Seg(k.from, k.to, ConnectionId(id, false), k.from);
    && id < NextId(b.relays, k.from, k.to) && Current(b.owner, s)
    && s in b.origin && Rev(s) !in b.feeder && b.origin[s] in b.tip && b.tip[b.origin[s]] == s
  }

  ghost predicate Increasing(ids: seq<nat>) {
    forall i, j :: 0 <= i < j < |ids| ==> ids[i] < ids[j]
  }

  /** Every Connect on its way is the only one for its segment, and the frontier of its circuit. */
  ghost predicate Connects(n: Net) {
    forall k :: Increasing(Opens(n.inbox, n.links, k))
             && forall id :: id in Opens(n.inbox, n.links, k) ==> OpenOk(n.book, k, id)
  }

  lemma ConnectAt(n: Net, l: Link, id: nat)
    requires Connects(n) && id in Opens(n.inbox, n.links, l)
    ensures OpenOk(n.book, l, id)
  {}

  /** What a client's segments carry, towards the host and back. */
  ghost predicate CircuitOk(tip: map<Tx, Seg>, threads: map<Tx, Thread>, fed: Chunks, k: Seg, u: Tx) {
    && u in threads && !threads[u].host && u in tip
    && IsPrefix(Log(fed, k), threads[u].input)
    && IsPrefix(Log(fed, Rev(k)), Log(fed, Rev(tip[u])))
  }

  ghost predicate Streams(origin: map<Seg, Tx>, tip: map<Tx, Seg>, threads: map<Tx, Thread>, fed: Chunks) {
    forall k :: k in origin ==> CircuitOk(tip, threads, fed, k, origin[k])
  }

  /** The frontier of a circuit is its own, and is fed back only by the host that dialled there. */
  ghost predicate TipOk(feeder: map<Seg, Feeder>, origin: map<Seg, Tx>, threads: map<Tx, Thread>, u: Tx, k: Seg) {
    && k in origin && origin[k] == u
    && (Rev(k) in feeder ==>
          var f := feeder[Rev(k)];
          f.FromThread? && f.tx in threads && threads[f.tx].host && threads[f.tx].In() == k)
  }

  ghost predicate Tips(feeder: map<Seg, Feeder>, origin: map<Seg, Tx>, tip: map<Tx, Seg>, threads: map<Tx, Thread>) {
    forall u :: u in tip ==> TipOk(feeder, origin, threads, u, tip[u])
  }

  /** Segments that are spliced together belong to the same client. */
  ghost predicate SpliceOk(origin: map<Seg, Tx>, s: Seg, k: Seg) {
    && (s in origin ==> k in origin && origin[k] == origin[s])
    && (Rev(s) in origin ==> Rev(k) in origin && origin[Rev(k)] == origin[Rev(s)])
  }

  ghost predicate Splices(feeder: map<Seg, Feeder>, origin: map<Seg, Tx>) {
    forall s :: s in feeder && feeder[s].FromSeg? ==> SpliceOk(origin, s, feeder[s].seg)
  }

  /** An AddGameConnection in a mailbox belongs to a connected, unregistered host thread. */
  ghost predicate PostOk(threads: map<Tx, Thread>, p: PeerId, e: Event) {
    e.AddGameConnection? ==>
      && e.tx in threads
      && var th := threads[e.tx];
         th.host && th.posted && !th.registered && th.relay == p && th.peer == e.peer && th.conn == e.conn
  }

  ghost predicate Posted(q: seq<Event>, t: Tx) {
    exists i :: 0 <= i < |q| && q[i].AddGameConnection? && q[i].tx == t
  }

  /** It is there once, and no chunk for its connection is ahead of it. */
  ghost predicate Ordered(q: seq<Event>) {
    forall i, j :: 0 <= i < j < |q| && q[j].AddGameConnection? ==>
      && (q[i].AddGameConnection? ==> q[i].tx != q[j].tx)
      && EventData(q[i], q[j].peer, q[j].conn) == []
  }

  ghost predicate MailboxOk(threads: map<Tx, Thread>, p: PeerId, q: seq<Event>) {
    Ordered(q) && forall i :: 0 <= i < |q| ==> PostOk(threads, p, q[i])
  }

  ghost predicate Posts(threads: map<Tx, Thread>, inbox: Inboxes) {
    && (forall p :: MailboxOk(threads, p, Log(inbox, p)))
    && (forall t :: t in threads && threads[t].posted && !threads[t].registered ==>
          Posted(Log(inbox, threads[t].relay), t))
  }

  ghost predicate BookOk(b: Book) {
    && Feeds(b.feeder, b.fed, b.popped) && Pointers(b.relays)
    && RelayedEntries(b.relays, b.owner, b.feeder, b.fed, b.popped)
    && LocalEntries(b.relays, b.owner, b.threads, b.popped)
    && Threads(b.threads, b.fed, b.popped) && Live(b.owner, b.threads) && Ends(b.threads, b.feeder, b.origin, b.tip)
    && Ids(b.relays, b.feeder, b.origin)
    && Streams(b.origin, b.tip, b.threads, b.fed)
    && Tips(b.feeder, b.origin, b.tip, b.threads) && Splices(b.feeder, b.origin)
  }

  ghost predicate Inv(n: Net) {
    BookOk(n.book) && Flow(n) && Connects(n) && Posts(n.book.threads, n.inbox)
  }

  lemma InvParts(n: Net)
    requires Inv(n)
    ensures BookOk(n.book) && Flow(n) && Connects(n) && Posts(n.book.threads, n.inbox)
  {}

  lemma InvWhole(n: Net)
    requires BookOk(n.book) && Flow(n) && Connects(n) && Posts(n.book.threads, n.inbox)
    ensures Inv(n)
  {}

  // ---------------------------------------------------------------- queues

  lemma {:induction false} LinkConcat(a: seq<RelayMessage>, m: RelayMessage, c: ConnectionId)
    ensures LinkData(a + [m], c) == LinkData(a, c) + ChunkIn(m, c)
    ensures LinkOpens(a + [m]) == LinkOpens(a) + OpenIn(m)
  {
    if a == [] { assert a + [m] == [m]; }
    else { assert (a + [m])[1..] == a[1..] + [m]; LinkConcat(a[1..], m, c); }
  }

  lemma {:induction false} InboxConcat(a: seq<Event>, e: Event, from: PeerId, c: ConnectionId)
    ensures InboxData(a + [e], from, c) == InboxData(a, from, c) + EventData(e, from, c)
    ensures InboxOpens(a + [e], from) == InboxOpens(a, from) + EventOpens(e, from)
  {
    if a == [] { assert a + [e] == [e]; }
    else { assert (a + [e])[1..] == a[1..] + [e]; InboxConcat(a[1..], e, from, c); }
  }

  lemma {:induction false} InboxDataEmpty(q: seq<Event>, from: PeerId, c: ConnectionId, i: nat)
    requires InboxData(q, from, c) == [] && i < |q|
    ensures EventData(q[i], from, c) == []
  {
    if i > 0 { InboxDataEmpty(q[1..], from, c, i - 1); }
  }

  function NewChunk(k: Link, m: RelayMessage, s: Seg): seq<Bytes> {
    if Link(s.from, s.to) == k then ChunkIn(m, s.conn) else []
  }

  function NewOpen(k: Link, m: RelayMessage, j: Link): seq<nat> {
    if j == k then OpenIn(m) else []
  }

  lemma LinkGrowsAt(inbox: Inboxes, links: Links, k: Link, m: RelayMessage, s: Seg)
    ensures Pending(inbox, Append(links, k, m), s) == Pending(inbox, links, s) + NewChunk(k, m, s)
  {
    var links' := Append(links, k, m);
    var a := InboxData(Log(inbox, s.to), s.from, s.conn);
    var x, x' := LinkData(Log(links, Link(s.from, s.to)), s.conn), LinkData(Log(links', Link(s.from, s.to)), s.conn);
    LinkConcat(Log(links, k), m, s.conn);
    assert x' == x + NewChunk(k, m, s);
    Assoc(a, x, NewChunk(k, m, s));
  }

  lemma LinkOpensAt(inbox: Inboxes, links: Links, k: Link, m: RelayMessage, j: Link)
    ensures Opens(inbox, Append(links, k, m), j) == Opens(inbox, links, j) + NewOpen(k, m, j)
  {
    var links' := Append(links, k, m);
    var a := InboxOpens(Log(inbox, j.to), j.from);
    var x, x' := LinkOpens(Log(links, j)), LinkOpens(Log(links', j));
    LinkConcat(Log(links, k), m, ConnectionId(0, false));
    assert x' == x + NewOpen(k, m, j);
    Assoc(a, x, NewOpen(k, m, j));
  }

  /** A link that grows by a message that is neither a chunk nor a Connect. */
  lemma LinkQuiet(inbox: Inboxes, links: Links, k: Link, m: RelayMessage)
    requires !m.RelayData? && !m.RelayConnect?
    ensures forall s :: Pending(inbox, Append(links, k, m), s) == Pending(inbox, links, s)
    ensures forall j :: Opens(inbox, Append(links, k, m), j) == Opens(inbox, links, j)
  {
    forall s ensures Pending(inbox, Append(links, k, m), s) == Pending(inbox, links, s) {
      LinkGrowsAt(inbox, links, k, m, s);
    }
    forall j ensures Opens(inbox, Append(links, k, m), j) == Opens(inbox, links, j) {
      LinkOpensAt(inbox, links, k, m, j);
    }
  }

  /** A mailbox that grows by an event that carries neither a chunk nor a Connect. */
  lemma InboxGrows(inbox: Inboxes, links: Links, p: PeerId, e: Event)
    requires !e.Recv?
    ensures forall s :: Pending(Append(inbox, p, e), links, s) == Pending(inbox, links, s)
    ensures forall j :: Opens(Append(inbox, p, e), links, j) == Opens(inbox, links, j)
  {
    forall s ensures Pending(Append(inbox, p, e), links, s) == Pending(inbox, links, s) {
      InboxConcat(Log(inbox, p), e, s.from, s.conn);
    }
    forall j ensures Opens(Append(inbox, p, e), links, j) == Opens(inbox, links, j) {
      InboxConcat(Log(inbox, p), e, j.from, ConnectionId(0, false));
    }
  }

  lemma TransferredData(inbox: Inboxes, links: Links, k: Link, s: Seg)
    requires Log(links, k) != []
    ensures Pending(Append(inbox, k.to, Recv(k.from, links[k][0])), links[k := links[k][1..]], s)
            == Pending(inbox, links, s)
  {
    var e := Recv(k.from, links[k][0]);
    var l := Link(s.from, s.to);
    var a, d := InboxData(Log(inbox, s.to), s.from, s.conn), EventData(e, s.from, s.conn);
    InboxConcat(Log(inbox, k.to), e, s.from, s.conn);
    if l == k {
      Assoc(a, d, LinkData(links[k][1..], s.conn));
    } else if s.to == k.to {
      assert a + d == a;
    }
  }

  lemma TransferredOpens(inbox: Inboxes, links: Links, k: Link, j: Link)
    requires Log(links, k) != []
    ensures Opens(Append(inbox, k.to, Recv(k.from, links[k][0])), links[k := links[k][1..]], j)
            == Opens(inbox, links, j)
  {
    var e := Recv(k.from, links[k][0]);
    var a, d := InboxOpens(Log(inbox, j.to), j.from), EventOpens(e, j.from);
    InboxConcat(Log(inbox, k.to), e, j.from, ConnectionId(0, false));
    if j == k {
      Assoc(a, d, LinkOpens(links[k][1..]));
    } else if j.to == k.to {
      assert a + d == a;
    }
  }

  /** A message that moves from the head of a link to the end of a mailbox is still on its way. */
  lemma Transferred(inbox: Inboxes, links: Links, k: Link)
    requires Log(links, k) != []
    ensures var inbox', links' := Append(inbox, k.to, Recv(k.from, links[k][0])), links[k := links[k][1..]];
            && (forall s :: Pending(inbox', links', s) == Pending(inbox, links, s))
            && (forall j :: Opens(inbox', links', j) == Opens(inbox, links, j))
  {
    var inbox', links' := Append(inbox, k.to, Recv(k.from, links[k][0])), links[k := links[k][1..]];
    forall s ensures Pending(inbox', links', s) == Pending(inbox, links, s) {
      TransferredData(inbox, links, k, s);
    }
    forall j ensures Opens(inbox', links', j) == Opens(inbox, links, j) {
      TransferredOpens(inbox, links, k, j);
    }
  }

  // ---------------------------------------------------------------- arriving events and transfers

  lemma PostsAppend(threads: map<Tx, Thread>, inbox: Inboxes, p: PeerId, e: Event)
    requires Posts(threads, inbox) && !e.AddGameConnection?
    ensures Posts(threads, Append(inbox, p, e))
  {
    var inbox' := Append(inbox, p, e);
    forall r ensures MailboxOk(threads, r, Log(inbox', r)) {
      assert MailboxOk(threads, r, Log(inbox, r));
    }
    forall t | t in threads && threads[t].posted && !threads[t].registered
      ensures Posted(Log(inbox', threads[t].relay), t)
    {
      var q := Log(inbox, threads[t].relay);
      var i :| 0 <= i < |q| && q[i].AddGameConnection? && q[i].tx == t;
      assert Log(inbox', threads[t].relay)[i] == q[i];
    }
  }

  lemma SameTraffic(n: Net, n': Net)
    requires n'.book == n.book && Flow(n) && Connects(n)
    requires forall s :: Pending(n'.inbox, n'.links, s) == Pending(n.inbox, n.links, s)
    requires forall k :: Opens(n'.inbox, n'.links, k) == Opens(n.inbox, n.links, k)
    ensures Flow(n') && Connects(n')
  {}

  lemma ArriveKeeps(n: Net, l: Label)
    requires Inv(n) && l.Arrive? && Enabled(n, l)
    ensures Inv(Next(n, l))
  {
    InboxGrows(n.inbox, n.links, l.relay, l.event);
    PostsAppend(n.book.threads, n.inbox, l.relay, l.event);
    SameTraffic(n, Next(n, l));
  }

  lemma TransferKeeps(n: Net, l: Label)
    requires Inv(n) && l.Transfer? && Enabled(n, l)
    ensures Inv(Next(n, l))
  {
    Transferred(n.inbox, n.links, l.link);
    PostsAppend(n.book.threads, n.inbox, l.link.to, Recv(l.link.from, n.links[l.link][0]));
    SameTraffic(n, Next(n, l));
  }
}
