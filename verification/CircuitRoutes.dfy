/**
 Every run of the circuits, with its ordered links and mailboxes, is a run of the advertisement network: what is
 proved there holds here, and a client's bytes go to the game that its listener was opened for.
 */
module CircuitRoutes {
  import opened Basics
  import opened RelayTypes
  import opened RelayModel
  import opened Pairing
  import opened Circuits
  import opened CircuitLoop
  import Routes
  import Discovery

  // ---------------------------------------------------------------- whose Connect it is

  /** Segment `k` was opened on behalf of a client, under an id that its first end allocated. */
  ghost predicate OriginOk(b: Book, k: Seg) {
    && k in b.origin && k.caller == k.from && !k.conn.local && k.conn.id < NextId(b.relays, k.from, k.to)
    && b.origin[k] in b.threads && !b.threads[b.origin[k]].host
  }

  /** The client on whose behalf segment `k` was opened, as the cause of a Connect. */
  ghost function CauseOf(b: Book, k: Seg): Routes.Cause
    requires k in b.origin && b.origin[k] in b.threads
  {
    Routes.Client(b.threads[b.origin[k]].relay, b.threads[b.origin[k]].game)
  }

  ghost predicate Origins(b: Book) {
    && (forall p, q :: p in b.relays && q in b.relays[p].peers ==> !b.relays[p].peers[q].next.local)
    && (forall k :: k in b.origin ==> OriginOk(b, k))
    && (forall t :: t in b.threads ==> b.threads[t].relay in b.relays)
  }

  // ---------------------------------------------------------------- the shadow of a circuit network

  /** The message was sent in the shadow, and a Connect for the client that it is for here. */
  ghost predicate Shadowed(b: Book, m: Routes.Net, from: PeerId, to: PeerId, msg: RelayMessage) {
    if msg.RelayConnect? then
      var k := Seg(from, to, ConnectionId(msg.connectionId, false), from);
      OriginOk(b, k) && Routes.Packet(from, to, msg, CauseOf(b, k)) in m.sent
    else exists c :: Routes.Packet(from, to, msg, c) in m.sent
  }

  ghost predicate EventShadowed(b: Book, m: Routes.Net, p: PeerId, e: Event) {
    match e
    case Recv(from, msg) => Shadowed(b, m, from, p, msg)
    case AddLocalGame(_, _, motd) => |motd| <= Discovery.MAX_PACKET_SIZE
    case _ => true
  }

  ghost predicate LinksShadowed(b: Book, links: Links, m: Routes.Net) {
    forall k, i :: 0 <= i < |Log(links, k)| ==> Shadowed(b, m, k.from, k.to, Log(links, k)[i])
  }

  ghost predicate MailShadowed(b: Book, inbox: Inboxes, m: Routes.Net) {
    forall p, i :: 0 <= i < |Log(inbox, p)| ==> EventShadowed(b, m, p, Log(inbox, p)[i])
  }

  /** A host thread dialled on behalf of the client of its segment. */
  ghost predicate HostShadowed(b: Book, m: Routes.Net, th: Thread) {
    th.host ==>
      && OriginOk(b, th.In()) && th.target.Some?
      && Routes.Connection(th.relay, th.target.value, CauseOf(b, th.In())) in m.dials
  }

  ghost predicate Shadows(n: Net, m: Routes.Net) {
    && m.relays == n.book.relays && Origins(n.book)
    && LinksShadowed(n.book, n.links, m) && MailShadowed(n.book, n.inbox, m)
    && (forall t :: t in n.book.threads ==> HostShadowed(n.book, m, n.book.threads[t]))
  }

  // ---------------------------------------------------------------- growing

  /** Threads keep their place, clients keep their segments, counters do not go back. */
  ghost predicate Carries(b: Book, b': Book) {
    && (forall t :: t in b.threads ==> t in b'.threads && SamePlace(b.threads[t], b'.threads[t]))
    && (forall k :: k in b.origin ==> k in b'.origin && b'.origin[k] == b.origin[k])
    && (forall p, q :: NextId(b'.relays, p, q) >= NextId(b.relays, p, q))
  }

  ghost predicate SamePlace(th: Thread, th': Thread) {
    && th'.relay == th.relay && th'.peer == th.peer && th'.conn == th.conn
    && th'.host == th.host && th'.game == th.game && th'.target == th.target
  }

  ghost predicate Grew(m: Routes.Net, m': Routes.Net) {
    m.sent <= m'.sent && m.dials <= m'.dials
  }

  lemma OriginCarries(b: Book, b': Book, k: Seg)
    requires OriginOk(b, k) && Carries(b, b')
    ensures OriginOk(b', k) && CauseOf(b', k) == CauseOf(b, k)
  {
    assert SamePlace(b.threads[b.origin[k]], b'.threads[b.origin[k]]);
  }

  lemma ShadowCarries(b: Book, b': Book, m: Routes.Net, m': Routes.Net, from: PeerId, to: PeerId, msg: RelayMessage)
    requires Shadowed(b, m, from, to, msg) && Carries(b, b') && Grew(m, m')
    ensures Shadowed(b', m', from, to, msg)
  {
    hide Carries, OriginOk, CauseOf;
    if msg.RelayConnect? {
      OriginCarries(b, b', Seg(from, to, ConnectionId(msg.connectionId, false), from));
    } else {
      var c :| Routes.Packet(from, to, msg, c) in m.sent;
      assert Routes.Packet(from, to, msg, c) in m'.sent;
    }
  }

  lemma LinksCarry(b: Book, b': Book, links: Links, m: Routes.Net, m': Routes.Net)
    requires LinksShadowed(b, links, m) && Carries(b, b') && Grew(m, m')
    ensures LinksShadowed(b', links, m')
  {
    hide Carries, Shadowed;
    forall k, i | 0 <= i < |Log(links, k)| ensures Shadowed(b', m', k.from, k.to, Log(links, k)[i]) {
      ShadowCarries(b, b', m, m', k.from, k.to, Log(links, k)[i]);
    }
  }

  lemma MailCarries(b: Book, b': Book, inbox: Inboxes, m: Routes.Net, m': Routes.Net)
    requires MailShadowed(b, inbox, m) && Carries(b, b') && Grew(m, m')
    ensures MailShadowed(b', inbox, m')
  {
    hide Carries, Shadowed;
    forall p, i | 0 <= i < |Log(inbox, p)| ensures EventShadowed(b', m', p, Log(inbox, p)[i]) {
      var e := Log(inbox, p)[i];
      assert EventShadowed(b, m, p, e);
      if e.Recv? { ShadowCarries(b, b', m, m', e.peer, p, e.message); }
    }
  }

  lemma HostCarries(b: Book, b': Book, m: Routes.Net, m': Routes.Net, th: Thread, th': Thread)
    requires HostShadowed(b, m, th) && SamePlace(th, th') && Carries(b, b') && Grew(m, m')
    ensures HostShadowed(b', m', th')
  {
    hide Carries, OriginOk, CauseOf;
    if th.host { OriginCarries(b, b', th.In()); }
  }

  lemma LinkAppended(b: Book, links: Links, m: Routes.Net, k: Link, msg: RelayMessage)
    requires LinksShadowed(b, links, m) && Shadowed(b, m, k.from, k.to, msg)
    ensures LinksShadowed(b, Append(links, k, msg), m)
  {
    hide Shadowed;
    forall x, i | 0 <= i < |Log(Append(links, k, msg), x)|
      ensures Shadowed(b, m, x.from, x.to, Log(Append(links, k, msg), x)[i])
    {
      assert i < |Log(links, x)| ==> Shadowed(b, m, x.from, x.to, Log(links, x)[i]);
    }
  }

  lemma LinksPushed(b: Book, links: Links, m: Routes.Net, p: PeerId, sends: map<PeerId, RelayMessage>)
    requires LinksShadowed(b, links, m) && forall q :: q in sends ==> Shadowed(b, m, p, q, sends[q])
    ensures LinksShadowed(b, PushAll(links, p, sends), m)
  {
    hide Shadowed;
    forall k, i | 0 <= i < |Log(PushAll(links, p, sends), k)|
      ensures Shadowed(b, m, k.from, k.to, Log(PushAll(links, p, sends), k)[i])
    {
      assert Log(PushAll(links, p, sends), k) == Log(links, k) + Sent(p, sends, k);
      assert i < |Log(links, k)| ==> Shadowed(b, m, k.from, k.to, Log(links, k)[i]);
    }
  }

  lemma MailAppended(b: Book, inbox: Inboxes, m: Routes.Net, p: PeerId, e: Event)
    requires MailShadowed(b, inbox, m) && EventShadowed(b, m, p, e)
    ensures MailShadowed(b, Append(inbox, p, e), m)
  {
    hide EventShadowed;
    forall x, i | 0 <= i < |Log(Append(inbox, p, e), x)|
      ensures EventShadowed(b, m, x, Log(Append(inbox, p, e), x)[i])
    {
      assert i < |Log(inbox, x)| ==> EventShadowed(b, m, x, Log(inbox, x)[i]);
    }
  }

  lemma MailPopped(b: Book, inbox: Inboxes, m: Routes.Net, p: PeerId)
    requires MailShadowed(b, inbox, m) && Log(inbox, p) != []
    ensures MailShadowed(b, inbox[p := inbox[p][1..]], m)
  {
    hide EventShadowed;
    var inbox' := inbox[p := inbox[p][1..]];
    forall x, i | 0 <= i < |Log(inbox', x)| ensures EventShadowed(b, m, x, Log(inbox', x)[i]) {
      if x == p { assert Log(inbox, p)[i + 1] == inbox[p][1..][i]; }
      assert EventShadowed(b, m, x, Log(inbox, x)[if x == p then i + 1 else i]);
    }
  }

  // ---------------------------------------------------------------- what one event does

  /** An event without peer loss moves only the counter towards the peer it calls. */
  ghost predicate CountersMove(s: State, t: State, to: Option<PeerId>) {
    && s.peers.Keys <= t.peers.Keys
    && (forall q :: q in s.peers ==>
          t.peers[q].next == if to == Some(q) then Bump(s.peers[q].next) else s.peers[q].next)
    && (forall q :: q in t.peers && q !in s.peers ==> t.peers[q].next == NEW_PEER.next)
  }

  lemma EventCounters(s: State, e: Event, env: Env)
    requires env.failing == {} && !e.RemovePeer? && (e.AddPeer? ==> e.peer !in s.peers)
    ensures CountersMove(s, Handle(s, e, env).state, Calls(s, e, env))
  {
    hide Handle;
    if IsQuiet(s, e, env) { QuietHandle(s, e, env); } else { BusyEventCounters(s, e, env); }
  }

  lemma BusyEventCounters(s: State, e: Event, env: Env)
    requires env.failing == {} && !e.RemovePeer? && !e.AddPeer? && !IsQuiet(s, e, env)
    ensures CountersMove(s, Handle(s, e, env).state, Calls(s, e, env))
  {
    if e.Recv? && e.message.RelayConnect? { ConnectCounters(s, e.peer, e.message, env); }
  }

  lemma ConnectCounters(s: State, from: PeerId, m: RelayMessage, env: Env)
    requires env.failing == {} && m.RelayConnect?
    ensures CountersMove(s, Handle(s, Recv(from, m), env).state, Calls(s, Recv(from, m), env))
  {
    var t := Handle(s, Recv(from, m), env).state;
    if Forwards(s, from, m.gameId, m.connectionId, m.hops, env) {
      var to := s.games[m.gameId].peer;
      var s1 := Allocate(s, from, ConnectionId(m.connectionId, false), to);
      assert CountersMove(s, s1, Some(to));
      assert t.peers.Keys == s1.peers.Keys && forall q :: q in s1.peers ==> t.peers[q].next == s1.peers[q].next;
    } else {
      assert t == s;
    }
  }

  /** Only a call sends a Connect, and it bears the id just allocated. */
  lemma EventConnects(s: State, e: Event, env: Env, q: PeerId)
    requires env.failing == {} && !e.RemovePeer? && (e.AddPeer? ==> e.peer !in s.peers)
    ensures var sends := Handle(s, e, env).sends;
            q in sends && sends[q].RelayConnect? ==>
              Calls(s, e, env) == Some(q) && sends[q].connectionId == s.peers[q].next.id
  {
    hide Handle;
    if IsQuiet(s, e, env) { QuietHandle(s, e, env); } else { BusyEventConnects(s, e, env, q); }
  }

  lemma BusyEventConnects(s: State, e: Event, env: Env, q: PeerId)
    requires env.failing == {} && !e.RemovePeer? && !e.AddPeer? && !IsQuiet(s, e, env)
    ensures var sends := Handle(s, e, env).sends;
            q in sends && sends[q].RelayConnect? ==>
              Calls(s, e, env) == Some(q) && sends[q].connectionId == s.peers[q].next.id
  {}

  /** The Connect at hand is for a local game of the relay. */
  ghost predicate DialsFor(s: State, e: Event) {
    && e.Recv? && e.message.RelayConnect? && e.peer in s.peers
    && e.message.gameId in s.games && s.games[e.message.gameId].Local?
  }

  lemma EventDials(s: State, e: Event, env: Env)
    requires DialsFor(s, e)
    ensures var c := ConnectionId(e.message.connectionId, false);
            Handle(s, e, env).spawn == Dial(e.peer, c, e.message.gameId, s.games[e.message.gameId].addr)
  {}

  /** The segment under which a Connect arrives. */
  function Arriving(p: PeerId, e: Event): Seg
    requires e.Recv? && e.message.RelayConnect?
  {
    Seg(e.peer, p, ConnectionId(e.message.connectionId, false), e.peer)
  }

  /** How the bookkeeping of one event changes threads and clients. */
  ghost predicate Accounted(b: Book, b': Book, p: PeerId, s: State, e: Event, env: Env) {
    var to := Calls(s, e, env);
    && (forall t :: t in b.threads ==> t in b'.threads && SamePlace(b.threads[t], b'.threads[t]))
    && (to.None? ==> b'.origin == b.origin)
    && (to.None? && !DialsFor(s, e) ==> b'.threads.Keys == b.threads.Keys)
    && (to.Some? && e.AcceptGameConnection? ==>
          var k := Seg(p, to.value, s.peers[to.value].next, p);
          && b'.origin == b.origin[k := env.newHandle]
          && b'.threads == b.threads[env.newHandle := NewClient(k, e.gameId)])
    && (to.Some? && !e.AcceptGameConnection? ==>
          && e.Recv? && e.message.RelayConnect? && b'.threads == b.threads
          && (Arriving(p, e) in b.origin ==>
                b'.origin == b.origin[Seg(p, to.value, s.peers[to.value].next, p) := b.origin[Arriving(p, e)]]))
    && (DialsFor(s, e) ==>
          b'.threads == b.threads[env.newHandle := NewHost(Arriving(p, e), e.message.gameId,
                                                           s.games[e.message.gameId].addr)])
  }

  /** The same threads at the same places. */
  ghost predicate SameThreads(b: Book, b': Book) {
    && b'.origin == b.origin && b'.threads.Keys == b.threads.Keys
    && (forall t :: t in b.threads ==> SamePlace(b.threads[t], b'.threads[t]))
  }

  lemma ThreadKeeps(b: Book, b': Book, t: Tx, th: Thread)
    requires t in b.threads && SamePlace(b.threads[t], th) && b'.threads == b.threads[t := th] && b'.origin == b.origin
    ensures SameThreads(b, b')
  {
    assert b.threads[t := th].Keys == b.threads.Keys;
  }

  lemma DeliveredKeeps(b: Book, t: Tx, data: Bytes)
    ensures SameThreads(b, Delivered(b, t, data))
  {
    if t in b.threads { ThreadKeeps(b, Delivered(b, t, data), t, b.threads[t].(chan := b.threads[t].chan + [data])); }
  }

  lemma SameThreadsFrom(b: Book, b1: Book, b': Book)
    requires SameThreads(b1, b') && b1.threads == b.threads && b1.origin == b.origin
    ensures SameThreads(b, b')
  {}

  lemma NoThreadMoved(b: Book, b': Book)
    requires b'.threads == b.threads && b'.origin == b.origin
    ensures SameThreads(b, b')
  {}

  lemma MovedKeeps(b: Book, st: State, k: Seg, data: Bytes, env: Env)
    ensures SameThreads(b, Moved(b, st, k, data, env))
  {
    hide Delivered, At, SameThreads;
    var r, b1 := Moved(b, st, k, data, env), b.(popped := Append(b.popped, k, data));
    if k.from in st.peers && k.conn in st.peers[k.from].locals && st.peers[k.from].locals[k.conn] !in env.closed {
      DeliveredKeeps(b1, st.peers[k.from].locals[k.conn], data);
      SameThreadsFrom(b, b1, r);
    } else {
      NoThreadMoved(b, r);
    }
  }

  lemma RegisteredKeeps(b: Book, st: State, k: Seg, t: Tx)
    ensures SameThreads(b, Registered(b, st, k, t))
  {
    if t in b.threads { ThreadKeeps(b, Registered(b, st, k, t), t, b.threads[t].(registered := true)); }
  }

  lemma DialShape(b: Book, p: PeerId, s: State, e: Event, env: Env)
    requires env.newHandle !in b.threads && DialsFor(s, e)
    ensures Accounted(b, Account(b, p, s, e, env), p, s, e, env)
  {}

  lemma ForwardShape(b: Book, p: PeerId, s: State, from: PeerId, m: RelayMessage, env: Env)
    requires m.RelayConnect? && Forwards(s, from, m.gameId, m.connectionId, m.hops, env)
    ensures Accounted(b, Account(b, p, s, Recv(from, m), env), p, s, Recv(from, m), env)
  {
    assert Account(b, p, s, Recv(from, m), env).threads == b.threads;
  }

  lemma ConnectShape(b: Book, p: PeerId, s: State, from: PeerId, m: RelayMessage, env: Env)
    requires env.newHandle !in b.threads && m.RelayConnect?
    ensures Accounted(b, Account(b, p, s, Recv(from, m), env), p, s, Recv(from, m), env)
  {
    hide Forwards;
    if DialsFor(s, Recv(from, m)) {
      DialShape(b, p, s, Recv(from, m), env);
    } else if Forwards(s, from, m.gameId, m.connectionId, m.hops, env) {
      ForwardShape(b, p, s, from, m, env);
    }
  }

  lemma AccountShape(b: Book, p: PeerId, s: State, e: Event, env: Env)
    requires env.newHandle !in b.threads && env.failing == {}
    ensures Accounted(b, Account(b, p, s, e, env), p, s, e, env)
  {
    hide Forwards, Moved, Registered, Accounted, SameThreads;
    var b' := Account(b, p, s, e, env);
    if e.Recv? && e.message.RelayConnect? {
      ConnectShape(b, p, s, e.peer, e.message, env);
    } else if e.AcceptGameConnection? {
      AcceptShape(b, p, s, e, env);
    } else {
      if e.AddGameConnection? {
        RegisteredKeeps(b, s, At(b.owner, p, e.peer, e.conn), e.tx);
      } else if e.Recv? && e.message.RelayData? {
        var m := e.message;
        MovedKeeps(b, s, At(b.owner, e.peer, p, ConnectionId(m.connectionId, m.connectionLocal)), m.data, env);
      } else {
        NoThreadMoved(b, b');
      }
      QuietShape(b, b', p, s, e, env);
    }
  }

  /** An event that neither calls nor dials leaves the threads where they are. */
  lemma QuietShape(b: Book, b': Book, p: PeerId, s: State, e: Event, env: Env)
    requires SameThreads(b, b') && !e.AcceptGameConnection? && !(e.Recv? && e.message.RelayConnect?)
    ensures Accounted(b, b', p, s, e, env)
  {}

  lemma AcceptSpawns(s: State, e: Event, env: Env)
    requires env.failing == {} && e.AcceptGameConnection?
    ensures var to := Calls(s, e, env);
            Handle(s, e, env).spawn == if to.Some? then Serve(to.value, s.peers[to.value].next) else NoThread
  {}

  lemma AcceptShape(b: Book, p: PeerId, s: State, e: Event, env: Env)
    requires env.newHandle !in b.threads && env.failing == {} && e.AcceptGameConnection?
    ensures Accounted(b, Account(b, p, s, e, env), p, s, e, env)
  {
    hide Handle, Calls;
    AcceptSpawns(s, e, env);
  }

  // ---------------------------------------------------------------- every step has a shadow

  /** Counters after an event of relay `p`. */
  lemma NextIdsMove(relays: Relays, p: PeerId, t: State, to: Option<PeerId>)
    requires p in relays && CountersMove(relays[p], t, to)
    requires to.Some? ==> to.value in relays[p].peers
    ensures forall x, y :: NextId(relays[p := t], x, y) >= NextId(relays, x, y)
    ensures to.Some? ==> NextId(relays[p := t], p, to.value) == relays[p].peers[to.value].next.id + 1
  {
    forall x, y ensures NextId(relays[p := t], x, y) >= NextId(relays, x, y) {}
  }

  /** Relay `p` has handled the event: its new tables are `t`, and the bookkeeping is done. */
  ghost predicate Processed(b: Book, b': Book, p: PeerId, t: State, e: Event, env: Env) {
    && p in b.relays && env.newHandle !in b.threads && b'.relays == b.relays[p := t]
    && CountersMove(b.relays[p], t, Calls(b.relays[p], e, env)) && Accounted(b, b', p, b.relays[p], e, env)
    && (e.Recv? && e.message.RelayConnect? ==> OriginOk(b, Arriving(p, e)))
  }

  /** A call opens a segment that no client has. */
  lemma NewSegment(b: Book, p: PeerId, q: PeerId)
    requires Origins(b) && p in b.relays && q in b.relays[p].peers
    ensures Seg(p, q, b.relays[p].peers[q].next, p) !in b.origin
  {
    var k := Seg(p, q, b.relays[p].peers[q].next, p);
    assert k in b.origin ==> OriginOk(b, k);
  }

  lemma OriginsStay(b: Book, b': Book, p: PeerId, t: State, e: Event, env: Env)
    requires Origins(b) && Processed(b, b', p, t, e, env)
    ensures forall k :: k in b.origin ==> k in b'.origin && b'.origin[k] == b.origin[k]
  {
    hide Calls, CountersMove, Origins;
    var to := Calls(b.relays[p], e, env);
    if to.Some? { NewSegment(b, p, to.value); }
  }

  lemma EventCarries(b: Book, b': Book, p: PeerId, t: State, e: Event, env: Env)
    requires Origins(b) && Processed(b, b', p, t, e, env)
    ensures Carries(b, b')
  {
    hide Calls, CountersMove, Origins, NextId, OriginOk;
    NextIdsMove(b.relays, p, t, Calls(b.relays[p], e, env));
    OriginsStay(b, b', p, t, e, env);
  }

  /**
   The segment that a call opens is opened on behalf of the client accepted, or of the client whose Connect it
   forwards.
   */
  lemma NewOrigin(b: Book, b': Book, p: PeerId, t: State, e: Event, env: Env)
    requires Origins(b) && Processed(b, b', p, t, e, env) && Calls(b.relays[p], e, env).Some?
    ensures var to := Calls(b.relays[p], e, env).value;
            var k := Seg(p, to, b.relays[p].peers[to].next, p);
            && OriginOk(b', k)
            && (e.AcceptGameConnection? ==> CauseOf(b', k) == Routes.Client(p, e.gameId))
            && (!e.AcceptGameConnection? ==>
                  e.Recv? && e.message.RelayConnect? && CauseOf(b', k) == CauseOf(b, Arriving(p, e)))
            && (forall x :: x in b'.origin ==> x in b.origin || x == k)
  {
    hide Calls, CountersMove;
    var to := Calls(b.relays[p], e, env).value;
    var k := Seg(p, to, b.relays[p].peers[to].next, p);
    NextIdsMove(b.relays, p, t, Some(to));
    assert k in b'.origin && k.conn.id < NextId(b'.relays, p, to) && !k.conn.local;
    if !e.AcceptGameConnection? { assert b'.origin[k] == b.origin[Arriving(p, e)]; }
  }

  lemma NewThreads(b: Book, b': Book, p: PeerId, t: State, e: Event, env: Env)
    requires Processed(b, b', p, t, e, env)
    ensures forall x :: x in b'.threads && x !in b.threads ==> x == env.newHandle && b'.threads[x].relay == p
    ensures forall x :: x in b'.threads && x !in b.threads && b'.threads[x].host ==>
              DialsFor(b.relays[p], e)
              && b'.threads[x] == NewHost(Arriving(p, e), e.message.gameId, b.relays[p].games[e.message.gameId].addr)
  {
    hide Calls;
  }

  lemma NewCounters(b: Book, b': Book, p: PeerId, t: State, e: Event, env: Env)
    requires Origins(b) && Processed(b, b', p, t, e, env)
    ensures forall x, q :: x in b'.relays && q in b'.relays[x].peers ==> !b'.relays[x].peers[q].next.local
  {
    hide Calls, Accounted;
  }

  lemma OriginsKept(b: Book, b': Book, p: PeerId, t: State, e: Event, env: Env)
    requires Origins(b) && Processed(b, b', p, t, e, env) && Carries(b, b')
    ensures Origins(b')
  {
    hide Calls, OriginOk, Processed;
    NewCounters(b, b', p, t, e, env);
    NewThreads(b, b', p, t, e, env);
    forall k | k in b'.origin ensures OriginOk(b', k) { OriginKept(b, b', p, t, e, env, k); }
    forall x | x in b'.threads ensures b'.threads[x].relay in b'.relays { PlaceKept(b, b', p, t, e, env, x); }
  }

  lemma OriginKept(b: Book, b': Book, p: PeerId, t: State, e: Event, env: Env, k: Seg)
    requires Origins(b) && Processed(b, b', p, t, e, env) && Carries(b, b') && k in b'.origin
    ensures OriginOk(b', k)
  {
    hide Calls, OriginOk;
    if k in b.origin { OriginCarries(b, b', k); } else { NewOrigin(b, b', p, t, e, env); }
  }

  lemma PlaceKept(b: Book, b': Book, p: PeerId, t: State, e: Event, env: Env, x: Tx)
    requires Origins(b) && Processed(b, b', p, t, e, env) && Carries(b, b') && x in b'.threads
    ensures b'.threads[x].relay in b'.relays
  {
    hide Calls;
    NewThreads(b, b', p, t, e, env);
    if x in b.threads { assert SamePlace(b.threads[x], b'.threads[x]); }
  }
}
