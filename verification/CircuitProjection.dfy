/** The projection of circuit runs to runs of the advertisement network, and what follows for circuits. */
module CircuitProjection {
  import opened RelayTypes
  import opened RelayModel
  import opened Tables
  import opened Circuits
  import opened CircuitRoutes
  import Routes

  // ---------------------------------------------------------------- the event loops

  /** The reason for an event, as the shadow knows it. */
  lemma CauseFor(n: Net, m: Routes.Net, p: PeerId, env: Env) returns (c: Routes.Cause)
    requires Shadows(n, m) && Log(n.inbox, p) != [] && p in n.book.relays
    ensures var e := n.inbox[p][0];
            && Routes.Enabled(m, Routes.Loop(p, e, env, c))
            && (e.AcceptGameConnection? ==> c == Routes.Client(p, e.gameId))
            && (e.Recv? && e.message.RelayConnect? ==>
                  OriginOk(n.book, Arriving(p, e)) && c == CauseOf(n.book, Arriving(p, e)))
  {
    hide Origins, LinksShadowed;
    var e := n.inbox[p][0];
    assert EventShadowed(n.book, m, p, Log(n.inbox, p)[0]);
    match e {
      case AcceptGameConnection(g) => c := Routes.Client(p, g);
      case AddLocalGame(from, port, motd) => c := Routes.Advert(Routes.Site(p, SocketAddr(from.ip, port)), motd);
      case Recv(from, msg) =>
        if msg.RelayConnect? {
          c := CauseOf(n.book, Arriving(p, e));
        } else {
          c :| Routes.Packet(from, p, msg, c) in m.sent;
        }
      case _ => c := Routes.NoCause;
    }
  }

  lemma ProcessedBy(n: Net, l: Label)
    requires Enabled(n, l) && l.Process?
    requires var e := n.inbox[l.relay][0]; e.Recv? && e.message.RelayConnect? ==> OriginOk(n.book, Arriving(l.relay, e))
    ensures var e := n.inbox[l.relay][0];
            Processed(n.book, Next(n, l).book, l.relay, Handle(n.book.relays[l.relay], e, l.env).state, e, l.env)
  {
    hide Handle, Account, Accounted, CountersMove, Calls, OriginOk;
    var b, p, e, env := n.book, l.relay, n.inbox[l.relay][0], l.env;
    var s := b.relays[p];
    var b1 := Updated(b, p, Handle(s, e, env).state);
    EventCounters(s, e, env);
    AccountShape(b1, p, s, e, env);
    SameShape(b, b1, Account(b1, p, s, e, env), p, s, e, env);
  }

  lemma SameShape(b: Book, b1: Book, b': Book, p: PeerId, s: State, e: Event, env: Env)
    requires Accounted(b1, b', p, s, e, env) && b1.threads == b.threads && b1.origin == b.origin
    ensures Accounted(b, b', p, s, e, env)
  {}

  /** What an event sends is sent in the shadow, a Connect on behalf of the right client. */
  lemma SendShadowed(b: Book, b': Book, m': Routes.Net, p: PeerId, e: Event, env: Env, c: Routes.Cause, q: PeerId)
    requires p in b.relays && env.failing == {} && !e.RemovePeer? && (e.AddPeer? ==> e.peer !in b.relays[p].peers)
    requires Origins(b) && Processed(b, b', p, Handle(b.relays[p], e, env).state, e, env)
    requires e.AcceptGameConnection? ==> c == Routes.Client(p, e.gameId)
    requires e.Recv? && e.message.RelayConnect? ==> OriginOk(b, Arriving(p, e)) && c == CauseOf(b, Arriving(p, e))
    requires var sends := Handle(b.relays[p], e, env).sends; q in sends && Routes.Packet(p, q, sends[q], c) in m'.sent
    ensures Shadowed(b', m', p, q, Handle(b.relays[p], e, env).sends[q])
  {
    hide Handle, Processed, Calls, OriginOk;
    var msg := Handle(b.relays[p], e, env).sends[q];
    if msg.RelayConnect? {
      EventConnects(b.relays[p], e, env, q);
      NewOrigin(b, b', p, Handle(b.relays[p], e, env).state, e, env);
      assert ConnectionId(msg.connectionId, false) == b.relays[p].peers[q].next;
    }
  }

  lemma HostsShadowed(b: Book, b': Book, m: Routes.Net, m': Routes.Net, p: PeerId, e: Event, env: Env, x: Tx)
    requires p in b.relays && Processed(b, b', p, Handle(b.relays[p], e, env).state, e, env)
    requires Carries(b, b') && Grew(m, m')
    requires forall t :: t in b.threads ==> HostShadowed(b, m, b.threads[t])
    requires e.Recv? && e.message.RelayConnect? ==> OriginOk(b, Arriving(p, e))
    requires DialsFor(b.relays[p], e) ==>
               Routes.Connection(p, b.relays[p].games[e.message.gameId].addr, CauseOf(b, Arriving(p, e))) in m'.dials
    requires x in b'.threads
    ensures HostShadowed(b', m', b'.threads[x])
  {
    hide Handle, Processed, OriginOk, CauseOf, Calls;
    if x in b.threads {
      HostCarries(b, b', m, m', b.threads[x], b'.threads[x]);
    } else {
      NewThreads(b, b', p, Handle(b.relays[p], e, env).state, e, env);
      if b'.threads[x].host {
        OriginCarries(b, b', Arriving(p, e));
        assert b'.threads[x].In() == Arriving(p, e);
      }
    }
  }

  /** The step of the shadow for one event. */
  lemma LoopNext(m: Routes.Net, p: PeerId, e: Event, env: Env, c: Routes.Cause)
    requires Routes.Enabled(m, Routes.Loop(p, e, env, c))
    ensures var m', o := Routes.Next(m, Routes.Loop(p, e, env, c)), Handle(m.relays[p], e, env);
            && m'.relays == m.relays[p := o.state] && Grew(m, m')
            && (forall q :: q in o.sends ==> Routes.Packet(p, q, o.sends[q], c) in m'.sent)
            && (o.spawn.Dial? ==> Routes.Connection(p, o.spawn.addr, c) in m'.dials)
  {
    hide Handle;
    var o := Handle(m.relays[p], e, env);
    forall q | q in o.sends ensures Routes.Packet(p, q, o.sends[q], c) in Routes.Packets(p, o.sends, c) {}
  }

  lemma ProcessShadow(n: Net, l: Label, m: Routes.Net) returns (r: Routes.Label)
    requires Shadows(n, m) && Enabled(n, l) && l.Process?
    ensures r.Loop? && r.env.failing == {} && !r.event.RemovePeer?
    ensures Routes.Enabled(m, r) && Shadows(Next(n, l), Routes.Next(m, r))
  {
    hide Handle, Account, Processed, Calls, OriginOk, CauseOf, Origins, LinksShadowed, MailShadowed, HostShadowed,
         Shadowed, PushAll;
    var b, p, e, env, n' := n.book, l.relay, n.inbox[l.relay][0], l.env, Next(n, l);
    var b' := n'.book;
    var o := Handle(b.relays[p], e, env);
    var c := CauseFor(n, m, p, env);
    r := Routes.Loop(p, e, env, c);
    var m' := Routes.Next(m, r);
    LoopNext(m, p, e, env, c);
    ProcessedBy(n, l);
    EventCarries(b, b', p, o.state, e, env);
    OriginsKept(b, b', p, o.state, e, env);
    ProcessLinks(n, n', m, m', p, e, env, c);
    MailPopped(b, n.inbox, m, p);
    MailCarries(b, b', n'.inbox, m, m');
    forall x | x in b'.threads ensures HostShadowed(b', m', b'.threads[x]) {
      if DialsFor(b.relays[p], e) { EventDials(b.relays[p], e, env); }
      HostsShadowed(b, b', m, m', p, e, env, x);
    }
  }

  lemma ProcessLinks(n: Net, n': Net, m: Routes.Net, m': Routes.Net, p: PeerId, e: Event, env: Env, c: Routes.Cause)
    requires p in n.book.relays && env.failing == {} && !e.RemovePeer?
    requires (e.AddPeer? ==> e.peer !in n.book.relays[p].peers)
    requires Origins(n.book) && Processed(n.book, n'.book, p, Handle(n.book.relays[p], e, env).state, e, env)
    requires e.AcceptGameConnection? ==> c == Routes.Client(p, e.gameId)
    requires e.Recv? && e.message.RelayConnect? ==>
               OriginOk(n.book, Arriving(p, e)) && c == CauseOf(n.book, Arriving(p, e))
    requires LinksShadowed(n.book, n.links, m) && Carries(n.book, n'.book) && Grew(m, m')
    requires var sends := Handle(n.book.relays[p], e, env).sends;
             (forall q :: q in sends ==> Routes.Packet(p, q, sends[q], c) in m'.sent)
             && n'.links == PushAll(n.links, p, sends)
    ensures LinksShadowed(n'.book, n'.links, m')
  {
    hide Handle, Processed, Calls, OriginOk, CauseOf, Origins, LinksShadowed, Shadowed, PushAll, Carries;
    var sends := Handle(n.book.relays[p], e, env).sends;
    LinksCarry(n.book, n'.book, n.links, m, m');
    forall q | q in sends ensures Shadowed(n'.book, m', p, q, sends[q]) {
      SendShadowed(n.book, n'.book, m', p, e, env, c, q);
    }
    LinksPushed(n'.book, n.links, m', p, sends);
  }

  // ---------------------------------------------------------------- the other steps

  lemma ArriveShadow(n: Net, l: Label, m: Routes.Net)
    requires Shadows(n, m) && Enabled(n, l) && l.Arrive?
    ensures Shadows(Next(n, l), m)
  {
    hide Origins, LinksShadowed, MailShadowed, HostShadowed;
    MailAppended(n.book, n.inbox, m, l.relay, l.event);
  }

  lemma TransferShadow(n: Net, l: Label, m: Routes.Net)
    requires Shadows(n, m) && Enabled(n, l) && l.Transfer?
    ensures Shadows(Next(n, l), m)
  {
    hide Origins, MailShadowed, HostShadowed, Shadowed;
    var k := l.link;
    assert Shadowed(n.book, m, k.from, k.to, Log(n.links, k)[0]);
    MailAppended(n.book, n.inbox, m, k.to, Recv(k.from, n.links[k][0]));
    LinkPopped(n.book, n.links, m, k);
  }

  lemma LinkPopped(b: Book, links: Links, m: Routes.Net, k: Link)
    requires LinksShadowed(b, links, m) && Log(links, k) != []
    ensures LinksShadowed(b, links[k := links[k][1..]], m)
  {
    hide Shadowed;
    var links' := links[k := links[k][1..]];
    forall x, i | 0 <= i < |Log(links', x)| ensures Shadowed(b, m, x.from, x.to, Log(links', x)[i]) {
      assert Shadowed(b, m, x.from, x.to, Log(links, x)[if x == k then i + 1 else i]);
    }
  }

  /** A thread moves on at its place, and no message is on its way because of it. */
  lemma ThreadShadow(n: Net, b': Book, m: Routes.Net, m': Routes.Net, t: Tx, th: Thread)
    requires Shadows(n, m) && t in n.book.threads && SamePlace(n.book.threads[t], th)
    requires Grew(m, m') && m'.relays == m.relays
    requires b'.threads == n.book.threads[t := th] && b'.origin == n.book.origin && b'.relays == n.book.relays
    ensures Shadows(n.(book := b'), m')
  {
    hide LinksShadowed, MailShadowed, HostShadowed;
    var b := n.book;
    assert Carries(b, b');
    forall k | k in b'.origin ensures OriginOk(b', k) {
      assert OriginOk(b, k);
      OriginCarries(b, b', k);
    }
    LinksCarry(b, b', n.links, m, m');
    MailCarries(b, b', n.inbox, m, m');
    forall x | x in b'.threads ensures HostShadowed(b', m', b'.threads[x]) {
      HostCarries(b, b', m, m', b.threads[x], b'.threads[x]);
    }
  }

  lemma QuietThreadShadow(n: Net, l: Label, m: Routes.Net)
    requires Shadows(n, m) && Enabled(n, l) && (l.Connected? || l.Take?)
    ensures Shadows(Next(n, l), m)
  {
    hide Origins, LinksShadowed, MailShadowed, HostShadowed;
    var n' := Next(n, l);
    ThreadShadow(n, n'.book, m, m, l.tx, n'.book.threads[l.tx]);
    if l.Connected? {
      var th := n.book.threads[l.tx];
      MailAppended(n'.book, n.inbox, m, th.relay, AddGameConnection(th.peer, th.conn, th.game, l.tx));
    }
  }

  lemma SendingThreadShadow(n: Net, l: Label, m: Routes.Net) returns (r: Routes.Label)
    requires Shadows(n, m) && Enabled(n, l) && (l.Read? || l.Finish? || l.Break?)
    ensures r.Thread? && Routes.Enabled(m, r) && Shadows(Next(n, l), Routes.Next(m, r))
  {
    var th := n.book.threads[l.tx];
    var msg := if l.Read? then RelayData(th.conn.id, th.conn.local, l.data) else RelayClose(th.conn.id, th.conn.local);
    assert th.relay in m.relays;
    r := SentShadow(n, Next(n, l), m, l.tx, msg);
  }

  /** A thread has put a message on its link. */
  lemma SentShadow(n: Net, n': Net, m: Routes.Net, t: Tx, msg: RelayMessage) returns (r: Routes.Label)
    requires Shadows(n, m) && t in n.book.threads && t in n'.book.threads && (msg.RelayData? || msg.RelayClose?)
    requires Routes.Enabled(m, Routes.Thread(n.book.threads[t].relay, n.book.threads[t].peer, msg))
    requires SamePlace(n.book.threads[t], n'.book.threads[t])
    requires n'.book.threads == n.book.threads[t := n'.book.threads[t]]
    requires n'.book.origin == n.book.origin && n'.book.relays == n.book.relays && n'.inbox == n.inbox
    requires n'.links == Append(n.links, Link(n.book.threads[t].relay, n.book.threads[t].peer), msg)
    ensures r.Thread? && Routes.Enabled(m, r) && Shadows(n', Routes.Next(m, r))
  {
    var th := n.book.threads[t];
    r := Routes.Thread(th.relay, th.peer, msg);
    hide Origins, LinksShadowed, MailShadowed, HostShadowed;
    var m' := Routes.Next(m, r);
    ThreadShadow(n, n'.book, m, m', t, n'.book.threads[t]);
    assert Routes.Packet(th.relay, th.peer, msg, Routes.NoCause) in m'.sent;
    LinkAppended(n'.book, n.links, m', Link(th.relay, th.peer), msg);
  }

  // ---------------------------------------------------------------- games stay

  /** Without peer loss no game is ever forgotten. */
  lemma GamesStay(s: State, e: Event, env: Env)
    requires env.failing == {} && !e.RemovePeer?
    ensures s.games.Keys <= Handle(s, e, env).state.games.Keys
  {
    match e {
      case AddLocalGame(from, port, _) =>
        var s1 := InternLocal(s, SocketAddr(from.ip, port)).0;
        assert s1.peers.Keys * s1.peers.Keys * {} == {};
        RemoveNone(s1);
      case Recv(from, m) => if m.RelayGame? { GameStays(s, from, m, env); } else { MessageStays(s, from, m, env); }
      case _ =>
    }
  }

  lemma GameStays(s: State, from: PeerId, m: RelayMessage, env: Env)
    requires env.failing == {} && m.RelayGame?
    ensures s.games.Keys <= HandleMessage(s, from, m, env).state.games.Keys
  {
    var (s1, _) := AddGame(s, from, m.id, env);
    assert (s1.peers.Keys - {from}) * s1.peers.Keys * {} == {};
    RemoveNone(s1);
  }

  lemma MessageStays(s: State, from: PeerId, m: RelayMessage, env: Env)
    requires env.failing == {} && !m.RelayGame?
    ensures s.games.Keys <= HandleMessage(s, from, m, env).state.games.Keys
  {}

  /** Every entry of the history is still in the tables. */
  ghost predicate Kept(m: Routes.Net) {
    forall k :: k in m.hist ==> KeptAt(m, k)
  }

  ghost predicate KeptAt(m: Routes.Net, k: Routes.Key)
    requires k in m.hist
  {
    && k.relay in m.relays && k.game in m.relays[k.relay].games
    && OriginOf(m.relays[k.relay].games[k.game]) == m.hist[k].origin
  }

  lemma LoopKept(m: Routes.Net, p: PeerId, e: Event, env: Env, c: Routes.Cause)
    requires Kept(m) && Routes.Tabled(m) && Routes.Enabled(m, Routes.Loop(p, e, env, c))
    requires env.failing == {} && !e.RemovePeer?
    ensures Kept(Routes.Next(m, Routes.Loop(p, e, env, c)))
  {
    hide Handle, Indexed;
    var s := m.relays[p];
    var m' := Routes.Next(m, Routes.Loop(p, e, env, c));
    GamesStay(s, e, env);
    IndexedStep(s, e, env);
    forall k | k in m'.hist ensures KeptAt(m', k) {
      if k in m.hist { assert KeptAt(m, k); } else { assert k in Routes.Keys(p, Handle(s, e, env).state.games); }
    }
  }

  lemma ThreadKept(m: Routes.Net, r: Routes.Label)
    requires Kept(m) && Routes.Enabled(m, r) && r.Thread?
    ensures Kept(Routes.Next(m, r))
  {
    forall k | k in m.hist ensures KeptAt(Routes.Next(m, r), k) { assert KeptAt(m, k); }
  }

  // ---------------------------------------------------------------- whole runs

  /** A run of the advertisement network that leads to a shadow of `n`, whose entries are all still in the tables. */
  ghost predicate ShadowRun(n: Net, m0: Routes.Net, rs: seq<Routes.Label>) {
    Routes.Start(m0) && Routes.Valid(m0, rs) && Shadows(n, Routes.Exec(m0, rs)) && Kept(Routes.Exec(m0, rs))
  }

  ghost predicate Projects(n: Net) {
    exists m0, rs :: ShadowRun(n, m0, rs)
  }

  lemma ProjectsStart(n: Net)
    requires Start(n)
    ensures Projects(n)
  {
    var m0 := Routes.Net(n.book.relays, {}, map[], {});
    assert Routes.Valid(m0, []) && Routes.Exec(m0, []) == m0;
    forall p | p in n.book.relays ensures n.book.relays[p].peers == map[] {
      assert n.book.relays[p] == Init(n.book.relays[p].discoveryPort);
    }
    assert Shadows(n, m0);
    assert ShadowRun(n, m0, []);
  }

  lemma RunInv(m0: Routes.Net, rs: seq<Routes.Label>)
    requires Routes.Start(m0) && Routes.Valid(m0, rs)
    ensures Routes.Tabled(Routes.Exec(m0, rs))
  {
    Routes.InvStart(m0);
    Routes.InvRun(m0, rs);
  }

  lemma ProcessProjects(n: Net, l: Label, m0: Routes.Net, rs: seq<Routes.Label>)
    requires ShadowRun(n, m0, rs) && Enabled(n, l) && l.Process?
    ensures Projects(Next(n, l))
  {
    hide Shadows, Next, Kept, Routes.Next, Routes.Tabled, Routes.Enabled;
    var m := Routes.Exec(m0, rs);
    var r := ProcessShadow(n, l, m);
    RunInv(m0, rs);
    LoopKept(m, r.relay, r.event, r.env, r.cause);
    Routes.ExecAppend(m0, rs, r);
    assert ShadowRun(Next(n, l), m0, rs + [r]);
  }

  lemma SendingProjects(n: Net, l: Label, m0: Routes.Net, rs: seq<Routes.Label>)
    requires ShadowRun(n, m0, rs) && Enabled(n, l) && (l.Read? || l.Finish? || l.Break?)
    ensures Projects(Next(n, l))
  {
    hide Shadows, Next, Kept, Routes.Next, Routes.Enabled;
    var m := Routes.Exec(m0, rs);
    var r := SendingThreadShadow(n, l, m);
    ThreadKept(m, r);
    Routes.ExecAppend(m0, rs, r);
    assert ShadowRun(Next(n, l), m0, rs + [r]);
  }

  lemma ProjectsStep(n: Net, l: Label)
    requires Projects(n) && Enabled(n, l)
    ensures Projects(Next(n, l))
  {
    hide Shadows, Next, Enabled, Kept;
    var m0, rs :| ShadowRun(n, m0, rs);
    var m := Routes.Exec(m0, rs);
    if l.Process? {
      ProcessProjects(n, l, m0, rs);
    } else if l.Read? || l.Finish? || l.Break? {
      SendingProjects(n, l, m0, rs);
    } else {
      if l.Arrive? {
        ArriveShadow(n, l, m);
      } else if l.Transfer? {
        TransferShadow(n, l, m);
      } else {
        QuietThreadShadow(n, l, m);
      }
      assert ShadowRun(Next(n, l), m0, rs);
    }
  }

  /** Every circuit run, with or without collisions, is a run of the advertisement network. */
  lemma {:induction false} CircuitsProject(n: Net, ls: seq<Label>)
    requires Projects(n) && Valid(n, ls)
    ensures Projects(Exec(n, ls))
    decreases |ls|
  {
    hide Projects, Next, Enabled;
    if ls != [] {
      ProjectsStep(n, ls[0]);
      CircuitsProject(Next(n, ls[0]), ls[1..]);
    }
  }

  /** Following exactly `d` Remote entries in the tables of the relays, from game `g` of relay `p`, ends at `site`. */
  ghost predicate Reaches(relays: Relays, p: PeerId, g: GameId, d: nat, site: Routes.Site)
    decreases d
  {
    p in relays && g in relays[p].games &&
    match relays[p].games[g]
    case Local(addr) => d == 0 && site == Routes.Site(p, addr)
    case Remote(q, r, _) => d > 0 && Reaches(relays, q, r, d - 1, site)
  }

  lemma {:induction false} LeadsReaches(m: Routes.Net, p: PeerId, g: GameId, d: nat, site: Routes.Site)
    requires Kept(m) && Routes.Leads(m.hist, p, g, d, site)
    ensures Reaches(m.relays, p, g, d, site)
    decreases d
  {
    assert KeptAt(m, Routes.Key(p, g));
    var o := m.hist[Routes.Key(p, g)].origin;
    if o.Via? { LeadsReaches(m, o.peer, o.id, d - 1, site); }
  }

  /**
   End-to-end routes: in every circuit run, with or without collisions, a host thread serves some client, and the
   tables lead from the game that the client was accepted for, over at most three Remote entries, to the very
   address that the thread dials at its relay.
   */
  lemma DialledRight(n: Net, ls: seq<Label>, t: Tx)
    requires Start(n) && Valid(n, ls) && t in Exec(n, ls).book.threads && Exec(n, ls).book.threads[t].host
    ensures var b := Exec(n, ls).book;
            && Serves(b, t) && b.threads[t].target.Some?
            && var u, site := b.threads[ClientOf(b, t)], Routes.Site(b.threads[t].relay, b.threads[t].target.value);
               exists d :: 0 <= d <= 3 && Reaches(b.relays, u.relay, u.game, d, site)
  {
    hide Start, Projects, Shadows, ShadowRun, Reaches, Serves;
    ProjectsStart(n);
    CircuitsProject(n, ls);
    DialledBy(Exec(n, ls), t);
  }

  lemma DialledBy(n: Net, t: Tx)
    requires Projects(n) && t in n.book.threads && n.book.threads[t].host
    ensures var b := n.book;
            && Serves(b, t) && b.threads[t].target.Some?
            && var u, site := b.threads[ClientOf(b, t)], Routes.Site(b.threads[t].relay, b.threads[t].target.value);
               exists d :: 0 <= d <= 3 && Reaches(b.relays, u.relay, u.game, d, site)
  {
    hide Reaches, Kept, Origins, LinksShadowed, MailShadowed, Routes.Start, Routes.Leads;
    var m0, rs :| ShadowRun(n, m0, rs);
    var m, th := Routes.Exec(m0, rs), n.book.threads[t];
    assert HostShadowed(n.book, m, th);
    var c := Routes.Connection(th.relay, th.target.value, CauseOf(n.book, th.In()));
    Routes.RouteCorrectness(m0, rs, c);
    var d :| 0 <= d <= 3 && Routes.Leads(m.hist, c.cause.relay, c.cause.game, d, Routes.Site(c.relay, c.addr));
    LeadsReaches(m, c.cause.relay, c.cause.game, d, Routes.Site(c.relay, c.addr));
    var u := n.book.threads[ClientOf(n.book, t)];
    assert m.relays == n.book.relays && c.cause == Routes.Client(u.relay, u.game);
    assert Reaches(n.book.relays, u.relay, u.game, d, Routes.Site(th.relay, th.target.value));
  }

  /** In every circuit run, the hop check rejects no Connect for a remote game. */
  lemma OrderedHopCheck(n: Net, ls: seq<Label>, p: PeerId)
    requires Start(n) && Valid(n, ls) && p in Exec(n, ls).book.relays && Log(Exec(n, ls).inbox, p) != []
    requires var e := Exec(n, ls).inbox[p][0];
             e.Recv? && e.message.RelayConnect? && e.message.gameId in Exec(n, ls).book.relays[p].games
             && Exec(n, ls).book.relays[p].games[e.message.gameId].Remote?
    ensures Exec(n, ls).inbox[p][0].message.hops < MAX_FORWARDING_HOPS
  {
    ProjectsStart(n);
    CircuitsProject(n, ls);
    var n' := Exec(n, ls);
    var m0, rs :| ShadowRun(n', m0, rs);
    var e := n'.inbox[p][0];
    assert EventShadowed(n'.book, Routes.Exec(m0, rs), p, Log(n'.inbox, p)[0]);
    Routes.HopCheckNeverRejects(m0, rs, Routes.Packet(e.peer, p, e.message, CauseOf(n'.book, Arriving(p, e))));
  }
}
