/** Networks in which at most one end of each link opens connections. */
module CircuitCallers {
  import opened Basics
  import opened RelayTypes
  import opened RelayModel
  import opened Pairing
  import opened Circuits
  import opened CircuitInvariant
  import opened CircuitLoop
  import opened CircuitSteps
  import opened CircuitTheorems

  // The ordered pairs of relays of which the first may open connections to the second.
  type Callers = set<(PeerId, PeerId)>

  /** No two relays may open connections to each other, and no relay to itself. */
  ghost predicate OneWay(d: Callers) {
    forall p, q :: (p, q) in d ==> (q, p) !in d
  }

  ghost predicate Permits(d: Callers, n: Net, l: Label)
    requires Enabled(n, l)
  {
    var to := Allocates(n, l);
    to.Some? ==> (l.relay, to.value) in d
  }

  ghost predicate Respects(d: Callers, n: Net, ls: seq<Label>)
    requires Valid(n, ls)
    decreases |ls|
  {
    ls == [] || (Permits(d, n, ls[0]) && Respects(d, Next(n, ls[0]), ls[1..]))
  }

  // ---------------------------------------------------------------- ids that were never allocated leave no trace

  /** Neither end of the link has allocated the id. */
  ghost predicate Virgin(relays: Relays, p: PeerId, q: PeerId, c: ConnectionId) {
    p != q && c.id >= NextId(relays, p, q) && c.id >= NextId(relays, q, p)
  }

  lemma Unused(b: Book, p: PeerId, q: PeerId, c: ConnectionId, s: Seg)
    requires Ids(b.relays, b.feeder, b.origin) && Virgin(b.relays, p, q, c)
    requires WireOf(s.from, s.to, s.conn) == WireOf(p, q, c)
    ensures s !in b.feeder
  {
    assert s in b.feeder ==> Allocated(b.relays, s);
  }

  lemma UnusedThread(b: Book, p: PeerId, q: PeerId, c: ConnectionId, t: Tx)
    requires Ids(b.relays, b.feeder, b.origin) && Ends(b.threads, b.feeder, b.origin, b.tip)
    requires Virgin(b.relays, p, q, c) && t in b.threads
    ensures WireOf(b.threads[t].relay, b.threads[t].peer, b.threads[t].conn) != WireOf(p, q, c)
  {
    assert EndOk(b.feeder, b.origin, b.tip, t, b.threads[t]);
    var s := b.threads[t].Out();
    if WireOf(s.from, s.to, s.conn) == WireOf(p, q, c) { Unused(b, p, q, c, s); }
  }

  /** An entry's answers go out on a segment in use. */
  lemma EntryUsed(b: Book, p: PeerId, q: PeerId, c: ConnectionId)
    requires Ends(b.threads, b.feeder, b.origin, b.tip)
    requires (HasLocal(b.relays, p, q, c) || HasRelayed(b.relays, p, q, c))
    requires RelayedEntries(b.relays, b.owner, b.feeder, b.fed, b.popped)
    requires LocalEntries(b.relays, b.owner, b.threads, b.popped)
    ensures At(b.owner, p, q, c) in b.feeder
  {
    assert Rev(At(b.owner, q, p, c)) == At(b.owner, p, q, c);
    if HasLocal(b.relays, p, q, c) {
      var t := b.relays[p].peers[q].locals[c];
      assert LocalOk(b.threads, b.popped, At(b.owner, q, p, c), t);
      assert EndOk(b.feeder, b.origin, b.tip, t, b.threads[t]);
      assert Rev(b.threads[t].In()) == b.threads[t].Out();
    } else {
      assert RelayedOk(b.owner, b.feeder, b.fed, b.popped, At(b.owner, q, p, c), b.relays[p].peers[q].relayed[c]);
    }
  }

  lemma NoEntries(b: Book, p: PeerId, q: PeerId, c: ConnectionId)
    requires Ids(b.relays, b.feeder, b.origin)
    requires Ends(b.threads, b.feeder, b.origin, b.tip) && Virgin(b.relays, p, q, c)
    requires RelayedEntries(b.relays, b.owner, b.feeder, b.fed, b.popped)
    requires LocalEntries(b.relays, b.owner, b.threads, b.popped)
    ensures !HasLocal(b.relays, p, q, c) && !HasRelayed(b.relays, p, q, c)
  {
    hide RelayedEntries, LocalEntries, Ends, Ids;
    Unused(b, p, q, c, At(b.owner, p, q, c));
    if HasLocal(b.relays, p, q, c) || HasRelayed(b.relays, p, q, c) { EntryUsed(b, p, q, c); }
  }

  lemma NoTraffic(n: Net, p: PeerId, q: PeerId, c: ConnectionId)
    requires Ids(n.book.relays, n.book.feeder, n.book.origin) && Feeds(n.book.feeder, n.book.fed, n.book.popped)
    requires Flow(n) && Connects(n) && Virgin(n.book.relays, p, q, c)
    ensures Pending(n.inbox, n.links, Seg(q, p, c, q)) == [] && c !in OpenIds(n, q, p)
  {
    var s := At(n.book.owner, q, p, c);
    Unused(n.book, p, q, c, s);
    assert Log(n.book.fed, s) == Log(n.book.popped, s) + OnTheWay(n.book.owner, n.inbox, n.links, s);
    assert Pending(n.inbox, n.links, s) == Pending(n.inbox, n.links, Seg(q, p, c, q));
    forall id | id in Opens(n.inbox, n.links, Link(q, p)) ensures ConnectionId(id, false) != c {
      assert OpenOk(n.book, Link(q, p), id);
    }
  }

  lemma NoPosts(n: Net, p: PeerId, q: PeerId, c: ConnectionId)
    requires Ids(n.book.relays, n.book.feeder, n.book.origin)
    requires Ends(n.book.threads, n.book.feeder, n.book.origin, n.book.tip)
    requires Posts(n.book.threads, n.inbox) && Virgin(n.book.relays, p, q, c)
    ensures forall i :: 0 <= i < |Log(n.inbox, p)| ==> !Registers(n.inbox[p][i], q, c)
  {
    forall i | 0 <= i < |Log(n.inbox, p)| ensures !Registers(n.inbox[p][i], q, c) {
      var e := n.inbox[p][i];
      assert MailboxOk(n.book.threads, p, Log(n.inbox, p));
      assert PostOk(n.book.threads, p, Log(n.inbox, p)[i]);
      if e.AddGameConnection? { UnusedThread(n.book, p, q, c, e.tx); }
    }
  }

  lemma Untraced(n: Net, p: PeerId, q: PeerId, c: ConnectionId)
    requires Inv(n) && Virgin(n.book.relays, p, q, c)
    ensures !Traced(n, p, q, c)
  {
    hide Feeds, RelayedEntries, LocalEntries, Threads, Live, Ends, Ids, Streams, Tips, Splices, Flow, Connects, Posts,
         Virgin;
    NoEntries(n.book, p, q, c);
    NoTraffic(n, p, q, c);
    NoPosts(n, p, q, c);
  }

  lemma VirginTraceless(n: Net, p: PeerId, q: PeerId, c: ConnectionId)
    requires Inv(n) && Virgin(n.book.relays, p, q, c)
    ensures Traceless(n, p, q, c)
  {
    hide Inv, Traced;
    Untraced(n, p, q, c);
    Untraced(n, q, p, c);
    NoHolders(n, p, q, c);
  }

  lemma NoHolders(n: Net, p: PeerId, q: PeerId, c: ConnectionId)
    requires Inv(n) && Virgin(n.book.relays, p, q, c)
    ensures forall t :: t in n.book.threads ==> !Holds(n.book.threads[t], WireOf(p, q, c))
  {
    hide Feeds, RelayedEntries, LocalEntries, Threads, Live, Ends, Ids, Streams, Tips, Splices, Flow, Connects, Posts;
    forall t | t in n.book.threads ensures !Holds(n.book.threads[t], WireOf(p, q, c)) {
      UnusedThread(n.book, p, q, c, t);
    }
  }

  // ---------------------------------------------------------------- one-way networks have no collisions

  /** Only the permitted callers have allocated ids. */
  ghost predicate Called(d: Callers, relays: Relays) {
    forall p: PeerId, q: PeerId :: NextId(relays, p, q) > 0 ==> (p, q) in d
  }

  /** The counters that an event of relay `p` changes. */
  lemma CounterStep(s: State, e: Event, env: Env, q: PeerId)
    requires env.failing == {} && !e.RemovePeer? && (e.AddPeer? ==> e.peer !in s.peers)
    requires Calls(s, e, env) != Some(q)
    ensures var t := Handle(s, e, env).state;
            q in t.peers && t.peers[q].next.id > 0 ==> q in s.peers && s.peers[q].next.id > 0
  {
    hide Handle;
    if IsQuiet(s, e, env) {
      QuietHandle(s, e, env);
    } else {
      BusyCounters(s, e, env, q);
    }
  }

  lemma BusyCounters(s: State, e: Event, env: Env, q: PeerId)
    requires env.failing == {} && !e.RemovePeer? && !IsQuiet(s, e, env) && !e.AddPeer?
    requires Calls(s, e, env) != Some(q)
    ensures var t := Handle(s, e, env).state;
            q in t.peers && t.peers[q].next.id > 0 ==> q in s.peers && s.peers[q].next.id > 0
  {}

  lemma CalledStep(d: Callers, n: Net, l: Label)
    requires Called(d, n.book.relays) && Enabled(n, l) && Permits(d, n, l)
    ensures Called(d, Next(n, l).book.relays)
  {
    hide Handle, Account, Forwards, IsQuiet;
    if l.Process? {
      var p, s, e := l.relay, n.book.relays[l.relay], n.inbox[l.relay][0];
      var t := Handle(s, e, l.env).state;
      assert Next(n, l).book.relays == n.book.relays[p := t];
      forall q | q in t.peers && t.peers[q].next.id > 0 ensures (p, q) in d {
        if Allocates(n, l) != Some(q) {
          CounterStep(s, e, l.env, q);
          assert NextId(n.book.relays, p, q) > 0;
        }
      }
      forall x: PeerId, y: PeerId | NextId(n.book.relays[p := t], x, y) > 0 ensures (x, y) in d {
        if x != p { assert NextId(n.book.relays, x, y) > 0; }
      }
    }
  }

  lemma OneWayStep(d: Callers, n: Net, l: Label)
    requires OneWay(d) && Steady(n) && Called(d, n.book.relays) && Enabled(n, l) && Permits(d, n, l)
    ensures NoCollisionAt(n, l)
  {
    hide Inv, Traceless;
    var to := Allocates(n, l);
    if to.Some? {
      var p, q := l.relay, to.value;
      assert (p, q) in d && (q, p) !in d;
      assert NextId(n.book.relays, q, p) == 0;
      VirginTraceless(n, p, q, n.book.relays[p].peers[q].next);
    }
  }

  lemma {:induction false} OneWayRun(d: Callers, n: Net, ls: seq<Label>)
    requires OneWay(d) && Steady(n) && Called(d, n.book.relays) && Valid(n, ls) && Respects(d, n, ls)
    ensures Collisionless(n, ls)
    decreases |ls|
  {
    hide Steady, NoCollisionAt, Next, Called, Permits;
    if ls != [] {
      OneWayStep(d, n, ls[0]);
      InvStep(n, ls[0]);
      CalledStep(d, n, ls[0]);
      OneWayRun(d, Next(n, ls[0]), ls[1..]);
    }
  }

  /** If at most one end of each link opens connections, no run has a collision. */
  lemma OneWayClean(d: Callers, n: Net, ls: seq<Label>)
    requires OneWay(d) && Start(n) && Valid(n, ls) && Respects(d, n, ls)
    ensures Collisionless(n, ls)
  {
    hide Steady;
    InvStart(n);
    assert Called(d, n.book.relays) by {
      forall p | p in n.book.relays ensures n.book.relays[p].peers == map[] {
        assert n.book.relays[p] == Init(n.book.relays[p].discoveryPort);
      }
    }
    OneWayRun(d, n, ls);
  }

  /** Hence every run is safe. */
  lemma OneWaySafe(d: Callers, n: Net, ls: seq<Label>)
    requires OneWay(d) && Start(n) && Valid(n, ls) && Respects(d, n, ls)
    ensures StreamSafe(Exec(n, ls).book)
  {
    OneWayClean(d, n, ls);
    StreamSafety(n, ls);
  }
}
