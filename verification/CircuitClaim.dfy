/** Allocating an id of which no trace is left changes nothing that is still in use. */
module CircuitClaim {
  import opened RelayTypes
  import opened Pairing
  import opened Circuits
  import opened CircuitInvariant

  /** The relayed tables of every relay are paired. */
  ghost predicate Paireds(relays: Relays) {
    forall p :: p in relays ==> Paired(relays[p])
  }

  /** No entry leads to or from an id, at either end of its link. */
  ghost predicate Unlinked(relays: Relays, p: PeerId, q: PeerId, c: ConnectionId) {
    && !HasLocal(relays, p, q, c) && !HasRelayed(relays, p, q, c)
    && !HasLocal(relays, q, p, c) && !HasRelayed(relays, q, p, c)
  }

  /** Entries other than those of the wire `w` stand for the segments they stood for. */
  lemma Elsewhere(owner: Owners, w: Wire, p: PeerId, x: PeerId, y: PeerId, c: ConnectionId)
    requires WireOf(x, y, c) != w
    ensures At(owner[w := p], x, y, c) == At(owner, x, y, c)
  {}

  lemma SameWire(x: PeerId, y: PeerId, e: ConnectionId, p: PeerId, q: PeerId, c: ConnectionId)
    requires WireOf(x, y, e) == WireOf(p, q, c)
    ensures e == c && ((x == p && y == q) || (x == q && y == p))
  {}

  lemma ClaimLocals(relays: Relays, owner: Owners, threads: map<Tx, Thread>, popped: Chunks, p: PeerId, q: PeerId,
                    c: ConnectionId)
    requires LocalEntries(relays, owner, threads, popped) && Unlinked(relays, p, q, c)
    ensures LocalEntries(relays, owner[WireOf(p, q, c) := p], threads, popped)
  {
    var w := WireOf(p, q, c);
    forall x, y, e | HasLocal(relays, x, y, e)
      ensures LocalOk(threads, popped, At(owner[w := p], y, x, e), relays[x].peers[y].locals[e])
    {
      if WireOf(y, x, e) == w { SameWire(y, x, e, p, q, c); }
      Elsewhere(owner, w, p, y, x, e);
    }
  }

  lemma ClaimRelayed(relays: Relays, owner: Owners, feeder: map<Seg, Feeder>, fed: Chunks, popped: Chunks,
                     p: PeerId, q: PeerId, c: ConnectionId)
    requires RelayedEntries(relays, owner, feeder, fed, popped)
    requires Pointers(relays) && Paireds(relays) && Unlinked(relays, p, q, c)
    ensures RelayedEntries(relays, owner[WireOf(p, q, c) := p], feeder, fed, popped)
  {
    var w := WireOf(p, q, c);
    forall x, y, e | HasRelayed(relays, x, y, e)
      ensures RelayedOk(owner[w := p], feeder, fed, popped, At(owner[w := p], y, x, e), relays[x].peers[y].relayed[e])
    {
      var r := relays[x].peers[y].relayed[e];
      assert RelayedOk(owner, feeder, fed, popped, At(owner, y, x, e), r);
      assert Linked(relays[x], y, e, r.peer, r.conn);
      assert Linked(relays[x], r.peer, r.conn, y, e);
      assert HasRelayed(relays, x, r.peer, r.conn);
      if WireOf(y, x, e) == w { SameWire(y, x, e, p, q, c); }
      if WireOf(x, r.peer, r.conn) == w { SameWire(x, r.peer, r.conn, p, q, c); }
      Elsewhere(owner, w, p, y, x, e);
      Elsewhere(owner, w, p, x, r.peer, r.conn);
    }
  }

  /** A thread that still has to be registered has its registration waiting. */
  lemma ClaimLive(n: Net, p: PeerId, q: PeerId, c: ConnectionId)
    requires Live(n.book.owner, n.book.threads) && Posts(n.book.threads, n.inbox) && Traceless(n, p, q, c)
    ensures Live(n.book.owner[WireOf(p, q, c) := p], n.book.threads)
  {
    var b, w := n.book, WireOf(p, q, c);
    forall t | t in b.threads ensures LiveOk(b.owner[w := p], b.threads[t]) {
      var th := b.threads[t];
      assert LiveOk(b.owner, th) && !Holds(th, w);
      if th.posted && !th.registered {
        Waiting(n, t);
        if WireOf(th.relay, th.peer, th.conn) == w { SameWire(th.relay, th.peer, th.conn, p, q, c); }
      }
    }
  }

  lemma Waiting(n: Net, t: Tx)
    requires Posts(n.book.threads, n.inbox) && t in n.book.threads
    requires n.book.threads[t].posted && !n.book.threads[t].registered
    ensures var th := n.book.threads[t];
            exists i :: 0 <= i < |Log(n.inbox, th.relay)| && Registers(n.inbox[th.relay][i], th.peer, th.conn)
  {
    var th := n.book.threads[t];
    var q := Log(n.inbox, th.relay);
    assert Posted(q, t) && MailboxOk(n.book.threads, th.relay, q);
    var i :| 0 <= i < |q| && q[i].AddGameConnection? && q[i].tx == t;
    assert PostOk(n.book.threads, th.relay, q[i]);
    assert Registers(n.inbox[th.relay][i], th.peer, th.conn);
  }

  lemma ClaimFlow(n: Net, p: PeerId, q: PeerId, c: ConnectionId)
    requires Flow(n) && Traceless(n, p, q, c)
    ensures Flow(n.(book := Claimed(n.book, p, q, c)))
  {
    var b, w := n.book, WireOf(p, q, c);
    var owner := b.owner[w := p];
    forall s ensures Log(b.fed, s) == Log(b.popped, s) + OnTheWay(owner, n.inbox, n.links, s) {
      assert Log(b.fed, s) == Log(b.popped, s) + OnTheWay(b.owner, n.inbox, n.links, s);
      if WireOf(s.from, s.to, s.conn) == w {
        SameWire(s.from, s.to, s.conn, p, q, c);
        assert Pending(n.inbox, n.links, s) == Pending(n.inbox, n.links, Seg(s.from, s.to, c, s.from)) == [];
      }
    }
  }

  lemma ClaimConnects(n: Net, p: PeerId, q: PeerId, c: ConnectionId)
    requires Connects(n) && Traceless(n, p, q, c)
    ensures Connects(n.(book := Claimed(n.book, p, q, c)))
  {
    var b, w := Claimed(n.book, p, q, c), WireOf(p, q, c);
    forall k, id | id in Opens(n.inbox, n.links, k) ensures OpenOk(b, k, id) {
      assert OpenOk(n.book, k, id) && ConnectionId(id, false) in OpenIds(n, k.from, k.to);
      if WireOf(k.from, k.to, ConnectionId(id, false)) == w {
        SameWire(k.from, k.to, ConnectionId(id, false), p, q, c);
      }
    }
  }

  lemma ClaimedBook(n: Net, p: PeerId, q: PeerId, c: ConnectionId)
    requires BookOk(n.book) && Posts(n.book.threads, n.inbox) && Paireds(n.book.relays) && Traceless(n, p, q, c)
    ensures BookOk(Claimed(n.book, p, q, c))
  {
    hide Feeds, RelayedEntries, LocalEntries, Threads, Live, Ends, Ids, Streams, Tips, Splices;
    var b := n.book;
    ClaimLocals(b.relays, b.owner, b.threads, b.popped, p, q, c);
    ClaimRelayed(b.relays, b.owner, b.feeder, b.fed, b.popped, p, q, c);
    ClaimLive(n, p, q, c);
  }

  /** The id stands for `p`'s segment from now on, and whatever was in use stands for what it stood for. */
  lemma ClaimKeeps(n: Net, p: PeerId, q: PeerId)
    requires Inv(n) && Paireds(n.book.relays) && p in n.book.relays && q in n.book.relays[p].peers
    requires Traceless(n, p, q, n.book.relays[p].peers[q].next)
    ensures var c := n.book.relays[p].peers[q].next;
            Inv(n.(book := Claimed(n.book, p, q, c))) && Current(Claimed(n.book, p, q, c).owner, Seg(p, q, c, p))
  {
    hide BookOk, Flow, Connects, Posts;
    var c := n.book.relays[p].peers[q].next;
    ClaimedBook(n, p, q, c);
    ClaimFlow(n, p, q, c);
    ClaimConnects(n, p, q, c);
  }
}
