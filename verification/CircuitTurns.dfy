/** A link whose ends open connections in turn: the first is over at both ends when the other end uses its id again. */
module CircuitTurns {
  import opened Basics
  import opened RelayTypes
  import opened RelayModel
  import opened Circuits
  import opened CircuitCallers
  import opened CircuitCrossed
  import CircuitTheorems

  /** The tables of a relay whose connection under id 0 is over. */
  function Rested(q: PeerId): State {
    Knows(q).(peers := map[q := Peer(map[0 := 1], map[], map[], ConnectionId(1, false))])
  }

  /** Threads 0 and 1 have finished. */
  const LATER := Env({}, {}, None, {0, 1}, 2)

  lemma DialHandle(q: PeerId, env: Env)
    ensures var o := Handle(Knows(q), Recv(q, RelayConnect(0, 0, 0)), env); o.state == Knows(q) && o.sends == map[]
    ensures Calls(Knows(q), Recv(q, RelayConnect(0, 0, 0)), env) == None
  {}

  lemma CloseHandle(q: PeerId, u: Tx, env: Env)
    ensures var o := Handle(Knows(q), Recv(q, RelayClose(0, false)), env); o.state == Knows(q) && o.sends == map[]
    ensures var o := Handle(Talks(q, u), Recv(q, RelayClose(0, false)), env); o.state == Rested(q) && o.sends == map[]
  {
    var none: map<ConnectionId, Tx>, one: map<ConnectionId, Tx> := map[], map[ZERO := u];
    var links: map<ConnectionId, RelayedConnection> := map[];
    assert none - {ZERO} == none && one - {ZERO} == none && links - {ZERO} == links;
    assert Knows(q).peers[q := Knows(q).peers[q]] == Knows(q).peers;
    assert Talks(q, u).peers[q := Rested(q).peers[q]] == Rested(q).peers;
  }

  lemma DialStep(d: Callers, n: Net, p: PeerId, q: PeerId, t: Tx) returns (n': Net)
    requires Reached(d, n) && p in n.book.relays && n.book.relays[p] == Knows(q)
    requires Log(n.inbox, p) == [] && Fresh(n.book, t)
    requires Log(n.links, Link(q, p)) != [] && n.links[Link(q, p)][0] == RelayConnect(0, 0, 0)
    ensures Reached(d, n') && SameMail(n, n') && n'.book.relays == n.book.relays && n.bound <= n'.bound
    ensures n'.book.threads == n.book.threads[t := NewHost(Seg(q, p, ZERO, q), 0, HOME)]
    ensures forall k :: Log(n'.links, k) == if k == Link(q, p) then n.links[k][1..] else Log(n.links, k)
  {
    hide Handle, PushAll, Calls, Account, Listening, Reached, Knows;
    DialHandle(q, Calm(t));
    DialAccount(n.book, p, q, t);
    n' := Comes(d, n, Link(q, p), Calm(t));
    assert n.book.relays[p := Knows(q)] == n.book.relays;
  }

  lemma DialAccount(b: Book, p: PeerId, q: PeerId, t: Tx)
    ensures var b1 := Updated(b, p, Knows(q));
            var b' := Account(b1, p, Knows(q), Recv(q, RelayConnect(0, 0, 0)), Calm(t));
            && b'.relays == b1.relays && b'.threads == b.threads[t := NewHost(Seg(q, p, ZERO, q), 0, HOME)]
  {
    assert Handle(Knows(q), Recv(q, RelayConnect(0, 0, 0)), Calm(t)).spawn == Dial(q, ZERO, 0, HOME);
    hide Handle, Knows;
  }

  lemma FinishStep(d: Callers, n: Net, t: Tx) returns (n': Net)
    requires Reached(d, n) && t in n.book.threads && n.book.threads[t].phase != Closed
    ensures var th := n.book.threads[t];
            && Reached(d, n') && n'.inbox == n.inbox && n'.bound == n.bound
            && n'.book == n.book.(threads := n.book.threads[t := th.(phase := Closed)])
            && n'.links == Append(n.links, Link(th.relay, th.peer), RelayClose(th.conn.id, th.conn.local))
  {
    Go(d, n, Finish(t));
    n' := Next(n, Finish(t));
  }

  /** All threads have finished, and they are 0 and 1. */
  ghost predicate AllOver(b: Book) {
    b.threads.Keys == {0, 1} && forall t :: t in b.threads ==> b.threads[t].phase == Closed
  }

  lemma CloseStep(d: Callers, n: Net, p: PeerId, q: PeerId, s: State) returns (n': Net)
    requires Reached(d, n) && p in n.book.relays && Log(n.inbox, p) == [] && AllOver(n.book)
    requires Log(n.links, Link(q, p)) != [] && n.links[Link(q, p)][0] == RelayClose(0, false)
    requires var o := Handle(n.book.relays[p], Recv(q, RelayClose(0, false)), LATER); o.state == s && o.sends == map[]
    ensures Reached(d, n') && SameMail(n, n') && OnlyTables(n.book, n'.book, p, s) && n.bound <= n'.bound
    ensures forall k :: Log(n'.links, k) == if k == Link(q, p) then n.links[k][1..] else Log(n.links, k)
  {
    hide Handle, PushAll;
    n' := Comes(d, n, Link(q, p), LATER);
  }

  lemma Connected(p: PeerId, q: PeerId) returns (n: Net)
    requires p != q
    ensures Reached({(p, q)}, n) && Carry(n, p, q, [], []) && (q, 1) in n.bound
    ensures n.book.relays == map[p := Talks(q, 0), q := Knows(p)]
    ensures n.book.threads == map[0 := NewClient(Seg(p, q, ZERO, p), 1), 1 := NewHost(Seg(p, q, ZERO, p), 0, HOME)]
  {
    hide Reached, Knows, Talks;
    n := Acquainted({(p, q)}, p, q);
    n := CallStep({(p, q)}, n, p, q, 0);
    n := DialStep({(p, q)}, n, q, p, 1);
  }

  /** Relay `p` has called `q`, and both ends have finished; only their closes are on their way. */
  lemma Finished(p: PeerId, q: PeerId) returns (n: Net)
    requires p != q
    ensures Reached({(p, q)}, n) && Carry(n, p, q, [RelayClose(0, false)], [RelayClose(0, false)])
    ensures n.book.relays == map[p := Talks(q, 0), q := Knows(p)] && AllOver(n.book) && (q, 1) in n.bound
  {
    hide Reached, Knows, Talks;
    var d: Callers := {(p, q)};
    n := Connected(p, q);
    n := FinishStep(d, n, 0);
    n := FinishStep(d, n, 1);
  }

  /** The closes have arrived, and a client for `p`'s game waits at `q`. */
  lemma Ready(p: PeerId, q: PeerId) returns (n: Net)
    requires p != q
    ensures Reached({(p, q)}, n) && AllOver(n.book) && n.book.relays == map[p := Rested(q), q := Knows(p)]
    ensures Log(n.links, Link(p, q)) == [] && Log(n.links, Link(q, p)) == []
    ensures Log(n.inbox, q) == [AcceptGameConnection(1)] && Log(n.inbox, p) == []
  {
    hide Reached, Knows, Talks, Rested, Handle;
    var d: Callers := {(p, q)};
    n := Finished(p, q);
    CloseHandle(p, 0, LATER);
    CloseHandle(q, 0, LATER);
    n := CloseStep(d, n, q, p, Knows(p));
    n := CloseStep(d, n, p, q, Rested(q));
    var l := Arrive(q, AcceptGameConnection(1));
    Go(d, n, l);
    n := Next(n, l);
  }

  /** No trace of id 0 is left, so that `q` may allocate it in its turn. */
  lemma NothingLeft(n: Net, p: PeerId, q: PeerId)
    requires p != q && AllOver(n.book) && n.book.relays == map[p := Rested(q), q := Knows(p)]
    requires Log(n.links, Link(p, q)) == [] && Log(n.links, Link(q, p)) == []
    requires Log(n.inbox, q) == [AcceptGameConnection(1)] && Log(n.inbox, p) == []
    ensures Traceless(n, q, p, ZERO)
  {
    assert !HasLocal(n.book.relays, p, q, ZERO) && !HasRelayed(n.book.relays, p, q, ZERO);
    assert !HasLocal(n.book.relays, q, p, ZERO) && !HasRelayed(n.book.relays, q, p, ZERO);
    assert InboxData(Log(n.inbox, q), p, ZERO) == [] && InboxOpens(Log(n.inbox, q), p) == [] by {
      assert Log(n.inbox, q)[1..] == [];
    }
  }

  lemma {:induction false} CleanAppend(n: Net, ls: seq<Label>, l: Label)
    requires Valid(n, ls) && Collisionless(n, ls) && Enabled(Exec(n, ls), l) && NoCollisionAt(Exec(n, ls), l)
    ensures Valid(n, ls + [l]) && Collisionless(n, ls + [l]) && Exec(n, ls + [l]) == Next(Exec(n, ls), l)
    decreases |ls|
  {
    hide Next, NoCollisionAt, Enabled;
    if ls == [] {
      assert [l][1..] == [] && ls + [l] == [l];
      assert Valid(Next(n, l), []) && Collisionless(Next(n, l), []);
    } else {
      assert (ls + [l])[0] == ls[0] && (ls + [l])[1..] == ls[1..] + [l];
      CleanAppend(Next(n, ls[0]), ls[1..], l);
    }
  }

  lemma CallHandle(p: PeerId)
    ensures Handle(Knows(p), AcceptGameConnection(1), LATER).state == Talks(p, 2)
  {}

  lemma SecondCall(n: Net, p: PeerId, q: PeerId)
    requires p != q && AllOver(n.book) && n.book.relays == map[p := Rested(q), q := Knows(p)]
    requires Log(n.links, Link(p, q)) == [] && Log(n.links, Link(q, p)) == []
    requires Log(n.inbox, q) == [AcceptGameConnection(1)] && Log(n.inbox, p) == []
    ensures var l := Process(q, LATER);
            && Enabled(n, l) && NoCollisionAt(n, l)
            && NextId(Next(n, l).book.relays, p, q) == 1 && NextId(Next(n, l).book.relays, q, p) == 1
  {
    hide Handle, Traceless, Account;
    NothingLeft(n, p, q);
    assert Calls(Knows(p), AcceptGameConnection(1), LATER) == Some(p);
    CallHandle(p);
  }

  /** Some run is free of collisions, hence safe, although both ends of a link have opened a connection under id 0. */
  lemma TakesTurns(p: PeerId, q: PeerId) returns (n: Net, ls: seq<Label>)
    requires p != q
    ensures Start(n) && Valid(n, ls) && Collisionless(n, ls) && StreamSafe(Exec(n, ls).book)
    ensures NextId(Exec(n, ls).book.relays, p, q) == 1 && NextId(Exec(n, ls).book.relays, q, p) == 1
  {
    var d: Callers := {(p, q)};
    var n' := Ready(p, q);
    n, ls :| Start(n) && Valid(n, ls) && Respects(d, n, ls) && Exec(n, ls) == n';
    OneWayClean(d, n, ls);
    SecondCall(n', p, q);
    CleanAppend(n, ls, Process(q, LATER));
    ls := ls + [Process(q, LATER)];
    CircuitTheorems.StreamSafety(n, ls);
  }
}
