/** How the threads of a circuit network end, in every run, collisions included. */
module CircuitEnds {
  import opened Basics
  import opened RelayTypes
  import opened RelayModel
  import opened Pairing
  import opened Circuits

  ghost predicate Ended(n: Net, t: Tx) {
    t in n.book.threads && n.book.threads[t].phase.Closed?
  }

  /** The thread has read, written and torn the same in both, and has the same place. */
  ghost predicate SameWork(th: Thread, th': Thread) {
    && th'.relay == th.relay && th'.peer == th.peer && th'.conn == th.conn && th'.phase == th.phase
    && th'.input == th.input && th'.output == th.output && th'.torn == th.torn
  }

  /** The step ends the thread, which says so on its link, behind everything that it has sent there. */
  ghost predicate Ends(n: Net, l: Label, t: Tx)
    requires Enabled(n, l)
  {
    && t in n.book.threads && !Ended(n, t) && Ended(Next(n, l), t)
    && var th := n.book.threads[t];
       Log(Next(n, l).links, Link(th.relay, th.peer))
       == Log(n.links, Link(th.relay, th.peer)) + [RelayClose(th.conn.id, th.conn.local)]
  }

  /** Threads may start and channels may fill; nothing else happens to any thread. */
  ghost predicate WorksOn(b: Book, b': Book, t: Tx) {
    && (t in b.threads ==> t in b'.threads && SameWork(b.threads[t], b'.threads[t]))
    && (t in b'.threads && t !in b.threads ==> !b'.threads[t].phase.Closed?)
  }

  lemma SameThreadsWork(b: Book, b1: Book, b': Book, t: Tx)
    requires b1.threads == b.threads && WorksOn(b1, b', t)
    ensures WorksOn(b, b', t)
  {}

  lemma NoWork(b: Book, b': Book, t: Tx)
    requires b'.threads == b.threads
    ensures WorksOn(b, b', t)
  {}

  lemma NewWork(b: Book, b': Book, u: Tx, th: Thread, t: Tx)
    requires u !in b.threads && b'.threads == b.threads[u := th] && !th.phase.Closed?
    ensures WorksOn(b, b', t)
  {}

  lemma ChangedWork(b: Book, b': Book, x: Tx, th: Thread, t: Tx)
    requires x in b.threads && b'.threads == b.threads[x := th] && SameWork(b.threads[x], th)
    ensures WorksOn(b, b', t)
  {}

  lemma DeliveredWork(b: Book, x: Tx, data: Bytes, t: Tx)
    ensures WorksOn(b, Delivered(b, x, data), t)
  {
    hide WorksOn;
    if x in b.threads {
      ChangedWork(b, Delivered(b, x, data), x, b.threads[x].(chan := b.threads[x].chan + [data]), t);
    } else {
      NoWork(b, b, t);
    }
  }

  lemma RegisteredWork(b: Book, st: State, s: Seg, x: Tx, t: Tx)
    ensures WorksOn(b, Registered(b, st, s, x), t)
  {
    hide WorksOn, Append;
    if x in b.threads {
      ChangedWork(b, Registered(b, st, s, x), x, b.threads[x].(registered := true), t);
    } else {
      NoWork(b, Registered(b, st, s, x), t);
    }
  }

  lemma AcceptWork(b: Book, p: PeerId, s: State, e: Event, env: Env, t: Tx)
    requires env.newHandle !in b.threads && e.AcceptGameConnection?
    ensures WorksOn(b, Account(b, p, s, e, env), t)
  {
    hide WorksOn, Handle, WireOf;
    var b', spawn := Account(b, p, s, e, env), Handle(s, e, env).spawn;
    if spawn.Serve? {
      NewWork(b, b', env.newHandle, NewClient(Seg(p, spawn.peer, spawn.conn, p), e.gameId), t);
    } else {
      NoWork(b, b', t);
    }
  }

  lemma ConnectWork(b: Book, p: PeerId, s: State, e: Event, env: Env, t: Tx)
    requires env.newHandle !in b.threads && e.Recv? && e.message.RelayConnect?
    ensures WorksOn(b, Account(b, p, s, e, env), t)
  {
    hide WorksOn, Handle, WireOf, Forwards;
    var b', spawn := Account(b, p, s, e, env), Handle(s, e, env).spawn;
    if spawn.Dial? {
      NewWork(b, b', env.newHandle, NewHost(Seg(spawn.peer, p, spawn.conn, spawn.peer), spawn.gameId, spawn.addr), t);
    } else {
      NoWork(b, b', t);
    }
  }

  lemma MovedWork(b: Book, st: State, s: Seg, data: Bytes, env: Env, t: Tx)
    ensures WorksOn(b, Moved(b, st, s, data, env), t)
  {
    hide Delivered, At, HandleData, Append, WorksOn;
    var given, b1 := HandleData(st, s.from, s.conn, data, env).delivered, b.(popped := Append(b.popped, s, data));
    if s.from in st.peers && given.Some? {
      DeliveredWork(b1, given.value.tx, given.value.data, t);
      SameThreadsWork(b, b1, Moved(b, st, s, data, env), t);
    } else {
      NoWork(b, Moved(b, st, s, data, env), t);
    }
  }

  lemma EventWork(b: Book, p: PeerId, s: State, e: Event, env: Env, t: Tx)
    requires env.newHandle !in b.threads
    ensures WorksOn(b, Account(b, p, s, e, env), t)
  {
    hide Moved, Handle, WorksOn, At, Registered, Forwards, Opened, Hosted, Spliced;
    match e {
      case AcceptGameConnection(_) => AcceptWork(b, p, s, e, env, t);
      case AddGameConnection(from, c, _, x) => RegisteredWork(b, s, At(b.owner, p, from, c), x, t);
      case Recv(from, RelayConnect(_, _, _)) => ConnectWork(b, p, s, e, env, t);
      case Recv(from, RelayData(cid, local, data)) =>
        MovedWork(b, s, At(b.owner, from, p, ConnectionId(cid, local)), data, env, t);
      case _ => NoWork(b, Account(b, p, s, e, env), t);
    }
  }

  /** A step leaves an ended thread as it is; and ends a thread only with a close on its link. */
  lemma EndStep(n: Net, l: Label, t: Tx)
    requires Enabled(n, l)
    ensures Ended(n, t) ==> Ended(Next(n, l), t) && SameWork(n.book.threads[t], Next(n, l).book.threads[t])
    ensures !Ended(n, t) && Ended(Next(n, l), t) ==> Ends(n, l, t)
  {
    if l.Process? {
      hide Account, Handle, PushAll;
      var s, e := n.book.relays[l.relay], n.inbox[l.relay][0];
      EventWork(Updated(n.book, l.relay, Handle(s, e, l.env).state), l.relay, s, e, l.env, t);
    }
  }

  /** Once ended, a thread sends nothing and writes nothing more, whatever happens. */
  lemma {:induction false} EndedRun(n: Net, ls: seq<Label>, t: Tx)
    requires Valid(n, ls) && Ended(n, t)
    ensures Ended(Exec(n, ls), t) && SameWork(n.book.threads[t], Exec(n, ls).book.threads[t])
    decreases |ls|
  {
    hide Next;
    if ls != [] {
      EndStep(n, ls[0], t);
      EndedRun(Next(n, ls[0]), ls[1..], t);
    }
  }

  /** Step `j` of the run ends the thread. */
  ghost predicate EndsAt(n: Net, ls: seq<Label>, j: nat, t: Tx) {
    && j < |ls| && Valid(n, ls[..j]) && Enabled(Exec(n, ls[..j]), ls[j])
    && Ends(Exec(n, ls[..j]), ls[j], t)
  }

  lemma EndsLater(n: Net, ls: seq<Label>, j: nat, t: Tx)
    requires ls != [] && Enabled(n, ls[0]) && EndsAt(Next(n, ls[0]), ls[1..], j, t)
    ensures EndsAt(n, ls, j + 1, t)
    ensures Exec(n, ls[..j + 1]) == Exec(Next(n, ls[0]), ls[1..][..j])
  {
    hide Next, Ends, Enabled;
    assert ls[..j + 1][0] == ls[0] && ls[..j + 1][1..] == ls[1..][..j];
  }

  /**
   Every thread that has ended in a run did so in one step, with which its relay's peer is told under the thread's id
   behind all that the thread has sent; and it has read and written nothing since.
   */
  lemma {:induction false} EndAnnounced(n: Net, ls: seq<Label>, t: Tx) returns (j: nat)
    requires Valid(n, ls) && !Ended(n, t) && Ended(Exec(n, ls), t)
    ensures EndsAt(n, ls, j, t)
    ensures var before, after := Exec(n, ls[..j]), Exec(n, ls);
            SameWork(Next(before, ls[j]).book.threads[t], after.book.threads[t])
    decreases |ls|
  {
    hide Next, Ends, Enabled;
    EndStep(n, ls[0], t);
    if Ended(Next(n, ls[0]), t) {
      j := 0;
      assert Exec(n, ls[..0]) == n;
      EndedRun(Next(n, ls[0]), ls[1..], t);
    } else {
      j := EndAnnounced(Next(n, ls[0]), ls[1..], t);
      EndsLater(n, ls, j, t);
      j := j + 1;
    }
  }
}
