/** A game listener's thread and the keepalive calls on its handle, interleaved. */
module Listeners {
  import RelayTypes
  import RelayModel
  import Tables
  import Ports

  // Where the listener thread stands: blocked in accept, with a client in hand, between the swap of a timed out
  // accept and the attempt to unwrap its flag, or gone.
  datatype Place = Accepting | Accepted | Swapped | TimedOut | Errored

  // A keepalive call that has upgraded its weak reference, before or after its store.
  datatype Call = Upgraded | Stored

  // `strong` counts the strong references to the flag.
  datatype State = State(place: Place, flag: bool, strong: nat, calls: map<nat, Call>)

  const START := State(Accepting, false, 1, map[])

  datatype Label =
    | Accept | Reset | Refuse          // a client arrives; it is handled and the flag is reset; handling it fails
    | Timeout | Unwrap                 // the swap, and the try_unwrap after a swap that found no keepalive
    | Error                            // accept fails
    | Upgrade(call: nat)               // a keepalive call begins
    | Store(call: nat) | Drop(call: nat)

  predicate Released(s: State) {
    s.place.TimedOut? || s.place.Errored?
  }

  predicate Enabled(s: State, l: Label) {
    match l
    case Accept => s.place.Accepting?
    case Reset => s.place.Accepted?
    case Refuse => s.place.Accepted?
    case Timeout => s.place.Accepting?
    case Unwrap => s.place.Swapped?
    case Error => s.place.Accepting?
    case Upgrade(i) => i !in s.calls
    case Store(i) => i in s.calls && s.calls[i].Upgraded?
    case Drop(i) => i in s.calls && s.calls[i].Stored?
  }

  function Less(n: nat): nat {
    if n == 0 then 0 else n - 1
  }

  function Next(s: State, l: Label): State
    requires Enabled(s, l)
  {
    match l
    case Accept => s.(place := Accepted)
    case Reset => s.(place := Accepting, flag := false)
    case Refuse => s.(place := Errored, strong := Less(s.strong))
    case Timeout => s.(place := if s.flag then Accepting else Swapped, flag := false)
    case Unwrap => if s.strong == 1 then s.(place := TimedOut, strong := 0) else s.(place := Accepting)
    case Error => s.(place := Errored, strong := Less(s.strong))
    case Upgrade(i) => if s.strong > 0 then s.(strong := s.strong + 1, calls := s.calls[i := Upgraded]) else s
    case Store(i) => s.(flag := true, calls := s.calls[i := Stored])
    case Drop(i) => s.(strong := Less(s.strong), calls := s.calls - {i})
  }

  ghost predicate Valid(s: State, ls: seq<Label>)
    decreases |ls|
  {
    ls == [] || (Enabled(s, ls[0]) && Valid(Next(s, ls[0]), ls[1..]))
  }

  ghost function Exec(s: State, ls: seq<Label>): State
    requires Valid(s, ls)
    decreases |ls|
  {
    if ls == [] then s else Exec(Next(s, ls[0]), ls[1..])
  }

  // ---------------------------------------------------------------- the reference count

  /** One reference is the listener's while it runs, and one is each unfinished call's. */
  ghost predicate Counted(s: State) {
    s.strong == |s.calls| + if Released(s) then 0 else 1
  }

  lemma CountedStep(s: State, l: Label)
    requires Counted(s) && Enabled(s, l)
    ensures Counted(Next(s, l))
  {
    match l {
      case Upgrade(i) => SizeWith(s.calls, i, Upgraded);
      case Store(i) => SizeSame(s.calls, i, Stored);
      case Drop(i) => SizeWithout(s.calls, i);
      case _ =>
    }
  }

  lemma SizeWith(m: map<nat, Call>, i: nat, c: Call)
    requires i !in m
    ensures |m[i := c]| == |m| + 1
  {
    SizeWithout(m[i := c], i);
    assert m[i := c] - {i} == m;
  }

  lemma SizeSame(m: map<nat, Call>, i: nat, c: Call)
    requires i in m
    ensures |m[i := c]| == |m|
  {
    SizeWithout(m, i);
    SizeWithout(m[i := c], i);
    assert m[i := c] - {i} == m - {i};
  }

  lemma SizeWithout(m: map<nat, Call>, i: nat)
    requires i in m
    ensures |m| == |m - {i}| + 1
  {
    assert (m - {i}).Keys == m.Keys - {i};
    assert |m| == |m.Keys| && |m - {i}| == |(m - {i}).Keys|;
  }

  lemma {:induction false} CountedRun(s: State, ls: seq<Label>)
    requires Counted(s) && Valid(s, ls)
    ensures Counted(Exec(s, ls))
    decreases |ls|
  {
    if ls != [] {
      CountedStep(s, ls[0]);
      CountedRun(Next(s, ls[0]), ls[1..]);
    }
  }

  /** In every run, a timeout closes the listener if, and only if, no keepalive call is mid-way. */
  lemma ClosesWhenIdle(ls: seq<Label>)
    requires Valid(START, ls) && Enabled(Exec(START, ls), Unwrap)
    ensures var s := Exec(START, ls); Next(s, Unwrap).place.TimedOut? <==> s.calls == map[]
  {
    CountedRun(START, ls);
  }

  // ---------------------------------------------------------------- after the release

  /** A keepalive call that begins now succeeds. */
  predicate Alive(s: State) {
    s.strong > 0
  }

  lemma {:induction false} DeadRun(s: State, ls: seq<Label>)
    requires Counted(s) && !Alive(s) && Valid(s, ls)
    ensures !Alive(Exec(s, ls))
    decreases |ls|
  {
    if ls != [] {
      CountedStep(s, ls[0]);
      assert s.calls == map[];
      DeadRun(Next(s, ls[0]), ls[1..]);
    }
  }

  /** Once the flag is gone, keepalive fails forever; and a listener closed by a timeout has lost it already. */
  lemma FailsForever(ls: seq<Label>, more: seq<Label>)
    requires Valid(START, ls) && Valid(Exec(START, ls), more)
    ensures !Alive(Exec(START, ls)) ==> !Alive(Exec(Exec(START, ls), more))
    ensures Exec(START, ls).place.TimedOut? ==> !Alive(Exec(Exec(START, ls), more))
  {
    CountedRun(START, ls);
    TimedOutRun(START, ls);
    if !Alive(Exec(START, ls)) { DeadRun(Exec(START, ls), more); }
  }

  lemma {:induction false} TimedOutRun(s: State, ls: seq<Label>)
    requires Counted(s) && (s.place.TimedOut? ==> !Alive(s)) && Valid(s, ls)
    ensures Exec(s, ls).place.TimedOut? ==> !Alive(Exec(s, ls))
    decreases |ls|
  {
    if ls != [] {
      CountedStep(s, ls[0]);
      TimedOutRun(Next(s, ls[0]), ls[1..]);
    }
  }

  /** Keepalive succeeds for certain while the listener runs: an open listener is never taken for a dead one. */
  lemma OpenIsAlive(ls: seq<Label>)
    requires Valid(START, ls)
    ensures !Released(Exec(START, ls)) ==> Alive(Exec(START, ls))
  {
    CountedRun(START, ls);
  }

  // ---------------------------------------------------------------- what the flag means

  /** The last step of the run that touched the flag was a store of a keepalive call. */
  function StoredLast(ls: seq<Label>, at: bool): bool {
    if ls == [] then at
    else match ls[|ls| - 1]
      case Store(_) => true
      case Reset => false
      case Timeout => false
      case _ => StoredLast(ls[..|ls| - 1], at)
  }

  lemma {:induction false} ExecAppend(s: State, ls: seq<Label>, l: Label)
    requires Valid(s, ls + [l])
    ensures Valid(s, ls) && Enabled(Exec(s, ls), l) && Exec(s, ls + [l]) == Next(Exec(s, ls), l)
    decreases |ls|
  {
    if ls == [] {
      assert Exec(Next(s, l), []) == Next(s, l);
    } else {
      assert (ls + [l])[0] == ls[0] && (ls + [l])[1..] == ls[1..] + [l];
      ExecAppend(Next(s, ls[0]), ls[1..], l);
    }
  }

  lemma {:induction false} FlagMeans(s: State, ls: seq<Label>)
    requires Valid(s, ls)
    ensures Exec(s, ls).flag == StoredLast(ls, s.flag)
    decreases |ls|
  {
    if ls != [] {
      var front, l := ls[..|ls| - 1], ls[|ls| - 1];
      assert ls == front + [l];
      ExecAppend(s, front, l);
      FlagMeans(s, front);
    }
  }

  /** The steps of the listener's own thread. */
  predicate Own(l: Label) {
    !l.Upgrade? && !l.Store? && !l.Drop?
  }

  /** Step `j` is the last step of the listener's thread in the run. */
  ghost predicate LastOwn(ls: seq<Label>, j: nat) {
    j < |ls| && Own(ls[j]) && forall i :: j < i < |ls| ==> !Own(ls[i])
  }

  /** Between its swap and its try_unwrap, the listener's last own step was a swap that found no store. */
  lemma {:induction false} SwappedBy(ls: seq<Label>) returns (j: nat)
    requires Valid(START, ls) && Exec(START, ls).place.Swapped?
    ensures LastOwn(ls, j) && ls[j] == Timeout && !StoredLast(ls[..j], false)
    decreases |ls|
  {
    assert ls != [];
    var front, l := ls[..|ls| - 1], ls[|ls| - 1];
    assert ls == front + [l];
    ExecAppend(START, front, l);
    if Own(l) {
      j := |front|;
      FlagMeans(START, front);
    } else {
      j := SwappedBy(front);
      assert ls[..j] == front[..j];
    }
  }

  /**
   A listener that a timeout closes was idle for a whole interval: the swap before the close came after no store
   that was newer than the last reset, and at the close no keepalive call is mid-way.
   */
  lemma TimeoutCloses(ls: seq<Label>) returns (j: nat)
    requires Valid(START, ls + [Unwrap]) && Exec(START, ls + [Unwrap]).place.TimedOut?
    ensures Valid(START, ls) && Exec(START, ls).calls == map[]
    ensures LastOwn(ls, j) && ls[j] == Timeout && !StoredLast(ls[..j], false)
  {
    ExecAppend(START, ls, Unwrap);
    ClosesWhenIdle(ls);
    j := SwappedBy(ls);
  }

  // ---------------------------------------------------------------- what one keepalive is worth

  /** From here on, the listener's thread only times out or stays where it is. */
  ghost predicate Quiet(ls: seq<Label>) {
    forall l :: l in ls ==> !Own(l)
  }

  lemma {:induction false} QuietRun(s: State, ls: seq<Label>)
    requires Valid(s, ls) && Quiet(ls)
    ensures Exec(s, ls).place == s.place && (s.flag ==> Exec(s, ls).flag)
    decreases |ls|
  {
    if ls != [] {
      assert ls[0] in ls && forall l :: l in ls[1..] ==> l in ls;
      QuietRun(Next(s, ls[0]), ls[1..]);
    }
  }

  /**
   What a store buys: after a store made while the listener waits in accept, the next timeout, if it comes before
   any client, leaves the listener waiting.
   */
  lemma StoreBuysOneTimeout(s: State, i: nat, ls: seq<Label>)
    requires Enabled(s, Store(i)) && s.place.Accepting?
    requires Valid(Next(s, Store(i)), ls + [Timeout]) && Quiet(ls)
    ensures Exec(Next(s, Store(i)), ls + [Timeout]).place.Accepting?
  {
    ExecAppend(Next(s, Store(i)), ls, Timeout);
    QuietRun(Next(s, Store(i)), ls);
  }

  /**
   And no more than that: a keepalive call that runs from start to end between the swap and the try_unwrap
   succeeds, and the listener closes all the same. Whether the listener survives such a call depends only on
   whether the call is still mid-way at the try_unwrap.
   */
  lemma KeepaliveInWindow(ls: seq<Label>, i: nat, k: nat)
    requires Valid(START, ls) && Exec(START, ls).place.Swapped? && Exec(START, ls).calls == map[] && k <= 3
    ensures var steps := [Upgrade(i), Store(i), Drop(i)];
            && Valid(Exec(START, ls), steps[..k] + [Unwrap])
            && (Exec(Exec(START, ls), steps[..k] + [Unwrap]).place.TimedOut? <==> k == 0 || k == 3)
  {
    CountedRun(START, ls);
    var s := Exec(START, ls);
    var steps := [Upgrade(i), Store(i), Drop(i)];
    var s1 := Next(s, Upgrade(i));
    var s2 := Next(s1, Store(i));
    var s3 := Next(s2, Drop(i));
    assert s3.calls == map[];
    assert Valid(s, [Unwrap]) && Exec(s, [Unwrap]) == Next(s, Unwrap) by { Once(s, Unwrap); }
    Once(s1, Unwrap);
    Once(s2, Unwrap);
    Once(s3, Unwrap);
    match k {
      case 0 => assert steps[..0] + [Unwrap] == [Unwrap];
      case 1 => Twice(s, Upgrade(i), [Unwrap]); assert steps[..1] + [Unwrap] == [Upgrade(i)] + [Unwrap];
      case 2 => Twice(s1, Store(i), [Unwrap]); Twice(s, Upgrade(i), [Store(i)] + [Unwrap]);
                assert steps[..2] + [Unwrap] == [Upgrade(i)] + ([Store(i)] + [Unwrap]);
      case 3 => Twice(s2, Drop(i), [Unwrap]); Twice(s1, Store(i), [Drop(i)] + [Unwrap]);
                Twice(s, Upgrade(i), [Store(i)] + ([Drop(i)] + [Unwrap]));
                assert steps[..3] + [Unwrap] == [Upgrade(i)] + ([Store(i)] + ([Drop(i)] + [Unwrap]));
    }
  }

  lemma Once(s: State, l: Label)
    requires Enabled(s, l)
    ensures Valid(s, [l]) && Exec(s, [l]) == Next(s, l)
  {
    assert [l][1..] == [] && Valid(Next(s, l), []) && Exec(Next(s, l), []) == Next(s, l);
  }

  lemma Twice(s: State, l: Label, ls: seq<Label>)
    requires Enabled(s, l) && Valid(Next(s, l), ls)
    ensures Valid(s, [l] + ls) && Exec(s, [l] + ls) == Exec(Next(s, l), ls)
  {
    assert ([l] + ls)[1..] == ls;
  }

  // ---------------------------------------------------------------- the relay's table

  /** The event loop's keepalive calls answer as the listener threads stand, each after a run of its own. */
  ghost predicate Answers(runs: map<nat, seq<Label>>, env: RelayTypes.Env) {
    forall h :: h in runs ==> Valid(START, runs[h]) && (h in env.openListeners <==> Alive(Exec(START, runs[h])))
  }

  /**
   A RemoveGameListener that comes late, after the listener it speaks of was replaced, leaves every table as it
   is while the replacement runs, whatever the tables are.
   */
  lemma LateRemovalSpares(s: RelayTypes.State, g: nat, env: RelayTypes.Env, runs: map<nat, seq<Label>>)
    requires Ports.Listens(s, g) && Answers(runs, env) && s.games[g].listener.value.handle in runs
    requires !Released(Exec(START, runs[s.games[g].listener.value.handle]))
    ensures RelayModel.Handle(s, RelayTypes.RemoveGameListener(g), env).state == s
  {
    OpenIsAlive(runs[s.games[g].listener.value.handle]);
  }

  /** It unregisters a recorded listener, and its port, once a timeout has closed it. */
  lemma LateRemovalReaps(port: nat, inputs: seq<Tables.Input>, g: nat, env: RelayTypes.Env, runs: map<nat, seq<Label>>)
    requires Ports.FreshRun(RelayModel.Init(port), inputs)
    requires Ports.Listens(Tables.Run(RelayModel.Init(port), inputs), g) && Answers(runs, env)
    requires Tables.Run(RelayModel.Init(port), inputs).games[g].listener.value.handle in runs
    ensures var s := Tables.Run(RelayModel.Init(port), inputs);
            var t := RelayModel.Handle(s, RelayTypes.RemoveGameListener(g), env).state;
            Exec(START, runs[s.games[g].listener.value.handle]).place.TimedOut? ==>
              !Ports.Listens(t, g) && Ports.PortOf(s, g) !in t.ports
  {
    var s := Tables.Run(RelayModel.Init(port), inputs);
    Ports.FreshEnd(port, inputs);
    Tables.IndexedRun(RelayModel.Init(port), inputs);
    Ports.LateRemoval(s, g, env);
    TimedOutRun(START, runs[s.games[g].listener.value.handle]);
  }
}
