/** The loop of a listener's thread, over a flag that keepalive calls share with it. */
module ListenerLoop {
  import opened Basics
  import opened Listeners

  // What one round of the loop meets: how its accept ends, and what keepalive calls do while the thread waits,
  // and between its next two actions on the flag.
  datatype Ending = Client | BadClient | Elapsed | Failure

  datatype Round = Round(waiting: seq<Label>, ending: Ending, between: seq<Label>)

  class Flag {
    var value: bool
    var strong: nat
    var calls: map<nat, Call>

    constructor ()
      ensures View(Accepting) == START
    {
      value, strong, calls := false, 1, map[];
    }

    /** The flag and its references, with the listener's thread at `place`. */
    function View(place: Place): State
      reads this
    {
      State(place, value, strong, calls)
    }

    method Clear()
      modifies this
      ensures View(Accepting) == old(View(Accepting)).(flag := false)
    {
      value := false;
    }

    method Swap() returns (was: bool)
      modifies this
      ensures was == old(value) && View(Accepting) == old(View(Accepting)).(flag := false)
    {
      was := value;
      value := false;
    }

    method TryUnwrap() returns (sole: bool)
      modifies this
      ensures sole <==> old(strong) == 1
      ensures View(Accepting) == old(View(Accepting)).(strong := if sole then 0 else old(strong))
    {
      sole := strong == 1;
      if sole { strong := 0; }
    }

    method Release()
      modifies this
      ensures View(Accepting) == old(View(Accepting)).(strong := Less(old(strong)))
    {
      strong := Less(strong);
    }

    /** Makes one step of a keepalive call, if the call stands where it can make it. */
    method Call(l: Label, place: Place) returns (made: bool)
      modifies this
      ensures made <==> !Own(l) && Enabled(old(View(place)), l)
      ensures View(place) == if made then Next(old(View(place)), l) else old(View(place))
    {
      made := true;
      match l {
        case Upgrade(i) =>
          if i in calls { return false; }
          if strong > 0 { strong, calls := strong + 1, calls[i := Upgraded]; }
        case Store(i) =>
          if i !in calls || !calls[i].Upgraded? { return false; }
          value, calls := true, calls[i := Stored];
        case Drop(i) =>
          if i !in calls || !calls[i].Stored? { return false; }
          strong, calls := Less(strong), calls - {i};
        case _ => made := false;
      }
    }
  }

  // ---------------------------------------------------------------- what a run of the loop is

  lemma {:induction false} ExecConcat(s: State, a: seq<Label>, b: seq<Label>)
    requires Valid(s, a) && Valid(Exec(s, a), b)
    ensures Valid(s, a + b) && Exec(s, a + b) == Exec(Exec(s, a), b)
    decreases |a|
  {
    if a == [] {
      assert a + b == b;
    } else {
      assert (a + b)[0] == a[0] && (a + b)[1..] == a[1..] + b;
      ExecConcat(Next(s, a[0]), a[1..], b);
    }
  }

  /** Of the given steps, those that keepalive calls can make when their turn comes. */
  ghost function Made(s: State, steps: seq<Label>): (r: seq<Label>)
    ensures Valid(s, r) && Quiet(r) && Exec(s, r).place == s.place
    decreases |steps|
  {
    if steps == [] then []
    else if !Own(steps[0]) && Enabled(s, steps[0]) then
      var rest := Made(Next(s, steps[0]), steps[1..]);
      Twice(s, steps[0], rest);
      [steps[0]] + rest
    else Made(s, steps[1..])
  }

  /** Calls that can make all their steps make them all. */
  lemma {:induction false} MadeAll(s: State, steps: seq<Label>)
    requires Valid(s, steps) && Quiet(steps)
    ensures Made(s, steps) == steps
    decreases |steps|
  {
    if steps != [] {
      assert steps[0] in steps && forall l :: l in steps[1..] ==> l in steps;
      MadeAll(Next(s, steps[0]), steps[1..]);
    }
  }

  /** What the listener's thread does itself once its accept has ended, with the calls in between. */
  ghost function Answer(s: State, r: Round): (ls: seq<Label>)
    requires s.place.Accepting?
    ensures Valid(s, ls)
  {
    match r.ending
    case Client => Around(s, Accept, r.between, Reset)
    case BadClient => Around(s, Accept, [], Refuse)
    case Failure => Once(s, Error); [Error]
    case Elapsed => if s.flag then Once(s, Timeout); [Timeout] else Around(s, Timeout, r.between, Unwrap)
  }

  /** One own step, calls, and another own step. */
  ghost function Around(s: State, first: Label, between: seq<Label>, last: Label): (ls: seq<Label>)
    requires Enabled(s, first) && forall t: State :: t.place == Next(s, first).place ==> Enabled(t, last)
    ensures Valid(s, ls)
  {
    var calls := Made(Next(s, first), between);
    Once(Exec(Next(s, first), calls), last);
    ExecConcat(Next(s, first), calls, [last]);
    Twice(s, first, calls + [last]);
    [first] + (calls + [last])
  }

  ghost function Handled(s: State, r: Round): (ls: seq<Label>)
    requires s.place.Accepting?
    ensures Valid(s, ls)
  {
    var calls := Made(s, r.waiting);
    ExecConcat(s, calls, Answer(Exec(s, calls), r));
    calls + Answer(Exec(s, calls), r)
  }

  /** The run that the rounds make: one after the other until one ends the loop. */
  ghost function Loop(s: State, rounds: seq<Round>): (ls: seq<Label>)
    ensures Valid(s, ls)
    decreases |rounds|
  {
    if rounds == [] || !s.place.Accepting? then []
    else
      var part := Handled(s, rounds[0]);
      ExecConcat(s, part, Loop(Exec(s, part), rounds[1..]));
      part + Loop(Exec(s, part), rounds[1..])
  }

  lemma {:induction false} LoopAppend(s: State, rounds: seq<Round>, r: Round)
    ensures var t := Exec(s, Loop(s, rounds));
            Loop(s, rounds + [r]) == Loop(s, rounds) + if t.place.Accepting? then Handled(t, r) else []
    decreases |rounds|
  {
    hide Handled, Valid;
    if rounds == [] {
      assert rounds + [r] == [r] && [r][1..] == [];
      if s.place.Accepting? { assert Loop(Exec(s, Handled(s, r)), []) == []; }
    } else if s.place.Accepting? {
      hide Exec;
      assert (rounds + [r])[0] == rounds[0] && (rounds + [r])[1..] == rounds[1..] + [r];
      var part := Handled(s, rounds[0]);
      var s1 := Exec(s, part);
      LoopAppend(s1, rounds[1..], r);
      ExecConcat(s, part, Loop(s1, rounds[1..]));
      var t := Exec(s1, Loop(s1, rounds[1..]));
      Assoc(part, Loop(s1, rounds[1..]), if t.place.Accepting? then Handled(t, r) else []);
    }
  }

  lemma {:induction false} Extend(s: State, ls: seq<Label>, l: Label)
    requires Valid(s, ls) && Enabled(Exec(s, ls), l)
    ensures Valid(s, ls + [l]) && Exec(s, ls + [l]) == Next(Exec(s, ls), l)
    decreases |ls|
  {
    if ls == [] {
      Once(s, l);
    } else {
      assert (ls + [l])[0] == ls[0] && (ls + [l])[1..] == ls[1..] + [l];
      Extend(Next(s, ls[0]), ls[1..], l);
    }
  }

  /** The trace is a run of the protocol, and the flag stands as the run leaves it. */
  ghost predicate Follows(trace: seq<Label>, now: State) {
    Valid(START, trace) && Exec(START, trace) == now
  }

  lemma FollowsAll(trace: seq<Label>, now: State, ls: seq<Label>)
    requires Follows(trace, now) && Valid(now, ls)
    ensures Follows(trace + ls, Exec(now, ls))
  {
    ExecConcat(START, trace, ls);
  }

  method Others(flag: Flag, place: Place, steps: seq<Label>) returns (calls: seq<Label>)
    modifies flag
    ensures calls == Made(old(flag.View(place)), steps)
    ensures flag.View(place) == Exec(old(flag.View(place)), calls)
  {
    calls := [];
    ghost var s := flag.View(place);
    assert [] + Made(s, steps) == Made(s, steps);
    for i := 0 to |steps|
      invariant Valid(s, calls) && flag.View(place) == Exec(s, calls)
      invariant Made(s, steps) == calls + Made(flag.View(place), steps[i..])
    {
      ghost var now := flag.View(place);
      assert steps[i..][0] == steps[i] && steps[i..][1..] == steps[i + 1..];
      var made := flag.Call(steps[i], place);
      if made {
        Assoc(calls, [steps[i]], Made(flag.View(place), steps[i + 1..]));
        Extend(s, calls, steps[i]);
        calls := calls + [steps[i]];
      }
    }
  }

  /** One round, from the end of its accept on. */
  method Serve(flag: Flag, r: Round) returns (place: Place, ls: seq<Label>)
    modifies flag
    ensures ls == Answer(old(flag.View(Accepting)), r)
    ensures flag.View(place) == Exec(old(flag.View(Accepting)), ls)
  {
    ghost var s := flag.View(Accepting);
    match r.ending {
      case Client =>
        Once(s, Accept);
        var calls := Others(flag, Accepted, r.between);
        AroundExec(s, Accept, r.between, Reset);
        flag.Clear();
        return Accepting, [Accept] + (calls + [Reset]);
      case BadClient =>
        AroundExec(s, Accept, [], Refuse);
        flag.Release();
        return Errored, [Accept] + ([] + [Refuse]);
      case Elapsed =>
        Once(s, Timeout);
        var kept := flag.Swap();
        if kept { return Accepting, [Timeout]; }
        var calls := Others(flag, Swapped, r.between);
        AroundExec(s, Timeout, r.between, Unwrap);
        var sole := flag.TryUnwrap();
        return if sole then TimedOut else Accepting, [Timeout] + (calls + [Unwrap]);
      case Failure =>
        Once(s, Error);
        flag.Release();
        return Errored, [Error];
    }
  }

  lemma AroundExec(s: State, first: Label, between: seq<Label>, last: Label)
    requires Enabled(s, first) && forall t: State :: t.place == Next(s, first).place ==> Enabled(t, last)
    ensures var mid := Exec(Next(s, first), Made(Next(s, first), between));
            Enabled(mid, last) && Exec(s, Around(s, first, between, last)) == Next(mid, last)
  {
    var calls := Made(Next(s, first), between);
    Once(Exec(Next(s, first), calls), last);
    ExecConcat(Next(s, first), calls, [last]);
    Twice(s, first, calls + [last]);
  }

  /**
   Whatever the accepts and the keepalive calls do, the loop makes the run of the protocol that its rounds dictate,
   each of them until one ends it.
   */
  method Run(flag: Flag, rounds: seq<Round>) returns (place: Place, trace: seq<Label>)
    requires flag.View(Accepting) == START
    modifies flag
    ensures trace == Loop(START, rounds) && Follows(trace, flag.View(place))
  {
    place, trace := Accepting, [];
    assert [] + Loop(START, rounds) == Loop(START, rounds);
    for i := 0 to |rounds|
      invariant place.Accepting? && Follows(trace, flag.View(Accepting))
      invariant Loop(START, rounds) == trace + Loop(flag.View(Accepting), rounds[i..])
    {
      hide Answer, Loop, Follows, Handled, Exec, Valid, Made;
      ghost var s := flag.View(Accepting);
      assert rounds[i..][0] == rounds[i] && rounds[i..][1..] == rounds[i + 1..];
      var calls := Others(flag, Accepting, rounds[i].waiting);
      var ls;
      place, ls := Serve(flag, rounds[i]);
      RoundDone(s, rounds[i..], trace);
      trace := trace + (calls + ls);
      if !place.Accepting? { return; }
    }
  }

  /** How the run goes on after one round. */
  lemma RoundDone(s: State, rounds: seq<Round>, trace: seq<Label>)
    requires rounds != [] && s.place.Accepting? && Follows(trace, s)
    ensures var part := Handled(s, rounds[0]);
            var calls := Made(s, rounds[0].waiting);
            && part == calls + Answer(Exec(s, calls), rounds[0])
            && Exec(s, part) == Exec(Exec(s, calls), Answer(Exec(s, calls), rounds[0]))
            && Follows(trace + part, Exec(s, part))
            && (!Exec(s, part).place.Accepting? ==> trace + Loop(s, rounds) == trace + part)
            && trace + Loop(s, rounds) == (trace + part) + Loop(Exec(s, part), rounds[1..])
  {
    hide Valid, Exec, Answer;
    var calls := Made(s, rounds[0].waiting);
    ExecConcat(s, calls, Answer(Exec(s, calls), rounds[0]));
    hide Handled;
    FollowsAll(trace, s, Handled(s, rounds[0]));
    Assoc(trace, Handled(s, rounds[0]), Loop(Exec(s, Handled(s, rounds[0])), rounds[1..]));
  }

  // ---------------------------------------------------------------- what each round adds

  /** The loop is still running after the given rounds, and has seen the calls of the next accept. */
  ghost predicate Waited(rounds: seq<Round>, waiting: seq<Label>, ls: seq<Label>) {
    var done := Loop(START, rounds);
    Exec(START, done).place.Accepting? && ls == done + Made(Exec(START, done), waiting)
  }

  lemma Waits(rounds: seq<Round>, r: Round, ls: seq<Label>)
    requires Waited(rounds, r.waiting, ls)
    ensures Valid(START, ls) && Exec(START, ls).place.Accepting? && Exec(START, ls).flag == StoredLast(ls, false)
    ensures Loop(START, rounds + [r]) == ls + Answer(Exec(START, ls), r)
    ensures Exec(START, Loop(START, rounds + [r])) == Exec(Exec(START, ls), Answer(Exec(START, ls), r))
  {
    hide Valid, Exec, Answer, Loop, StoredLast;
    var done := Loop(START, rounds);
    var s := Exec(START, done);
    var calls := Made(s, r.waiting);
    ExecConcat(START, done, calls);
    FlagMeans(START, ls);
    LoopAppend(START, rounds, r);
    Assoc(done, calls, Answer(Exec(s, calls), r));
    ExecConcat(START, ls, Answer(Exec(START, ls), r));
  }

  /** A client makes the thread reset the flag once it has passed the client on. */
  lemma ClientRound(rounds: seq<Round>, r: Round, ls: seq<Label>) returns (calls: seq<Label>)
    requires Waited(rounds, r.waiting, ls) && r.ending.Client?
    ensures Valid(START, ls + [Accept]) && calls == Made(Exec(START, ls + [Accept]), r.between)
    ensures var all := Loop(START, rounds + [r]);
            Quiet(calls) && all == ls + ([Accept] + (calls + [Reset])) && Exec(START, all).place.Accepting?
  {
    Waits(rounds, r, ls);
    var s := Exec(START, ls);
    Extend(START, ls, Accept);
    calls := Made(Next(s, Accept), r.between);
    AroundExec(s, Accept, r.between, Reset);
  }

  /** An accept that fails, or a client that cannot be passed on, ends the loop with an error. */
  lemma ErrorRound(rounds: seq<Round>, r: Round, ls: seq<Label>)
    requires Waited(rounds, r.waiting, ls) && (r.ending.BadClient? || r.ending.Failure?)
    ensures var all := Loop(START, rounds + [r]);
            && all == ls + (if r.ending.Failure? then [Error] else [Accept, Refuse])
            && Exec(START, all).place.Errored?
  {
    Waits(rounds, r, ls);
    var s := Exec(START, ls);
    if r.ending.Failure? {
      Once(s, Error);
    } else {
      AroundExec(s, Accept, [], Refuse);
      assert [Accept] + ([] + [Refuse]) == [Accept, Refuse];
    }
  }

  /**
   A timeout ends the loop if, and only if, no store is newer than the last reset and no call is mid-way at the
   try_unwrap.
   */
  lemma ElapsedRound(rounds: seq<Round>, r: Round, ls: seq<Label>) returns (calls: seq<Label>)
    requires Waited(rounds, r.waiting, ls) && r.ending.Elapsed?
    ensures Valid(START, ls + [Timeout]) && calls == Made(Exec(START, ls + [Timeout]), r.between)
    ensures var all := Loop(START, rounds + [r]);
            && Valid(START, ls + ([Timeout] + calls)) && Quiet(calls)
            && (StoredLast(ls, false) ==> all == ls + [Timeout] && Exec(START, all).place.Accepting?)
            && (!StoredLast(ls, false) ==>
                  && all == ls + ([Timeout] + (calls + [Unwrap]))
                  && Exec(START, all).place
                     == if Exec(START, ls + ([Timeout] + calls)).calls == map[] then TimedOut else Accepting)
  {
    Waits(rounds, r, ls);
    var s := Exec(START, ls);
    Extend(START, ls, Timeout);
    calls := Made(Next(s, Timeout), r.between);
    Twice(s, Timeout, calls);
    ExecConcat(START, ls, [Timeout] + calls);
    if !s.flag {
      AroundExec(s, Timeout, r.between, Unwrap);
      CountedRun(START, ls + ([Timeout] + calls));
    }
  }

  /** With no call in the window, a timeout closes a listener exactly when nobody has kept it alive since the reset. */
  lemma IdleCloses(rounds: seq<Round>, r: Round, ls: seq<Label>)
    requires Waited(rounds, r.waiting, ls) && r.ending.Elapsed? && r.between == []
    ensures Exec(START, Loop(START, rounds + [r])).place.TimedOut? <==>
              !StoredLast(ls, false) && Valid(START, ls) && Exec(START, ls).calls == map[]
  {
    hide Loop, StoredLast;
    Waits(rounds, r, ls);
    var calls := ElapsedRound(rounds, r, ls);
    Extend(START, ls, Timeout);
    assert calls == [] && [Timeout] + [] == [Timeout];
  }
}
