/** The handshake that two relays run over a fresh connection, each in its own loop. */
module Handshake {
  import opened Basics
  import opened Framing

  // An alternating pattern of `length` messages; `text(i)` is message number `i`. The initiator sends the even ones.
  datatype Pattern = Pattern(length: nat, text: nat -> Bytes)

  ghost predicate WellFormed(h: Pattern) {
    forall i :: |h.text(i)| <= 65535
  }

  predicate Mine(initiator: bool, i: nat) {
    (i % 2 == 0) == initiator
  }

  function Frame(h: Pattern, i: nat): Bytes {
    U16(|h.text(i)|) + h.text(i)
  }

  /** The frames of messages `i` and later that the given side sends, in order. */
  function Sent(h: Pattern, initiator: bool, i: nat): Bytes
    decreases h.length - i
  {
    if i >= h.length then []
    else (if Mine(initiator, i) then Frame(h, i) else []) + Sent(h, initiator, i + 1)
  }

  // ---------------------------------------------------------------- two loops and the bytes between them

  // Where a loop stands: at its head, reading a length, reading that many bytes, or out of the loop.
  datatype Place = Head | Length | Body(len: nat) | Finished | Failed

  datatype Side = Side(at: nat, place: Place)

  // `toLeft` and `toRight` hold the bytes on their way; the left side is the initiator.
  datatype Pair = Pair(left: Side, right: Side, toLeft: Bytes, toRight: Bytes)

  const START := Pair(Side(0, Head), Side(0, Head), [], [])

  /** The side has a step to make: it waits only when it reads and too little has arrived. */
  predicate Ready(s: Side, input: Bytes) {
    match s.place
    case Head => true
    case Length => |input| >= 2
    case Body(len) => |input| >= len
    case Finished => false
    case Failed => false
  }

  predicate Waits(s: Side, input: Bytes) {
    (s.place.Length? || s.place.Body?) && !Ready(s, input)
  }

  datatype Move = Move(side: Side, read: nat, write: Bytes)

  function Step(h: Pattern, initiator: bool, s: Side, input: Bytes): (m: Move)
    requires Ready(s, input)
    ensures m.read <= |input|
  {
    match s.place
    case Head =>
      if s.at >= h.length then Move(Side(s.at, Finished), 0, [])
      else if Mine(initiator, s.at) then
        Move(Side(s.at + 1, if s.at + 1 >= h.length then Head else Length), 0, Frame(h, s.at))
      else Move(Side(s.at, Length), 0, [])
    case Length => Move(Side(s.at, Body(FromU16(input[0], input[1]))), 2, [])
    case Body(len) =>
      if input[..len] == h.text(s.at) && !Mine(initiator, s.at)
      then Move(Side(s.at + 1, Head), len, [])
      else Move(Side(s.at, Failed), len, [])
  }

  function Next(h: Pattern, p: Pair, left: bool): Pair
    requires if left then Ready(p.left, p.toLeft) else Ready(p.right, p.toRight)
  {
    if left then
      var m := Step(h, true, p.left, p.toLeft);
      Pair(m.side, p.right, p.toLeft[m.read..], p.toRight + m.write)
    else
      var m := Step(h, false, p.right, p.toRight);
      Pair(p.left, m.side, p.toLeft + m.write, p.toRight[m.read..])
  }

  ghost predicate Valid(h: Pattern, p: Pair, moves: seq<bool>)
    decreases |moves|
  {
    moves == [] ||
    ((if moves[0] then Ready(p.left, p.toLeft) else Ready(p.right, p.toRight))
     && Valid(h, Next(h, p, moves[0]), moves[1..]))
  }

  ghost function Exec(h: Pattern, p: Pair, moves: seq<bool>): Pair
    requires Valid(h, p, moves)
    decreases |moves|
  {
    if moves == [] then p else Exec(h, Next(h, p, moves[0]), moves[1..])
  }

  // ---------------------------------------------------------------- the invariant

  /** What is on its way to a side that stands at `s`, when the other side has dealt with `other` messages. */
  ghost predicate Incoming(h: Pattern, s: Side, other: nat, input: Bytes) {
    match s.place
    case Body(len) => other == s.at + 1 && len == |h.text(s.at)| && input == h.text(s.at)
    case _ => input == if other == s.at + 1 then Frame(h, s.at) else []
  }

  ghost predicate SideOk(h: Pattern, initiator: bool, s: Side) {
    && s.at <= h.length && !s.place.Failed?
    && (s.place.Length? || s.place.Body? ==> s.at < h.length && !Mine(initiator, s.at))
    && (s.place.Finished? ==> s.at == h.length)
  }

  /** The sides are at most one message apart, and the one ahead has sent it. */
  ghost predicate InStep(initiator: bool, at: nat, other: nat) {
    at == other || (at == other + 1 && Mine(initiator, other)) || (other == at + 1 && !Mine(initiator, at))
  }

  ghost predicate Inv(h: Pattern, p: Pair) {
    && SideOk(h, true, p.left) && SideOk(h, false, p.right) && InStep(true, p.left.at, p.right.at)
    && Incoming(h, p.left, p.right.at, p.toLeft) && Incoming(h, p.right, p.left.at, p.toRight)
  }

  lemma FrameHead(h: Pattern, i: nat)
    requires WellFormed(h)
    ensures var f := Frame(h, i); |f| >= 2 && FromU16(f[0], f[1]) == |h.text(i)| && f[2..] == h.text(i)
  {
    U16RoundTrip(|h.text(i)|);
  }

  lemma Alternates(initiator: bool, i: nat)
    ensures Mine(initiator, i + 1) == !Mine(initiator, i) && Mine(!initiator, i) == !Mine(initiator, i)
  {}

  /** A step of one side `s` against the other side `o`, with `output` on its way to `o`. */
  lemma SideStep(h: Pattern, initiator: bool, s: Side, input: Bytes, o: Side, output: Bytes)
    requires WellFormed(h) && Ready(s, input)
    requires SideOk(h, initiator, s) && SideOk(h, !initiator, o) && InStep(initiator, s.at, o.at)
    requires Incoming(h, s, o.at, input) && Incoming(h, o, s.at, output)
    ensures var m := Step(h, initiator, s, input);
            && SideOk(h, initiator, m.side) && InStep(initiator, m.side.at, o.at)
            && Incoming(h, m.side, o.at, input[m.read..]) && Incoming(h, o, m.side.at, output + m.write)
  {
    hide U16, FromU16, Frame, Mine;
    Alternates(initiator, s.at);
    Alternates(initiator, o.at);
    FrameHead(h, s.at);
    var m := Step(h, initiator, s, input);
    match s.place {
      case Head =>
        assert input[0..] == input && output + [] == output && [] + m.write == m.write;
      case Length =>
        assert output + [] == output;
      case Body(len) =>
        assert input[..len] == input && input[len..] == [] && output + [] == output;
    }
  }

  lemma InvStep(h: Pattern, p: Pair, left: bool)
    requires WellFormed(h) && Inv(h, p)
    requires if left then Ready(p.left, p.toLeft) else Ready(p.right, p.toRight)
    ensures Inv(h, Next(h, p, left))
  {
    hide Incoming, Step, SideOk, Ready;
    if left {
      SideStep(h, true, p.left, p.toLeft, p.right, p.toRight);
    } else {
      SideStep(h, false, p.right, p.toRight, p.left, p.toLeft);
    }
  }

  /** No deadlock: unless both have finished, one side has a step to make. */
  lemma Progress(h: Pattern, p: Pair)
    requires WellFormed(h) && Inv(h, p)
    ensures !(Waits(p.left, p.toLeft) && Waits(p.right, p.toRight))
    ensures Ready(p.left, p.toLeft) || Ready(p.right, p.toRight) || (p.left.place.Finished? && p.right.place.Finished?)
  {
    hide U16, FromU16, Frame;
    FrameHead(h, p.left.at);
    FrameHead(h, p.right.at);
  }

  function Rank(h: Pattern, s: Side): nat {
    if s.at > h.length then 0
    else 3 * (h.length - s.at) + match s.place
      case Head => 2
      case Length => 1
      case _ => 0
  }

  lemma StepDecreases(h: Pattern, p: Pair, left: bool)
    requires WellFormed(h) && Inv(h, p)
    requires if left then Ready(p.left, p.toLeft) else Ready(p.right, p.toRight)
    ensures var p' := Next(h, p, left);
            Rank(h, p'.left) + Rank(h, p'.right) < Rank(h, p.left) + Rank(h, p.right)
  {
    hide U16, FromU16, Frame;
    FrameHead(h, p.left.at);
    FrameHead(h, p.right.at);
  }

  lemma {:induction false} InvRun(h: Pattern, p: Pair, moves: seq<bool>)
    requires WellFormed(h) && Inv(h, p) && Valid(h, p, moves)
    ensures var e := Exec(h, p, moves);
            Inv(h, e) && |moves| + Rank(h, e.left) + Rank(h, e.right) <= Rank(h, p.left) + Rank(h, p.right)
    decreases |moves|
  {
    if moves != [] {
      InvStep(h, p, moves[0]);
      StepDecreases(h, p, moves[0]);
      InvRun(h, Next(h, p, moves[0]), moves[1..]);
    }
  }

  /**
   Handshake progress, for alternating patterns of any length and every interleaving of the two loops: neither
   fails, they never both wait, a run that can go no further has both finished with every byte consumed, and no
   run is longer than 6 * length + 4 steps.
   */
  lemma HandshakeProgress(h: Pattern, moves: seq<bool>)
    requires WellFormed(h) && Valid(h, START, moves)
    ensures var p := Exec(h, START, moves);
            && !p.left.place.Failed? && !p.right.place.Failed?
            && !(Waits(p.left, p.toLeft) && Waits(p.right, p.toRight))
            && (!Ready(p.left, p.toLeft) && !Ready(p.right, p.toRight) ==>
                  p == Pair(Side(h.length, Finished), Side(h.length, Finished), [], []))
            && |moves| <= 6 * h.length + 4
  {
    InvRun(h, START, moves);
    Progress(h, Exec(h, START, moves));
  }

  // ---------------------------------------------------------------- one side's loop

  /** What the sides send from message `i` on, by whose turn it is. */
  lemma SentStep(h: Pattern, initiator: bool, i: nat)
    requires i < h.length
    ensures Mine(initiator, i) ==>
              Sent(h, initiator, i) == Frame(h, i) + Sent(h, initiator, i + 1)
              && Sent(h, !initiator, i) == Sent(h, !initiator, i + 1)
    ensures !Mine(initiator, i) ==>
              Sent(h, !initiator, i) == Frame(h, i) + Sent(h, !initiator, i + 1)
              && Sent(h, initiator, i) == Sent(h, initiator, i + 1)
  {}

  /** Reads the frame of message `i` at `read`, if it is all there and is that message. */
  method ReadFrame(h: Pattern, i: nat, input: Bytes, read: nat) returns (ok: bool, next: nat)
    requires WellFormed(h) && read <= |input|
    ensures ok ==> read <= next <= |input| && input[..next] == input[..read] + Frame(h, i)
    ensures forall rest :: IsPrefix((input[..read] + Frame(h, i)) + rest, input) ==> ok
  {
    ok, next := false, read;
    FrameHead(h, i);
    forall rest | IsPrefix((input[..read] + Frame(h, i)) + rest, input)
      ensures |input| - read >= |Frame(h, i)| && input[read..read + |Frame(h, i)|] == Frame(h, i)
    {
      NextFrame(h, i, input, read, rest);
    }
    if |input| - read < 2 { return; }
    var len := FromU16(input[read], input[read + 1]);
    if |input| - read < 2 + len { return; }
    if input[read + 2..read + 2 + len] != h.text(i) { return; }
    ok, next := true, read + 2 + len;
    SameHead(h, i, input[read], input[read + 1]);
    assert input[..next] == input[..read] + [input[read], input[read + 1]] + h.text(i);
  }

  lemma SameHead(h: Pattern, i: nat, hi: byte, lo: byte)
    requires WellFormed(h) && FromU16(hi, lo) == |h.text(i)|
    ensures Frame(h, i) == [hi, lo] + h.text(i)
  {}

  /**
   The loop of one side, over what the other side sends and whatever follows it on the stream. `at` is the number
   of messages that it got through: it has written its own among those and read the other side's, and stops short only
   at a message of the other side that the stream does not hold.
   */
  method HandshakeLoop(h: Pattern, initiator: bool, input: Bytes)
    returns (done: bool, at: nat, output: Bytes, read: nat)
    requires WellFormed(h)
    ensures IsPrefix(Sent(h, !initiator, 0), input) <==> done
    ensures done ==> at == h.length && read == |Sent(h, !initiator, 0)| && output == Sent(h, initiator, 0)
    ensures at <= h.length && read <= |input|
    ensures Sent(h, initiator, 0) == output + Sent(h, initiator, at)
    ensures Sent(h, !initiator, 0) == input[..read] + Sent(h, !initiator, at)
    ensures !done ==> at < h.length && !Mine(initiator, at) && !IsPrefix(input[..read] + Frame(h, at), input)
  {
    hide Frame, Mine, Sent;
    done, at, output, read := false, 0, [], 0;
    while at < h.length
      invariant 0 <= at <= h.length && read <= |input|
      invariant Sent(h, initiator, 0) == output + Sent(h, initiator, at)
      invariant Sent(h, !initiator, 0) == input[..read] + Sent(h, !initiator, at)
      decreases h.length - at
    {
      if Mine(initiator, at) {
        SentStep(h, initiator, at);
        Alternates(initiator, at);
        Assoc(output, Frame(h, at), Sent(h, initiator, at + 1));
        output := output + Frame(h, at);
        at := at + 1;
      }
      if at < h.length {
        SentStep(h, initiator, at);
        Assoc(input[..read], Frame(h, at), Sent(h, !initiator, at + 1));
        Alternates(initiator, at);
        var ok, next := ReadFrame(h, at, input, read);
        if !ok {
          assert (input[..read] + Frame(h, at)) + [] == input[..read] + Frame(h, at);
          return;
        }
        read := next;
        at := at + 1;
      }
    }
    done := true;
    SentEnd(h, initiator);
  }

  lemma SentEnd(h: Pattern, initiator: bool)
    ensures Sent(h, initiator, h.length) == [] && Sent(h, !initiator, h.length) == []
  {}

  /** If the stream goes on as expected, the next frame stands at `read`. */
  lemma NextFrame(h: Pattern, i: nat, input: Bytes, read: nat, rest: Bytes)
    requires WellFormed(h) && read <= |input| && IsPrefix((input[..read] + Frame(h, i)) + rest, input)
    ensures |input| - read >= |Frame(h, i)| && input[read..read + |Frame(h, i)|] == Frame(h, i)
  {
    var whole := (input[..read] + Frame(h, i)) + rest;
    assert input[read..read + |Frame(h, i)|] == whole[read..read + |Frame(h, i)|];
  }
}
