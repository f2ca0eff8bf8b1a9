/** Shared value types: optional values, bytes and the prefix order on sequences. */
module Basics {

  datatype Option<+T> = None | Some(value: T)

  type byte = x: int | 0 <= x < 256

  type Bytes = seq<byte>

  ghost predicate IsPrefix<T>(a: seq<T>, b: seq<T>) {
    |a| <= |b| && a == b[..|a|]
  }

  lemma Assoc<T>(a: seq<T>, b: seq<T>, c: seq<T>)
    ensures (a + b) + c == a + (b + c)
  {}

  lemma PrefixTrans<T>(a: seq<T>, b: seq<T>, c: seq<T>)
    requires IsPrefix(a, b) && IsPrefix(b, c)
    ensures IsPrefix(a, c)
  {
    assert a == c[..|b|][..|a|] == c[..|a|];
  }

  /** The bytes carried by a list of chunks, in order. */
  function Flat(chunks: seq<Bytes>): Bytes {
    if chunks == [] then [] else chunks[0] + Flat(chunks[1..])
  }

  lemma {:induction false} FlatConcat(a: seq<Bytes>, b: seq<Bytes>)
    ensures Flat(a + b) == Flat(a) + Flat(b)
  {
    if a == [] {
      assert a + b == b;
    } else {
      assert (a + b)[1..] == a[1..] + b;
      FlatConcat(a[1..], b);
    }
  }

  lemma FlatPrefix(a: seq<Bytes>, b: seq<Bytes>)
    requires IsPrefix(a, b)
    ensures IsPrefix(Flat(a), Flat(b))
  {
    assert b == a + b[|a|..];
    FlatConcat(a, b[|a|..]);
  }

  /** Overwrites part of a buffer. */
  method Copy(a: array<byte>, at: nat, data: Bytes)
    requires at + |data| <= a.Length
    modifies a
    ensures a[..] == old(a[..at]) + data + old(a[at + |data|..])
  {
    for i := 0 to |data|
      invariant a[..] == old(a[..at]) + data[..i] + old(a[at + i..])
    {
      a[at + i] := data[i];
    }
  }
}
