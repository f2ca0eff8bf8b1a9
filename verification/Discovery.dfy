/** The LAN discovery packet: a list of elements, each a name in brackets, a value and a closing tag. */
module Discovery {
  import opened Basics

  const OPEN: byte := 91    // [
  const CLOSE: byte := 93   // ]
  const SLASH: byte := 47   // /
  const PLUS: byte := 43
  const ZERO: byte := 48
  const MOTD: Bytes := [77, 79, 84, 68]
  const AD: Bytes := [65, 68]
  const MAX_MOTD_LEN := 256
  const MAX_PACKET_SIZE := 1500
  const SEND_BUFFER_SIZE := 1500

  datatype Element = Element(name: Bytes, value: Bytes)

  // ---------------------------------------------------------------- parsing one element

  /** The longest prefix without a closing bracket ends here. */
  function NameEnd(b: Bytes): (r: nat)
    ensures r <= |b| && CLOSE !in b[..r] && (r < |b| ==> b[r] == CLOSE)
  {
    if b == [] || b[0] == CLOSE then 0
    else
      var r := 1 + NameEnd(b[1..]);
      assert b[..r] == [b[0]] + b[1..][..r - 1];
      r
  }

  predicate TagAt(b: Bytes, i: nat) {
    i + 1 < |b| && b[i] == OPEN && b[i + 1] == SLASH
  }

  ghost predicate HasTag(b: Bytes) {
    exists i: nat :: TagAt(b, i)
  }

  /** Where the first closing tag starts. */
  function FindTag(b: Bytes): (r: Option<nat>)
    ensures r.Some? ==> TagAt(b, r.value) && forall i: nat :: i < r.value ==> !TagAt(b, i)
    ensures r.None? ==> forall i: nat :: !TagAt(b, i)
  {
    if |b| < 2 then None
    else if TagAt(b, 0) then Some(0)
    else
      var r := FindTag(b[1..]);
      assert forall i: nat :: i > 0 && TagAt(b, i) ==> TagAt(b[1..], i - 1);
      assert forall i: nat :: TagAt(b[1..], i) ==> TagAt(b, i + 1);
      if r.None? then None else Some(r.value + 1)
  }

  // What a parser took off the head of its input, and the rest.
  datatype Taken = Taken(taken: Bytes, rest: Bytes)

  datatype Parsed = Parsed(element: Element, rest: Bytes)

  /** A name in brackets, of at least one byte. */
  function ParseName(b: Bytes): (r: Option<Taken>)
    ensures r.Some? ==> |r.value.rest| < |b|
  {
    if b == [] || b[0] != OPEN then None
    else
      var end := NameEnd(b[1..]);
      if end == 0 || end == |b[1..]| then None
      else Some(Taken(b[1..][..end], b[1..][end + 1..]))
  }

  /** Everything before the first closing tag. */
  function ParseValue(b: Bytes): (r: Option<Taken>)
    ensures r.Some? ==> |r.value.rest| <= |b|
  {
    var tag := FindTag(b);
    if tag.None? then None else Some(Taken(b[..tag.value], b[tag.value..]))
  }

  /** The rest after the closing tag of the given name. */
  function ParseClose(b: Bytes, name: Bytes): (r: Option<Bytes>)
    ensures r.Some? ==> |r.value| <= |b|
  {
    var tag := [OPEN, SLASH] + (name + [CLOSE]);
    if |b| >= |tag| && b[..|tag|] == tag then Some(b[|tag|..]) else None
  }

  function ParseElement(b: Bytes): (r: Option<Parsed>)
    ensures r.Some? ==> |r.value.rest| < |b|
  {
    var name := ParseName(b);
    if name.None? then None
    else
      var value := ParseValue(name.value.rest);
      if value.None? then None
      else
        var rest := ParseClose(value.value.rest, name.value.taken);
        if rest.None? then None else Some(Parsed(Element(name.value.taken, value.value.taken), rest.value))
  }

  // ---------------------------------------------------------------- what it means

  ghost predicate WellFormed(e: Element) {
    e.name != [] && CLOSE !in e.name && !HasTag(e.value)
  }

  /** The printed form of an element, followed by `rest`. */
  function PrintTo(e: Element, rest: Bytes): Bytes {
    [OPEN] + (e.name + ([CLOSE] + (e.value + ([OPEN, SLASH] + (e.name + ([CLOSE] + rest))))))
  }

  function Print(e: Element): Bytes {
    PrintTo(e, [])
  }

  lemma PrintThen(e: Element, rest: Bytes)
    ensures Print(e) + rest == PrintTo(e, rest)
  {
    var last := e.name + ([CLOSE] + []);
    assert last + rest == e.name + ([CLOSE] + rest);
    Assoc([OPEN, SLASH], last, rest);
    Assoc(e.value, [OPEN, SLASH] + last, rest);
    Assoc([CLOSE], e.value + ([OPEN, SLASH] + last), rest);
    Assoc(e.name, [CLOSE] + (e.value + ([OPEN, SLASH] + last)), rest);
    Assoc([OPEN], e.name + ([CLOSE] + (e.value + ([OPEN, SLASH] + last))), rest);
  }

  /** The printed form, piece by piece. */
  lemma PrintPieces(e: Element)
    ensures Print(e) == ([OPEN] + e.name + [CLOSE] + e.value) + ([OPEN, SLASH] + e.name + [CLOSE])
  {}

  lemma Cut(a: Bytes, b: Bytes)
    ensures (a + b)[..|a|] == a && (a + b)[|a|..] == b
  {}

  lemma Rejoin(b: Bytes, i: nat)
    requires i <= |b|
    ensures b == b[..i] + b[i..]
  {}

  lemma NameEndIs(name: Bytes, rest: Bytes)
    requires CLOSE !in name
    ensures NameEnd(name + ([CLOSE] + rest)) == |name|
  {
    var b := name + ([CLOSE] + rest);
    assert b[|name|] == CLOSE && b[..|name|] == name;
    assert forall i :: 0 <= i < |name| ==> b[i] == name[i];
  }

  lemma FindTagIs(value: Bytes, rest: Bytes)
    requires !HasTag(value)
    ensures FindTag(value + ([OPEN, SLASH] + rest)) == Some(|value|)
  {
    var b := value + ([OPEN, SLASH] + rest);
    assert TagAt(b, |value|);
    forall i: nat | i < |value| ensures !TagAt(b, i) {
      assert !TagAt(value, i);
      assert b[i] == value[i] && b[i + 1] == if i + 1 < |value| then value[i + 1] else OPEN;
    }
  }

  lemma NameTaken(name: Bytes, rest: Bytes)
    requires name != [] && CLOSE !in name
    ensures ParseName([OPEN] + (name + ([CLOSE] + rest))) == Some(Taken(name, rest))
  {
    hide NameEnd;
    Cut([OPEN], name + ([CLOSE] + rest));
    NameEndIs(name, rest);
    Cut(name, [CLOSE] + rest);
    Assoc(name, [CLOSE], rest);
    Cut(name + [CLOSE], rest);
  }

  lemma NameGiven(b: Bytes)
    requires ParseName(b).Some?
    ensures var t := ParseName(b).value;
            t.taken != [] && CLOSE !in t.taken && b == [OPEN] + (t.taken + ([CLOSE] + t.rest))
  {
    hide NameEnd;
    var end := NameEnd(b[1..]);
    Rejoin(b, 1);
    Rejoin(b[1..], end);
    assert b[1..][end..] == [CLOSE] + b[1..][end + 1..];
  }

  lemma NameExact(b: Bytes, name: Bytes, rest: Bytes)
    ensures ParseName(b) == Some(Taken(name, rest)) <==>
              name != [] && CLOSE !in name && b == [OPEN] + (name + ([CLOSE] + rest))
  {
    hide ParseName;
    if name != [] && CLOSE !in name { NameTaken(name, rest); }
    if ParseName(b).Some? { NameGiven(b); }
  }

  lemma ValueExact(b: Bytes, value: Bytes, rest: Bytes)
    ensures ParseValue(b) == Some(Taken(value, [OPEN, SLASH] + rest)) <==>
              !HasTag(value) && b == value + ([OPEN, SLASH] + rest)
  {
    hide FindTag;
    if !HasTag(value) && b == value + ([OPEN, SLASH] + rest) {
      FindTagIs(value, rest);
      Cut(value, [OPEN, SLASH] + rest);
    }
    if ParseValue(b) == Some(Taken(value, [OPEN, SLASH] + rest)) {
      var tag := FindTag(b).value;
      Rejoin(b, tag);
      forall i: nat ensures !TagAt(value, i) {
        assert TagAt(value, i) ==> TagAt(b, i);
      }
    }
  }

  lemma CloseExact(b: Bytes, name: Bytes, rest: Bytes)
    ensures ParseClose(b, name) == Some(rest) <==> b == [OPEN, SLASH] + (name + ([CLOSE] + rest))
  {
    var tag := [OPEN, SLASH] + (name + [CLOSE]);
    assert tag + rest == [OPEN, SLASH] + (name + ([CLOSE] + rest)) by {
      Assoc(name, [CLOSE], rest);
      Assoc([OPEN, SLASH], name + [CLOSE], rest);
    }
    if b == tag + rest { Cut(tag, rest); }
    if ParseClose(b, name) == Some(rest) { Rejoin(b, |tag|); }
  }

  lemma ParsePrinted(e: Element, rest: Bytes)
    requires WellFormed(e)
    ensures ParseElement(Print(e) + rest) == Some(Parsed(e, rest))
  {
    hide ParseName, ParseValue, ParseClose, Print, HasTag;
    PrintThen(e, rest);
    var after := e.name + ([CLOSE] + rest);
    CloseExact([OPEN, SLASH] + after, e.name, rest);
    ValueExact(e.value + ([OPEN, SLASH] + after), e.value, after);
    NameExact(PrintTo(e, rest), e.name, e.value + ([OPEN, SLASH] + after));
  }

  lemma ParsedPrints(b: Bytes)
    requires ParseElement(b).Some?
    ensures var p := ParseElement(b).value; WellFormed(p.element) && b == Print(p.element) + p.rest
  {
    hide ParseName, ParseValue, ParseClose, Print, HasTag;
    var p := ParseElement(b).value;
    var name := ParseName(b).value;
    var value := ParseValue(name.rest).value;
    var after := p.element.name + ([CLOSE] + p.rest);
    NameExact(b, name.taken, name.rest);
    CloseExact(value.rest, name.taken, p.rest);
    ValueExact(name.rest, value.taken, after);
    PrintThen(p.element, p.rest);
  }

  /** `element` inverts printing: it yields an element exactly when the input starts with its printed form. */
  lemma ElementExact(b: Bytes, e: Element, rest: Bytes)
    ensures ParseElement(b) == Some(Parsed(e, rest)) <==> WellFormed(e) && b == Print(e) + rest
  {
    if ParseElement(b).Some? { ParsedPrints(b); }
    if WellFormed(e) { ParsePrinted(e, rest); }
  }

  // ---------------------------------------------------------------- the list of elements

  datatype Split = Split(elements: seq<Element>, rest: Bytes)

  function SplitElements(b: Bytes): Split
    decreases |b|
  {
    var p := ParseElement(b);
    if p.None? then Split([], b)
    else
      var s := SplitElements(p.value.rest);
      Split([p.value.element] + s.elements, s.rest)
  }

  function PrintAll(es: seq<Element>): Bytes {
    if es == [] then [] else Print(es[0]) + PrintAll(es[1..])
  }

  /** No well-formed element is printed at the head of the input. */
  ghost predicate StartsNone(b: Bytes) {
    forall e, rest :: WellFormed(e) ==> b != Print(e) + rest
  }

  ghost predicate AllWellFormed(es: seq<Element>) {
    forall e :: e in es ==> WellFormed(e)
  }

  lemma StartsNoneExact(b: Bytes)
    ensures StartsNone(b) <==> ParseElement(b).None?
  {
    if ParseElement(b).Some? {
      ParsedPrints(b);
    } else {
      forall e, rest | WellFormed(e) ensures b != Print(e) + rest { ElementExact(b, e, rest); }
    }
  }

  lemma {:induction false} SplitPrinted(es: seq<Element>, rest: Bytes)
    requires AllWellFormed(es) && StartsNone(rest)
    ensures SplitElements(PrintAll(es) + rest) == Split(es, rest)
  {
    hide ParseElement, Print, WellFormed, StartsNone;
    StartsNoneExact(rest);
    if es == [] {
      assert PrintAll(es) + rest == rest;
    } else {
      assert es[0] in es && forall e :: e in es[1..] ==> e in es;
      SplitPrinted(es[1..], rest);
      Assoc(Print(es[0]), PrintAll(es[1..]), rest);
      ParsePrinted(es[0], PrintAll(es[1..]) + rest);
    }
  }

  lemma {:induction false} SplitPrints(b: Bytes)
    ensures var s := SplitElements(b);
            AllWellFormed(s.elements) && StartsNone(s.rest) && b == PrintAll(s.elements) + s.rest
    decreases |b|
  {
    StartsNoneExact(b);
    var s := SplitElements(b);
    if ParseElement(b).Some? {
      var p := ParseElement(b).value;
      ParsedPrints(b);
      SplitPrints(p.rest);
      assert s.elements[1..] == SplitElements(p.rest).elements;
      Assoc(Print(p.element), PrintAll(s.elements[1..]), s.rest);
    } else {
      assert PrintAll([]) + b == b;
    }
  }

  /**
   The characterisation of the parser: for all bytes, `elements` splits the input into the printed form of a
   list of well-formed elements and a rest that starts none, and there is only one way to do that.
   */
  lemma SplitExact(b: Bytes, es: seq<Element>, rest: Bytes)
    ensures SplitElements(b) == Split(es, rest) <==> AllWellFormed(es) && StartsNone(rest) && b == PrintAll(es) + rest
  {
    SplitPrints(b);
    if AllWellFormed(es) && StartsNone(rest) { SplitPrinted(es, rest); }
  }

  // ---------------------------------------------------------------- the map of elements

  /** What the fold of inserts builds. */
  function Inserted(es: seq<Element>): map<Bytes, Bytes> {
    if es == [] then map[] else Inserted(es[..|es| - 1])[es[|es| - 1].name := es[|es| - 1].value]
  }

  ghost predicate LastNamed(es: seq<Element>, name: Bytes, i: nat) {
    i < |es| && es[i].name == name && forall j :: i < j < |es| ==> es[j].name != name
  }

  /** Of several elements with one name, the last wins; and nothing else is in the map. */
  lemma {:induction false} LastWins(es: seq<Element>, name: Bytes, value: Bytes)
    ensures name in Inserted(es) && Inserted(es)[name] == value <==>
              exists i: nat :: LastNamed(es, name, i) && es[i].value == value
  {
    if es != [] {
      var n := |es| - 1;
      LastWins(es[..n], name, value);
      if es[n].name == name {
        assert LastNamed(es, name, n);
        assert forall i: nat :: LastNamed(es, name, i) ==> i == n;
      } else {
        assert forall i: nat :: LastNamed(es[..n], name, i) ==> LastNamed(es, name, i) && es[i] == es[..n][i];
        assert forall i: nat :: LastNamed(es, name, i) ==> LastNamed(es[..n], name, i) && es[i] == es[..n][i];
      }
    }
  }

  lemma InsertedSnoc(es: seq<Element>, e: Element)
    ensures Inserted(es + [e]) == Inserted(es)[e.name := e.value]
  {
    assert (es + [e])[..|es|] == es;
  }

  /** What is left of the split after `done`, by whether another element follows. */
  lemma SplitNext(done: seq<Element>, b: Bytes)
    ensures var p, s := ParseElement(b), SplitElements(b);
            if p.None? then Split(done + s.elements, s.rest) == Split(done, b)
            else var t := SplitElements(p.value.rest);
                 Split(done + s.elements, s.rest) == Split((done + [p.value.element]) + t.elements, t.rest)
  {
    hide ParseElement;
    var p := ParseElement(b);
    if p.Some? { Assoc(done, [p.value.element], SplitElements(p.value.rest).elements); }
  }

  /** The loop of `elements`: parses as long as it can and inserts as it goes. */
  method Elements(input: Bytes) returns (rest: Bytes, m: map<Bytes, Bytes>)
    ensures rest == SplitElements(input).rest && m == Inserted(SplitElements(input).elements)
  {
    rest, m := input, map[];
    ghost var done: seq<Element> := [];
    assert [] + SplitElements(input).elements == SplitElements(input).elements;
    hide ParseElement, SplitElements, Inserted;
    while true
      invariant m == Inserted(done)
      invariant SplitElements(input) == Split(done + SplitElements(rest).elements, SplitElements(rest).rest)
      decreases |rest|
    {
      SplitNext(done, rest);
      var p := ParseElement(rest);
      if p.None? { return; }
      var e := p.value.element;
      InsertedSnoc(done, e);
      done := done + [e];
      rest, m := p.value.rest, m[e.name := e.value];
    }
  }
}
