/** The assumption `JsonLaws` of EventJournal can be met by a small code. */
module EventCodecWitness {
  // The code is self-delimiting: every writer puts its own code in front of `tail`.  JSON itself is not
  // modelled; this code only shows that the laws do not contradict each other.

  import opened Common
  import opened EventJournal

  function Unary(n: nat, tail: seq<byte>): seq<byte> {
    if n == 0 then [2] + tail else [1] + Unary(n - 1, tail)
  }

  function Number(i: int, tail: seq<byte>): seq<byte> {
    if i < 0 then [3] + Unary(-i, tail) else [4] + Unary(i, tail)
  }

  function Text(s: string, tail: seq<byte>): seq<byte> {
    if s == [] then [5] + tail else [6] + Unary(s[0] as int, Text(s[1..], tail))
  }

  function Encode(e: Event, tail: seq<byte>): seq<byte> {
    Text(e.draft.uri, Text(e.draft.body, Number(e.sequence, Number(e.revision, tail))))
  }

  lemma SameHead(a: byte, x: seq<byte>, b: byte, y: seq<byte>)
    requires [a] + x == [b] + y
    ensures a == b && x == y
  {
    assert ([a] + x)[0] == a && ([b] + y)[0] == b;
    assert ([a] + x)[1..] == x && ([b] + y)[1..] == y;
  }

  lemma {:induction false} UnaryDecodes(n: nat, x: seq<byte>, m: nat, y: seq<byte>)
    requires Unary(n, x) == Unary(m, y)
    ensures n == m && x == y
  {
    SameHead(if n == 0 then 2 else 1, if n == 0 then x else Unary(n - 1, x),
             if m == 0 then 2 else 1, if m == 0 then y else Unary(m - 1, y));
    if n > 0 { UnaryDecodes(n - 1, x, m - 1, y); }
  }

  lemma NumberDecodes(i: int, x: seq<byte>, j: int, y: seq<byte>)
    requires Number(i, x) == Number(j, y)
    ensures i == j && x == y
  {
    var n, m := if i < 0 then -i else i, if j < 0 then -j else j;
    SameHead(if i < 0 then 3 else 4, Unary(n, x), if j < 0 then 3 else 4, Unary(m, y));
    UnaryDecodes(n, x, m, y);
  }

  lemma {:induction false} TextDecodes(s: string, x: seq<byte>, t: string, y: seq<byte>)
    requires Text(s, x) == Text(t, y)
    ensures s == t && x == y
  {
    SameHead(if s == [] then 5 else 6, if s == [] then x else Unary(s[0] as int, Text(s[1..], x)),
             if t == [] then 5 else 6, if t == [] then y else Unary(t[0] as int, Text(t[1..], y)));
    if s != [] {
      UnaryDecodes(s[0] as int, Text(s[1..], x), t[0] as int, Text(t[1..], y));
      TextDecodes(s[1..], x, t[1..], y);
      assert s == [s[0]] + s[1..] && t == [t[0]] + t[1..];
    }
  }

  /** Two encoded events with any tails are equal only if the events and the tails are. */
  lemma EncodeDecodes(e: Event, x: seq<byte>, f: Event, y: seq<byte>)
    requires Encode(e, x) == Encode(f, y)
    ensures e == f && x == y
  {
    var e3, f3 := Number(e.revision, x), Number(f.revision, y);
    var e2, f2 := Number(e.sequence, e3), Number(f.sequence, f3);
    TextDecodes(e.draft.uri, Text(e.draft.body, e2), f.draft.uri, Text(f.draft.body, f2));
    TextDecodes(e.draft.body, e2, f.draft.body, f2);
    NumberDecodes(e.sequence, e3, f.sequence, f3);
    NumberDecodes(e.revision, x, f.revision, y);
  }

  ghost predicate Plain(s: seq<byte>) {
    forall i :: 0 <= i < |s| ==> s[i] != NEWLINE
  }

  lemma UnaryTail(n: nat, tail: seq<byte>, more: seq<byte>)
    ensures Unary(n, tail + more) == Unary(n, tail) + more
    ensures Plain(tail) ==> Plain(Unary(n, tail))
  {
    if n == 0 {
      assert [2] + (tail + more) == [2] + tail + more;
    } else {
      UnaryTail(n - 1, tail, more);
      assert [1] + (Unary(n - 1, tail) + more) == [1] + Unary(n - 1, tail) + more;
    }
  }

  lemma NumberTail(i: int, tail: seq<byte>, more: seq<byte>)
    ensures Number(i, tail + more) == Number(i, tail) + more
    ensures Plain(tail) ==> Plain(Number(i, tail))
  {
    var n := if i < 0 then -i else i;
    var sign: byte := if i < 0 then 3 else 4;
    UnaryTail(n, tail, more);
    assert [sign] + (Unary(n, tail) + more) == [sign] + Unary(n, tail) + more;
  }

  lemma TextTail(s: string, tail: seq<byte>, more: seq<byte>)
    ensures Text(s, tail + more) == Text(s, tail) + more
    ensures Plain(tail) ==> Plain(Text(s, tail))
  {
    if s == [] {
      assert [5] + (tail + more) == [5] + tail + more;
    } else {
      TextTail(s[1..], tail, more);
      UnaryTail(s[0] as int, Text(s[1..], tail), more);
      assert [6] + (Unary(s[0] as int, Text(s[1..], tail)) + more) == [6] + Unary(s[0] as int, Text(s[1..], tail)) + more;
    }
  }

  lemma EncodeTail(e: Event, more: seq<byte>)
    ensures Encode(e, more) == Encode(e, []) + more
    ensures Plain(Encode(e, [])) && Encode(e, []) != []
  {
    var e3 := Number(e.revision, []);
    var e2 := Number(e.sequence, e3);
    assert [] + more == more;
    NumberTail(e.revision, [], more);
    NumberTail(e.sequence, e3, more);
    TextTail(e.draft.body, e2, more);
    TextTail(e.draft.uri, Text(e.draft.body, e2), more);
  }

  ghost function Decode(s: seq<byte>): Option<Event> {
    if e :| Encode(e, []) == s then Some(e) else None
  }

  lemma TornIsNoCode(e: Event, k: nat, f: Event)
    requires k < |Encode(e, [])|
    ensures Encode(f, []) != Encode(e, [])[..k]
  {
    var head, rest := Encode(e, [])[..k], Encode(e, [])[k..];
    if Encode(f, []) == head {
      EncodeTail(f, rest);
      assert head + rest == Encode(e, []);
      EncodeDecodes(f, rest, e, []);
    }
  }

  lemma TornNeverDecodes(e: Event, k: nat)
    requires k < |Encode(e, [])|
    ensures Decode(Encode(e, [])[..k]) == None
  {
    forall f ensures Encode(f, []) != Encode(e, [])[..k] {
      TornIsNoCode(e, k, f);
    }
  }

  lemma DecodeEncodes(e: Event)
    ensures Decode(Encode(e, [])) == Some(e)
  {
    var s := Encode(e, []);
    assert exists f :: Encode(f, []) == s;
    var d := Decode(s);
    EncodeDecodes(d.value, [], e, []);
  }

  lemma JsonLawsCanBeMet()
    ensures exists c :: JsonLaws(c)
  {
    var c := Codec(e => Encode(e, []), s => Decode(s));
    forall e ensures c.decode(c.encode(e)) == Some(e) {
      DecodeEncodes(e);
    }
    forall e ensures c.encode(e) != [] && NEWLINE !in c.encode(e) {
      EncodeTail(e, []);
    }
    forall e, k | 0 <= k < |c.encode(e)| ensures c.decode(c.encode(e)[..k]) == None {
      TornNeverDecodes(e, k);
    }
    assert JsonLaws(c);
  }
}
