/**
 The recursive check of a structured snapshot in src/browserclaw-a11y.ts, and how it relates to the trees
 that the text parser builds.
 */
module A11yStructured {
  import opened Common
  import opened A11ySnapshot

  // ---------------------------------------------------------------------------------------------
  // Structured snapshots
  // ---------------------------------------------------------------------------------------------

  predicate Token(s: string) {
    0 < |s| <= MaxTokenLength && forall i :: 0 <= i < |s| ==> s[i] as int > 32 && s[i] as int != 127
  }

  /** The counters that `normalizeNode` carries along. */
  datatype Count = Count(nodes: nat, refs: set<string>)

  function Check(value: Value, depth: nat, c: Count, limits: Limits): Result<Count> {
    match value
    case NotANode => Err(MalformedNode)
    case Node(ref, role, fieldsOk, children) =>
      if depth > limits.maxDepth then Err(OversizedSnapshot)
      else if c.nodes + 1 > limits.maxNodes then Err(OversizedSnapshot)
      else if !Token(ref) then Err(MalformedNode)
      else if ref in c.refs then Err(DuplicateRef)
      else if |c.refs + {ref}| > limits.maxRefs then Err(OversizedSnapshot)
      else if !Token(role) || !fieldsOk then Err(MalformedNode)
      else CheckAll(children, depth + 1, Count(c.nodes + 1, c.refs + {ref}), limits)
  }

  function CheckAll(values: seq<Value>, depth: nat, c: Count, limits: Limits): Result<Count> {
    if values == [] then Ok(c)
    else
      match Check(values[0], depth, c, limits)
      case Err(code) => Err(code)
      case Ok(next) => CheckAll(values[1..], depth, next, limits)
  }

  /** Every node is well formed and no deeper than the limit. */
  predicate Fits(value: Value, depth: nat, max: nat) {
    && value.Node? && depth <= max && Token(value.ref) && Token(value.role) && value.fieldsOk
    && AllFit(value.children, depth + 1, max)
  }

  predicate AllFit(values: seq<Value>, depth: nat, max: nat) {
    values != [] ==> Fits(values[0], depth, max) && AllFit(values[1..], depth, max)
  }

  /** The refs are new and different from each other. */
  ghost predicate New(refs: seq<string>, seen: set<string>) {
    refs != [] ==> refs[0] !in seen && New(refs[1..], seen + {refs[0]})
  }

  ghost function AddAll(refs: seq<string>, seen: set<string>): set<string> {
    if refs == [] then seen else AddAll(refs[1..], seen + {refs[0]})
  }

  lemma {:induction false} NewIff(refs: seq<string>, seen: set<string>)
    ensures New(refs, seen) <==> Distinct(refs) && forall i :: 0 <= i < |refs| ==> refs[i] !in seen
  {
    if refs != [] {
      var rest := refs[1..];
      NewIff(rest, seen + {refs[0]});
      assert forall i :: 0 <= i < |rest| ==> rest[i] == refs[i + 1];
      if New(refs, seen) {
        forall i, j | 0 <= i < j < |refs| ensures refs[i] != refs[j] {
          assert refs[j] == rest[j - 1];
          if i > 0 { assert refs[i] == rest[i - 1]; }
        }
        forall i | 0 <= i < |refs| ensures refs[i] !in seen {
          if i > 0 { assert refs[i] == rest[i - 1]; }
        }
      }
    }
  }

  /** The whole outcome of an accepting check, in terms of the refs in preorder. */
  ghost predicate Accepts(refs: seq<string>, c: Count, limits: Limits) {
    New(refs, c.refs) && c.nodes + |refs| <= limits.maxNodes && |c.refs| + |refs| <= limits.maxRefs
  }

  lemma {:induction false} NewJoin(a: seq<string>, b: seq<string>, seen: set<string>)
    ensures New(a + b, seen) <==> New(a, seen) && New(b, AddAll(a, seen))
    ensures AddAll(a + b, seen) == AddAll(b, AddAll(a, seen))
    ensures New(a, seen) ==> |AddAll(a, seen)| == |seen| + |a|
  {
    if a == [] {
      assert a + b == b;
    } else {
      assert (a + b)[1..] == a[1..] + b;
      NewJoin(a[1..], b, seen + {a[0]});
    }
  }

  /** A structured snapshot is accepted exactly when every node fits, the counts stay within the limits, and no
      ref occurs twice; the counters then stand at what was accepted. */
  lemma {:induction false} CheckIff(value: Value, depth: nat, c: Count, limits: Limits)
    requires |c.refs| <= limits.maxRefs && c.nodes <= limits.maxNodes
    ensures Check(value, depth, c, limits).Ok? <==>
              Fits(value, depth, limits.maxDepth) && Accepts(Preorder(value), c, limits)
    ensures Check(value, depth, c, limits).Ok? ==>
              Check(value, depth, c, limits).value == Count(c.nodes + |Preorder(value)|, AddAll(Preorder(value), c.refs))
  {
    if value.Node? {
      var head := [value.ref];
      NewJoin(head, Preorders(value.children), c.refs);
      assert head[1..] == [];
      assert AddAll(head, c.refs) == c.refs + {value.ref} && (New(head, c.refs) <==> value.ref !in c.refs);
      if c.nodes + 1 <= limits.maxNodes && |c.refs + {value.ref}| <= limits.maxRefs {
        CheckAllIff(value.children, depth + 1, Count(c.nodes + 1, c.refs + {value.ref}), limits);
      }
    }
  }

  lemma {:induction false} CheckAllIff(values: seq<Value>, depth: nat, c: Count, limits: Limits)
    requires |c.refs| <= limits.maxRefs && c.nodes <= limits.maxNodes
    ensures CheckAll(values, depth, c, limits).Ok? <==>
              AllFit(values, depth, limits.maxDepth) && Accepts(Preorders(values), c, limits)
    ensures CheckAll(values, depth, c, limits).Ok? ==>
              CheckAll(values, depth, c, limits).value == Count(c.nodes + |Preorders(values)|, AddAll(Preorders(values), c.refs))
  {
    if values != [] {
      NewJoin(Preorder(values[0]), Preorders(values[1..]), c.refs);
      CheckIff(values[0], depth, c, limits);
      var first := Check(values[0], depth, c, limits);
      if first.Ok? { CheckAllIff(values[1..], depth, first.value, limits); }
    }
  }

  class NormalizeState {
    var nodes: nat
    var refs: set<string>

    constructor ()
      ensures View() == Count(0, {})
    {
      nodes, refs := 0, {};
    }

    function View(): Count
      reads this
    {
      Count(nodes, refs)
    }

    /** `normalizeNode`; on acceptance the copy is the value itself. */
    method NormalizeNode(value: Value, depth: nat, limits: Limits) returns (r: Result<Value>)
      modifies this
      ensures match Check(value, depth, old(View()), limits)
              case Ok(c) => r == Ok(value) && View() == c
              case Err(code) => r == Err(code)
      decreases value, 0
    {
      if value.NotANode? { return Err(MalformedNode); }
      if depth > limits.maxDepth { return Err(OversizedSnapshot); }
      nodes := nodes + 1;
      if nodes > limits.maxNodes { return Err(OversizedSnapshot); }
      if !Token(value.ref) { return Err(MalformedNode); }
      if value.ref in refs { return Err(DuplicateRef); }
      refs := refs + {value.ref};
      if |refs| > limits.maxRefs { return Err(OversizedSnapshot); }
      if !Token(value.role) || !value.fieldsOk { return Err(MalformedNode); }
      var children := NormalizeChildren(value, depth, limits);
      r := if children.Ok? then Ok(Node(value.ref, value.role, true, children.value)) else Err(children.code);
    }

    /** The `map` over the children. */
    method NormalizeChildren(value: Value, depth: nat, limits: Limits) returns (r: Result<seq<Value>>)
      requires value.Node?
      modifies this
      ensures match CheckAll(value.children, depth + 1, old(View()), limits)
              case Ok(c) => r == Ok(value.children) && View() == c
              case Err(code) => r == Err(code)
      decreases value.children, 1
    {
      var copies, i := [], 0;
      while i < |value.children|
        invariant i <= |value.children| && copies == value.children[..i]
        invariant CheckAll(value.children, depth + 1, old(View()), limits) ==
                  CheckAll(value.children[i..], depth + 1, View(), limits)
      {
        var rest := value.children[i..];
        assert rest[0] == value.children[i] && rest[1..] == value.children[i + 1..];
        var copy := NormalizeNode(value.children[i], depth + 1, limits);
        if copy.Err? { return Err(copy.code); }
        copies := copies + [copy.value];
        i := i + 1;
      }
      assert copies == value.children;
      r := Ok(copies);
    }
  }

  // ---------------------------------------------------------------------------------------------
  // Text snapshots against the structured check
  // ---------------------------------------------------------------------------------------------

  predicate TokenLines(lines: seq<Line>) {
    forall i :: 0 <= i < |lines| ==> Token(lines[i].ref) && Token(lines[i].role)
  }

  predicate Within(lines: seq<Line>, a: nat, b: nat, max: nat)
    requires b <= |lines|
  {
    forall k: nat :: a <= k < b ==> Depth(lines, k) + 1 <= max
  }

  function LevelBelow(lines: seq<Line>, p: int): nat
    requires -1 <= p < |lines|
  {
    if p == -1 then 1 else Depth(lines, p) + 2
  }

  lemma {:induction false} SubtreeFits(lines: seq<Line>, i: nat, max: nat)
    requires i < |lines| && TokenLines(lines)
    ensures Fits(Subtree(lines, i), Depth(lines, i) + 1, max) <==> Within(lines, i, EndOf(lines, i), max)
    decreases |lines| - i, 0
  {
    KidsByHopping(lines, i);
    SiblingsFit(lines, i, i + 1, i + 1, max);
    WithinSplit(lines, i, i + 1, EndOf(lines, i), max);
    assert Within(lines, i, i + 1, max) <==> Depth(lines, i) + 1 <= max;
  }

  lemma WithinSplit(lines: seq<Line>, a: nat, b: nat, c: nat, max: nat)
    requires a <= b <= c <= |lines|
    ensures Within(lines, a, c, max) <==> Within(lines, a, b, max) && Within(lines, b, c, max)
  {
  }

  lemma {:induction false} SiblingsFit(lines: seq<Line>, p: int, c: nat, from: nat, max: nat)
    requires -1 <= p < |lines| && Sibling(lines, p, c) && from <= c && TokenLines(lines)
    requires forall t :: 0 <= t < |KidsFrom(lines, p, c)| ==> from <= KidsFrom(lines, p, c)[t] < |lines|
    ensures AllFit(Subtrees(lines, KidsFrom(lines, p, c), from), LevelBelow(lines, p), max) <==> Within(lines, c, EndOf(lines, p), max)
    decreases |lines| - c, 1
  {
    if c < EndOf(lines, p) {
      NextChild(lines, p, c);
      var e := EndOf(lines, c);
      KidsFromBounds(lines, p, e);
      ConsFits(lines, c, KidsFrom(lines, p, e), from, LevelBelow(lines, p), max);
      SubtreeFits(lines, c, max);
      SiblingsFit(lines, p, e, from, max);
      WithinSplit(lines, c, e, EndOf(lines, p), max);
    }
  }

  lemma ConsFits(lines: seq<Line>, c: nat, rest: seq<nat>, from: nat, depth: nat, max: nat)
    requires from <= c < |lines| && forall t :: 0 <= t < |rest| ==> from <= rest[t] < |lines|
    ensures AllFit(Subtrees(lines, [c] + rest, from), depth, max) <==>
              Fits(Subtree(lines, c), depth, max) && AllFit(Subtrees(lines, rest, from), depth, max)
  {
    assert ([c] + rest)[1..] == rest;
    var trees := Subtrees(lines, [c] + rest, from);
    assert trees[1..] == Subtrees(lines, rest, from);
  }

  /** A text snapshot that was accepted passes the structured check under the same limits exactly when the
      synthetic root still fits in: one more node and ref, one more level, and a ref of its own. */
  lemma TextPassesStructuredCheckIff(lines: seq<Line>, limits: Limits)
    requires FirstFault(lines, limits, |lines|) == None && TokenLines(lines)
    ensures Check(Document(lines), 0, Count(0, {}), limits).Ok? <==>
              && |lines| + 1 <= limits.maxNodes && |lines| + 1 <= limits.maxRefs
              && Within(lines, 0, |lines|, limits.maxDepth)
              && RootRef(lines) !in Refs(lines)
  {
    AcceptedIff(lines, limits, |lines|);
    assert Refs(lines)[..|lines|] == Refs(lines);
    CheckIff(Document(lines), 0, Count(0, {}), limits);
    DocumentPreorder(lines);
    DocumentRefsDistinctIff(lines);
    NewIff(Preorder(Document(lines)), {});
    RootTokens();
    KidsByHopping(lines, -1);
    EndFacts(lines, -1, 0);
    assert EndOf(lines, -1) == |lines|;
    SiblingsFit(lines, -1, 0, 0, limits.maxDepth);
  }

  lemma RootTokens()
    ensures Token("document") && Token("__document__") && Token("__document__-root")
  {
  }
}
