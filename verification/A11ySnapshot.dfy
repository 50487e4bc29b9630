/** The indentation stack of src/browserclaw-a11y.ts that turns the lines of a snapshot into a tree. */
module A11ySnapshot {
  // A line is taken as already split into indentation, ref and role; roots hang below index -1, the
  // synthetic document.

  import opened Common

  const MaxTokenLength: nat := 128

  datatype Line = Line(indent: nat, ref: string, role: string)

  datatype Limits = Limits(maxDepth: nat, maxNodes: nat, maxRefs: nat)

  datatype Code = MalformedText | OversizedSnapshot | DuplicateRef | MalformedNode

  datatype Result<+T> = Ok(value: T) | Err(code: Code)

  /** A node of a snapshot, or anything else that stands where a node should; `fieldsOk` says whether its
      optional fields are acceptable. */
  datatype Value = NotANode | Node(ref: string, role: string, fieldsOk: bool, children: seq<Value>)

  // ---------------------------------------------------------------------------------------------
  // Which line is whose parent
  // ---------------------------------------------------------------------------------------------

  function Indent(lines: seq<Line>, i: int): int
    requires -1 <= i < |lines|
  {
    if i == -1 then -1 else lines[i].indent
  }

  /** The nearest line before `k` indented less than `indent`. */
  function NearestBelow(lines: seq<Line>, indent: nat, k: nat): (p: int)
    requires k <= |lines|
    ensures -1 <= p < k
  {
    if k == 0 then -1
    else if lines[k - 1].indent < indent then k - 1
    else NearestBelow(lines, indent, k - 1)
  }

  function Parent(lines: seq<Line>, i: nat): (p: int)
    requires i < |lines|
    ensures -1 <= p < i
  {
    NearestBelow(lines, lines[i].indent, i)
  }

  lemma {:induction false} NearestBelowIsNearest(lines: seq<Line>, indent: nat, k: nat)
    requires k <= |lines|
    ensures var p := NearestBelow(lines, indent, k);
            Indent(lines, p) < indent && forall j :: p < j < k ==> lines[j].indent >= indent
  {
    if k > 0 && lines[k - 1].indent >= indent { NearestBelowIsNearest(lines, indent, k - 1); }
  }

  /** The parent of a line is the nearest earlier line that is strictly less indented, and nothing else is. */
  lemma ParentIsNearest(lines: seq<Line>, i: nat, p: int)
    requires i < |lines| && -1 <= p < i
    ensures p == Parent(lines, i) <==>
              Indent(lines, p) < lines[i].indent && forall j :: p < j < i ==> lines[j].indent >= lines[i].indent
  {
    NearestBelowIsNearest(lines, lines[i].indent, i);
    var q := Parent(lines, i);
    assert q < p ==> Indent(lines, p) >= lines[i].indent;
    assert p < q ==> Indent(lines, q) < lines[i].indent;
  }

  /** How many lines `i` is nested in. */
  function Depth(lines: seq<Line>, i: nat): nat
    requires i < |lines|
    decreases i
  {
    var p := Parent(lines, i);
    if p == -1 then 0 else Depth(lines, p) + 1
  }

  /** The lines before `n` whose parent is `p`, in order. */
  function Kids(lines: seq<Line>, n: nat, p: int): (kids: seq<nat>)
    requires n <= |lines|
    ensures forall t :: 0 <= t < |kids| ==> p < kids[t] < n && Parent(lines, kids[t]) == p
  {
    if n == 0 then []
    else if Parent(lines, n - 1) == p then Kids(lines, n - 1, p) + [n - 1]
    else Kids(lines, n - 1, p)
  }

  // ---------------------------------------------------------------------------------------------
  // The tree
  // ---------------------------------------------------------------------------------------------

  function Subtree(lines: seq<Line>, i: nat): Value
    requires i < |lines|
    decreases |lines| - i, 0
  {
    Node(lines[i].ref, lines[i].role, true, Subtrees(lines, Kids(lines, |lines|, i), i + 1))
  }

  function Subtrees(lines: seq<Line>, kids: seq<nat>, from: nat): (trees: seq<Value>)
    requires forall t :: 0 <= t < |kids| ==> from <= kids[t] < |lines|
    ensures |trees| == |kids|
    decreases |lines| - from, |kids| + 1
  {
    if kids == [] then [] else [Subtree(lines, kids[0])] + Subtrees(lines, kids[1..], from)
  }

  /** The refs of a tree, parents before children. */
  function Preorder(t: Value): seq<string> {
    if t.NotANode? then [] else [t.ref] + Preorders(t.children)
  }

  function Preorders(ts: seq<Value>): seq<string> {
    if ts == [] then [] else Preorder(ts[0]) + Preorders(ts[1..])
  }

  function Refs(lines: seq<Line>): seq<string> {
    seq(|lines|, i requires 0 <= i < |lines| => lines[i].ref)
  }

  /** Where the lines nested in `i` end. */
  function End(lines: seq<Line>, i: int, k: nat): (end: nat)
    requires -1 <= i < k <= |lines|
    ensures k <= end <= |lines|
    decreases |lines| - k
  {
    if k < |lines| && lines[k].indent > Indent(lines, i) then End(lines, i, k + 1) else k
  }

  function EndOf(lines: seq<Line>, i: int): (end: nat)
    requires -1 <= i < |lines|
    ensures i < end <= |lines|
  {
    End(lines, i, i + 1)
  }

  lemma {:induction false} EndFacts(lines: seq<Line>, i: int, k: nat)
    requires -1 <= i < k <= |lines|
    ensures forall j :: k <= j < End(lines, i, k) ==> lines[j].indent > Indent(lines, i)
    ensures End(lines, i, k) < |lines| ==> lines[End(lines, i, k)].indent <= Indent(lines, i)
    decreases |lines| - k
  {
    if k < |lines| && lines[k].indent > Indent(lines, i) { EndFacts(lines, i, k + 1); }
  }

  /** A child of `p`, or the end of its children. */
  predicate Sibling(lines: seq<Line>, p: int, c: nat)
    requires -1 <= p < |lines|
  {
    p < c <= EndOf(lines, p) && (c < EndOf(lines, p) ==> Parent(lines, c) == p)
  }

  lemma FirstChild(lines: seq<Line>, p: int)
    requires -1 <= p < |lines|
    ensures Sibling(lines, p, p + 1)
  {
    EndFacts(lines, p, p + 1);
    if p + 1 < EndOf(lines, p) { ParentIsNearest(lines, p + 1, p); }
  }

  /** The next child begins where the previous one ends; what lies between has another parent. */
  lemma NextChild(lines: seq<Line>, p: int, c: nat)
    requires -1 <= p < |lines| && Sibling(lines, p, c) && c < EndOf(lines, p)
    ensures Sibling(lines, p, EndOf(lines, c))
    ensures forall j :: c < j < EndOf(lines, c) ==> Parent(lines, j) != p
  {
    var e, end := EndOf(lines, c), EndOf(lines, p);
    EndFacts(lines, p, p + 1);
    EndFacts(lines, c, c + 1);
    ParentIsNearest(lines, c, p);
    assert end < |lines| ==> lines[end].indent <= Indent(lines, p) < lines[c].indent;
    if e < end { ParentIsNearest(lines, e, p); }
    forall j | c < j < e ensures Parent(lines, j) != p {
      ParentIsNearest(lines, j, p);
      assert lines[c].indent < lines[j].indent;
    }
  }

  /** No line outside the nested ones has `p` as its parent. */
  lemma OutsideIsNoChild(lines: seq<Line>, p: int, j: nat)
    requires -1 <= p < |lines| && EndOf(lines, p) <= j < |lines|
    ensures Parent(lines, j) != p
  {
    EndFacts(lines, p, p + 1);
    ParentIsNearest(lines, j, p);
    assert lines[EndOf(lines, p)].indent <= Indent(lines, p);
  }

  /** The children of `p` from `c` on. */
  function KidsFrom(lines: seq<Line>, p: int, c: nat): seq<nat>
    requires -1 <= p < |lines| && Sibling(lines, p, c)
    decreases |lines| - c
  {
    if c == EndOf(lines, p) then []
    else
      NextChild(lines, p, c);
      [c] + KidsFrom(lines, p, EndOf(lines, c))
  }

  lemma {:induction false} KidsSkip(lines: seq<Line>, p: int, a: nat, b: nat)
    requires a <= b <= |lines| && forall j :: a <= j < b ==> Parent(lines, j) != p
    ensures Kids(lines, b, p) == Kids(lines, a, p)
  {
    if a < b { KidsSkip(lines, p, a, b - 1); }
  }

  lemma KidsOfNext(lines: seq<Line>, p: int, c: nat)
    requires -1 <= p < |lines| && Sibling(lines, p, c) && c < EndOf(lines, p)
    ensures Kids(lines, EndOf(lines, c), p) == Kids(lines, c, p) + [c]
  {
    NextChild(lines, p, c);
    KidsSkip(lines, p, c + 1, EndOf(lines, c));
  }

  lemma Regroup(before: seq<nat>, c: nat, after: seq<nat>)
    ensures before + [c] + after == before + ([c] + after)
  {
  }

  lemma {:induction false} KidsAreSiblings(lines: seq<Line>, p: int, c: nat)
    requires -1 <= p < |lines| && Sibling(lines, p, c)
    ensures Kids(lines, |lines|, p) == Kids(lines, c, p) + KidsFrom(lines, p, c)
    decreases |lines| - c
  {
    if c == EndOf(lines, p) {
      forall j | c <= j < |lines| ensures Parent(lines, j) != p { OutsideIsNoChild(lines, p, j); }
      KidsSkip(lines, p, c, |lines|);
    } else {
      KidsOfNext(lines, p, c);
      NextChild(lines, p, c);
      var e := EndOf(lines, c);
      KidsAreSiblings(lines, p, e);
      Regroup(Kids(lines, c, p), c, KidsFrom(lines, p, e));
    }
  }

  lemma KidsByHopping(lines: seq<Line>, p: int)
    requires -1 <= p < |lines|
    ensures Sibling(lines, p, p + 1) && Kids(lines, |lines|, p) == KidsFrom(lines, p, p + 1)
  {
    FirstChild(lines, p);
    KidsAreSiblings(lines, p, p + 1);
    KidsSkip(lines, p, 0, p + 1);
  }

  // ---------------------------------------------------------------------------------------------
  // Preorder is the input order
  // ---------------------------------------------------------------------------------------------

  lemma ConsPreorder(lines: seq<Line>, c: nat, rest: seq<nat>, from: nat)
    requires from <= c < |lines| && forall t :: 0 <= t < |rest| ==> from <= rest[t] < |lines|
    ensures Preorders(Subtrees(lines, [c] + rest, from)) == Preorder(Subtree(lines, c)) + Preorders(Subtrees(lines, rest, from))
  {
    assert ([c] + rest)[1..] == rest;
    var trees := Subtrees(lines, [c] + rest, from);
    assert trees[1..] == Subtrees(lines, rest, from);
  }

  lemma JoinRefs(lines: seq<Line>, a: nat, b: nat, c: nat)
    requires a <= b <= c <= |lines|
    ensures Refs(lines)[a..b] + Refs(lines)[b..c] == Refs(lines)[a..c]
  {
  }

  /** A subtree holds the lines up to its end, parents first. */
  lemma {:induction false} SubtreePreorder(lines: seq<Line>, i: nat)
    requires i < |lines|
    ensures Preorder(Subtree(lines, i)) == Refs(lines)[i..EndOf(lines, i)]
    decreases |lines| - i, 0
  {
    KidsByHopping(lines, i);
    SiblingsPreorder(lines, i, i + 1, i + 1);
    JoinRefs(lines, i, i + 1, EndOf(lines, i));
    assert Refs(lines)[i..i + 1] == [lines[i].ref];
  }

  lemma {:induction false} KidsFromBounds(lines: seq<Line>, p: int, c: nat)
    requires -1 <= p < |lines| && Sibling(lines, p, c)
    ensures forall t :: 0 <= t < |KidsFrom(lines, p, c)| ==> c <= KidsFrom(lines, p, c)[t] < |lines|
    decreases |lines| - c
  {
    if c < EndOf(lines, p) {
      NextChild(lines, p, c);
      KidsFromBounds(lines, p, EndOf(lines, c));
    }
  }

  lemma {:induction false} SiblingsPreorder(lines: seq<Line>, p: int, c: nat, from: nat)
    requires -1 <= p < |lines| && Sibling(lines, p, c) && from <= c
    requires forall t :: 0 <= t < |KidsFrom(lines, p, c)| ==> from <= KidsFrom(lines, p, c)[t] < |lines|
    ensures Preorders(Subtrees(lines, KidsFrom(lines, p, c), from)) == Refs(lines)[c..EndOf(lines, p)]
    decreases |lines| - c, 1
  {
    if c < EndOf(lines, p) {
      NextChild(lines, p, c);
      var e := EndOf(lines, c);
      KidsFromBounds(lines, p, e);
      ConsPreorder(lines, c, KidsFrom(lines, p, e), from);
      SubtreePreorder(lines, c);
      SiblingsPreorder(lines, p, e, from);
      JoinRefs(lines, c, e, EndOf(lines, p));
    }
  }

  // ---------------------------------------------------------------------------------------------
  // What the text parser accepts
  // ---------------------------------------------------------------------------------------------

  predicate Repeats(lines: seq<Line>, k: nat)
    requires k < |lines|
  {
    exists j: nat :: j < k && lines[j].ref == lines[k].ref
  }

  /** Why the loop stops at line `k`, when it came that far. */
  function Fault(lines: seq<Line>, limits: Limits, k: nat): Option<Code>
    requires k < |lines|
  {
    if k >= limits.maxNodes then Some(OversizedSnapshot)
    else if Repeats(lines, k) then Some(DuplicateRef)
    else if k + 1 > limits.maxRefs then Some(OversizedSnapshot)
    else if Depth(lines, k) > limits.maxDepth then Some(OversizedSnapshot)
    else None
  }

  /** The first fault among the first `n` lines. */
  function FirstFault(lines: seq<Line>, limits: Limits, n: nat): Option<Code>
    requires n <= |lines|
  {
    if n == 0 then None
    else if FirstFault(lines, limits, n - 1).Some? then FirstFault(lines, limits, n - 1)
    else Fault(lines, limits, n - 1)
  }

  ghost predicate Distinct(refs: seq<string>) {
    forall i, j :: 0 <= i < j < |refs| ==> refs[i] != refs[j]
  }

  predicate Shallow(lines: seq<Line>, n: nat, max: nat)
    requires n <= |lines|
  {
    forall k: nat :: k < n ==> Depth(lines, k) <= max
  }

  /** The lines are accepted exactly when nodes, refs and depth are within the limits and no ref repeats. */
  lemma {:induction false} AcceptedIff(lines: seq<Line>, limits: Limits, n: nat)
    requires n <= |lines|
    ensures FirstFault(lines, limits, n) == None <==>
              n <= limits.maxNodes && n <= limits.maxRefs && Distinct(Refs(lines)[..n]) && Shallow(lines, n, limits.maxDepth)
  {
    if n > 0 {
      AcceptedIff(lines, limits, n - 1);
      var refs := Refs(lines)[..n];
      assert forall j :: 0 <= j < n ==> refs[j] == lines[j].ref;
      assert Refs(lines)[..n - 1] == refs[..n - 1];
      assert Distinct(refs) <==> Distinct(refs[..n - 1]) && !Repeats(lines, n - 1);
    }
  }

  predicate IsRoot(lines: seq<Line>, i: nat)
    requires i < |lines|
  {
    Parent(lines, i) == -1
  }

  /** The ref given to the synthetic document. */
  function RootRef(lines: seq<Line>): string {
    if exists i: nat :: i < |lines| && IsRoot(lines, i) && lines[i].ref == "__document__" then "__document__-root" else "__document__"
  }

  function Document(lines: seq<Line>): Value {
    Node(RootRef(lines), "document", true, Subtrees(lines, Kids(lines, |lines|, -1), 0))
  }

  /** Reading the tree parents first gives the lines back in their order. */
  lemma DocumentPreorder(lines: seq<Line>)
    ensures Preorder(Document(lines)) == [RootRef(lines)] + Refs(lines)
  {
    KidsByHopping(lines, -1);
    EndFacts(lines, -1, 0);
    SiblingsPreorder(lines, -1, 0, 0);
    assert EndOf(lines, -1) == |lines|;
    assert Refs(lines)[0..|lines|] == Refs(lines);
  }

  /** The refs of an accepted document are all different unless a line has the ref of the synthetic root. */
  lemma DocumentRefsDistinctIff(lines: seq<Line>)
    requires Distinct(Refs(lines))
    ensures Distinct(Preorder(Document(lines))) <==> RootRef(lines) !in Refs(lines)
  {
    DocumentPreorder(lines);
    var all := Preorder(Document(lines));
    assert forall i :: 0 <= i < |lines| ==> all[i + 1] == Refs(lines)[i];
    if RootRef(lines) !in Refs(lines) {
      forall i, j | 0 <= i < j < |all| ensures all[i] != all[j] {
        assert all[j] == Refs(lines)[j - 1];
      }
    } else {
      var k :| 0 <= k < |lines| && Refs(lines)[k] == RootRef(lines);
      assert all[0] == all[k + 1];
    }
  }

  /** That happens exactly when "__document__" is the ref of a nested line only, or when a root has it and
      "__document__-root" occurs too. */
  lemma RootRefTakenIff(lines: seq<Line>)
    ensures RootRef(lines) in Refs(lines) <==>
              if exists i: nat :: i < |lines| && IsRoot(lines, i) && lines[i].ref == "__document__"
              then exists k: nat :: k < |lines| && lines[k].ref == "__document__-root"
              else exists k: nat :: k < |lines| && !IsRoot(lines, k) && lines[k].ref == "__document__"
  {
    if RootRef(lines) in Refs(lines) {
      var k :| 0 <= k < |lines| && Refs(lines)[k] == RootRef(lines);
      assert lines[k].ref == RootRef(lines);
    }
    forall k: nat | k < |lines| && lines[k].ref == RootRef(lines) ensures RootRef(lines) in Refs(lines) {
      assert Refs(lines)[k] == lines[k].ref;
    }
  }

  lemma TwoLinesAccepted(lines: seq<Line>, limits: Limits)
    requires |lines| == 2 && lines[0].ref != lines[1].ref
    requires limits.maxDepth >= 1 && limits.maxNodes >= 2 && limits.maxRefs >= 2
    ensures FirstFault(lines, limits, |lines|) == None && Distinct(Refs(lines))
  {
    assert Parent(lines, 0) == -1 && Depth(lines, 0) == 0;
    assert Depth(lines, 1) <= 1;
    assert Refs(lines)[..2] == Refs(lines);
    AcceptedIff(lines, limits, 2);
  }

  /** Two accepted snapshots whose documents repeat a ref: one where only a nested line is named "__document__",
      and one where both names the root can get are taken. */
  lemma RootRefCanCollide(limits: Limits)
    requires limits.maxDepth >= 1 && limits.maxNodes >= 2 && limits.maxRefs >= 2
    ensures var nested := [Line(0, "e1", "main"), Line(1, "__document__", "button")];
      FirstFault(nested, limits, |nested|) == None && !Distinct(Preorder(Document(nested)))
    ensures var both := [Line(0, "__document__", "main"), Line(0, "__document__-root", "button")];
      FirstFault(both, limits, |both|) == None && !Distinct(Preorder(Document(both)))
  {
    var nested := [Line(0, "e1", "main"), Line(1, "__document__", "button")];
    TwoLinesAccepted(nested, limits);
    ParentIsNearest(nested, 1, 0);
    assert !IsRoot(nested, 1) && nested[1].ref == "__document__";
    RootRefTakenIff(nested);
    DocumentRefsDistinctIff(nested);
    var both := [Line(0, "__document__", "main"), Line(0, "__document__-root", "button")];
    TwoLinesAccepted(both, limits);
    assert IsRoot(both, 0) && both[0].ref == "__document__" && both[1].ref == "__document__-root";
    RootRefTakenIff(both);
    DocumentRefsDistinctIff(both);
  }

  // ---------------------------------------------------------------------------------------------
  // The stack builder
  // ---------------------------------------------------------------------------------------------

  /** The stack holds a line and everything it is nested in, outermost first. */
  ghost predicate Chain(lines: seq<Line>, stack: seq<nat>) {
    forall t :: 0 <= t < |stack| ==> Link(lines, stack, t)
  }

  predicate Link(lines: seq<Line>, stack: seq<nat>, t: nat)
    requires t < |stack|
  {
    stack[t] < |lines| && Parent(lines, stack[t]) == Top(stack, t) && Depth(lines, stack[t]) == t
  }

  function Top(stack: seq<nat>, n: nat): int
    requires n <= |stack|
  {
    if n == 0 then -1 else stack[n - 1]
  }

  /** The indents on the stack are strictly increasing throughout. */
  lemma {:induction false} ChainIncreases(lines: seq<Line>, stack: seq<nat>, s: nat, t: nat)
    requires Chain(lines, stack) && s < t < |stack|
    ensures stack[s] < |lines| && stack[t] < |lines| && lines[stack[s]].indent < lines[stack[t]].indent
    decreases t
  {
    assert Link(lines, stack, s) && Link(lines, stack, t);
    ParentIsNearest(lines, stack[t], Top(stack, t));
    if s < t - 1 { ChainIncreases(lines, stack, s, t - 1); }
  }

  lemma PopKeepsChain(lines: seq<Line>, stack: seq<nat>, i: nat)
    requires |stack| > 0 && Chain(lines, stack) && stack[|stack| - 1] < i < |lines|
    requires lines[i].indent <= lines[stack[|stack| - 1]].indent
    requires forall j :: stack[|stack| - 1] < j < i ==> lines[j].indent >= lines[i].indent
    ensures var rest := stack[..|stack| - 1];
            && Chain(lines, rest) && Top(rest, |rest|) < i
            && forall j :: Top(rest, |rest|) < j < i ==> lines[j].indent >= lines[i].indent
  {
    var n := |stack| - 1;
    var rest := stack[..n];
    assert Link(lines, stack, n);
    ParentIsNearest(lines, stack[n], Top(stack, n));
    assert Top(rest, n) == Top(stack, n);
    forall t | 0 <= t < n ensures Link(lines, rest, t) {
      assert Link(lines, stack, t);
      assert Top(rest, t) == Top(stack, t);
    }
  }

  lemma TopIsParent(lines: seq<Line>, stack: seq<nat>, i: nat)
    requires i < |lines| && Top(stack, |stack|) < i && (|stack| > 0 ==> Link(lines, stack, |stack| - 1))
    requires |stack| > 0 ==> lines[stack[|stack| - 1]].indent < lines[i].indent
    requires forall j :: Top(stack, |stack|) < j < i ==> lines[j].indent >= lines[i].indent
    ensures Parent(lines, i) == Top(stack, |stack|) && Depth(lines, i) == |stack|
  {
    ParentIsNearest(lines, i, Top(stack, |stack|));
  }

  lemma PushKeepsChain(lines: seq<Line>, stack: seq<nat>, i: nat)
    requires i < |lines| && Chain(lines, stack)
    requires Parent(lines, i) == Top(stack, |stack|) && Depth(lines, i) == |stack|
    ensures Chain(lines, stack + [i])
  {
    var n, full := |stack|, stack + [i];
    assert Top(full, n) == Top(stack, n);
    assert Link(lines, full, n);
    forall t | 0 <= t < n ensures Link(lines, full, t) {
      assert Link(lines, stack, t) && Top(full, t) == Top(stack, t);
    }
  }

  /** The refs of the first `n` lines, none of which repeats. */
  ghost predicate RefsOf(lines: seq<Line>, n: nat, refs: set<string>)
    requires n <= |lines|
  {
    && |refs| == n
    && (forall j :: 0 <= j < n ==> lines[j].ref in refs)
    && (forall ref :: ref in refs ==> exists j: nat :: j < n && lines[j].ref == ref)
  }

  /** The set of refs tells whether the next one repeats, and grows by it. */
  lemma RefsGrow(lines: seq<Line>, i: nat, refs: set<string>)
    requires i < |lines| && RefsOf(lines, i, refs)
    ensures lines[i].ref in refs <==> Repeats(lines, i)
    ensures lines[i].ref !in refs ==> RefsOf(lines, i + 1, refs + {lines[i].ref})
  {
    var noted := refs + {lines[i].ref};
    forall ref | ref in noted ensures exists j: nat :: j < i + 1 && lines[j].ref == ref {
      if ref == lines[i].ref { assert i < i + 1; } else { var j: nat :| j < i && lines[j].ref == ref; assert j < i + 1; }
    }
  }

  /** The checks at the head of the loop. */
  method NoteLine(lines: seq<Line>, limits: Limits, i: nat, refs: set<string>) returns (code: Option<Code>, noted: set<string>)
    requires i < |lines| && RefsOf(lines, i, refs) && FirstFault(lines, limits, i) == None
    ensures code.Some? ==> FirstFault(lines, limits, |lines|) == code
    ensures code.None? ==>
              && RefsOf(lines, i + 1, noted)
              && (Depth(lines, i) <= limits.maxDepth ==> FirstFault(lines, limits, i + 1) == None)
              && (Depth(lines, i) > limits.maxDepth ==> FirstFault(lines, limits, |lines|) == Some(OversizedSnapshot))
  {
    FaultIsFirst(lines, limits, i);
    RefsGrow(lines, i, refs);
    if i >= limits.maxNodes { return Some(OversizedSnapshot), refs; }
    if lines[i].ref in refs { return Some(DuplicateRef), refs; }
    noted := refs + {lines[i].ref};
    code := if |noted| > limits.maxRefs then Some(OversizedSnapshot) else None;
  }

  predicate HoldsKids(lines: seq<Line>, n: nat, children: seq<seq<nat>>, p: nat)
    requires n <= |lines| && p < |children|
  {
    children[p] == Kids(lines, n, p)
  }

  /** Every node's list holds its children among the first `n` lines. */
  ghost predicate Attached(lines: seq<Line>, n: nat, children: seq<seq<nat>>, roots: seq<nat>)
    requires n <= |lines|
  {
    && |children| == |lines| && roots == Kids(lines, n, -1)
    && forall p :: 0 <= p < |lines| ==> HoldsKids(lines, n, children, p)
  }

  /** Where the loop stands before line `i`. */
  ghost predicate Placed(
      lines: seq<Line>, limits: Limits, i: nat, refs: set<string>, stack: seq<nat>, children: seq<seq<nat>>, roots: seq<nat>)
  {
    && i <= |lines| && RefsOf(lines, i, refs) && FirstFault(lines, limits, i) == None
    && Chain(lines, stack) && Top(stack, |stack|) == i - 1
    && Attached(lines, i, children, roots)
  }

  /** The loop of `normalizeTextSnapshot` over the parsed lines: the node of a line is its index, `children`
      holds the list each node object carries, and `roots` the nodes at the top. */
  method BuildTree(lines: seq<Line>, limits: Limits, children: array<seq<nat>>) returns (code: Option<Code>, roots: seq<nat>)
    requires children.Length == |lines| && forall p :: 0 <= p < |lines| ==> children[p] == []
    modifies children
    ensures code == FirstFault(lines, limits, |lines|)
    ensures code.None? ==> Attached(lines, |lines|, children[..], roots)
  {
    code, roots := None, [];
    var refs: set<string>, stack: seq<nat>, i := {}, [], 0;
    while i < |lines|
      invariant Placed(lines, limits, i, refs, stack, children[..], roots) && code == None
    {
      code, refs, stack, roots := PlaceLine(lines, limits, i, refs, stack, children, roots);
      if code.Some? { return; }
      i := i + 1;
    }
  }

  /** The body of the loop. */
  method PlaceLine(
      lines: seq<Line>, limits: Limits, i: nat, refs: set<string>, stack: seq<nat>, children: array<seq<nat>>, roots: seq<nat>)
    returns (code: Option<Code>, refs': set<string>, stack': seq<nat>, roots': seq<nat>)
    requires i < |lines| && Placed(lines, limits, i, refs, stack, children[..], roots)
    modifies children
    ensures code.Some? ==> FirstFault(lines, limits, |lines|) == code
    ensures code.None? ==> Placed(lines, limits, i + 1, refs', stack', children[..], roots')
  {
    stack', roots' := stack, roots;
    code, refs' := NoteLine(lines, limits, i, refs);
    if code.Some? { return; }
    var p;
    stack', p := Nest(lines, stack, i);
    roots' := Attach(lines, i, p, children, roots);
    if |stack'| - 1 > limits.maxDepth { code := Some(OversizedSnapshot); }
  }

  /** `normalizeTextSnapshot`: the ref of the synthetic root, and the lists of its nodes. */
  method NormalizeText(lines: seq<Line>, limits: Limits) returns (r: Result<string>, children: array<seq<nat>>, roots: seq<nat>)
    ensures fresh(children)
    ensures r == if lines == [] then Err(MalformedText)
                 else match FirstFault(lines, limits, |lines|)
                      case Some(code) => Err(code)
                      case None => Ok(RootRef(lines))
    ensures r.Ok? ==> Attached(lines, |lines|, children[..], roots)
  {
    children := new seq<nat>[|lines|](_ => []);
    if lines == [] { return Err(MalformedText), children, []; }
    var code;
    code, roots := BuildTree(lines, limits, children);
    r := if code.Some? then Err(code.value) else Ok(RootRef(lines));
  }

  /** Line `i` belongs at the end of its parent's list, or of the roots, and nowhere else. */
  lemma AttachedGrows(lines: seq<Line>, i: nat, p: int, children: seq<seq<nat>>, roots: seq<nat>)
    requires i < |lines| && p == Parent(lines, i) && Attached(lines, i, children, roots)
    ensures p == -1 ==> Attached(lines, i + 1, children, roots + [i])
    ensures p != -1 ==> Attached(lines, i + 1, children[p := children[p] + [i]], roots)
  {
    var grown, n := if p == -1 then children else children[p := children[p] + [i]], i + 1;
    forall q | 0 <= q < |lines| ensures HoldsKids(lines, n, grown, q) {
      assert HoldsKids(lines, i, children, q);
    }
  }

  /** Pushes line `i` onto its parent's list, or onto the roots. */
  method Attach(lines: seq<Line>, i: nat, p: int, children: array<seq<nat>>, roots: seq<nat>) returns (roots': seq<nat>)
    requires i < |lines| && p == Parent(lines, i) && Attached(lines, i, children[..], roots)
    modifies children
    ensures Attached(lines, i + 1, children[..], roots')
  {
    roots' := roots;
    AttachedGrows(lines, i, p, children[..], roots);
    if p == -1 {
      roots' := roots + [i];
    } else {
      ghost var before := children[..];
      children[p] := children[p] + [i];
      assert children[..] == before[p := before[p] + [i]];
    }
  }

  lemma {:induction false} FaultIsFirst(lines: seq<Line>, limits: Limits, k: nat)
    requires k < |lines| && FirstFault(lines, limits, k) == None
    ensures FirstFault(lines, limits, k + 1) == Fault(lines, limits, k)
    ensures Fault(lines, limits, k).Some? ==> FirstFault(lines, limits, |lines|) == Fault(lines, limits, k)
  {
    FaultStays(lines, limits, k + 1, |lines|);
  }

  lemma {:induction false} FaultStays(lines: seq<Line>, limits: Limits, k: nat, n: nat)
    requires k <= n <= |lines|
    ensures FirstFault(lines, limits, k).Some? ==> FirstFault(lines, limits, n) == FirstFault(lines, limits, k)
  {
    if k < n { FaultStays(lines, limits, k, n - 1); }
  }

  /** Pops what line `i` is not nested in and pushes the line; what is below it is its parent. */
  method Nest(lines: seq<Line>, full: seq<nat>, i: nat) returns (stack: seq<nat>, p: int)
    requires i < |lines| && Chain(lines, full) && Top(full, |full|) == i - 1
    ensures p == Parent(lines, i) && |stack| - 1 == Depth(lines, i)
    ensures Chain(lines, stack) && Top(stack, |stack|) == i
  {
    stack := full;
    while |stack| > 0 && lines[i].indent <= lines[stack[|stack| - 1]].indent
      invariant |stack| <= |full| && Chain(lines, stack)
      invariant |stack| > 0 ==> Link(lines, stack, |stack| - 1)
      invariant Top(stack, |stack|) < i
      invariant forall j :: Top(stack, |stack|) < j < i ==> lines[j].indent >= lines[i].indent
    {
      PopKeepsChain(lines, stack, i);
      stack := stack[..|stack| - 1];
    }
    TopIsParent(lines, stack, i);
    PushKeepsChain(lines, stack, i);
    p := Top(stack, |stack|);
    stack := stack + [i];
  }
}
