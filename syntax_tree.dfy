/**
 * The parse tree the completion engine reads, as an arena: node `i` of a
 * `Tree` is `t[i]`, its parent is an index (the root has none) and its
 * children are an ordered list of indices. Parents are stored before their
 * children, which is how every upward walk is seen to end.
 */
module SyntaxTree {
  import opened Common

  /** The node kinds the engine tests for; every other kind is `Other`. */
  datatype Kind =
    | CallExpression
    | MemberExpression
    | ArgList
    | PropertyName
    | VariableName
    | Dot          // the "." token
    | Comma        // the "," token
    | ExpressionStatement
    | Other

  /**
   * One syntax node: its kind, its span `[from, to)` in the document, its
   * parent, its children left to right, and whether the parser tagged it
   * with the `continuedIndent` property.
   */
  datatype Node = Node(
    kind: Kind,
    from: nat,
    to: nat,
    parent: Option<nat>,
    children: seq<nat>,
    continuedIndent: bool)

  type Tree = seq<Node>

  /** Parent and child links agree, parents come first, no child is listed twice. */
  predicate WellFormed(t: Tree) {
    && (forall i :: 0 <= i < |t| && t[i].parent.Some? ==> t[i].parent.value < i)
    && (forall i, k :: 0 <= i < |t| && 0 <= k < |t[i].children| ==>
          t[i].children[k] < |t| && t[t[i].children[k]].parent == Some(i))
    && (forall c :: 0 <= c < |t| && t[c].parent.Some? ==> c in t[t[c].parent.value].children)
    && (forall i, k, m :: 0 <= i < |t| && 0 <= k < m < |t[i].children| ==>
          t[i].children[k] != t[i].children[m])
  }

  /** A well-formed tree over `doc`: every span lies inside the document. */
  predicate Valid(t: Tree, doc: string) {
    WellFormed(t) && forall i :: 0 <= i < |t| ==> t[i].from <= t[i].to <= |doc|
  }

  /** `sliceString(node.from, node.to)`: the text a node covers. */
  function Text(t: Tree, doc: string, n: nat): (s: string)
    requires Valid(t, doc) && n < |t|
    ensures |s| == t[n].to - t[n].from
  {
    doc[t[n].from..t[n].to]
  }

  function FirstChild(t: Tree, n: nat): (r: Option<nat>)
    requires WellFormed(t) && n < |t|
    ensures r.Some? ==> r.value < |t| && t[r.value].parent == Some(n)
    ensures r.None? <==> t[n].children == []
  {
    if t[n].children == [] then None else Some(t[n].children[0])
  }

  function LastChild(t: Tree, n: nat): (r: Option<nat>)
    requires WellFormed(t) && n < |t|
    ensures r.Some? ==> r.value < |t| && t[r.value].parent == Some(n)
    ensures r.None? <==> t[n].children == []
  {
    if t[n].children == [] then None else Some(t[n].children[|t[n].children| - 1])
  }

  /** Whether node `n` exists and has kind `k` (`node?.type.name === k`). */
  predicate KindIs(t: Tree, n: Option<nat>, k: Kind)
    requires n.Some? ==> n.value < |t|
  {
    n.Some? && t[n.value].kind == k
  }

  /**
   * `getFunctionNameFromNode`: the text of a PropertyName or VariableName
   * node, and null for anything else or for no node.
   */
  function NameOf(t: Tree, doc: string, n: Option<nat>): (r: Option<string>)
    requires Valid(t, doc) && (n.Some? ==> n.value < |t|)
    ensures r.Some? <==> KindIs(t, n, PropertyName) || KindIs(t, n, VariableName)
    ensures r.Some? ==> r.value == Text(t, doc, n.value)
  {
    if KindIs(t, n, PropertyName) || KindIs(t, n, VariableName) then Some(Text(t, doc, n.value)) else None
  }

  /** The path from `n` up to the root: `n`, its parent, its grandparent, ... */
  function Ancestors(t: Tree, n: nat): (path: seq<nat>)
    requires WellFormed(t) && n < |t|
    ensures |path| >= 1 && path[0] == n
    ensures forall j :: 0 <= j < |path| ==> path[j] < |t|
    ensures forall j :: 0 <= j < |path| - 1 ==> t[path[j]].parent == Some(path[j + 1])
    ensures t[path[|path| - 1]].parent.None?
    decreases n
  {
    match t[n].parent
    case None => [n]
    case Some(p) => [n] + Ancestors(t, p)
  }

  /**
   * The walk `while (node && node._parent) { if (P(node)) ...; node = node._parent }`:
   * the first node from `n` upwards that satisfies `P`, the root excluded.
   */
  function FirstAbove(t: Tree, n: nat, P: Node -> bool): (r: Option<nat>)
    requires WellFormed(t) && n < |t|
    ensures r.Some? ==> r.value <= n && P(t[r.value]) && t[r.value].parent.Some?
    decreases n
  {
    match t[n].parent
    case None => None
    case Some(p) => if P(t[n]) then Some(n) else FirstAbove(t, p, P)
  }

  /** What FirstAbove found is on the path below the root, and no node before it on the path satisfies `P`. */
  lemma {:induction false} FirstAboveOnPath(t: Tree, n: nat, P: Node -> bool) returns (j: nat)
    requires WellFormed(t) && n < |t| && FirstAbove(t, n, P).Some?
    ensures j < |Ancestors(t, n)| - 1 && Ancestors(t, n)[j] == FirstAbove(t, n, P).value
    ensures forall k :: 0 <= k < j ==> !P(t[Ancestors(t, n)[k]])
    decreases n
  {
    var p := t[n].parent.value;
    assert Ancestors(t, n) == [n] + Ancestors(t, p);
    if P(t[n]) {
      j := 0;
    } else {
      var i := FirstAboveOnPath(t, p, P);
      j := i + 1;
      forall k | 0 <= k < j
        ensures !P(t[Ancestors(t, n)[k]])
      {
        if k > 0 {
          assert Ancestors(t, n)[k] == Ancestors(t, p)[k - 1];
        }
      }
    }
  }

  /** When FirstAbove finds nothing, no node on the path below the root satisfies `P`. */
  lemma {:induction false} FirstAboveNoneOnPath(t: Tree, n: nat, P: Node -> bool)
    requires WellFormed(t) && n < |t| && FirstAbove(t, n, P).None?
    ensures forall k :: 0 <= k < |Ancestors(t, n)| - 1 ==> !P(t[Ancestors(t, n)[k]])
    decreases n
  {
    match t[n].parent
    case None =>
    case Some(p) =>
      assert Ancestors(t, n) == [n] + Ancestors(t, p);
      FirstAboveNoneOnPath(t, p, P);
      forall k | 0 <= k < |Ancestors(t, n)| - 1
        ensures !P(t[Ancestors(t, n)[k]])
      {
        if k > 0 {
          assert Ancestors(t, n)[k] == Ancestors(t, p)[k - 1];
        }
      }
  }

  /** FirstAbove finds a node exactly when some node on the path below the root satisfies `P`. */
  lemma FirstAboveIff(t: Tree, n: nat, P: Node -> bool)
    requires WellFormed(t) && n < |t|
    ensures FirstAbove(t, n, P).Some? <==>
      exists k :: 0 <= k < |Ancestors(t, n)| - 1 && P(t[Ancestors(t, n)[k]])
  {
    if FirstAbove(t, n, P).Some? {
      var j := FirstAboveOnPath(t, n, P);
      assert P(t[Ancestors(t, n)[j]]);
    } else {
      FirstAboveNoneOnPath(t, n, P);
    }
  }
}
