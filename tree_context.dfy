/**
 * The tree-walking call-context analyser of `hydra-completions/index.js`
 * and the upward walk that decides whether the cursor follows a function
 * call (`afterFunction`) and which one (`lastFunctionName`).
 */
module TreeContext {
  import opened Common
  import opened SyntaxTree

  predicate IsArgList(nd: Node) {
    nd.kind == ArgList
  }

  /** The argument list `findFunctionContext` settles on: the first ArgList on the walk up, the root excluded. */
  function EnclosingArgList(t: Tree, n: nat): (r: Option<nat>)
    requires WellFormed(t) && n < |t|
    ensures r.Some? ==> r.value < |t| && t[r.value].kind == ArgList && t[r.value].parent.Some?
  {
    FirstAbove(t, n, IsArgList)
  }

  // ---------------------------------------------------------------------
  // Counting the commas before the cursor
  // ---------------------------------------------------------------------

  /** The `,` nodes directly under `arg` that start before `pos`. */
  function CommasBefore(t: Tree, arg: nat, pos: nat): set<nat>
    requires WellFormed(t) && arg < |t|
  {
    set c | 0 <= c < |t| && t[c].parent == Some(arg) && t[c].kind == Comma && t[c].from < pos
  }

  /** How many of the listed children are `,` nodes that start before `pos`. */
  function CountCommas(t: Tree, kids: seq<nat>, pos: nat): (k: nat)
    requires forall m :: 0 <= m < |kids| ==> kids[m] < |t|
    ensures k <= |kids|
  {
    if kids == [] then 0
    else
      var last := kids[|kids| - 1];
      CountCommas(t, kids[..|kids| - 1], pos) + (if t[last].kind == Comma && t[last].from < pos then 1 else 0)
  }

  /** The `,` children before `pos` among the listed ones. */
  function CommaSet(t: Tree, kids: seq<nat>, pos: nat): set<nat>
    requires forall m :: 0 <= m < |kids| ==> kids[m] < |t|
  {
    set c | c in kids && t[c].kind == Comma && t[c].from < pos
  }

  /** Listing one more child adds it to the set exactly when it is a `,` before `pos`. */
  lemma CommaSetSnoc(t: Tree, kids: seq<nat>, pos: nat)
    requires kids != [] && forall m :: 0 <= m < |kids| ==> kids[m] < |t|
    ensures var last := kids[|kids| - 1];
      CommaSet(t, kids, pos) ==
        CommaSet(t, kids[..|kids| - 1], pos) + (if t[last].kind == Comma && t[last].from < pos then {last} else {})
  {
    assert kids == kids[..|kids| - 1] + [kids[|kids| - 1]];
  }

  /** CountCommas over distinct children counts the set of such children. */
  lemma {:induction false} CountCommasIsSetSize(t: Tree, kids: seq<nat>, pos: nat)
    requires forall m :: 0 <= m < |kids| ==> kids[m] < |t|
    requires forall m, q :: 0 <= m < q < |kids| ==> kids[m] != kids[q]
    ensures CountCommas(t, kids, pos) == |CommaSet(t, kids, pos)|
    decreases |kids|
  {
    if kids != [] {
      var init := kids[..|kids| - 1];
      var last := kids[|kids| - 1];
      CountCommasIsSetSize(t, init, pos);
      assert last !in init by {
        forall m | 0 <= m < |init|
          ensures init[m] != last
        {
          assert kids[m] != kids[|kids| - 1];
        }
      }
      CommaSetSnoc(t, kids, pos);
    }
  }

  /** The commas counted are exactly the `,` children of the argument list that start before `pos`. */
  lemma CommaCountIsCommasBefore(t: Tree, arg: nat, pos: nat)
    requires WellFormed(t) && arg < |t|
    ensures CountCommas(t, t[arg].children, pos) == |CommasBefore(t, arg, pos)|
  {
    var kids := t[arg].children;
    CountCommasIsSetSize(t, kids, pos);
    assert CommaSet(t, kids, pos) == CommasBefore(t, arg, pos);
  }

  /**
   * The sibling loop of `findFunctionContext`: walks the children of the
   * argument list left to right and counts the `,` nodes that start before
   * `pos`.
   */
  method CountCommasBefore(t: Tree, arg: nat, pos: nat) returns (paramIndex: nat)
    requires WellFormed(t) && arg < |t|
    ensures paramIndex == |CommasBefore(t, arg, pos)|
  {
    var kids := t[arg].children;
    paramIndex := 0;
    var k := 0;
    while k < |kids|
      invariant k <= |kids|
      invariant paramIndex == CountCommas(t, kids[..k], pos)
    {
      var child := kids[k];
      if t[child].kind == Comma {
        if t[child].from < pos {
          paramIndex := paramIndex + 1;
        }
      }
      assert kids[..k + 1][..k] == kids[..k];
      k := k + 1;
    }
    assert kids[..k] == kids;
    CommaCountIsCommasBefore(t, arg, pos);
  }

  // ---------------------------------------------------------------------
  // The callee name and findFunctionContext
  // ---------------------------------------------------------------------

  /**
   * The name of the called function: the text of the member expression's
   * last child when the call is a method call and that child is a
   * PropertyName; otherwise the text of the call's first child when it is a
   * VariableName.
   */
  function CalleeName(t: Tree, doc: string, call: nat): (r: Option<string>)
    requires Valid(t, doc) && call < |t|
    ensures match t[call].parent
      case Some(p) =>
        t[p].kind == MemberExpression ==>
          (r.Some? <==> KindIs(t, LastChild(t, p), PropertyName))
          && (r.Some? ==> r.value == Text(t, doc, LastChild(t, p).value))
      case None => true
    ensures (t[call].parent.None? || t[t[call].parent.value].kind != MemberExpression) ==>
      (r.Some? <==> KindIs(t, FirstChild(t, call), VariableName))
      && (r.Some? ==> r.value == Text(t, doc, FirstChild(t, call).value))
  {
    if t[call].parent.Some? && t[t[call].parent.value].kind == MemberExpression then
      var prop := LastChild(t, t[call].parent.value);
      if KindIs(t, prop, PropertyName) then Some(Text(t, doc, prop.value)) else None
    else
      var callee := FirstChild(t, call);
      if KindIs(t, callee, VariableName) then Some(Text(t, doc, callee.value)) else None
  }

  /**
   * The context the index.js walk answers with: the callee name and the
   * comma count when the first argument list above `node` belongs to a call,
   * and no call otherwise.
   */
  function TreeCallContext(t: Tree, doc: string, node: nat): CallContext
    requires Valid(t, doc) && node < |t|
  {
    match EnclosingArgList(t, node)
    case None => NoCall
    case Some(arg) =>
      var call := t[arg].parent.value;
      if t[call].kind == CallExpression then CallContext(CalleeName(t, doc, call), |CommasBefore(t, arg, t[node].from)|)
      else NoCall
  }

  /**
   * `findFunctionContext(node, context)` of index.js: walks up from `node` to
   * the first argument list below the root; when that list belongs to a call,
   * answers with the call's name and the number of commas before `node`.
   */
  method FindFunctionContext(t: Tree, doc: string, node: nat) returns (r: CallContext)
    requires Valid(t, doc) && node < |t|
    ensures EnclosingArgList(t, node).None? ==> r == NoCall
    ensures EnclosingArgList(t, node).Some? ==>
      var arg := EnclosingArgList(t, node).value;
      var call := t[arg].parent.value;
      if t[call].kind == CallExpression then
        r == CallContext(CalleeName(t, doc, call), |CommasBefore(t, arg, t[node].from)|)
      else r == NoCall
  {
    var current: nat := node;
    while t[current].parent.Some?
      invariant current < |t|
      invariant FirstAbove(t, current, IsArgList) == FirstAbove(t, node, IsArgList)
      decreases current
    {
      if t[current].kind == ArgList {
        break;
      }
      current := t[current].parent.value;
    }
    if t[current].parent.None? {
      return NoCall;
    }
    var callExpr := t[current].parent.value;
    if t[callExpr].kind != CallExpression {
      return NoCall;
    }
    var paramIndex := CountCommasBefore(t, current, t[node].from);
    var functionName := CalleeName(t, doc, callExpr);
    r := CallContext(functionName, paramIndex);
  }

  // ---------------------------------------------------------------------
  // The afterFunction walk
  // ---------------------------------------------------------------------

  /** The nodes the afterFunction walk stops at: a call, a member expression or a property name. */
  predicate FunctionMarker(nd: Node) {
    nd.kind == CallExpression || nd.kind == MemberExpression || nd.kind == PropertyName
  }

  /**
   * The name the walk records at the node it stops at. A call (or a member
   * expression ending in a call) is named by the property its parent member
   * expression ends with, or else by its own first child; another member
   * expression by its last child; a PropertyName by `node.name`, which is
   * the node's kind name "PropertyName", not its text.
   */
  function NameAtStop(t: Tree, doc: string, f: nat): (r: Option<string>)
    requires Valid(t, doc) && f < |t| && t[f].parent.Some?
    requires FunctionMarker(t[f])
    ensures t[f].kind == PropertyName ==> r == Some("PropertyName")
    ensures t[f].kind == MemberExpression && !KindIs(t, LastChild(t, f), CallExpression) ==>
      r == NameOf(t, doc, LastChild(t, f))
    ensures t[f].kind == CallExpression || (t[f].kind == MemberExpression && KindIs(t, LastChild(t, f), CallExpression)) ==>
      r == (if t[t[f].parent.value].kind == MemberExpression then NameOf(t, doc, LastChild(t, t[f].parent.value))
            else NameOf(t, doc, FirstChild(t, f)))
  {
    match t[f].kind
    case PropertyName => Some("PropertyName")
    case MemberExpression =>
      if KindIs(t, LastChild(t, f), CallExpression) then CallName(t, doc, f)
      else NameOf(t, doc, LastChild(t, f))
    case CallExpression => CallName(t, doc, f)
  }

  /** The call branch of the walk (`getFunctionNameFromNode` of the parent's last child or of the first child). */
  function CallName(t: Tree, doc: string, f: nat): Option<string>
    requires Valid(t, doc) && f < |t| && t[f].parent.Some?
  {
    var p := t[f].parent.value;
    if t[p].kind == MemberExpression then NameOf(t, doc, LastChild(t, p)) else NameOf(t, doc, FirstChild(t, f))
  }

  /** The name the afterFunction walk records: the name at the first stop, or null without one. */
  function AfterFunctionName(t: Tree, doc: string, n: nat): Option<string>
    requires Valid(t, doc) && n < |t|
  {
    match FirstAbove(t, n, FunctionMarker)
    case None => None
    case Some(f) => NameAtStop(t, doc, f)
  }

  /**
   * The afterFunction walk of `hydraSuggestions` (index.js; hydra-completions.js
   * has the same loop): from `nodeBefore` upwards, below the root, stop at the
   * first call, member expression or property name and record its name.
   */
  method AfterFunctionWalk(t: Tree, doc: string, nodeBefore: nat) returns (afterFunction: bool, lastFunctionName: Option<string>)
    requires Valid(t, doc) && nodeBefore < |t|
    ensures afterFunction <==> FirstAbove(t, nodeBefore, FunctionMarker).Some?
    ensures afterFunction ==> lastFunctionName == NameAtStop(t, doc, FirstAbove(t, nodeBefore, FunctionMarker).value)
    ensures !afterFunction ==> lastFunctionName.None?
  {
    afterFunction := false;
    lastFunctionName := None;
    var node: nat := nodeBefore;
    while t[node].parent.Some?
      invariant node < |t|
      invariant FirstAbove(t, node, FunctionMarker) == FirstAbove(t, nodeBefore, FunctionMarker)
      decreases node
    {
      var p := t[node].parent.value;
      if t[node].kind == CallExpression || (t[node].kind == MemberExpression && KindIs(t, LastChild(t, node), CallExpression)) {
        if t[p].kind == MemberExpression {
          lastFunctionName := NameOf(t, doc, LastChild(t, p));
        } else {
          lastFunctionName := NameOf(t, doc, FirstChild(t, node));
        }
        afterFunction := true;
        return;
      }
      if t[node].kind == MemberExpression {
        lastFunctionName := NameOf(t, doc, LastChild(t, node));
        afterFunction := true;
        return;
      }
      if t[node].kind == PropertyName {
        lastFunctionName := Some("PropertyName");
        afterFunction := true;
        return;
      }
      node := p;
    }
  }

  /**
   * The walk stops at the first call, member expression or property name on
   * the path to the root, and finds none exactly when no node below the
   * root on that path is one.
   */
  lemma AfterFunctionOnPath(t: Tree, n: nat)
    requires WellFormed(t) && n < |t|
    ensures FirstAbove(t, n, FunctionMarker).Some? <==>
      exists j :: 0 <= j < |Ancestors(t, n)| - 1 && FunctionMarker(t[Ancestors(t, n)[j]])
  {
    FirstAboveIff(t, n, FunctionMarker);
  }
}
