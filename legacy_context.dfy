/**
 * The older analyser of `hydra-completions.js`: its tree-walking
 * `findFunctionContext` (with `findContainingCallExpression` and the
 * method-chain fallback), the text heuristics `analyzeHeuristics` and the
 * CSS class table `getCompletionClass`.
 */
module LegacyContext {
  import opened Common
  import opened SyntaxTree
  import opened TreeContext

  // ---------------------------------------------------------------------
  // findContainingCallExpression
  // ---------------------------------------------------------------------

  /** `getChild('ArgList')`: the first child of `n` that is an argument list. */
  function ArgListChild(t: Tree, n: nat): (r: Option<nat>)
    requires WellFormed(t) && n < |t|
    ensures r.Some? ==> r.value < |t| && t[r.value].kind == ArgList && r.value in t[n].children
    ensures r.None? ==> forall k :: 0 <= k < |t[n].children| ==> t[t[n].children[k]].kind != ArgList
  {
    FirstOfKind(t, t[n].children, ArgList)
  }

  /** The first of `kids` whose node has kind `k`: no earlier child has that kind. */
  function FirstOfKind(t: Tree, kids: seq<nat>, k: Kind): (r: Option<nat>)
    requires forall m :: 0 <= m < |kids| ==> kids[m] < |t|
    ensures r.Some? ==> r.value < |t| && t[r.value].kind == k && r.value in kids
    ensures r.Some? ==> exists i :: 0 <= i < |kids| && kids[i] == r.value && forall m :: 0 <= m < i ==> t[kids[m]].kind != k
    ensures r.None? ==> forall m :: 0 <= m < |kids| ==> t[kids[m]].kind != k
  {
    if kids == [] then None
    else if t[kids[0]].kind == k then
      assert kids[0] == kids[0];
      Some(kids[0])
    else
      var r := FirstOfKind(t, kids[1..], k);
      if r.Some? then
        var i :| 0 <= i < |kids[1..]| && kids[1..][i] == r.value && forall m :: 0 <= m < i ==> t[kids[1..][m]].kind != k;
        assert kids[i + 1] == r.value;
        assert forall m :: 0 < m < i + 1 ==> t[kids[m]].kind == t[kids[1..][m - 1]].kind;
        r
      else r
  }

  /** A child is the cursor node itself or spans it. */
  predicate Holds(t: Tree, child: nat, node: nat)
    requires child < |t| && node < |t|
  {
    child == node || (t[child].from <= t[node].from && t[child].to >= t[node].to)
  }

  /** Whether `call` is a call whose argument list has a child that is, or spans, `node`. */
  predicate ContainsArgument(t: Tree, call: nat, node: nat)
    requires WellFormed(t) && call < |t| && node < |t|
  {
    t[call].kind == CallExpression &&
    match ArgListChild(t, call)
    case None => false
    case Some(a) => exists k :: 0 <= k < |t[a].children| && Holds(t, t[a].children[k], node)
  }

  /** The first call from `c` upwards, below the root, that contains `node` among its arguments. */
  function ContainingCall(t: Tree, c: nat, node: nat): (r: Option<nat>)
    requires WellFormed(t) && c < |t| && node < |t|
    ensures r.Some? ==> r.value <= c && t[r.value].parent.Some? && ContainsArgument(t, r.value, node)
    decreases c
  {
    match t[c].parent
    case None => None
    case Some(p) => if ContainsArgument(t, c, node) then Some(c) else ContainingCall(t, p, node)
  }

  /** A call found lies on the path below the root, and no node before it on the path contains `node`. */
  lemma {:induction false} ContainingCallOnPath(t: Tree, c: nat, node: nat) returns (j: nat)
    requires WellFormed(t) && c < |t| && node < |t| && ContainingCall(t, c, node).Some?
    ensures j < |Ancestors(t, c)| - 1 && Ancestors(t, c)[j] == ContainingCall(t, c, node).value
    ensures forall k :: 0 <= k < j ==> !ContainsArgument(t, Ancestors(t, c)[k], node)
    decreases c
  {
    var p := t[c].parent.value;
    assert Ancestors(t, c) == [c] + Ancestors(t, p);
    if ContainsArgument(t, c, node) {
      j := 0;
    } else {
      var i := ContainingCallOnPath(t, p, node);
      j := i + 1;
      forall k | 0 <= k < j
        ensures !ContainsArgument(t, Ancestors(t, c)[k], node)
      {
        if k > 0 {
          assert Ancestors(t, c)[k] == Ancestors(t, p)[k - 1];
        }
      }
    }
  }

  /** When no call is found, no call on the path below the root contains `node`. */
  lemma {:induction false} ContainingCallNone(t: Tree, c: nat, node: nat)
    requires WellFormed(t) && c < |t| && node < |t|
    requires ContainingCall(t, c, node).None?
    ensures forall k :: 0 <= k < |Ancestors(t, c)| - 1 ==> !ContainsArgument(t, Ancestors(t, c)[k], node)
    decreases c
  {
    match t[c].parent
    case None =>
    case Some(p) =>
      assert Ancestors(t, c) == [c] + Ancestors(t, p);
      ContainingCallNone(t, p, node);
      forall k | 0 <= k < |Ancestors(t, c)| - 1
        ensures !ContainsArgument(t, Ancestors(t, c)[k], node)
      {
        if k > 0 {
          assert Ancestors(t, c)[k] == Ancestors(t, p)[k - 1];
        }
      }
  }

  /** The inner loop: whether some child of the argument list `a` is or spans `node`. */
  method SomeChildHolds(t: Tree, a: nat, node: nat) returns (found: bool)
    requires WellFormed(t) && a < |t| && node < |t|
    ensures found <==> exists k :: 0 <= k < |t[a].children| && Holds(t, t[a].children[k], node)
  {
    var kids := t[a].children;
    var k := 0;
    while k < |kids|
      invariant k <= |kids|
      invariant forall m :: 0 <= m < k ==> !Holds(t, kids[m], node)
    {
      var child := kids[k];
      if child == node || (t[child].from <= t[node].from && t[child].to >= t[node].to) {
        return true;
      }
      k := k + 1;
    }
    return false;
  }

  /**
   * `findContainingCallExpression(node, current)`: walks up from `current`
   * while it has a parent and answers with the first call whose argument
   * list has a child that is, or spans, `node`; null at the root.
   */
  method FindContainingCallExpression(t: Tree, node: nat, start: nat) returns (r: Option<nat>)
    requires WellFormed(t) && node < |t| && start < |t|
    ensures r == ContainingCall(t, start, node)
  {
    var current: nat := start;
    while t[current].parent.Some?
      invariant current < |t|
      invariant ContainingCall(t, current, node) == ContainingCall(t, start, node)
      decreases current
    {
      if t[current].kind == CallExpression {
        var argList := ArgListChild(t, current);
        if argList.Some? {
          var holds := SomeChildHolds(t, argList.value, node);
          if holds {
            return Some(current);
          }
        }
      }
      current := t[current].parent.value;
    }
    return None;
  }

  // ---------------------------------------------------------------------
  // The method-chain fallback
  // ---------------------------------------------------------------------

  /** Where the chain fallback stops: a member expression, or a call that is the object of one. */
  predicate ChainStop(t: Tree, n: nat)
    requires WellFormed(t) && n < |t|
  {
    t[n].kind == MemberExpression
    || (t[n].kind == CallExpression && t[n].parent.Some? && t[t[n].parent.value].kind == MemberExpression)
  }

  /** The first chain stop from `n` upwards, the root included (`while (chainNode && ...)`). */
  function ChainStopAbove(t: Tree, n: nat): (r: Option<nat>)
    requires WellFormed(t) && n < |t|
    ensures r.Some? ==> r.value <= n && ChainStop(t, r.value)
    decreases n
  {
    if ChainStop(t, n) then Some(n)
    else match t[n].parent
      case None => None
      case Some(p) => ChainStopAbove(t, p)
  }

  /** A stop found lies on the path from `n`, the root included, and no node before it on the path is a stop. */
  lemma {:induction false} ChainStopAboveOnPath(t: Tree, n: nat) returns (j: nat)
    requires WellFormed(t) && n < |t| && ChainStopAbove(t, n).Some?
    ensures j < |Ancestors(t, n)| && Ancestors(t, n)[j] == ChainStopAbove(t, n).value
    ensures forall k :: 0 <= k < j ==> !ChainStop(t, Ancestors(t, n)[k])
    decreases n
  {
    if ChainStop(t, n) {
      j := 0;
    } else {
      var p := t[n].parent.value;
      assert Ancestors(t, n) == [n] + Ancestors(t, p);
      var i := ChainStopAboveOnPath(t, p);
      j := i + 1;
      forall k | 0 <= k < j
        ensures !ChainStop(t, Ancestors(t, n)[k])
      {
        if k > 0 {
          assert Ancestors(t, n)[k] == Ancestors(t, p)[k - 1];
        }
      }
    }
  }

  /** When no stop is found, no node on the path from `n`, the root included, is a stop. */
  lemma {:induction false} ChainStopAboveNone(t: Tree, n: nat)
    requires WellFormed(t) && n < |t| && ChainStopAbove(t, n).None?
    ensures forall k :: 0 <= k < |Ancestors(t, n)| ==> !ChainStop(t, Ancestors(t, n)[k])
    decreases n
  {
    match t[n].parent
    case None =>
      assert Ancestors(t, n) == [n];
    case Some(p) =>
      assert Ancestors(t, n) == [n] + Ancestors(t, p);
      ChainStopAboveNone(t, p);
      forall k | 0 <= k < |Ancestors(t, n)|
        ensures !ChainStop(t, Ancestors(t, n)[k])
      {
        if k > 0 {
          assert Ancestors(t, n)[k] == Ancestors(t, p)[k - 1];
        }
      }
  }

  /**
   * The name the fallback reads at its stop: the text of a member
   * expression's last child (of any kind), or of the last child of the
   * member expression a call is the object of. A member expression without
   * children leaves the name as it was (`keep`).
   */
  function ChainName(t: Tree, doc: string, stop: nat, keep: Option<string>): (r: Option<string>)
    requires Valid(t, doc) && stop < |t| && ChainStop(t, stop)
    ensures t[stop].kind == MemberExpression && LastChild(t, stop).Some? ==> r == Some(Text(t, doc, LastChild(t, stop).value))
    ensures t[stop].kind == MemberExpression && LastChild(t, stop).None? ==> r == keep
    ensures t[stop].kind == CallExpression ==> r.Some? && r.value == Text(t, doc, LastChild(t, t[stop].parent.value).value)
  {
    if t[stop].kind == MemberExpression then
      match LastChild(t, stop)
      case Some(last) => Some(Text(t, doc, last))
      case None => keep
    else
      var p := t[stop].parent.value;
      assert stop in t[p].children;
      Some(Text(t, doc, LastChild(t, p).value))
  }

  /** The fallback loop: from the argument list upwards, the root included, to the first chain stop. */
  method ChainFallback(t: Tree, doc: string, start: nat, functionName: Option<string>) returns (r: Option<string>)
    requires Valid(t, doc) && start < |t|
    ensures ChainStopAbove(t, start).None? ==> r == functionName
    ensures ChainStopAbove(t, start).Some? ==> r == ChainName(t, doc, ChainStopAbove(t, start).value, functionName)
  {
    r := functionName;
    var chainNode: nat := start;
    while true
      invariant chainNode < |t|
      invariant ChainStopAbove(t, chainNode) == ChainStopAbove(t, start)
      decreases chainNode
    {
      if t[chainNode].kind == MemberExpression {
        var lastChild := LastChild(t, chainNode);
        if lastChild.Some? {
          r := Some(Text(t, doc, lastChild.value));
        }
        return;
      }
      if t[chainNode].kind == CallExpression && t[chainNode].parent.Some? && t[t[chainNode].parent.value].kind == MemberExpression {
        var p := t[chainNode].parent.value;
        var lastChild := LastChild(t, p);
        if lastChild.Some? {
          r := Some(Text(t, doc, lastChild.value));
        }
        return;
      }
      if t[chainNode].parent.None? {
        return;
      }
      chainNode := t[chainNode].parent.value;
    }
  }

  // ---------------------------------------------------------------------
  // findFunctionContext of hydra-completions.js
  // ---------------------------------------------------------------------

  /**
   * The name before the chain fallback: the name of the call that contains
   * the cursor (the same rule as the afterFunction walk's CallName), or null
   * when no call contains it.
   */
  function DirectName(t: Tree, doc: string, arg: nat, node: nat): Option<string>
    requires Valid(t, doc) && arg < |t| && node < |t| && t[arg].parent.Some?
  {
    match ContainingCall(t, t[arg].parent.value, node)
    case None => None
    case Some(target) => CallName(t, doc, target)
  }

  /**
   * The context the legacy walk answers with: the comma count at the first
   * argument list above `node`, and the containing call's name, or the
   * chain-fallback name when that one is not truthy.
   */
  function LegacyCallContext(t: Tree, doc: string, node: nat): CallContext
    requires Valid(t, doc) && node < |t|
  {
    match EnclosingArgList(t, node)
    case None => NoCall
    case Some(arg) =>
      var direct := DirectName(t, doc, arg, node);
      var name :=
        if Truthy(direct) then direct
        else match ChainStopAbove(t, arg)
          case None => direct
          case Some(stop) => ChainName(t, doc, stop, direct);
      CallContext(name, |CommasBefore(t, arg, t[node].from)|)
  }

  /**
   * `findFunctionContext(node, context)` of hydra-completions.js: at the first
   * argument list above `node` (the root excluded) it counts the commas
   * before `node`, names the innermost call holding `node` in its
   * arguments, and, when that gives no (or an empty) name, reads the name
   * off the method chain above the argument list.
   */
  method FindFunctionContext(t: Tree, doc: string, node: nat) returns (r: CallContext)
    requires Valid(t, doc) && node < |t|
    ensures EnclosingArgList(t, node).None? ==> r == NoCall
    ensures EnclosingArgList(t, node).Some? ==>
      var arg := EnclosingArgList(t, node).value;
      && r.paramIndex == |CommasBefore(t, arg, t[node].from)|
      && (Truthy(DirectName(t, doc, arg, node)) ==> r.functionName == DirectName(t, doc, arg, node))
      && (!Truthy(DirectName(t, doc, arg, node)) && ChainStopAbove(t, arg).None? ==>
            r.functionName == DirectName(t, doc, arg, node))
      && (!Truthy(DirectName(t, doc, arg, node)) && ChainStopAbove(t, arg).Some? ==>
            r.functionName == ChainName(t, doc, ChainStopAbove(t, arg).value, DirectName(t, doc, arg, node)))
  {
    var current: nat := node;
    while t[current].parent.Some?
      invariant current < |t|
      invariant FirstAbove(t, current, IsArgList) == FirstAbove(t, node, IsArgList)
      decreases current
    {
      if t[current].kind == ArgList {
        var callNode := t[current].parent.value;
        var paramIndex := CountCommasBefore(t, current, t[node].from);
        var functionName: Option<string> := None;
        var targetCallExpr := FindContainingCallExpression(t, node, callNode);
        if targetCallExpr.Some? {
          var target := targetCallExpr.value;
          if t[t[target].parent.value].kind == MemberExpression {
            functionName := NameOf(t, doc, LastChild(t, t[target].parent.value));
          } else {
            functionName := NameOf(t, doc, FirstChild(t, target));
          }
        }
        if !Truthy(functionName) {
          functionName := ChainFallback(t, doc, current, functionName);
        }
        return CallContext(functionName, paramIndex);
      }
      current := t[current].parent.value;
    }
    return NoCall;
  }

  // ---------------------------------------------------------------------
  // analyzeHeuristics
  // ---------------------------------------------------------------------

  /** `/\([^)]*$/`: some `(` of `text` has no `)` after it. */
  predicate InsideParens(text: string) {
    exists i :: 0 <= i < |text| && text[i] == '(' && ')' !in text[i + 1..]
  }

  /** InsideParens decided by the last `(` alone: it holds iff the last `(` comes after every `)`. */
  lemma InsideParensByLast(text: string)
    ensures InsideParens(text) <==>
      match LastIndexOf(text, '(')
      case None => false
      case Some(i) => ')' !in text[i + 1..]
  {
    match LastIndexOf(text, '(')
    case None =>
    case Some(last) =>
      if InsideParens(text) {
        var i :| 0 <= i < |text| && text[i] == '(' && ')' !in text[i + 1..];
        assert forall j :: last < j < |text| ==> text[last + 1..][j - last - 1] == text[j];
        var tail := text[last + 1..];
        forall m | 0 <= m < |tail|
          ensures tail[m] != ')'
        {
          assert tail[m] == text[i + 1..][last + m - i];
        }
      }
  }

  /** One guess of `analyzeHeuristics`: whether it is active and the first reason for it. */
  datatype Heuristic = Heuristic(active: bool, reason: Option<string>)

  datatype Heuristics = Heuristics(maybeParameters: Heuristic, maybeMethodChainFunc: Heuristic, maybeSource: Heuristic)

  /**
   * `maybeParameters` as written: active when the PARITIES of the `(` and
   * `)` counts differ, or inside parentheses, while its reason compares the
   * counts themselves.
   */
  function MaybeParametersAsWritten(text: string): (h: Heuristic)
    ensures h.reason == Some("unbalanced_parens") <==> Count(text, '(') != Count(text, ')')
    ensures h.reason == Some("inside_parens") <==> Count(text, '(') == Count(text, ')') && InsideParens(text)
    ensures h.reason.None? <==> Count(text, '(') == Count(text, ')') && !InsideParens(text)
    ensures h.active <==> Count(text, '(') % 2 != Count(text, ')') % 2 || InsideParens(text)
  {
    var open := Count(text, '(');
    var close := Count(text, ')');
    Heuristic(
      open % 2 != close % 2 || InsideParens(text),
      if open != close then Some("unbalanced_parens") else if InsideParens(text) then Some("inside_parens") else None)
  }

  /** With two more `(` than `)`, and the last `(` closed, the heuristic reports a reason but is not active. */
  lemma ParityMissesUnbalanced(text: string)
    requires text == "(((x)"
    ensures MaybeParametersAsWritten(text).reason == Some("unbalanced_parens")
    ensures !MaybeParametersAsWritten(text).active
  {
    ParityExampleCounts(text);
    ParityExampleClosed(text);
  }

  lemma ParityExampleCounts(text: string)
    requires text == "(((x)"
    ensures Count(text, '(') == 3 && Count(text, ')') == 1
  {
    var s1 := ['('];
    var s2 := s1 + ['('];
    var s3 := s2 + ['('];
    var s4 := s3 + ['x'];
    assert text == s4 + [')'];
    CountSnoc(s1, '(', '(');
    CountSnoc(s2, '(', '(');
    CountSnoc(s3, 'x', '(');
    CountSnoc(s4, ')', '(');
    CountSnoc(s1, '(', ')');
    CountSnoc(s2, '(', ')');
    CountSnoc(s3, 'x', ')');
    CountSnoc(s4, ')', ')');
  }

  lemma ParityExampleClosed(text: string)
    requires text == "(((x)"
    ensures !InsideParens(text)
  {
    InsideParensByLast(text);
    var last := LastIndexOf(text, '(');
    assert text[3] != '(' && text[4] != '(';
    assert last == Some(2);
    assert text[3..][1] == ')';
  }

  /** Appending one character adds one to its own count and nothing to another's. */
  lemma CountSnoc(s: string, c: char, x: char)
    ensures Count(s + [c], x) == Count(s, x) + (if c == x then 1 else 0)
  {
    assert (s + [c])[..|s|] == s;
  }

  /** `maybeParameters` as evidently intended: active exactly when a reason is given. */
  function MaybeParameters(text: string): (h: Heuristic)
    ensures h.active <==> h.reason.Some?
    ensures h.reason == MaybeParametersAsWritten(text).reason
    ensures Count(text, '(') != Count(text, ')') ==> h.active
  {
    var open := Count(text, '(');
    var close := Count(text, ')');
    Heuristic(
      open != close || InsideParens(text),
      if open != close then Some("unbalanced_parens") else if InsideParens(text) then Some("inside_parens") else None)
  }

  /** `/[)\.]$/` on the last three characters: the text ends with `)` or `.`. */
  predicate EndsWithDotOrParen(text: string) {
    |text| > 0 && (text[|text| - 1] == ')' || text[|text| - 1] == '.')
  }

  /** `/\.\w*$/`: a `.` followed by word characters only, up to the end. */
  predicate PartialMethodName(text: string) {
    exists i :: 0 <= i < |text| && text[i] == '.' && forall m :: i < m < |text| ==> IsWordChar(text[m])
  }

  /** `/^[\s\n]*$/`: nothing but white space (the empty text included). */
  predicate AllSpace(text: string) {
    forall m :: 0 <= m < |text| ==> IsSpace(text[m])
  }

  /** `out()` at position `i` of `text`, at a word boundary, followed only by `;` and white space. */
  predicate OutCallAt(text: string, i: nat)
    requires i + 5 <= |text|
  {
    && text[i..i + 5] == "out()"
    && (i == 0 || !IsWordChar(text[i - 1]))
    && forall m :: i + 5 <= m < |text| ==> text[m] == ';' || IsSpace(text[m])
  }

  /** `/\bout\(\)[;\s]*$/` */
  predicate AfterOut(text: string) {
    exists i: nat :: i + 5 <= |text| && OutCallAt(text, i)
  }

  /** `text.slice(-3)`: the last three characters, or all of a shorter text. */
  function LastThree(text: string): (r: string)
    ensures |r| == if |text| < 3 then |text| else 3
    ensures r == text[|text| - |r|..]
  {
    if |text| < 3 then text else text[|text| - 3..]
  }

  /**
   * `analyzeHeuristics(text)` as written: three guesses about the text before
   * the cursor, each with the first reason that supports it. Only logged by
   * the source; no completion depends on them. The parameter guess keeps the
   * parity test of the source (see MaybeParametersAsWritten).
   */
  function AnalyzeHeuristics(text: string): (h: Heuristics)
    ensures h.maybeParameters.active <==> Count(text, '(') % 2 != Count(text, ')') % 2 || InsideParens(text)
    ensures h.maybeParameters.reason == Some("unbalanced_parens") <==> Count(text, '(') != Count(text, ')')
    ensures h.maybeParameters.reason == Some("inside_parens") <==> Count(text, '(') == Count(text, ')') && InsideParens(text)
    ensures h.maybeParameters.reason.None? <==> Count(text, '(') == Count(text, ')') && !InsideParens(text)
    ensures h.maybeMethodChainFunc.active <==> EndsWithDotOrParen(text) || PartialMethodName(text)
    ensures h.maybeMethodChainFunc.active <==> h.maybeMethodChainFunc.reason.Some?
    ensures h.maybeMethodChainFunc.reason == Some("ends_with_dot_or_paren") <==> EndsWithDotOrParen(text)
    ensures h.maybeMethodChainFunc.reason == Some("partial_method_name") <==> !EndsWithDotOrParen(text) && PartialMethodName(text)
    ensures h.maybeSource.active <==> AllSpace(text) || AfterOut(text)
    ensures h.maybeSource.active <==> h.maybeSource.reason.Some?
    ensures h.maybeSource.reason == Some("line_start") <==> AllSpace(text)
    ensures h.maybeSource.reason == Some("after_out") <==> !AllSpace(text) && AfterOut(text)
    ensures h.maybeSource.reason != Some("empty")
  {
    var lastThree := LastThree(text);
    var endsChain := |lastThree| > 0 && (lastThree[|lastThree| - 1] == ')' || lastThree[|lastThree| - 1] == '.');
    assert endsChain == EndsWithDotOrParen(text) by {
      if |text| > 0 {
        assert lastThree[|lastThree| - 1] == text[|text| - 1];
      }
    }
    var partial := PartialMethodName(text);
    var lineStart := AllSpace(text);
    var afterOut := AfterOut(text);
    Heuristics(
      MaybeParametersAsWritten(text),
      Heuristic(endsChain || partial,
        if endsChain then Some("ends_with_dot_or_paren") else if partial then Some("partial_method_name") else None),
      Heuristic(lineStart || afterOut || |text| == 0,
        if lineStart then Some("line_start") else if afterOut then Some("after_out") else if |text| == 0 then Some("empty") else None))
  }

  /** The heuristics as evidently intended: the same, with the corrected parameter guess. */
  function IntendedHeuristics(text: string): (h: Heuristics)
    ensures h.maybeParameters.active <==> h.maybeParameters.reason.Some?
    ensures h.maybeParameters.active <==> Count(text, '(') != Count(text, ')') || InsideParens(text)
    ensures h.maybeParameters.reason == AnalyzeHeuristics(text).maybeParameters.reason
    ensures h.maybeMethodChainFunc == AnalyzeHeuristics(text).maybeMethodChainFunc
    ensures h.maybeSource == AnalyzeHeuristics(text).maybeSource
  {
    AnalyzeHeuristics(text).(maybeParameters := MaybeParameters(text))
  }

  // ---------------------------------------------------------------------
  // getCompletionClass
  // ---------------------------------------------------------------------

  /** The function and global types the class table knows. */
  const KnownTypes: seq<string> := ["src", "color", "coord", "combine", "combineCoord", "external", "output", "source"]

  /** The base class of a type, `hydraOther` for any type the table does not list. */
  function BaseClass(ftype: string): (c: string)
    ensures ftype !in KnownTypes ==> c == "hydraOther"
  {
    if ftype == "src" then "hydraSrc"
    else if ftype == "color" then "hydraColor"
    else if ftype == "coord" then "hydraCoord"
    else if ftype == "combine" then "hydraCombine"
    else if ftype == "combineCoord" then "hydraModulate"
    else if ftype == "external" then "hydraExternal"
    else if ftype == "output" then "hydraOutput"
    else if ftype == "source" then "hydraSource"
    else "hydraOther"
  }

  /** Every known type has a class of its own, none of them `hydraOther`. */
  lemma BaseClassesDistinct()
    ensures forall i, j :: 0 <= i < j < |KnownTypes| ==> BaseClass(KnownTypes[i]) != BaseClass(KnownTypes[j])
    ensures forall i :: 0 <= i < |KnownTypes| ==> BaseClass(KnownTypes[i]) != "hydraOther"
  {
  }

  /** `getCompletionClass(type, isFunction)`: the base class, with `Func` appended for functions. */
  function GetCompletionClass(ftype: string, isFunction: bool): (c: string)
    ensures isFunction ==> c == BaseClass(ftype) + "Func"
    ensures !isFunction ==> c == BaseClass(ftype)
  {
    if isFunction then BaseClass(ftype) + "Func" else BaseClass(ftype)
  }
}
