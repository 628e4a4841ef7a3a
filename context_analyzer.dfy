/**
 * The text-scanning call-context analyser and the small context tests that
 * `hydra-completions/contextAnalizer.js` exports.
 */
module ContextAnalyzer {
  import opened Common
  import opened SyntaxTree

  // ---------------------------------------------------------------------
  // getCurrentFunction
  // ---------------------------------------------------------------------

  /** Start of the run of identifier characters that ends at `j`. */
  function IdentRunStart(s: string, j: nat): (k: nat)
    requires j <= |s|
    ensures k <= j
    ensures forall m :: k <= m < j ==> IsIdentChar(s[m])
    ensures k == 0 || !IsIdentChar(s[k - 1])
    decreases j
  {
    if j > 0 && IsIdentChar(s[j - 1]) then IdentRunStart(s, j - 1) else j
  }

  /** First position in `[k, j)` that is not a digit, or `j`. */
  function FirstNonDigit(s: string, k: nat, j: nat): (p: nat)
    requires k <= j <= |s|
    ensures k <= p <= j
    ensures forall m :: k <= m < p ==> IsDigit(s[m])
    ensures p < j ==> !IsDigit(s[p])
    decreases j - k
  {
    if k < j && IsDigit(s[k]) then FirstNonDigit(s, k + 1, j) else k
  }

  /**
   * The match of `/[a-zA-Z_$][a-zA-Z0-9_$]*$/` in `s`: the longest suffix of
   * `s` that is an identifier, or None when no suffix is one.
   */
  function TrailingIdentifier(s: string): (r: Option<string>)
    ensures r.Some? ==> IsIdentifier(r.value) && |r.value| <= |s| && s[|s| - |r.value|..] == r.value
    ensures r.Some? ==> forall q :: 0 <= q < |s| - |r.value| ==> !IsIdentifier(s[q..])
    ensures r.None? ==> forall q :: 0 <= q < |s| ==> !IsIdentifier(s[q..])
  {
    var k := IdentRunStart(s, |s|);
    var p := FirstNonDigit(s, k, |s|);
    forall q | 0 <= q < p
      ensures !IsIdentifier(s[q..])
    {
      if k <= q {
        assert s[q..][0] == s[q];
      } else {
        assert s[q..][k - 1 - q] == s[k - 1];
      }
    }
    if p < |s| then Some(s[p..]) else None
  }

  /**
   * `getCurrentFunction(text)`: the identifier that ends right before the
   * last `(` of `text`; null when there is no `(` or no identifier there.
   */
  function GetCurrentFunction(text: string): (r: Option<string>)
    ensures '(' !in text ==> r.None?
    ensures forall k :: 0 <= k < |text| && text[k] == '(' && '(' !in text[k + 1..] ==>
              r == TrailingIdentifier(text[..k])
  {
    match LastIndexOf(text, '(')
    case None => None
    case Some(last) =>
      forall k | 0 <= k < |text| && text[k] == '(' && '(' !in text[k + 1..]
        ensures k == last
      {
        assert forall j :: k < j < |text| ==> text[k + 1..][j - k - 1] == text[j];
        assert forall j :: last < j < |text| ==> text[last + 1..][j - last - 1] == text[j];
      }
      TrailingIdentifier(text[..last])
  }

  /**
   * Typing a call opener: when `text` is `prefix + name + "("`, `name` an
   * identifier not glued to an identifier character before it, the current
   * function is `name`.
   */
  lemma {:induction false} CurrentFunctionOfCallOpen(prefix: string, name: string)
    requires IsIdentifier(name)
    requires prefix == [] || !IsIdentChar(prefix[|prefix| - 1])
    ensures GetCurrentFunction(prefix + name + "(") == Some(name)
  {
    var text := prefix + name + "(";
    var k := |prefix| + |name|;
    var before := prefix + name;
    assert text[k] == '(';
    assert text[k + 1..] == [];
    assert text[..k] == before;
    assert before[|prefix|..] == name;
    forall q | 0 <= q < |prefix|
      ensures !IsIdentifier(before[q..])
    {
      if q == |prefix| - 1 {
        assert before[q..][0] == prefix[q];
      } else {
        assert before[q..][|prefix| - 1 - q] == prefix[|prefix| - 1];
      }
    }
  }

  // Three of the cases of `getCurrentFunction` that the project's tests pin down;
  // CurrentFunctionOfCallOpen covers the others.

  lemma CurrentFunctionNested()
    ensures GetCurrentFunction("osc(noise(") == Some("noise")
  {
    assert IsIdentifier("noise");
    assert !IsIdentChar('(');
    assert "osc(noise(" == "osc(" + "noise" + "(";
    CurrentFunctionOfCallOpen("osc(", "noise");
  }

  lemma CurrentFunctionChained()
    ensures GetCurrentFunction("osc(30).color(") == Some("color")
  {
    assert IsIdentifier("color");
    assert !IsIdentChar('.');
    assert "osc(30).color(" == "osc(30)." + "color" + "(";
    CurrentFunctionOfCallOpen("osc(30).", "color");
  }

  lemma CurrentFunctionArrayChain()
    ensures GetCurrentFunction("[3,10,2].fast(") == Some("fast")
  {
    assert IsIdentifier("fast");
    assert !IsIdentChar('.');
    assert "[3,10,2].fast(" == "[3,10,2]." + "fast" + "(";
    CurrentFunctionOfCallOpen("[3,10,2].", "fast");
  }

  // ---------------------------------------------------------------------
  // findFunctionContext: the text scan
  // ---------------------------------------------------------------------

  /** One call the scan has seen opened: its name, the argument being typed, the depth it opened at. */
  datatype Frame = Frame(functionName: string, paramIndex: nat, depth: int)

  /** The scan's variables: the parenthesis depth and the stack of open calls. */
  datatype ScanState = ScanState(depth: int, stack: seq<Frame>)

  const Start := ScanState(0, [])

  /** Open calls are stacked by strictly increasing depth, all below the current depth, all named by identifiers. */
  predicate StackInv(st: ScanState) {
    && (forall k :: 0 <= k < |st.stack| ==>
          st.stack[k].depth < st.depth && IsIdentifier(st.stack[k].functionName))
    && (forall k, m :: 0 <= k < m < |st.stack| ==> st.stack[k].depth < st.stack[m].depth)
  }

  /** End of the run of identifier characters that starts at `i`. */
  function IdentRunEnd(s: string, i: nat): (j: nat)
    requires i <= |s|
    ensures i <= j <= |s|
    ensures j == |s| || !IsIdentChar(s[j])
    decreases |s| - i
  {
    if i < |s| && IsIdentChar(s[i]) then IdentRunEnd(s, i + 1) else i
  }

  /** Every character of the run continues an identifier. */
  lemma {:induction false} IdentRunChars(s: string, i: nat)
    requires i <= |s|
    ensures forall m :: i <= m < IdentRunEnd(s, i) ==> IsIdentChar(s[m])
    decreases |s| - i
  {
    if i < |s| && IsIdentChar(s[i]) {
      IdentRunChars(s, i + 1);
    }
  }

  /**
   * Where `/^[a-zA-Z_$][a-zA-Z0-9_$]*\(/` matches `s[i..]`: the index of the
   * `(` that ends the match, or None when it does not match.
   */
  function CallOpenAt(s: string, i: nat): (r: Option<nat>)
    requires i < |s|
    ensures r.Some? ==> i < r.value < |s| && s[r.value] == '('
  {
    if !IsIdentStart(s[i]) then None
    else
      var j := IdentRunEnd(s, i + 1);
      if j < |s| && s[j] == '(' then Some(j) else None
  }

  /** When the opener pattern matches at `i`, the text before its `(` is an identifier. */
  lemma CallOpenAtIdentifier(s: string, i: nat)
    requires i < |s| && CallOpenAt(s, i).Some?
    ensures IsIdentifier(s[i..CallOpenAt(s, i).value])
  {
    var j := IdentRunEnd(s, i + 1);
    IdentRunChars(s, i + 1);
    assert forall m :: i < m < j ==> s[i..j][m - i] == s[m];
  }

  /** When the opener pattern does not match at `i`, no `(` after `i` ends an identifier starting at `i`. */
  lemma CallOpenAtNone(s: string, i: nat)
    requires i < |s| && CallOpenAt(s, i).None?
    ensures forall j :: i < j < |s| && s[j] == '(' ==> !IsIdentifier(s[i..j])
  {
    if !IsIdentStart(s[i]) {
      assert forall j :: i < j < |s| ==> s[i..j][0] == s[i];
    } else {
      var j := IdentRunEnd(s, i + 1);
      IdentRunChars(s, i + 1);
      assert forall m :: j < m <= |s| ==> s[i..m][j - i] == s[j];
    }
  }

  /** Pops every open call whose depth is at least `d` (`while (top.depth >= depth) pop()`). */
  function PopClosed(stack: seq<Frame>, d: int): (r: seq<Frame>)
    ensures |r| <= |stack| && r == stack[..|r|]
    ensures |r| > 0 ==> r[|r| - 1].depth < d
    ensures |r| < |stack| ==> stack[|r|].depth >= d
    decreases |stack|
  {
    if |stack| > 0 && stack[|stack| - 1].depth >= d then PopClosed(stack[..|stack| - 1], d) else stack
  }

  /** What one character that does not open a named call does to the scan. */
  function CharStep(st: ScanState, c: char): ScanState {
    if c == '(' then ScanState(st.depth + 1, st.stack)
    else if c == ')' then ScanState(st.depth - 1, PopClosed(st.stack, st.depth - 1))
    else if c == ',' && |st.stack| > 0 then
      var top := st.stack[|st.stack| - 1];
      if st.depth == top.depth + 1 then
        ScanState(st.depth, st.stack[..|st.stack| - 1] + [top.(paramIndex := top.paramIndex + 1)])
      else st
    else st
  }

  /** The scan of `s` from position `i` on, starting in state `st`. */
  function ScanFrom(s: string, i: nat, st: ScanState): ScanState
    requires i <= |s|
    decreases |s| - i
  {
    if i == |s| then st
    else match CallOpenAt(s, i)
      case Some(j) => ScanFrom(s, j + 1, ScanState(st.depth + 1, st.stack + [Frame(s[i..j], 0, st.depth)]))
      case None => ScanFrom(s, i + 1, CharStep(st, s[i]))
  }

  function Scan(s: string): ScanState {
    ScanFrom(s, 0, Start)
  }

  /** The innermost call still open, or no call. */
  function ContextOf(st: ScanState): (r: CallContext)
    ensures r.functionName.None? <==> st.stack == []
    ensures r.functionName.None? ==> r.paramIndex == 0
  {
    if st.stack == [] then NoCall
    else
      var top := st.stack[|st.stack| - 1];
      CallContext(Some(top.functionName), top.paramIndex)
  }

  /** A comma, a closing parenthesis or any other character keeps the stack invariant. */
  lemma CharStepKeepsInv(st: ScanState, c: char)
    requires StackInv(st)
    ensures StackInv(CharStep(st, c))
  {
    if c == ')' {
      PopKeepsInv(st);
    } else if c == ',' && |st.stack| > 0 {
      var n := |st.stack|;
      var top := st.stack[n - 1];
      var stack' := st.stack[..n - 1] + [top.(paramIndex := top.paramIndex + 1)];
      assert forall k :: 0 <= k < n ==> stack'[k].depth == st.stack[k].depth && stack'[k].functionName == st.stack[k].functionName;
    }
  }

  /** A `)` pops the calls it closes and keeps the stack invariant. */
  lemma PopKeepsInv(st: ScanState)
    requires StackInv(st)
    ensures StackInv(CharStep(st, ')'))
  {
    var r := PopClosed(st.stack, st.depth - 1);
    assert CharStep(st, ')') == ScanState(st.depth - 1, st.stack[..|r|]);
    PrefixKeepsInv(st, |r|, st.depth - 1);
  }

  /** The calls below the top `n` of the stack, at a depth above the last of them, keep the invariant. */
  lemma PrefixKeepsInv(st: ScanState, n: nat, d: int)
    requires StackInv(st) && n <= |st.stack|
    requires n > 0 ==> st.stack[n - 1].depth < d
    ensures StackInv(ScanState(d, st.stack[..n]))
  {
    var r := st.stack[..n];
    forall k | 0 <= k < n
      ensures r[k].depth < d && IsIdentifier(r[k].functionName)
    {
      if k < n - 1 {
        assert st.stack[k].depth < st.stack[n - 1].depth;
      }
    }
  }

  /** Opening a named call keeps the stack invariant. */
  lemma PushKeepsInv(st: ScanState, name: string)
    requires StackInv(st) && IsIdentifier(name)
    ensures StackInv(ScanState(st.depth + 1, st.stack + [Frame(name, 0, st.depth)]))
  {
  }

  /** The stack invariant holds of every state the scan reaches. */
  lemma {:induction false} ScanKeepsInv(s: string, i: nat, st: ScanState)
    requires i <= |s| && StackInv(st)
    ensures StackInv(ScanFrom(s, i, st))
    decreases |s| - i
  {
    if i < |s| {
      match CallOpenAt(s, i)
      case Some(j) =>
        CallOpenAtIdentifier(s, i);
        PushKeepsInv(st, s[i..j]);
        ScanKeepsInv(s, j + 1, ScanState(st.depth + 1, st.stack + [Frame(s[i..j], 0, st.depth)]));
      case None =>
        CharStepKeepsInv(st, s[i]);
        ScanKeepsInv(s, i + 1, CharStep(st, s[i]));
    }
  }

  /** A named-call opener `name(` holds one `(` and no `)`. */
  lemma CallOpenerParens(s: string, i: nat, j: nat)
    requires i < j < |s| && s[j] == '(' && IsIdentifier(s[i..j])
    ensures Count(s[i..j + 1], '(') == 1 && Count(s[i..j + 1], ')') == 0
  {
    var w := s[i..j + 1];
    assert w[..|w| - 1] == s[i..j];
    assert forall m :: 0 <= m < |s[i..j]| ==> IsIdentChar(s[i..j][m]);
    assert '(' !in s[i..j] && ')' !in s[i..j];
  }

  /** A plain character moves the depth by its own parenthesis count. */
  lemma CharStepDepth(st: ScanState, c: char)
    ensures CharStep(st, c).depth == st.depth + Count([c], '(') - Count([c], ')')
  {
    assert [c][..0] == [];
  }

  /** Splitting the parenthesis counts at a named-call opener `s[i..j + 1]`. */
  lemma OpenerCounts(s: string, i: nat, j: nat)
    requires i < j < |s| && s[j] == '(' && IsIdentifier(s[i..j])
    ensures Count(s[i..], '(') == 1 + Count(s[j + 1..], '(')
    ensures Count(s[i..], ')') == Count(s[j + 1..], ')')
  {
    assert s[i..] == s[i..j + 1] + s[j + 1..];
    CountAppend(s[i..j + 1], s[j + 1..], '(');
    CountAppend(s[i..j + 1], s[j + 1..], ')');
    CallOpenerParens(s, i, j);
  }

  /** Splitting the parenthesis counts after the first character of `s[i..]`. */
  lemma HeadCounts(s: string, i: nat)
    requires i < |s|
    ensures Count(s[i..], '(') == Count([s[i]], '(') + Count(s[i + 1..], '(')
    ensures Count(s[i..], ')') == Count([s[i]], ')') + Count(s[i + 1..], ')')
  {
    assert s[i..] == [s[i]] + s[i + 1..];
    CountAppend([s[i]], s[i + 1..], '(');
    CountAppend([s[i]], s[i + 1..], ')');
  }

  /** The depth the scan ends at is the number of `(` minus the number of `)` it read. */
  lemma {:induction false} ScanDepth(s: string, i: nat, st: ScanState)
    requires i <= |s|
    ensures ScanFrom(s, i, st).depth == st.depth + Count(s[i..], '(') - Count(s[i..], ')')
    decreases |s| - i
  {
    if i == |s| {
      assert s[i..] == [];
    } else {
      var i', next := DepthStep(s, i, st);
      ScanDepth(s, i', next);
    }
  }

  /** One step of the scan from `i`, with where it lands and the state it reaches, keeps depth minus the parentheses still to read. */
  lemma DepthStep(s: string, i: nat, st: ScanState) returns (i': nat, next: ScanState)
    requires i < |s|
    ensures i < i' <= |s|
    ensures ScanFrom(s, i, st) == ScanFrom(s, i', next)
    ensures next.depth + Count(s[i'..], '(') - Count(s[i'..], ')') == st.depth + Count(s[i..], '(') - Count(s[i..], ')')
  {
    match CallOpenAt(s, i)
    case Some(j) =>
      i', next := j + 1, ScanState(st.depth + 1, st.stack + [Frame(s[i..j], 0, st.depth)]);
      OpenerStep(s, i, st, j);
      CallOpenAtIdentifier(s, i);
      OpenerCounts(s, i, j);
    case None =>
      i', next := i + 1, CharStep(st, s[i]);
      PlainStep(s, i, st);
      HeadCounts(s, i);
      CharStepDepth(st, s[i]);
  }

  /** The scan at a `name(` opener pushes `name` at argument 0 and jumps past the `(`. */
  lemma ScanAtOpener(s: string, k: nat, st: ScanState)
    requires k < |s| - 1 && s[|s| - 1] == '(' && IsIdentifier(s[k..|s| - 1])
    ensures ScanFrom(s, k, st) == ScanState(st.depth + 1, st.stack + [Frame(s[k..|s| - 1], 0, st.depth)])
  {
    var last := |s| - 1;
    IdentRunChars(s, k + 1);
    assert forall m :: k < m < last ==> s[k..last][m - k] == s[m];
    assert CallOpenAt(s, k) == Some(last);
  }

  /**
   * Typing `name(` right after a non-identifier character (or at the start)
   * makes `name` the innermost call, at argument 0, whatever came before.
   */
  lemma ContextAfterCallOpener(prefix: string, name: string)
    requires IsIdentifier(name)
    requires prefix == [] || !IsIdentChar(prefix[|prefix| - 1])
    ensures ContextOf(Scan(prefix + name + "(")) == CallContext(Some(name), 0)
  {
    ScanAfterCallOpener(prefix, name);
  }

  /** The inner loop of the scan on `)`: pops the calls the parenthesis closes. */
  method PopClosedFrames(functions: seq<Frame>, depth: int) returns (rest: seq<Frame>)
    ensures rest == PopClosed(functions, depth)
  {
    rest := functions;
    while |rest| > 0 && rest[|rest| - 1].depth >= depth
      invariant PopClosed(rest, depth) == PopClosed(functions, depth)
      decreases |rest|
    {
      rest := rest[..|rest| - 1];
    }
  }

  /**
   * The body of the scan for a character that does not open a named call:
   * `(` deepens, `)` closes, `,` advances the innermost call's argument
   * when it sits directly in that call's parentheses.
   */
  method ScanChar(c: char, depth: int, functions: seq<Frame>) returns (depth': int, functions': seq<Frame>)
    ensures ScanState(depth', functions') == CharStep(ScanState(depth, functions), c)
  {
    depth', functions' := depth, functions;
    if c == '(' {
      depth' := depth + 1;
    } else if c == ')' {
      depth' := depth - 1;
      functions' := PopClosedFrames(functions, depth');
    } else if c == ',' && |functions| > 0 {
      var current := functions[|functions| - 1];
      if depth == current.depth + 1 {
        functions' := functions[..|functions| - 1] + [current.(paramIndex := current.paramIndex + 1)];
      }
    }
  }

  /**
   * One turn of the scan loop at position `i`: a `name(` opener pushes a
   * call and jumps past its `(`, any other character goes through ScanChar.
   * The scan from the new position in the new state is the scan from the old.
   */
  method ScanStep(s: string, i: nat, depth: int, functions: seq<Frame>)
    returns (i': nat, depth': int, functions': seq<Frame>)
    requires i < |s| && StackInv(ScanState(depth, functions))
    ensures i < i' <= |s|
    ensures StackInv(ScanState(depth', functions'))
    ensures ScanFrom(s, i', ScanState(depth', functions')) == ScanFrom(s, i, ScanState(depth, functions))
  {
    var c := s[i];
    ghost var before := ScanState(depth, functions);
    var opener := if IsIdentStart(c) then CallOpenAt(s, i) else None;
    if opener.Some? {
      var j := opener.value;
      ScanOpens(s, i, before, j);
      functions' := functions + [Frame(s[i..j], 0, depth)];
      i' := j + 1;
      depth' := depth + 1;
    } else {
      ScanSteps(s, i, before);
      depth', functions' := ScanChar(c, depth, functions);
      i' := i + 1;
    }
  }

  /**
   * `findFunctionContext` of contextAnalizer.js: scans the document up to the
   * cursor left to right, keeping the parenthesis depth and a stack of the
   * calls opened, and answers with the innermost call still open. The tree
   * node the source also receives is never read, so it is not a parameter.
   */
  method FindFunctionContext(doc: string, pos: nat) returns (r: CallContext)
    requires pos <= |doc|
    ensures r == ContextOf(Scan(doc[..pos]))
    ensures r.functionName.None? ==> r.paramIndex == 0
    ensures r.functionName.Some? ==> IsIdentifier(r.functionName.value)
  {
    var beforeCursor := doc[..pos];
    var depth := 0;
    var functions: seq<Frame> := [];
    var i := 0;
    while i < |beforeCursor|
      invariant i <= |beforeCursor|
      invariant StackInv(ScanState(depth, functions))
      invariant ScanFrom(beforeCursor, i, ScanState(depth, functions)) == Scan(beforeCursor)
      decreases |beforeCursor| - i
    {
      i, depth, functions := ScanStep(beforeCursor, i, depth, functions);
    }
    if |functions| > 0 {
      var top := functions[|functions| - 1];
      r := CallContext(Some(top.functionName), top.paramIndex);
    } else {
      r := CallContext(None, 0);
    }
  }

  /** One step of the scan at a named-call opener. */
  lemma ScanOpens(s: string, i: nat, st: ScanState, j: nat)
    requires i < |s| && IsIdentStart(s[i]) && CallOpenAt(s, i) == Some(j)
    requires StackInv(st)
    ensures j + 1 <= |s|
    ensures StackInv(ScanState(st.depth + 1, st.stack + [Frame(s[i..j], 0, st.depth)]))
    ensures ScanFrom(s, i, st) == ScanFrom(s, j + 1, ScanState(st.depth + 1, st.stack + [Frame(s[i..j], 0, st.depth)]))
  {
    CallOpenAtIdentifier(s, i);
    PushKeepsInv(st, s[i..j]);
    OpenerStep(s, i, st, j);
  }

  /** At any other position the scan takes one character step. */
  lemma PlainStep(s: string, i: nat, st: ScanState)
    requires i < |s| && CallOpenAt(s, i).None?
    ensures ScanFrom(s, i, st) == ScanFrom(s, i + 1, CharStep(st, s[i]))
  {
  }

  /** At a named-call opener the scan pushes the call and goes on after its `(`. */
  lemma OpenerStep(s: string, i: nat, st: ScanState, j: nat)
    requires i < |s| && CallOpenAt(s, i) == Some(j)
    ensures ScanFrom(s, i, st) == ScanFrom(s, j + 1, ScanState(st.depth + 1, st.stack + [Frame(s[i..j], 0, st.depth)]))
  {
  }

  /** One step of the scan at any other character. */
  lemma ScanSteps(s: string, i: nat, st: ScanState)
    requires i < |s| && (IsIdentStart(s[i]) ==> CallOpenAt(s, i).None?)
    requires StackInv(st)
    ensures StackInv(CharStep(st, s[i]))
    ensures ScanFrom(s, i, st) == ScanFrom(s, i + 1, CharStep(st, s[i]))
  {
    CharStepKeepsInv(st, s[i]);
    assert CallOpenAt(s, i).None? by {
      if !IsIdentStart(s[i]) {
        assert forall j :: i < j <= |s| ==> s[i..j][0] == s[i];
      }
    }
  }

  // The scan read in pieces: what typing more text after a prefix does.

  /** Appending text moves the end of an identifier run only when the run reached the end of `p`. */
  lemma {:induction false} IdentRunEndAppend(p: string, q: string, i: nat)
    requires i <= |p|
    ensures IdentRunEnd(p + q, i) >= IdentRunEnd(p, i)
    ensures IdentRunEnd(p, i) < |p| ==> IdentRunEnd(p + q, i) == IdentRunEnd(p, i)
    decreases |p| - i
  {
    if i < |p| {
      assert (p + q)[i] == p[i];
      if IsIdentChar(p[i]) {
        IdentRunEndAppend(p, q, i + 1);
      }
    }
  }

  /**
   * No named-call opener that starts inside `p` reaches past it, when `p`
   * ends with a non-identifier character or the appended text has no `(`.
   */
  lemma CallOpenAtAppend(p: string, q: string, i: nat)
    requires i < |p| && (!IsIdentChar(p[|p| - 1]) || '(' !in q)
    ensures CallOpenAt(p + q, i) == CallOpenAt(p, i)
  {
    assert (p + q)[i] == p[i];
    if IsIdentStart(p[i]) {
      IdentRunEndAppend(p, q, i + 1);
      var j := IdentRunEnd(p, i + 1);
      if j < |p| {
        assert (p + q)[j] == p[j];
      } else {
        IdentRunChars(p, i + 1);
        var j' := IdentRunEnd(p + q, i + 1);
        assert j' < |p + q| ==> (p + q)[j'] == q[j' - |p|];
      }
    }
  }

  lemma {:induction false} ScanFromAppend(p: string, q: string, i: nat, st: ScanState)
    requires i <= |p| && (p == [] || !IsIdentChar(p[|p| - 1]) || '(' !in q)
    ensures ScanFrom(p + q, i, st) == ScanFrom(p + q, |p|, ScanFrom(p, i, st))
    decreases |p| - i
  {
    if i < |p| {
      var i', next := AppendStep(p, q, i, st);
      ScanFromAppend(p, q, i', next);
    }
  }

  /** Under the same condition, one step of the scan inside `p` is the same step in `p + q`. */
  lemma AppendStep(p: string, q: string, i: nat, st: ScanState) returns (i': nat, next: ScanState)
    requires i < |p| && (!IsIdentChar(p[|p| - 1]) || '(' !in q)
    ensures i < i' <= |p|
    ensures ScanFrom(p, i, st) == ScanFrom(p, i', next)
    ensures ScanFrom(p + q, i, st) == ScanFrom(p + q, i', next)
  {
    CallOpenAtAppend(p, q, i);
    match CallOpenAt(p, i)
    case Some(j) =>
      assert (p + q)[i..j] == p[i..j];
      i', next := j + 1, ScanState(st.depth + 1, st.stack + [Frame(p[i..j], 0, st.depth)]);
      OpenerStep(p, i, st, j);
      OpenerStep(p + q, i, st, j);
    case None =>
      assert (p + q)[i] == p[i];
      i', next := i + 1, CharStep(st, p[i]);
      PlainStep(p, i, st);
      PlainStep(p + q, i, st);
  }

  /**
   * Text typed after a prefix is scanned on from the state the prefix left,
   * unless an identifier at the end of the prefix and a `(` in the new text
   * could join into a call opener.
   */
  lemma ScanAppend(p: string, q: string)
    requires p == [] || !IsIdentChar(p[|p| - 1]) || '(' !in q
    ensures Scan(p + q) == ScanFrom(p + q, |p|, Scan(p))
  {
    ScanFromAppend(p, q, 0, Start);
  }

  /**
   * Typing `name(` after such a prefix pushes `name` at argument 0, at the
   * depth the prefix left, and deepens by one.
   */
  lemma ScanAfterCallOpener(prefix: string, name: string)
    requires IsIdentifier(name)
    requires prefix == [] || !IsIdentChar(prefix[|prefix| - 1])
    ensures var st := Scan(prefix);
      Scan(prefix + name + "(") == ScanState(st.depth + 1, st.stack + [Frame(name, 0, st.depth)])
  {
    var s := prefix + name + "(";
    assert s == prefix + (name + "(");
    ScanAppend(prefix, name + "(");
    assert s[|prefix|..|s| - 1] == name;
    ScanAtOpener(s, |prefix|, Scan(prefix));
  }

  /** A character that neither starts an identifier nor is `(` after one is read by CharStep alone. */
  lemma ScanAfterChar(p: string, c: char)
    requires p == [] || !IsIdentChar(p[|p| - 1]) || c != '('
    requires !IsIdentStart(c)
    ensures Scan(p + [c]) == CharStep(Scan(p), c)
  {
    ScanAppend(p, [c]);
    var s := p + [c];
    assert s[|p|] == c;
    assert CallOpenAt(s, |p|) == None;
  }

  /**
   * A comma directly inside the innermost open call's parentheses moves it
   * to its next argument; any other comma leaves the context as it was.
   */
  lemma ContextAfterComma(p: string)
    ensures var st := Scan(p);
      st.stack != [] && st.depth == st.stack[|st.stack| - 1].depth + 1 ==>
        ContextOf(Scan(p + ",")) == ContextOf(st).(paramIndex := ContextOf(st).paramIndex + 1)
    ensures var st := Scan(p);
      !(st.stack != [] && st.depth == st.stack[|st.stack| - 1].depth + 1) ==>
        ContextOf(Scan(p + ",")) == ContextOf(st)
  {
    ScanAfterChar(p, ',');
  }

  /**
   * The `)` that closes the innermost open call's parentheses returns to the
   * enclosing call; any other `)` leaves the open calls as they were.
   */
  lemma ScanAfterClose(p: string)
    ensures var st := Scan(p);
      st.stack != [] && st.stack[|st.stack| - 1].depth == st.depth - 1 ==>
        Scan(p + ")").stack == st.stack[..|st.stack| - 1]
    ensures var st := Scan(p);
      !(st.stack != [] && st.stack[|st.stack| - 1].depth == st.depth - 1) ==>
        Scan(p + ")").stack == st.stack
    ensures Scan(p + ")").depth == Scan(p).depth - 1
  {
    var st := Scan(p);
    ScanKeepsInv(p, 0, Start);
    ScanAfterChar(p, ')');
    var n := |st.stack|;
    if n > 0 && st.stack[n - 1].depth == st.depth - 1 {
      if n > 1 {
        assert st.stack[n - 2].depth < st.stack[n - 1].depth;
      }
      assert PopClosed(st.stack[..n - 1], st.depth - 1) == st.stack[..n - 1];
    }
  }

  // The cases of `findFunctionContext` that the project's tests pin down,
  // read one piece at a time.

  lemma ScanExampleOpen(s: string)
    requires s == "osc("
    ensures Scan(s) == ScanState(1, [Frame("osc", 0, 0)])
  {
    assert IsIdentifier("osc");
    assert s == [] + "osc" + "(";
    ScanAfterCallOpener([], "osc");
  }

  lemma ScanExampleFirstArgument(s: string)
    requires s == "osc(30,"
    ensures Scan(s) == ScanState(1, [Frame("osc", 1, 0)])
  {
    var a := s[..4];
    ScanExampleOpen(a);
    var b := a + ['3'];
    var c := b + ['0'];
    assert s == c + [','];
    ScanAfterChar(a, '3');
    ScanAfterChar(b, '0');
    ScanAfterChar(c, ',');
  }

  lemma ScanExampleInnerOpen(outer: string, s: string)
    requires outer == "osc(30," && s == outer + "noise("
    ensures Scan(s) == ScanState(2, [Frame("osc", 1, 0), Frame("noise", 0, 1)])
  {
    ScanExampleFirstArgument(outer);
    assert IsIdentifier("noise");
    assert s == outer + "noise" + "(";
    assert outer[|outer| - 1] == ',';
    ScanAfterCallOpener(outer, "noise");
  }

  lemma ScanExampleNested(s: string)
    requires s == "osc(30,noise(3,"
    ensures ContextOf(Scan(s)) == CallContext(Some("noise"), 1)
  {
    ScanExampleNestedState(s);
  }

  lemma ScanExampleNestedState(s: string)
    requires s == "osc(30,noise(3,"
    ensures Scan(s) == ScanState(2, [Frame("osc", 1, 0), Frame("noise", 1, 1)])
  {
    var outer := s[..7];
    var a := s[..13];
    ScanExampleInnerOpen(outer, a);
    var b := a + ['3'];
    assert s == b + [','];
    ScanAfterChar(a, '3');
    ScanAfterChar(b, ',');
  }

  lemma ScanExampleClosed(p: string, s: string)
    requires p == "osc(30,noise(3," && s == p + "1),"
    ensures ContextOf(Scan(s)) == CallContext(Some("osc"), 2)
  {
    ScanExampleNestedState(p);
    var a := p + ['1'];
    var b := a + [')'];
    assert s == b + [','];
    ScanAfterChar(p, '1');
    ScanAfterClose(a);
    ScanAfterChar(b, ',');
  }

  lemma ScanExampleDecimal(p: string)
    requires p == "osc(30,0.1"
    ensures Scan(p) == ScanState(1, [Frame("osc", 1, 0)])
  {
    var a := p[..7];
    ScanExampleFirstArgument(a);
    var b := a + ['0'];
    var c := b + ['.'];
    assert p == c + ['1'];
    ScanAfterChar(a, '0');
    ScanAfterChar(b, '.');
    ScanAfterChar(c, '1');
  }

  lemma ScanExampleChainPrefix(p: string)
    requires p == "osc(30,0.1)."
    ensures Scan(p) == ScanState(0, [])
  {
    var d := p[..10];
    ScanExampleDecimal(d);
    var e := d + [')'];
    assert p == e + ['.'];
    ScanAfterClose(d);
    ScanAfterChar(e, '.');
  }

  lemma ScanExampleChained(p: string, s: string)
    requires p == "osc(30,0.1)." && s == p + "color(1,0,"
    ensures ContextOf(Scan(s)) == CallContext(Some("color"), 2)
  {
    ScanExampleChainedState(p, s);
  }

  lemma ScanExampleColorOpen(p: string, o: string)
    requires p == "osc(30,0.1)." && o == p + "color("
    ensures Scan(o) == ScanState(1, [Frame("color", 0, 0)])
  {
    ScanExampleChainPrefix(p);
    assert IsIdentifier("color");
    assert p[|p| - 1] == '.';
    assert o == p + "color" + "(";
    ScanAfterCallOpener(p, "color");
  }

  lemma ScanExampleChainedState(p: string, s: string)
    requires p == "osc(30,0.1)." && s == p + "color(1,0,"
    ensures Scan(s) == ScanState(1, [Frame("color", 2, 0)])
  {
    var o := s[..18];
    ScanExampleColorOpen(p, o);
    var a := o + ['1'];
    ScanAfterChar(o, '1');
    assert Scan(a) == ScanState(1, [Frame("color", 0, 0)]);
    var b := a + [','];
    ScanAfterChar(a, ',');
    assert Scan(b) == ScanState(1, [Frame("color", 1, 0)]);
    var c := b + ['0'];
    ScanAfterChar(b, '0');
    assert Scan(c) == ScanState(1, [Frame("color", 1, 0)]);
    assert s == c + [','];
    ScanAfterChar(c, ',');
  }

  // ---------------------------------------------------------------------
  // isChainableExpression, isAfterDot, isInParameters
  // ---------------------------------------------------------------------

  /**
   * The node tests of `isChainableExpression`: a continued expression
   * statement, a member expression, a property name or a call.
   */
  predicate ChainMarker(nd: Node) {
    || (nd.kind == ExpressionStatement && nd.continuedIndent)
    || nd.kind == MemberExpression
    || nd.kind == PropertyName
    || nd.kind == CallExpression
  }

  /**
   * Chainable, stated on the path to the root: the walk answers true iff
   * some node on the path other than the root is a chain marker. The root
   * is never tested.
   */
  lemma ChainableOnPath(t: Tree, n: nat)
    requires WellFormed(t) && n < |t|
    ensures FirstAbove(t, n, ChainMarker).Some? <==>
      exists j :: 0 <= j < |Ancestors(t, n)| - 1 && ChainMarker(t[Ancestors(t, n)[j]])
  {
    FirstAboveIff(t, n, ChainMarker);
  }

  /**
   * `isChainableExpression(node)`: walks up the parent links while the node
   * has a parent, answering true at the first chain marker.
   */
  method IsChainableExpression(t: Tree, n: nat) returns (r: bool)
    requires WellFormed(t) && n < |t|
    ensures r == FirstAbove(t, n, ChainMarker).Some?
  {
    var node: nat := n;
    while t[node].parent.Some?
      invariant node < |t|
      invariant FirstAbove(t, node, ChainMarker) == FirstAbove(t, n, ChainMarker)
      decreases node
    {
      if ChainMarker(t[node]) {
        return true;
      }
      node := t[node].parent.value;
    }
    return false;
  }

  predicate StartsWithDot(s: string) {
    |s| > 0 && s[0] == '.'
  }

  predicate EndsWithDot(s: string) {
    |s| > 0 && s[|s| - 1] == '.'
  }

  /**
   * `isAfterDot(nodeBefore, nodeBeforeBefore, before, lineText)`: whether the
   * cursor follows a `.`, from the two nodes to its left, the token before it
   * (`before.text`) and the text of its line.
   */
  function IsAfterDot(t: Tree, nodeBefore: nat, nodeBeforeBefore: nat, token: string, lineText: string): (r: bool)
    requires nodeBefore < |t| && nodeBeforeBefore < |t|
    ensures r <==>
      || t[nodeBefore].kind == Dot
      || (t[nodeBeforeBefore].kind == Dot && t[nodeBefore].kind == VariableName)
      || StartsWithDot(token)
      || (t[nodeBefore].kind == MemberExpression && EndsWithDot(lineText))
  {
    if StartsWithDot(token) then true
    else match t[nodeBefore].kind
      case Dot => true
      case VariableName => t[nodeBeforeBefore].kind == Dot
      case MemberExpression => EndsWithDot(lineText)
      case _ => false
  }

  /**
   * `isInParameters(nodeMe, nodeBefore, functionName)`: inside an argument
   * list when either node is one, or when a call context was found with a
   * non-empty name (`!!functionName`).
   */
  function IsInParameters(t: Tree, nodeMe: nat, nodeBefore: nat, functionName: Option<string>): (r: bool)
    requires nodeMe < |t| && nodeBefore < |t|
    ensures Truthy(functionName) ==> r
    ensures !Truthy(functionName) ==> (r <==> t[nodeMe].kind == ArgList || t[nodeBefore].kind == ArgList)
  {
    match functionName
    case Some(name) => name != "" || t[nodeMe].kind == ArgList || t[nodeBefore].kind == ArgList
    case None => t[nodeMe].kind == ArgList || t[nodeBefore].kind == ArgList
  }
}
