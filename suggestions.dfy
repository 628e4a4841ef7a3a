/**
 * The option lists `hydraSuggestions` builds once the context is known:
 * the loops that push globals and catalog functions, the numeric anchors
 * of hydra-completions.js, the decision table of index.js, the decision
 * table of hydra-completions.js and the response both return.
 */
module Suggestions {
  import opened Common
  import opened SyntaxTree
  import opened Catalog
  import opened TreeContext
  import opened LegacyContext
  import ContextAnalyzer

  /** A completion label or applied text: a string, or a number shown with `String(val)`. */
  datatype Label = Text(text: string) | Number(value: real)

  /** One completion option: label, type, the text it applies (if any) and its CSS class (if any). */
  datatype Completion = Completion(display: Label, ctype: string, apply: Option<Label>, cls: Option<string>)

  /** `validFor`: `/^\.[\w$]*$/` after a dot, `/^[\w$]*$/` otherwise. */
  datatype Pattern = DotWord | Word

  /** The token `context.matchBefore(/[\w.$]*$/)` found: where it starts and its text. */
  datatype Token = Token(from: nat, text: string)

  /** What the completion source returns: where the replaced text starts, the options, and `validFor`. */
  datatype Response = Response(from: nat, options: seq<Completion>, validFor: Pattern)

  // ---------------------------------------------------------------------
  // Looking a function up in the catalog
  // ---------------------------------------------------------------------

  /** The property key `hydraFunctions[name]` reads: a null name is converted to "null". */
  function KeyOf(name: Option<string>): (k: string)
    ensures name.Some? ==> k == name.value
    ensures name.None? ==> k == "null"
  {
    match name
    case Some(n) => n
    case None => "null"
  }

  function Lookup(cat: Dict, name: Option<string>): (e: Option<Entry>)
    ensures e.Some? <==> KeyOf(name) in cat.entries
    ensures e.Some? ==> e.value == cat.entries[KeyOf(name)]
  {
    if KeyOf(name) in cat.entries then Some(cat.entries[KeyOf(name)]) else None
  }

  // ---------------------------------------------------------------------
  // Pushing globals
  // ---------------------------------------------------------------------

  /** Which global types a loop keeps. */
  datatype Filter = AnyType | OneOf(types: set<string>)

  predicate Admits(f: Filter, t: string) {
    f.AnyType? || t in f.types
  }

  /** The option a loop pushes for a global: named by itself, applying its name when `apply`, classed when `classes`. */
  function GlobalOption(g: Global, apply: bool, classes: bool): Completion {
    Completion(Text(g.name), g.gtype,
      if apply then Some(Text(g.name)) else None,
      if classes then Some(GetCompletionClass(g.gtype, false)) else None)
  }

  /** The options of the globals the filter admits, in table order. */
  function GlobalOptions(gs: seq<Global>, f: Filter, apply: bool, classes: bool): (opts: seq<Completion>)
    ensures |opts| <= |gs|
    decreases |gs|
  {
    if gs == [] then []
    else
      var g := gs[|gs| - 1];
      GlobalOptions(gs[..|gs| - 1], f, apply, classes) + (if Admits(f, g.gtype) then [GlobalOption(g, apply, classes)] else [])
  }

  /** Every admitted global has its option in the list. */
  lemma {:induction false} GlobalOptionsComplete(gs: seq<Global>, f: Filter, apply: bool, classes: bool, g: Global)
    requires g in gs && Admits(f, g.gtype)
    ensures GlobalOption(g, apply, classes) in GlobalOptions(gs, f, apply, classes)
    decreases |gs|
  {
    if gs[|gs| - 1] != g {
      assert gs == gs[..|gs| - 1] + [gs[|gs| - 1]];
      GlobalOptionsComplete(gs[..|gs| - 1], f, apply, classes, g);
    }
  }

  /** Every option in the list is the option of a global the filter admits. */
  lemma {:induction false} GlobalOptionsSound(gs: seq<Global>, f: Filter, apply: bool, classes: bool, c: Completion)
    requires c in GlobalOptions(gs, f, apply, classes)
    ensures exists g :: g in gs && Admits(f, g.gtype) && c == GlobalOption(g, apply, classes)
    decreases |gs|
  {
    var init := gs[..|gs| - 1];
    var g := gs[|gs| - 1];
    if c in GlobalOptions(init, f, apply, classes) {
      GlobalOptionsSound(init, f, apply, classes, c);
      var h :| h in init && Admits(f, h.gtype) && c == GlobalOption(h, apply, classes);
      assert h in gs;
    } else {
      assert g in gs;
    }
  }

  /** `for (let [name, info] of Object.entries(HYDRA_GLOBALS)) if (admitted) options.push(...)` */
  method PushGlobals(options: seq<Completion>, gs: seq<Global>, f: Filter, apply: bool, classes: bool)
    returns (options': seq<Completion>)
    ensures options' == options + GlobalOptions(gs, f, apply, classes)
  {
    options' := options;
    var i := 0;
    while i < |gs|
      invariant i <= |gs|
      invariant options' == options + GlobalOptions(gs[..i], f, apply, classes)
    {
      var g := gs[i];
      if Admits(f, g.gtype) {
        options' := options' + [GlobalOption(g, apply, classes)];
      }
      assert gs[..i + 1][..i] == gs[..i];
      i := i + 1;
    }
    assert gs[..i] == gs;
  }

  /** Filtering a concatenation filters each part. */
  lemma {:induction false} GlobalOptionsAppend(a: seq<Global>, b: seq<Global>, f: Filter, apply: bool, classes: bool)
    ensures GlobalOptions(a + b, f, apply, classes) == GlobalOptions(a, f, apply, classes) + GlobalOptions(b, f, apply, classes)
    decreases |b|
  {
    if b == [] {
      assert a + b == a;
    } else {
      assert (a + b)[..|a + b| - 1] == a + b[..|b| - 1];
      GlobalOptionsAppend(a, b[..|b| - 1], f, apply, classes);
    }
  }

  /** A run of globals none of which the filter admits contributes nothing. */
  lemma {:induction false} NoGlobalAdmitted(gs: seq<Global>, f: Filter, apply: bool, classes: bool)
    requires forall i :: 0 <= i < |gs| ==> !Admits(f, gs[i].gtype)
    ensures GlobalOptions(gs, f, apply, classes) == []
    decreases |gs|
  {
    if gs != [] {
      NoGlobalAdmitted(gs[..|gs| - 1], f, apply, classes);
    }
  }

  /** A run of globals all of which the filter admits contributes one option each, in order. */
  lemma {:induction false} AllGlobalsAdmitted(gs: seq<Global>, f: Filter, apply: bool, classes: bool)
    requires forall i :: 0 <= i < |gs| ==> Admits(f, gs[i].gtype)
    ensures GlobalOptions(gs, f, apply, classes) == seq(|gs|, i requires 0 <= i < |gs| => GlobalOption(gs[i], apply, classes))
    decreases |gs|
  {
    if gs != [] {
      AllGlobalsAdmitted(gs[..|gs| - 1], f, apply, classes);
    }
  }

  /** The outputs o0..o3, applied by name: the options out() and render() get. */
  lemma OutputOptions(classes: bool)
    ensures GlobalOptions(HydraGlobals(), OneOf({"output"}), true, classes) ==
      seq(4, i requires 0 <= i < 4 => GlobalOption(Global(['o', "0123"[i]], "output"), true, classes))
  {
    var gs := HydraGlobals();
    OutputsInMiddle(gs, true, classes);
    assert gs[5..9] == seq(4, i requires 0 <= i < 4 => Global(['o', "0123"[i]], "output"));
  }

  /** Of a table laid out as numbers, one object, outputs, sources, the output filter keeps the middle run. */
  lemma OutputsInMiddle(gs: seq<Global>, apply: bool, classes: bool)
    requires |gs| == 13 && gs[4].gtype != "output"
    requires forall i :: 0 <= i < 4 ==> gs[i].gtype == "number"
    requires forall i :: 5 <= i < 9 ==> gs[i].gtype == "output"
    requires forall i :: 9 <= i < 13 ==> gs[i].gtype == "source"
    ensures GlobalOptions(gs, OneOf({"output"}), apply, classes) ==
      seq(4, i requires 0 <= i < 4 => GlobalOption(gs[5..9][i], apply, classes))
  {
    var f := OneOf({"output"});
    var outs := gs[5..9];
    assert gs == gs[..5] + outs + gs[9..];
    GlobalOptionsAppend(gs[..5] + outs, gs[9..], f, apply, classes);
    GlobalOptionsAppend(gs[..5], outs, f, apply, classes);
    NoGlobalAdmitted(gs[..5], f, apply, classes);
    AllGlobalsAdmitted(outs, f, apply, classes);
    NoGlobalAdmitted(gs[9..], f, apply, classes);
  }

  // ---------------------------------------------------------------------
  // Pushing catalog functions
  // ---------------------------------------------------------------------

  /** Keys every one of which the catalog holds. */
  predicate KeysIn(cat: Dict, keys: seq<string>) {
    forall i :: 0 <= i < |keys| ==> keys[i] in cat.entries
  }

  /**
   * The option a loop pushes for a catalog function: `.name()` applying
   * `.name` in a chain, else `name()` applying `name`, classed when
   * `classes`.
   */
  function FunctionOption(name: string, e: Entry, chain: bool, classes: bool): Completion {
    if chain then Completion(Text("." + name + "()"), e.ftype, Some(Text("." + name)), None)
    else Completion(Text(name + "()"), e.ftype, Some(Text(name)), if classes then Some(GetCompletionClass(e.ftype, true)) else None)
  }

  /** The options of the catalog functions, in key order, whose type is one of `types`. */
  function FunctionOptions(cat: Dict, keys: seq<string>, types: set<string>, chain: bool, classes: bool): (opts: seq<Completion>)
    requires KeysIn(cat, keys)
    ensures |opts| <= |keys|
    decreases |keys|
  {
    if keys == [] then []
    else
      var k := keys[|keys| - 1];
      FunctionOptions(cat, keys[..|keys| - 1], types, chain, classes)
        + (if cat.entries[k].ftype in types then [FunctionOption(k, cat.entries[k], chain, classes)] else [])
  }

  /** Every function of an admitted type has its option in the list. */
  lemma {:induction false} FunctionOptionsComplete(cat: Dict, keys: seq<string>, types: set<string>, chain: bool, classes: bool, k: string)
    requires KeysIn(cat, keys) && k in keys && cat.entries[k].ftype in types
    ensures FunctionOption(k, cat.entries[k], chain, classes) in FunctionOptions(cat, keys, types, chain, classes)
    decreases |keys|
  {
    if keys[|keys| - 1] != k {
      assert keys == keys[..|keys| - 1] + [keys[|keys| - 1]];
      FunctionOptionsComplete(cat, keys[..|keys| - 1], types, chain, classes, k);
    }
  }

  /** Every option in the list is the option of a listed function of an admitted type. */
  lemma {:induction false} FunctionOptionsSound(cat: Dict, keys: seq<string>, types: set<string>, chain: bool, classes: bool, c: Completion)
    requires KeysIn(cat, keys) && c in FunctionOptions(cat, keys, types, chain, classes)
    ensures exists k :: k in keys && cat.entries[k].ftype in types && c == FunctionOption(k, cat.entries[k], chain, classes)
    decreases |keys|
  {
    var init := keys[..|keys| - 1];
    var k := keys[|keys| - 1];
    if c in FunctionOptions(cat, init, types, chain, classes) {
      FunctionOptionsSound(cat, init, types, chain, classes, c);
      var h :| h in init && cat.entries[h].ftype in types && c == FunctionOption(h, cat.entries[h], chain, classes);
      assert h in keys;
    } else {
      assert k in keys;
    }
  }

  /** `for (let [name, info] of Object.entries(hydraFunctions)) if (admitted) options.push(...)` */
  method PushFunctions(options: seq<Completion>, cat: Dict, types: set<string>, chain: bool, classes: bool)
    returns (options': seq<Completion>)
    requires DictValid(cat)
    ensures KeysIn(cat, cat.keys)
    ensures options' == options + FunctionOptions(cat, cat.keys, types, chain, classes)
  {
    var keys := cat.keys;
    ValidKeysIn(cat);
    options' := options;
    var i := 0;
    while i < |keys|
      invariant i <= |keys|
      invariant KeysIn(cat, keys[..i])
      invariant options' == options + FunctionOptions(cat, keys[..i], types, chain, classes)
    {
      var name := keys[i];
      var info := cat.entries[name];
      FunctionOptionsStep(cat, keys, i, types, chain, classes);
      if info.ftype in types {
        options' := options' + [FunctionOption(name, info, chain, classes)];
      }
      i := i + 1;
    }
    assert keys[..i] == keys;
  }

  /** A well-formed catalog holds each of its keys. */
  lemma ValidKeysIn(cat: Dict)
    requires DictValid(cat)
    ensures KeysIn(cat, cat.keys)
  {
    forall j | 0 <= j < |cat.keys|
      ensures cat.keys[j] in cat.entries
    {
      assert cat.keys[j] in cat.keys;
    }
  }

  /** One more key adds that key's option when its type is admitted, and nothing else. */
  lemma FunctionOptionsStep(cat: Dict, keys: seq<string>, i: nat, types: set<string>, chain: bool, classes: bool)
    requires KeysIn(cat, keys) && i < |keys|
    ensures KeysIn(cat, keys[..i]) && KeysIn(cat, keys[..i + 1])
    ensures FunctionOptions(cat, keys[..i + 1], types, chain, classes)
      == FunctionOptions(cat, keys[..i], types, chain, classes)
        + (if cat.entries[keys[i]].ftype in types then [FunctionOption(keys[i], cat.entries[keys[i]], chain, classes)] else [])
  {
    var longer := keys[..i + 1];
    forall j | 0 <= j < |longer|
      ensures longer[j] in cat.entries
    {
      assert longer[j] == keys[j];
    }
    assert longer[..i] == keys[..i];
  }

  /** The method types the chain branch lists. */
  const ChainTypes: set<string> := {"color", "coord", "combine", "combineCoord"}

  /** The closing option of the chain branch. */
  const OutOption := Completion(Text(".out()"), "output", Some(Text(".out()")), None)

  // ---------------------------------------------------------------------
  // The two parameter branches both files share
  // ---------------------------------------------------------------------

  /** The options of a parameter of `out` or `render`: the output globals, applied by name. */
  function OutputChoices(classes: bool): seq<Completion> {
    GlobalOptions(HydraGlobals(), OneOf({"output"}), true, classes)
  }

  /** The options of a texture parameter: the source and output globals, then the source functions. */
  function TextureChoices(cat: Dict, classes: bool): seq<Completion>
    requires DictValid(cat)
  {
    GlobalOptions(HydraGlobals(), OneOf({"source", "output"}), true, classes)
      + FunctionOptions(cat, cat.keys, {"src"}, false, classes)
  }

  /** The branch for the parameters of `out()` and `render()`: only the output buffers. */
  method PushOutputs(classes: bool) returns (options: seq<Completion>)
    ensures options == OutputChoices(classes)
    ensures |options| == 4 && forall i :: 0 <= i < 4 ==>
      options[i] == GlobalOption(Global(['o', "0123"[i]], "output"), true, classes)
  {
    options := PushGlobals([], HydraGlobals(), OneOf({"output"}), true, classes);
    OutputOptions(classes);
  }

  /** The branch for a `sampler2D` or `tex` parameter: the source and output buffers, then the source generators. */
  method PushTextureSources(cat: Dict, classes: bool) returns (options: seq<Completion>)
    requires DictValid(cat)
    ensures options == TextureChoices(cat, classes)
  {
    ValidKeysIn(cat);
    options := PushGlobals([], HydraGlobals(), OneOf({"source", "output"}), true, classes);
    options := PushFunctions(options, cat, {"src"}, false, classes);
  }

  // ---------------------------------------------------------------------
  // The numeric anchors of hydra-completions.js
  // ---------------------------------------------------------------------

  const Anchors: seq<real> := [0.0, 0.1, 0.5, 1.0, 2.0, 10.0]

  predicate SortedUp(s: seq<real>) {
    forall i, j :: 0 <= i < j < |s| ==> s[i] <= s[j]
  }

  predicate StrictlyUp(s: seq<real>) {
    forall i, j :: 0 <= i < j < |s| ==> s[i] < s[j]
  }

  predicate Distinct(s: seq<real>) {
    forall i, j :: 0 <= i < j < |s| ==> s[i] != s[j]
  }

  /** `x` placed into a list before the first element not below it. */
  function Insert(s: seq<real>, x: real): seq<real> {
    if s == [] then [x]
    else if x <= s[0] then [x] + s
    else [s[0]] + Insert(s[1..], x)
  }

  /** Inserting keeps every element and adds `x` once. */
  lemma {:induction false} InsertCount(s: seq<real>, x: real)
    ensures multiset(Insert(s, x)) == multiset(s) + multiset{x}
    decreases |s|
  {
    if s != [] {
      assert s == [s[0]] + s[1..];
      if x > s[0] {
        InsertCount(s[1..], x);
      }
    }
  }

  /** Inserting a value no smaller than a bound into a list no element of which is below it keeps the bound. */
  lemma {:induction false} InsertBounded(s: seq<real>, x: real, b: real)
    requires b <= x && forall i :: 0 <= i < |s| ==> b <= s[i]
    ensures forall i :: 0 <= i < |Insert(s, x)| ==> b <= Insert(s, x)[i]
    decreases |s|
  {
    if s != [] && x > s[0] {
      InsertBounded(s[1..], x, b);
    }
  }

  /** Inserting into a sorted list keeps it sorted. */
  lemma {:induction false} InsertSorted(s: seq<real>, x: real)
    requires SortedUp(s)
    ensures SortedUp(Insert(s, x))
    decreases |s|
  {
    if s != [] && x > s[0] {
      var rest := Insert(s[1..], x);
      InsertSorted(s[1..], x);
      InsertBounded(s[1..], x, s[0]);
      var r := [s[0]] + rest;
      forall i, j | 0 <= i < j < |r|
        ensures r[i] <= r[j]
      {
        assert r[j] == rest[j - 1];
        if i > 0 {
          assert r[i] == rest[i - 1];
        }
      }
    }
  }

  /** Insertion sort: each element in turn inserted into the sorted prefix. */
  function InsertionSorted(a: seq<real>): seq<real>
    decreases |a|
  {
    if a == [] then [] else Insert(InsertionSorted(a[..|a| - 1]), a[|a| - 1])
  }

  /** Insertion sort sorts ascending and keeps every element. */
  lemma {:induction false} InsertionSortSorts(a: seq<real>)
    ensures SortedUp(InsertionSorted(a))
    ensures multiset(InsertionSorted(a)) == multiset(a)
    decreases |a|
  {
    if a != [] {
      var init := a[..|a| - 1];
      InsertionSortSorts(init);
      InsertSorted(InsertionSorted(init), a[|a| - 1]);
      InsertCount(InsertionSorted(init), a[|a| - 1]);
      assert a == init + [a[|a| - 1]];
    }
  }

  /**
   * `suggestions.sort((a, b) => a - b)` on finite numbers: sorts ascending
   * and keeps every element. The library sort is modelled by insertion.
   */
  method SortAscending(a: seq<real>) returns (r: seq<real>)
    ensures r == InsertionSorted(a)
    ensures SortedUp(r) && multiset(r) == multiset(a)
  {
    r := [];
    var i := 0;
    while i < |a|
      invariant i <= |a|
      invariant r == InsertionSorted(a[..i])
    {
      assert a[..i + 1][..i] == a[..i];
      r := Insert(r, a[i]);
      i := i + 1;
    }
    assert a[..i] == a;
    InsertionSortSorts(a);
  }

  /** Two equal elements at two places count twice. */
  lemma TwiceCounted(s: seq<real>, i: nat, j: nat)
    requires i < j < |s| && s[i] == s[j]
    ensures multiset(s)[s[i]] >= 2
  {
    assert s == s[..j] + s[j..];
    assert s[i] in s[..j];
    assert s[j..][0] == s[j];
  }

  /** A list without repetitions counts each value at most once. */
  lemma {:induction false} DistinctCountsOnce(s: seq<real>, v: real)
    requires Distinct(s)
    ensures multiset(s)[v] <= 1
    decreases |s|
  {
    if s != [] {
      assert s == [s[0]] + s[1..];
      DistinctCountsOnce(s[1..], v);
      if s[0] == v {
        assert v !in s[1..] by {
          forall k | 0 <= k < |s[1..]|
            ensures s[1..][k] != v
          {
            assert s[1..][k] == s[k + 1];
          }
        }
      }
    }
  }

  /** A sorted rearrangement of a list without repetitions is strictly ascending. */
  lemma StrictWhenDistinct(a: seq<real>, r: seq<real>)
    requires Distinct(a) && SortedUp(r) && multiset(r) == multiset(a)
    ensures StrictlyUp(r)
  {
    forall i, j | 0 <= i < j < |r|
      ensures r[i] < r[j]
    {
      if r[i] == r[j] {
        TwiceCounted(r, i, j);
        DistinctCountsOnce(a, r[i]);
      }
    }
  }

  /** The anchors, with the default appended when it is a number not among them. */
  function WithDefault(defaultVal: Option<real>): seq<real> {
    if defaultVal.Some? && defaultVal.value !in Anchors then Anchors + [defaultVal.value] else Anchors
  }

  /** The number suggestions for a parameter whose default parses to `defaultVal` (None for NaN). */
  function Suggested(defaultVal: Option<real>): seq<real> {
    InsertionSorted(WithDefault(defaultVal))
  }

  /**
   * Insertion sort of a list without repetitions is strictly ascending and
   * has exactly the list's elements.
   */
  lemma SortedDistinct(list: seq<real>)
    requires Distinct(list)
    ensures var s := InsertionSorted(list);
      StrictlyUp(s) && |s| == |list| && forall v :: v in s <==> v in list
  {
    var s := InsertionSorted(list);
    InsertionSortSorts(list);
    StrictWhenDistinct(list, s);
    assert |s| == |list| by {
      assert |multiset(s)| == |multiset(list)|;
    }
    forall v | v in list
      ensures v in s
    {
      assert v in multiset(list);
    }
    forall v | v in s
      ensures v in list
    {
      assert v in multiset(s);
    }
  }

  /**
   * The number suggestions are strictly ascending, hold every anchor and
   * the default, and nothing else: six values, or seven when the default
   * is a new one.
   */
  lemma SuggestedShape(defaultVal: Option<real>)
    ensures var s := Suggested(defaultVal);
      && StrictlyUp(s)
      && (forall a :: a in Anchors ==> a in s)
      && (defaultVal.Some? ==> defaultVal.value in s)
      && (forall v :: v in s ==> v in Anchors || defaultVal == Some(v))
      && |s| == if defaultVal.Some? && defaultVal.value !in Anchors then 7 else 6
  {
    var list := WithDefault(defaultVal);
    assert Distinct(list);
    SortedDistinct(list);
  }

  /**
   * The number suggestions of hydra-completions.js: the six anchors, the
   * parsed default added when it is not one of them, sorted ascending.
   */
  method NumberSuggestions(defaultVal: Option<real>) returns (suggestions: seq<real>)
    ensures suggestions == Suggested(defaultVal)
    ensures StrictlyUp(suggestions)
  {
    var list := Anchors;
    if defaultVal.Some? && defaultVal.value !in list {
      list := list + [defaultVal.value];
    }
    suggestions := SortAscending(list);
    SuggestedShape(defaultVal);
  }

  /** The option pushed for one number suggestion. */
  function NumberOption(v: real): Completion {
    Completion(Number(v), "number", Some(Number(v)), Some(GetCompletionClass("other", false)))
  }

  /** The options of a list of number suggestions, one per value, in order. */
  function NumberOptions(ns: seq<real>): (opts: seq<Completion>)
    ensures |opts| == |ns|
    ensures forall i :: 0 <= i < |ns| ==> opts[i] == NumberOption(ns[i])
    decreases |ns|
  {
    if ns == [] then [] else NumberOptions(ns[..|ns| - 1]) + [NumberOption(ns[|ns| - 1])]
  }

  /** `suggestions.forEach(val => options.push({label: String(val), ...}))` */
  method PushNumbers(options: seq<Completion>, suggestions: seq<real>) returns (options': seq<Completion>)
    ensures options' == options + NumberOptions(suggestions)
  {
    options' := options;
    var i := 0;
    while i < |suggestions|
      invariant i <= |suggestions|
      invariant options' == options + NumberOptions(suggestions[..i])
    {
      options' := options' + [NumberOption(suggestions[i])];
      assert suggestions[..i + 1][..i] == suggestions[..i];
      i := i + 1;
    }
    assert suggestions[..i] == suggestions;
  }

  // ---------------------------------------------------------------------
  // The decision table of index.js
  // ---------------------------------------------------------------------

  /** The parameter options of index.js for the function `cur` and its parameter `param`. */
  function IndexParamOptions(cat: Dict, cur: Option<string>, param: Param): seq<Completion>
    requires DictValid(cat)
  {
    if cur == Some("out") || cur == Some("render") then OutputChoices(false)
    else if param.ptype == "sampler2D" || param.ptype == "tex" then TextureChoices(cat, false)
    else
      [Completion(Text(JsString(param.default)), param.ptype, Some(Text(JsString(param.default))), None)]
  }

  /**
   * The options of index.js: parameter options inside a parameter list;
   * else chain methods and `.out()` after a dot or a call, unless that call
   * is `out`; else, at the start of an expression, source functions and,
   * unless after `out`, the globals.
   */
  function IndexTable(cat: Dict, inParameters: bool, functionName: Option<string>, lastFunctionName: Option<string>,
                      paramIndex: nat, afterDot: bool, afterFunction: bool): seq<Completion>
    requires DictValid(cat)
  {
    if inParameters then
      var cur := OrElse(functionName, lastFunctionName);
      match Lookup(cat, cur)
      case None => []
      case Some(e) => if paramIndex < |e.params| then IndexParamOptions(cat, cur, e.params[paramIndex]) else []
    else if (afterDot || afterFunction) && lastFunctionName != Some("out") then
      FunctionOptions(cat, cat.keys, ChainTypes, true, false) + [OutOption]
    else if !afterDot && !afterFunction then
      FunctionOptions(cat, cat.keys, {"src", "external"}, false, false)
        + (if lastFunctionName != Some("out") then GlobalOptions(HydraGlobals(), AnyType, false, false) else [])
    else []
  }

  /** The option-building branches of `hydraSuggestions` in index.js. */
  method IndexOptions(cat: Dict, inParameters: bool, functionName: Option<string>, lastFunctionName: Option<string>,
                      paramIndex: nat, afterDot: bool, afterFunction: bool) returns (options: seq<Completion>)
    requires DictValid(cat)
    ensures options == IndexTable(cat, inParameters, functionName, lastFunctionName, paramIndex, afterDot, afterFunction)
  {
    ValidKeysIn(cat);
    options := [];
    var afterOut := lastFunctionName == Some("out");
    if inParameters {
      var currentFunction := OrElse(functionName, lastFunctionName);
      var func := Lookup(cat, currentFunction);
      if func.Some? && paramIndex < |func.value.params| {
        options := IndexParameterOptions(cat, currentFunction, func.value.params[paramIndex]);
      }
    } else if (afterDot || afterFunction) && !afterOut {
      options := PushFunctions(options, cat, ChainTypes, true, false);
      options := options + [OutOption];
      assert options == FunctionOptions(cat, cat.keys, ChainTypes, true, false) + [OutOption];
    } else if !afterDot && !afterFunction {
      options := PushFunctions(options, cat, {"src", "external"}, false, false);
      assert options == FunctionOptions(cat, cat.keys, {"src", "external"}, false, false);
      if !afterOut {
        options := PushGlobals(options, HydraGlobals(), AnyType, false, false);
      }
    }
  }

  /** The parameter branch of `hydraSuggestions` in index.js, for the function `currentFunction` and its parameter `param`. */
  method IndexParameterOptions(cat: Dict, currentFunction: Option<string>, param: Param) returns (options: seq<Completion>)
    requires DictValid(cat)
    ensures options == IndexParamOptions(cat, currentFunction, param)
  {
    ValidKeysIn(cat);
    options := [];
    var outOrRender := currentFunction == Some("out") || currentFunction == Some("render");
    var texture := param.ptype == "sampler2D" || param.ptype == "tex";
    if outOrRender {
      options := PushOutputs(false);
    } else if texture {
      options := PushTextureSources(cat, false);
    } else {
      var text := JsString(param.default);
      options := options + [Completion(Text(text), param.ptype, Some(Text(text)), None)];
    }
  }

  /** Inside a parameter list, an unknown function or a parameter index past its parameters gives no options. */
  lemma IndexUnknownParameter(cat: Dict, functionName: Option<string>, lastFunctionName: Option<string>,
                              paramIndex: nat, afterDot: bool, afterFunction: bool)
    requires DictValid(cat)
    requires var e := Lookup(cat, OrElse(functionName, lastFunctionName)); e.None? || paramIndex >= |e.value.params|
    ensures IndexTable(cat, true, functionName, lastFunctionName, paramIndex, afterDot, afterFunction) == []
  {
    ValidKeysIn(cat);
  }

  /** Inside the parameters of out() or render(), the options are exactly the outputs o0..o3, in order. */
  lemma IndexOutRender(cat: Dict, functionName: Option<string>, lastFunctionName: Option<string>,
                       paramIndex: nat, afterDot: bool, afterFunction: bool)
    requires DictValid(cat)
    requires OrElse(functionName, lastFunctionName) == Some("out") || OrElse(functionName, lastFunctionName) == Some("render")
    requires var e := Lookup(cat, OrElse(functionName, lastFunctionName)); e.Some? && paramIndex < |e.value.params|
    ensures var opts := IndexTable(cat, true, functionName, lastFunctionName, paramIndex, afterDot, afterFunction);
      |opts| == 4 && forall i :: 0 <= i < 4 ==>
        opts[i].ctype == "output" && opts[i].display == Text(['o', "0123"[i]]) && opts[i].apply == Some(opts[i].display)
  {
    ValidKeysIn(cat);
    OutputOptions(false);
  }

  /**
   * For a texture parameter, every option is an output or source global
   * applied by name, or a source function labelled `name()` applying
   * `name`; and every such global and source function is offered.
   */
  lemma IndexTextureParameter(cat: Dict, functionName: Option<string>, lastFunctionName: Option<string>,
                              paramIndex: nat, afterDot: bool, afterFunction: bool, c: Completion)
    requires DictValid(cat)
    requires OrElse(functionName, lastFunctionName) != Some("out") && OrElse(functionName, lastFunctionName) != Some("render")
    requires var e := Lookup(cat, OrElse(functionName, lastFunctionName));
      e.Some? && paramIndex < |e.value.params| && (e.value.params[paramIndex].ptype == "sampler2D" || e.value.params[paramIndex].ptype == "tex")
    ensures c in IndexTable(cat, true, functionName, lastFunctionName, paramIndex, afterDot, afterFunction) <==>
      (exists g :: g in HydraGlobals() && Admits(OneOf({"source", "output"}), g.gtype) && c == GlobalOption(g, true, false))
      || (exists k :: k in cat.entries && cat.entries[k].ftype in {"src"} && c == FunctionOption(k, cat.entries[k], false, false))
  {
    var opts := IndexTable(cat, true, functionName, lastFunctionName, paramIndex, afterDot, afterFunction);
    IndexTextureTable(cat, functionName, lastFunctionName, paramIndex, afterDot, afterFunction);
    TextureMembers(cat, opts, c);
  }

  /** An option of the texture branch is an output or source global's or a source function's, and each of those is one. */
  lemma TextureMembers(cat: Dict, opts: seq<Completion>, c: Completion)
    requires DictValid(cat) && opts == TextureChoices(cat, false)
    ensures c in opts <==>
      (exists g :: g in HydraGlobals() && Admits(OneOf({"source", "output"}), g.gtype) && c == GlobalOption(g, true, false))
      || (exists k :: k in cat.entries && cat.entries[k].ftype in {"src"} && c == FunctionOption(k, cat.entries[k], false, false))
  {
    GlobalsThenFunctions(HydraGlobals(), OneOf({"source", "output"}), cat, {"src"}, c);
  }

  /** An option of globals followed by functions is an admitted global's or an admitted function's, and each of those is one. */
  lemma GlobalsThenFunctions(gs: seq<Global>, f: Filter, cat: Dict, types: set<string>, c: Completion)
    requires DictValid(cat)
    ensures KeysIn(cat, cat.keys)
    ensures c in GlobalOptions(gs, f, true, false) + FunctionOptions(cat, cat.keys, types, false, false) <==>
      (exists g :: g in gs && Admits(f, g.gtype) && c == GlobalOption(g, true, false))
      || (exists k :: k in cat.entries && cat.entries[k].ftype in types && c == FunctionOption(k, cat.entries[k], false, false))
  {
    ValidKeysIn(cat);
    var globals := GlobalOptions(gs, f, true, false);
    var fns := FunctionOptions(cat, cat.keys, types, false, false);
    if exists g :: g in gs && Admits(f, g.gtype) && c == GlobalOption(g, true, false) {
      var g :| g in gs && Admits(f, g.gtype) && c == GlobalOption(g, true, false);
      GlobalOptionsComplete(gs, f, true, false, g);
    }
    if exists k :: k in cat.entries && cat.entries[k].ftype in types && c == FunctionOption(k, cat.entries[k], false, false) {
      var k :| k in cat.entries && cat.entries[k].ftype in types && c == FunctionOption(k, cat.entries[k], false, false);
      FunctionOptionsComplete(cat, cat.keys, types, false, false, k);
    }
    if c in globals {
      GlobalOptionsSound(gs, f, true, false, c);
    }
    if c in fns {
      FunctionOptionsSound(cat, cat.keys, types, false, false, c);
    }
    assert c in globals + fns <==> c in globals || c in fns;
  }

  /** For a texture parameter, the table is the output and source globals, then the source functions. */
  lemma IndexTextureTable(cat: Dict, functionName: Option<string>, lastFunctionName: Option<string>,
                          paramIndex: nat, afterDot: bool, afterFunction: bool)
    requires DictValid(cat)
    requires OrElse(functionName, lastFunctionName) != Some("out") && OrElse(functionName, lastFunctionName) != Some("render")
    requires var e := Lookup(cat, OrElse(functionName, lastFunctionName));
      e.Some? && paramIndex < |e.value.params| && (e.value.params[paramIndex].ptype == "sampler2D" || e.value.params[paramIndex].ptype == "tex")
    ensures IndexTable(cat, true, functionName, lastFunctionName, paramIndex, afterDot, afterFunction) == TextureChoices(cat, false)
  {
  }

  /** Any other parameter gets exactly one option: its default as text ("undefined" when it has none). */
  lemma IndexDefaultParameter(cat: Dict, functionName: Option<string>, lastFunctionName: Option<string>,
                              paramIndex: nat, afterDot: bool, afterFunction: bool)
    requires DictValid(cat)
    requires OrElse(functionName, lastFunctionName) != Some("out") && OrElse(functionName, lastFunctionName) != Some("render")
    requires var e := Lookup(cat, OrElse(functionName, lastFunctionName));
      e.Some? && paramIndex < |e.value.params| && e.value.params[paramIndex].ptype != "sampler2D" && e.value.params[paramIndex].ptype != "tex"
    ensures var e := Lookup(cat, OrElse(functionName, lastFunctionName));
      var p := e.value.params[paramIndex];
      IndexTable(cat, true, functionName, lastFunctionName, paramIndex, afterDot, afterFunction)
        == [Completion(Text(JsString(p.default)), p.ptype, Some(Text(JsString(p.default))), None)]
  {
    ValidKeysIn(cat);
  }

  /**
   * After a dot or a call that is not `out`, outside parameters: the options
   * are the chain methods applied as `.name`, then `.out()` last.
   */
  lemma IndexChain(cat: Dict, functionName: Option<string>, lastFunctionName: Option<string>,
                   paramIndex: nat, afterDot: bool, afterFunction: bool)
    requires DictValid(cat)
    requires (afterDot || afterFunction) && lastFunctionName != Some("out")
    ensures var opts := IndexTable(cat, false, functionName, lastFunctionName, paramIndex, afterDot, afterFunction);
      |opts| >= 1 && opts[|opts| - 1] == OutOption
      && forall i :: 0 <= i < |opts| - 1 ==>
        exists k :: k in cat.entries && cat.entries[k].ftype in ChainTypes
          && opts[i].display == Text("." + k + "()") && opts[i].apply == Some(Text("." + k))
  {
    ValidKeysIn(cat);
    var opts := IndexTable(cat, false, functionName, lastFunctionName, paramIndex, afterDot, afterFunction);
    var chain := FunctionOptions(cat, cat.keys, ChainTypes, true, false);
    assert opts == chain + [OutOption];
    forall i | 0 <= i < |opts| - 1
      ensures exists k :: (k in cat.entries && cat.entries[k].ftype in ChainTypes
        && opts[i].display == Text("." + k + "()") && opts[i].apply == Some(Text("." + k)))
    {
      assert opts[i] in chain;
      FunctionOptionsSound(cat, cat.keys, ChainTypes, true, false, opts[i]);
      var k :| k in cat.keys && cat.entries[k].ftype in ChainTypes && opts[i] == FunctionOption(k, cat.entries[k], true, false);
      assert k in cat.entries;
    }
  }

  /** After a dot or a call to `out`, outside parameters, there are no options at all. */
  lemma IndexAfterOut(cat: Dict, functionName: Option<string>, paramIndex: nat, afterDot: bool, afterFunction: bool)
    requires DictValid(cat)
    requires afterDot || afterFunction
    ensures IndexTable(cat, false, functionName, Some("out"), paramIndex, afterDot, afterFunction) == []
  {
    ValidKeysIn(cat);
  }

  /**
   * At the start of an expression: the source and external functions as
   * `name()`, then, unless after `out`, every global without an applied text.
   */
  lemma IndexSources(cat: Dict, functionName: Option<string>, lastFunctionName: Option<string>, paramIndex: nat)
    requires DictValid(cat)
    ensures var opts := IndexTable(cat, false, functionName, lastFunctionName, paramIndex, false, false);
      var srcs := FunctionOptions(cat, cat.keys, {"src", "external"}, false, false);
      && opts[..|srcs|] == srcs
      && (lastFunctionName == Some("out") ==> |opts| == |srcs|)
      && (lastFunctionName != Some("out") ==>
            |opts| == |srcs| + 13 && forall i :: 0 <= i < 13 ==> opts[|srcs| + i] == GlobalOption(HydraGlobals()[i], false, false))
  {
    ValidKeysIn(cat);
    var srcs := FunctionOptions(cat, cat.keys, {"src", "external"}, false, false);
    var afterOut := lastFunctionName == Some("out");
    assert IndexTable(cat, false, functionName, lastFunctionName, paramIndex, false, false)
      == srcs + (if !afterOut then GlobalOptions(HydraGlobals(), AnyType, false, false) else []);
    SourcesThenGlobals(srcs, HydraGlobals(), afterOut);
  }

  /**
   * In the whole flow the sources branch never follows `out`: it is taken
   * only when the afterFunction walk found nothing, and then the walk names
   * no function. So all thirteen globals always follow the sources.
   */
  lemma SourcesAlwaysWithGlobals(t: Tree, doc: string, nodeBefore: nat, cat: Dict, functionName: Option<string>, paramIndex: nat)
    requires Valid(t, doc) && nodeBefore < |t| && DictValid(cat)
    requires FirstAbove(t, nodeBefore, FunctionMarker).None?
    ensures var opts := IndexTable(cat, false, functionName, AfterFunctionName(t, doc, nodeBefore), paramIndex, false, false);
      var srcs := FunctionOptions(cat, cat.keys, {"src", "external"}, false, false);
      |opts| == |srcs| + 13 && forall i :: 0 <= i < 13 ==> opts[|srcs| + i] == GlobalOption(HydraGlobals()[i], false, false)
  {
    IndexSources(cat, functionName, AfterFunctionName(t, doc, nodeBefore), paramIndex);
  }

  /** Functions followed, unless after `out`, by every global: the functions come first, then one option per global in order. */
  lemma SourcesThenGlobals(srcs: seq<Completion>, gs: seq<Global>, afterOut: bool)
    ensures var opts := srcs + (if !afterOut then GlobalOptions(gs, AnyType, false, false) else []);
      && opts[..|srcs|] == srcs
      && (afterOut ==> |opts| == |srcs|)
      && (!afterOut ==> |opts| == |srcs| + |gs| && forall i :: 0 <= i < |gs| ==> opts[|srcs| + i] == GlobalOption(gs[i], false, false))
  {
    AllGlobalsAdmitted(gs, AnyType, false, false);
  }

  /** The response of index.js: the options replace the token, and `validFor` expects a dot exactly after a dot. */
  function Respond(token: Option<Token>, options: seq<Completion>, afterDot: bool): (r: Option<Response>)
    ensures r.None? <==> token.None?
    ensures r.Some? ==> r.value.from == token.value.from && r.value.options == options
    ensures r.Some? ==> (r.value.validFor == DotWord <==> afterDot)
  {
    match token
    case None => None
    case Some(tok) => Some(Response(tok.from, options, if afterDot then DotWord else Word))
  }

  /**
   * `hydraSuggestions` of index.js over a parsed document, from the token
   * onwards: the dot test, the afterFunction walk, the tree context, the
   * parameter test, then the option table.
   */
  method IndexSuggestions(t: Tree, doc: string, nodeBeforeBefore: nat, nodeBefore: nat, nodeMe: nat,
                          lineText: string, token: Option<Token>, cat: Dict)
    returns (r: Option<Response>)
    requires Valid(t, doc) && nodeBeforeBefore < |t| && nodeBefore < |t| && nodeMe < |t|
    requires DictValid(cat)
    ensures r.None? <==> token.None?
    ensures r.Some? ==> r.value.from == token.value.from
    ensures r.Some? ==> (r.value.validFor == DotWord <==>
      ContextAnalyzer.IsAfterDot(t, nodeBefore, nodeBeforeBefore, token.value.text, lineText))
    ensures r.Some? ==>
      var ctx := TreeCallContext(t, doc, nodeMe);
      r.value.options == IndexTable(cat, ContextAnalyzer.IsInParameters(t, nodeMe, nodeBefore, ctx.functionName),
        ctx.functionName, AfterFunctionName(t, doc, nodeBefore), ctx.paramIndex,
        ContextAnalyzer.IsAfterDot(t, nodeBefore, nodeBeforeBefore, token.value.text, lineText),
        FirstAbove(t, nodeBefore, FunctionMarker).Some?)
  {
    if token.None? {
      return None;
    }
    var before := token.value;
    var afterDot := ContextAnalyzer.IsAfterDot(t, nodeBefore, nodeBeforeBefore, before.text, lineText);
    var afterFunction, lastFunctionName := AfterFunctionWalk(t, doc, nodeBefore);
    var context := TreeContext.FindFunctionContext(t, doc, nodeMe);
    assert context == TreeCallContext(t, doc, nodeMe);
    var inParameters := ContextAnalyzer.IsInParameters(t, nodeMe, nodeBefore, context.functionName);
    var options := IndexOptions(cat, inParameters, context.functionName, lastFunctionName, context.paramIndex, afterDot, afterFunction);
    r := Respond(token, options, afterDot);
  }

  // ---------------------------------------------------------------------
  // The decision table of hydra-completions.js
  // ---------------------------------------------------------------------

  /**
   * The parsed default of a number parameter, `parseFloat(param.default)`,
   * with the parser given as a parameter; None stands for NaN, which is
   * also what an undefined default parses to.
   */
  function ParsedDefault(parseFloat: string -> Option<real>, p: Param): Option<real> {
    match p.default
    case None => None
    case Some(text) => parseFloat(text)
  }

  /** The parameter options of hydra-completions.js, given the number suggestions of a number parameter. */
  function LegacyParamOptions(cat: Dict, cur: Option<string>, param: Param, parseFloat: string -> Option<real>): seq<Completion>
    requires DictValid(cat)
  {
    if cur == Some("out") || cur == Some("render") then OutputChoices(true)
    else if param.ptype == "sampler2D" || param.ptype == "tex" then TextureChoices(cat, true)
    else if param.ptype == "number" then
      NumberOptions(Suggested(ParsedDefault(parseFloat, param)))
    else if param.default.Some? then
      [Completion(Text(param.default.value), param.ptype, Some(Text(param.default.value)), Some(GetCompletionClass("other", false)))]
    else []
  }

  /** The options of hydra-completions.js: no chain branch, and the globals left out after `out`. */
  function LegacyTable(cat: Dict, inParameters: bool, functionName: Option<string>, lastFunctionName: Option<string>,
                       paramIndex: nat, parseFloat: string -> Option<real>): seq<Completion>
    requires DictValid(cat)
  {
    if inParameters then
      var cur := OrElse(functionName, lastFunctionName);
      match Lookup(cat, cur)
      case None => []
      case Some(e) => if paramIndex < |e.params| then LegacyParamOptions(cat, cur, e.params[paramIndex], parseFloat) else []
    else
      FunctionOptions(cat, cat.keys, {"src", "external"}, false, true)
        + (if lastFunctionName != Some("out") then GlobalOptions(HydraGlobals(), AnyType, false, true) else [])
  }

  /** The parameter branch of `hydraSuggestions` in hydra-completions.js, for the function `currentFunction` and its parameter `param`. */
  method LegacyParameterOptions(cat: Dict, currentFunction: Option<string>, param: Param, parseFloat: string -> Option<real>)
    returns (options: seq<Completion>)
    requires DictValid(cat)
    ensures options == LegacyParamOptions(cat, currentFunction, param, parseFloat)
  {
    ValidKeysIn(cat);
    options := [];
    var outOrRender := currentFunction == Some("out") || currentFunction == Some("render");
    var texture := param.ptype == "sampler2D" || param.ptype == "tex";
    var number := param.ptype == "number";
    if outOrRender {
      options := PushOutputs(true);
    } else if texture {
      options := PushTextureSources(cat, true);
    } else if number {
      var suggestions := NumberSuggestions(ParsedDefault(parseFloat, param));
      options := PushNumbers(options, suggestions);
      assert options == NumberOptions(Suggested(ParsedDefault(parseFloat, param)));
    } else if param.default.Some? {
      options := options + [Completion(Text(param.default.value), param.ptype, Some(Text(param.default.value)),
                                       Some(GetCompletionClass("other", false)))];
    }
  }

  /** The option-building branches of `hydraSuggestions` in hydra-completions.js. */
  method LegacyOptions(cat: Dict, inParameters: bool, functionName: Option<string>, lastFunctionName: Option<string>,
                       paramIndex: nat, parseFloat: string -> Option<real>) returns (options: seq<Completion>)
    requires DictValid(cat)
    ensures options == LegacyTable(cat, inParameters, functionName, lastFunctionName, paramIndex, parseFloat)
  {
    ValidKeysIn(cat);
    options := [];
    var afterOut := lastFunctionName == Some("out");
    if inParameters {
      var currentFunction := OrElse(functionName, lastFunctionName);
      var func := Lookup(cat, currentFunction);
      if func.Some? && paramIndex < |func.value.params| {
        options := LegacyParameterOptions(cat, currentFunction, func.value.params[paramIndex], parseFloat);
      }
    } else {
      options := PushFunctions(options, cat, {"src", "external"}, false, true);
      assert options == FunctionOptions(cat, cat.keys, {"src", "external"}, false, true);
      if !afterOut {
        options := PushGlobals(options, HydraGlobals(), AnyType, false, true);
      }
    }
  }

  /**
   * A number parameter of hydra-completions.js gets one "number" option per
   * suggestion, in strictly ascending order of value, covering every
   * anchor and the parsed default and nothing else.
   */
  lemma LegacyNumberParameter(cat: Dict, functionName: Option<string>, lastFunctionName: Option<string>,
                              paramIndex: nat, parseFloat: string -> Option<real>)
    requires DictValid(cat)
    requires OrElse(functionName, lastFunctionName) != Some("out") && OrElse(functionName, lastFunctionName) != Some("render")
    requires var e := Lookup(cat, OrElse(functionName, lastFunctionName));
      e.Some? && paramIndex < |e.value.params| && e.value.params[paramIndex].ptype == "number"
    ensures var e := Lookup(cat, OrElse(functionName, lastFunctionName)).value;
      var d := ParsedDefault(parseFloat, e.params[paramIndex]);
      var opts := LegacyTable(cat, true, functionName, lastFunctionName, paramIndex, parseFloat);
      && (forall i :: 0 <= i < |opts| ==> opts[i].ctype == "number" && opts[i].display.Number? && opts[i].apply == Some(opts[i].display))
      && (forall i, j :: 0 <= i < j < |opts| ==> opts[i].display.value < opts[j].display.value)
      && (forall a :: a in Anchors ==> exists i :: 0 <= i < |opts| && opts[i].display == Number(a))
      && (d.Some? ==> exists i :: 0 <= i < |opts| && opts[i].display == Number(d.value))
      && (forall i :: 0 <= i < |opts| ==> opts[i].display.value in Anchors || d == Some(opts[i].display.value))
  {
    ValidKeysIn(cat);
    var e := Lookup(cat, OrElse(functionName, lastFunctionName)).value;
    var d := ParsedDefault(parseFloat, e.params[paramIndex]);
    assert LegacyTable(cat, true, functionName, lastFunctionName, paramIndex, parseFloat) == NumberOptions(Suggested(d));
    NumberOptionsShape(d);
  }

  /**
   * The options of the number suggestions: each a "number" applying its own
   * value, strictly ascending, covering every anchor and the default, and
   * nothing else.
   */
  lemma NumberOptionsShape(d: Option<real>)
    ensures var opts := NumberOptions(Suggested(d));
      && (forall i :: 0 <= i < |opts| ==> opts[i].ctype == "number" && opts[i].display.Number? && opts[i].apply == Some(opts[i].display))
      && (forall i, j :: 0 <= i < j < |opts| ==> opts[i].display.value < opts[j].display.value)
      && (forall a :: a in Anchors ==> exists i :: 0 <= i < |opts| && opts[i].display == Number(a))
      && (d.Some? ==> exists i :: 0 <= i < |opts| && opts[i].display == Number(d.value))
      && (forall i :: 0 <= i < |opts| ==> opts[i].display.value in Anchors || d == Some(opts[i].display.value))
  {
    var numbers := Suggested(d);
    var opts := NumberOptions(numbers);
    SuggestedShape(d);
    forall a | a in Anchors
      ensures exists i :: 0 <= i < |opts| && opts[i].display == Number(a)
    {
      var i :| 0 <= i < |numbers| && numbers[i] == a;
      assert opts[i].display == Number(a);
    }
    if d.Some? {
      var i :| 0 <= i < |numbers| && numbers[i] == d.value;
      assert opts[i].display == Number(d.value);
    }
  }

  /** Outside parameters hydra-completions.js never offers chain methods: every option is a source or external function, or a global. */
  lemma LegacyNoChainBranch(cat: Dict, functionName: Option<string>, lastFunctionName: Option<string>, paramIndex: nat,
                            parseFloat: string -> Option<real>, c: Completion)
    requires DictValid(cat)
    requires c in LegacyTable(cat, false, functionName, lastFunctionName, paramIndex, parseFloat)
    ensures KeysIn(cat, cat.keys)
    ensures (exists k :: k in cat.keys && cat.entries[k].ftype in {"src", "external"} && c == FunctionOption(k, cat.entries[k], false, true))
      || (lastFunctionName != Some("out") && exists g :: g in HydraGlobals() && c == GlobalOption(g, false, true))
  {
    ValidKeysIn(cat);
    var fns := FunctionOptions(cat, cat.keys, {"src", "external"}, false, true);
    var globals := GlobalOptions(HydraGlobals(), AnyType, false, true);
    if c in fns {
      FunctionOptionsSound(cat, cat.keys, {"src", "external"}, false, true, c);
    } else {
      assert lastFunctionName != Some("out") && c in globals;
      GlobalOptionsSound(HydraGlobals(), AnyType, false, true, c);
    }
  }

  /**
   * The whole of `hydraSuggestions` in hydra-completions.js over a parsed
   * document: the dot test, the afterFunction walk, the tree context, the
   * parameter test, then the option table. The text heuristics it also
   * computes only feed its logging.
   */
  method LegacySuggestions(t: Tree, doc: string, nodeBeforeBefore: nat, nodeBefore: nat, nodeMe: nat,
                           lineText: string, token: Option<Token>, cat: Dict, parseFloat: string -> Option<real>)
    returns (r: Option<Response>)
    requires Valid(t, doc) && nodeBeforeBefore < |t| && nodeBefore < |t| && nodeMe < |t|
    requires DictValid(cat)
    ensures r.None? <==> token.None?
    ensures r.Some? ==> r.value.from == token.value.from
    ensures r.Some? ==> (r.value.validFor == DotWord <==>
      ContextAnalyzer.IsAfterDot(t, nodeBefore, nodeBeforeBefore, token.value.text, lineText))
    ensures r.Some? ==>
      var ctx := LegacyCallContext(t, doc, nodeMe);
      r.value.options == LegacyTable(cat, ContextAnalyzer.IsInParameters(t, nodeMe, nodeBefore, ctx.functionName),
        ctx.functionName, AfterFunctionName(t, doc, nodeBefore), ctx.paramIndex, parseFloat)
  {
    if token.None? {
      return None;
    }
    var before := token.value;
    var afterDot := ContextAnalyzer.IsAfterDot(t, nodeBefore, nodeBeforeBefore, before.text, lineText);
    var afterFunction, lastFunctionName := AfterFunctionWalk(t, doc, nodeBefore);
    var context := LegacyContext.FindFunctionContext(t, doc, nodeMe);
    assert context == LegacyCallContext(t, doc, nodeMe);
    var inParameters := ContextAnalyzer.IsInParameters(t, nodeMe, nodeBefore, context.functionName);
    var options := LegacyOptions(cat, inParameters, context.functionName, lastFunctionName, context.paramIndex, parseFloat);
    r := Respond(token, options, afterDot);
  }
}
