# Hydra completions — a verified model of the completion engine

The Hydra live-coding editor offers completions while the user types a
Hydra sketch such as `osc(30,0.1).color(1,0,0).out()`. This project models
the engine that decides what to offer:

- **Where the cursor is.** Two call-context analysers find the innermost
  call around the cursor and the argument being typed:
  - a text scan (`contextAnalizer.js`), which tracks parenthesis depth and a
    stack of open calls;
  - two syntax-tree walks (`index.js` and `hydra-completions.js`).
- **What came before.** The predicates for "after a dot", "after a call"
  (with the name of that call), "in a chain" and "in parameters".
- **The catalog.** `convertToCompletions` folds hydra-synth's GLSL function
  list into a dictionary keyed by name, then lays the external sources
  over it. The tables of globals and external sources are modelled too.
- **What is offered.** The option tables of both `hydraSuggestions`
  functions: output buffers for `out`/`render`, texture sources, parameter
  defaults, the numeric anchors, chain methods, and source generators with
  globals.
- **The legacy file's extras.** The text heuristics `analyzeHeuristics` and
  the CSS class table of `hydra-completions.js`.

## Modelling choices

The syntax tree is an arena, `seq<Node>`. Every node's parent has a smaller
index, so the upward walks of the source (`while (node && node._parent)`)
terminate by the node index. The generic walk `SyntaxTree.FirstAbove`
describes all of them, and path lemmas relate it to the list of ancestors.

Loops of the source are methods with `while` loops. Each is proved equal to
a recursive specification function, and the properties of that function
are proved as lemmas.

JavaScript semantics are written out where the source relies on them:

- truthiness of a string-or-null (`""` is falsy);
- `a || b`;
- `String(undefined) == "undefined"`;
- object key order, where a new key goes last and an overwritten key keeps
  its place;
- `hydraFunctions[null]`, which looks up the key `"null"`.

The editor state is passed in as values: the document, the tree, the three
nodes around the cursor, the line text and the token `matchBefore` found.

The duplicated code is modelled once:

- The walk that decides `afterFunction` and the tests `isAfterDot`,
  `isInParameters` and `isChainableExpression` are identical in `index.js`,
  `hydra-completions.js` and `contextAnalizer.js`.
- The catalog tables are modelled from `completionData.js`. The copies in
  `hydra-completions.js` hold the same names, types and parameters.

## Model

| member | source | states |
|---|---|---|
| Common.OrElse | src/views/cm6-editor/hydra-completions/index.js:289 | `functionName \|\| lastFunctionName`: the first name when it is truthy (neither null nor empty), else the second |
| Common.Count | src/views/cm6-editor/hydra-completions.js:325-326 | the number of occurrences of a character is at most the length, and zero exactly when the character is absent |
| Common.LastIndexOf | src/views/cm6-editor/hydra-completions/contextAnalizer.js:29 | `lastIndexOf('(')`: None exactly when there is no `(`; otherwise a `(` with no `(` after it |
| SyntaxTree.NameOf | src/views/cm6-editor/hydra-completions/index.js:197-207 | `getFunctionNameFromNode`: the node's text exactly when it is a PropertyName or VariableName, null otherwise |
| SyntaxTree.Ancestors | src/views/cm6-editor/hydra-completions/index.js:19-24 | the path the `while (node && node._parent)` walks visit, from the node to the root, linked by parent edges |
| SyntaxTree.FirstAbove | src/views/cm6-editor/hydra-completions/index.js:19-24 | the first node on the upward walk, the root excluded, that passes the test; when found it passes the test and is not the root |
| SyntaxTree.FirstAboveOnPath | src/views/cm6-editor/hydra-completions/index.js:19-24 | the node found sits on the path below the root, and no node before it on the path passes the test |
| SyntaxTree.FirstAboveNoneOnPath | src/views/cm6-editor/hydra-completions/index.js:19-24 | when nothing is found, no node on the path below the root passes the test |
| SyntaxTree.FirstAboveIff | src/views/cm6-editor/hydra-completions/index.js:19-24 | the walk finds a node exactly when some node on the path below the root passes the test |
| ContextAnalyzer.TrailingIdentifier | src/views/cm6-editor/hydra-completions/contextAnalizer.js:33-35 | `/[a-zA-Z_$][a-zA-Z0-9_$]*$/`: the longest identifier suffix; no longer suffix is an identifier, and None when no suffix is one |
| ContextAnalyzer.GetCurrentFunction | src/views/cm6-editor/hydra-completions/contextAnalizer.js:27-36 | null without a `(`; otherwise the identifier that ends right before the last `(` |
| ContextAnalyzer.CurrentFunctionOfCallOpen | src/views/cm6-editor/hydra-completions/contextAnalizer.js:27-36 | after any prefix that does not end in an identifier character, typing `name(` makes `name` the current function |
| ContextAnalyzer.CurrentFunctionNested | src/views/cm6-editor/hydra-completions/__tests__/contextAnalizer.test.js:40 | `osc(noise(` gives `noise` |
| ContextAnalyzer.CurrentFunctionChained | src/views/cm6-editor/hydra-completions/__tests__/contextAnalizer.test.js:45 | `osc(30).color(` gives `color` |
| ContextAnalyzer.CurrentFunctionArrayChain | src/views/cm6-editor/hydra-completions/__tests__/contextAnalizer.test.js:51 | `[3,10,2].fast(` gives `fast` |
| ContextAnalyzer.IdentRunEnd | src/views/cm6-editor/hydra-completions/contextAnalizer.js:52 | the end of the identifier-character run lies between the start and the end of the text, and the character there (if any) cannot continue an identifier |
| ContextAnalyzer.IdentRunChars | src/views/cm6-editor/hydra-completions/contextAnalizer.js:52 | every character of the run continues an identifier |
| ContextAnalyzer.CallOpenAt | src/views/cm6-editor/hydra-completions/contextAnalizer.js:50-52 | `/^[a-zA-Z_$][a-zA-Z0-9_$]*\(/` at position i: a found match ends at a `(` after i |
| ContextAnalyzer.CallOpenAtIdentifier | src/views/cm6-editor/hydra-completions/contextAnalizer.js:50-52 | the text between i and a found `(` is an identifier |
| ContextAnalyzer.CallOpenAtNone | src/views/cm6-editor/hydra-completions/contextAnalizer.js:50-52 | when nothing matches, no `(` after i ends an identifier that starts at i |
| ContextAnalyzer.PopClosed | src/views/cm6-editor/hydra-completions/contextAnalizer.js:71-73 | pops a suffix of the stack: every popped call opened at depth `>= d`, and the call left on top opened below `d` |
| ContextAnalyzer.ContextOf | src/views/cm6-editor/hydra-completions/contextAnalizer.js:82-88 | the innermost open call and its argument index; no name (and argument 0) exactly when no call is open |
| ContextAnalyzer.CharStepKeepsInv | src/views/cm6-editor/hydra-completions/contextAnalizer.js:65-79 | `(`, `)`, `,` and other characters keep the open calls by strictly increasing depth, all below the current depth |
| ContextAnalyzer.PushKeepsInv | src/views/cm6-editor/hydra-completions/contextAnalizer.js:53-60 | pushing a call at the current depth and deepening keeps that invariant |
| ContextAnalyzer.ScanKeepsInv | src/views/cm6-editor/hydra-completions/contextAnalizer.js:46-80 | every state the scan reaches keeps that invariant |
| ContextAnalyzer.CallOpenerParens | src/views/cm6-editor/hydra-completions/contextAnalizer.js:50-61 | a `name(` opener the scan skips holds exactly one `(` and no `)` |
| ContextAnalyzer.CharStepDepth | src/views/cm6-editor/hydra-completions/contextAnalizer.js:66-69 | one character moves the depth by its own `(` count minus its `)` count |
| ContextAnalyzer.OpenerStep | src/views/cm6-editor/hydra-completions/contextAnalizer.js:50-61 | at an opener ending at j the scan pushes the name and continues after j at one more depth |
| ContextAnalyzer.PlainStep | src/views/cm6-editor/hydra-completions/contextAnalizer.js:62-79 | where no opener matches the scan takes one character step |
| ContextAnalyzer.DepthStep | src/views/cm6-editor/hydra-completions/contextAnalizer.js:46-80 | one loop turn moves forward and keeps depth plus unread `(` minus unread `)` unchanged |
| ContextAnalyzer.ScanDepth | src/views/cm6-editor/hydra-completions/contextAnalizer.js:46-80 | the final depth is the number of `(` read minus the number of `)` read |
| ContextAnalyzer.ScanAtOpener | src/views/cm6-editor/hydra-completions/contextAnalizer.js:50-61 | at a final `name(` the scan pushes `name` at argument 0 with the current depth, and deepens by one |
| ContextAnalyzer.ContextAfterCallOpener | src/views/cm6-editor/hydra-completions/contextAnalizer.js:46-88 | typing `name(` after any prefix that does not end in an identifier character makes the context `name` at argument 0 |
| ContextAnalyzer.PopClosedFrames | src/views/cm6-editor/hydra-completions/contextAnalizer.js:71-73 | the pop loop leaves exactly PopClosed of the stack |
| ContextAnalyzer.ScanChar | src/views/cm6-editor/hydra-completions/contextAnalizer.js:65-79 | the branch for `(`, `)` and `,` computes exactly the specified step |
| ContextAnalyzer.ScanStep | src/views/cm6-editor/hydra-completions/contextAnalizer.js:46-80 | one loop turn advances the position and keeps the invariant; scanning on from the new state gives the same result as from the old |
| ContextAnalyzer.FindFunctionContext | src/views/cm6-editor/hydra-completions/contextAnalizer.js:38-89 | the answer is the innermost open call of the scan of the document before the cursor; a found name is an identifier, and no name comes with argument 0 |
| ContextAnalyzer.ScanOpens | src/views/cm6-editor/hydra-completions/contextAnalizer.js:50-61 | at an opener the scan pushes and skips past the `(` |
| ContextAnalyzer.ScanSteps | src/views/cm6-editor/hydra-completions/contextAnalizer.js:65-79 | at any other character the scan takes one character step |
| ContextAnalyzer.IdentRunEndAppend | src/views/cm6-editor/hydra-completions/contextAnalizer.js:52 | appending text moves the end of an identifier run only when that run reached the end of the old text |
| ContextAnalyzer.CallOpenAtAppend | src/views/cm6-editor/hydra-completions/contextAnalizer.js:50-52 | an opener match inside the old text is unchanged by appending, when the old text ends in a non-identifier character or the new text has no `(` |
| ContextAnalyzer.AppendStep | src/views/cm6-editor/hydra-completions/contextAnalizer.js:46-80 | one loop turn inside the old text takes the same step in the longer text |
| ContextAnalyzer.ScanFromAppend | src/views/cm6-editor/hydra-completions/contextAnalizer.js:46-80 | under the same condition, scanning the longer text continues from the state the shorter one left |
| ContextAnalyzer.ScanAppend | src/views/cm6-editor/hydra-completions/contextAnalizer.js:46-80 | scanning after typing equals scanning on from the state of the text before |
| ContextAnalyzer.ScanAfterCallOpener | src/views/cm6-editor/hydra-completions/contextAnalizer.js:50-61 | typing `name(` pushes `name` at argument 0 and the old depth, and deepens by one |
| ContextAnalyzer.ScanAfterChar | src/views/cm6-editor/hydra-completions/contextAnalizer.js:65-79 | typing a character that cannot start an identifier (and is not a `(` glued to one) is one character step |
| ContextAnalyzer.ContextAfterComma | src/views/cm6-editor/hydra-completions/contextAnalizer.js:74-79 | a comma directly inside the innermost call's parentheses advances its argument index; any other comma changes nothing |
| ContextAnalyzer.ScanAfterClose | src/views/cm6-editor/hydra-completions/contextAnalizer.js:68-73 | a `)` that closes the innermost call's parentheses pops that call, any other leaves the stack; the depth drops by one |
| ContextAnalyzer.ScanExampleOpen | src/views/cm6-editor/hydra-completions/__tests__/contextAnalizer.test.js:153-166 | `osc(` gives `osc` at argument 0 |
| ContextAnalyzer.ScanExampleFirstArgument | src/views/cm6-editor/hydra-completions/__tests__/contextAnalizer.test.js:168-182 | `osc(30,` leaves `osc` open at argument 1 |
| ContextAnalyzer.ScanExampleInnerOpen | src/views/cm6-editor/hydra-completions/__tests__/contextAnalizer.test.js:168-182 | `osc(30,noise(` leaves `osc` at argument 1 and `noise` at argument 0 open |
| ContextAnalyzer.ScanExampleNested | src/views/cm6-editor/hydra-completions/__tests__/contextAnalizer.test.js:168-182 | `osc(30,noise(3,` gives `noise` at argument 1 |
| ContextAnalyzer.ScanExampleNestedState | src/views/cm6-editor/hydra-completions/__tests__/contextAnalizer.test.js:168-182 | the full scan state there: both calls open, at depths 0 and 1, each at argument 1 |
| ContextAnalyzer.ScanExampleDecimal | src/views/cm6-editor/hydra-completions/__tests__/contextAnalizer.test.js:197-202 | `osc(30,0.1` leaves `osc` open at argument 1: the dot of a decimal changes nothing |
| ContextAnalyzer.ScanExampleClosed | src/views/cm6-editor/hydra-completions/__tests__/contextAnalizer.test.js:184-194 | `osc(30,noise(3,1),` gives `osc` at argument 2 |
| ContextAnalyzer.ScanExampleChainPrefix | src/views/cm6-editor/hydra-completions/__tests__/contextAnalizer.test.js:197-202 | after `osc(30,0.1).` no call is open, at depth 0 |
| ContextAnalyzer.ScanExampleColorOpen | src/views/cm6-editor/hydra-completions/__tests__/contextAnalizer.test.js:197-212 | `osc(30,0.1).color(` leaves only `color` open, at argument 0 |
| ContextAnalyzer.ScanExampleChainedState | src/views/cm6-editor/hydra-completions/__tests__/contextAnalizer.test.js:197-212 | `osc(30,0.1).color(1,0,` leaves only `color` open, at argument 2 and depth 0 |
| ContextAnalyzer.ScanExampleChained | src/views/cm6-editor/hydra-completions/__tests__/contextAnalizer.test.js:197-212 | `osc(30,0.1).color(1,0,` gives `color` at argument 2 |
| ContextAnalyzer.ChainableOnPath | src/views/cm6-editor/hydra-completions/contextAnalizer.js:91-107 | chainable exactly when a continued expression statement, member expression, property name or call lies on the path below the root |
| ContextAnalyzer.IsChainableExpression | src/views/cm6-editor/hydra-completions/contextAnalizer.js:91-107 | the walk answers whether the first-above search for such a node succeeds |
| ContextAnalyzer.IsAfterDot | src/views/cm6-editor/hydra-completions/contextAnalizer.js:110-116 | after a dot iff: the node before is `.`; or it is a VariableName preceded by `.`; or the token starts with `.`; or a member expression ends the line with `.` |
| ContextAnalyzer.IsInParameters | src/views/cm6-editor/hydra-completions/contextAnalizer.js:118-122 | in parameters whenever a non-empty name was found; otherwise exactly when the cursor node or the node before it is an ArgList |
| TreeContext.EnclosingArgList | src/views/cm6-editor/hydra-completions/index.js:19-24 | the argument list found is an ArgList node that is not the root |
| TreeContext.CountCommas | src/views/cm6-editor/hydra-completions/index.js:34-46 | the commas counted among a list of children never outnumber the children |
| TreeContext.CountCommasIsSetSize | src/views/cm6-editor/hydra-completions/index.js:34-46 | over distinct children, the count is the size of the set of comma children starting before the position |
| TreeContext.CommaCountIsCommasBefore | src/views/cm6-editor/hydra-completions/index.js:34-46 | over an argument list's children, the count is the number of its comma children starting before the position |
| TreeContext.CountCommasBefore | src/views/cm6-editor/hydra-completions/index.js:34-46 | the sibling loop returns the number of comma children of the argument list that start before the cursor node |
| TreeContext.CalleeName | src/views/cm6-editor/hydra-completions/index.js:48-71 | a method call is named by the member expression's last child when that child is a PropertyName; a plain call by its first child when that is a VariableName; otherwise null |
| TreeContext.FindFunctionContext | src/views/cm6-editor/hydra-completions/index.js:13-74 | no argument list below the root, or one whose parent is not a call, gives no call at argument 0; otherwise the callee name and the number of commas before the node |
| TreeContext.NameAtStop | src/views/cm6-editor/hydra-completions/index.js:217-255 | the name recorded at each kind of stop; a PropertyName stop records the kind name "PropertyName" (`node.name`) |
| TreeContext.AfterFunctionWalk | src/views/cm6-editor/hydra-completions/index.js:209-258 | afterFunction iff some call, member expression or property name lies above the node below the root; the name is the one recorded at the first, and null when there is none |
| TreeContext.AfterFunctionOnPath | src/views/cm6-editor/hydra-completions/index.js:209-258 | the walk stops exactly when such a node lies on the path below the root |
| LegacyContext.ArgListChild | src/views/cm6-editor/hydra-completions.js:217 | `getChild('ArgList')`: an ArgList child when found; when not, no child is an ArgList |
| LegacyContext.FirstOfKind | src/views/cm6-editor/hydra-completions.js:217 | the first child of the kind: it has the kind, no earlier child has it, and when None no child has it |
| LegacyContext.ContainingCall | src/views/cm6-editor/hydra-completions.js:213-231 | a found call sits at or above the start, is not the root, and has an argument that is, or spans, the node |
| LegacyContext.ContainingCallOnPath | src/views/cm6-editor/hydra-completions.js:213-231 | a found call lies on the walk below the root, and no node before it on the walk has such an argument |
| LegacyContext.ContainingCallNone | src/views/cm6-editor/hydra-completions.js:213-231 | when none is found, no call on the path below the root has such an argument |
| LegacyContext.SomeChildHolds | src/views/cm6-editor/hydra-completions.js:219-226 | the child loop answers whether some child of the argument list is, or spans, the node |
| LegacyContext.FindContainingCallExpression | src/views/cm6-editor/hydra-completions.js:213-231 | the walk returns exactly the containing call of the specification |
| LegacyContext.ChainStopAbove | src/views/cm6-editor/hydra-completions.js:266-295 | a found stop is a member expression, or a call that is the object of one, at or above the node |
| LegacyContext.ChainStopAboveOnPath | src/views/cm6-editor/hydra-completions.js:266-295 | a found stop lies on the path from the node, the root included, and no node before it on the path is a stop |
| LegacyContext.ChainStopAboveNone | src/views/cm6-editor/hydra-completions.js:266-295 | when none is found, no node on the path, the root included, is a stop |
| LegacyContext.ChainName | src/views/cm6-editor/hydra-completions.js:268-292 | the text of the member expression's last child (any kind), or of the last child of the member expression a call belongs to; a childless member expression keeps the old name |
| LegacyContext.ChainFallback | src/views/cm6-editor/hydra-completions.js:265-296 | no stop keeps the name; otherwise the loop reads the name at the first stop |
| LegacyContext.FindFunctionContext | src/views/cm6-editor/hydra-completions.js:194-304 | no argument list gives no call at argument 0; otherwise the comma count, the containing call's name, and the chain-fallback name when that name is not truthy |
| LegacyContext.InsideParensByLast | src/views/cm6-editor/hydra-completions.js:330-332 | `/\([^)]*$/` holds iff there is a `(` and the last `(` comes after every `)` |
| LegacyContext.MaybeParametersAsWritten | src/views/cm6-editor/hydra-completions.js:329-333 | as written: the reason compares the bracket counts, but `active` compares their parities |
| LegacyContext.ParityExampleCounts | src/views/cm6-editor/hydra-completions.js:325-326 | `(((x)` holds three `(` and one `)` |
| LegacyContext.ParityExampleClosed | src/views/cm6-editor/hydra-completions.js:330 | `(((x)` is not inside parentheses: its last `(` is followed by a `)` |
| LegacyContext.ParityMissesUnbalanced | src/views/cm6-editor/hydra-completions.js:330 | `(((x)` reports `unbalanced_parens` but is not active |
| LegacyContext.MaybeParameters | src/views/cm6-editor/hydra-completions.js:329-333 | corrected: active exactly when a reason is given, with the same reasons; unequal counts always make it active |
| LegacyContext.LastThree | src/views/cm6-editor/hydra-completions.js:335 | `text.slice(-3)`: the last three characters, or all of a shorter text |
| LegacyContext.AnalyzeHeuristics | src/views/cm6-editor/hydra-completions.js:324-359 | as written: the parameter guess is active iff the bracket-count parities differ or a `(` is unclosed, its reason compares the counts; the chain guess is active iff the text ends with `)` or `.` or with a partial method name; the source guess is active iff the text is all white space or ends after `out()`; each reason is the first test that holds, and `empty` is never reached |
| LegacyContext.IntendedHeuristics | src/views/cm6-editor/hydra-completions.js:329-333 | corrected: the parameter guess is active exactly when its reason is given, i.e. when the counts differ or a `(` is unclosed; the other two guesses are unchanged |
| LegacyContext.BaseClass | src/views/cm6-editor/hydra-completions.js:24-31 | types outside the table get `hydraOther` |
| LegacyContext.BaseClassesDistinct | src/views/cm6-editor/hydra-completions.js:24-31 | the eight known types have eight different classes, none of them `hydraOther` |
| LegacyContext.GetCompletionClass | src/views/cm6-editor/hydra-completions.js:23-34 | the base class, with `Func` appended exactly for functions |
| Catalog.Put | src/views/cm6-editor/hydra-completions/completionData.js:64 | `d[k] = v`: the value is replaced; a new key goes last and an existing key keeps its place; the dictionary stays well formed |
| Catalog.PutAll | src/views/cm6-editor/hydra-completions/completionData.js:63-79 | a run of assignments keeps the dictionary well formed and the old keys as a prefix |
| Catalog.PutAllHas | src/views/cm6-editor/hydra-completions/completionData.js:63-79 | after the assignments a key is present iff it was present before or is assigned |
| Catalog.PutAllUntouched | src/views/cm6-editor/hydra-completions/completionData.js:63-79 | a key no assignment names keeps its old value |
| Catalog.PutAllLast | src/views/cm6-editor/hydra-completions/completionData.js:63-79 | a key takes the value of the last assignment naming it |
| Catalog.JsString | src/views/cm6-editor/hydra-completions/completionData.js:69 | `String(default)`: the text itself, or "undefined" for no default |
| Catalog.ParamsOf | src/views/cm6-editor/hydra-completions/completionData.js:66-70 | one parameter per input, with name and type copied and the default converted by `String` |
| Catalog.GlslPairs | src/views/cm6-editor/hydra-completions/completionData.js:63-72 | one (name, entry) assignment per GLSL function, in list order |
| Catalog.ExternalSources | src/views/cm6-editor/hydra-completions/completionData.js:4-33 | five distinct external sources; `initCam` takes a number `index` defaulting to 0; three take one string without default; `initScreen` takes nothing |
| Catalog.HydraGlobals | src/views/cm6-editor/hydra-completions/completionData.js:36-56 | thirteen distinct globals in table order: four numbers, `mouse`, outputs `o0`..`o3`, sources `s0`..`s3` |
| Catalog.ConvertToCompletions | src/views/cm6-editor/hydra-completions/completionData.js:59-82 | the two loops build exactly the GLSL assignments followed by the external-source assignments |
| Catalog.AssignGlsl | src/views/cm6-editor/hydra-completions/completionData.js:63-72 | the first loop performs exactly the GLSL function assignments, in order |
| Catalog.AssignAll | src/views/cm6-editor/hydra-completions/completionData.js:75-79 | the assignment loop performs exactly the run of assignments |
| Catalog.PutAllDistinct | src/views/cm6-editor/hydra-completions/completionData.js:75-79 | when the assigned names are distinct, each name ends up with its own entry |
| Catalog.ConvertedKeys | src/views/cm6-editor/hydra-completions/completionData.js:59-82 | the catalog's keys are exactly the GLSL names and the external-source names |
| Catalog.ConvertedGlslEntry | src/views/cm6-editor/hydra-completions/completionData.js:63-72 | a GLSL function that is the last of its name and not an external source's name keeps its type and converted inputs |
| Catalog.ConvertedExternalEntry | src/views/cm6-editor/hydra-completions/completionData.js:75-79 | every external source is present with its own entry, of type `external`, even over a GLSL function of the same name |
| Catalog.ConvertedKeyOrder | src/views/cm6-editor/hydra-completions/completionData.js:59-82 | the GLSL names keep their order and places; external sources only add keys after them |
| Suggestions.KeyOf | src/views/cm6-editor/hydra-completions/index.js:299 | `hydraFunctions[name]` reads the key `name`, and `"null"` for null |
| Suggestions.Lookup | src/views/cm6-editor/hydra-completions/index.js:299-301 | an entry exactly when its key is present, and then that key's entry |
| Suggestions.GlobalOptions | src/views/cm6-editor/hydra-completions/index.js:312-320 | at most one option per global |
| Suggestions.GlobalOptionsSound | src/views/cm6-editor/hydra-completions/index.js:325-333 | every option is built from a global the filter admits |
| Suggestions.GlobalOptionsComplete | src/views/cm6-editor/hydra-completions/index.js:325-333 | every admitted global gets its option |
| Suggestions.PushGlobals | src/views/cm6-editor/hydra-completions/index.js:325-333 | the globals loop appends exactly the filtered options, in table order |
| Suggestions.GlobalOptionsAppend | src/views/cm6-editor/hydra-completions/index.js:325-333 | filtering a concatenation filters each part |
| Suggestions.NoGlobalAdmitted | src/views/cm6-editor/hydra-completions/index.js:325-333 | a run of globals the filter rejects contributes nothing |
| Suggestions.AllGlobalsAdmitted | src/views/cm6-editor/hydra-completions/index.js:384-391 | with every global admitted, one option per global in table order |
| Suggestions.OutputsInMiddle | src/views/cm6-editor/hydra-completions/index.js:312-320 | over a table of four numbers, one other global, four outputs and four sources, the output filter yields exactly the four outputs in order |
| Suggestions.PushOutputs | src/views/cm6-editor/hydra-completions/index.js:311-321 | the `out`/`render` branch pushes exactly the output options: four of them, `o0`..`o3` in order |
| Suggestions.PushTextureSources | src/views/cm6-editor/hydra-completions/index.js:322-343 | the texture branch pushes the output and source globals, then the `src` functions |
| Suggestions.OutputOptions | src/views/cm6-editor/hydra-completions/index.js:311-321 | the output filter yields `o0`, `o1`, `o2`, `o3` in order |
| Suggestions.FunctionOptions | src/views/cm6-editor/hydra-completions/index.js:335-343 | at most one option per key |
| Suggestions.FunctionOptionsSound | src/views/cm6-editor/hydra-completions/index.js:335-343 | every option is built from a listed function of an admitted type |
| Suggestions.FunctionOptionsComplete | src/views/cm6-editor/hydra-completions/index.js:335-343 | every function of an admitted type gets its option |
| Suggestions.PushFunctions | src/views/cm6-editor/hydra-completions/index.js:335-343 | the catalog loop appends exactly the options of the admitted functions, in key order |
| Suggestions.InsertCount | src/views/cm6-editor/hydra-completions.js:620 | inserting keeps every element and adds the new one once |
| Suggestions.InsertBounded | src/views/cm6-editor/hydra-completions.js:620 | inserting a value above a lower bound keeps the bound |
| Suggestions.InsertSorted | src/views/cm6-editor/hydra-completions.js:620 | inserting into an ascending list keeps it ascending |
| Suggestions.InsertionSortSorts | src/views/cm6-editor/hydra-completions.js:620 | the sort is ascending and a permutation of its input |
| Suggestions.SortAscending | src/views/cm6-editor/hydra-completions.js:620 | `sort((a, b) => a - b)` gives the insertion sort of the list: ascending, same elements |
| Suggestions.TwiceCounted | src/views/cm6-editor/hydra-completions.js:617-619 | a value at two places counts at least twice |
| Suggestions.DistinctCountsOnce | src/views/cm6-editor/hydra-completions.js:617-619 | a list without repetitions counts every value at most once |
| Suggestions.StrictWhenDistinct | src/views/cm6-editor/hydra-completions.js:617-620 | an ascending rearrangement of a list without repetitions is strictly ascending |
| Suggestions.SortedDistinct | src/views/cm6-editor/hydra-completions.js:617-620 | sorting a list without repetitions gives a strictly ascending list of the same length and the same elements |
| Suggestions.SuggestedShape | src/views/cm6-editor/hydra-completions.js:614-620 | the suggestions are strictly ascending, hold all six anchors and the default, and nothing else; seven values exactly when the default is new |
| Suggestions.NumberSuggestions | src/views/cm6-editor/hydra-completions.js:614-620 | the anchors, plus the default when absent, sorted: exactly the specified suggestions, strictly ascending |
| Suggestions.NumberOptions | src/views/cm6-editor/hydra-completions.js:622-630 | one number option per suggestion, in the same order |
| Suggestions.PushNumbers | src/views/cm6-editor/hydra-completions.js:622-630 | the `forEach` appends exactly those options |
| Suggestions.IndexParameterOptions | src/views/cm6-editor/hydra-completions/index.js:311-350 | the parameter branch builds exactly the specified options: outputs for `out`/`render`, textures for a texture parameter, else the default |
| Suggestions.GlobalsThenFunctions | src/views/cm6-editor/hydra-completions/index.js:323-343 | an option is in globals-then-functions iff it comes from an admitted global or from a catalog function of an admitted type |
| Suggestions.TextureMembers | src/views/cm6-editor/hydra-completions/index.js:323-343 | a texture option is offered iff it is an output or source global, or a `src` function |
| Suggestions.SourcesThenGlobals | src/views/cm6-editor/hydra-completions/index.js:373-392 | the sources come first; after `out` nothing follows, otherwise one option per global in table order |
| Suggestions.IndexOptions | src/views/cm6-editor/hydra-completions/index.js:287-392 | the branches build exactly the option table of index.js |
| Suggestions.IndexUnknownParameter | src/views/cm6-editor/hydra-completions/index.js:299-301 | in parameters, an unknown function or an index past its parameters gives no options |
| Suggestions.IndexOutRender | src/views/cm6-editor/hydra-completions/index.js:311-321 | in the parameters of `out` or `render`: exactly four options, `o0`..`o3`, of type output, each applying its own name |
| Suggestions.IndexTextureTable | src/views/cm6-editor/hydra-completions/index.js:322-343 | the table's texture branch is the output and source globals followed by the `src` functions |
| Suggestions.IndexTextureParameter | src/views/cm6-editor/hydra-completions/index.js:323-343 | for a texture parameter, an option is offered iff it is an output or source global applied by name, or a `src` function as `name()` |
| Suggestions.IndexDefaultParameter | src/views/cm6-editor/hydra-completions/index.js:344-350 | any other parameter gets exactly one option: its default as text, "undefined" when it has none |
| Suggestions.IndexChain | src/views/cm6-editor/hydra-completions/index.js:354-371 | after a dot or a call other than `out`: chain methods as `.name()` applying `.name`, then `.out()` last |
| Suggestions.IndexAfterOut | src/views/cm6-editor/hydra-completions/index.js:354-392 | after a dot or a call to `out`, outside parameters, nothing is offered |
| Suggestions.IndexSources | src/views/cm6-editor/hydra-completions/index.js:373-392 | at the start of an expression: the source and external functions first, then all thirteen globals in order unless after `out` |
| Suggestions.SourcesAlwaysWithGlobals | src/views/cm6-editor/hydra-completions/index.js:373-392 | when the walk found no function, the sources branch is followed by all thirteen globals: the `lastFunctionName !== 'out'` test cannot fail there |
| Suggestions.Respond | src/views/cm6-editor/hydra-completions/index.js:509-513 | no token gives no response (line 130); otherwise the options start at the token, and `validFor` expects a dot exactly after a dot |
| Suggestions.IndexSuggestions | src/views/cm6-editor/hydra-completions/index.js:129-513 | a response exactly when there is a token, starting at it, with `validFor` expecting a dot exactly when isAfterDot holds; the options are the index.js table of the tree context of the cursor node, its parameter test, the afterFunction walk's name and flag, and the dot test |
| Suggestions.LegacyParameterOptions | src/views/cm6-editor/hydra-completions.js:573-641 | the parameter branch builds exactly the legacy parameter options |
| Suggestions.LegacyOptions | src/views/cm6-editor/hydra-completions.js:549-667 | the branches build exactly the legacy option table |
| Suggestions.NumberOptionsShape | src/views/cm6-editor/hydra-completions.js:614-630 | the number options are number-typed and apply their value, strictly ascending, covering every anchor and the default, and nothing else |
| Suggestions.LegacyNumberParameter | src/views/cm6-editor/hydra-completions.js:614-630 | a number parameter's options are number options, strictly ascending in value; they cover every anchor and the parsed default, and nothing else |
| Suggestions.LegacyNoChainBranch | src/views/cm6-editor/hydra-completions.js:644-667 | outside parameters every option is a source or external function, or (only when not after `out`) a global |
| Suggestions.LegacySuggestions | src/views/cm6-editor/hydra-completions.js:396-789 | a response exactly when there is a token, starting at it, with `validFor` expecting a dot exactly when isAfterDot holds; the options are the legacy table of the legacy tree context, its parameter test and the afterFunction walk's name |

## Left out

- The editor itself is not part of this model: the CodeMirror state, `syntaxTree(state).resolveInner`, the regex match `context.matchBefore` and the completion theme. The tree, the nodes around the cursor, the line text and the matched token are inputs.
- Logging is left out: `console.log`, `logDecision` and the mismatch reports that compare the heuristics with the chosen branch. It has no effect on the result.
- The call at index.js:126 is left out. It calls `analyzeHeuristicsToBebuggASTSearches`, which index.js neither defines nor imports. `Suggestions.IndexSuggestions` models the steps after it.
- The `info` strings and `TYPE_ICONS` decorations of the options are left out, along with the properties of the `mouse` global. They only annotate the options.
- NumberSuggestions: a default that `parseFloat` turns into NaN is passed as None, and the model then offers the six anchors. The source appends NaN and sorts with a comparator that returns NaN, so the result depends on the engine's sort.
- Suggestions.SortAscending: the in-place `Array.prototype.sort` is modelled by an insertion sort on a sequence value. Only the ascending order and the elements are claimed, which is all the source relies on.
- Number labels are kept as numbers. The text `String(val)` gives them, such as "0.1" or "10", is not modelled.
- `parseFloat` is a parameter of the legacy table. The parsing of number text is not part of this model.
- hydra-synth's GLSL function list comes from outside the editor and is an input. Each input default is carried as the text `String(...)` gives it.
- JavaScript puts integer-like keys first in an object's key order. Catalog names are identifiers, so the model uses plain insertion order.
- Keys inherited from `Object.prototype`, such as `constructor`, are treated as absent from the catalog.
- The legacy copies in hydra-completions.js are modelled once: `EXTERNAL_SOURCES` (102-136), `HYDRA_GLOBALS` (139-160) and `convertToCompletions` (163-189) share one model with completionData.js, and `isAfterDot` (429-433), the afterFunction walk (472-520), `isInParameters` (545-547) and `isChainableExpression` (306-322) share one model with index.js and contextAnalizer.js.
- ContextAnalyzer.FindFunctionContext takes no tree node. The source receives one but never reads it.
- The remaining helpers and constants of contextAnalizer.js are left out (`readNodeText`, `ScopeNodes`, `ExpressionNodes`, `DontCompleteInside`). The core never reads them.
- The `continuedIndent` test reads a node-type property at index 11. It is modelled as a flag on the node.
- The document is taken as text of the Basic Multilingual Plane: a Dafny `char` stands for one UTF-16 code unit. JavaScript strings, `sliceString` and the node offsets count code units, so text holding a character outside that plane (an emoji, say) is not covered by the offsets of this model.

## Findings

| source | as written | input that shows it | evidently intended | confidence | as-written member | corrected member |
|---|---|---|---|---|---|---|
| src/views/cm6-editor/hydra-completions.js:330-332 | `maybeParameters.active` tests whether the counts of `(` and `)` differ in parity (`% 2`), while its reason reports `unbalanced_parens` whenever the counts differ | `(((x)`: three `(` and one `)` give the reason `unbalanced_parens`, but equal parities leave the guess inactive | the guess is active whenever its reason is given, i.e. whenever the counts differ or the text is inside parentheses | not executed | LegacyContext.MaybeParametersAsWritten, LegacyContext.ParityMissesUnbalanced | LegacyContext.MaybeParameters, LegacyContext.IntendedHeuristics |
