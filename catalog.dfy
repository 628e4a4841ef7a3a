/**
 * The completion catalog of `hydra-completions/completionData.js`: the
 * external-source and globals tables, and `convertToCompletions`, which turns
 * hydra-synth's GLSL function list into a name-to-entry dictionary and then
 * lays the external sources over it.
 */
module Catalog {
  import opened Common

  /**
   * One input of a GLSL function as hydra-synth describes it. Its default
   * is carried as the text JavaScript's `String(...)` gives it, or None
   * when the input has no default.
   */
  datatype GlslInput = GlslInput(name: string, itype: string, default: Option<string>)

  datatype GlslFunction = GlslFunction(name: string, ftype: string, inputs: seq<GlslInput>)

  /** A parameter of a catalog entry; `default` is None where the table gives none. */
  datatype Param = Param(name: string, ptype: string, default: Option<string>)

  /** A catalog entry: the function's type (`src`, `color`, ..., `external`) and its parameters. */
  datatype Entry = Entry(ftype: string, params: seq<Param>)

  /** A global of the Hydra environment and its type. */
  datatype Global = Global(name: string, gtype: string)

  /**
   * A JavaScript object used as a dictionary: its keys in insertion order
   * and its values. Overwriting a key keeps its place.
   */
  datatype Dict = Dict(keys: seq<string>, entries: map<string, Entry>)

  predicate DictValid(d: Dict) {
    && (forall i, j :: 0 <= i < j < |d.keys| ==> d.keys[i] != d.keys[j])
    && (forall k :: k in d.entries ==> k in d.keys)
    && (forall k :: k in d.keys ==> k in d.entries)
  }

  const Empty := Dict([], map[])

  /** `d[k] = v`: a new key goes last, an existing key keeps its place and takes the new value. */
  function Put(d: Dict, k: string, v: Entry): (r: Dict)
    requires DictValid(d)
    ensures DictValid(r)
    ensures r.entries == d.entries[k := v]
    ensures k in d.entries ==> r.keys == d.keys
    ensures k !in d.entries ==> r.keys == d.keys + [k]
  {
    if k in d.entries then Dict(d.keys, d.entries[k := v])
    else Dict(d.keys + [k], d.entries[k := v])
  }

  /** The assignments `d[k] = v` for every pair of `kvs`, in order. */
  function PutAll(d: Dict, kvs: seq<(string, Entry)>): (r: Dict)
    requires DictValid(d)
    ensures DictValid(r)
    ensures d.keys <= r.keys
    decreases |kvs|
  {
    if kvs == [] then d
    else
      var rest := PutAll(d, kvs[..|kvs| - 1]);
      Put(rest, kvs[|kvs| - 1].0, kvs[|kvs| - 1].1)
  }

  /**
   * A key is present after the assignments iff it was present before or some
   * pair assigns it (its value is the subject of PutAllLast and PutAllUntouched).
   */
  lemma {:induction false} PutAllHas(d: Dict, kvs: seq<(string, Entry)>, k: string)
    requires DictValid(d)
    ensures k in PutAll(d, kvs).entries <==> k in d.entries || exists i :: 0 <= i < |kvs| && kvs[i].0 == k
    decreases |kvs|
  {
    if kvs != [] {
      var init := kvs[..|kvs| - 1];
      PutAllHas(d, init, k);
      assert forall i :: 0 <= i < |init| ==> init[i] == kvs[i];
    }
  }

  /** A key no assignment names keeps its old value. */
  lemma {:induction false} PutAllUntouched(d: Dict, kvs: seq<(string, Entry)>, k: string)
    requires DictValid(d) && k in d.entries
    requires forall i :: 0 <= i < |kvs| ==> kvs[i].0 != k
    ensures k in PutAll(d, kvs).entries && PutAll(d, kvs).entries[k] == d.entries[k]
    decreases |kvs|
  {
    if kvs != [] {
      var init := kvs[..|kvs| - 1];
      assert forall i :: 0 <= i < |init| ==> init[i] == kvs[i];
      PutAllUntouched(d, init, k);
    }
  }

  /** A key takes the value of the last assignment that names it. */
  lemma {:induction false} PutAllLast(d: Dict, kvs: seq<(string, Entry)>, i: nat)
    requires DictValid(d) && i < |kvs|
    requires forall j :: i < j < |kvs| ==> kvs[j].0 != kvs[i].0
    ensures kvs[i].0 in PutAll(d, kvs).entries && PutAll(d, kvs).entries[kvs[i].0] == kvs[i].1
    decreases |kvs|
  {
    var init := kvs[..|kvs| - 1];
    if i < |kvs| - 1 {
      assert forall j :: i < j < |init| ==> init[j] == kvs[j];
      PutAllLast(d, init, i);
    }
  }

  /** `String(input.default)`: an undefined default becomes the text "undefined". */
  function JsString(v: Option<string>): (s: string)
    ensures v.Some? ==> s == v.value
    ensures v.None? ==> s == "undefined"
  {
    match v
    case Some(text) => text
    case None => "undefined"
  }

  /** `func.inputs.map(input => ({name, type, default: String(input.default)}))` */
  function ParamsOf(inputs: seq<GlslInput>): (ps: seq<Param>)
    ensures |ps| == |inputs|
    ensures forall i :: 0 <= i < |inputs| ==>
      ps[i] == Param(inputs[i].name, inputs[i].itype, Some(JsString(inputs[i].default)))
  {
    seq(|inputs|, i requires 0 <= i < |inputs| => Param(inputs[i].name, inputs[i].itype, Some(JsString(inputs[i].default))))
  }

  /** The catalog entry of a GLSL function: its type and its converted inputs. */
  function EntryOf(f: GlslFunction): Entry {
    Entry(f.ftype, ParamsOf(f.inputs))
  }

  function GlslPairs(fns: seq<GlslFunction>): (kvs: seq<(string, Entry)>)
    ensures |kvs| == |fns|
    ensures forall i :: 0 <= i < |fns| ==> kvs[i] == (fns[i].name, EntryOf(fns[i]))
  {
    seq(|fns|, i requires 0 <= i < |fns| => (fns[i].name, EntryOf(fns[i])))
  }

  /** `EXTERNAL_SOURCES`, in its declaration order. */
  function ExternalSources(): (table: seq<(string, Entry)>)
    ensures |table| == 5
    ensures forall i :: 0 <= i < |table| ==> table[i].1.ftype == "external"
    ensures forall i, j :: 0 <= i < j < |table| ==> table[i].0 != table[j].0
    ensures table[0] == ("initCam", Entry("external", [Param("index", "number", Some("0"))]))
    ensures forall i :: 1 <= i < 4 ==>
      |table[i].1.params| == 1 && table[i].1.params[0].ptype == "string" && table[i].1.params[0].default.None?
    ensures table[4] == ("initScreen", Entry("external", []))
  {
    [ ("initCam", Entry("external", [Param("index", "number", Some("0"))])),
      ("initImage", Entry("external", [Param("url", "string", None)])),
      ("initVideo", Entry("external", [Param("url", "string", None)])),
      ("initStream", Entry("external", [Param("name", "string", None)])),
      ("initScreen", Entry("external", [])) ]
  }

  /** `HYDRA_GLOBALS`, in its declaration order (the properties of `mouse` are not part of this model). */
  function HydraGlobals(): (g: seq<Global>)
    ensures |g| == 13
    ensures forall i :: 0 <= i < 4 ==> g[i].gtype == "number"
    ensures g[4] == Global("mouse", "object")
    ensures forall i :: 5 <= i < 9 ==> g[i].gtype == "output"
    ensures forall i :: 9 <= i < 13 ==> g[i].gtype == "source"
    ensures forall i, j :: 0 <= i < j < |g| ==> g[i].name != g[j].name
  {
    [ Global("time", "number"), Global("bpm", "number"), Global("width", "number"), Global("height", "number"),
      Global("mouse", "object"),
      Global("o0", "output"), Global("o1", "output"), Global("o2", "output"), Global("o3", "output"),
      Global("s0", "source"), Global("s1", "source"), Global("s2", "source"), Global("s3", "source") ]
  }

  /** The catalog `convertToCompletions(functions)` builds: the GLSL entries, then the external sources over them. */
  function Converted(fns: seq<GlslFunction>): Dict {
    PutAll(PutAll(Empty, GlslPairs(fns)), ExternalSources())
  }

  /**
   * `convertToCompletions(functions)`: the first loop assigns every GLSL
   * function's entry under its name, the second every external source's.
   */
  method ConvertToCompletions(fns: seq<GlslFunction>) returns (completions: Dict)
    ensures completions == Converted(fns)
  {
    var glsl := AssignGlsl(fns);
    completions := AssignAll(glsl, ExternalSources());
  }

  /** The first loop of `convertToCompletions`: `completions[func.name] = { type, params }` for each function in order. */
  method AssignGlsl(fns: seq<GlslFunction>) returns (d: Dict)
    ensures d == PutAll(Empty, GlslPairs(fns))
  {
    var keys: seq<string> := [];
    var entries: map<string, Entry> := map[];
    ghost var pairs := GlslPairs(fns);
    var i := 0;
    while i < |fns|
      invariant i <= |fns|
      invariant Dict(keys, entries) == PutAll(Empty, pairs[..i])
    {
      var func := fns[i];
      if func.name !in entries {
        keys := keys + [func.name];
      }
      entries := entries[func.name := Entry(func.ftype, ParamsOf(func.inputs))];
      assert pairs[i] == (func.name, EntryOf(func));
      assert pairs[..i + 1][..i] == pairs[..i];
      i := i + 1;
    }
    assert pairs[..i] == pairs;
    d := Dict(keys, entries);
  }

  /** The loop `Object.entries(table).forEach(([name, info]) => { d[name] = {...info} })`. */
  method AssignAll(d: Dict, table: seq<(string, Entry)>) returns (r: Dict)
    requires DictValid(d)
    ensures r == PutAll(d, table)
  {
    var keys, entries := d.keys, d.entries;
    var j := 0;
    while j < |table|
      invariant j <= |table|
      invariant Dict(keys, entries) == PutAll(d, table[..j])
    {
      var (name, info) := table[j];
      if name !in entries {
        keys := keys + [name];
      }
      entries := entries[name := info];
      assert table[..j + 1][..j] == table[..j];
      j := j + 1;
    }
    assert table[..j] == table;
    r := Dict(keys, entries);
  }

  /** With distinct keys, every pair's value is the one found under its key. */
  lemma PutAllDistinct(d: Dict, kvs: seq<(string, Entry)>, j: nat)
    requires DictValid(d) && j < |kvs|
    requires forall i, m :: 0 <= i < m < |kvs| ==> kvs[i].0 != kvs[m].0
    ensures kvs[j].0 in PutAll(d, kvs).entries && PutAll(d, kvs).entries[kvs[j].0] == kvs[j].1
  {
    PutAllLast(d, kvs, j);
  }

  function ExternalNames(): set<string> {
    set i | 0 <= i < |ExternalSources()| :: ExternalSources()[i].0
  }

  /** The catalog's keys: every GLSL function's name and every external source's name, and nothing else. */
  lemma ConvertedKeys(fns: seq<GlslFunction>, k: string)
    ensures k in Converted(fns).entries <==>
      (exists i :: 0 <= i < |fns| && fns[i].name == k) || k in ExternalNames()
  {
    var glsl := PutAll(Empty, GlslPairs(fns));
    PutAllHas(Empty, GlslPairs(fns), k);
    PutAllHas(glsl, ExternalSources(), k);
    if exists i :: 0 <= i < |fns| && fns[i].name == k {
      var i :| 0 <= i < |fns| && fns[i].name == k;
      assert GlslPairs(fns)[i].0 == k;
    }
    if k in ExternalNames() {
      var i :| 0 <= i < |ExternalSources()| && ExternalSources()[i].0 == k;
    }
  }

  /**
   * A GLSL function that is the last of its name and not shadowed by an
   * external source is in the catalog with its own type, and with one
   * parameter per input, name and type copied and default `String(default)`.
   */
  lemma ConvertedGlslEntry(fns: seq<GlslFunction>, i: nat)
    requires i < |fns|
    requires forall j :: i < j < |fns| ==> fns[j].name != fns[i].name
    requires fns[i].name !in ExternalNames()
    ensures fns[i].name in Converted(fns).entries
    ensures Converted(fns).entries[fns[i].name] == EntryOf(fns[i])
    ensures Converted(fns).entries[fns[i].name].ftype == fns[i].ftype
    ensures |Converted(fns).entries[fns[i].name].params| == |fns[i].inputs|
  {
    var k := fns[i].name;
    var pairs := GlslPairs(fns);
    var glsl := PutAll(Empty, pairs);
    assert pairs[i].0 == k;
    assert forall j :: i < j < |pairs| ==> pairs[j].0 == fns[j].name;
    PutAllLast(Empty, pairs, i);
    forall j | 0 <= j < |ExternalSources()|
      ensures ExternalSources()[j].0 != k
    {
      assert ExternalSources()[j].0 in ExternalNames();
    }
    PutAllUntouched(glsl, ExternalSources(), k);
  }

  /** Every external source is in the catalog with its table entry, whatever GLSL function shares its name. */
  lemma ConvertedExternalEntry(fns: seq<GlslFunction>, j: nat)
    requires j < |ExternalSources()|
    ensures ExternalSources()[j].0 in Converted(fns).entries
    ensures Converted(fns).entries[ExternalSources()[j].0] == ExternalSources()[j].1
    ensures Converted(fns).entries[ExternalSources()[j].0].ftype == "external"
  {
    var glsl := PutAll(Empty, GlslPairs(fns));
    var table := ExternalSources();
    assert Converted(fns) == PutAll(glsl, table);
    PutAllDistinct(glsl, table, j);
    assert table[j].1.ftype == "external";
  }

  /**
   * The GLSL names keep their places in the catalog's key order: the keys
   * the first loop leaves are a prefix of the final keys, so the external
   * sources can only add keys after them.
   */
  lemma ConvertedKeyOrder(fns: seq<GlslFunction>)
    ensures PutAll(Empty, GlslPairs(fns)).keys <= Converted(fns).keys
  {
  }
}
