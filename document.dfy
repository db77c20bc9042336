/**
 * The circuit document as `DigitalJS.loadJSON` reads it and `DigitalJS.toJSON`
 * writes it (src/extension.mjs): the source files relative to the document,
 * the synthesis options, the source map, the circuit's own fields, and every
 * other property carried along unread as extra data.
 */
module CircuitDocument {

  import opened Wrappers
  import opened JsonValues
  import opened Paths
  import opened Files
  import opened Sources

  /** `default_synth_options`. */
  const DefaultSynthOptions: Json :=
    JObj(map["opt" := JBool(false), "transform" := JBool(true), "fsm" := JStr("no"), "fsmexpand" := JBool(false)])

  /** The fields of a circuit, in the order `loadJSON` reads them. */
  const CircuitFields: seq<string> := ["devices", "connectors", "subcircuits"]

  /** `{ devices: {}, connectors: [], subcircuits: {} }`. */
  const EmptyCircuit: map<string, Json> :=
    map["devices" := JObj(map[]), "connectors" := JArr([]), "subcircuits" := JObj(map[])]

  /** The properties `loadJSON` takes out of the document; the rest is extra data. */
  const KnownKeys: set<string> := {"files", "options", "devices", "connectors", "subcircuits", "source_map"}

  // ---------------------------------------------------------------------------
  // The options `doSynth` passes to the synthesizer.

  /**
   * `v == 'no'` with JavaScript's loose equality: strings compare as strings,
   * arrays and objects through their string form, and numbers and booleans
   * as numbers (and "no" is not a number).
   */
  predicate LooseEqualsNo(v: Option<Json>) {
    LooseEquals(v, Some(JStr("no")))
  }

  /** Properties left `undefined` are `None`. */
  datatype RequestOptions = RequestOptions(optimize: Option<Json>, fsm: Option<Json>, fsmexpand: Option<Json>, lint: bool)

  /**
   * The options object of `doSynth`: `opt` becomes `optimize`, an `fsm` of
   * "no" becomes "" and any other passes through, and linting is off.
   * Reading a property of `null` throws, so the options must not be `null`.
   */
  function SynthRequestOptions(options: Json): (r: RequestOptions)
    requires options != JNull
    ensures r.optimize == Field(options, "opt") && r.fsmexpand == Field(options, "fsmexpand") && !r.lint
    ensures LooseEqualsNo(Field(options, "fsm")) ==> r.fsm == Some(JStr(""))
    ensures !LooseEqualsNo(Field(options, "fsm")) ==> r.fsm == Field(options, "fsm")
  {
    var fsm := Field(options, "fsm");
    RequestOptions(Field(options, "opt"), if LooseEqualsNo(fsm) then Some(JStr("")) else fsm,
                   Field(options, "fsmexpand"), false)
  }

  /** The default options ask for no optimisation and no FSM extraction. */
  lemma DefaultRequestOptions()
    ensures SynthRequestOptions(DefaultSynthOptions) ==
            RequestOptions(Some(JBool(false)), Some(JStr("")), Some(JBool(false)), false)
  {
  }

  // ---------------------------------------------------------------------------
  // The document.

  datatype Document = Document(
    files: seq<Path>,
    options: Json,
    sourceMap: map<string, Record>,
    circuit: map<string, Json>,
    extra: map<string, Json>)

  /** The `files` array: each source relative to the document's directory. */
  function FileStrings(dir: Path, sources: seq<Path>): (r: seq<Json>)
    ensures |r| == |sources|
    ensures forall i :: 0 <= i < |r| ==> r[i] == JStr(Relative(dir, sources[i]))
  {
    seq(|sources|, i requires 0 <= i < |sources| => JStr(Relative(dir, sources[i])))
  }

  /**
   * The object `toJSON` returns: `files`, `options` and `source_map`, then the
   * circuit's fields and the extra data spread over them (a later property
   * replaces an earlier one of the same name).
   */
  function Layout(files: Json, options: Json, sourceMap: Json, circuit: map<string, Json>, extra: map<string, Json>): map<string, Json> {
    map["files" := files, "options" := options, "source_map" := sourceMap] + circuit + extra
  }

  /** `toJSON` of a document saved at `circuitUri`. */
  function Save(circuitUri: Path, d: Document): map<string, Json> {
    Layout(JArr(FileStrings(DirName(circuitUri), d.files)), d.options, StoreCircuit(circuitUri, d.sourceMap),
           d.circuit, d.extra)
  }

  /**
   * The values `for (const file of files)` walks: an array's items or a
   * string's characters. Other values are not iterable (the walk throws at
   * once), so they have none.
   */
  function FileItems(v: Json): (r: seq<Json>)
    ensures v.JArr? ==> r == v.items
    ensures v.JStr? ==> r == Chars(v.s)
    ensures !v.JArr? && !v.JStr? ==> r == []
  {
    match v
    case JArr(items) => items
    case JStr(s) => Chars(s)
    case _ => []
  }

  /**
   * How many leading items are strings: `joinPath` throws on the first item
   * that is not one.
   */
  function StringRun(items: seq<Json>): (n: nat)
    ensures n <= |items| && forall i :: 0 <= i < n ==> items[i].JStr?
    ensures n < |items| ==> !items[n].JStr?
    decreases |items|
  {
    if items == [] || !items[0].JStr? then 0 else 1 + StringRun(items[1..])
  }

  /** The run of strings ends at the first item that is not one. */
  lemma StringRunAt(items: seq<Json>, i: nat)
    requires i <= |items| && forall j :: 0 <= j < i ==> items[j].JStr?
    requires i < |items| ==> !items[i].JStr?
    ensures StringRun(items) == i
  {
  }

  /**
   * `loadJSON` walks `files` to its end: the value is iterable, holds only
   * strings, and has a document URI to resolve them against unless it is
   * empty (`joinPath(undefined, ...)` throws).
   */
  predicate FilesLoad(v: Json, uri: Option<Path>) {
    (v.JArr? || v.JStr?) && StringRun(FileItems(v)) == |FileItems(v)| && (uri.Some? || FileItems(v) == [])
  }

  /** The `files` step of `loadJSON` does not throw. */
  predicate FilesRead(json: map<string, Json>, uri: Option<Path>) {
    "files" in json ==> FilesLoad(json["files"], uri)
  }

  /**
   * A document `loadJSON` reads without throwing: its `files` are walked to
   * the end and its `source_map` loads.
   */
  predicate Loadable(json: map<string, Json>, uri: Option<Path>) {
    FilesRead(json, uri) && ("source_map" in json ==> LoadCircuit(uri, json["source_map"]).Some?)
  }

  /** Appending an element not yet present keeps a sequence free of duplicates. */
  lemma SnocDistinct<T>(s: seq<T>, x: T)
    requires Distinct(s) && x !in s
    ensures Distinct(s + [x])
  {
    assert forall i :: 0 <= i < |s| ==> (s + [x])[i] == s[i];
  }

  /** The sources after `addSource(joinPath(uri, '..', file))` for each file in turn, from none. */
  function AddedSources(dir: Path, files: seq<Json>): (r: seq<Path>)
    requires forall i :: 0 <= i < |files| ==> files[i].JStr?
    ensures Distinct(r)
    decreases |files|
  {
    if files == [] then []
    else
      var n := |files| - 1;
      var init := AddedSources(dir, files[..n]);
      var p := Resolve(dir, files[n].s);
      if p in init then init else SnocDistinct(init, p); init + [p]
  }

  /** One more file adds its resolved path when it is new. */
  lemma AddedSourcesSnoc(dir: Path, files: seq<Json>, f: string)
    requires forall i :: 0 <= i < |files| ==> files[i].JStr?
    ensures forall i :: 0 <= i < |files + [JStr(f)]| ==> (files + [JStr(f)])[i].JStr?
    ensures AddedSources(dir, files + [JStr(f)]) == WithSource(AddedSources(dir, files), Resolve(dir, f))
  {
    assert (files + [JStr(f)])[..|files|] == files;
  }

  /**
   * The sources the walk over `files` has added when it ends or throws:
   * those of the leading strings, and none without a document URI.
   */
  function LoadedFiles(v: Json, uri: Option<Path>): (r: seq<Path>)
    ensures Distinct(r)
    ensures FilesLoad(v, uri) && uri.Some? ==> r == AddedSources(DirName(uri.value), FileItems(v))
  {
    var items := FileItems(v);
    assert items[..|items|] == items;
    if uri.None? then [] else AddedSources(DirName(uri.value), items[..StringRun(items)])
  }

  /** The circuit `loadJSON` builds: the empty circuit with each truthy field of the document over it. */
  function LoadedCircuit(json: map<string, Json>): (c: map<string, Json>)
    ensures c.Keys == EmptyCircuit.Keys
    ensures forall f :: f in c ==> c[f] == if f in json && Truthy(json[f]) then json[f] else EmptyCircuit[f]
  {
    map f | f in EmptyCircuit :: if f in json && Truthy(json[f]) then json[f] else EmptyCircuit[f]
  }

  /**
   * `loadJSON(json, uri)`: the known properties are read and the rest is the
   * extra data. Without a `source_map` property the previous source map is
   * kept. `None` when reading `files` or `source_map` throws.
   */
  function Load(json: map<string, Json>, uri: Option<Path>, previous: map<string, Record>): (d: Option<Document>)
    ensures d.Some? <==> Loadable(json, uri)
    ensures d.Some? ==> d.value.files == if "files" in json then LoadedFiles(json["files"], uri) else []
    ensures d.Some? ==> d.value.sourceMap == if "source_map" in json then LoadCircuit(uri, json["source_map"]).value else previous
    ensures d.Some? ==> d.value.extra.Keys !! KnownKeys
    ensures d.Some? ==> forall k :: k in json && k !in KnownKeys ==> k in d.value.extra && d.value.extra[k] == json[k]
    ensures d.Some? ==> d.value.options == if "options" in json then json["options"] else DefaultSynthOptions
  {
    if !Loadable(json, uri) then None
    else
      Some(Document(
        if "files" in json then LoadedFiles(json["files"], uri) else [],
        if "options" in json then json["options"] else DefaultSynthOptions,
        if "source_map" in json then LoadCircuit(uri, json["source_map"]).value else previous,
        LoadedCircuit(json),
        json - KnownKeys))
  }

  /** The document `loadJSON` builds from its parts, read one by one. */
  lemma LoadFromParts(json: map<string, Json>, uri: Option<Path>, previous: map<string, Record>, d: Document)
    requires Loadable(json, uri)
    requires d.files == if "files" in json then LoadedFiles(json["files"], uri) else []
    requires d.options == if "options" in json then json["options"] else DefaultSynthOptions
    requires d.sourceMap == if "source_map" in json then LoadCircuit(uri, json["source_map"]).value else previous
    requires d.circuit == LoadedCircuit(json) && d.extra == json - KnownKeys
    ensures Load(json, uri, previous) == Some(d)
  {
  }

  /** Without a document URI, a document naming any file does not load: `joinPath(undefined, ...)` throws. */
  lemma LoadWithoutUri(json: map<string, Json>, previous: map<string, Record>)
    requires "files" in json && FileItems(json["files"]) != []
    ensures Load(json, None, previous).None?
  {
  }

  // ---------------------------------------------------------------------------
  // Saving and loading back.

  /** The last element of a sequence free of duplicates is not among the others. */
  lemma DistinctSnoc<T>(s: seq<T>)
    requires Distinct(s) && s != []
    ensures Distinct(s[..|s| - 1]) && s[|s| - 1] !in s[..|s| - 1]
    ensures s == s[..|s| - 1] + [s[|s| - 1]]
  {
  }

  lemma FileStringsSnoc(dir: Path, sources: seq<Path>)
    requires sources != []
    ensures FileStrings(dir, sources) ==
            FileStrings(dir, sources[..|sources| - 1]) + [JStr(Relative(dir, sources[|sources| - 1]))]
  {
  }

  /** The relative paths `toJSON` writes load back as the same sources, in the same order. */
  lemma {:induction false} AddedSourcesRelative(dir: Path, sources: seq<Path>)
    requires Distinct(sources)
    ensures AddedSources(dir, FileStrings(dir, sources)) == sources
    decreases |sources|
  {
    if sources != [] {
      var n := |sources| - 1;
      DistinctSnoc(sources);
      FileStringsSnoc(dir, sources);
      AddedSourcesRelative(dir, sources[..n]);
      AddedSourcesSnoc(dir, FileStrings(dir, sources[..n]), Relative(dir, sources[n]));
      ResolveRelative(dir, sources[n]);
    }
  }

  /** A document whose properties do not collide: what `loadJSON` produces. */
  predicate Separate(d: Document) {
    d.circuit.Keys <= EmptyCircuit.Keys && d.extra.Keys !! KnownKeys
  }

  /** The records of a source map that survive the document form. */
  function Kept(circuitUri: Path, m: map<string, Record>): map<string, Record> {
    map k | k in m && Present(m[k].sha512) && m[k].uri != DirName(circuitUri) :: m[k]
  }

  /** With no collisions, each part of the layout reads back as it was written. */
  lemma LayoutParts(files: Json, options: Json, sourceMap: Json, circuit: map<string, Json>, extra: map<string, Json>)
    requires circuit.Keys <= EmptyCircuit.Keys && extra.Keys !! KnownKeys
    ensures Layout(files, options, sourceMap, circuit, extra)["files"] == files
    ensures Layout(files, options, sourceMap, circuit, extra)["options"] == options
    ensures Layout(files, options, sourceMap, circuit, extra)["source_map"] == sourceMap
    ensures Layout(files, options, sourceMap, circuit, extra) - KnownKeys == extra
  {
  }

  /** With truthy fields, the circuit that `loadJSON` reads from the layout is the empty circuit updated by them. */
  lemma LayoutCircuit(files: Json, options: Json, sourceMap: Json, circuit: map<string, Json>, extra: map<string, Json>)
    requires circuit.Keys <= EmptyCircuit.Keys && extra.Keys !! KnownKeys
    requires forall f :: f in circuit ==> Truthy(circuit[f])
    ensures LoadedCircuit(Layout(files, options, sourceMap, circuit, extra)) == EmptyCircuit + circuit
  {
    var j := Layout(files, options, sourceMap, circuit, extra);
    forall f | f in EmptyCircuit ensures f in j <==> f in circuit {
    }
  }

  lemma SaveParts(c: Path, d: Document, previous: map<string, Record>)
    requires Separate(d)
    ensures Loadable(Save(c, d), Some(c))
    ensures Load(Save(c, d), Some(c), previous).Some?
    ensures Save(c, d)["files"] == JArr(FileStrings(DirName(c), d.files))
    ensures Save(c, d)["source_map"] == StoreCircuit(c, d.sourceMap)
  {
    var files := FileStrings(DirName(c), d.files);
    LayoutParts(JArr(files), d.options, StoreCircuit(c, d.sourceMap), d.circuit, d.extra);
    LoadStoreCircuit(c, d.sourceMap);
    assert FileItems(JArr(files)) == files;
  }

  lemma LoadSaveFiles(c: Path, d: Document, previous: map<string, Record>)
    requires Separate(d) && Distinct(d.files)
    ensures Load(Save(c, d), Some(c), previous).Some?
    ensures Load(Save(c, d), Some(c), previous).value.files == d.files
  {
    SaveParts(c, d, previous);
    AddedSourcesRelative(DirName(c), d.files);
  }

  lemma LoadSaveSourceMap(c: Path, d: Document, previous: map<string, Record>)
    requires Separate(d)
    ensures Load(Save(c, d), Some(c), previous).Some?
    ensures Load(Save(c, d), Some(c), previous).value.sourceMap == Kept(c, d.sourceMap)
  {
    SaveParts(c, d, previous);
    LoadStoreCircuit(c, d.sourceMap);
  }

  lemma LoadSaveCircuit(c: Path, d: Document, previous: map<string, Record>)
    requires Separate(d)
    requires forall f :: f in d.circuit ==> Truthy(d.circuit[f])
    ensures Load(Save(c, d), Some(c), previous).Some?
    ensures Load(Save(c, d), Some(c), previous).value.circuit == EmptyCircuit + d.circuit
    ensures Load(Save(c, d), Some(c), previous).value.options == d.options
    ensures Load(Save(c, d), Some(c), previous).value.extra == d.extra
  {
    SaveParts(c, d, previous);
    var files, sm := JArr(FileStrings(DirName(c), d.files)), StoreCircuit(c, d.sourceMap);
    LayoutParts(files, d.options, sm, d.circuit, d.extra);
    LayoutCircuit(files, d.options, sm, d.circuit, d.extra);
  }

  /**
   * Saving a document and loading it back gives the same document, except
   * that the source map keeps only its hashed records and the circuit gains
   * the empty fields it lacked.
   */
  lemma LoadSave(c: Path, d: Document, previous: map<string, Record>)
    requires Separate(d) && Distinct(d.files)
    requires forall f :: f in d.circuit ==> Truthy(d.circuit[f])
    ensures Load(Save(c, d), Some(c), previous).Some?
    ensures Load(Save(c, d), Some(c), previous) ==
            Some(Document(d.files, d.options, Kept(c, d.sourceMap), EmptyCircuit + d.circuit, d.extra))
  {
    LoadSaveFiles(c, d, previous);
    LoadSaveSourceMap(c, d, previous);
    LoadSaveCircuit(c, d, previous);
  }

  /** Every property `loadJSON` does not know is written back by `toJSON` unchanged. */
  lemma ExtraRoundTrip(json: map<string, Json>, c: Path, previous: map<string, Record>)
    ensures Load(json, Some(c), previous).Some? ==>
              forall k :: k in json && k !in KnownKeys ==>
                          k in Save(c, Load(json, Some(c), previous).value) &&
                          Save(c, Load(json, Some(c), previous).value)[k] == json[k]
  {
  }
}
