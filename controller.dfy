/**
 * The `DigitalJS` controller of src/extension.mjs: the circuit being edited,
 * its source files and source map, the synthesis options, the extra data of
 * the circuit document, the tick, the I/O panel cache and the editors that
 * show source markers, as `loadJSON`, `toJSON`, `doSynth` and the handlers of
 * the circuit view's messages change them.
 */
module Controller {

  import opened Wrappers
  import opened JsonValues
  import opened Paths
  import opened Files
  import opened Sources
  import opened SynthKeys
  import opened CircuitDocument
  import opened IOPanel
  import opened Messages

  /** What the event emitters fire, in order. */
  datatype Event = TickUpdated(tick: Option<Json>) | CircuitChanged | IOPanelMessage(msg: Message)

  /** The argument of `yosys2digitaljs`: the text of each source under its key, and the options. */
  datatype SynthRequest = SynthRequest(files: map<string, string>, options: RequestOptions)

  // ---------------------------------------------------------------------------
  // The reverse source map.

  /** `rev` maps the URI string of every entry of `m` to a key of `m` holding that file. */
  predicate ReverseOf(m: map<string, SourceInfo>, rev: map<string, string>) {
    (forall k :: k in m ==> UriString(m[k].uri) in rev) &&
    (forall u :: u in rev ==> rev[u] in m && UriString(m[rev[u]].uri) == u)
  }

  /** From any entry, the reverse map leads to an entry for the same file. */
  lemma ReverseFinds(m: map<string, SourceInfo>, rev: map<string, string>, k: string)
    requires ReverseOf(m, rev) && k in m
    ensures UriString(m[k].uri) in rev
    ensures rev[UriString(m[k].uri)] in m && m[rev[UriString(m[k].uri)]].uri == m[k].uri
  {
    PathStringInjective(m[k].uri, m[rev[UriString(m[k].uri)]].uri);
  }

  // ---------------------------------------------------------------------------
  // Source markers.

  /** The key `editor_map[marker.name]` uses; a marker that is no object has no name. */
  function MarkerName(marker: Json): string {
    PropertyKey(Field(marker, "name"))
  }

  function MarkerNames(markers: seq<Json>): (r: seq<string>)
    ensures |r| == |markers|
    ensures forall i :: 0 <= i < |r| ==> r[i] == MarkerName(markers[i])
  {
    seq(|markers|, i requires 0 <= i < |markers| => MarkerName(markers[i]))
  }

  /**
   * What `findEditor` answers for `o`: the first editor showing its file if
   * the cached comparison, or failing that the hash of the editor's text,
   * says the text is the one synthesized. The same before and after the call.
   */
  function Found(o: SourceInfo, editors: seq<Editor>, hash: string -> string): Option<Editor>
    reads o
  {
    var e := FirstEditor(editors, o.uri);
    if e.None? then None
    else if (if o.matched.Some? then o.matched.value else o.HashMatches(e.value, hash)) then e
    else None
  }

  function FoundAll(m: map<string, SourceInfo>, editors: seq<Editor>, hash: string -> string): (r: map<string, Option<Editor>>)
    reads m.Values
    ensures r.Keys == m.Keys
  {
    map k | k in m :: Found(m[k], editors, hash)
  }

  /**
   * The editors `showMarker` highlights for markers named `names`: one per
   * name with an editor to show, in the order the names first occur.
   */
  function Highlights(names: seq<string>, found: map<string, Option<Editor>>): seq<Editor>
    decreases |names|
  {
    if names == [] then []
    else
      var n := |names| - 1;
      var name := names[n];
      Highlights(names[..n], found) +
        (if name !in names[..n] && name in found && found[name].Some? then [found[name].value] else [])
  }

  /** One more marker name: its editor is added when the name is new and has one. */
  lemma HighlightsSnoc(names: seq<string>, i: nat, found: map<string, Option<Editor>>)
    requires i < |names|
    ensures Highlights(names[..i + 1], found) == Highlights(names[..i], found) +
              (if names[i] !in names[..i] && names[i] in found && found[names[i]].Some? then [found[names[i]].value] else [])
    ensures forall n :: n in names[..i + 1] <==> n in names[..i] || n == names[i]
  {
    assert names[..i + 1][..i] == names[..i];
  }

  /** An editor is highlighted exactly when some marker names a source that has it. */
  lemma {:induction false} HighlightsMember(names: seq<string>, found: map<string, Option<Editor>>, e: Editor)
    ensures e in Highlights(names, found) <==> exists name :: name in names && name in found && found[name] == Some(e)
    decreases |names|
  {
    if names != [] {
      var n := |names| - 1;
      HighlightsMember(names[..n], found, e);
      assert names == names[..n] + [names[n]];
      if name :| name in names && name in found && found[name] == Some(e) {
        if name in names[..n] {
        } else if names[n] != name {
          assert false;
        }
      }
    }
  }

  /** Where the cache agrees with the editors, a found editor shows the file with the synthesized text. */
  lemma FoundMatches(o: SourceInfo, editors: seq<Editor>, hash: string -> string)
    requires o.Coherent(editors, hash)
    ensures Found(o, editors, hash).Some? <==>
              FirstEditor(editors, o.uri).Some? && o.HashMatches(FirstEditor(editors, o.uri).value, hash)
    ensures Found(o, editors, hash).Some? ==> Found(o, editors, hash) == FirstEditor(editors, o.uri)
  {
  }

  ghost function CoherentKeys(m: map<string, SourceInfo>, editors: seq<Editor>, hash: string -> string): set<string>
    reads m.Values
  {
    set k | k in m && m[k].Coherent(editors, hash)
  }

  /** What `findEditor` calls keep: each answer and each coherent cache. */
  ghost predicate Settled(m: map<string, SourceInfo>, editors: seq<Editor>, hash: string -> string,
                          found: map<string, Option<Editor>>, coherent: set<string>)
    reads m.Values
  {
    found.Keys == m.Keys && coherent <= m.Keys &&
    (forall k :: k in m ==> Found(m[k], editors, hash) == found[k]) &&
    (forall k :: k in coherent && k in m ==> m[k].Coherent(editors, hash))
  }

  lemma SettledAfter(m: map<string, SourceInfo>, editors: seq<Editor>, hash: string -> string,
                     found: map<string, Option<Editor>>, coherent: set<string>)
    requires Settled(m, editors, hash, found, coherent)
    ensures FoundAll(m, editors, hash) == found
    ensures coherent <= CoherentKeys(m, editors, hash)
  {
  }

  /** `getEditorInfo` for a name not yet shown: one `findEditor` call on that name's entry. */
  method FindOne(m: map<string, SourceInfo>, name: string, editors: seq<Editor>, hash: string -> string,
                 ghost found: map<string, Option<Editor>>, ghost coherent: set<string>)
    returns (e: Option<Editor>)
    requires name in m && Settled(m, editors, hash, found, coherent)
    modifies m[name]
    ensures Settled(m, editors, hash, found, coherent)
    ensures e == found[name]
  {
    var info := m[name];
    ghost var wasCoherent := info.Coherent(editors, hash);
    e := info.FindEditor(editors, hash);
    forall k | k in m && m[k] != info
      ensures Found(m[k], editors, hash) == found[k]
      ensures k in coherent ==> m[k].Coherent(editors, hash)
    {
    }
  }

  /**
   * The marker loop of `showMarker` over names: each name not yet shown
   * that has an entry asks that entry's `findEditor`, and every editor found
   * is collected once.
   */
  method MarkEditors(m: map<string, SourceInfo>, names: seq<string>, editors: seq<Editor>, hash: string -> string)
    returns (added: seq<Editor>)
    modifies m.Values
    ensures added == Highlights(names, old(FoundAll(m, editors, hash)))
    ensures FoundAll(m, editors, hash) == old(FoundAll(m, editors, hash))
    ensures old(CoherentKeys(m, editors, hash)) <= CoherentKeys(m, editors, hash)
  {
    ghost var found := FoundAll(m, editors, hash);
    ghost var coherent := CoherentKeys(m, editors, hash);
    var shown: set<string> := {};
    added := [];
    for i := 0 to |names|
      invariant Settled(m, editors, hash, found, coherent)
      invariant added == Highlights(names[..i], found)
      invariant forall n :: n in shown <==> n in names[..i] && n in found && found[n].Some?
    {
      HighlightsSnoc(names, i, found);
      var name := names[i];
      if name !in shown && name in m {
        var e := FindOne(m, name, editors, hash, found, coherent);
        if e.Some? {
          added := added + [e.value];
          shown := shown + {name};
        }
      }
    }
    assert names[..|names|] == names;
    SettledAfter(m, editors, hash, found, coherent);
  }

  // ---------------------------------------------------------------------------
  // Reading the sources for synthesis.

  /** The stored fields of the object made for file `f`: its hash is that of the text read. */
  function SynthRecord(f: Path, read: Path -> string, hash: string -> string): Record {
    Record(f, Some(JStr(hash(read(f)))))
  }

  /**
   * `loadSourcesForSynth` on the objects `createSourceMapForSynth` made: each
   * file's text under its key, and a new object per key with the hash of that
   * text and nothing cached.
   */
  method LoadSourcesForSynth(keys: map<string, Path>, read: Path -> string, hash: string -> string)
    returns (data: map<string, string>, infos: map<string, SourceInfo>)
    ensures forall k :: k in data <==> k in keys
    ensures forall k :: k in data ==> data[k] == read(keys[k])
    ensures forall k :: k in infos <==> k in keys
    ensures forall k :: k in infos ==> infos[k].Info() == SynthRecord(keys[k], read, hash)
    ensures forall k :: k in infos ==> fresh(infos[k]) && infos[k].matched == None
    ensures Unshared(infos)
  {
    data, infos := map[], map[];
    var todo := keys.Keys;
    while todo != {}
      invariant todo <= keys.Keys
      invariant forall k :: k in data <==> k in keys.Keys - todo
      invariant forall k :: k in data ==> data[k] == read(keys[k])
      invariant forall k :: k in infos <==> k in keys.Keys - todo
      invariant forall k :: k in infos ==> infos[k].Info() == SynthRecord(keys[k], read, hash)
      invariant forall k :: k in infos ==> fresh(infos[k]) && infos[k].matched == None
      invariant Unshared(infos)
      decreases |todo|
    {
      var k :| k in todo;
      var content := read(keys[k]);
      var info := new SourceInfo(keys[k], Some(JStr(hash(content))));
      data := data[k := content];
      infos := infos[k := info];
      todo := todo - {k};
    }
  }

  /**
   * `doSynth` up to the synthesizer: the key map of the tracked sources, the
   * request with each text under its key, and the objects `yosys2digitaljs`'s
   * success would install, each holding its file and the hash of the text
   * sent. `None` when no source qualifies.
   */
  method PrepareSynth(sources: seq<Path>, circuit: Option<Path>, options: Json,
                      read: Path -> string, hash: string -> string)
    returns (request: Option<SynthRequest>, infos: map<string, SourceInfo>)
    requires AllFiles(sources) && options != JNull
    ensures request.None? <==> NonScripts(sources) == []
    ensures request.Some? ==> request.value.options == SynthRequestOptions(options)
    ensures request.Some? ==> forall k :: k in request.value.files <==> k in KeyMap(sources, circuit)
    ensures request.Some? ==> forall k :: k in request.value.files ==> request.value.files[k] == read(KeyMap(sources, circuit)[k])
    ensures forall k :: k in infos <==> k in KeyMap(sources, circuit)
    ensures forall k :: k in infos ==> infos[k].uri == KeyMap(sources, circuit)[k] &&
                                       infos[k].sha512 == Some(JStr(hash(read(infos[k].uri))))
    ensures forall k :: k in infos ==> fresh(infos[k]) && infos[k].matched == None
    ensures Unshared(infos)
  {
    var keys := CreateSourceMapForSynth(sources, circuit);
    if keys.None? {
      assert KeyMap(sources, circuit) == map[];
      return None, map[];
    }
    KeyMapOf(sources, circuit, keys.value);
    var data;
    data, infos := LoadSourcesForSynth(keys.value, read, hash);
    request := Some(SynthRequest(data, SynthRequestOptions(options)));
  }

  // ---------------------------------------------------------------------------
  // The steps of `loadJSON`.

  /**
   * The `files` loop of `loadJSON` after `files.reset(uri)`: each file,
   * resolved next to the document, is added in turn. `ok` is false when
   * `joinPath` throws, on the first item without a document URI or on the
   * first item that is not a string; the files added so far stay.
   */
  method AddFiles(files: FilesMgr, uri: Option<Path>, items: seq<Json>) returns (ok: bool)
    requires files.Valid() && files.sources == [] && files.scriptRunning == {} && files.scriptNotRunning == {}
    modifies files
    ensures ok <==> StringRun(items) == |items| && (uri.Some? || items == [])
    ensures files.Valid()
    ensures files.sources == if uri.None? then [] else AddedSources(DirName(uri.value), items[..StringRun(items)])
    ensures files.scriptNotRunning == LuaTags(files.sources) && files.TagsDisjoint()
    ensures files.circuit == old(files.circuit) && files.scriptRunning == {}
  {
    if uri.None? {
      return items == [];
    }
    var dir := DirName(uri.value);
    var i := 0;
    while i < |items|
      invariant i <= |items| && forall j :: 0 <= j < i ==> items[j].JStr?
      invariant files.Valid() && files.sources == AddedSources(dir, items[..i])
      invariant files.scriptNotRunning == LuaTags(files.sources)
      invariant files.circuit == old(files.circuit) && files.scriptRunning == {}
    {
      if !items[i].JStr? {
        StringRunAt(items, i);
        return false;
      }
      assert items[..i + 1] == items[..i] + [JStr(items[i].s)];
      AddFile(files, dir, items[..i], items[i].s);
      i := i + 1;
    }
    StringRunAt(items, i);
    assert items[..i] == items;
    return true;
  }

  /** One step of the `files` loop: the file is added and, as a new Lua script, tagged not running. */
  method AddFile(files: FilesMgr, dir: Path, done: seq<Json>, f: string)
    requires forall j :: 0 <= j < |done| ==> done[j].JStr?
    requires files.Valid() && files.sources == AddedSources(dir, done)
    requires files.scriptNotRunning == LuaTags(files.sources)
    modifies files
    ensures files.Valid() && files.sources == AddedSources(dir, done + [JStr(f)])
    ensures files.scriptNotRunning == LuaTags(files.sources)
    ensures files.circuit == old(files.circuit) && files.scriptRunning == old(files.scriptRunning)
  {
    AddedSourcesSnoc(dir, done, f);
    LuaTagsWith(files.sources, Resolve(dir, f));
    files.AddSource(Resolve(dir, f));
  }

  /**
   * `files.reset(uri)`, then the `files` loop when the document has that
   * property. A value `for ... of` cannot walk (not an array or a string)
   * throws before any file is added.
   */
  method ResetFiles(files: FilesMgr, uri: Option<Path>, json: map<string, Json>) returns (ok: bool)
    modifies files
    ensures ok <==> FilesRead(json, uri)
    ensures files.Valid() && files.circuit == uri && files.scriptRunning == {}
    ensures files.sources == if "files" in json then LoadedFiles(json["files"], uri) else []
    ensures files.scriptNotRunning == LuaTags(files.sources) && files.TagsDisjoint()
  {
    files.Reset(uri);
    ok := true;
    if "files" in json {
      var v := json["files"];
      if !v.JArr? && !v.JStr? {
        return false;
      }
      ok := AddFiles(files, uri, FileItems(v));
    }
  }

  /**
   * The circuit-fields loop of `loadJSON`: each truthy field replaces the
   * empty one, and every circuit field is deleted from the document.
   */
  method TakeCircuit(json: map<string, Json>) returns (c: map<string, Json>, rest: map<string, Json>)
    ensures c.Keys == EmptyCircuit.Keys
    ensures forall f :: f in c ==> c[f] == if f in json && Truthy(json[f]) then json[f] else EmptyCircuit[f]
    ensures forall k :: k in rest <==> k in json && k !in EmptyCircuit
    ensures forall k :: k in rest ==> rest[k] == json[k]
  {
    c, rest := EmptyCircuit, json;
    for i := 0 to |CircuitFields|
      invariant c.Keys == EmptyCircuit.Keys
      invariant forall f :: f in c ==> c[f] == if f in CircuitFields[..i] && f in json && Truthy(json[f]) then json[f] else EmptyCircuit[f]
      invariant forall k :: k in rest <==> k in json && k !in CircuitFields[..i]
      invariant forall k :: k in rest ==> rest[k] == json[k]
    {
      var f := CircuitFields[i];
      assert CircuitFields[..i + 1] == CircuitFields[..i] + [f];
      if f in rest && Truthy(rest[f]) {
        c := c[f := rest[f]];
      }
      rest := rest - {f};
    }
    assert CircuitFields[..|CircuitFields|] == CircuitFields;
    assert forall f :: f in CircuitFields <==> f in EmptyCircuit;
  }

  /** A map that holds exactly the entries of `json` outside `keys` is `json - keys`. */
  lemma MapWithout(json: map<string, Json>, rest: map<string, Json>, keys: set<string>)
    requires forall k :: k in rest <==> k in json && k !in keys
    requires forall k :: k in rest ==> rest[k] == json[k]
    ensures rest == json - keys
  {
  }

  /** The circuit `TakeCircuit` builds from a document that agrees with `json` on the circuit fields. */
  lemma LoadedCircuitOf(json: map<string, Json>, r: map<string, Json>, c: map<string, Json>)
    requires forall f :: f in EmptyCircuit ==> (f in r <==> f in json) && (f in r ==> r[f] == json[f])
    requires c.Keys == EmptyCircuit.Keys
    requires forall f :: f in c ==> c[f] == if f in r && Truthy(r[f]) then r[f] else EmptyCircuit[f]
    ensures c == LoadedCircuit(json)
  {
  }

  /** The `files` and `options` steps of `loadJSON`: each property is read and deleted. */
  method TakeHead(json: map<string, Json>) returns (files: Option<Json>, options: Json, r: map<string, Json>)
    ensures files == if "files" in json then Some(json["files"]) else None
    ensures options == if "options" in json then json["options"] else DefaultSynthOptions
    ensures forall k :: k in r <==> k in json && k != "files" && k != "options"
    ensures forall k :: k in r ==> r[k] == json[k]
  {
    r := json;
    files := None;
    if "files" in r {
      files := Some(r["files"]);
      r := r - {"files"};
    }
    if "options" in r {
      options := r["options"];
      r := r - {"options"};
    } else {
      options := DefaultSynthOptions;
    }
  }

  /**
   * The properties `loadJSON` reads and deletes, in its order: `files`,
   * `options` (the defaults when absent), the circuit fields and
   * `source_map`; `rest` is what the document has left, the extra data.
   */
  method SplitDocument(json: map<string, Json>)
    returns (files: Option<Json>, options: Json, c: map<string, Json>, sourceMap: Option<Json>, rest: map<string, Json>)
    ensures files == if "files" in json then Some(json["files"]) else None
    ensures options == if "options" in json then json["options"] else DefaultSynthOptions
    ensures c == LoadedCircuit(json)
    ensures sourceMap == if "source_map" in json then Some(json["source_map"]) else None
    ensures rest == json - KnownKeys
  {
    var r;
    files, options, r := TakeHead(json);
    var left;
    c, left := TakeCircuit(r);
    LoadedCircuitOf(json, r, c);
    sourceMap := None;
    if "source_map" in left {
      sourceMap := Some(left["source_map"]);
      left := left - {"source_map"};
    }
    MapWithout(json, left, KnownKeys);
    rest := left;
  }

  // ---------------------------------------------------------------------------
  // The controller.

  /** Messages whose properties the handlers can read without throwing. */
  predicate Readable(msg: Message) {
    msg.command == "showmarker" ==>
       msg.Get("markers").Some? && msg.Get("markers").value.JArr? &&
       forall i :: 0 <= i < |msg.Get("markers").value.items| ==> msg.Get("markers").value.items[i] != JNull
  }

  /**
   * The script name of a `luaerror` or `luaprint` message can be made
   * relative to the circuit file: `path.relative` takes only strings.
   */
  predicate NamedFile(circuit: Option<Path>, msg: Message) {
    circuit.None? || (msg.Get("name").Some? && msg.Get("name").value.JStr?)
  }

  class DigitalJS {
    const files: FilesMgr
    var dirty: bool
    /** The circuit the view last reported; `None` is `undefined`. */
    var circuit: Option<Json>
    var sourceMap: map<string, SourceInfo>
    /** The lazily built `reverse_source_map`; `None` is `undefined`. */
    var reverse: Option<map<string, string>>
    var tick: Option<Json>
    var extra: map<string, Json>
    var options: Json
    var panel: Panel
    var highlighted: seq<Editor>
    var events: seq<Event>

    ghost predicate Valid()
      reads this, files
    {
      files.Valid() && Consistent(panel) && Unshared(sourceMap) &&
      (reverse.Some? ==> ReverseOf(sourceMap, reverse.value))
    }

    /** The document `toJSON` writes. */
    function Doc(): Document
      reads this, files
    {
      Document(files.sources, options, Records(sourceMap), Spread(circuit), extra)
    }

    /** The fields of the document are as they were. */
    twostate predicate DocumentKept()
      reads this
    {
      dirty == old(dirty) && circuit == old(circuit) && sourceMap == old(sourceMap) &&
      extra == old(extra) && options == old(options)
    }

    /** The tick and the events are as they were. */
    twostate predicate QuietKept()
      reads this
    {
      tick == old(tick) && events == old(events)
    }

    constructor ()
      ensures Valid() && fresh(files)
      ensures files.circuit == None && files.sources == []
      ensures files.scriptRunning == {} && files.scriptNotRunning == {}
      ensures !dirty && circuit == Some(JObj(EmptyCircuit)) && sourceMap == map[] && reverse == None
      ensures tick == Some(JNum(0)) && extra == map[] && options == DefaultSynthOptions
      ensures panel == Empty && highlighted == [] && events == []
    {
      files := new FilesMgr();
      dirty := false;
      circuit := Some(JObj(EmptyCircuit));
      sourceMap := map[];
      reverse := None;
      tick := Some(JNum(0));
      extra := map[];
      options := DefaultSynthOptions;
      panel := Empty;
      highlighted := [];
      events := [];
    }

    /** `setTick`: stores the tick and fires it. */
    method SetTick(t: Option<Json>)
      modifies this
      ensures tick == t && events == old(events) + [TickUpdated(t)]
      ensures DocumentKept() && reverse == old(reverse) && panel == old(panel) && highlighted == old(highlighted)
    {
      tick := t;
      events := events + [TickUpdated(t)];
    }

    /** `getReverseSourceMap`: built once from the source map and kept until the map is replaced. */
    method GetReverseSourceMap() returns (rev: map<string, string>)
      requires Valid()
      modifies this
      ensures Valid() && reverse == Some(rev) && ReverseOf(sourceMap, rev)
      ensures old(reverse).Some? ==> rev == old(reverse).value
      ensures DocumentKept() && QuietKept() && panel == old(panel) && highlighted == old(highlighted)
    {
      if reverse.Some? {
        return reverse.value;
      }
      rev := map[];
      var todo := sourceMap.Keys;
      while todo != {}
        invariant todo <= sourceMap.Keys
        invariant forall k :: k in sourceMap && k !in todo ==> UriString(sourceMap[k].uri) in rev
        invariant forall u :: u in rev ==> rev[u] in sourceMap && UriString(sourceMap[rev[u]].uri) == u
        decreases |todo|
      {
        var k :| k in todo;
        rev := rev[UriString(sourceMap[k].uri) := k];
        todo := todo - {k};
      }
      reverse := Some(rev);
    }

    /**
     * The text-change handler: the entry the reverse map gives for the
     * edited document forgets its cached comparison; every other entry,
     * including another key for the same file, keeps its own, and nothing
     * changes when the reverse map has no key (or `""`) for the document.
     */
    method TextDocumentChanged(uri: Path)
      requires Valid()
      modifies this, sourceMap.Values
      ensures sourceMap == old(sourceMap)
      ensures Valid() && reverse.Some? && (old(reverse).Some? ==> reverse == old(reverse))
      ensures var u := UriString(uri);
              u in reverse.value && reverse.value[u] != "" ==>
                sourceMap[reverse.value[u]].uri == uri && sourceMap[reverse.value[u]].matched == None
      ensures forall k :: k in sourceMap && sourceMap[k].uri != uri ==> sourceMap[k].matched == old(sourceMap[k].matched)
      ensures var u := UriString(uri);
              forall k :: k in sourceMap && !(u in reverse.value && reverse.value[u] != "" && k == reverse.value[u]) ==>
                sourceMap[k].matched == old(sourceMap[k].matched)
      ensures DocumentKept() && QuietKept() && panel == old(panel) && highlighted == old(highlighted)
    {
      var rev := GetReverseSourceMap();
      var u := UriString(uri);
      if u !in rev || rev[u] == "" {
        return;
      }
      var info := sourceMap[rev[u]];
      PathStringInjective(info.uri, uri);
      info.matched := None;
    }

    /** `clearMarker`: no editor stays highlighted. */
    method ClearMarker()
      modifies this
      ensures highlighted == []
      ensures DocumentKept() && QuietKept() && reverse == old(reverse) && panel == old(panel)
    {
      highlighted := [];
    }

    /**
     * `showMarker`: markers are grouped by name; the first marker of a name
     * with a source asks that source's `findEditor`, and the editor it finds
     * is highlighted once for all markers of that name.
     */
    method ShowMarker(markers: seq<Json>, editors: seq<Editor>, hash: string -> string)
      requires Valid()
      requires forall i :: 0 <= i < |markers| ==> markers[i] != JNull
      modifies this, sourceMap.Values
      ensures sourceMap == old(sourceMap) && Valid()
      ensures highlighted == old(highlighted) + Highlights(MarkerNames(markers), old(FoundAll(sourceMap, editors, hash)))
      ensures FoundAll(sourceMap, editors, hash) == old(FoundAll(sourceMap, editors, hash))
      ensures old(CoherentKeys(sourceMap, editors, hash)) <= CoherentKeys(sourceMap, editors, hash)
      ensures DocumentKept() && QuietKept() && reverse == old(reverse) && panel == old(panel)
    {
      var added := MarkEditors(sourceMap, MarkerNames(markers), editors, hash);
      highlighted := highlighted + added;
    }

    /**
     * `processIOPanelMessage`: the cache is updated and the message is
     * fired, unless setting the value threw (`ok` false), which leaves the
     * cache as the exception found it and fires nothing.
     */
    method ProcessIOPanelMessage(msg: Message) returns (ok: bool)
      requires Valid()
      modifies this
      ensures Valid()
      ensures ok <==> Process(old(panel), msg).Some?
      ensures ok ==> panel == Process(old(panel), msg).value && events == old(events) + [IOPanelMessage(msg)]
      ensures !ok ==> panel == (if msg.command == "iopanel:view" then OnView(msg.Get("view")) else old(panel)) &&
                      events == old(events)
      ensures DocumentKept() && tick == old(tick) && reverse == old(reverse) && highlighted == old(highlighted)
    {
      var next;
      next, ok := Handle(panel, msg);
      panel := next;
      if ok {
        events := events + [IOPanelMessage(msg)];
      }
    }

    /**
     * `processCommand`. `ok` is false when the handler threw. Commands
     * that only talk to the editor's user interface change nothing here.
     */
    method ProcessCommand(msg: Message, editors: seq<Editor>, hash: string -> string) returns (ok: bool)
      requires Valid() && Readable(msg)
      modifies this, files
      modifies if msg.command == "showmarker" && !StartsWith(msg.command, "iopanel:") then sourceMap.Values else {}
      ensures Valid()
      ensures StartsWith(msg.command, "iopanel:") ==>
                (ok <==> Process(old(panel), msg).Some?) && tick == old(tick) &&
                (ok ==> panel == Process(old(panel), msg).value && events == old(events) + [IOPanelMessage(msg)]) &&
                (!ok ==> panel == (if msg.command == "iopanel:view" then OnView(msg.Get("view")) else old(panel)) &&
                         events == old(events))
      ensures !StartsWith(msg.command, "iopanel:") ==> panel == old(panel)
      ensures !StartsWith(msg.command, "iopanel:") && msg.command != "luaerror" && msg.command != "luaprint" ==> ok
      ensures !StartsWith(msg.command, "iopanel:") && msg.command == "luaerror" ==> (ok <==> NamedFile(files.circuit, msg))
      ensures !StartsWith(msg.command, "iopanel:") && msg.command == "luaprint" ==>
                (ok <==> NamedFile(files.circuit, msg) && Joinable(msg.Get("messages")))
      ensures !StartsWith(msg.command, "iopanel:") && msg.command == "updatecircuit" ==>
                circuit == msg.Get("circuit") && dirty &&
                sourceMap == old(sourceMap) && extra == old(extra) && options == old(options)
      ensures msg.command != "updatecircuit" || StartsWith(msg.command, "iopanel:") ==> DocumentKept()
      ensures !StartsWith(msg.command, "iopanel:") && msg.command == "tick" ==>
                tick == msg.Get("tick") && events == old(events) + [TickUpdated(msg.Get("tick"))]
      ensures !StartsWith(msg.command, "iopanel:") && msg.command != "tick" ==> QuietKept()
      ensures !StartsWith(msg.command, "iopanel:") && msg.command == "luastarted" ==>
                files.scriptRunning == old(files.scriptRunning) + {PropertyKey(msg.Get("name"))} &&
                files.scriptNotRunning == old(files.scriptNotRunning) - {PropertyKey(msg.Get("name"))}
      ensures !StartsWith(msg.command, "iopanel:") && msg.command == "luastop" ==>
                files.scriptRunning == old(files.scriptRunning) - {PropertyKey(msg.Get("name"))} &&
                files.scriptNotRunning == old(files.scriptNotRunning) + {PropertyKey(msg.Get("name"))}
      ensures (msg.command != "luastarted" && msg.command != "luastop") || StartsWith(msg.command, "iopanel:") ==>
                files.scriptRunning == old(files.scriptRunning) && files.scriptNotRunning == old(files.scriptNotRunning)
      ensures !StartsWith(msg.command, "iopanel:") && msg.command == "showmarker" ==>
                highlighted == old(highlighted) +
                  Highlights(MarkerNames(msg.Get("markers").value.items), old(FoundAll(sourceMap, editors, hash))) &&
                FoundAll(sourceMap, editors, hash) == old(FoundAll(sourceMap, editors, hash)) &&
                old(CoherentKeys(sourceMap, editors, hash)) <= CoherentKeys(sourceMap, editors, hash)
      ensures !StartsWith(msg.command, "iopanel:") && msg.command == "clearmarker" ==> highlighted == []
      ensures (msg.command != "showmarker" && msg.command != "clearmarker") || StartsWith(msg.command, "iopanel:") ==>
                highlighted == old(highlighted)
      ensures files.sources == old(files.sources) && files.circuit == old(files.circuit)
      ensures sourceMap == old(sourceMap) && reverse == old(reverse)
    {
      ok := true;
      if StartsWith(msg.command, "iopanel:") {
        ok := ProcessIOPanelMessage(msg);
        return;
      }
      match msg.command
      case "updatecircuit" =>
        circuit := msg.Get("circuit");
        dirty := true;
      case "tick" =>
        SetTick(msg.Get("tick"));
      case "luastarted" =>
        files.ScriptStarted(PropertyKey(msg.Get("name")));
      case "luastop" =>
        files.ScriptStopped(PropertyKey(msg.Get("name")));
      case "showmarker" =>
        ShowMarker(msg.Get("markers").value.items, editors, hash);
      case "clearmarker" =>
        ClearMarker();
      case "luaerror" =>
        ok := NamedFile(files.circuit, msg);
      case "luaprint" =>
        ok := NamedFile(files.circuit, msg) && Joinable(msg.Get("messages"));
      case _ =>
    }

    /**
     * `toJSON`: the document saved next to the circuit file. Changes
     * nothing; the circuit file must be known, as the paths are made
     * relative to its directory.
     */
    method ToJSON() returns (j: map<string, Json>)
      requires files.circuit.Some?
      ensures j == Save(files.circuit.value, Doc())
    {
      var rel := files.ToJSON();
      var sm := StoreMapCircuit(files.circuit.value, sourceMap);
      var fs := seq(|rel|, i requires 0 <= i < |rel| => JStr(rel[i]));
      assert fs == FileStrings(DirName(files.circuit.value), files.sources);
      j := map["files" := JArr(fs), "options" := options, "source_map" := sm] + Spread(circuit) + extra;
    }

    /**
     * `loadJSON(json, uri)`: the files are reset to those the document
     * lists, the known properties are read and deleted, what remains is the
     * extra data; then the circuit is announced and shown from tick 0.
     * `ok` is false when reading `files` or `source_map` throws: the
     * document is clean and the files are reset by then, and a source map
     * that throws leaves the options and the circuit already replaced.
     */
    method LoadJSON(json0: map<string, Json>, uri: Option<Path>) returns (ok: bool)
      requires Valid()
      modifies this, files
      ensures Valid()
      ensures ok <==> Loadable(json0, uri)
      ensures ok ==> Doc() == Load(json0, uri, old(Records(sourceMap))).value
      ensures !dirty && files.circuit == uri && files.scriptRunning == {}
      ensures files.sources == if "files" in json0 then LoadedFiles(json0["files"], uri) else []
      ensures files.scriptNotRunning == LuaTags(files.sources) && files.TagsDisjoint()
      ensures ok ==> circuit == Some(JObj(LoadedCircuit(json0)))
      ensures ok && "source_map" in json0 ==> reverse == None
      ensures ok && "source_map" !in json0 ==> sourceMap == old(sourceMap) && reverse == old(reverse)
      ensures ok ==> tick == Some(JNum(0)) && events == old(events) + [CircuitChanged, TickUpdated(Some(JNum(0)))]
      ensures !FilesRead(json0, uri) ==> circuit == old(circuit) && options == old(options)
      ensures FilesRead(json0, uri) && !ok ==>
                circuit == Some(JObj(LoadedCircuit(json0))) &&
                options == if "options" in json0 then json0["options"] else DefaultSynthOptions
      ensures !ok ==> sourceMap == old(sourceMap) && reverse == old(reverse) && extra == old(extra) && QuietKept()
      ensures panel == old(panel) && highlighted == old(highlighted)
    {
      ghost var previous := Records(sourceMap);
      ok := ResetFiles(files, uri, json0);
      dirty := false;
      if !ok {
        return;
      }
      ok := InstallDocument(uri, json0);
      if ok {
        LoadFromParts(json0, uri, previous, Doc());
      }
    }

    /**
     * The end of `loadJSON`: the options and circuit are installed, a
     * loaded source map replaces the old one and drops the reverse map, the
     * extra data is installed; then the change is announced and the circuit
     * shown from tick 0. `ok` is false when loading the source map throws,
     * which leaves the rest as it was.
     */
    method InstallDocument(uri: Option<Path>, json: map<string, Json>) returns (ok: bool)
      requires Valid()
      modifies this
      ensures Valid()
      ensures ok <==> "source_map" !in json || LoadCircuit(uri, json["source_map"]).Some?
      ensures dirty == old(dirty) && options == (if "options" in json then json["options"] else DefaultSynthOptions)
      ensures circuit == Some(JObj(LoadedCircuit(json))) && Spread(circuit) == LoadedCircuit(json)
      ensures ok ==> extra == json - KnownKeys &&
                     Records(sourceMap) == if "source_map" in json then LoadCircuit(uri, json["source_map"]).value
                                           else old(Records(sourceMap))
      ensures ok && "source_map" in json ==> reverse == None
      ensures ok ==> tick == Some(JNum(0)) && events == old(events) + [CircuitChanged, TickUpdated(Some(JNum(0)))]
      ensures "source_map" !in json || !ok ==> sourceMap == old(sourceMap) && reverse == old(reverse)
      ensures !ok ==> extra == old(extra) && QuietKept()
      ensures panel == old(panel) && highlighted == old(highlighted)
    {
      var fileList, opts, c, sm, rest := SplitDocument(json);
      ok := InstallParts(uri, opts, c, sm, rest);
    }

    /** `InstallDocument` on the parts `SplitDocument` read. */
    method InstallParts(uri: Option<Path>, opts: Json, c: map<string, Json>, sm: Option<Json>,
                        rest: map<string, Json>) returns (ok: bool)
      requires Valid()
      modifies this
      ensures Valid()
      ensures ok <==> sm.None? || LoadCircuit(uri, sm.value).Some?
      ensures dirty == old(dirty) && options == opts && circuit == Some(JObj(c)) && Spread(circuit) == c
      ensures ok ==> extra == rest &&
                     Records(sourceMap) == if sm.Some? then LoadCircuit(uri, sm.value).value else old(Records(sourceMap))
      ensures ok && sm.Some? ==> reverse == None
      ensures ok ==> tick == Some(JNum(0)) && events == old(events) + [CircuitChanged, TickUpdated(Some(JNum(0)))]
      ensures sm.None? || !ok ==> sourceMap == old(sourceMap) && reverse == old(reverse)
      ensures !ok ==> extra == old(extra) && QuietKept()
      ensures panel == old(panel) && highlighted == old(highlighted)
    {
      options := opts;
      circuit := Some(JObj(c));
      ok := true;
      if sm.Some? {
        ok := InstallSourceMap(uri, sm.value);
        if !ok {
          return;
        }
      }
      extra := rest;
      events := events + [CircuitChanged];
      SetTick(Some(JNum(0)));
    }

    /** The `source_map` step of `loadJSON`: the loaded map replaces the old one and drops the reverse map. */
    method InstallSourceMap(uri: Option<Path>, sm: Json) returns (ok: bool)
      requires Valid()
      modifies this
      ensures Valid()
      ensures ok <==> LoadCircuit(uri, sm).Some?
      ensures ok ==> Records(sourceMap) == LoadCircuit(uri, sm).value && reverse == None
      ensures !ok ==> sourceMap == old(sourceMap) && reverse == old(reverse)
      ensures dirty == old(dirty) && circuit == old(circuit) && extra == old(extra) && options == old(options)
      ensures QuietKept() && panel == old(panel) && highlighted == old(highlighted)
    {
      var m := LoadMapCircuit(uri, sm);
      if m.None? {
        return false;
      }
      sourceMap := m.value;
      reverse := None;
      ok := true;
    }

    /**
     * `doSynth`: markers are cleared; with nothing to synthesize that is
     * all (`request` is `None`). Otherwise the request holds the text of each
     * source under its key and the options translated for the synthesizer.
     * When `synth` succeeds its output becomes the circuit, the new objects
     * with the hashes of the texts sent become the source map, and the
     * circuit is shown from tick 0; when it fails nothing else changes.
     */
    method DoSynth(read: Path -> string, hash: string -> string, synth: SynthRequest -> Option<Json>)
      returns (request: Option<SynthRequest>)
      requires Valid() && AllFiles(files.sources) && options != JNull
      modifies this
      ensures options == old(options) && extra == old(extra) && panel == old(panel)
      ensures Valid() && highlighted == []
      ensures request.None? <==> NonScripts(files.sources) == []
      ensures request.Some? ==> request.value.options == SynthRequestOptions(options)
      ensures request.Some? ==> forall k :: k in request.value.files <==> k in KeyMap(files.sources, files.circuit)
      ensures request.Some? ==> forall k :: k in request.value.files ==>
                request.value.files[k] == read(KeyMap(files.sources, files.circuit)[k])
      ensures request.None? || synth(request.value).None? ==> DocumentKept() && QuietKept() && reverse == old(reverse)
      ensures request.Some? && synth(request.value).Some? ==>
                circuit == synth(request.value) && dirty && reverse == None &&
                tick == Some(JNum(0)) && events == old(events) + [TickUpdated(Some(JNum(0)))]
      ensures request.Some? && synth(request.value).Some? ==>
                (forall k :: k in sourceMap <==> k in KeyMap(files.sources, files.circuit)) &&
                forall k :: k in sourceMap ==>
                  sourceMap[k].uri == KeyMap(files.sources, files.circuit)[k] &&
                  sourceMap[k].sha512 == Some(JStr(hash(read(sourceMap[k].uri)))) && sourceMap[k].matched == None
    {
      ClearMarker();
      var infos;
      request, infos := PrepareSynth(files.sources, files.circuit, options, read, hash);
      if request.None? {
        return;
      }
      var res := synth(request.value);
      if res.None? {
        return;
      }
      InstallSynth(infos, res.value);
    }

    /**
     * The end of a successful `doSynth`: the new source map and circuit are
     * installed, the reverse map is dropped, the document is dirty and the
     * circuit is shown from tick 0.
     */
    method InstallSynth(infos: map<string, SourceInfo>, output: Json)
      requires Valid() && Unshared(infos)
      modifies this
      ensures Valid()
      ensures sourceMap == infos && reverse == None && circuit == Some(output) && dirty
      ensures tick == Some(JNum(0)) && events == old(events) + [TickUpdated(Some(JNum(0)))]
      ensures extra == old(extra) && options == old(options) && panel == old(panel) && highlighted == old(highlighted)
    {
      sourceMap := infos;
      reverse := None;
      circuit := Some(output);
      dirty := true;
      SetTick(Some(JNum(0)));
    }
  }
}
