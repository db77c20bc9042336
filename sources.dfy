/**
 * `SourceInfo` of src/extension.mjs: a source file of the circuit with the
 * SHA-512 of the text it was synthesized from, the cached result of comparing
 * that hash with an open editor, and the two stored forms of the source map,
 * in the session (absolute URI) and in the circuit document (path relative to
 * the circuit file's directory).
 */
module Sources {

  import opened Wrappers
  import opened Decimal
  import opened JsonValues
  import opened Paths

  /**
   * The stored fields of a `SourceInfo`. `sha512` is absent until the file is
   * hashed; a document may hold any value there, which is kept as it is.
   */
  datatype Record = Record(uri: Path, sha512: Option<Json>)

  /** JavaScript truthiness of a value that may be `undefined`. */
  predicate Present(s: Option<Json>) {
    s.Some? && Truthy(s.value)
  }

  /** `uri.toString()`. */
  function UriString(p: Path): string {
    PathString(p)
  }

  /** `vscode.Uri.parse(s).path` for the strings this extension writes. */
  function ParseUri(s: string): Path {
    Resolve([], s)
  }

  lemma ParseUriString(p: Path)
    ensures ParseUri(UriString(p)) == p
  {
    var segs := Split(Join(p));
    assert Split("/" + Join(p)) == [""] + segs;
    assert Normalize([], [""] + segs) == Normalize([], segs);
    assert RelativeSegments([], p) == p;
    ResolveRelative([], p);
  }

  // ---------------------------------------------------------------------------
  // The session form: `{ uri, sha512 }` with an absolute URI string.

  datatype WorkspaceEntry = WorkspaceEntry(uri: string, sha512: Option<Json>)

  function ToWorkspace(r: Record): (e: WorkspaceEntry)
    ensures e.uri != "" && e.sha512 == r.sha512
  {
    WorkspaceEntry(UriString(r.uri), r.sha512)
  }

  /** `fromWorkspace`: an entry without a URI or without a hash is dropped. */
  function FromWorkspace(e: WorkspaceEntry): (r: Option<Record>)
    ensures r.Some? <==> e.uri != "" && Present(e.sha512)
    ensures r.Some? ==> r.value.sha512 == e.sha512 && r.value.uri == ParseUri(e.uri)
  {
    if e.uri == "" || !Present(e.sha512) then None
    else Some(Record(ParseUri(e.uri), e.sha512))
  }

  /** A record survives the session form exactly when it has a hash. */
  lemma WorkspaceRoundTrip(r: Record)
    ensures FromWorkspace(ToWorkspace(r)) == if Present(r.sha512) then Some(r) else None
  {
    ParseUriString(r.uri);
  }

  // ---------------------------------------------------------------------------
  // The document form: `{ relpath, sha512 }` relative to the circuit's directory.

  /** `toCircuit(dir)`; an absent hash is not written out. */
  function ToCircuit(dir: Path, r: Record): (j: Json)
    ensures j.JObj? && Field(j, "relpath") == Some(JStr(Relative(dir, r.uri)))
    ensures Field(j, "sha512") == r.sha512
  {
    var rel := map["relpath" := JStr(Relative(dir, r.uri))];
    JObj(if r.sha512.Some? then rel["sha512" := r.sha512.value] else rel)
  }

  /** What `fromCircuit` does with one entry: drops it, reads it, or throws. */
  datatype Outcome = Dropped | Read(info: Record) | Threw

  /** Both properties `fromCircuit` tests are truthy. */
  predicate Named(e: Json) {
    Present(Field(e, "relpath")) && Present(Field(e, "sha512"))
  }

  /**
   * `fromCircuit(circuit, e)`: an entry without a path or without a hash is
   * dropped. Reading a property of `null` throws, and so does `joinPath` when
   * the path is not a string or there is no circuit file to resolve it against.
   */
  function FromCircuit(circuit: Option<Path>, e: Json): (r: Outcome)
    ensures r.Threw? <==> e == JNull || (Named(e) && (!Field(e, "relpath").value.JStr? || circuit.None?))
    ensures r.Dropped? <==> e != JNull && !Named(e)
    ensures r.Read? ==> r.info.sha512 == Field(e, "sha512") && Present(r.info.sha512) &&
                        r.info.uri == Resolve(DirName(circuit.value), Field(e, "relpath").value.s)
  {
    if e == JNull then Threw
    else if !Named(e) then Dropped
    else
      var rel := Field(e, "relpath").value;
      if !rel.JStr? || circuit.None? then Threw
      else Read(Record(Resolve(DirName(circuit.value), rel.s), Field(e, "sha512")))
  }

  /**
   * A record survives the document form exactly when it has a hash and is not
   * the circuit's directory itself (whose relative path "" reads as absent).
   */
  lemma CircuitRoundTrip(circuit: Path, r: Record)
    ensures FromCircuit(Some(circuit), ToCircuit(DirName(circuit), r)) ==
            if Present(r.sha512) && r.uri != DirName(circuit) then Read(r) else Dropped
  {
    var dir := DirName(circuit);
    RelativeEmpty(dir, r.uri);
    ResolveRelative(dir, r.uri);
  }

  // ---------------------------------------------------------------------------
  // Whole source maps.

  function StoreWorkspace(m: map<string, Record>): (s: map<string, WorkspaceEntry>)
    ensures s.Keys == m.Keys
  {
    map k | k in m :: ToWorkspace(m[k])
  }

  /** `loadMapWorkspace`: nothing stored gives the empty map; unreadable entries are dropped. */
  function LoadWorkspace(storage: Option<map<string, WorkspaceEntry>>): (m: map<string, Record>)
    ensures storage.None? ==> m == map[]
    ensures storage.Some? ==> forall k :: k in m <==> k in storage.value && FromWorkspace(storage.value[k]).Some?
    ensures forall k :: k in m ==> Some(m[k]) == FromWorkspace(storage.value[k])
  {
    if storage.None? then map[]
    else map k | k in storage.value && FromWorkspace(storage.value[k]).Some? :: FromWorkspace(storage.value[k]).value
  }

  /** Storing and reloading in the session keeps exactly the hashed records. */
  lemma LoadStoreWorkspace(m: map<string, Record>)
    ensures LoadWorkspace(Some(StoreWorkspace(m))) == map k | k in m && Present(m[k].sha512) :: m[k]
  {
    forall k | k in m {
      WorkspaceRoundTrip(m[k]);
    }
  }

  function StoreCircuit(circuit: Path, m: map<string, Record>): (j: Json)
    ensures j.JObj? && j.fields.Keys == m.Keys
  {
    JObj(map k | k in m :: ToCircuit(DirName(circuit), m[k]))
  }

  /** The entries an array's `for ... in` visits and reads, keyed "0", "1", ... */
  function IndexedEntries(circuit: Option<Path>, items: seq<Json>): (m: map<string, Record>)
    decreases |items|
  {
    if items == [] then map[]
    else
      var n := |items| - 1;
      var init := IndexedEntries(circuit, items[..n]);
      var o := FromCircuit(circuit, items[n]);
      if o.Read? then init[NatToString(n) := o.info] else init
  }

  /** No key at or past the array's length. */
  lemma {:induction false} IndexedEntriesBound(circuit: Option<Path>, items: seq<Json>, n: nat)
    requires |items| <= n
    ensures NatToString(n) !in IndexedEntries(circuit, items)
    decreases |items|
  {
    if items != [] {
      var last := |items| - 1;
      IndexedEntriesBound(circuit, items[..last], n);
      if NatToString(n) == NatToString(last) {
        NatToStringInjective(n, last);
      }
    }
  }

  /** Every key is the index of an item. */
  lemma {:induction false} IndexedEntriesKeys(circuit: Option<Path>, items: seq<Json>, k: string)
    requires k in IndexedEntries(circuit, items)
    ensures exists i :: 0 <= i < |items| && k == NatToString(i)
    decreases |items|
  {
    var last := |items| - 1;
    if k != NatToString(last) {
      IndexedEntriesKeys(circuit, items[..last], k);
      var i :| 0 <= i < last && k == NatToString(i);
      assert 0 <= i < |items| && k == NatToString(i);
    }
  }

  /** Item `i` of an array, when read, is found under the key `String(i)`. */
  lemma {:induction false} IndexedEntriesAt(circuit: Option<Path>, items: seq<Json>, i: nat)
    requires i < |items|
    ensures NatToString(i) in IndexedEntries(circuit, items) <==> FromCircuit(circuit, items[i]).Read?
    ensures NatToString(i) in IndexedEntries(circuit, items) ==>
              Read(IndexedEntries(circuit, items)[NatToString(i)]) == FromCircuit(circuit, items[i])
    decreases |items|
  {
    var n := |items| - 1;
    var init := items[..n];
    var o := FromCircuit(circuit, items[n]);
    assert IndexedEntries(circuit, items) ==
           if o.Read? then IndexedEntries(circuit, init)[NatToString(n) := o.info]
           else IndexedEntries(circuit, init);
    if i < n {
      IndexedEntriesAt(circuit, init, i);
      assert init[i] == items[i];
      if NatToString(i) == NatToString(n) {
        NatToStringInjective(i, n);
      }
    } else {
      IndexedEntriesBound(circuit, init, n);
    }
  }

  /** Some entry `loadMapCircuit` visits throws: an object's values, an array's items. */
  predicate Throws(circuit: Option<Path>, j: Json) {
    match j
    case JObj(f) => exists k :: k in f && FromCircuit(circuit, f[k]).Threw?
    case JArr(items) => exists i :: 0 <= i < |items| && FromCircuit(circuit, items[i]).Threw?
    case _ => false
  }

  /**
   * `loadMapCircuit`: `None` when an entry throws. Otherwise a falsy value
   * gives the empty map, an object's (or an array's) read entries keep their
   * keys, and any other value has no entries.
   */
  function LoadCircuit(circuit: Option<Path>, j: Json): (m: Option<map<string, Record>>)
    ensures m.None? <==> Throws(circuit, j)
    ensures m.Some? && j.JObj? ==> forall k :: k in m.value <==> k in j.fields && FromCircuit(circuit, j.fields[k]).Read?
    ensures m.Some? && j.JObj? ==> forall k :: k in m.value ==> Read(m.value[k]) == FromCircuit(circuit, j.fields[k])
    ensures m.Some? && j.JArr? ==> forall i :: 0 <= i < |j.items| ==>
              (NatToString(i) in m.value <==> FromCircuit(circuit, j.items[i]).Read?)
    ensures !j.JObj? && !j.JArr? ==> m == Some(map[])
  {
    if Throws(circuit, j) then None
    else
      match j
      case JObj(f) => Some(map k | k in f && FromCircuit(circuit, f[k]).Read? :: FromCircuit(circuit, f[k]).info)
      case JArr(items) =>
        forall i | 0 <= i < |items| ensures NatToString(i) in IndexedEntries(circuit, items) <==> FromCircuit(circuit, items[i]).Read? {
          IndexedEntriesAt(circuit, items, i);
        }
        Some(IndexedEntries(circuit, items))
      case _ => Some(map[])
  }

  /** One entry of a saved source map, read back. */
  lemma StoredEntry(circuit: Path, m: map<string, Record>, k: string)
    requires k in m
    ensures FromCircuit(Some(circuit), StoreCircuit(circuit, m).fields[k]) ==
            if Present(m[k].sha512) && m[k].uri != DirName(circuit) then Read(m[k]) else Dropped
  {
    CircuitRoundTrip(circuit, m[k]);
  }

  /** Saving the source map into a document and loading it back keeps the hashed records. */
  lemma LoadStoreCircuit(circuit: Path, m: map<string, Record>)
    ensures LoadCircuit(Some(circuit), StoreCircuit(circuit, m)).Some?
    ensures forall k :: k in LoadCircuit(Some(circuit), StoreCircuit(circuit, m)).value <==>
                          k in m && Present(m[k].sha512) && m[k].uri != DirName(circuit)
    ensures forall k :: k in LoadCircuit(Some(circuit), StoreCircuit(circuit, m)).value ==>
                          LoadCircuit(Some(circuit), StoreCircuit(circuit, m)).value[k] == m[k]
  {
    forall k | k in m {
      StoredEntry(circuit, m, k);
    }
  }

  // ---------------------------------------------------------------------------
  // The live objects.

  /** A visible text editor: its identity, its document's URI and current text. */
  datatype Editor = Editor(id: nat, uri: Path, text: string)

  /** `visibleTextEditors.find(...)`: the first editor showing `uri`. */
  function FirstEditor(editors: seq<Editor>, uri: Path): (r: Option<Editor>)
    ensures r.None? <==> forall i :: 0 <= i < |editors| ==> editors[i].uri != uri
    ensures r.Some? ==> exists i :: 0 <= i < |editors| && editors[i] == r.value &&
                                    r.value.uri == uri && forall j :: 0 <= j < i ==> editors[j].uri != uri
  {
    if editors == [] then None
    else if editors[0].uri == uri then Some(editors[0])
    else
      var r := FirstEditor(editors[1..], uri);
      if r.Some? then
        ghost var i :| 0 <= i < |editors[1..]| && editors[1..][i] == r.value &&
                       r.value.uri == uri && forall j :: 0 <= j < i ==> editors[1..][j].uri != uri;
        assert editors[i + 1] == r.value;
        r
      else r
  }

  class SourceInfo {
    const uri: Path
    const sha512: Option<Json>
    /** `match`: whether the hash agreed with the editor's text; `None` is `undefined`. */
    var matched: Option<bool>

    constructor (uri: Path, sha512: Option<Json>)
      ensures this.uri == uri && this.sha512 == sha512 && matched == None
    {
      this.uri := uri;
      this.sha512 := sha512;
      matched := None;
    }

    function Info(): Record {
      Record(uri, sha512)
    }

    /** The stored hash `==` that of the text `e` currently shows. */
    predicate HashMatches(e: Editor, hash: string -> string) {
      LooseEquals(sha512, Some(JStr(hash(e.text))))
    }

    /** A cached comparison agrees with the text the file's first editor shows. */
    ghost predicate Coherent(editors: seq<Editor>, hash: string -> string)
      reads this
    {
      matched.Some? && FirstEditor(editors, uri).Some? ==>
        matched.value == HashMatches(FirstEditor(editors, uri).value, hash)
    }

    /**
     * `findEditor`: the first editor showing this file if its text has the
     * stored hash. The comparison is made once and cached; a cached answer is
     * reused until it is cleared.
     */
    method FindEditor(editors: seq<Editor>, hash: string -> string) returns (e: Option<Editor>)
      modifies this
      ensures FirstEditor(editors, uri).None? ==> e.None? && matched == old(matched)
      ensures FirstEditor(editors, uri).Some? ==>
                matched == Some(if old(matched).Some? then old(matched).value
                                else HashMatches(FirstEditor(editors, uri).value, hash))
      ensures e.Some? <==> FirstEditor(editors, uri).Some? && matched == Some(true)
      ensures e.Some? ==> e == FirstEditor(editors, uri)
      ensures old(Coherent(editors, hash)) ==> Coherent(editors, hash)
      ensures old(Coherent(editors, hash)) ==>
                (e.Some? <==> FirstEditor(editors, uri).Some? && HashMatches(FirstEditor(editors, uri).value, hash))
    {
      var editor := FirstEditor(editors, uri);
      if editor.None? {
        return None;
      }
      if matched.None? {
        matched := Some(HashMatches(editor.value, hash));
      }
      e := if matched.value then editor else None;
    }
  }

  /** The records behind a map of live objects. */
  function Records(m: map<string, SourceInfo>): (r: map<string, Record>)
    ensures r.Keys == m.Keys
  {
    map k | k in m :: m[k].Info()
  }

  /** Different keys hold different objects. */
  ghost predicate Unshared(m: map<string, SourceInfo>) {
    forall k1, k2 :: k1 in m && k2 in m && k1 != k2 ==> m[k1] != m[k2]
  }

  /** `storeMapWorkspace`: the session form of every entry. */
  method StoreMapWorkspace(m: map<string, SourceInfo>) returns (r: map<string, WorkspaceEntry>)
    ensures r == StoreWorkspace(Records(m))
  {
    r := MapValues(Records(m), ToWorkspace);
  }

  /** `storeMapCircuit`: the document form of every entry, relative to the circuit's directory. */
  method StoreMapCircuit(circuit: Path, m: map<string, SourceInfo>) returns (r: Json)
    ensures r == StoreCircuit(circuit, Records(m))
  {
    var dir := DirName(circuit);
    var fields := MapValues(Records(m), (e: Record) => ToCircuit(dir, e));
    r := JObj(fields);
  }

  /** The `for ... in` loop of the store functions: every entry converted, under its key. */
  method MapValues<V, W>(m: map<string, V>, f: V -> W) returns (r: map<string, W>)
    ensures r == map k | k in m :: f(m[k])
  {
    r := map[];
    var todo := m.Keys;
    while todo != {}
      invariant todo <= m.Keys
      invariant r.Keys == m.Keys - todo
      invariant forall k :: k in r ==> r[k] == f(m[k])
      decreases |todo|
    {
      var k :| k in todo;
      r := r[k := f(m[k])];
      todo := todo - {k};
    }
  }

  /** `loadMapWorkspace`: a new object, with nothing cached, per readable entry. */
  method LoadMapWorkspace(storage: Option<map<string, WorkspaceEntry>>) returns (r: map<string, SourceInfo>)
    ensures Records(r) == LoadWorkspace(storage)
    ensures forall k :: k in r ==> fresh(r[k]) && r[k].matched == None
    ensures Unshared(r)
  {
    r := map[];
    if storage.None? {
      return;
    }
    var s := storage.value;
    var todo := s.Keys;
    while todo != {}
      invariant todo <= s.Keys
      invariant forall k :: k in r <==> k in s.Keys - todo && FromWorkspace(s[k]).Some?
      invariant forall k :: k in r ==> Some(r[k].Info()) == FromWorkspace(s[k])
      invariant forall k :: k in r ==> fresh(r[k]) && r[k].matched == None
      invariant Unshared(r)
      decreases |todo|
    {
      var k :| k in todo;
      var info := FromWorkspace(s[k]);
      if info.Some? {
        var obj := new SourceInfo(info.value.uri, info.value.sha512);
        r := r[k := obj];
      }
      todo := todo - {k};
    }
  }

  /**
   * The `for ... in` over an object's entries in `loadMapCircuit`; `None`
   * when the entry it reaches throws.
   */
  method LoadObjectEntries(circuit: Option<Path>, f: map<string, Json>) returns (r: Option<map<string, SourceInfo>>)
    ensures r.None? <==> Throws(circuit, JObj(f))
    ensures r.Some? ==> Records(r.value) == LoadCircuit(circuit, JObj(f)).value
    ensures r.Some? ==> forall k :: k in r.value ==> fresh(r.value[k]) && r.value[k].matched == None
    ensures r.Some? ==> Unshared(r.value)
  {
    var out: map<string, SourceInfo> := map[];
    var todo := f.Keys;
    while todo != {}
      invariant todo <= f.Keys
      invariant forall k :: k in f.Keys - todo ==> !FromCircuit(circuit, f[k]).Threw?
      invariant forall k :: k in out <==> k in f.Keys - todo && FromCircuit(circuit, f[k]).Read?
      invariant forall k :: k in out ==> Read(out[k].Info()) == FromCircuit(circuit, f[k])
      invariant forall k :: k in out ==> fresh(out[k]) && out[k].matched == None
      invariant Unshared(out)
      decreases |todo|
    {
      var k :| k in todo;
      var info := FromCircuit(circuit, f[k]);
      if info.Threw? {
        return None;
      }
      if info.Read? {
        var obj := new SourceInfo(info.info.uri, info.info.sha512);
        out := out[k := obj];
      }
      todo := todo - {k};
    }
    ObjectRecords(circuit, f, out);
    r := Some(out);
  }

  /** Entries read pointwise, with none throwing, are what `loadMapCircuit` returns for an object. */
  lemma ObjectRecords(circuit: Option<Path>, f: map<string, Json>, out: map<string, SourceInfo>)
    requires forall k :: k in f ==> !FromCircuit(circuit, f[k]).Threw?
    requires forall k :: k in out <==> k in f && FromCircuit(circuit, f[k]).Read?
    requires forall k :: k in out ==> Read(out[k].Info()) == FromCircuit(circuit, f[k])
    ensures Records(out) == LoadCircuit(circuit, JObj(f)).value
  {
  }

  /**
   * The `for ... in` over an array's indices in `loadMapCircuit`; `None`
   * when the item it reaches throws.
   */
  method LoadArrayEntries(circuit: Option<Path>, items: seq<Json>) returns (r: Option<map<string, SourceInfo>>)
    ensures r.None? <==> Throws(circuit, JArr(items))
    ensures r.Some? ==> Records(r.value) == IndexedEntries(circuit, items)
    ensures r.Some? ==> forall k :: k in r.value ==> fresh(r.value[k]) && r.value[k].matched == None
    ensures r.Some? ==> Unshared(r.value)
  {
    var out: map<string, SourceInfo> := map[];
    for i := 0 to |items|
      invariant !Throws(circuit, JArr(items[..i]))
      invariant Records(out) == IndexedEntries(circuit, items[..i])
      invariant forall k :: k in out ==> fresh(out[k]) && out[k].matched == None
      invariant Unshared(out)
    {
      var info := FromCircuit(circuit, items[i]);
      if info.Threw? {
        return None;
      }
      IndexedEntriesStep(circuit, items, i);
      ThrowsStep(circuit, items, i);
      if info.Read? {
        out := AddEntry(out, NatToString(i), info.info);
      }
    }
    assert items[..|items|] == items;
    r := Some(out);
  }

  /** One more item of the array adds its record under its index when it reads. */
  lemma IndexedEntriesStep(circuit: Option<Path>, items: seq<Json>, i: nat)
    requires i < |items|
    ensures IndexedEntries(circuit, items[..i + 1]) ==
            if FromCircuit(circuit, items[i]).Read? then IndexedEntries(circuit, items[..i])[NatToString(i) := FromCircuit(circuit, items[i]).info]
            else IndexedEntries(circuit, items[..i])
  {
    assert items[..i + 1][..i] == items[..i];
  }

  /** The prefix read so far still throws nowhere after one more item that does not throw. */
  lemma ThrowsStep(circuit: Option<Path>, items: seq<Json>, i: nat)
    requires i < |items| && !Throws(circuit, JArr(items[..i])) && !FromCircuit(circuit, items[i]).Threw?
    ensures !Throws(circuit, JArr(items[..i + 1]))
  {
    assert forall j :: 0 <= j < i ==> items[..i + 1][j] == items[..i][j];
  }

  /** A new object for `rec`, with nothing cached, stored under `key`. */
  method AddEntry(out: map<string, SourceInfo>, key: string, rec: Record) returns (next: map<string, SourceInfo>)
    requires Unshared(out)
    ensures key in next && next == out[key := next[key]]
    ensures fresh(next[key]) && next[key].matched == None && next[key].Info() == rec
    ensures Records(next) == Records(out)[key := rec]
    ensures Unshared(next)
  {
    var obj := new SourceInfo(rec.uri, rec.sha512);
    next := out[key := obj];
  }

  /**
   * `loadMapCircuit`: a new object, with nothing cached, per entry read from
   * the document; `None` when an entry throws.
   */
  method LoadMapCircuit(circuit: Option<Path>, j: Json) returns (r: Option<map<string, SourceInfo>>)
    ensures r.None? <==> LoadCircuit(circuit, j).None?
    ensures r.Some? ==> Records(r.value) == LoadCircuit(circuit, j).value
    ensures r.Some? ==> forall k :: k in r.value ==> fresh(r.value[k]) && r.value[k].matched == None
    ensures r.Some? ==> Unshared(r.value)
  {
    match j {
      case JObj(f) => r := LoadObjectEntries(circuit, f);
      case JArr(items) => r := LoadArrayEntries(circuit, items);
      case _ => r := Some(map[]);
    }
  }
}
