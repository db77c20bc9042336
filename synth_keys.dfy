/**
 * The key map `createSourceMapForSynth` of src/extension.mjs builds before a
 * synthesis run: every tracked non-Lua source gets a string key under which
 * its text is handed to the synthesizer.
 */
module SynthKeys {

  import opened Wrappers
  import opened Paths

  /** The tracked sources that take part in synthesis: everything but Lua scripts, in order. */
  function NonScripts(sources: seq<Path>): (r: seq<Path>)
    ensures |r| <= |sources|
  {
    if sources == [] then []
    else
      var last := sources[|sources| - 1];
      NonScripts(sources[..|sources| - 1]) + (if IsLua(last) then [] else [last])
  }

  /** The files of `files` whose base name is `b`, in order (one entry of `basenames_map`). */
  function SameBaseName(files: seq<Path>, b: string): (r: seq<Path>)
    ensures |r| <= |files|
  {
    if files == [] then []
    else
      var last := files[|files| - 1];
      SameBaseName(files[..|files| - 1], b) + (if BaseName(last) == b then [last] else [])
  }

  /** Exactly the non-Lua sources take part in synthesis. */
  lemma {:induction false} NonScriptsMember(sources: seq<Path>, f: Path)
    ensures f in NonScripts(sources) <==> f in sources && !IsLua(f)
    decreases |sources|
  {
    if sources != [] {
      var init := sources[..|sources| - 1];
      NonScriptsMember(init, f);
      assert sources == init + [sources[|sources| - 1]];
    }
  }

  /** A group holds exactly the files with its base name. */
  lemma {:induction false} SameBaseNameMember(files: seq<Path>, b: string, f: Path)
    ensures f in SameBaseName(files, b) <==> f in files && BaseName(f) == b
    decreases |files|
  {
    if files != [] {
      var init := files[..|files| - 1];
      SameBaseNameMember(init, b, f);
      assert files == init + [files[|files| - 1]];
    }
  }

  /** Every file has a path below the root: a source is a file, never `/`. */
  predicate AllFiles(sources: seq<Path>) {
    forall i :: 0 <= i < |sources| ==> sources[i] != []
  }

  /**
   * The key of file `f`: its base name when no other synthesized file shares it,
   * otherwise its path relative to the circuit file's directory, or its absolute
   * path when there is no circuit file.
   */
  function SynthKey(files: seq<Path>, circuit: Option<Path>, f: Path): string {
    if |SameBaseName(files, BaseName(f))| == 1 then BaseName(f) else FallbackKey(circuit, f)
  }

  /** The key of a file whose base name is shared. */
  function FallbackKey(circuit: Option<Path>, f: Path): string {
    if circuit.Some? then Relative(DirName(circuit.value), f) else PathString(f)
  }

  lemma SingletonGroup(files: seq<Path>, f: Path, g: Path)
    requires f in files && g in files && BaseName(f) == BaseName(g)
    requires |SameBaseName(files, BaseName(f))| == 1
    ensures f == g
  {
    var grp := SameBaseName(files, BaseName(f));
    SameBaseNameMember(files, BaseName(f), f);
    SameBaseNameMember(files, BaseName(f), g);
    assert f in grp && g in grp;
  }

  /** A key taken from a unique base name cannot coincide with the fallback key of a shared one. */
  lemma {:induction false} BaseNameNotFallback(files: seq<Path>, circuit: Option<Path>, f: Path, g: Path)
    requires f in files && g in files && g != []
    requires |SameBaseName(files, BaseName(f))| != 1
    requires |SameBaseName(files, BaseName(g))| == 1
    ensures SynthKey(files, circuit, f) != BaseName(g)
  {
    var b := BaseName(g);
    assert IsName(g[|g| - 1]);
    assert IsName(b);
    if circuit.Some? {
      var dir := DirName(circuit.value);
      if Relative(dir, f) == b {
        ResolveRelative(dir, f);
        ResolveName(dir, b);
      }
    } else {
      assert PathString(f)[0] == '/';
      assert '/' !in b;
    }
  }

  /** Distinct synthesized files get distinct keys, so no entry of the key map is overwritten. */
  lemma {:induction false} SynthKeyInjective(files: seq<Path>, circuit: Option<Path>, f: Path, g: Path)
    requires AllFiles(files)
    requires f in files && g in files
    requires SynthKey(files, circuit, f) == SynthKey(files, circuit, g)
    ensures f == g
  {
    var uf := |SameBaseName(files, BaseName(f))| == 1;
    var ug := |SameBaseName(files, BaseName(g))| == 1;
    if uf && ug {
      SingletonGroup(files, f, g);
    } else if ug {
      BaseNameNotFallback(files, circuit, f, g);
    } else if uf {
      BaseNameNotFallback(files, circuit, g, f);
    } else if circuit.Some? {
      RelativeInjective(DirName(circuit.value), f, g);
    } else {
      PathStringInjective(f, g);
    }
  }

  lemma NonScriptsFiles(sources: seq<Path>)
    requires AllFiles(sources)
    ensures AllFiles(NonScripts(sources))
  {
    var ns := NonScripts(sources);
    forall i | 0 <= i < |ns| ensures ns[i] != [] {
      NonScriptsMember(sources, ns[i]);
    }
  }

  lemma {:induction false} NonScriptsSnoc(s: seq<Path>, x: Path)
    ensures NonScripts(s + [x]) == NonScripts(s) + (if IsLua(x) then [] else [x])
  {
    assert (s + [x])[..|s + [x]| - 1] == s;
  }

  lemma {:induction false} SameBaseNameSnoc(s: seq<Path>, x: Path, b: string)
    ensures SameBaseName(s + [x], b) == SameBaseName(s, b) + (if BaseName(x) == b then [x] else [])
  {
    assert (s + [x])[..|s + [x]| - 1] == s;
  }

  /** `groups` is `basenames_map` for the synthesized files `ns`. */
  ghost predicate Grouped(ns: seq<Path>, groups: map<string, seq<Path>>) {
    forall b :: (b in groups <==> SameBaseName(ns, b) != []) && (b in groups ==> groups[b] == SameBaseName(ns, b))
  }

  /** `basenames_map` after one more file: pushed onto its group, which is created if missing. */
  function Push(groups: map<string, seq<Path>>, file: Path): map<string, seq<Path>> {
    var key := BaseName(file);
    groups[key := (if key in groups then groups[key] else []) + [file]]
  }

  lemma GroupStep(seen: seq<Path>, groups: map<string, seq<Path>>, file: Path)
    requires Grouped(seen, groups)
    ensures Grouped(seen + [file], Push(groups, file))
  {
    var pushed := Push(groups, file);
    forall b
      ensures (b in pushed <==> SameBaseName(seen + [file], b) != []) &&
              (b in pushed ==> pushed[b] == SameBaseName(seen + [file], b))
    {
      SameBaseNameSnoc(seen, file, b);
    }
  }

  /** `basenames_map`: the non-script files of `sources` grouped by base name. */
  method GroupByBaseName(sources: seq<Path>) returns (groups: map<string, seq<Path>>)
    ensures Grouped(NonScripts(sources), groups)
  {
    groups := map[];
    ghost var seen: seq<Path> := [];
    for i := 0 to |sources|
      invariant seen == NonScripts(sources[..i])
      invariant Grouped(seen, groups)
    {
      var file := sources[i];
      assert sources[..i + 1] == sources[..i] + [file];
      NonScriptsSnoc(sources[..i], file);
      if !IsLua(file) {
        var key := BaseName(file);
        GroupStep(seen, groups, file);
        if key !in groups {
          assert [] + [file] == [file];
          groups := groups[key := [file]];
        } else {
          groups := groups[key := groups[key] + [file]];
        }
        seen := seen + [file];
      } else {
        assert seen + [] == seen;
      }
    }
    assert sources[..|sources|] == sources;
  }

  /** Every entry of `out` is a synthesized file stored under its own key. */
  ghost predicate Entries(ns: seq<Path>, circuit: Option<Path>, out: map<string, Path>) {
    forall k :: k in out ==> out[k] in ns && SynthKey(ns, circuit, out[k]) == k
  }

  /** Storing a file under its key never overwrites an entry for another file. */
  lemma InsertKey(ns: seq<Path>, circuit: Option<Path>, out: map<string, Path>, f: Path)
    requires AllFiles(ns) && f in ns && Entries(ns, circuit, out)
    ensures Entries(ns, circuit, out[SynthKey(ns, circuit, f) := f])
    ensures forall k :: k in out ==> out[k] == out[SynthKey(ns, circuit, f) := f][k]
  {
    var key := SynthKey(ns, circuit, f);
    if key in out {
      SynthKeyInjective(ns, circuit, out[key], f);
    }
  }

  /** File `f` is stored under its key. */
  ghost predicate Stored(ns: seq<Path>, circuit: Option<Path>, out: map<string, Path>, f: Path) {
    SynthKey(ns, circuit, f) in out && out[SynthKey(ns, circuit, f)] == f
  }

  /** `out` keeps every entry of `out0`, and what it adds has base name `b`. */
  ghost predicate GrowsBy(out0: map<string, Path>, out: map<string, Path>, b: string) {
    forall k :: (k in out0 ==> k in out && out[k] == out0[k]) && (k in out && k !in out0 ==> BaseName(out[k]) == b)
  }

  lemma SharedStep(ns: seq<Path>, circuit: Option<Path>, b: string, out0: map<string, Path>,
                   out: map<string, Path>, file: Path)
    requires AllFiles(ns) && file in ns && BaseName(file) == b
    requires Entries(ns, circuit, out) && GrowsBy(out0, out, b)
    ensures Entries(ns, circuit, out[SynthKey(ns, circuit, file) := file])
    ensures GrowsBy(out0, out[SynthKey(ns, circuit, file) := file], b)
    ensures Stored(ns, circuit, out[SynthKey(ns, circuit, file) := file], file)
    ensures forall f :: Stored(ns, circuit, out, f) ==> Stored(ns, circuit, out[SynthKey(ns, circuit, file) := file], f)
  {
    InsertKey(ns, circuit, out, file);
  }

  /** Adds the entries of one group `files` that shares base name `b`: each file under its fallback key. */
  method KeyShared(ns: seq<Path>, circuit: Option<Path>, b: string, files: seq<Path>, out0: map<string, Path>)
    returns (out: map<string, Path>)
    requires AllFiles(ns)
    requires files == SameBaseName(ns, b) && |files| != 1
    requires Entries(ns, circuit, out0)
    ensures Entries(ns, circuit, out) && GrowsBy(out0, out, b)
    ensures forall f :: f in files ==> Stored(ns, circuit, out, f)
  {
    out := out0;
    for j := 0 to |files|
      invariant Entries(ns, circuit, out) && GrowsBy(out0, out, b)
      invariant forall jj :: 0 <= jj < j ==> Stored(ns, circuit, out, files[jj])
    {
      var file := files[j];
      var name := FallbackKey(circuit, file);
      SameBaseNameMember(ns, b, file);
      assert name == SynthKey(ns, circuit, file);
      SharedStep(ns, circuit, b, out0, out, file);
      out := out[name := file];
    }
  }

  /** The file of a singleton group `b` is the group's only file, keyed by `b`. */
  lemma SingleKey(ns: seq<Path>, circuit: Option<Path>, b: string, f: Path)
    requires |SameBaseName(ns, b)| == 1 && f in ns && BaseName(f) == b
    ensures SynthKey(ns, circuit, f) == b && f == SameBaseName(ns, b)[0]
  {
    SameBaseNameMember(ns, b, f);
    assert f in SameBaseName(ns, b);
  }

  /** The singleton file of group `b` is stored under `b` without losing any entry. */
  lemma KeySingle(ns: seq<Path>, circuit: Option<Path>, b: string, out: map<string, Path>)
    requires AllFiles(ns) && |SameBaseName(ns, b)| == 1 && Entries(ns, circuit, out)
    ensures Entries(ns, circuit, out[b := SameBaseName(ns, b)[0]])
    ensures GrowsBy(out, out[b := SameBaseName(ns, b)[0]], b)
    ensures forall f :: f in ns && BaseName(f) == b ==> Stored(ns, circuit, out[b := SameBaseName(ns, b)[0]], f)
  {
    var file := SameBaseName(ns, b)[0];
    assert file in SameBaseName(ns, b);
    SameBaseNameMember(ns, b, file);
    SingleKey(ns, circuit, b, file);
    InsertKey(ns, circuit, out, file);
    forall f | f in ns && BaseName(f) == b ensures f == file {
      SingleKey(ns, circuit, b, f);
    }
  }

  /** The invariant of the loop over `basenames_map`: the groups outside `todo` are keyed. */
  ghost predicate Keyed(ns: seq<Path>, circuit: Option<Path>, groups: map<string, seq<Path>>,
                        todo: set<string>, out: map<string, Path>) {
    && Entries(ns, circuit, out)
    && (forall k :: k in out ==> BaseName(out[k]) !in todo)
    && (forall f :: f in ns && BaseName(f) in groups && BaseName(f) !in todo ==> Stored(ns, circuit, out, f))
  }

  lemma AfterGroup(ns: seq<Path>, circuit: Option<Path>, groups: map<string, seq<Path>>,
                   todo: set<string>, b: string, before: map<string, Path>, out: map<string, Path>)
    requires b in todo && Keyed(ns, circuit, groups, todo, before)
    requires Entries(ns, circuit, out) && GrowsBy(before, out, b)
    requires forall f :: f in ns && BaseName(f) == b ==> Stored(ns, circuit, out, f)
    ensures Keyed(ns, circuit, groups, todo - {b}, out)
  {
    forall f | f in ns && BaseName(f) in groups && BaseName(f) !in todo - {b}
      ensures Stored(ns, circuit, out, f)
    {
      if BaseName(f) != b {
        assert Stored(ns, circuit, before, f);
      }
    }
  }

  /** The loop over `basenames_map` that assigns the keys group by group. */
  method KeyGroups(ns: seq<Path>, circuit: Option<Path>, groups: map<string, seq<Path>>)
    returns (out: map<string, Path>)
    requires AllFiles(ns) && Grouped(ns, groups)
    ensures Entries(ns, circuit, out)
    ensures forall f :: f in ns ==> Stored(ns, circuit, out, f)
  {
    out := map[];
    var todo := groups.Keys;
    while todo != {}
      invariant todo <= groups.Keys
      invariant Keyed(ns, circuit, groups, todo, out)
      decreases |todo|
    {
      var b :| b in todo;
      var files := groups[b];
      ghost var before := out;
      if |files| == 1 {
        KeySingle(ns, circuit, b, out);
        out := out[b := files[0]];
      } else {
        out := KeyShared(ns, circuit, b, files, out);
        forall f | f in ns && BaseName(f) == b ensures Stored(ns, circuit, out, f) {
          SameBaseNameMember(ns, b, f);
        }
      }
      AfterGroup(ns, circuit, groups, todo, b, before, out);
      todo := todo - {b};
    }
    forall f | f in ns ensures Stored(ns, circuit, out, f) {
      SameBaseNameMember(ns, BaseName(f), f);
    }
  }

  /**
   * A key map for the tracked `sources` under circuit file `circuit`: `None` when
   * no non-script source is tracked; otherwise every non-script file appears once,
   * under its `SynthKey`, and nothing else appears.
   */
  method CreateSourceMapForSynth(sources: seq<Path>, circuit: Option<Path>)
    returns (r: Option<map<string, Path>>)
    requires AllFiles(sources)
    ensures r.None? <==> NonScripts(sources) == []
    ensures r.Some? ==> forall f :: f in NonScripts(sources) ==>
              SynthKey(NonScripts(sources), circuit, f) in r.value &&
              r.value[SynthKey(NonScripts(sources), circuit, f)] == f
    ensures r.Some? ==> forall k :: k in r.value ==>
              r.value[k] in NonScripts(sources) &&
              SynthKey(NonScripts(sources), circuit, r.value[k]) == k
  {
    var ns := NonScripts(sources);
    NonScriptsFiles(sources);
    var groups := GroupByBaseName(sources);
    if groups == map[] {
      if ns != [] {
        SameBaseNameMember(ns, BaseName(ns[0]), ns[0]);
      }
      return None;
    }
    assert ns != [] by {
      var b :| b in groups;
    }
    var out := KeyGroups(ns, circuit, groups);
    r := Some(out);
  }

  /** The key map as a value: every non-script file under its key. */
  function KeyMap(sources: seq<Path>, circuit: Option<Path>): (m: map<string, Path>)
    requires AllFiles(sources)
    ensures forall f :: f in NonScripts(sources) ==> SynthKey(NonScripts(sources), circuit, f) in m
  {
    var ns := NonScripts(sources);
    NonScriptsFiles(sources);
    forall f, g | f in ns && g in ns && SynthKey(ns, circuit, f) == SynthKey(ns, circuit, g) ensures f == g {
      SynthKeyInjective(ns, circuit, f, g);
    }
    map f | f in ns :: SynthKey(ns, circuit, f) := f
  }

  /** What `createSourceMapForSynth` returns is that map. */
  lemma KeyMapOf(sources: seq<Path>, circuit: Option<Path>, out: map<string, Path>)
    requires AllFiles(sources)
    requires forall f :: f in NonScripts(sources) ==>
               SynthKey(NonScripts(sources), circuit, f) in out && out[SynthKey(NonScripts(sources), circuit, f)] == f
    requires forall k :: k in out ==> out[k] in NonScripts(sources) && SynthKey(NonScripts(sources), circuit, out[k]) == k
    ensures out == KeyMap(sources, circuit)
  {
    var ns := NonScripts(sources);
    var km := KeyMap(sources, circuit);
    forall k | k in km ensures k in out && out[k] == km[k] {
      var f :| f in ns && SynthKey(ns, circuit, f) == k;
      NonScriptsFiles(sources);
      SynthKeyInjective(ns, circuit, f, km[k]);
    }
  }
}
