/**
 * `FilesMgr` of src/extension.mjs: the circuit file, the tracked source
 * files in insertion order (a `Map` keyed by `uri.path`), and the Lua
 * scripts' run state (`script_running` / `script_not_running`).
 * The `setContext` commands and tree-view events it also issues are not modelled.
 */
module Files {

  import opened Wrappers
  import opened Paths

  predicate Distinct<T(==)>(s: seq<T>) {
    forall i, j :: 0 <= i < j < |s| ==> s[i] != s[j]
  }

  /** `sources` after `sources.set(p)` guarded by `sources.has(p)`. */
  function WithSource(s: seq<Path>, p: Path): seq<Path> {
    if p in s then s else s + [p]
  }

  /** `sources` after `sources.delete(p)`: the other entries keep their order. */
  function WithoutSource(s: seq<Path>, p: Path): (r: seq<Path>)
    ensures forall q :: q in r <==> q in s && q != p
    ensures |r| <= |s|
  {
    if s == [] then []
    else if s[0] == p then WithoutSource(s[1..], p)
    else [s[0]] + WithoutSource(s[1..], p)
  }

  lemma {:induction false} WithoutSourceDistinct(s: seq<Path>, p: Path)
    requires Distinct(s)
    ensures Distinct(WithoutSource(s, p))
    ensures p !in s ==> WithoutSource(s, p) == s
    decreases |s|
  {
    if s != [] {
      assert Distinct(s[1..]);
      WithoutSourceDistinct(s[1..], p);
      assert s[0] !in s[1..];
      if p !in s {
        assert s == [s[0]] + s[1..];
      }
    }
  }

  /**
   * The names tagged not running when every Lua script among `sources` was
   * added after the last reset and none has started.
   */
  function LuaTags(sources: seq<Path>): set<string> {
    set f | f in sources && IsLua(f) :: PathString(f)
  }

  /** Adding a source tags it when it is a Lua script (a tracked one is tagged already). */
  lemma LuaTagsWith(sources: seq<Path>, p: Path)
    ensures LuaTags(WithSource(sources, p)) == if IsLua(p) then LuaTags(sources) + {PathString(p)} else LuaTags(sources)
  {
  }

  class FilesMgr {
    var circuit: Option<Path>
    var sources: seq<Path>
    /** Keyed by `uri.path`, the name the view reports a script under. */
    var scriptRunning: set<string>
    var scriptNotRunning: set<string>

    /** A `Map` holds each key once. */
    ghost predicate Valid()
      reads this
    {
      Distinct(sources)
    }

    /** No script is tagged both running and not running. */
    predicate TagsDisjoint()
      reads this
    {
      scriptRunning !! scriptNotRunning
    }

    constructor ()
      ensures Valid() && TagsDisjoint()
      ensures circuit == None && sources == []
      ensures scriptRunning == {} && scriptNotRunning == {}
    {
      circuit := None;
      sources := [];
      scriptRunning := {};
      scriptNotRunning := {};
    }

    method Reset(c: Option<Path>)
      modifies this
      ensures Valid() && TagsDisjoint()
      ensures circuit == c && sources == []
      ensures scriptRunning == {} && scriptNotRunning == {}
    {
      circuit := c;
      sources := [];
      scriptRunning := {};
      scriptNotRunning := {};
    }

    /** Tracks `uri` once; a new Lua script starts out not running. */
    method AddSource(uri: Path)
      requires Valid()
      modifies this
      ensures Valid()
      ensures sources == WithSource(old(sources), uri)
      ensures uri in old(sources) ==> sources == old(sources) && scriptNotRunning == old(scriptNotRunning)
      ensures uri !in old(sources) ==> sources == old(sources) + [uri]
      ensures scriptNotRunning ==
                if uri !in old(sources) && IsLua(uri) then old(scriptNotRunning) + {PathString(uri)}
                else old(scriptNotRunning)
      ensures scriptRunning == old(scriptRunning) && circuit == old(circuit)
      ensures old(TagsDisjoint()) && PathString(uri) !in scriptRunning ==> TagsDisjoint()
    {
      if uri in sources {
        return;
      }
      sources := sources + [uri];
      if IsLua(uri) {
        scriptNotRunning := scriptNotRunning + {PathString(uri)};
      }
    }

    /** Untracks `uri`; a Lua script loses both run-state tags. */
    method DeleteSource(uri: Path)
      requires Valid()
      modifies this
      ensures Valid()
      ensures sources == WithoutSource(old(sources), uri)
      ensures forall p :: p in sources <==> p in old(sources) && p != uri
      ensures scriptRunning ==
                if IsLua(uri) then old(scriptRunning) - {PathString(uri)} else old(scriptRunning)
      ensures scriptNotRunning ==
                if IsLua(uri) then old(scriptNotRunning) - {PathString(uri)} else old(scriptNotRunning)
      ensures circuit == old(circuit)
      ensures old(TagsDisjoint()) ==> TagsDisjoint()
    {
      WithoutSourceDistinct(sources, uri);
      sources := WithoutSource(sources, uri);
      if IsLua(uri) {
        scriptNotRunning := scriptNotRunning - {PathString(uri)};
        scriptRunning := scriptRunning - {PathString(uri)};
      }
    }

    /** `luastarted`: the script moves to the running set. */
    method ScriptStarted(name: string)
      modifies this
      ensures scriptRunning == old(scriptRunning) + {name}
      ensures scriptNotRunning == old(scriptNotRunning) - {name}
      ensures name in scriptRunning && name !in scriptNotRunning
      ensures sources == old(sources) && circuit == old(circuit)
      ensures old(TagsDisjoint()) ==> TagsDisjoint()
    {
      scriptNotRunning := scriptNotRunning - {name};
      scriptRunning := scriptRunning + {name};
    }

    /** `luastop`: the script moves back to the not-running set. */
    method ScriptStopped(name: string)
      modifies this
      ensures scriptRunning == old(scriptRunning) - {name}
      ensures scriptNotRunning == old(scriptNotRunning) + {name}
      ensures name !in scriptRunning && name in scriptNotRunning
      ensures sources == old(sources) && circuit == old(circuit)
      ensures old(TagsDisjoint()) ==> TagsDisjoint()
    {
      scriptRunning := scriptRunning - {name};
      scriptNotRunning := scriptNotRunning + {name};
    }

    /** The `files` list of the circuit document: each source relative to the circuit's directory. */
    method ToJSON() returns (r: seq<string>)
      requires circuit.Some?
      ensures |r| == |sources|
      ensures forall i :: 0 <= i < |r| ==> r[i] == Relative(DirName(circuit.value), sources[i])
      ensures forall i :: 0 <= i < |r| ==> Resolve(DirName(circuit.value), r[i]) == sources[i]
    {
      var dir := DirName(circuit.value);
      r := [];
      for i := 0 to |sources|
        invariant |r| == i
        invariant forall j :: 0 <= j < i ==> r[j] == Relative(dir, sources[j])
      {
        var rel := Relative(dir, sources[i]);
        r := r + [rel];
      }
      forall i | 0 <= i < |r|
        ensures Resolve(dir, r[i]) == sources[i]
      {
        ResolveRelative(dir, sources[i]);
      }
    }
  }
}
