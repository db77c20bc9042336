/**
 * Normalised absolute POSIX paths (the `path` of a `vscode.Uri`) and the
 * parts of Node's `path` module and of `vscode.Uri.joinPath` that the
 * extension uses on them: `basename`, `dirname`, `extname`, `relative`
 * and `joinPath(uri, '..', rel)`.
 */
module Paths {

  /** One component of a normalised path: not empty, not "." or "..", no '/'. */
  predicate IsName(s: string) {
    s != "" && s != "." && s != ".." && '/' !in s
  }

  /** `/a/b/c` is kept as ["a", "b", "c"]; the root `/` is []. */
  type Path = p: seq<string> | forall i :: 0 <= i < |p| ==> IsName(p[i])

  predicate SlashFree(segs: seq<string>) {
    forall i :: 0 <= i < |segs| ==> '/' !in segs[i]
  }

  /** `path.basename`: the last component ("" for the root). */
  function BaseName(p: Path): string {
    if p == [] then "" else p[|p| - 1]
  }

  /** `path.dirname`: the parent directory (the root is its own parent). */
  function DirName(p: Path): Path {
    if p == [] then [] else p[..|p| - 1]
  }

  /** `path.extname(p) == '.lua'`: the base name ends in ".lua" after at least one other character. */
  predicate IsLua(p: Path) {
    var b := BaseName(p);
    |b| > 4 && b[|b| - 4..] == ".lua"
  }

  /** The segments joined with '/', as `Array.prototype.join('/')`. */
  function Join(segs: seq<string>): string {
    if |segs| == 0 then ""
    else if |segs| == 1 then segs[0]
    else segs[0] + "/" + Join(segs[1..])
  }

  /** `s.split('/')`. */
  function Split(s: string): (r: seq<string>)
    ensures |r| >= 1 && SlashFree(r)
    decreases |s|
  {
    if s == [] then [""]
    else if s[0] == '/' then [""] + Split(s[1..])
    else
      var rest := Split(s[1..]);
      [[s[0]] + rest[0]] + rest[1..]
  }

  /** The path as a string, `uri.path`. */
  function PathString(p: Path): string {
    "/" + Join(p)
  }

  /** Length of the longest common prefix of two component lists. */
  function CommonPrefix(a: seq<string>, b: seq<string>): (k: nat)
    ensures k <= |a| && k <= |b| && a[..k] == b[..k]
    ensures k < |a| && k < |b| ==> a[k] != b[k]
  {
    if |a| == 0 || |b| == 0 || a[0] != b[0] then 0
    else
      var k := 1 + CommonPrefix(a[1..], b[1..]);
      assert a[..k] == [a[0]] + a[1..][..k - 1];
      assert b[..k] == [b[0]] + b[1..][..k - 1];
      k
  }

  function Ups(n: nat): seq<string> {
    seq(n, _ => "..")
  }

  /** The components of `path.relative(from, to)`. */
  function RelativeSegments(from: Path, to: Path): seq<string> {
    var k := CommonPrefix(from, to);
    Ups(|from| - k) + to[k..]
  }

  /** `path.relative(from, to)`: "" when the two are the same path. */
  function Relative(from: Path, to: Path): string {
    Join(RelativeSegments(from, to))
  }

  /** One step of POSIX normalisation: "" and "." vanish, ".." goes up (not above the root). */
  function Step(base: Path, seg: string): Path
    requires '/' !in seg
  {
    if seg == "" || seg == "." then base
    else if seg == ".." then DirName(base)
    else base + [seg]
  }

  function Normalize(base: Path, segs: seq<string>): Path
    requires SlashFree(segs)
    decreases |segs|
  {
    if segs == [] then base else Normalize(Step(base, segs[0]), segs[1..])
  }

  /** `vscode.Uri.joinPath(file, '..', rel).path` for a file in the directory `dir`. */
  function Resolve(dir: Path, rel: string): Path {
    Normalize(dir, Split(rel))
  }

  lemma {:induction false} SplitPrefix(a: string, t: string)
    requires '/' !in a
    ensures Split(a + t) == [a + Split(t)[0]] + Split(t)[1..]
    decreases |a|
  {
    if a != [] {
      var s := a + t;
      assert s[0] == a[0] != '/';
      assert s[1..] == a[1..] + t;
      SplitPrefix(a[1..], t);
      var rest := Split(s[1..]);
      assert rest == [a[1..] + Split(t)[0]] + Split(t)[1..];
      assert Split(s) == [[s[0]] + rest[0]] + rest[1..];
      assert [a[0]] + (a[1..] + Split(t)[0]) == a + Split(t)[0];
    } else {
      assert a + t == t;
      assert a + Split(t)[0] == Split(t)[0];
      assert Split(t) == [Split(t)[0]] + Split(t)[1..];
    }
  }

  /** Splitting undoes joining, for components without '/'. */
  lemma {:induction false} SplitJoin(segs: seq<string>)
    requires |segs| >= 1 && SlashFree(segs)
    ensures Split(Join(segs)) == segs
    decreases |segs|
  {
    if |segs| == 1 {
      SplitPrefix(segs[0], "");
      assert segs[0] + "" == segs[0];
      assert Split("") == [""];
      assert Join(segs) == segs[0];
    } else {
      var rest := Join(segs[1..]);
      assert Join(segs) == segs[0] + ("/" + rest);
      SplitPrefix(segs[0], "/" + rest);
      assert ("/" + rest)[1..] == rest;
      SplitJoin(segs[1..]);
      assert ("/" + rest)[0] == '/';
      assert Split("/" + rest) == [""] + Split(rest);
      assert Split("/" + rest) == [""] + segs[1..];
      assert segs[0] + "" == segs[0];
      assert segs[0] + "/" + rest == segs[0] + ("/" + rest);
      assert segs == [segs[0]] + segs[1..];
    }
  }

  lemma {:induction false} NormalizeAppend(b: Path, s: seq<string>, t: seq<string>)
    requires SlashFree(s) && SlashFree(t)
    ensures SlashFree(s + t)
    ensures Normalize(b, s + t) == Normalize(Normalize(b, s), t)
    decreases |s|
  {
    assert SlashFree(s + t) by {
      forall i | 0 <= i < |s + t| ensures '/' !in (s + t)[i] {
        if i < |s| { assert (s + t)[i] == s[i]; } else { assert (s + t)[i] == t[i - |s|]; }
      }
    }
    if s != [] {
      assert (s + t)[0] == s[0];
      assert (s + t)[1..] == s[1..] + t;
      NormalizeAppend(Step(b, s[0]), s[1..], t);
    } else {
      assert s + t == t;
    }
  }

  lemma {:induction false} NormalizeUps(b: Path, n: nat)
    requires n <= |b|
    ensures SlashFree(Ups(n))
    ensures Normalize(b, Ups(n)) == b[..|b| - n]
    decreases n
  {
    if n > 0 {
      assert Ups(n)[0] == "..";
      assert Ups(n)[1..] == Ups(n - 1);
      NormalizeUps(DirName(b), n - 1);
      assert DirName(b)[..|DirName(b)| - (n - 1)] == b[..|b| - n];
    } else {
      assert b[..|b|] == b;
    }
  }

  lemma {:induction false} NormalizeNames(b: Path, s: Path)
    ensures SlashFree(s)
    ensures Normalize(b, s) == b + s
    decreases |s|
  {
    if s != [] {
      assert IsName(s[0]);
      var tail: Path := s[1..];
      NormalizeNames(b + [s[0]], tail);
      assert b + [s[0]] + s[1..] == b + s;
    }
  }

  /** Walking the components of `path.relative(dir, p)` from `dir` ends at `p`. */
  lemma NormalizeRelative(dir: Path, p: Path)
    ensures SlashFree(RelativeSegments(dir, p))
    ensures Normalize(dir, RelativeSegments(dir, p)) == p
  {
    var k := CommonPrefix(dir, p);
    var ups := Ups(|dir| - k);
    var rest: Path := p[k..];
    assert RelativeSegments(dir, p) == ups + rest;
    NormalizeUps(dir, |dir| - k);
    assert Normalize(dir, ups) == dir[..k];
    NormalizeNames(dir[..k], rest);
    NormalizeAppend(dir, ups, rest);
    assert dir[..k] + rest == p[..k] + p[k..] == p;
  }

  lemma RelativeSegmentsEmpty(dir: Path, p: Path)
    requires RelativeSegments(dir, p) == []
    ensures p == dir
  {
    var k := CommonPrefix(dir, p);
    assert |Ups(|dir| - k)| == |dir| - k;
    assert dir == dir[..k] == p[..k] == p;
  }

  /** Resolving `path.relative(dir, p)` against `dir` gives back `p`. */
  lemma ResolveRelative(dir: Path, p: Path)
    ensures Resolve(dir, Relative(dir, p)) == p
  {
    var segs := RelativeSegments(dir, p);
    if segs == [] {
      RelativeSegmentsEmpty(dir, p);
      assert Split("") == [""];
      assert Normalize(dir, [""]) == Normalize(dir, []) == dir;
    } else {
      SplitJoin(segs);
      NormalizeRelative(dir, p);
    }
  }

  /** `path.relative` from a fixed directory never maps two paths to one string. */
  lemma RelativeInjective(dir: Path, p: Path, q: Path)
    requires Relative(dir, p) == Relative(dir, q)
    ensures p == q
  {
    ResolveRelative(dir, p);
    ResolveRelative(dir, q);
  }

  /** `path.relative(dir, p)` is "" exactly when `p` is `dir` itself. */
  lemma RelativeEmpty(dir: Path, p: Path)
    ensures Relative(dir, p) == "" <==> p == dir
  {
    ResolveRelative(dir, p);
    if p == dir {
      assert CommonPrefix(dir, p) == |dir|;
      assert RelativeSegments(dir, p) == [];
    }
    if Relative(dir, p) == "" {
      assert Split("") == [""];
    }
  }

  /** A single name resolved against `dir` is the child `dir/name`. */
  lemma ResolveName(dir: Path, name: string)
    requires IsName(name)
    ensures Resolve(dir, name) == dir + [name]
  {
    SplitJoin([name]);
    var one: Path := [name];
    NormalizeNames(dir, one);
  }

  /** `uri.path` strings of different paths differ. */
  lemma PathStringInjective(p: Path, q: Path)
    requires PathString(p) == PathString(q)
    ensures p == q
  {
    assert Join(p) == PathString(p)[1..];
    assert Join(q) == PathString(q)[1..];
    if p != [] && q != [] {
      SplitJoin(p);
      SplitJoin(q);
    } else if p != [] {
      JoinNonEmpty(p);
    } else if q != [] {
      JoinNonEmpty(q);
    }
  }

  lemma JoinNonEmpty(p: Path)
    requires p != []
    ensures Join(p) != ""
  {
    assert IsName(p[0]);
    if |p| > 1 {
      assert Join(p) == p[0] + "/" + Join(p[1..]);
    }
  }
}
