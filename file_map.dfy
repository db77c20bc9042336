/**
 * `FileMap` of src/requests.mjs: file names handed to the synthesizer are
 * replaced by opaque tokens `prefix + index + suffix`, and every token a
 * message mentions is turned back into its name.
 */
module FileMapping {

  import opened Wrappers
  import opened Decimal

  /** The regular expression `prefix(\d+)suffix`, global. */
  datatype Pattern = Pattern(prefix: string, suffix: string) {
    /** The suffix cannot extend the run of digits. */
    predicate Valid() {
      suffix != [] && !IsDigit(suffix[0])
    }
  }

  const Prefix: string := "djs-IxU5De4QZDxUgn43Zwj1-_"
  const Suffix: string := "_-hbtdHFLoSvFPbPLnGSp8"
  const Placeholder: Pattern := Pattern(Prefix, Suffix)

  lemma PlaceholderValid()
    ensures Placeholder.Valid()
  {
  }

  /** The token for the name stored at index `i`. */
  function Token(p: Pattern, i: nat): string {
    p.prefix + NatToString(i) + p.suffix
  }

  /** Length of the run of ASCII digits that starts `s`. */
  function DigitRun(s: string): (n: nat)
    ensures n <= |s|
  {
    if s == [] || !IsDigit(s[0]) then 0 else 1 + DigitRun(s[1..])
  }

  /** `parseInt` of a string that starts with a digit: its leading run of digits, read left to right. */
  function ParseInt(s: string): nat {
    ParseFrom(s, 0)
  }

  function ParseFrom(s: string, acc: nat): nat
    decreases |s|
  {
    if s == [] || !IsDigit(s[0]) then acc else ParseFrom(s[1..], 10 * acc + DigitValue(s[0]))
  }

  /**
   * A match of the pattern at the start of `s`, given as the number of digits
   * it spans.
   */
  function MatchAt(p: Pattern, s: string): (r: Option<nat>)
    ensures r.Some? ==> r.value >= 1 && |p.prefix| + r.value + |p.suffix| <= |s|
  {
    var n := |p.prefix|;
    if |s| < n || s[..n] != p.prefix then None else AfterPrefix(p, s[n..])
  }

  /**
   * The digits and the suffix after the prefix. As the suffix cannot start
   * with a digit, only the longest run of digits can be followed by it.
   */
  function AfterPrefix(p: Pattern, rest: string): (r: Option<nat>)
    ensures r.Some? ==> r.value >= 1 && r.value + |p.suffix| <= |rest|
  {
    var d := DigitRun(rest);
    if d >= 1 && d + |p.suffix| <= |rest| && rest[d..d + |p.suffix|] == p.suffix then Some(d) else None
  }

  /** What the replacement callback yields for index `i`: `names[i]`, or "undefined" past the end. */
  function Replacement(names: seq<string>, i: nat): string {
    if i < |names| then names[i] else "undefined"
  }

  /** `str.replaceAll(regex, ...)`: leftmost matches, left to right, never overlapping. */
  function Unmap(p: Pattern, names: seq<string>, s: string): string
    decreases |s|
  {
    if s == [] then []
    else
      match MatchAt(p, s)
      case Some(d) =>
        var n := |p.prefix|;
        Replacement(names, ParseInt(s[n..])) + Unmap(p, names, s[n + d + |p.suffix|..])
      case None => [s[0]] + Unmap(p, names, s[1..])
  }

  /** No token starts anywhere in `s`. */
  predicate NoToken(p: Pattern, s: string) {
    forall k :: 0 <= k < |s| ==> MatchAt(p, s[k..]).None?
  }

  class FileMap {
    var names: seq<string>

    constructor ()
      ensures names == []
    {
      names := [];
    }

    /** `map_name`: stores `name` at the next index and returns that index's token. */
    method MapName(name: string) returns (token: string)
      modifies this
      ensures names == old(names) + [name]
      ensures token == Token(Placeholder, |old(names)|)
      ensures Unmap(Placeholder, names, token) == name
      ensures forall i :: 0 <= i < |old(names)| ==> Unmap(Placeholder, names, Token(Placeholder, i)) == old(names)[i]
    {
      token := Token(Placeholder, |names|);
      names := names + [name];
      PlaceholderValid();
      forall i | 0 <= i < |names| ensures Unmap(Placeholder, names, Token(Placeholder, i)) == names[i] {
        UnmapToken(Placeholder, names, i);
      }
    }

    /** `unmap_string`: every token replaced by its name; text without tokens is returned as is. */
    function UnmapString(s: string): (r: string)
      reads this
      ensures NoToken(Placeholder, s) ==> r == s
    {
      UnmapNoToken(Placeholder, names, s);
      Unmap(Placeholder, names, s)
    }
  }

  /** Reading a numeral and then something that is not a digit. */
  lemma {:induction false} ParseNumeral(ds: string, u: string, acc: nat)
    requires AllDigits(ds)
    requires u == [] || !IsDigit(u[0])
    ensures DigitRun(ds + u) == |ds|
    ensures ParseFrom(ds + u, acc) == Fold(ds, acc)
    decreases |ds|
  {
    if ds == [] {
      assert ds + u == u;
    } else {
      assert (ds + u)[1..] == ds[1..] + u;
      assert (ds + u)[0] == ds[0];
      ParseNumeral(ds[1..], u, 10 * acc + DigitValue(ds[0]));
    }
  }

  /** The value `acc` grows to by reading all the digits of `ds`. */
  function Fold(ds: string, acc: nat): nat
    requires AllDigits(ds)
    decreases |ds|
  {
    if ds == [] then acc else Fold(ds[1..], 10 * acc + DigitValue(ds[0]))
  }

  lemma {:induction false} FoldSnoc(ds: string, c: char, acc: nat)
    requires AllDigits(ds) && IsDigit(c)
    ensures AllDigits(ds + [c])
    ensures Fold(ds + [c], acc) == 10 * Fold(ds, acc) + DigitValue(c)
    decreases |ds|
  {
    if ds == [] {
      assert ds + [c] == [c];
    } else {
      assert (ds + [c])[1..] == ds[1..] + [c];
      FoldSnoc(ds[1..], c, 10 * acc + DigitValue(ds[0]));
    }
  }

  /** `parseInt(String(i))` is `i`. */
  lemma {:induction false} FoldNumeral(i: nat)
    ensures Fold(NatToString(i), 0) == i
  {
    if i >= 10 {
      FoldNumeral(i / 10);
      FoldSnoc(NatToString(i / 10), DigitChar(i % 10), 0);
      DigitRoundTrip(i % 10);
    } else {
      DigitRoundTrip(i);
    }
  }

  /** The prefix is recognised and then skipped. */
  lemma MatchAfterPrefix(p: Pattern, rest: string)
    ensures (p.prefix + rest)[|p.prefix|..] == rest
    ensures MatchAt(p, p.prefix + rest) == AfterPrefix(p, rest)
  {
    assert (p.prefix + rest)[..|p.prefix|] == p.prefix;
  }

  /** A numeral followed by the suffix matches with exactly its digits. */
  lemma NumeralMatches(p: Pattern, ds: string, t: string)
    requires p.Valid() && AllDigits(ds) && ds != []
    ensures AfterPrefix(p, ds + (p.suffix + t)) == Some(|ds|)
  {
    var rest := ds + (p.suffix + t);
    ParseNumeral(ds, p.suffix + t, 0);
    assert rest[|ds|..|ds| + |p.suffix|] == p.suffix;
  }

  /** A numeral wrapped in the prefix and the suffix matches with exactly its digits. */
  lemma WrappedMatches(p: Pattern, ds: string, t: string)
    requires p.Valid() && AllDigits(ds) && ds != []
    ensures MatchAt(p, p.prefix + (ds + (p.suffix + t))) == Some(|ds|)
  {
    MatchAfterPrefix(p, ds + (p.suffix + t));
    NumeralMatches(p, ds, t);
  }

  /** The digits after the prefix read as the numeral's value. */
  lemma WrappedValue(p: Pattern, ds: string, t: string)
    requires p.Valid() && AllDigits(ds)
    ensures ParseInt((p.prefix + (ds + (p.suffix + t)))[|p.prefix|..]) == Fold(ds, 0)
  {
    MatchAfterPrefix(p, ds + (p.suffix + t));
    ParseNumeral(ds, p.suffix + t, 0);
  }

  /** The pattern matches a token at the start of any text, spanning exactly the token's digits. */
  lemma TokenMatches(p: Pattern, i: nat, t: string)
    requires p.Valid()
    ensures MatchAt(p, Token(p, i) + t) == Some(|NatToString(i)|)
    ensures ParseInt((Token(p, i) + t)[|p.prefix|..]) == i
    ensures (Token(p, i) + t)[|p.prefix| + |NatToString(i)| + |p.suffix|..] == t
  {
    var ds := NatToString(i);
    assert Token(p, i) + t == p.prefix + (ds + (p.suffix + t));
    WrappedMatches(p, NatToString(i), t);
    WrappedValue(p, NatToString(i), t);
    FoldNumeral(i);
    assert (p.prefix + (ds + (p.suffix + t)))[|p.prefix| + |ds| + |p.suffix|..] == t;
  }

  /** A token at the front is replaced by its name, and the rest is unmapped on its own. */
  lemma UnmapTokenThen(p: Pattern, names: seq<string>, i: nat, t: string)
    requires p.Valid()
    ensures Unmap(p, names, Token(p, i) + t) == Replacement(names, i) + Unmap(p, names, t)
  {
    TokenMatches(p, i, t);
  }

  /** `unmap_string(map_name(n))` gives back `n`. */
  lemma UnmapToken(p: Pattern, names: seq<string>, i: nat)
    requires p.Valid()
    ensures Unmap(p, names, Token(p, i)) == Replacement(names, i)
  {
    UnmapTokenThen(p, names, i, "");
    assert Token(p, i) + "" == Token(p, i);
    assert Replacement(names, i) + "" == Replacement(names, i);
  }

  /** Where no token starts, one character is copied. */
  lemma UnmapCopy(p: Pattern, names: seq<string>, s: string)
    requires s != [] && MatchAt(p, s).None?
    ensures Unmap(p, names, s) == [s[0]] + Unmap(p, names, s[1..])
  {
  }

  /** Text in which no token starts is copied unchanged in front of what follows. */
  lemma {:induction false} UnmapPlain(p: Pattern, names: seq<string>, s: string, t: string)
    requires forall k :: 0 <= k < |s| ==> MatchAt(p, (s + t)[k..]).None?
    ensures Unmap(p, names, s + t) == s + Unmap(p, names, t)
    decreases |s|
  {
    if s == [] {
      assert s + t == t;
    } else {
      var u := s + t;
      assert u[0..] == u;
      UnmapCopy(p, names, u);
      assert u[1..] == s[1..] + t;
      forall k | 0 <= k < |s[1..]|
        ensures MatchAt(p, (s[1..] + t)[k..]).None?
      {
        assert (s[1..] + t)[k..] == u[k + 1..];
      }
      UnmapPlain(p, names, s[1..], t);
      assert [u[0]] + (s[1..] + Unmap(p, names, t)) == s + Unmap(p, names, t) by {
        assert s == [s[0]] + s[1..];
      }
    }
  }

  /** Text without tokens comes back unchanged. */
  lemma UnmapNoToken(p: Pattern, names: seq<string>, s: string)
    ensures NoToken(p, s) ==> Unmap(p, names, s) == s
  {
    if NoToken(p, s) {
      assert s + "" == s;
      UnmapPlain(p, names, s, "");
    }
  }

  /** Different indices have different tokens. */
  lemma TokenInjective(p: Pattern, i: nat, j: nat)
    requires p.Valid()
    requires Token(p, i) == Token(p, j)
    ensures i == j
  {
    TokenMatches(p, i, "");
    TokenMatches(p, j, "");
    assert Token(p, i) + "" == Token(p, i);
    assert Token(p, j) + "" == Token(p, j);
  }
}
