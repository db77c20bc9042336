/**
 * JSON values as the extension exchanges them with the webview, the workspace
 * state and circuit files. Objects are maps from property names to values;
 * the order of their properties is not modelled.
 */
module JsonValues {

  import opened Wrappers
  import opened Decimal

  datatype Json =
    | JNull
    | JBool(b: bool)
    | JNum(n: int)
    | JStr(s: string)
    | JArr(items: seq<Json>)
    | JObj(fields: map<string, Json>)

  /** JavaScript truthiness (`if (v)`) of a JSON value. */
  predicate Truthy(v: Json) {
    match v
    case JNull => false
    case JBool(b) => b
    case JNum(n) => n != 0
    case JStr(s) => s != ""
    case JArr(_) => true
    case JObj(_) => true
  }

  /** A property of a JSON object read as `o.name`; absent on non-objects. */
  function Field(o: Json, name: string): Option<Json> {
    if o.JObj? && name in o.fields then Some(o.fields[name]) else None
  }

  /**
   * The property name `obj[v]` looks up: `String(v)`, with an absent value
   * read as `undefined`.
   */
  function PropertyKey(v: Option<Json>): string {
    match v
    case None => "undefined"
    case Some(j) => ToPropertyString(j)
  }

  function ToPropertyString(j: Json): string {
    match j
    case JNull => "null"
    case JBool(b) => if b then "true" else "false"
    case JNum(n) => IntToString(n)
    case JStr(s) => s
    case JArr(items) => JoinItems(items)
    case JObj(_) => "[object Object]"
  }

  /** `Array.prototype.join(',')`, which writes `null` items as "". */
  function JoinItems(items: seq<Json>): string
    decreases items
  {
    if items == [] then ""
    else
      var head := if items[0].JNull? then "" else ToPropertyString(items[0]);
      if |items| == 1 then head else head + "," + JoinItems(items[1..])
  }

  /** `undefined` and `null`, which `==` holds equal to each other and to nothing else. */
  predicate Nullish(v: Option<Json>) {
    v.None? || v.value.JNull?
  }

  /** Arrays and objects: values with an identity. */
  predicate Compound(v: Json) {
    v.JArr? || v.JObj?
  }

  /**
   * `Number(s)` for the strings the model reads: "" is 0, and an optional
   * sign followed by decimal digits is their value. `None` stands for NaN.
   */
  function StringToNumber(s: string): Option<int> {
    if s == [] then Some(0)
    else if (s[0] == '-' || s[0] == '+') && |s| > 1 && AllDigits(s[1..]) then
      var m: int := DigitsValue(s[1..]);
      Some(if s[0] == '-' then -m else m)
    else if AllDigits(s) then Some(DigitsValue(s))
    else None
  }

  /** `ToPrimitive`: an array or object becomes its string form; a primitive stays. */
  function ToPrimitive(v: Json): (r: Json)
    ensures !Compound(r)
  {
    if Compound(v) then JStr(ToPropertyString(v)) else v
  }

  /** `ToNumber` of a primitive: booleans are 0 and 1. */
  function ToNumber(v: Json): Option<int> {
    match v
    case JBool(b) => Some(if b then 1 else 0)
    case JNum(n) => Some(n)
    case JStr(s) => StringToNumber(s)
    case _ => None
  }

  /**
   * `a == b`. `undefined` and `null` equal only each other. Two arrays or
   * objects are equal only when they are the same object, which two values
   * read from messages or documents never are. Otherwise both sides are
   * made primitive; two strings compare as strings and anything else as
   * numbers, where NaN equals nothing.
   */
  predicate LooseEquals(a: Option<Json>, b: Option<Json>) {
    if Nullish(a) || Nullish(b) then Nullish(a) && Nullish(b)
    else if Compound(a.value) && Compound(b.value) then false
    else
      var x, y := ToPrimitive(a.value), ToPrimitive(b.value);
      if x.JStr? && y.JStr? then x.s == y.s
      else ToNumber(x).Some? && ToNumber(x) == ToNumber(y)
  }

  /** The comparison does not depend on the order of its operands. */
  lemma LooseEqualsSymmetric(a: Option<Json>, b: Option<Json>)
    ensures LooseEquals(a, b) == LooseEquals(b, a)
  {
  }

  /** A value that is not an array or object equals itself. */
  lemma LooseEqualsReflexive(a: Option<Json>)
    requires Nullish(a) || !Compound(a.value)
    ensures LooseEquals(a, a)
  {
  }

  /** `Number(String(n))` is `n`: a number equals its own string form. */
  lemma StringToNumberInt(n: int)
    ensures StringToNumber(IntToString(n)) == Some(n)
    ensures LooseEquals(Some(JStr(IntToString(n))), Some(JNum(n)))
  {
    if n < 0 {
      NegativeNumber(-n);
    } else {
      NumeralNumber(n);
    }
    LooseEqualsString(IntToString(n), JNum(n));
  }

  /** `Number` reads a whole number's numeral back. */
  lemma NumeralNumber(n: nat)
    ensures StringToNumber(NatToString(n)) == Some(n)
  {
    var s := NatToString(n);
    assert IsDigit(s[0]);
    NatToStringValue(n);
  }

  /** `Number` reads a negative number's numeral back. */
  lemma NegativeNumber(n: nat)
    ensures StringToNumber("-" + NatToString(n)) == Some(-(n as int))
  {
    var s := "-" + NatToString(n);
    assert s[0] == '-' && s[1..] == NatToString(n);
    NatToStringValue(n);
  }

  /** A string and a number or boolean are equal exactly when the string reads as that number. */
  lemma LooseEqualsString(s: string, v: Json)
    requires v.JNum? || v.JBool?
    ensures LooseEquals(Some(JStr(s)), Some(v)) <==> StringToNumber(s).Some? && StringToNumber(s) == ToNumber(v)
  {
  }

  /**
   * The properties `{ ...v }` copies: an object's own, an array's or a
   * string's indices, and none for `undefined`, `null`, booleans and numbers.
   */
  function Spread(v: Option<Json>): map<string, Json> {
    match v
    case Some(JObj(f)) => f
    case Some(JArr(items)) => Indexed(items)
    case Some(JStr(s)) => Indexed(Chars(s))
    case _ => map[]
  }

  /**
   * A string's one-character strings, which is what its indices hold. The
   * characters are code points, where JavaScript indexes UTF-16 code units.
   */
  function Chars(s: string): (r: seq<Json>)
    ensures |r| == |s| && forall i :: 0 <= i < |s| ==> r[i] == JStr([s[i]])
  {
    seq(|s|, i requires 0 <= i < |s| => JStr([s[i]]))
  }

  /** Each item under the numeral of its index. */
  function Indexed(items: seq<Json>): (m: map<string, Json>)
    ensures forall i :: 0 <= i < |items| ==> NatToString(i) in m
    decreases |items|
  {
    if items == [] then map[]
    else
      var n := |items| - 1;
      Indexed(items[..n])[NatToString(n) := items[n]]
  }

  /** The properties of `Indexed(items)` are exactly the numerals of its indices. */
  lemma {:induction false} IndexedAt(items: seq<Json>, k: string)
    ensures k in Indexed(items) <==> AllDigits(k) && DigitsValue(k) < |items| && k == NatToString(DigitsValue(k))
    ensures k in Indexed(items) ==> Indexed(items)[k] == items[DigitsValue(k)]
    decreases |items|
  {
    if items != [] {
      var n := |items| - 1;
      IndexedAt(items[..n], k);
      if k == NatToString(n) {
        NatToStringValue(n);
      }
      if AllDigits(k) && k == NatToString(DigitsValue(k)) && DigitsValue(k) == n {
        assert k == NatToString(n);
      }
    }
  }

  /** Writing an item of the array writes the property under its numeral. */
  lemma IndexedUpdate(items: seq<Json>, i: nat, e: Json)
    requires i < |items|
    ensures Indexed(items[i := e]) == Indexed(items)[NatToString(i) := e]
  {
    var a := Indexed(items[i := e]);
    var b := Indexed(items)[NatToString(i) := e];
    NatToStringValue(i);
    forall k
      ensures k in a <==> k in b
      ensures k in a ==> a[k] == b[k]
    {
      IndexedAt(items[i := e], k);
      IndexedAt(items, k);
    }
  }

  /**
   * The property names `for (const k in v)` visits, in the order it visits
   * them: an array's or a string's indices counting up, an object's own
   * properties (in character-code order, see `SortedKeys`), and none for
   * `undefined`, `null`, booleans and numbers.
   */
  function ForInKeys(v: Option<Json>): (r: seq<string>)
    ensures forall i :: 0 <= i < |r| ==> r[i] in Spread(v)
    ensures forall k :: k in Spread(v) ==> k in r
  {
    match v
    case Some(JObj(f)) => SortedKeys(f.Keys)
    case Some(JArr(items)) => Numerals(items)
    case Some(JStr(s)) => Numerals(Chars(s))
    case _ => []
  }

  /** The numerals of the indices of `items`, counting up. */
  function Numerals(items: seq<Json>): (r: seq<string>)
    ensures |r| == |items| && forall i :: 0 <= i < |r| ==> r[i] == NatToString(i) && r[i] in Indexed(items)
    ensures forall k :: k in Indexed(items) ==> k in r
  {
    var r := seq(|items|, i requires 0 <= i < |items| => NatToString(i));
    forall k | k in Indexed(items)
      ensures k in r
    {
      IndexedAt(items, k);
      assert r[DigitsValue(k)] == k;
    }
    r
  }

  /** `a` is `b` or comes before it, comparing character codes from the left. */
  predicate StrLe(a: string, b: string)
    decreases |a|
  {
    a == [] || (b != [] && (a[0] < b[0] || (a[0] == b[0] && StrLe(a[1..], b[1..]))))
  }

  lemma {:induction false} StrLeTotal(a: string, b: string)
    ensures StrLe(a, b) || StrLe(b, a)
    decreases |a|
  {
    if a != [] && b != [] && a[0] == b[0] {
      StrLeTotal(a[1..], b[1..]);
    }
  }

  lemma {:induction false} StrLeAntisymmetric(a: string, b: string)
    requires StrLe(a, b) && StrLe(b, a)
    ensures a == b
    decreases |a|
  {
    if a != [] {
      StrLeAntisymmetric(a[1..], b[1..]);
      assert a == [a[0]] + a[1..] && b == [b[0]] + b[1..];
    }
  }

  lemma {:induction false} StrLeTransitive(a: string, b: string, c: string)
    requires StrLe(a, b) && StrLe(b, c)
    ensures StrLe(a, c)
    decreases |a|
  {
    if a != [] && a[0] == b[0] && b[0] == c[0] {
      StrLeTransitive(a[1..], b[1..], c[1..]);
    }
  }

  /** Every nonempty set of strings has a first one. */
  lemma {:induction false} FirstKey(s: set<string>)
    requires s != {}
    ensures exists m :: m in s && forall x :: x in s ==> StrLe(m, x)
    decreases |s|
  {
    var y :| y in s;
    var rest := s - {y};
    if rest == {} {
      assert s == {y};
      StrLeTotal(y, y);
      assert forall x :: x in s ==> StrLe(y, x);
    } else {
      FirstKey(rest);
      var m :| m in rest && forall x :: x in rest ==> StrLe(m, x);
      StrLeTotal(y, m);
      if StrLe(y, m) {
        forall x | x in s
          ensures StrLe(y, x)
        {
          if x == y {
            StrLeTotal(y, y);
          } else {
            StrLeTransitive(y, m, x);
          }
        }
      } else {
        assert forall x :: x in s ==> x == y || x in rest;
        assert forall x :: x in s ==> StrLe(m, x);
      }
    }
  }

  /**
   * The names of an object's properties, each once, in character-code order.
   * JavaScript visits integer-like names first, counting up, and the others
   * in the order they were created, which the model's objects do not keep.
   */
  function SortedKeys(s: set<string>): (r: seq<string>)
    ensures forall k :: k in r <==> k in s
    decreases |s|
  {
    if s == {} then []
    else
      FirstKey(s);
      forall a, b | StrLe(a, b) && StrLe(b, a)
        ensures a == b
      {
        StrLeAntisymmetric(a, b);
      }
      var m :| m in s && forall x :: x in s ==> StrLe(m, x);
      [m] + SortedKeys(s - {m})
  }
}
