/**
 * The I/O panel cache kept by `DigitalJS.processIOPanelMessage`
 * (src/extension.mjs) and `SynthDocument.#processIOPanelMessage`
 * (src/synthdocument.mjs), which do the same thing: the last view list the
 * panel announced, an object from each view element to its index, and the
 * last value reported for each element.
 */
module IOPanel {

  import opened Wrappers
  import opened Decimal
  import opened JsonValues
  import opened Messages

  /**
   * `views` is `undefined` (`None`) until a view list arrives; `indices` is
   * the object `{}` from `String(element)` to the property name (`idx`)
   * the element is under.
   */
  datatype Panel = Panel(views: Option<Json>, indices: map<string, string>)

  const Empty: Panel := Panel(Some(JArr([])), map[])

  /** The property name an element of the view list is stored under. */
  function Key(element: Json): string {
    ToPropertyString(element)
  }

  /** Every property name the cache holds is a property of the view list. */
  predicate Consistent(p: Panel) {
    forall k :: k in p.indices ==> p.indices[k] in Spread(p.views)
  }

  /**
   * The object the `for ... in` loop builds over the property names `props`
   * of `elements`, in that order: each element's key maps to the last name
   * that holds it.
   */
  function LastIndices(props: seq<string>, elements: map<string, Json>): map<string, string>
    requires forall i :: 0 <= i < |props| ==> props[i] in elements
    decreases |props|
  {
    if props == [] then map[]
    else
      var n := |props| - 1;
      LastIndices(props[..n], elements)[Key(elements[props[n]]) := props[n]]
  }

  /** A key is cached exactly when some element has it, and then under a name holding it. */
  lemma {:induction false} LastIndicesAt(props: seq<string>, elements: map<string, Json>, k: string)
    requires forall i :: 0 <= i < |props| ==> props[i] in elements
    ensures k in LastIndices(props, elements) <==> exists i :: 0 <= i < |props| && Key(elements[props[i]]) == k
    ensures k in LastIndices(props, elements) ==>
              LastIndices(props, elements)[k] in props && Key(elements[LastIndices(props, elements)[k]]) == k
    decreases |props|
  {
    if props != [] {
      var n := |props| - 1;
      LastIndicesAt(props[..n], elements, k);
      assert forall i :: 0 <= i < n ==> props[..n][i] == props[i];
      if k in LastIndices(props[..n], elements) {
        assert LastIndices(props[..n], elements)[k] in props;
      }
    }
  }

  /** The name cached for a key is the last one whose element has that key. */
  lemma {:induction false} LastIndicesLast(props: seq<string>, elements: map<string, Json>, i: nat)
    requires forall j :: 0 <= j < |props| ==> props[j] in elements
    requires i < |props|
    requires forall j :: i < j < |props| ==> Key(elements[props[j]]) != Key(elements[props[i]])
    ensures Key(elements[props[i]]) in LastIndices(props, elements)
    ensures LastIndices(props, elements)[Key(elements[props[i]])] == props[i]
    decreases |props|
  {
    var n := |props| - 1;
    if i < n {
      assert forall j :: 0 <= j < n ==> props[..n][j] == props[j];
      LastIndicesLast(props[..n], elements, i);
    }
  }

  /** The cache after a view list arrives, before the update that follows it. */
  function OnView(view: Option<Json>): (p: Panel)
    ensures p.views == view && Consistent(p)
    ensures forall k :: k in p.indices <==> exists i :: 0 <= i < |ForInKeys(view)| && Key(Spread(view)[ForInKeys(view)[i]]) == k
    ensures forall k :: k in p.indices ==> Key(Spread(view)[p.indices[k]]) == k
  {
    var props := ForInKeys(view);
    var elements := Spread(view);
    forall k
      ensures k in LastIndices(props, elements) <==> exists i :: 0 <= i < |props| && Key(elements[props[i]]) == k
      ensures k in LastIndices(props, elements) ==> LastIndices(props, elements)[k] in elements &&
                                                    Key(elements[LastIndices(props, elements)[k]]) == k
    {
      LastIndicesAt(props, elements, k);
    }
    Panel(view, LastIndices(props, elements))
  }

  /**
   * `views[idx].value = value` on one element. An object takes the property
   * (an `undefined` value reads as absent); on `null` or any other primitive
   * the assignment throws (`None`), as modules run in strict mode.
   */
  function SetValue(element: Json, value: Option<Json>): (r: Option<Json>)
    ensures r.Some? <==> element.JObj? || element.JArr?
    ensures r.Some? && element.JObj? ==> r.value.JObj? && Field(r.value, "value") == value
    ensures r.Some? && element.JObj? ==> forall f :: f != "value" ==> Field(r.value, f) == Field(element, f)
  {
    match element
    case JObj(f) => Some(JObj(if value.Some? then f["value" := value.value] else f - {"value"}))
    case JArr(_) => Some(element)
    case _ => None
  }

  /**
   * `views[idx] = element` for a property of an object or an array view
   * list; other views keep what they hold.
   */
  function Put(views: Json, idx: string, element: Json): (r: Json)
    requires idx in Spread(Some(views))
    ensures views.JObj? || views.JArr? ==> r.JObj? == views.JObj? && r.JArr? == views.JArr? && Spread(Some(r)) == Spread(Some(views))[idx := element]
  {
    match views
    case JObj(f) => JObj(f[idx := element])
    case JArr(items) =>
      IndexedAt(items, idx);
      IndexedUpdate(items, DigitsValue(idx), element);
      JArr(items[DigitsValue(idx) := element])
    case _ => views
  }

  /** `iopanel:update`: the element whose key is `String(id)`, if cached, gets `value`; `None` if that throws. */
  function Update(p: Panel, id: Option<Json>, value: Option<Json>): (r: Option<Panel>)
    requires Consistent(p)
    ensures PropertyKey(id) !in p.indices ==> r == Some(p)
    ensures PropertyKey(id) in p.indices ==>
              var idx := p.indices[PropertyKey(id)];
              (r.Some? <==> SetValue(Spread(p.views)[idx], value).Some?) &&
              (r.Some? ==> r.value.indices == p.indices &&
                           Spread(r.value.views) == Spread(p.views)[idx := SetValue(Spread(p.views)[idx], value).value])
    ensures r.Some? ==> Consistent(r.value)
  {
    var key := PropertyKey(id);
    if key !in p.indices then Some(p)
    else
      var idx := p.indices[key];
      var e := SetValue(Spread(p.views)[idx], value);
      if e.None? then None
      else
        StringElements(p.views, idx);
        Some(Panel(Some(Put(p.views.value, idx, e.value)), p.indices))
  }

  /** A string view list holds strings, so no element of it takes a `value`. */
  lemma StringElements(views: Option<Json>, idx: string)
    requires idx in Spread(views)
    ensures views.Some? && (views.value.JStr? ==> Spread(views)[idx].JStr?)
    ensures views.value.JObj? || views.value.JArr? || views.value.JStr?
  {
    if views.value.JStr? {
      IndexedAt(Chars(views.value.s), idx);
    }
  }

  /**
   * The whole handler: `iopanel:view` replaces the cache and falls through
   * to `iopanel:update`; any other command leaves the cache alone.
   */
  function Process(p: Panel, msg: Message): (r: Option<Panel>)
    requires Consistent(p)
    ensures r.Some? ==> Consistent(r.value)
    ensures msg.command == "iopanel:view" ==> r == Update(OnView(msg.Get("view")), msg.Get("id"), msg.Get("value"))
    ensures msg.command == "iopanel:update" ==> r == Update(p, msg.Get("id"), msg.Get("value"))
    ensures msg.command != "iopanel:view" && msg.command != "iopanel:update" ==> r == Some(p)
  {
    if msg.command == "iopanel:view" then Update(OnView(msg.Get("view")), msg.Get("id"), msg.Get("value"))
    else if msg.command == "iopanel:update" then Update(p, msg.Get("id"), msg.Get("value"))
    else Some(p)
  }

  /** The loop `for (const idx in message.view) indices[message.view[idx]] = idx`. */
  method BuildIndices(view: Option<Json>) returns (indices: map<string, string>)
    ensures indices == OnView(view).indices
  {
    var props := ForInKeys(view);
    var elements := Spread(view);
    indices := map[];
    for i := 0 to |props|
      invariant indices == LastIndices(props[..i], elements)
    {
      assert props[..i + 1][..i] == props[..i];
      indices := indices[Key(elements[props[i]]) := props[i]];
    }
    assert props[..|props|] == props;
  }

  /**
   * The handler as the classes run it. When the update throws, `next` is the
   * cache as the exception leaves it: a view list has already replaced it.
   */
  method Handle(p: Panel, msg: Message) returns (next: Panel, ok: bool)
    requires Consistent(p)
    ensures ok <==> Process(p, msg).Some?
    ensures ok ==> next == Process(p, msg).value
    ensures !ok ==> next == if msg.command == "iopanel:view" then OnView(msg.Get("view")) else p
    ensures Consistent(next)
  {
    next := p;
    if msg.command == "iopanel:view" {
      var view := msg.Get("view");
      var indices := BuildIndices(view);
      next := Panel(view, indices);
    }
    ok := true;
    if msg.command == "iopanel:view" || msg.command == "iopanel:update" {
      var r := Update(next, msg.Get("id"), msg.Get("value"));
      if r.Some? {
        next := r.value;
      } else {
        ok := false;
      }
    }
  }

  /**
   * A view list followed by an update of one of its elements' keys writes the
   * value into the last element with that key.
   */
  lemma ViewThenUpdate(view: seq<Json>, i: nat, value: Option<Json>)
    requires i < |view| && view[i].JObj?
    requires forall j :: i < j < |view| ==> Key(view[j]) != Key(view[i])
    ensures var p := OnView(Some(JArr(view)));
            var r := Update(p, Some(JStr(Key(view[i]))), value);
            r.Some? && NatToString(i) in Spread(r.value.views) &&
            Field(Spread(r.value.views)[NatToString(i)], "value") == value
  {
    var props := ForInKeys(Some(JArr(view)));
    var elements := Spread(Some(JArr(view)));
    forall j | 0 <= j < |view|
      ensures elements[props[j]] == view[j]
    {
      IndexedAt(view, NatToString(j));
      NatToStringValue(j);
    }
    LastIndicesLast(props, elements, i);
  }

  /** A string view list: every update of a cached character throws. */
  lemma StringViewThrows(s: string, id: Option<Json>, value: Option<Json>)
    requires PropertyKey(id) in OnView(Some(JStr(s))).indices
    ensures Update(OnView(Some(JStr(s))), id, value).None?
  {
    var p := OnView(Some(JStr(s)));
    StringElements(p.views, p.indices[PropertyKey(id)]);
  }
}
