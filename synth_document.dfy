/**
 * `SynthDocument` of src/synthdocument.mjs: the document behind the view of a
 * synthesized circuit. It holds the current circuit object, the edit an
 * automatic layout is merged into, the simulation tick, the I/O panel cache
 * and the run states the view reports, and it fires an event for each change
 * other views follow.
 */
module SynthDocuments {

  import opened Wrappers
  import opened JsonValues
  import opened Messages
  import opened IOPanel
  import opened CircuitDocument

  /** `#runStates`; each part is whatever the `runstate` message carried. */
  datatype RunStates = RunStates(hascircuit: Option<Json>, running: Option<Json>, pendingEvents: Option<Json>)

  const InitialRunStates: RunStates := RunStates(Some(JBool(false)), Some(JBool(false)), Some(JBool(false)))

  /**
   * What the document fires: a new tick, a circuit to run, a marker update
   * (always the empty editor map here), a panel message passed on, new run
   * states.
   */
  datatype DocEvent =
    | TickUpdated(tick: Option<Json>)
    | CircuitUpdated(run: bool, keep: bool)
    | ShowMarker
    | IOPanelMessage(msg: Message)
    | RunStatesUpdated(states: RunStates)

  // ---------------------------------------------------------------------------
  // The label of an edit.

  /** The verbs an edit label starts with. */
  const Verbs: set<string> := {"Moving", "Deforming", "Reconnecting", "Adding", "Removing", "Editing"}

  /** The verb `#updateCircuit` picks from `message.type`, compared with `===`. */
  function Verb(kind: Option<Json>): (r: string)
    ensures r in Verbs
    ensures r == "Moving" <==> kind == Some(JStr("pos"))
    ensures r == "Deforming" <==> kind == Some(JStr("vert"))
    ensures r == "Reconnecting" <==> kind == Some(JStr("src")) || kind == Some(JStr("tgt"))
    ensures r == "Adding" <==> kind == Some(JStr("add"))
    ensures r == "Removing" <==> kind == Some(JStr("rm"))
  {
    if kind == Some(JStr("pos")) then "Moving"
    else if kind == Some(JStr("vert")) then "Deforming"
    else if kind == Some(JStr("src")) || kind == Some(JStr("tgt")) then "Reconnecting"
    else if kind == Some(JStr("add")) then "Adding"
    else if kind == Some(JStr("rm")) then "Removing"
    else "Editing"
  }

  /** `message.ele_type || 'Device'`, as a template literal writes it. */
  function ElementName(eleType: Option<Json>): (r: string)
    ensures eleType.Some? && Truthy(eleType.value) ==> r == ToPropertyString(eleType.value)
    ensures eleType.None? || !Truthy(eleType.value) ==> r == "Device"
  {
    if eleType.Some? && Truthy(eleType.value) then ToPropertyString(eleType.value) else "Device"
  }

  /** No character of `s` is a space. */
  predicate NoSpace(s: string) {
    forall i :: 0 <= i < |s| ==> s[i] != ' '
  }

  /** The text before the first space. */
  function FirstWord(s: string): (w: string)
    ensures |w| <= |s|
    decreases |s|
  {
    if s == [] || s[0] == ' ' then [] else [s[0]] + FirstWord(s[1..])
  }

  /** A word without spaces is read back from the front of `word + " " + rest`. */
  lemma {:induction false} FirstWordOf(word: string, rest: string)
    requires NoSpace(word)
    ensures FirstWord(word + " " + rest) == word
    decreases |word|
  {
    var s := word + " " + rest;
    if word == [] {
      assert s[0] == ' ';
    } else {
      assert s[0] == word[0];
      assert s[1..] == word[1..] + " " + rest;
      FirstWordOf(word[1..], rest);
    }
  }

  lemma VerbsHaveNoSpace(v: string)
    requires v in Verbs
    ensures NoSpace(v)
  {
  }

  /**
   * The label `#updateCircuit` gives an edit: the verb for the message type,
   * a space, then the element type; both can be read back from it.
   */
  function EditLabel(kind: Option<Json>, eleType: Option<Json>): (r: string)
    ensures FirstWord(r) == Verb(kind)
    ensures |Verb(kind)| < |r| && r[|Verb(kind)| + 1..] == ElementName(eleType)
  {
    var verb := Verb(kind);
    VerbsHaveNoSpace(verb);
    FirstWordOf(verb, ElementName(eleType));
    verb + " " + ElementName(eleType)
  }

  /** Two edits with the same label have the same verb and the same element type. */
  lemma LabelDetermines(k1: Option<Json>, e1: Option<Json>, k2: Option<Json>, e2: Option<Json>)
    requires EditLabel(k1, e1) == EditLabel(k2, e2)
    ensures Verb(k1) == Verb(k2) && ElementName(e1) == ElementName(e2)
  {
  }

  // ---------------------------------------------------------------------------
  // Messages.

  /** A message that carries a circuit object, as `updatecircuit` and `autolayout` do. */
  predicate CarriesCircuit(msg: Message) {
    msg.Get("circuit").Some? && msg.Get("circuit").value.JObj?
  }

  /** The fields of the circuit a message carries. */
  function Payload(msg: Message): map<string, Json>
    requires CarriesCircuit(msg)
  {
    msg.Get("circuit").value.fields
  }

  /** What the handlers read of a message without checking it. */
  predicate Readable(msg: Message) {
    msg.command == "updatecircuit" || msg.command == "autolayout" ==> CarriesCircuit(msg)
  }

  /** `for (const marker of markers)` reaches no marker: an empty array or string. */
  predicate NoMarkers(markers: Option<Json>) {
    markers == Some(JArr([])) || markers == Some(JStr(""))
  }

  // ---------------------------------------------------------------------------
  // Circuit objects.

  /** A circuit object; the document and its merge target can share one. */
  class CircuitObject {
    var fields: map<string, Json>

    constructor (fields: map<string, Json>)
      ensures this.fields == fields
    {
      this.fields := fields;
    }

    /** `for (const key in o) delete o[key]`. */
    method Clear()
      modifies this
      ensures fields == map[]
    {
      var todo := fields.Keys;
      while todo != {}
        invariant fields.Keys == todo
        decreases todo
      {
        var k :| k in todo;
        fields := fields - {k};
        todo := todo - {k};
      }
    }

    /** `Object.assign(o, src)`: every property of `src` copied in, the others kept. */
    method Assign(src: map<string, Json>)
      modifies this
      ensures fields == old(fields) + src
    {
      var todo := src.Keys;
      while todo != {}
        invariant todo <= src.Keys
        invariant fields.Keys == old(fields).Keys + (src.Keys - todo)
        invariant forall k :: k in fields ==> fields[k] == if k in src && k !in todo then src[k] else old(fields)[k]
        decreases todo
      {
        var k :| k in todo;
        fields := fields[k := src[k]];
        todo := todo - {k};
      }
    }
  }

  class SynthDocument {
    /** `#doc_id`, taken from a counter shared by all documents. */
    const docId: nat
    /** `#data`: the synthesis request the document was opened with. */
    const data: Json
    var circuit: CircuitObject
    /** `#last_circuit_changed`, the edit an automatic layout merges into; `null` is `undefined`. */
    var lastChanged: CircuitObject?
    var tick: Option<Json>
    var panel: Panel
    var runStates: RunStates
    var events: seq<DocEvent>

    /** The cache is coherent, and a merge target is always the current circuit. */
    ghost predicate Valid()
      reads this
    {
      Consistent(panel) && (lastChanged == null || lastChanged == circuit)
    }

    /** The constructor, which runs `#load`. */
    constructor (docId: nat, data: Json)
      ensures Valid()
      ensures this.docId == docId && this.data == data
      ensures fresh(circuit) && circuit.fields == EmptyCircuit && lastChanged == null
      ensures tick == Some(JNum(0)) && panel == Empty && runStates == InitialRunStates && events == []
    {
      this.docId := docId;
      this.data := data;
      circuit := new CircuitObject(EmptyCircuit);
      lastChanged := null;
      tick := Some(JNum(0));
      panel := Empty;
      runStates := InitialRunStates;
      events := [];
      new;
      Load();
    }

    /** `#load`: a new empty circuit and no merge target. */
    method Load()
      requires Valid()
      modifies this
      ensures Valid()
      ensures fresh(circuit) && circuit.fields == EmptyCircuit && lastChanged == null
      ensures tick == old(tick) && panel == old(panel) && runStates == old(runStates) && events == old(events)
    {
      circuit := new CircuitObject(EmptyCircuit);
      lastChanged := null;
    }

    /**
     * The `tick` setter: a tick equal to the current one is neither stored
     * nor announced; any other is stored and fired once. Afterwards a tick
     * that is not an array or object equals the stored one, so setting it
     * again does nothing.
     */
    method SetTick(t: Option<Json>)
      requires Valid()
      modifies this
      ensures Valid()
      ensures LooseEquals(t, old(tick)) ==> tick == old(tick) && events == old(events)
      ensures !LooseEquals(t, old(tick)) ==> tick == t && events == old(events) + [TickUpdated(t)]
      ensures Nullish(t) || !Compound(t.value) ==> LooseEquals(t, tick)
      ensures circuit == old(circuit) && lastChanged == old(lastChanged)
      ensures panel == old(panel) && runStates == old(runStates)
    {
      if LooseEquals(t, tick) {
        return;
      }
      tick := t;
      events := events + [TickUpdated(t)];
      if Nullish(t) || !Compound(t.value) {
        LooseEqualsReflexive(t);
      }
    }

    /**
     * `#circuitEdit` with `changed` read as the edit changing the circuit
     * (`!_.isEqual(before, after)`): `after` becomes the circuit, and the merge
     * target when it differs from the circuit it replaces. The label and the
     * `new_circuit` flag are not used.
     */
    method CircuitEdit(after: CircuitObject)
      requires Valid()
      modifies this
      ensures Valid()
      ensures circuit == after
      ensures after.fields == old(circuit.fields) ==> lastChanged == null
      ensures after.fields != old(circuit.fields) ==> lastChanged == after
      ensures tick == old(tick) && panel == old(panel) && runStates == old(runStates) && events == old(events)
    {
      var before := circuit;
      circuit := after;
      if before.fields == after.fields {
        lastChanged := null;
        return;
      }
      lastChanged := after;
    }

    /**
     * `#circuitEdit` as written: `changed` is declared nowhere, so reading it
     * throws a ReferenceError once `after` is already the circuit, and the
     * merge target is never recorded.
     */
    method CircuitEditAsWritten(after: CircuitObject) returns (threw: bool)
      requires Valid()
      modifies this
      ensures threw
      ensures circuit == after && lastChanged == old(lastChanged)
      ensures old(lastChanged) == null ==> Valid()
      ensures tick == old(tick) && panel == old(panel) && runStates == old(runStates) && events == old(events)
    {
      circuit := after;
      threw := true;
    }

    /** `#updateCircuit`: the circuit of the message, a new object, installed as an edit under its label. */
    method UpdateCircuit(msg: Message) returns (name: string)
      requires Valid() && CarriesCircuit(msg)
      modifies this
      ensures Valid()
      ensures name == EditLabel(msg.Get("type"), msg.Get("ele_type"))
      ensures fresh(circuit) && circuit.fields == Payload(msg)
      ensures Payload(msg) == old(circuit.fields) ==> lastChanged == null
      ensures Payload(msg) != old(circuit.fields) ==> lastChanged == circuit
      ensures tick == old(tick) && panel == old(panel) && runStates == old(runStates) && events == old(events)
    {
      name := EditLabel(msg.Get("type"), msg.Get("ele_type"));
      var after := new CircuitObject(Payload(msg));
      CircuitEdit(after);
    }

    /**
     * `#processAutoLayout`. Without a merge target the laid out circuit, a
     * new object, replaces the circuit. With one, the target is emptied and
     * filled with the layout in place and becomes the circuit, so whoever
     * holds the edit's object sees the layout merged into it.
     */
    method ProcessAutoLayout(layout: map<string, Json>)
      requires Valid()
      modifies this, lastChanged
      ensures Valid()
      ensures old(lastChanged) == null ==> fresh(circuit) && circuit.fields == layout && lastChanged == null
      ensures old(lastChanged) != null ==> circuit == old(lastChanged) && lastChanged == circuit && circuit.fields == layout
      ensures tick == old(tick) && panel == old(panel) && runStates == old(runStates) && events == old(events)
    {
      if lastChanged == null {
        circuit := new CircuitObject(layout);
        return;
      }
      lastChanged.Clear();
      lastChanged.Assign(layout);
      circuit := lastChanged;
    }

    /**
     * `doSynth`: the synthesizer's output for the document's data becomes the
     * circuit as an edit, the tick goes back to 0 and a run is requested.
     * When the synthesizer fails, nothing changes.
     */
    method DoSynth(synth: Json -> Option<map<string, Json>>) returns (ok: bool)
      requires Valid()
      modifies this
      ensures Valid()
      ensures ok <==> synth(data).Some?
      ensures !ok ==> circuit == old(circuit) && lastChanged == old(lastChanged) && tick == old(tick) && events == old(events)
      ensures ok ==> fresh(circuit) && circuit.fields == synth(data).value
      ensures ok && synth(data).value == old(circuit.fields) ==> lastChanged == null
      ensures ok && synth(data).value != old(circuit.fields) ==> lastChanged == circuit
      ensures ok ==> LooseEquals(Some(JNum(0)), tick)
      ensures ok && LooseEquals(Some(JNum(0)), old(tick)) ==>
                tick == old(tick) && events == old(events) + [CircuitUpdated(true, false)]
      ensures ok && !LooseEquals(Some(JNum(0)), old(tick)) ==>
                tick == Some(JNum(0)) && events == old(events) + [TickUpdated(Some(JNum(0))), CircuitUpdated(true, false)]
      ensures panel == old(panel) && runStates == old(runStates)
    {
      var res := synth(data);
      if res.None? {
        return false;
      }
      var after := new CircuitObject(res.value);
      CircuitEdit(after);
      SetTick(Some(JNum(0)));
      events := events + [CircuitUpdated(true, false)];
      ok := true;
    }

    /** `#processIOPanelMessage`: the panel cache updated, then the message passed on, unless the update throws. */
    method ProcessIOPanelMessage(msg: Message) returns (ok: bool)
      requires Valid()
      modifies this
      ensures Valid()
      ensures ok <==> Process(old(panel), msg).Some?
      ensures ok ==> panel == Process(old(panel), msg).value && events == old(events) + [IOPanelMessage(msg)]
      ensures !ok ==> panel == (if msg.command == "iopanel:view" then OnView(msg.Get("view")) else old(panel)) &&
                      events == old(events)
      ensures circuit == old(circuit) && lastChanged == old(lastChanged) && tick == old(tick) && runStates == old(runStates)
    {
      var next;
      next, ok := Handle(panel, msg);
      panel := next;
      if ok {
        events := events + [IOPanelMessage(msg)];
      }
    }

    /**
     * `processCommand`. `ok` is false when the handler throws: a panel update
     * on a primitive, `luaprint` without an array of messages, `showmarker`
     * with a marker (`this.sources` has no `findByName`), or a failed
     * synthesis.
     */
    method ProcessCommand(msg: Message, synth: Json -> Option<map<string, Json>>) returns (ok: bool)
      requires Valid() && Readable(msg)
      modifies this, if msg.command == "autolayout" then {lastChanged} else {}
      ensures Valid()
      ensures StartsWith(msg.command, "iopanel:") ==>
                (ok <==> Process(old(panel), msg).Some?) &&
                (ok ==> panel == Process(old(panel), msg).value && events == old(events) + [IOPanelMessage(msg)]) &&
                (!ok ==> panel == (if msg.command == "iopanel:view" then OnView(msg.Get("view")) else old(panel)) &&
                         events == old(events))
      ensures !StartsWith(msg.command, "iopanel:") ==> panel == old(panel)
      ensures msg.command == "updatecircuit" ==>
                ok && fresh(circuit) && circuit.fields == Payload(msg) && events == old(events) &&
                (lastChanged == null <==> Payload(msg) == old(circuit.fields))
      ensures msg.command == "autolayout" ==> events == old(events)
      ensures msg.command == "autolayout" && old(lastChanged) == null ==>
                ok && fresh(circuit) && circuit.fields == Payload(msg) && lastChanged == null
      ensures msg.command == "autolayout" && old(lastChanged) != null ==>
                ok && circuit == old(lastChanged) && lastChanged == circuit && circuit.fields == Payload(msg)
      ensures msg.command == "tick" ==>
                ok && (LooseEquals(msg.Get("tick"), old(tick)) ==> tick == old(tick) && events == old(events)) &&
                (!LooseEquals(msg.Get("tick"), old(tick)) ==> tick == msg.Get("tick") && events == old(events) + [TickUpdated(tick)])
      ensures msg.command == "runstate" ==>
                ok && runStates == RunStates(msg.Get("hascircuit"), msg.Get("running"), msg.Get("pendingEvents")) &&
                events == old(events) + [RunStatesUpdated(runStates)]
      ensures msg.command == "luaprint" ==> (ok <==> Joinable(msg.Get("messages")))
      ensures msg.command == "showmarker" ==>
                (ok <==> NoMarkers(msg.Get("markers"))) &&
                events == old(events) + (if ok then [ShowMarker] else [])
      ensures msg.command == "clearmarker" ==> ok && events == old(events) + [ShowMarker]
      ensures msg.command == "do-viewsynth" ==>
                (ok <==> synth(data).Some?) && (ok ==> fresh(circuit) && circuit.fields == synth(data).value)
      ensures msg.command == "do-viewsynth" && ok ==>
                (lastChanged == null <==> synth(data).value == old(circuit.fields)) && LooseEquals(Some(JNum(0)), tick)
      ensures msg.command == "do-viewsynth" && ok && LooseEquals(Some(JNum(0)), old(tick)) ==>
                tick == old(tick) && events == old(events) + [CircuitUpdated(true, false)]
      ensures msg.command == "do-viewsynth" && ok && !LooseEquals(Some(JNum(0)), old(tick)) ==>
                tick == Some(JNum(0)) && events == old(events) + [TickUpdated(Some(JNum(0))), CircuitUpdated(true, false)]
      ensures msg.command == "do-viewsynth" && !ok ==> circuit == old(circuit) && lastChanged == old(lastChanged) && events == old(events)
      ensures msg.command != "tick" && msg.command != "do-viewsynth" ==> tick == old(tick)
      ensures msg.command in {"luastarted", "luastop", "luaerror", "luaprint"} ||
              (!IsCommand(msg.command) && !StartsWith(msg.command, "iopanel:")) ==>
                circuit == old(circuit) && lastChanged == old(lastChanged) && tick == old(tick) &&
                runStates == old(runStates) && events == old(events)
      ensures msg.command != "runstate" ==> runStates == old(runStates)
      ensures msg.command != "updatecircuit" && msg.command != "autolayout" && msg.command != "do-viewsynth" ==>
                circuit == old(circuit) && lastChanged == old(lastChanged)
    {
      if StartsWith(msg.command, "iopanel:") {
        PanelCommand(msg.command);
        ok := ProcessIOPanelMessage(msg);
        return;
      }
      ok := true;
      match msg.command
      case "updatecircuit" =>
        var _ := UpdateCircuit(msg);
      case "autolayout" =>
        ProcessAutoLayout(Payload(msg));
      case "tick" =>
        SetTick(msg.Get("tick"));
      case "runstate" =>
        runStates := RunStates(msg.Get("hascircuit"), msg.Get("running"), msg.Get("pendingEvents"));
        events := events + [RunStatesUpdated(runStates)];
      case "luaprint" =>
        ok := Joinable(msg.Get("messages"));
      case "showmarker" =>
        if NoMarkers(msg.Get("markers")) {
          events := events + [ShowMarker];
        } else {
          ok := false;
        }
      case "clearmarker" =>
        events := events + [ShowMarker];
      case "do-viewsynth" =>
        ok := DoSynth(synth);
      case _ =>
    }
  }

  /** The commands `processCommand` has a case for, besides the panel's. */
  predicate IsCommand(command: string) {
    command in {"updatecircuit", "autolayout", "tick", "runstate", "luastarted", "luastop", "luaerror",
                "luaprint", "showmarker", "clearmarker", "do-viewsynth"}
  }

  /** A panel command is none of the others: they all start with another letter. */
  lemma PanelCommand(command: string)
    requires StartsWith(command, "iopanel:")
    ensures !IsCommand(command)
  {
    assert command[0] == "iopanel:"[0];
  }

  /**
   * As written, an edit never records a merge target: on a document without
   * one, the automatic layout that follows an edit replaces the edited
   * circuit with a new object instead of merging into it.
   */
  method EditThenLayoutAsWritten(d: SynthDocument, after: CircuitObject, layout: map<string, Json>) returns (threw: bool)
    requires d.Valid() && d.lastChanged == null
    modifies d
    ensures threw
    ensures d.lastChanged == null && fresh(d.circuit) && d.circuit != after && d.circuit.fields == layout
  {
    threw := d.CircuitEditAsWritten(after);
    d.ProcessAutoLayout(layout);
  }

  /**
   * With the edit recorded, the automatic layout that follows a real edit
   * lands in the edited circuit object itself.
   */
  method EditThenLayout(d: SynthDocument, after: CircuitObject, layout: map<string, Json>)
    requires d.Valid() && after.fields != d.circuit.fields
    modifies d, after
    ensures d.circuit == after && d.lastChanged == after && after.fields == layout
  {
    d.CircuitEdit(after);
    d.ProcessAutoLayout(layout);
  }
}
