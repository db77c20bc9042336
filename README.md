# DigitalJS extension host: document state in Dafny

This project models the state the DigitalJS VS Code extension keeps on the
extension host side, and proves properties of it:

- `FilesMgr`: the project's circuit file, its list of source files and the
  script running/not-running tags.
- `SourceInfo` and the source map: a hash for each source file handed to
  synthesis. It has two stored forms, one for the session and one for the
  circuit file, and a cached "editor text still matches" comparison.
- `DigitalJS`:
  - the controller's document, saved by `toJSON` and read back by `loadJSON`
  - the reverse source map
  - marker highlighting
  - the I/O panel cache
  - the message handler
  - `doSynth`, which picks a key for each source file, reads the sources and
    hashes them, maps the options and installs the synthesized circuit
- `SynthDocument`: the document behind a synthesized-circuit view. It holds a
  circuit object shared with the "last edit" an automatic layout merges into,
  a tick with a change-only setter, run states and the panel cache.
- `FileMap`: the placeholder tokens that stand for file names in
  synthesizer messages, and their reversal.

Each file is one module:

- `paths.dfy` (`Paths`): paths as segment lists, `path.relative` and `joinPath`.
- `files.dfy` (`Files`): `FilesMgr`.
- `sources.dfy` (`Sources`): `SourceInfo`, its two stored forms and the map loops.
- `synth_keys.dfy` (`SynthKeys`): `createSourceMapForSynth`.
- `document.dfy` (`CircuitDocument`): the saved document, the options mapping
  and the save/load round trip.
- `iopanel.dfy` (`IOPanel`): the I/O panel cache shared by both classes.
- `controller.dfy` (`Controller`): `DigitalJS`.
- `synth_document.dfy` (`SynthDocuments`): `SynthDocument`.
- `file_map.dfy` (`FileMapping`): `FileMap`.
- Support modules: `json.dfy`, `messages.dfy`, `decimal.dfy` and `wrappers.dfy`.

Stateful objects are classes whose methods change their fields:

- `FilesMgr`, `SourceInfo`, `DigitalJS`, `SynthDocument` and `FileMap`.
- `CircuitObject`, the circuit object `SynthDocument` shares with its merge target.

Every loop of the source is a loop with invariants, and each method is proved
against a function that specifies it. Values exchanged with the webview, the
workspace state and circuit files are the datatype `Json`. A JavaScript
`undefined` is `None`.

Inputs from outside become parameters:

- the SHA-512 function (`hash`)
- the text of each file (`read`)
- the visible editors (`editors`)
- the synthesizer, passed as a function from request to result (`synth`),
  where `None` is a failed call

## Model

| member | source | states |
|---|---|---|
| Paths.Split | src/extension.mjs:136-138 | a path string splits into at least one segment, none containing `/` |
| Paths.SplitJoin | src/extension.mjs:136-138 | joining segments with `/` and splitting again gives the segments back |
| Paths.CommonPrefix | src/extension.mjs:136-138 | the length of the longest common prefix: equal up to it, different just after |
| Paths.NormalizeAppend | src/extension.mjs:203 | normalising two segment lists in turn equals normalising their concatenation |
| Paths.NormalizeUps | src/extension.mjs:203 | `n` `..` segments drop the last `n` segments of the base |
| Paths.NormalizeNames | src/extension.mjs:203 | plain names are appended to the base |
| Paths.NormalizeRelative | src/extension.mjs:178-181 | resolving the segments of `path.relative(dir, p)` against `dir` gives `p` |
| Paths.RelativeSegmentsEmpty | src/extension.mjs:178-181 | `path.relative` has no segments only from a directory to itself |
| Paths.ResolveRelative | src/extension.mjs:200-205 | `joinPath(dir, relative(dir, p))` is `p`: the circuit form of a source path reads back to the same file |
| Paths.RelativeInjective | src/extension.mjs:497-504 | two files with the same path relative to one directory are the same file |
| Paths.RelativeEmpty | src/extension.mjs:200-205 | the relative path is `""` exactly when the file is the directory itself |
| Paths.ResolveName | src/extension.mjs:598-601 | joining a plain file name to a directory appends it |
| Paths.PathStringInjective | src/extension.mjs:94-96 | different paths have different path strings, so `sources` keyed by `uri.path` holds one entry per file |
| Paths.JoinNonEmpty | src/extension.mjs:353-355 | a non-root path has a non-empty string |
| Files.WithoutSource | src/extension.mjs:103-104 | deleting a source keeps exactly the other sources |
| Files.WithoutSourceDistinct | src/extension.mjs:103-104 | deleting keeps the list free of duplicates and leaves a list without the file unchanged |
| Files.FilesMgr.constructor | src/extension.mjs:63-73 | no circuit, no sources, no script tags |
| Files.FilesMgr.Reset | src/extension.mjs:74-81 | the new circuit, no sources and empty script tags |
| Files.FilesMgr.AddSource | src/extension.mjs:93-102 | a new file is appended and a present one ignored; a new `.lua` file is tagged not running; nothing else changes |
| Files.LuaTagsWith | src/extension.mjs:93-102 | adding a source adds its tag exactly when it is a script |
| Files.FilesMgr.DeleteSource | src/extension.mjs:103-113 | the file is removed and its script tags cleared when it is a `.lua` file; the tags stay disjoint |
| Files.FilesMgr.ScriptStarted | src/extension.mjs:114-124 | the name moves from not running to running; sources unchanged |
| Files.FilesMgr.ScriptStopped | src/extension.mjs:125-133 | the name moves from running to not running; sources unchanged |
| Files.FilesMgr.ToJSON | src/extension.mjs:134-140 | one entry per source, in order: its path relative to the circuit's directory, which resolves back to the source |
| Sources.ParseUriString | src/extension.mjs:195-199 | `Uri.parse` of a URI's string is the URI |
| Sources.ToWorkspace | src/extension.mjs:175-177 | the session form has a non-empty URI and the same hash |
| Sources.FromWorkspace | src/extension.mjs:195-199 | an entry is read exactly when it has a URI and a hash, and then keeps both |
| Sources.WorkspaceRoundTrip | src/extension.mjs:175-199 | the session form reads back to the entry, or to nothing when it has no hash |
| Sources.ToCircuit | src/extension.mjs:178-181 | the circuit form holds the path relative to the circuit's directory and the hash |
| Sources.FromCircuit | src/extension.mjs:200-205 | `null` throws; an entry is dropped exactly when `relpath` or `sha512` is falsy; otherwise a non-string path or a missing circuit file throws, and a read entry keeps the hash as given, whatever its type, and resolves the path against the circuit's directory |
| Sources.CircuitRoundTrip | src/extension.mjs:178-205 | the circuit form reads back to the entry unless it has no hash or is the circuit's directory itself |
| Sources.StoreWorkspace | src/extension.mjs:182-187 | one stored entry per key |
| Sources.LoadWorkspace | src/extension.mjs:206-217 | absent storage gives `{}`; a key is kept exactly when its entry reads, with the entry read |
| Sources.LoadStoreWorkspace | src/extension.mjs:182-217 | storing and loading keeps exactly the entries with a hash, unchanged |
| Sources.StoreCircuit | src/extension.mjs:188-194 | an object with one stored entry per key |
| Sources.IndexedEntriesBound | src/extension.mjs:222-227 | an array source map has no key at or past its length |
| Sources.IndexedEntriesKeys | src/extension.mjs:222-227 | every key read from an array source map is an index |
| Sources.IndexedEntriesAt | src/extension.mjs:222-227 | the index of an array element is kept exactly when the element reads, with its entry |
| Sources.IndexedEntriesStep | src/extension.mjs:222-227 | one more array item adds its entry under its index exactly when it reads |
| Sources.ThrowsStep | src/extension.mjs:222-227 | a prefix that throws nowhere stays so after an item that does not throw |
| Sources.LoadCircuit | src/extension.mjs:218-229 | throws exactly when some visited entry throws; otherwise an object keeps exactly the keys whose entry reads, with that entry; a falsy or primitive map gives `{}` |
| Sources.StoredEntry | src/extension.mjs:188-205 | each stored circuit entry reads back as `CircuitRoundTrip` says |
| Sources.LoadStoreCircuit | src/extension.mjs:188-229 | storing and loading the circuit form keeps exactly the entries with a hash other than the directory, unchanged |
| Sources.FirstEditor | src/extension.mjs:161-166 | the first visible editor showing the file, or none when no editor shows it |
| Sources.SourceInfo.constructor | src/extension.mjs:157-160 | the URI and hash given, no cached comparison |
| Sources.SourceInfo.FindEditor | src/extension.mjs:161-174 | the first editor showing the file, returned when the stored hash `==` the hash of its text (a string, or an array or object whose string form is the digest); the comparison is made once, cached, and stays coherent with the editors |
| Sources.Records | src/extension.mjs:182-194 | the entries' values, under the same keys |
| Sources.StoreMapWorkspace | src/extension.mjs:182-187 | the loop builds `StoreWorkspace` of the entries |
| Sources.StoreMapCircuit | src/extension.mjs:188-194 | the loop builds `StoreCircuit` of the entries |
| Sources.MapValues | src/extension.mjs:184-185 | the `for ... in` loop converts every entry under its key |
| Sources.LoadMapWorkspace | src/extension.mjs:206-217 | the loop builds `LoadWorkspace`, with new unshared objects and no cached comparison |
| Sources.LoadObjectEntries | src/extension.mjs:218-229 | the loop over an object throws exactly as `LoadCircuit` does, and otherwise builds it with new unshared objects |
| Sources.LoadArrayEntries | src/extension.mjs:218-229 | the loop over an array throws exactly as `LoadCircuit` does, and otherwise reads each index, with new unshared objects |
| Sources.AddEntry | src/extension.mjs:226 | a new object with nothing cached stored under the key; the entries stay unshared and every other key is kept |
| Sources.LoadMapCircuit | src/extension.mjs:218-229 | `loadMapCircuit` throws exactly when `LoadCircuit` does, and otherwise builds it with new unshared objects and no cached comparison |
| SynthKeys.NonScripts | src/extension.mjs:471-473 | the sources other than `.lua` scripts |
| SynthKeys.NonScriptsMember | src/extension.mjs:471-473 | a file is kept exactly when it is a source and not a script |
| SynthKeys.SameBaseName | src/extension.mjs:474-481 | the files grouped under one base name |
| SynthKeys.SameBaseNameMember | src/extension.mjs:474-481 | a file is in the group exactly when it has that base name |
| SynthKeys.SingletonGroup | src/extension.mjs:491-493 | a group of one holds only that file |
| SynthKeys.BaseNameNotFallback | src/extension.mjs:489-505 | a key chosen for a shared base name never equals the base name of a file alone in its group |
| SynthKeys.SynthKeyInjective | src/extension.mjs:489-505 | different files get different keys, so no source is overwritten |
| SynthKeys.NonScriptsFiles | src/extension.mjs:471-473 | dropping scripts keeps every source a file |
| SynthKeys.NonScriptsSnoc | src/extension.mjs:471-473 | one more source adds itself unless it is a script |
| SynthKeys.SameBaseNameSnoc | src/extension.mjs:474-481 | one more file joins its base name's group |
| SynthKeys.GroupStep | src/extension.mjs:474-481 | one step of the grouping loop keeps the groups exact |
| SynthKeys.GroupByBaseName | src/extension.mjs:470-482 | the loop groups exactly the non-script sources by base name, in order |
| SynthKeys.InsertKey | src/extension.mjs:492-503 | storing a file under its key keeps the map exact |
| SynthKeys.SharedStep | src/extension.mjs:495-504 | one file of a shared group stored under its relative path |
| SynthKeys.KeyShared | src/extension.mjs:495-504 | a shared group's files each stored under their own key |
| SynthKeys.SingleKey | src/extension.mjs:491-493 | a file alone in its group is keyed by its base name |
| SynthKeys.KeySingle | src/extension.mjs:491-493 | a single file stored under its base name |
| SynthKeys.AfterGroup | src/extension.mjs:489-505 | after a group is done, its files are stored and no later group's keys present |
| SynthKeys.KeyGroups | src/extension.mjs:487-506 | the loop over groups stores every non-script source under its key |
| SynthKeys.CreateSourceMapForSynth | src/extension.mjs:468-507 | none exactly when there is no non-script source; otherwise each such file under its key, and every key is that of the file it holds |
| SynthKeys.KeyMap | src/extension.mjs:468-507 | the map as a function: every non-script source has its key |
| SynthKeys.KeyMapOf | src/extension.mjs:468-507 | a map with exactly those keys and files is `KeyMap` |
| CircuitDocument.SynthRequestOptions | src/extension.mjs:536-542 | `opt` becomes `optimize`; `fsm` loosely equal to "no" becomes ""; `fsmexpand` copied; `lint` false |
| CircuitDocument.DefaultRequestOptions | src/extension.mjs:232-238 | the default options map to no optimisation, fsm "", no fsmexpand |
| CircuitDocument.FileStrings | src/extension.mjs:134-140 | the saved `files` array: each source relative to the document's directory |
| CircuitDocument.AddedSources | src/extension.mjs:595-602 | the sources `loadJSON` adds, free of duplicates |
| CircuitDocument.AddedSourcesSnoc | src/extension.mjs:599-601 | one more file adds its resolved path unless present |
| CircuitDocument.FileItems | src/extension.mjs:599 | `for ... of` walks an array's items or a string's characters, nothing else |
| CircuitDocument.StringRun | src/extension.mjs:599-601 | the leading items that are strings end just before the first item that is not one |
| CircuitDocument.LoadedFiles | src/extension.mjs:592-602 | the sources added when the walk ends or throws: none without a URI, else those of the leading strings, and all files when it does not throw |
| CircuitDocument.LoadedCircuit | src/extension.mjs:610-616 | the three circuit fields: the document's when truthy, else the empty circuit's |
| CircuitDocument.Load | src/extension.mjs:591-629 | `None` exactly when reading `files` or `source_map` throws; otherwise the files added, the options or the default ones, the loaded source map or the previous one, and the extra data is all but the known properties, unchanged |
| CircuitDocument.LoadFromParts | src/extension.mjs:591-629 | a document with the parts `loadJSON` reads one by one is `Load` of the JSON |
| CircuitDocument.LoadWithoutUri | src/extension.mjs:598-600 | a document naming any file does not load without a URI |
| CircuitDocument.FileStringsSnoc | src/extension.mjs:134-140 | one more source adds its relative path |
| CircuitDocument.AddedSourcesRelative | src/extension.mjs:134-140 | loading the saved `files` gives the sources back |
| CircuitDocument.LayoutParts | src/extension.mjs:582-590 | `files`, `options` and `source_map` as written, and the extra data after the known properties |
| CircuitDocument.LayoutCircuit | src/extension.mjs:582-590 | the circuit fields of the saved object read back over the empty circuit |
| CircuitDocument.SaveParts | src/extension.mjs:582-590 | a saved document loads without throwing and holds the relative files and the stored source map |
| CircuitDocument.LoadSaveFiles | src/extension.mjs:582-602 | saving then loading keeps the files |
| CircuitDocument.LoadSaveSourceMap | src/extension.mjs:582-622 | saving then loading keeps the source map entries that round trip |
| CircuitDocument.LoadSaveCircuit | src/extension.mjs:582-616 | saving then loading keeps the circuit over the empty one, the options and the extra data |
| CircuitDocument.LoadSave | src/extension.mjs:582-629 | `loadJSON(toJSON())` gives the document back, up to source map entries that do not round trip and defaulted circuit fields |
| CircuitDocument.ExtraRoundTrip | src/extension.mjs:582-629 | every unknown property of a loaded document is saved back unchanged |
| IOPanel.LastIndicesAt | src/extension.mjs:880-881 | a key is cached exactly when some element has it, and then under a name whose element has it |
| IOPanel.LastIndicesLast | src/extension.mjs:880-881 | the name cached for a key is that of the last element with the key |
| IOPanel.OnView | src/extension.mjs:878-883 | the view replaces the list; a key is cached exactly when an element `for ... in` visits has it, under a name holding it; the cache stays consistent |
| IOPanel.SetValue | src/extension.mjs:887 | setting `value` succeeds exactly on objects and arrays, and on an object changes only `value` |
| IOPanel.Put | src/extension.mjs:887 | writing the element of an object or array view list changes that property only and keeps the kind |
| IOPanel.Update | src/extension.mjs:884-889 | an unknown id leaves the cache alone; a known one throws exactly when the element takes no property, and otherwise sets `value` of that element only; the cache stays consistent |
| IOPanel.StringElements | src/extension.mjs:887 | an element of a string view list is a one-character string, and a cached name belongs to an object, an array or a string |
| IOPanel.Process | src/extension.mjs:875-892 | `iopanel:view` replaces the cache and falls through to the update; other commands keep the cache |
| IOPanel.BuildIndices | src/extension.mjs:879-881 | the `for ... in` loop builds the cache `OnView` describes |
| IOPanel.Handle | src/extension.mjs:875-892 | the handler gives `Process`'s result, or the cache the exception leaves |
| IOPanel.ViewThenUpdate | src/synthdocument.mjs:189-199 | an update right after an array view list writes `value` into the last element with that key |
| IOPanel.StringViewThrows | src/extension.mjs:878-889 | after a string view list, every update of a cached key throws |
| Controller.ReverseFinds | src/extension.mjs:365-375 | the reverse map leads back from any entry to an entry for the same file |
| Controller.MarkerNames | src/extension.mjs:800-801 | the name of each marker |
| Controller.FoundAll | src/extension.mjs:785-799 | one lookup result per source map key |
| Controller.HighlightsSnoc | src/extension.mjs:800-806 | one more marker highlights its editor once, when its name is new |
| Controller.HighlightsMember | src/extension.mjs:785-806 | an editor is highlighted exactly when some marker's source finds it |
| Controller.FoundMatches | src/extension.mjs:789-794 | a coherent source finds its first editor exactly when the hash matches |
| Controller.SettledAfter | src/extension.mjs:785-806 | the marker loop keeps the lookups and the coherent entries |
| Controller.FindOne | src/extension.mjs:785-799 | one marker's lookup is the settled result |
| Controller.MarkEditors | src/extension.mjs:800-806 | the loop highlights `Highlights` of the names and keeps the lookups |
| Controller.LoadSourcesForSynth | src/extension.mjs:508-529 | each key's text read and hashed into a new entry |
| Controller.PrepareSynth | src/extension.mjs:530-545 | no request without a non-script source; otherwise the request holds each key's text and the mapped options, and each new entry the file's hash |
| Controller.AddFiles | src/extension.mjs:598-601 | throws exactly on the first non-string item, or on any item without a URI; the files added so far are `AddedSources` of the leading strings, and new scripts are tagged not running |
| Controller.AddFile | src/extension.mjs:600 | one file added, its tag set if it is a new script |
| Controller.ResetFiles | src/extension.mjs:592-602 | reset to the document's URI, then the files added; throws exactly when the walk over `files` does, with the files added until then |
| Controller.TakeCircuit | src/extension.mjs:610-616 | the circuit fields read with defaults and deleted from the document |
| Controller.MapWithout | src/extension.mjs:610-625 | the pointwise description of the remainder is `json - keys` |
| Controller.LoadedCircuitOf | src/extension.mjs:610-616 | the circuit built step by step is `LoadedCircuit` |
| Controller.TakeHead | src/extension.mjs:595-609 | `files` and `options` read, with the default options, and deleted |
| Controller.SplitDocument | src/extension.mjs:591-625 | `files`, `options`, the circuit and `source_map` read; the remainder is the document without the known properties |
| Controller.DigitalJS.constructor | src/extension.mjs:263-282 | empty files, the empty circuit, no source map, tick 0, default options, empty panel cache |
| Controller.DigitalJS.SetTick | src/extension.mjs:456-459 | the tick stored and fired, always |
| Controller.DigitalJS.GetReverseSourceMap | src/extension.mjs:365-375 | a reverse map of the source map, built once and then reused |
| Controller.DigitalJS.TextDocumentChanged | src/extension.mjs:350-358 | the entry the reverse map gives for the edited file forgets its cached comparison; every other entry, another key for the same file included, keeps its own, and nothing changes without a truthy key |
| Controller.DigitalJS.ClearMarker | src/extension.mjs:812-816 | no editor stays highlighted; nothing else changes |
| Controller.DigitalJS.ShowMarker | src/extension.mjs:783-811 | the editors the markers' sources find are highlighted once each; lookups stay coherent |
| Controller.DigitalJS.ProcessIOPanelMessage | src/extension.mjs:875-892 | the cache as `Process` gives it and the message fired; when the update throws the cache is what the exception left and nothing is fired |
| Controller.DigitalJS.ProcessCommand | src/extension.mjs:822-874 | each command's effect on the circuit, dirty flag, tick, script tags, highlights and panel, and for every command the fields it leaves alone; only `showmarker` may change a cached comparison, and it keeps every lookup's answer; `luaerror`/`luaprint` throw on a non-string name or a message list without `join` |
| Controller.DigitalJS.ToJSON | src/extension.mjs:582-590 | the document saved as `Save` describes |
| Controller.DigitalJS.LoadJSON | src/extension.mjs:591-629 | throws exactly when `Load` is `None`; otherwise the document becomes `Load` of the JSON, not dirty, the reverse map dropped with a new source map, tick 0 and the circuit-changed and tick events; a throw leaves what the steps before it did, stated field by field |
| Controller.DigitalJS.InstallDocument | src/extension.mjs:603-628 | the options and circuit installed; throws exactly when the source map does not load, and otherwise installs it and the extra data and shows tick 0 |
| Controller.DigitalJS.InstallParts | src/extension.mjs:603-628 | the same on the parts `SplitDocument` read |
| Controller.DigitalJS.InstallSourceMap | src/extension.mjs:618-622 | a loaded source map replaces the old one and drops the reverse map; a throw keeps both |
| Controller.DigitalJS.DoSynth | src/extension.mjs:530-566 | markers cleared; no source or a failed synthesis changes nothing else; on success the circuit is the output, dirty, the new source map holds each key's file and hash, tick 0 |
| Controller.DigitalJS.InstallSynth | src/extension.mjs:556-564 | the new source map and circuit installed, the reverse map dropped, tick 0 |
| JsonValues.LooseEqualsSymmetric | src/synthdocument.mjs:70 | `==` does not depend on the order of its operands |
| JsonValues.LooseEqualsReflexive | src/synthdocument.mjs:70 | a value that is not an array or object `==` itself |
| JsonValues.ToPrimitive | src/extension.mjs:172 | an array or object becomes a primitive, its string form |
| JsonValues.StringToNumberInt | src/synthdocument.mjs:70 | `Number(String(n))` is `n`, so a number `==` its own string form |
| JsonValues.NumeralNumber | src/synthdocument.mjs:70 | `Number` reads a whole number's numeral back as that number |
| JsonValues.NegativeNumber | src/synthdocument.mjs:70 | `Number` reads `-` and a numeral back as the negative number |
| JsonValues.LooseEqualsString | src/synthdocument.mjs:70 | a string `==` a number or boolean exactly when it reads as that number (`"1" == true`) |
| SynthDocuments.Verb | src/synthdocument.mjs:122-139 | "Moving" exactly for `pos`, "Deforming" for `vert`, "Reconnecting" for `src` or `tgt`, "Adding" for `add`, "Removing" for `rm`, else "Editing" |
| SynthDocuments.ElementName | src/synthdocument.mjs:121 | the element type when truthy, else "Device" |
| SynthDocuments.FirstWordOf | src/synthdocument.mjs:122-139 | a word without spaces is read back from the front of a label |
| SynthDocuments.EditLabel | src/synthdocument.mjs:119-139 | the label starts with the verb, and after one space holds the element type |
| SynthDocuments.LabelDetermines | src/synthdocument.mjs:119-139 | equal labels have equal verbs and element types |
| SynthDocuments.PanelCommand | src/synthdocument.mjs:205-209 | a panel command matches none of the other cases |
| SynthDocuments.CircuitObject.Clear | src/synthdocument.mjs:172-173 | deleting every key in a loop leaves no property |
| SynthDocuments.CircuitObject.Assign | src/synthdocument.mjs:174 | `Object.assign`: the source's properties over the target's |
| SynthDocuments.SynthDocument.constructor | src/synthdocument.mjs:13-52 | a new empty circuit, no merge target, tick 0, empty panel cache, run states all false |
| SynthDocuments.SynthDocument.Load | src/synthdocument.mjs:85-88 | a new empty circuit and no merge target; nothing else changes |
| SynthDocuments.SynthDocument.SetTick | src/synthdocument.mjs:69-74 | an equal tick is neither stored nor fired; another is stored and fired once; afterwards setting it again does nothing |
| SynthDocuments.SynthDocument.CircuitEdit | src/synthdocument.mjs:142-150 | `after` becomes the circuit, and the merge target exactly when it differs from the circuit it replaces |
| SynthDocuments.SynthDocument.CircuitEditAsWritten | src/synthdocument.mjs:142-145 | always throws, with `after` installed and the merge target as it was |
| SynthDocuments.SynthDocument.UpdateCircuit | src/synthdocument.mjs:119-141 | the message's circuit, as a new object, installed as an edit under `EditLabel` |
| SynthDocuments.SynthDocument.ProcessAutoLayout | src/synthdocument.mjs:152-176 | no merge target: a new object with the layout replaces the circuit; otherwise the target itself is emptied, holds exactly the layout and is the circuit |
| SynthDocuments.SynthDocument.DoSynth | src/synthdocument.mjs:178-184 | on success the output is an edit, the tick equals 0 (fired only if it changed) and a run is requested; on failure nothing changes |
| SynthDocuments.SynthDocument.ProcessIOPanelMessage | src/synthdocument.mjs:186-203 | the cache as `Process` gives it and the message fired; when the update throws the cache is what the exception left and nothing is fired |
| SynthDocuments.SynthDocument.ProcessCommand | src/synthdocument.mjs:204-260 | each command's effect, and for every command the tick, events and fields it leaves alone; only `autolayout` writes into an existing circuit object; `runstate` replaces the run states wholesale and fires them; `showmarker` throws unless there are no markers; `luaprint` throws without an array of messages |
| SynthDocuments.EditThenLayoutAsWritten | src/synthdocument.mjs:142-176 | as written, the layout after an edit never lands in the edited object |
| SynthDocuments.EditThenLayout | src/synthdocument.mjs:142-176 | the layout after a real edit lands in the edited object itself |
| FileMapping.PlaceholderValid | src/requests.mjs:11-13 | the suffix cannot extend the index's digits |
| FileMapping.DigitRun | src/requests.mjs:13 | the length of the leading run of digits, never past the end of the text |
| FileMapping.MatchAt | src/requests.mjs:13 | a match spans the prefix, at least one digit and the suffix |
| FileMapping.AfterPrefix | src/requests.mjs:13 | the digits then the suffix, at least one digit |
| FileMapping.FileMap.constructor | src/requests.mjs:16 | no names |
| FileMapping.FileMap.MapName | src/requests.mjs:17-21 | the name appended, the token for its index returned, and every token so far unmaps to its name |
| FileMapping.FileMap.UnmapString | src/requests.mjs:22-24 | text without tokens is unchanged |
| FileMapping.ParseNumeral | src/requests.mjs:23 | `parseInt` reads exactly the numeral's digits |
| FileMapping.FoldSnoc | src/requests.mjs:23 | one more digit multiplies by ten and adds it |
| FileMapping.FoldNumeral | src/requests.mjs:18-23 | `parseInt(String(i))` is `i` |
| FileMapping.MatchAfterPrefix | src/requests.mjs:13 | the prefix is recognised and skipped |
| FileMapping.NumeralMatches | src/requests.mjs:13 | a numeral then the suffix matches with exactly its digits |
| FileMapping.WrappedMatches | src/requests.mjs:13 | a numeral between prefix and suffix matches |
| FileMapping.WrappedValue | src/requests.mjs:23 | the digits after the prefix read as the numeral's value |
| FileMapping.TokenMatches | src/requests.mjs:13-23 | a token at the start of any text matches with its own index and leaves the rest |
| FileMapping.UnmapTokenThen | src/requests.mjs:22-24 | a leading token becomes its name and the rest is unmapped on its own |
| FileMapping.UnmapToken | src/requests.mjs:17-24 | a token alone unmaps to its replacement: the name mapped at its index, so `unmap_string(map_name(n))` is `n` |
| FileMapping.UnmapPlain | src/requests.mjs:22-24 | text where no token starts is copied unchanged |
| FileMapping.UnmapNoToken | src/requests.mjs:22-24 | text without tokens comes back unchanged |
| FileMapping.TokenInjective | src/requests.mjs:17-20 | different indices give different tokens |
| Decimal.NatToStringValue | src/requests.mjs:20 | the decimal numeral of `n` reads back as `n` |
| Decimal.NatToStringInjective | src/requests.mjs:20 | different numbers have different numerals |
| JsonValues.Indexed | src/extension.mjs:587-588 | spreading an array gives a property for every index |
| JsonValues.Chars | src/extension.mjs:587-588 | a string's indices hold its one-character strings |
| JsonValues.IndexedAt | src/extension.mjs:587-588 | an array's properties are exactly the canonical numerals below its length, each holding the item at that index |
| JsonValues.IndexedUpdate | src/extension.mjs:887 | writing an item writes the property under its numeral |
| JsonValues.ForInKeys | src/extension.mjs:880 | `for ... in` visits exactly the properties the spread copies |
| JsonValues.Numerals | src/extension.mjs:880 | an array's indices counting up: exactly its properties |
| JsonValues.FirstKey | src/extension.mjs:880 | every nonempty set of names has a first one in character-code order |
| JsonValues.SortedKeys | src/extension.mjs:880 | the names of an object's properties: exactly the set given |

## Left out

- The VS Code user interface: tree items, `getChildren` and `refresh`, `setContext` commands, decorations (`setDecorations`), dialogs and messages, webview panels and `reveal`. Event emitters are logs of the events fired.
- Session persistence: the `workspaceState.update` calls are not modelled. `storeMapWorkspace` and `loadMapWorkspace` are modelled as the conversions they are, without the storage.
- File reading, `JSON.parse`/`stringify` and the SHA-512 function: they are the parameters `read` and `hash`. Text documents open in the editor and files on disk are not told apart.
- The synthesizer (`yosys2digitaljs`, `run_processed_yosys` and the circuit transformation): it is a parameter; its error messages are not modelled.
- Asynchrony: `restore*`, `updateCircuitWaits`, `saveJSONToFile`, `confirmUnsavedJSON`, the open/save commands and the interleaving of messages during `await`. Each modelled operation runs to completion.
- URIs are their paths: the scheme, the authority, `Uri.parse` and `toString` are the identity on normalised absolute paths. Paths are lists of segments, so `path.relative` and `joinPath` work on normalised paths only.
- JSON values: numbers are integers. Object property order is not modelled, and the spreads of `toJSON` are a right-biased union. Property names inherited from `Object.prototype` are not modelled.
- SynthKeys.CreateSourceMapForSynth: requires `AllFiles`, that no source is the file-system root. With one, `path.relative` could give `""`, which is the base name of the root, and two keys could collide.
- Controller.DigitalJS.DoSynth: requires `synth_options` not to be `null`; reading `transform` on `null` would throw. The options object is taken from a `Json` value, and `transform` goes only to the view message, which is not modelled.
- Controller.DigitalJS.DoSynth: requires `AllFiles(files.sources)`, that no source is the file-system root, for the same reason as `SynthKeys.CreateSourceMapForSynth` (so does `Controller.PrepareSynth`).
- Controller.DigitalJS.DoSynth: the `showCircuit` view message and the `reveal` call are not modelled; its `setTick(0)` is.
- Controller.DigitalJS.LoadJSON: the caller's object is not seen as mutated by the `delete`s; the model reads from the value and returns the remainder as the extra data.
- Controller.DigitalJS.LoadJSON: the order of its field writes and its `workspaceState` writes are not modelled, only the state at the end.
- Sources.SourceInfo.constructor: the hash is a constant given at construction. In the source, `loadSourcesForSynth` assigns it to each new entry before the entry is installed.
- SynthDocuments.SynthDocument.SetTick: `==` (`JsonValues.LooseEquals`) follows JavaScript's rules, with `Number` of a string read only for "" and an optionally signed run of decimal digits; surrounding spaces, fractions, exponents, hexadecimal and `Infinity` read as NaN, and numbers are integers. Two arrays or objects are never equal, as no two values read from messages are the same object.
- SynthDocuments.Readable: the circuit of `updatecircuit` and `autolayout` messages must be an object, as the view sends it. A primitive circuit would be stored as the circuit itself.
- SynthDocuments.SynthDocument.DoSynth: the synthesizer's `output` is taken to be an object; a rejection is a failed call that changes nothing.
- SynthDocuments.SynthDocument.ProcessCommand: `#processMarker` is modelled only through its outcome here. `this.sources` has no `findByName`, so any marker throws, and no markers fire the empty editor map.
- The `luaTerminal` printing of `SynthDocument` is not modelled; that field is never set in this class.
- `doc_id` is the value given to the constructor; the shared counter is not modelled.
- `dispose`, `onDidDispose` handlers and the `deactivate` hook are not modelled.
- `parseInt` of the token index is exact: indices beyond 2^53, where JavaScript numbers lose precision, are not treated separately.
- `iopanel:update` on an element that is an array: the `value` property of an array is an unmodelled own property, so the element is left as it was.
- JsonValues.SortedKeys: `for ... in` over an object visits its names in character-code order. JavaScript visits integer-like names first, counting up, and the others in creation order, which the model's objects do not keep. The order only decides which of several elements with the same key the I/O panel cache keeps.
- JsonValues.Chars: strings are sequences of code points. JavaScript indexes strings by UTF-16 code units, so a string with characters outside the Basic Multilingual Plane has more indices there than here; this affects the spread of a string, `for ... in`/`for ... of` over one, and the `files` walk of `loadJSON`.
- Sources.SourceInfo.FindEditor: the stored hash is compared with `==` as `JsonValues.LooseEquals` models it; a number or boolean hash is compared as a number with the digest, which the model reads as NaN unless the digest is all decimal digits.
- Controller.Readable: a `showmarker` message must carry an array of non-null markers; the handler would throw on others, and that throw is not modelled.
- Controller.ReverseOf: when two keys of the source map name the same file, the reverse map keeps one of them without saying which. In the source the last key `for ... in` visits wins.

## Findings

| source | as written | input that shows it | evidently intended | confidence | as-written member | corrected member |
|---|---|---|---|---|---|---|
| src/synthdocument.mjs:145 | `#circuitEdit` reads `changed`, which is declared nowhere, so it throws a ReferenceError after installing `after` and never records a merge target | any `updatecircuit` message, or any successful `do-viewsynth`; the `autolayout` that follows replaces the circuit instead of merging into the edit | `changed` is `!_.isEqual(before, after)` (lodash is imported and otherwise unused); an unchanged edit clears the merge target and a changed one records `after` | not executed | SynthDocuments.SynthDocument.CircuitEditAsWritten, SynthDocuments.EditThenLayoutAsWritten | SynthDocuments.SynthDocument.CircuitEdit, SynthDocuments.EditThenLayout |

The rest of the model is built on the corrected `#circuitEdit`
(`SynthDocuments.SynthDocument.CircuitEdit`): `SynthDocument.UpdateCircuit`,
`SynthDocument.DoSynth` and the `updatecircuit` and `do-viewsynth` cases of
`SynthDocument.ProcessCommand` call it. As written, `updateCircuit`
(src/synthdocument.mjs:140) and `doSynth` (src/synthdocument.mjs:180) throw at
src/synthdocument.mjs:145, so `doSynth` never reaches `this.tick = 0` or the
run request (src/synthdocument.mjs:181-182); the model states what they do once
`changed` is defined.
