# T7 MIDI-to-cable translator and companions, modelled in Dafny

This project models the core of a set of VCV Rack (v1) plugin modules:

- **T7Ctrl / T7Midi / T7** — a MIDI-to-cable translator.
  - A `T7Midi` expander relays incoming MIDI messages, tagged with driver and device ids, to the `T7Ctrl` module on its left.
  - `T7Ctrl` feeds every Control Change message to two drivers ("MidiCcTwoMessageToggle" and "MidiCcTwoMessageGate").
  - Each driver looks the message up in its mapping table, keyed by (channel, controller) with channel −1 as a wildcard. It remembers a pending output and input port, and reports "ready" once both are armed. It then hands out a Toggle, Add or Remove cable event.
  - Events wait in a 16-slot queue; a full queue drops them.
  - The module widget drains the queue and executes each event against the patch: modules, cables, undo history and an audit log of at most 256 lines.
  - The mapping tables have a lenient JSON import and export.
- **plugin** — the singleton registry: one module widget per name.
- **Module browser**:
  - **registries** — favourite and hidden models and usage statistics, their lenient JSON import and export, and the rule that names an exported settings file;
  - **v06 browser** — search matching, author and tag filters, favourites and result-list selection;
  - **v1 browser** — visibility test and brand and tag toggles.
- **Pm** — a port context menu: which entries a right click on a patched port offers, and the disconnect, disconnect-all, rotate-ordering and next-colour actions.

Code that changes state step by step is modelled as classes with methods. Each method is proved against a pure specification function, and the properties are proved about those functions as lemmas:
- driver objects, the controller module, the expander, the rack's cable list;
- the browser registries and the result list;
- the port-menu rack.

Library behaviour is modelled from VCV Rack v1 and jansson. Each such function is used as a pure function with the behaviour stated in its comment:
- JSON trees with jansson's lenient accessors;
- `dsp::RingBuffer` as a bounded FIFO that refuses pushes when full;
- `math::clamp`;
- `string::filename` and `string::filenameExtension`;
- `RackWidget::getCablesOnPort` and `getTopCable`;
- `plugin::getModel` as a catalogue map.

Points where the code does something easy to misread, which the model follows:
- **Cable lookup.** `findCable` never compares the input module (src/T7.cpp:30-43).
- **Occupied input.** With `replaceInputCable` false and an occupied input, the executor logs "input port occupied" and still patches the cable (src/T7.cpp:83-100). The `break` leaves only the port loop, so the cable is still patched.
- **Gate driver.** It arms a side for every mapped value, including values strictly between 0 and the threshold (src/T7Ctrl.cpp:252-255).
- **Exported colour.** An input entry's `cableColor` is not exported (src/T7Ctrl.cpp:131).
- **Event kind.** The drivers are value-initialised, so `lastEventType` starts at 0 (Toggle). The Gate driver's first event before any Add/Remove value is therefore a Toggle event, and the kind is always one of the three.
- **Pending sides.** `reset` and `fromJson` clear only the table; pending halves survive (src/T7Ctrl.cpp:181-183).
- **"cable incomplete".** This log line is commented out in the source and is never produced.
- **Port menu.** After a port menu opens, the event is still passed on to `Widget::onButton`, already consumed (src/Pm.cpp:173-175).

## Model

| member | source | states |
|---|---|---|
| FixedWidth.Int32 | src/T7Ctrl.cpp:164-171 | a JSON integer stored in a C++ `int` wraps into the 32-bit range and is unchanged when it already fits |
| Fifo.Offer | src/T7Ctrl.cpp:349 | a push onto a full ring buffer is dropped; otherwise the item is appended at the back |
| Fifo.OfferAllKeepsPrefix | src/T7Ctrl.cpp:345-349 | offering a run of items keeps exactly the longest prefix that fits, in order, after what was queued |
| Fifo.OfferAllBounded | src/T7Ctrl.cpp:282 | the queue never exceeds its capacity |
| T7Types.Int8 | src/T7Ctrl.cpp:210 | the value byte read as `int8_t` lies in −128..127 and agrees with the byte modulo 256 |
| T7Types.MidiMessage.Status | src/T7Ctrl.cpp:336 | the status is the high nibble of byte 0, which recombines with the channel |
| T7Types.MidiMessage.Channel | src/T7Ctrl.cpp:208 | the channel is the low nibble of byte 0 |
| T7Types.MidiMessage.Note | src/T7Ctrl.cpp:209 | the controller number is byte 1 of the message, in 0..255 |
| T7Types.MidiMessage.Value | src/T7Ctrl.cpp:210 | the CC value is byte 2 as a signed byte: in −128..127 and equal to the byte below 128 |
| T7Types.DefaultPortDescriptor | src/T7.hpp:36-40 | a default descriptor has module id, port type and port id all −1 |
| T7Types.NewCableEvent | src/T7.hpp:53-58 | a new cable event keeps both descriptors, has an empty colour, no replace policy and no logger |
| T7Types.Log | src/T7.hpp:12-15 | logging without a logger changes nothing; with one, the line is appended unless the 256-line buffer is full |
| T7Types.MakeMidiMessage | src/T7.hpp:27-32 | a relayed message always has type MIDI and carries the message and both ids |
| T7Types.BaseProcessMessage | src/T7.hpp:48 | the base driver never reports ready |
| T7Types.BaseGetEvent | src/T7.hpp:49 | the base driver yields no event |
| T7Types.BaseName | src/T7.hpp:43 | the base driver's name is empty |
| T7Graph.First | src/T7.cpp:30-43 | the lookup finds the first cable leaving the output module's port whose input port id matches, ignoring the input module, or reports there is none |
| T7Graph.NewCable | src/T7.cpp:66-72 | the new cable runs from the output port to the input port and takes a colour exactly when the event's colour is non-empty |
| T7Graph.Execute | src/T7.cpp:52-195 | executing any event never changes the module set, only grows history and log, and changes the cable count by at most one; an event whose output or input module no longer exists (`Stale`, the early return of src/T7.cpp:53-55) changes nothing |
| T7Graph.RemoveEventRemovesFirstMatch | src/T7.cpp:52-195 | a Remove event, or a Toggle event on an existing cable, deletes exactly the found cable with one removal record and logs "cable removed"; a Remove event that finds nothing logs "no cable to remove" and changes nothing else |
| T7Graph.FreeInputPatches | src/T7.cpp:66-100 | an Add or Toggle event with no cable between the pair and a free input appends the new cable, pushes one add record and logs "cable patched", and changes nothing else |
| T7Graph.Connect | src/T7.cpp:66-100 | the patching branch always ends with the new cable last and its add record last; with a free input or without the replace policy nothing else leaves the list, with the policy and an occupied input exactly the input's first cable is removed first, with its own record |
| T7Graph.AddEventOnExistingCable | src/T7.cpp:123-127 | an Add event for an existing cable only logs "cable already patched" |
| T7Graph.OccupiedInputWithoutReplaceStillPatches | src/T7.cpp:77-100 | without the replace policy an occupied input is logged, and the cable is still added, recorded and logged as patched |
| T7Graph.OccupiedInputWithReplace | src/T7.cpp:77-100 | with the replace policy only the first cable on the input is removed, then the new cable is added, each with its own record |
| T7Graph.ReplaceLeavesOneCableOnInput | src/T7.cpp:139-162 | replacing on an input that had one cable leaves exactly one cable there, the new one |
| T7Graph.ToggleTwiceRestoresCables | src/T7.cpp:52-106 | toggling a pair twice, from no cable and a free input, restores the original cable list |
| T7Graph.HistoryAccountsForCables | src/T7.cpp:13-28 | replaying the history records an execution pushes, onto the old cable list, yields the new cable list |
| T7Graph.HistoryOfRemoval | src/T7.cpp:13-20 | the one removal record of a Remove or Toggle that found its cable replays to the new cable list |
| T7Graph.HistoryOfConnect | src/T7.cpp:13-28 | the records of the patching branch (an optional removal, then the addition) replay to the new cable list |
| T7Graph.CountAppend | src/T7.cpp:30-43 | the number of matching cables adds up over concatenated lists |
| T7Graph.CountRemoveAt | src/T7.cpp:13-20 | removing a cable lowers the matching count by one exactly when that cable matched |
| T7Graph.RemoveFirstOfQuery | src/T7.cpp:13-20 | removing the found cable by identity removes exactly its position |
| T7Graph.EventLogger.Log | src/T7Ctrl.cpp:284-289 | the GUI logger appends a line unless its buffer is full |
| T7Graph.Rack.FindFirst | src/T7.cpp:30-43 | the lookup loop returns the first matching cable |
| T7Graph.Rack.RemoveCable | src/T7.cpp:13-20 | removing a cable deletes it from the list and pushes one removal record |
| T7Graph.Rack.AddCable | src/T7.cpp:22-28 | adding a cable appends it and pushes one add record |
| T7Graph.LogTo | src/T7.hpp:15 | an event logs through its logger only when it has one |
| T7Graph.ExecuteEvent | src/T7.cpp:52-195 | running an event's `execute` on the rack and logger leaves them in the state `Execute` specifies |
| T7Mapping.MidiPortDescriptor.Port | src/T7Ctrl.cpp:10-14 | a mapping entry's port is its module id, port type and port id |
| T7Mapping.Lookup | src/T7Ctrl.cpp:212-217 | lookup returns the exact (channel, cc) entry if present, else the wildcard channel's entry, and nothing iff neither exists |
| T7Mapping.DecodeRecord | src/T7Ctrl.cpp:145-176 | a record is admitted iff its type is "cable" and midi, target, channel, cc, moduleId, portType and portId are all present; admitted entries are outputs or inputs |
| T7Mapping.BuildKeys | src/T7Ctrl.cpp:142-177 | a key is in the imported table iff some admitted record carries it |
| T7Mapping.BuildLastWins | src/T7Ctrl.cpp:175-176 | the last admitted record for a key decides its entry |
| T7Mapping.ImportSnoc | src/T7Ctrl.cpp:142-177 | the import loop inserts one decoded record per iteration on top of the table so far |
| T7Mapping.ImportKeys | src/T7Ctrl.cpp:138-179 | importing a record list yields exactly the keys of its admitted records |
| T7Mapping.ImportLastWins | src/T7Ctrl.cpp:138-179 | the last admitted record for a key wins in the imported table |
| T7Mapping.DecodedEntryFits | src/T7Ctrl.cpp:164-171 | every imported entry's channel, controller, port id and threshold fit a C++ `int` |
| T7Mapping.DecodeEncode | src/T7Ctrl.cpp:113-179 | an exported entry (channel written + 1, type as "output"/"input", colour only for outputs) decodes back to the same key and entry |
| T7Mapping.BuildEntries | src/T7Ctrl.cpp:142-177 | rebuilding from a listing of table entries gives back those entries |
| T7Mapping.ImportEncodeAll | src/T7Ctrl.cpp:113-179 | importing the export of any listing of table keys restores the table restricted to them |
| T7Mapping.MinKeyExists | src/T7Ctrl.cpp:18 | every non-empty key set has a least key in the `std::map` order |
| T7Mapping.SortedKeys | src/T7Ctrl.cpp:115 | the export visits each table key once, in increasing (channel, cc) order |
| T7Mapping.SortedUnique | src/T7Ctrl.cpp:115 | there is only one strictly increasing listing of a key set |
| T7Mapping.EncodeTable | src/T7Ctrl.cpp:113-136 | the export loop writes one record per table entry, in increasing key order |
| T7Mapping.TableRoundTrip | src/T7Ctrl.cpp:113-179 | `fromJson(toJson(t)) == t` for every table whose entries fit 32 bits, are outputs or inputs, and whose input entries have an empty colour |
| T7Driver.DriverName | src/T7Ctrl.cpp:203-205 | each driver has a non-empty name |
| T7Driver.DriverNamesDiffer | src/T7Ctrl.cpp:203-237 | the Toggle and Gate drivers have different names, so the import addresses each separately |
| T7Driver.InitialState | src/T7Ctrl.cpp:18-21 | a new driver has an empty table, nothing pending and the Toggle kind |
| T7Driver.Arm | src/T7Ctrl.cpp:223-224 | arming sets the output or the input side by port type and leaves the other side and the kind alone |
| T7Driver.ToggleStep | src/T7Ctrl.cpp:207-229 | an unmapped message or a value below the threshold changes nothing; a value reaching the threshold arms the mapped output (setting the Toggle kind, keeping the input) or the mapped input (keeping the output and kind) |
| T7Driver.GateStep | src/T7Ctrl.cpp:239-259 | every mapped message arms its side; value 0 sets Remove, a value at or above the threshold sets Add (overriding Remove), values between keep the kind |
| T7Driver.Step | src/T7Ctrl.cpp:207-259 | neither driver changes its table or breaks the pending sides' port types |
| T7Driver.TakeEvent | src/T7Ctrl.cpp:185-197 | an event comes out iff both sides are pending; it has the pending kind, both ports, the output's colour and the module's replace policy, and both sides are cleared; otherwise nothing changes |
| T7Driver.TakeEventOnce | src/T7Ctrl.cpp:185-197 | taking an event twice in a row yields nothing the second time |
| T7Driver.Handle | src/T7Ctrl.cpp:345-349 | one message yields an event exactly when the step completes a pair, that event is the one `getEvent` builds, both halves are then cleared, and the driver is left not ready |
| T7Driver.Run | src/T7Ctrl.cpp:345-349 | a run of messages yields at most one event per message and keeps the table |
| T7Driver.RunEventsConnectOutputToInput | src/T7Ctrl.cpp:185-197 | every event a driver emits connects an output entry of its table to an input entry of its table |
| T7Driver.ToggleDriverEmitsOnlyToggles | src/T7Ctrl.cpp:221-228 | the Toggle driver only ever emits Toggle events |
| T7Driver.PairEmitsOneEvent | src/T7Ctrl.cpp:185-259 | from idle, an output message and an input message that fire (in either order) emit exactly one event joining them and leave the driver idle |
| T7Driver.UnmappedMessageIgnored | src/T7Ctrl.cpp:212-217 | a message with neither an exact nor a wildcard entry changes no driver state |
| T7Driver.Driver.constructor | src/T7Ctrl.cpp:18-21 | a new driver starts in the initial state |
| T7Driver.Driver.ProcessMessage | src/T7Ctrl.cpp:207-259 | `processMessage` performs the driver's step and returns true iff both sides are pending |
| T7Driver.Driver.GetEvent | src/T7Ctrl.cpp:185-197 | `getEvent` produces and clears as `TakeEvent` specifies |
| T7Driver.Driver.Reset | src/T7Ctrl.cpp:181-183 | `reset` empties the table and keeps the pending sides and kind |
| T7Driver.Driver.FromJson | src/T7Ctrl.cpp:138-179 | `fromJson` replaces the table by the import of the "events" records and keeps the pending sides |
| T7Driver.Driver.ToJson | src/T7Ctrl.cpp:113-136 | `toJson` writes one record per entry in key order, as the table round trip needs |
| T7Midi.Tagged | src/T7Midi.cpp:39-46 | each drained message becomes a MIDI-typed relay message with the input's driver and device ids, in order |
| T7Midi.TaggedSnoc | src/T7Midi.cpp:39-46 | tagging one more message appends one relay message |
| T7Midi.T7MidiModule.constructor | src/T7Midi.cpp:25-30 | the left expander's producer and consumer slots are the module's own two empty buffers |
| T7Midi.T7MidiModule.SelectDevice | src/T7Midi.cpp:42-43 | choosing another MIDI driver or device changes the ids later messages are tagged with, and nothing else |
| T7Midi.T7MidiModule.Receive | src/T7Midi.cpp:21 | a received MIDI message waits in the input queue |
| T7Midi.T7MidiModule.Process | src/T7Midi.cpp:36-58 | `process` drains the whole input queue, tagged, into the producer buffer, then appends and clears the right neighbour's consumer buffer (no neighbour: nothing), and requests a flip iff the producer buffer is non-empty |
| T7Midi.T7MidiModule.DrainInput | src/T7Midi.cpp:39-46 | the drain loop appends every queued message, tagged, in arrival order |
| T7Midi.T7MidiModule.Forward | src/T7Midi.cpp:48-53 | the neighbour's consumer messages follow the module's own in order, and the neighbour's buffer is emptied |
| T7Midi.T7MidiModule.EngineFlip | src/T7Midi.cpp:55-57 | a requested flip swaps the producer and consumer buffers and clears the request |
| T7Ctrl.InitialCtrl | src/T7Ctrl.cpp:293-303 | a new controller replaces input cables, has both drivers initial and empty buffers |
| T7Ctrl.Turn | src/T7Ctrl.cpp:346-349 | a driver's turn appends its event, with the module's logger, exactly when the driver completes one and the queue has room; otherwise the queue is unchanged |
| T7Ctrl.ProcessMidiState | src/T7Ctrl.cpp:335-356 | only Control Change messages act: a trace line is offered, the Toggle driver's turn runs on the queue and the Gate driver's turn on the result, at most two events are queued, all with the logger and the current replace policy, none when the queue is full |
| T7Ctrl.ToggleQueuedBeforeGate | src/T7Ctrl.cpp:335-356 | with room for two events, a Control Change queues the Toggle driver's event (if any) ahead of the Gate driver's (if any), and each driver steps as `Handle` says |
| T7Ctrl.InitialCtrlInv | src/T7Ctrl.cpp:293-303 | the controller invariant holds at construction |
| T7Ctrl.ProcessMidiKeepsInv | src/T7Ctrl.cpp:335-356 | `processMidi` preserves the invariant: buffers within capacity, well-armed drivers, none left ready |
| T7Ctrl.ProcessAllKeepsInv | src/T7Ctrl.cpp:319-333 | processing a whole relay buffer preserves the invariant |
| T7Ctrl.ProcessAllKeepsQueued | src/T7Ctrl.cpp:319-349 | queued events are never lost or reordered by later messages, and a full queue stays as it is |
| T7Ctrl.ResetState | src/T7Ctrl.cpp:311-317 | `onReset` empties both tables, turns the replace policy on and keeps the queues and the invariant |
| T7Ctrl.LastNaming | src/T7Ctrl.cpp:384-397 | finds the last driver record whose name is the driver's |
| T7Ctrl.LoadTableLastWins | src/T7Ctrl.cpp:384-397 | a driver's table after `driverMappingFromJson` is the import of the last record naming it, or unchanged when none does |
| T7Ctrl.LoadMapping | src/T7Ctrl.cpp:384-397 | loading a mapping touches only the tables and preserves the invariant |
| T7Ctrl.LoadData | src/T7Ctrl.cpp:408-413 | `dataFromJson` sets the replace policy to true only for a JSON `true`, and loads the mapping only when "driver" is present |
| T7Ctrl.MappingRoundTrip | src/T7Ctrl.cpp:371-397 | the mapping `driverMappingToJson` writes reads back through `driverMappingFromJson` as both saved tables, whatever tables the loader held |
| T7Ctrl.DataRoundTrip | src/T7Ctrl.cpp:399-413 | loading saved data restores the replace policy and both tables, whatever the module held before |
| T7Ctrl.ScenarioArmsOutput | src/T7Ctrl.cpp:207-229 | a mapped output message at full value arms the Toggle driver's output half and queues nothing |
| T7Ctrl.ScenarioCompletesPair | src/T7Ctrl.cpp:207-229 | with the output half armed, a mapped input message completes the pair and queues the one Toggle event |
| T7Ctrl.ScenarioQueuesToggle | src/T7Ctrl.cpp:207-229 | a mapped output message then a mapped input message queue exactly one Toggle event joining them, in the output's colour |
| T7Ctrl.ScenarioToggleTwice | src/T7.cpp:52-106 | executing that Toggle event patches the cable, and executing it again removes it |
| T7Ctrl.ScenarioTogglePatchesThenUnpatches | src/T7Ctrl.cpp:207-229 | two CC messages on a mapped output and input queue one Toggle event that patches the cable, and the same pair again removes it |
| T7Ctrl.CtrlModule.constructor | src/T7Ctrl.cpp:293-303 | the module starts in the initial controller state with both drivers |
| T7Ctrl.CtrlModule.OnReset | src/T7Ctrl.cpp:311-317 | `onReset` performs the reset state change |
| T7Ctrl.CtrlModule.ToggleReplaceInputCable | src/T7Ctrl.cpp:488 | the menu item flips the replace policy |
| T7Ctrl.CtrlModule.DriverTurn | src/T7Ctrl.cpp:346-349 | one driver's turn inside `processMidi`, as `Turn` specifies |
| T7Ctrl.CtrlModule.ProcessMidi | src/T7Ctrl.cpp:335-356 | `processMidi` changes the module as `ProcessMidiState` specifies |
| T7Ctrl.CtrlModule.Process | src/T7Ctrl.cpp:319-333 | `process` handles the right neighbour's relay buffer in order and clears it; with no neighbour nothing happens |
| T7Ctrl.CtrlModule.DriverMappingToJson | src/T7Ctrl.cpp:371-382 | the mapping export holds one named record per driver with its table's export |
| T7Ctrl.CtrlModule.DriverMappingFromJson | src/T7Ctrl.cpp:384-397 | the mapping import loop loads each named record into the driver of that name |
| T7Ctrl.CtrlModule.DataToJson | src/T7Ctrl.cpp:399-406 | the saved data holds the replace policy and the mapping export |
| T7Ctrl.CtrlModule.DataFromJson | src/T7Ctrl.cpp:408-413 | `dataFromJson` changes the module as `LoadData` specifies |
| T7Ctrl.CtrlModule.WidgetStep | src/T7Ctrl.cpp:549-558 | the widget drains the whole queue in FIFO order and executes each event exactly once against the rack |
| Plugin.Register | src/plugin.cpp:28-35 | registering an unused name stores the widget and succeeds; a taken name fails and keeps its owner; other names are untouched |
| Plugin.Unregister | src/plugin.cpp:37-44 | unregistering succeeds and removes the entry iff the name maps to the same widget; otherwise nothing changes; other names are untouched |
| Plugin.RegisterThenUnregister | src/plugin.cpp:28-44 | the owner can unregister what it registered, restoring the registry |
| Plugin.OwnerIsExclusive | src/plugin.cpp:28-44 | once a name is owned, another widget can neither take it over nor unregister it |
| Plugin.Singletons.RegisterSingleton | src/plugin.cpp:28-35 | `registerSingleton` updates the map as `Register` specifies |
| Plugin.Singletons.UnregisterSingleton | src/plugin.cpp:37-44 | `unregisterSingleton` updates the map as `Unregister` specifies |
| MbRegistry.Resolve | src/mb/Mb.cpp:60-68 | a record names a model only when both slugs are present and the catalogue knows them |
| MbRegistry.ResolveSlugRecord | src/mb/Mb.cpp:19-25 | an exported slug record resolves back to its model |
| MbRegistry.ResolveUsageRecord | src/mb/Mb.cpp:38-45 | an exported usage record resolves back to its model and carries back its usage |
| MbRegistry.ImportSet | src/mb/Mb.cpp:54-90 | the favourites or hidden set after import holds exactly the models that some record resolves to |
| MbRegistry.UsageOf | src/mb/Mb.cpp:111-113 | an imported count is narrowed to a C++ `int`; missing members read 0 |
| MbRegistry.ImportUsageLastWins | src/mb/Mb.cpp:92-116 | a model has usage after import iff some record resolves to it, and the last such record decides it |
| MbRegistry.ImportJson | src/mb/Mb.cpp:53-117 | a registry whose key is absent is left unchanged |
| MbRegistry.ExportJson | src/mb/Mb.cpp:16-51 | the export always holds the favourites and emits "usage" only when asked to |
| MbRegistry.ImportSlugRecords | src/mb/Mb.cpp:16-90 | importing exported slug records gives back the listed models |
| MbRegistry.ImportUsageRecords | src/mb/Mb.cpp:37-116 | importing exported usage records gives back the listed usage, when counts fit an `int` |
| MbRegistry.SetRoundTrip | src/mb/Mb.cpp:19-35 | importing the records of a listing of a set gives back the set |
| MbRegistry.UsageRoundTrip | src/mb/Mb.cpp:37-116 | importing the usage records of a listing of the usage map gives back the map |
| MbRegistry.ExportImportRoundTrip | src/mb/Mb.cpp:16-117 | `fromJson(toJson(true))` restores favourites, hidden set and usage, whatever was held before, when every model resolves |
| MbRegistry.Touch | src/mb/Mb.cpp:122-130 | touching a model creates its entry if absent, adds exactly one use, records the time and leaves other models alone |
| MbRegistry.TouchCounts | src/mb/Mb.cpp:122-130 | n touches of a new model count n uses |
| MbRegistry.LastIndexOf | src/mb/Mb.cpp:179 | finds the last occurrence of a character, or reports there is none |
| MbRegistry.Filename | src/mb/Mb.cpp:179 | the file name is the path's tail after the last '/' (the whole path when there is none), without any '/' |
| MbRegistry.Extension | src/mb/Mb.cpp:179 | a non-empty extension is the '.'-free tail after the last '.'; it is empty exactly when the name has no '.' or ends in '.' |
| MbRegistry.ExportPath | src/mb/Mb.cpp:178-182 | ".json" is appended exactly when the chosen file name has no extension |
| MbRegistry.LastIndexOfAppend | src/mb/Mb.cpp:179 | the last occurrence in a concatenation is in the tail if the tail has one |
| MbRegistry.FilenameJsonSuffix | src/mb/Mb.cpp:178-182 | appending ".json" to a path appends it to the file name |
| MbRegistry.ExtensionJsonSuffix | src/mb/Mb.cpp:178-182 | a name ending in ".json" has extension "json" |
| MbRegistry.ExportPathIdempotent | src/mb/Mb.cpp:178-182 | the path rule is idempotent, and its result always has an extension |
| MbRegistry.Registries.constructor | src/mb/Mb.cpp:10-12 | the registries start empty |
| MbRegistry.Registries.ToJson | src/mb/Mb.cpp:16-51 | `moduleBrowserToJson` lists each registry's models once each, in some order, with usage only on request |
| MbRegistry.Registries.ExportSettings | src/mb/Mb.cpp:142-145 | the settings export carries favourites and hidden but no usage |
| MbRegistry.Registries.FromJson | src/mb/Mb.cpp:53-117 | `moduleBrowserFromJson` changes the registries as `ImportJson` specifies |
| MbRegistry.Registries.UsageTouch | src/mb/Mb.cpp:122-130 | `modelUsageTouch` updates usage as `Touch` specifies |
| MbRegistry.Registries.UsageReset | src/mb/Mb.cpp:132-137 | `modelUsageReset` leaves the usage map empty and the sets alone |
| MbRegistry.CollectModels | src/mb/Mb.cpp:54-90 | the favourites or hidden import loop builds `ImportSet` |
| MbRegistry.CollectUsage | src/mb/Mb.cpp:92-116 | the usage import loop builds `ImportUsage` |
| MbRegistry.ListSlugs | src/mb/Mb.cpp:19-35 | the export loop over a set writes one slug record per model, each model once |
| MbRegistry.ListUsage | src/mb/Mb.cpp:38-47 | the usage export loop writes one record per model with its count and timestamp |
| MbBrowser.LowerChar | src/Mb.cpp:91-92 | only 'A'..'Z' are lowered |
| MbBrowser.Lower | src/Mb.cpp:91-92 | lowercasing works character by character |
| MbBrowser.LowerAppend | src/Mb.cpp:91-92 | lowercasing distributes over concatenation |
| MbBrowser.LowerIdempotent | src/Mb.cpp:91-92 | lowercasing twice is lowercasing once |
| MbBrowser.FindFrom | src/Mb.cpp:93 | `find` returns the first occurrence at or after the start, or none exists |
| MbBrowser.IsMatch | src/Mb.cpp:90-94 | `isMatch` holds iff the lowercased search occurs in the lowercased text |
| MbBrowser.IsMatchProperties | src/Mb.cpp:90-94 | the empty search matches everything, and lowering either side never changes the outcome |
| MbBrowser.PrefixMatch | src/Mb.cpp:90-94 | text added in front keeps a match |
| MbBrowser.SuffixMatch | src/Mb.cpp:90-94 | text added behind keeps a match |
| MbBrowser.PieceMatch | src/Mb.cpp:96-112 | a search matching a piece of a text matches the whole text |
| MbBrowser.SearchText | src/Mb.cpp:99-111 | the searched text holds the plugin slug, brand, name and slug, each at its place after the one before and a space |
| MbBrowser.ModelMatchesItsOwnFields | src/Mb.cpp:96-112 | searching for a model's plugin slug, brand, name or slug, in any letter case, finds the model |
| MbBrowser.IsModelMatch | src/Mb.cpp:96-112 | the empty search matches every model; otherwise the search must occur, ignoring case, in the space-joined plugin slug, brand, name, slug and first tag aliases |
| MbBrowser.ModelMatchByNameOrBrand | src/Mb.cpp:96-112 | a search matching the model's name or brand matches the model |
| MbBrowser.FindTag | src/Mb.cpp:438 | `std::find` returns the first matching tag's index, or the end |
| MbBrowser.IsModelFiltered | src/Mb.cpp:434-443 | a model passes iff the author filter is empty or equals its brand, and the tag filter is −1 or among its tags |
| MbBrowser.IsModelVisible | src/Mb.cpp:703-725 | a model is visible iff the search is empty or scores above 0, the brand filter is empty or equal, and the tag filter is negative or among its tags |
| MbBrowser.FiltersOffShowEverything | src/Mb.cpp:434-443 | with every filter off, both browsers show every model |
| MbBrowser.GetDefault | src/Mb.cpp:745-751 | `get_default` returns the mapped value, or the default for a missing key |
| MbBrowser.ChooseFilter | src/Mb.cpp:1204-1226 | choosing the active brand or tag switches the filter off; choosing another selects it |
| MbBrowser.ChooseTwiceRestores | src/Mb.cpp:1204-1226 | choosing the same item twice from no filter ends with no filter |
| MbBrowser.ModuleBrowser.BrandAction | src/Mb.cpp:1204-1211 | `BrandItem::onAction` toggles the brand filter and leaves the tag filter alone |
| MbBrowser.ModuleBrowser.TagAction | src/Mb.cpp:1219-1226 | `TagItem::onAction` toggles the tag filter and leaves the brand filter alone |
| MbBrowser.Browser06.AuthorAction | src/Mb.cpp:541-547 | the author item sets the author filter and clears the search |
| MbBrowser.Browser06.TagAction | src/Mb.cpp:549-555 | the tag item sets the tag filter and clears the search |
| MbBrowser.Browser06.ClearFilterAction | src/Mb.cpp:557-563 | clearing the filters turns both off and keeps the search text |
| MbBrowser.Browser06.FavoriteAction | src/Mb.cpp:565-580 | the favourite button inserts its model when the value is above 0, erases it otherwise, and does nothing without a model |
| MbBrowser.Browser06.ToJson | src/Mb.cpp:639-652 | `appModuleBrowserToJson` lists each favourite once as a slug record |
| MbBrowser.Browser06.FromJson | src/Mb.cpp:654-672 | `appModuleBrowserFromJson` adds the resolvable favourites without emptying the set |
| MbBrowser.FavoritesRoundTrip | src/Mb.cpp:639-672 | loading saved favourites adds exactly the saved set, when every favourite resolves |
| MbBrowser.ListItems | src/Mb.cpp:319-328 | there are at most as many list items as children, each of them a child that is an item |
| MbBrowser.ListItemsMembers | src/Mb.cpp:319-328 | the list items are exactly the children that are items |
| MbBrowser.ListItemsAt | src/Mb.cpp:303-310 | an item child sits among the items right after the items before it, so the items keep the children's order |
| MbBrowser.MarkSelection | src/Mb.cpp:303-310 | the marking loop changes only the highlight of item children and leaves separators untouched |
| MbBrowser.ItemIndexOf | src/Mb.cpp:330-342 | finds the index among the items of the first item with the given identity, or reports there is none |
| MbBrowser.Clamp | src/Mb.cpp:316 | `clamp` keeps a value inside a non-empty range, leaves in-range values alone and gives the lower bound for an empty range |
| MbBrowser.MarkSelectionItems | src/Mb.cpp:300-312 | after `step`'s marking loop exactly the item at the selected index is highlighted, and the items are otherwise unchanged |
| MbBrowser.ListItemsPrefix | src/Mb.cpp:319-356 | the items of a prefix of the children are a prefix of the items |
| MbBrowser.ItemIndexOfPrefix | src/Mb.cpp:330-342 | a first match in a prefix is the first match overall |
| MbBrowser.SelectThenGet | src/Mb.cpp:330-356 | after selecting an item, the selected index designates an item with that identity |
| MbBrowser.BrowserList.constructor | src/Mb.cpp:297-298 | the selection starts at 0 |
| MbBrowser.BrowserList.CountItems | src/Mb.cpp:319-328 | `countItems` counts the item children, skipping separators |
| MbBrowser.BrowserList.IncrementSelection | src/Mb.cpp:314-317 | the selection moves by the delta and stays within [0, count − 1] for a non-empty list (0 for an empty one) |
| MbBrowser.BrowserList.Step | src/Mb.cpp:300-312 | `step` clamps the selection and highlights exactly the selected item |
| MbBrowser.BrowserList.SelectItem | src/Mb.cpp:330-342 | `selectItem` sets the selection to the item's index among the items, and changes nothing for a non-item |
| MbBrowser.BrowserList.GetSelectedItem | src/Mb.cpp:344-356 | `getSelectedItem` returns the item at the selected index, or none when the index is outside the items |
| MbBrowser.MarkItems | src/Mb.cpp:303-310 | the marking loop highlights exactly the item whose index among the items is the selection |
| MbBrowser.ItemAt | src/Mb.cpp:344-356 | the search loop returns the item at the given index among the items, or nothing when there is none |
| Pm.CablesOnPort | src/Pm.cpp:56 | the cables on a port are exactly those touching it, and never more than the whole list |
| Pm.CablesOnPortSplit | src/Pm.cpp:56 | the port's cables and the untouched cables split the list, each cable counted as often as it is listed |
| Pm.CablesOnPortPrefix | src/Pm.cpp:56 | the port's cables of a prefix of the list are a prefix of the port's cables |
| Pm.CablesOnPortAt | src/Pm.cpp:56 | a touching cable sits among the port's cables right after those before it, so they keep drawing order |
| Pm.TopCable | src/Pm.cpp:40 | the top cable is the last complete cable touching the port, or there is none |
| Pm.WithoutMembers | src/Pm.cpp:48 | removing cables keeps exactly the cables listed and not removed |
| Pm.WithoutSnoc | src/Pm.cpp:60-67 | removing one more cable composes with the removals so far |
| Pm.WithoutNothing | src/Pm.cpp:60-67 | removing no cable changes nothing |
| Pm.Untouched | src/Pm.cpp:53-70 | the cables left are exactly those not touching the port |
| Pm.WithoutCablesOnPort | src/Pm.cpp:53-70 | removing every cable on the port leaves exactly the untouched cables |
| Pm.MenuFor | src/Pm.cpp:146-176 | a menu opens, consuming the event, iff a right press is over a port with a cable; an output menu offers "Go to input-port" iff there is exactly one cable and "Disconnect all" and "Rotate ordering" iff there are more; an input menu has four fixed entries |
| Pm.FirstTouching | src/Pm.cpp:85-94 | the rotate loop stops at the first complete cable touching the port |
| Pm.RotatedIsPermutation | src/Pm.cpp:82-100 | rotating keeps the same cables, puts the chosen one last and keeps the others in order; with no match the list is unchanged |
| Pm.RotatedCableIsOnTop | src/Pm.cpp:82-100 | after a rotation the rotated cable is the port's top cable |
| Pm.WithoutOne | src/Pm.cpp:37-51 | among distinct cable widgets, removing one cable removes exactly its entry |
| Pm.UntouchedDistinct | src/Pm.cpp:53-70 | the cables left after disconnecting a port are still distinct widgets |
| Pm.RotatedDistinct | src/Pm.cpp:82-100 | rotating keeps the cable widgets distinct |
| Pm.PmRack.constructor | src/Pm.cpp:72-80 | the colour index starts at 0 with an empty history, and the rack holds each cable widget once |
| Pm.PmRack.Disconnect | src/Pm.cpp:37-51 | only the top cable's entry, if any, is removed, with one removal record, and the cables stay distinct |
| Pm.PmRack.DisconnectAll | src/Pm.cpp:53-70 | every cable on the port is removed and one group "remove all cables" with one removal per cable is recorded, even when empty |
| Pm.PmRack.Rotate | src/Pm.cpp:82-100 | the rotate action changes the cable order as `Rotated` specifies |
| Pm.PmRack.NextColor | src/Pm.cpp:72-80 | the top cable takes the palette entry at the index, which then advances modulo the palette size and stays in range |
| Pm.RemoveEach | src/Pm.cpp:60-67 | the disconnect-all loop records and removes each listed cable |
| Pm.RemoveRecords | src/Pm.cpp:60-64 | one removal record per cable, in order |
| Pm.FirstTouchingAt | src/Pm.cpp:85-94 | the rotate loop's stopping index is the first complete touching cable |
| Pm.FirstTouchingNone | src/Pm.cpp:85-97 | when the loop runs off the end, no complete cable touches the port |

## Left out

- **Input, output and the thread boundary.** MIDI device I/O, the real-time/UI thread boundary and the atomics of `dsp::RingBuffer` are not modelled. The queues are sequential bounded FIFOs, and an event is handed over by value.
- **Memory ownership.** Raw `new`/`delete` ownership is not modelled. This includes the event leaked when the queue is full (src/T7Ctrl.cpp:347-349).
- **JSON text.** jansson text parsing and printing, and clipboard access (src/T7Ctrl.cpp:504-547), are not modelled. JSON is an abstract tree with jansson's lenient accessors.
- **Strings built from null.** `std::string` built from a missing "type" or "portType" string (src/T7Ctrl.cpp:145-146, 170), or from a missing "plugin"/"model"/"driverName" string, is undefined behaviour. It is stated as a precondition (the `WellTyped…`/`SlugTyped` predicates).
- **Undefined "Next color".** "Next color" with no top cable (src/Pm.cpp:75-78) is likewise stated as a precondition.
- **Debug trace formatting.** The `string::f` text of the debug trace lines is not modelled. A trace line keeps its five numbers instead.
- **The T7Midi input queue.** `midi::InputQueue`'s own size limit and timestamps are not modelled. Pending MIDI is an unbounded list.
- **Port existence.** The patch graph is a set of module ids and a cable list. Port widgets are not modelled: a port id the module lacks simply has no cables. `APP->engine->addCable`'s own checks are not modelled.
- **Port-menu extras.** The "Go to input-port"/"Go to output-port" actions scroll the rack with float geometry on live widgets (src/Pm.cpp:122-144), so they are not modelled. The channel count shown beside "Output channels" (src/Pm.cpp:29-35) is not modelled either. The menu model keeps only the entry texts.
- **Singleton use.** The Pm widget's singleton use of the registry and its insertion into the rack (src/Pm.cpp:183-200) are not part of this model. The registry itself is.
- **T7 debug display.** The debug text field that prints the trace and log lines (src/T7Ctrl.cpp:417-434) is not modelled. The example mapping (src/T7Ctrl.cpp:29-111, 358-369) and T7 Midi's own MIDI-port settings JSON (src/T7Midi.cpp:60-69) are also not modelled.
- **Browser UI.** v1 fuzzy scoring (src/Mb.cpp:681-701) is a parameter of `IsModelVisible`. `refreshSearch`, which rebuilds the list and resets the selection (src/Mb.cpp:445-448), is not modelled. Drawing, zoom and layout are not modelled either.
- **Tag aliases.** Rack's tag alias table is a parameter of `IsModelMatch`. It must cover the model's tags, as indexing it requires.
- **Clock and files.** The wall clock is a parameter of `Touch`. The file dialogs and file reading and writing of src/mb/Mb.cpp:142-231 are not modelled; only the JSON produced and the path rule are.
- **Other files.** The audio modules, Rf, Lo, Mx, Exit, UiSync, MenuBarEx, T7Assistant and pluginsettings are not part of this model. They hold I/O, float geometry, drawing, or declarations without definitions.
- MbRegistry.Touch: does not wrap `usedCount` at the 32-bit limit. Counting past 2^31 − 1 uses is not a case the program handles.
- MbRegistry.Registries.ToJson: the order of `std::set<Model*>` and `std::map<Model*, …>` is by address. The export is stated for some listing of each registry rather than a fixed one.
- T7Mapping.EncodeRecord: writes `channel + 1` as an unbounded integer. For a stored channel of 2^31 − 1 the C++ `int` addition overflows, which is undefined behaviour; that case is not modelled.
- MbRegistry.Filename: follows `string::filename` on '/' only. Rack's version is built on `basename`, which also strips a trailing '/' (so "x/a.b/" has the extension "b") and treats `\` as a separator on Windows; neither is modelled.
- T7Graph.First: incomplete cables are not modelled; the patch holds only cables with both ends plugged. In Rack v1 a cable being dragged from the event's output port is on that port, and `findCable` (src/T7.cpp:34) then reads its null `inputPort`. The occupancy checks (src/T7.cpp:77-81, 137-141) also count a dragged cable on the input, and the replace policy removes it. `First`, `Execute` and `Connect` show neither.
- Pm.CablesOnPort: follows Rack v1's `getCablesOnPort`, which includes cables with an unplugged end. `getTopCable` and the rotate loop skip them.
