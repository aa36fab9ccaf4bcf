# digitaltwin-rs in Dafny

This project models the core of digitaltwin-rs. Each digital twin in that system is an Asset Administration Shell (AAS) tree plus a small finite-state actor. The actor reacts to sensor readings on named input slots and to named commands. The model covers five parts.

- **AAS lookups** (`aas.dfy`, module `Aas`). This covers the shell/submodel/element tree and the three lookups:
  - the reference element of a named collection;
  - `submodel-id#collection` sensor references;
  - every `SensorID` gathered depth-first.
  `wrappers.dfy` holds `Option`, first-match search and `split`/`join` on one character.
- **Actor semantics generated by the macros** (`dispatch.dfy`, module `Dispatch`, and `actor_macros.dfy`, module `ActorMacros`).
  - An actor is its declared fields plus its current state. `input_change` and `execute` look the key up in the state's map and apply the handler. An unknown key leaves the actor as it was.
  - `transition` keeps the fields.
  - The maps are built by inserting entries in order.
  - `ActorMacros` models the three hand-written parsers:
    - `extract_handler_maps`, the `("Key" = handler)` string parser;
    - `extract_slots_from_attr_args`;
    - `extract_default_state_from_attr_args`.
- **The twin machines**.
  - `charging_station.dfy` models the ChargingStation: Idle, Connected, Charging and Fault, with three thresholds.
  - `light_bulb.dfy` models the newer LightBulb: On and Off, with one threshold.
  - `legacy_light_bulb.dfy` models the older LightBulb of the first crate.
  Each machine's maps are proved equal to the maps its attributes generate. Each handler is a transition function over real readings. Each unit test is a trace lemma.
- **The twin tasks** (`twins.dfy`, `twin_runner.dfy`, `twin_actor.dfy`).
  - `TwinRunner.Runner` models the newer runner and `LegacyTwinActor.TwinActor` the older one. Each is a class whose `Init` builds the `sensor -> slot` map from the AAS in a loop and records what is sent to the manager and to the network receiver. Its `Body` handles messages one at a time and replaces the actor state.
  - `Twins` holds what both tasks share: the message types, the object type taken from the AAS id, and the slot map.
- **The network receiver** (`network_receiver.dfy`, module `NetworkReceiver`). The class `Receiver` keeps two tables:
  - the `asset -> channel` registry;
  - the `device -> [asset]` subscriptions.
  It routes decoded updates and commands. Every channel send is appended to `sent` as a `Delivery`.

Readings are `real`: the `f32` rounding of the source is not modelled. Command arguments (a JSON value in the source) are the opaque `Args`.

## Model

| member | source | states |
|---|---|---|
| Wrappers.FirstIndex | src/core/aas.rs:135-137 | the index of the first element satisfying the predicate: every earlier element fails it, and the element at the index (if any) holds |
| Wrappers.FirstIndexUnique | src/core/aas.rs:135-137 | a satisfying position with no satisfying element before it is the one the search returns |
| Wrappers.FindAppend | src/core/aas.rs:139-149 | searching a concatenation finds the first part's match if it has one, else the second part's |
| Wrappers.Find | src/core/aas.rs:135-137 | `Iterator::find`: the element at the first satisfying index, or None when there is none; FirstIndex and FindAppend state its properties |
| Wrappers.Split | src/core/aas.rs:170 | splitting on a character always yields at least one piece |
| Wrappers.JoinSplit | src/core/aas.rs:170 | joining the pieces of a split with the separator gives back the string |
| Wrappers.SplitPiecesHaveNoSeparator | src/core/aas.rs:170 | no piece of a split contains the separator |
| Wrappers.SplitCount | src/core/aas.rs:170-171 | a split has one more piece than the string has separators |
| Wrappers.SplitJoin | digitaltwin/src/twin_runner.rs:40 | splitting a join of separator-free pieces gives back the pieces |
| Dispatch.InputChange | digitaltwin-macros/src/lib.rs:297-303 | a slot in the state's dispatch map applies its handler; any other slot returns the actor unchanged; fields are kept |
| Dispatch.Execute | digitaltwin-macros/src/lib.rs:305-311 | a command in the state's command map applies its handler; any other command returns the actor unchanged; fields are kept |
| Dispatch.Transition | digitaltwin-macros/src/lib.rs:152-163 | `transition::<T>()`: a new actor in the target state carrying every field of the old one; RunKeepsFields states the consequence |
| Dispatch.Step | digitaltwin-macros/src/lib.rs:297-311 | one input to a boxed actor: a slot reading goes through `input_change`, a command through `execute` |
| Dispatch.Run | digitaltwin/src/twin_runner.rs:108-134 | inputs applied in order, each to the actor the previous one returned, as the body loop replaces `inner_state`; RunAppend and RunUnmappedIsNoOp state its properties |
| Dispatch.BuildMap | digitaltwin-macros/src/lib.rs:243-276 | `create_dispatch_map`/`create_command_map`: `HashMap::new()` then one `insert` per entry, in order; BuildMapSpec states the result |
| Dispatch.RunKeepsFields | digitaltwin-macros/src/lib.rs:152-163 | no sequence of inputs changes the declared fields, since transition copies them |
| Dispatch.RunAppend | digitaltwin-macros/src/lib.rs:297-311 | running two input sequences one after the other is running their concatenation |
| Dispatch.RunUnmappedIsNoOp | digitaltwin-macros/src/lib.rs:297-311 | inputs that none of the current state's maps holds leave the actor exactly as it was |
| Dispatch.BuildMapKeys | digitaltwin-macros/src/lib.rs:266-276 | a key is in the generated map exactly when some inserted entry has it |
| Dispatch.BuildMapLastWins | digitaltwin-macros/src/lib.rs:244-257 | for a key inserted more than once, the map holds the value of its last entry |
| Dispatch.BuildMapSpec | digitaltwin-macros/src/lib.rs:244-276 | both of the above together |
| Aas.FindReferenceValueFound | src/core/aas.rs:129-164 | a found value is the value of the first reference element with that name, directly inside the first top-level collection with the given name, in the first submodel with the given id_short |
| Aas.FindReferenceValueAt | src/core/aas.rs:135-163 | when those first matches exist, the value found is that element's value; later duplicates and nested collections are never consulted |
| Aas.FindReferenceValueSpec | src/core/aas.rs:129-164 | both directions of the above: `Some(v)` exactly when the first matches exist and carry `v` |
| Aas.NamedCollection | src/core/aas.rs:135-149 | the first submodel with the id_short, then its first top-level collection with the collection id_short, with no nested search; None when either is missing |
| Aas.FindReferenceValueInCollection | src/core/aas.rs:129-164 | `find_reference_value_in_collection`: the value of the first reference element with that id_short directly inside NamedCollection; FindReferenceValueSpec characterises it |
| Aas.FindCollectionIsFirstInPreorder | src/core/aas.rs:208-223 | the recursive search returns the first collection with the id_short in depth-first pre-order, the collection itself first |
| Aas.FindInChildrenIsFirstInPreorder | src/core/aas.rs:215-222 | the loop over the children returns the first match in the pre-order of the remaining children |
| Aas.FindCollectionByIdShortSpec | src/core/aas.rs:208-223 | a result carries the id_short and lies in the tree; None exactly when no collection in the tree has it |
| Aas.FindCollectionByIdShort | src/core/aas.rs:208-223 | `find_collection_by_id_short`: the collection itself when its id_short matches, else the first match from its Collection children; FindCollectionIsFirstInPreorder gives its meaning |
| Aas.FindInChildren | src/core/aas.rs:215-222 | the `for elem in &collection.value` loop from a given child on, returning the first recursive hit |
| Aas.Preorder | src/core/aas.rs:208-223 | reference definition for the search: every collection of the tree, each collection before its descendants and children taken in document order |
| Aas.ResolveNeedsOneHash | src/core/aas.rs:170-174 | a reference without exactly one `#` resolves to None |
| Aas.ResolveSplitsAtHash | src/core/aas.rs:170-205 | `id#name` with `#`-free parts resolves to the SensorID of collection `name` in the submodel with id `id` |
| Aas.ResolveSensorReference | src/core/aas.rs:169-205 | `resolve_sensor_reference`: None unless the reference splits at `#` into exactly two parts, then SensorIdAt on them |
| Aas.SensorIdAt | src/core/aas.rs:177-204 | the first submodel with that id; in its first top-level collection where the recursive search succeeds, the collection found; that found collection's first direct SensorID property; its value only when it is a string |
| Aas.SensorIdAtFound | src/core/aas.rs:175-205 | a resolved id is the string value of the first direct SensorID property of the collection found by recursive search in the first top-level collection holding it, of the first submodel with that id |
| Aas.SensorIdAtPositions | src/core/aas.rs:178-204 | at those first positions, a string SensorID resolves to its text and any other value to None, with no fallback to a later property |
| Aas.SensorIdAtSpec | src/core/aas.rs:175-205 | both directions of the above |
| Aas.GatherSensorIdsInCollection | src/core/aas.rs:260-278 | the result is the old result followed by every string SensorID in the collection, depth-first in document order |
| Aas.FindAllSensorIdsInDatasources | src/core/aas.rs:227-256 | empty when the submodel or its named top-level collection is missing, else the gathered ids of that collection |
| Aas.SensorIdsMembership | src/core/aas.rs:258-278 | an id is gathered exactly when some collection in the tree has a direct SensorID property with that string value |
| Aas.SensorIdsFromMembership | src/core/aas.rs:261-277 | the same, for the children from a given position on |
| Aas.SensorIds | src/core/aas.rs:258-278 | reference definition for the gathering: every string SensorID property at any depth, depth-first in document order; GatherSensorIdsInCollection is proved equal to it |
| ActorMacros.IndexOf | digitaltwin-macros/src/lib.rs:408-414 | `find`: the first position of the character at or after the start, or the length when it is absent |
| ActorMacros.IndexOfUnique | digitaltwin-macros/src/lib.rs:408-414 | a position holding the character with none before it from the start is what `find` returns |
| ActorMacros.IsWhitespace | digitaltwin-macros/src/lib.rs:415-417 | the Unicode White_Space set that `char::is_whitespace`, and so `str::trim`, uses |
| ActorMacros.TrimStart | digitaltwin-macros/src/lib.rs:415-417 | leading whitespace removed; TrimStartSpec states it |
| ActorMacros.TrimEnd | digitaltwin-macros/src/lib.rs:415-417 | trailing whitespace removed; TrimEndSpec states it |
| ActorMacros.Trim | digitaltwin-macros/src/lib.rs:415-417 | `str::trim`, both ends; TrimSpec and TrimOfTrimmed state it |
| ActorMacros.TrimStartSpec | digitaltwin-macros/src/lib.rs:415-417 | trimming the start drops a whitespace prefix and leaves no leading whitespace |
| ActorMacros.TrimEndSpec | digitaltwin-macros/src/lib.rs:415-417 | trimming the end drops a whitespace suffix and leaves no trailing whitespace |
| ActorMacros.TrimSpec | digitaltwin-macros/src/lib.rs:415-417 | `trim` yields a trimmed infix with only whitespace cut on either side |
| ActorMacros.TrimOfTrimmed | digitaltwin-macros/src/lib.rs:415-417 | trimming a trimmed string changes nothing |
| ActorMacros.ParseFindsDelimiters | digitaltwin-macros/src/lib.rs:408-414 | an attribute yields an entry only when the opening quote, the closing quote, a later `=` and a later `)` all exist; otherwise it yields nothing |
| ActorMacros.ParseAtDelimiters | digitaltwin-macros/src/lib.rs:408-417 | at the first such delimiters, the key is the text between the quotes and the handler is the trimmed text between `=` and `)` |
| ActorMacros.ParseHandlerAttributeSpec | digitaltwin-macros/src/lib.rs:407-417 | both directions of the above |
| ActorMacros.ParseHandlerAttribute | digitaltwin-macros/src/lib.rs:407-417 | the manual parse of `("Key" = handler)`: the first `"`, the next `"`, the first `=` from the closing quote on, the next `)`; any missing one gives no entry; ParseHandlerAttributeSpec and ParseAttributeTokens characterise it |
| ActorMacros.TokensDelimiters | digitaltwin-macros/src/lib.rs:407 | the token string `("Key" = handler)` has its delimiters where the parser looks for them |
| ActorMacros.ParseAttributeTokens | digitaltwin-macros/src/lib.rs:407-417 | round trip: parsing `("Key" = handler)` gives back the key and the handler |
| ActorMacros.ExtractHandlerMaps | digitaltwin-macros/src/lib.rs:395-435 | the loop yields the parsed entries of the dispatch_map attributes and of the command_map attributes, each in attribute order |
| ActorMacros.HandlerEntries | digitaltwin-macros/src/lib.rs:399-431 | reference definition for the loop: the parsed entries of the attributes with one path, in attribute order |
| ActorMacros.HandlerEntriesMembership | digitaltwin-macros/src/lib.rs:399-431 | an entry is extracted exactly when some attribute with that path parses to it; other attributes are ignored |
| ActorMacros.HandlerEntriesAppend | digitaltwin-macros/src/lib.rs:399-434 | the entries of concatenated attribute lists are the concatenated entries, so order is preserved |
| ActorMacros.HandlerAttributesRoundTrip | digitaltwin-macros/src/lib.rs:399-434 | writing well-formed pairs as attributes of one path and extracting them gives back the pairs for that path and nothing for the other |
| ActorMacros.ImplBlockEntries | digitaltwin-macros/src/lib.rs:236 | an impl block with dispatch attributes and then command attributes gives back each list |
| ActorMacros.ExtractSlotsFromAttrArgs | digitaltwin-macros/src/lib.rs:347-363 | the loop returns the string literals of the first `slots(...)` list, in order, or nothing when there is no such list |
| ActorMacros.SlotsOfSpec | digitaltwin-macros/src/lib.rs:347-363 | no `slots` list gives no slots; otherwise a slot is returned exactly when it is a string literal of the first list |
| ActorMacros.StringLiteralsMembership | digitaltwin-macros/src/lib.rs:353-357 | a string is kept exactly when it appears as a string literal; other items are skipped |
| ActorMacros.SlotsOf | digitaltwin-macros/src/lib.rs:347-363 | reference definition: the string literals of the first `slots(...)` list, or none; SlotsOfSpec states it |
| ActorMacros.StringLiterals | digitaltwin-macros/src/lib.rs:353-357 | the string literals of a nested list, in order, other items skipped |
| ActorMacros.ExtractDefaultStateFromAttrArgs | digitaltwin-macros/src/lib.rs:333-344 | the loop returns the string of the first `default_state = "..."` argument, or None |
| ActorMacros.DefaultStateOfSpec | digitaltwin-macros/src/lib.rs:333-344 | None exactly when no argument is a string `default_state`; otherwise the first one's value |
| ActorMacros.DefaultStateOf | digitaltwin-macros/src/lib.rs:333-344 | reference definition: the string of the first `default_state = "..."` argument, or None |
| ChargingStation.DefaultFromActorAttribute | digitaltwin/src/models/charging_station.rs:22-33 | the `#[actor]` arguments give default state Idle and slots CurrentPowerDraw and InputCurrent, as the model's default and slots say |
| ChargingStation.MapsFromAttributes | digitaltwin/src/models/charging_station.rs:35-110 | every state's dispatch and command maps are the ones `#[actor_state]` builds from its attributes |
| ChargingStation.PairsBuildMaps | digitaltwin/src/models/charging_station.rs:35-110 | each state's maps hold exactly its attribute pairs |
| ChargingStation.DispatchMap | digitaltwin/src/models/charging_station.rs:35-110 | each state's `create_dispatch_map`: Idle and Charging map CurrentPowerDraw to power_change, Connected and Charging map InputCurrent to current_change, Fault maps nothing |
| ChargingStation.CommandMap | digitaltwin/src/models/charging_station.rs:35-110 | each state's `create_command_map`: VehicleDetected, VehicleDisconnected, SetChargingCurrent and Reset, one per state |
| ChargingStation.OnSlot | digitaltwin/src/models/charging_station.rs:41-99 | the reading handlers: Idle faults above max_sleep_power, Connected charges above min_current, Charging falls back to Connected below max_sleep_power and faults above max_current; the Behaviour lemmas state each case |
| ChargingStation.OnCommand | digitaltwin/src/models/charging_station.rs:51-116 | the command handlers: connect_vehicle to Connected, disconnect_vehicle to Idle, set_charging_current stays Charging, reset to Idle |
| ChargingStation.StateName | digitaltwin-macros/src/lib.rs:278-280 | `state_name()`: the state type's identifier, matched against `default_state` in DefaultFromActorAttribute |
| ChargingStation.IdleBehaviour | digitaltwin/src/models/charging_station.rs:38-54 | in Idle, power above max_sleep_power goes to Fault and any other stays Idle; VehicleDetected goes to Connected |
| ChargingStation.ConnectedBehaviour | digitaltwin/src/models/charging_station.rs:59-74 | in Connected, current above min_current goes to Charging and any other stays; VehicleDisconnected goes to Idle |
| ChargingStation.ChargingBehaviour | digitaltwin/src/models/charging_station.rs:80-107 | in Charging, power below max_sleep_power goes to Connected; current above max_current goes to Fault; otherwise and on SetChargingCurrent it stays Charging |
| ChargingStation.FaultBehaviour | digitaltwin/src/models/charging_station.rs:109-116 | in Fault, Reset goes to Idle and every other input stays in Fault |
| ChargingStation.UnmappedInputsAreNoOps | digitaltwin/src/models/charging_station.rs:35-79 | CurrentPowerDraw in Connected, InputCurrent in Idle and Reset outside Fault change nothing |
| ChargingStation.FaultEntry | digitaltwin/src/models/charging_station.rs:41-99 | a step enters Fault exactly from Idle on too much power or from Charging on overcurrent |
| ChargingStation.FaultPersistsUntilReset | digitaltwin/src/models/charging_station.rs:109-116 | without a Reset the station stays in Fault whatever the inputs |
| ChargingStation.ThresholdsNeverChange | digitaltwin/src/models/charging_station.rs:23-33 | no inputs change the three thresholds |
| ChargingStation.PowerInIdleTrace | digitaltwin/src/models/charging_station.rs:124-129 | from the default, a power reading of 10 gives Fault |
| ChargingStation.VehicleDetectedTrace | digitaltwin/src/models/charging_station.rs:132-140 | from the default, VehicleDetected gives Connected |
| ChargingStation.ChargingTraces | digitaltwin/src/models/charging_station.rs:143-172 | VehicleDetected and current 10 give Charging; power 1 afterwards gives Connected |
| ChargingStation.OvercurrentAndResetTraces | digitaltwin/src/models/charging_station.rs:175-202 | after current 10, a current of 20 gives Fault, and Reset then gives Idle |
| LightBulb.DefaultFromActorAttribute | digitaltwin/src/models/light_bulb.rs:11-15 | the `#[actor]` arguments give default state Off and the single slot CurrentPowerDraw |
| LightBulb.MapsFromAttributes | digitaltwin/src/models/light_bulb.rs:18-38 | both states' maps are the ones built from their attributes |
| LightBulb.DispatchMap | digitaltwin/src/models/light_bulb.rs:18-38 | both states map CurrentPowerDraw to power_change |
| LightBulb.CommandMap | digitaltwin/src/models/light_bulb.rs:18-38 | On maps SwitchOff to switch_off, Off maps SwitchOn to switch_on |
| LightBulb.OnSlot | digitaltwin/src/models/light_bulb.rs:22-46 | power_change: On goes Off below the threshold, Off goes On at or above it; OffBehaviour, OnBehaviour and PowerReadingDecides state it |
| LightBulb.OnCommand | digitaltwin/src/models/light_bulb.rs:30-51 | switch_off gives Off and switch_on gives On |
| LightBulb.StateName | digitaltwin-macros/src/lib.rs:278-280 | `state_name()`: the state type's identifier |
| LightBulb.OffBehaviour | digitaltwin/src/models/light_bulb.rs:36-51 | in Off, power at or above the threshold gives On and below it stays Off; SwitchOn gives On; SwitchOff changes nothing |
| LightBulb.OnBehaviour | digitaltwin/src/models/light_bulb.rs:18-33 | in On, power below the threshold gives Off and any other stays On; SwitchOff gives Off; SwitchOn changes nothing |
| LightBulb.PowerReadingDecides | digitaltwin/src/models/light_bulb.rs:22-46 | after a power reading the bulb is On exactly when the reading reaches the threshold, whatever the state before |
| LightBulb.LastPowerReadingDecides | digitaltwin/src/models/light_bulb.rs:22-46 | the same after any history that ends in a power reading |
| LightBulb.ThresholdNeverChanges | digitaltwin/src/models/light_bulb.rs:13-14 | no inputs change the threshold |
| LightBulb.PowerSlotTraceAsWritten | digitaltwin/src/models/light_bulb.rs:58-67 | the readings the test feeds on slot "power" change nothing, so the bulb is still Off where the test expects On |
| LightBulb.PowerTrace | digitaltwin/src/models/light_bulb.rs:58-72 | on the declared slot the readings 0.3, 0.7, 0.3 give Off, On, Off |
| LegacyLightBulb.MapsFromStateMacro | src/models/light_bulb.rs:31-44 | each state's maps hold exactly the pairs its `define_state_maps!` lists |
| LegacyLightBulb.DispatchMap | src/models/light_bulb.rs:31-44 | both states map CurrentPowerDraw to power_change |
| LegacyLightBulb.CommandMap | src/models/light_bulb.rs:31-44 | On maps SwitchOff, Off maps SwitchOn |
| LegacyLightBulb.OnSlot | src/models/light_bulb.rs:47-69 | power_change with the same threshold rule as the newer bulb |
| LegacyLightBulb.OnCommand | src/models/light_bulb.rs:56-74 | switch_off gives Off and switch_on gives On |
| LegacyLightBulb.PowerReadingDecides | src/models/light_bulb.rs:47-69 | after a power reading the bulb is On exactly when the reading reaches the threshold |
| LegacyLightBulb.SwitchBehaviour | src/models/light_bulb.rs:31-73 | SwitchOff in On gives Off and SwitchOn in Off gives On; the opposite commands change nothing |
| LegacyLightBulb.PowerSlotTraceAsWritten | src/models/light_bulb.rs:81-90 | the test's readings on slot "power" leave the bulb Off where the test expects On |
| LegacyLightBulb.PowerTrace | src/models/light_bulb.rs:81-95 | on the declared slot the readings 0.3, 0.7, 0.3 give Off, On, Off |
| LegacyLightBulb.SameAsLightBulb | src/models/light_bulb.rs:14-74 | the older copy has the newer one's default and slots, and every input sequence takes both to corresponding states |
| Twins.ObjectTypeNeedsThreeColons | digitaltwin/src/twin_runner.rs:40 | the id has a fourth `:` component exactly when it contains at least three `:` |
| Twins.ObjectTypeOfJoin | digitaltwin/src/twin_runner.rs:40 | the object type of an id written as `:`-free components is its fourth component |
| Twins.ObjectType | digitaltwin/src/twin_runner.rs:40 | `id.split(':').nth(3)`: the fourth component, or None (where the source unwraps and panics) |
| Twins.SensorFor | digitaltwin/src/twin_runner.rs:80-83 | a slot's DataSource reference in PowerAndElectrical, resolved to a SensorID |
| Twins.SensorEntries | digitaltwin/src/twin_runner.rs:78-89 | the (sensor, slot) pairs the loop inserts, one per slot that resolves |
| Twins.SlotMap | digitaltwin/src/twin_runner.rs:78-89 | the map `init` builds: those pairs inserted in slot order |
| Twins.SensorEntriesSpec | digitaltwin/src/twin_runner.rs:78-89 | a (sensor, slot) pair is inserted exactly when that slot's reference resolves to that sensor |
| Twins.SensorEntriesAppend | digitaltwin/src/twin_runner.rs:78-89 | slot order is kept: the inserts for two slot lists in a row are those of the first followed by those of the second |
| Twins.SensorKeys | digitaltwin/src/twin_runner.rs:78-89 | a sensor is a key of the map built from a slot list exactly when some slot resolves to it |
| Twins.SlotMapKeys | digitaltwin/src/twin_runner.rs:78-89 | the same for the map `init` builds from the AAS; unresolved slots add nothing |
| Twins.LastSensorWins | digitaltwin/src/twin_runner.rs:85 | when several slots resolve to one sensor, the map holds the last of them |
| Twins.SlotMapLastSlotWins | digitaltwin/src/twin_runner.rs:78-89 | the same for the map `init` builds from the AAS |
| Twins.SlotMapInsert | digitaltwin/src/twin_runner.rs:80-88 | one more loop iteration inserts the slot under its sensor when the reference resolves, and changes nothing otherwise |
| TwinRunner.FactorySpec | digitaltwin/src/twin_runner.rs:40-46 | "light" and "ev" give the LightBulb default and "charging-station" the ChargingStation default; any other type, or fewer than three `:`, has no twin |
| TwinRunner.Factory | digitaltwin/src/twin_runner.rs:35-46 | the actor and slots `new` picks from the object type; None where it panics |
| TwinRunner.CreateDefault | digitaltwin/src/twin_runner.rs:41-46 | the match on the object type: LightBulb defaults for light and ev, ChargingStation defaults for charging-station |
| TwinRunner.Handle | digitaltwin/src/twin_runner.rs:114-130 | one message: a mapped reading goes to its slot, an unmapped one is dropped, a command goes to `execute` |
| TwinRunner.HandleAll | digitaltwin/src/twin_runner.rs:108-134 | messages handled in receive order; HandleAllIsRun ties it to the machine |
| TwinRunner.HandleAllIsRun | digitaltwin/src/twin_runner.rs:108-134 | handling messages in order is running the twin's own machine on the slot inputs and commands they carry |
| TwinRunner.HandleAllKeepsTypeAndFields | digitaltwin/src/twin_runner.rs:108-134 | a twin keeps its actor type and its thresholds whatever messages it handles |
| TwinRunner.UnknownDevicesIgnored | digitaltwin/src/twin_runner.rs:120-123 | readings from devices missing from the slot map leave the twin unchanged |
| TwinRunner.BoundSensorDrivesBulb | digitaltwin/src/twin_runner.rs:115-119 | a reading from the sensor bound to CurrentPowerDraw lights a bulb twin exactly when it reaches the threshold |
| TwinRunner.Runner.constructor | digitaltwin/src/twin_runner.rs:35-59 | the actor and slots come from the factory for the id's object type; the slot map starts empty |
| TwinRunner.Runner.Init | digitaltwin/src/twin_runner.rs:65-105 | registers with the manager and the network receiver, adds the slot map built from the AAS, and sends Subscribe only for a non-empty sensor list; the actor is untouched |
| TwinRunner.Runner.BindSlots | digitaltwin/src/twin_runner.rs:78-89 | the slot loop inserts, in slot order, every slot whose DataSource reference resolves to a sensor id, so the map gains exactly the slot map built from the AAS |
| TwinRunner.Runner.HandleMessage | digitaltwin/src/twin_runner.rs:113-130 | one message replaces the actor state as Handle says, and changes nothing else |
| TwinRunner.Runner.Body | digitaltwin/src/twin_runner.rs:108-134 | after `init`, the messages are handled in receive order, and the slot map stays as `init` left it |
| LegacyTwinActor.CreatedSpec | src/core/twin_actor.rs:40-52 | the same three types as the newer runner are accepted, and each one, the charging station included, becomes the older LightBulb with threshold 0.5 |
| LegacyTwinActor.Created | src/core/twin_actor.rs:40-52 | the actor and slots `new` picks: the older LightBulb for all three object types; None where it panics |
| LegacyTwinActor.Handle | src/core/twin_actor.rs:123-139 | one message, with the same rules as the newer runner |
| LegacyTwinActor.HandleAll | src/core/twin_actor.rs:117-143 | messages handled in receive order |
| LegacyTwinActor.HandleAllIsRun | src/core/twin_actor.rs:117-143 | handling messages in order is running the bulb machine on the inputs they carry |
| LegacyTwinActor.AgreesWithRunnerOnBulbs | src/core/twin_actor.rs:41-43 | for lights and EVs the older task and the newer runner reach corresponding states on every message sequence |
| LegacyTwinActor.TwinActor.constructor | src/core/twin_actor.rs:35-64 | the actor is the LightBulb default with its slots, and the slot map starts empty |
| LegacyTwinActor.TwinActor.Init | src/core/twin_actor.rs:70-114 | registers twice, adds the slot map built from the AAS, and subscribes only for a non-empty sensor list |
| LegacyTwinActor.TwinActor.BindSlots | src/core/twin_actor.rs:86-96 | the same slot loop, with the same resulting map |
| LegacyTwinActor.TwinActor.HandleMessage | src/core/twin_actor.rs:123-139 | a mapped reading or a command replaces the state, and an unmapped device leaves everything unchanged |
| LegacyTwinActor.TwinActor.Body | src/core/twin_actor.rs:117-143 | after `init`, the messages are handled in receive order |
| NetworkReceiver.SubscribedKeys | src/network_receiver.rs:155-157 | after Subscribe, a device has an entry exactly when it had one or is listed |
| NetworkReceiver.SubscribedLists | src/network_receiver.rs:155-157 | Subscribe appends the subscriber to a device's list once for every time the device is listed, duplicates kept |
| NetworkReceiver.SubscribedSpec | src/network_receiver.rs:153-158 | both of the above |
| NetworkReceiver.Subscribers | src/network_receiver.rs:107 | a device's subscriber list, empty when it has no entry |
| NetworkReceiver.Subscribed | src/network_receiver.rs:152-156 | Subscribe: the subscriber appended to each listed device's list in turn, the entry created when missing |
| NetworkReceiver.Apply | src/network_receiver.rs:151-163 | a twin message: Subscribe extends the subscriptions, Register sets the channel |
| NetworkReceiver.ReRegisterReplaces | src/network_receiver.rs:160-163 | a second Register for an asset replaces its channel |
| NetworkReceiver.RoutedAppend | src/network_receiver.rs:109-121 | routing to two subscriber lists one after the other is routing to their concatenation |
| NetworkReceiver.RoutedMembership | src/network_receiver.rs:108-121 | a delivery is made exactly when it carries the message to the channel of a listed subscriber that has one |
| NetworkReceiver.RoutedRepeat | src/network_receiver.rs:109-121 | a subscriber listed k times gets k deliveries, or none when it has no channel |
| NetworkReceiver.Routed | src/network_receiver.rs:107-120 | one delivery per listed subscriber that has a channel, in list order |
| NetworkReceiver.UpdateDeliveries | src/network_receiver.rs:106-122 | an update routed to its device's subscribers |
| NetworkReceiver.CommandDeliveries | src/network_receiver.rs:123-136 | a command sent to its target's channel, or nowhere when the target has none |
| NetworkReceiver.MessageDeliveries | src/network_receiver.rs:104-136 | a decoded message: its update deliveries, then its command delivery |
| NetworkReceiver.EventDeliveries | src/network_receiver.rs:100-147 | only a publish that decodes sends anything |
| NetworkReceiver.TablesAfter | src/network_receiver.rs:97-166 | the tables after the inputs the loop takes: only twin messages change them |
| NetworkReceiver.Sent | src/network_receiver.rs:97-166 | everything sent for those inputs, each broker event routed with the tables as they stand then |
| NetworkReceiver.SubscribeThenUpdate | src/network_receiver.rs:107-158 | after Subscribe, an update reaches the earlier subscribers as before, then the new one once per listing; a subscriber without a channel gets nothing |
| NetworkReceiver.RegisteredSubscriberReceives | src/network_receiver.rs:107-163 | a twin that registered and subscribed to a device is sent every later reading of it on its channel |
| NetworkReceiver.MessageDeliveriesSpec | src/network_receiver.rs:107-137 | updates go only to subscribers' channels and commands only to the target's channel; all update deliveries precede the command, which is sent when the target has a channel |
| NetworkReceiver.BrokerOnlySendsTwinsOnlyConfigure | src/network_receiver.rs:98-166 | broker events never change the tables, and messages from twins never send anything |
| NetworkReceiver.IgnoredEventsSendNothing | src/network_receiver.rs:138-148 | an undecodable publish and any other event send nothing |
| NetworkReceiver.Receiver.constructor | src/network_receiver.rs:68-77 | both tables start empty |
| NetworkReceiver.Receiver.AddSubscriber | src/network_receiver.rs:153-158 | the loop leaves the subscriptions as Subscribe specifies and touches nothing else |
| NetworkReceiver.Receiver.RegisterAsset | src/network_receiver.rs:160-163 | sets the asset's channel and touches nothing else |
| NetworkReceiver.Receiver.HandleNetworkMessage | src/network_receiver.rs:152-164 | a message from a twin updates the tables as Apply says |
| NetworkReceiver.Receiver.Route | src/network_receiver.rs:107-121 | the loop over the subscribers sends what Routed specifies |
| NetworkReceiver.Receiver.HandleEvent | src/network_receiver.rs:100-149 | a broker event sends what EventDeliveries specifies and changes no table |
| NetworkReceiver.Receiver.Body | src/network_receiver.rs:92-168 | the inputs, in the order the loop takes them, give the tables and the sends of the specification functions |

## Left out

- MQTT and async plumbing are not modelled: the client setup, polling, `tokio::select!`, channel creation and `.await`ed sends. Broker events arrive already decoded, and the order in which `select!` takes inputs is a parameter of `Body`. A send is an appended record, and a send that fails (receiver dropped) is treated like any other.
- JSON decoding is not modelled (`serde_json::from_slice` in the receiver). A payload is already a `Message`, or None when it does not decode. Command arguments are opaque.
- `find_elements_in_collection`, called by both twin tasks for the sensor ids, is not part of this model. It is the `sensorIds` parameter of `Init`.
- The manager (src/manager.rs), the entry points, src/mqtt_sender.rs and the files holding only type declarations are not modelled. The manager appears only as the `ManagerRegister` records a twin sends.
- Code generation is not modelled: `quote!`, the `syn` parse tree, `Ident::new` (which panics on a handler name that is not an identifier), and the panic when `default_state` is missing. Attributes are modelled as a path and a token string, and `#[actor]` arguments as the `NestedMeta` datatype.
- `extract_default_value` and `create_with_params` are not modelled. Field defaults are taken from the `#[actor_attr(default = ...)]` literals, and the JSON parameter extraction is out of scope.
- The `define_actor!`, `define_actor_factory!`, `declare_slots!` and `define_state_maps!` macros of the first crate are not part of this model. Their lists are taken to be inserted in order, as `#[actor_state]` does.
- `LegacyLightBulb` and `LegacyTwinActor.Created` rest on two assumptions about that first crate, whose macro definitions are not part of this model. First, `LightBulb::<()>::create(0.5)` (src/core/twin_actor.rs:42-44) is taken to build the bulb in its declared default state Off, with threshold 0.5 and Off's maps. Second, the generated `input_change` and `execute` are taken to return the actor unchanged for a key missing from the current state's map, as the newer macros do (digitaltwin-macros/src/lib.rs:297-311). The second Findings row depends on that second assumption.
- `state()` appears only as `StateName`, the `state_name()` identifier matched against `default_state`. `type_name()`, `as_any()` and logging are not modelled: the state is a datatype value, and downcasts in the tests become state comparisons.
- Readings are `real`, so `f32` rounding is not modelled. The comparisons in the handlers are exact.
- `TwinRunner.Runner.constructor` and `LegacyTwinActor.TwinActor.constructor` require a known object type. The source panics instead, so the failure is the `None` of `TwinRunner.Factory` and `LegacyTwinActor.Created`.

## Findings

| source | as written | input that shows it | evidently intended | confidence | as-written member | corrected member |
|---|---|---|---|---|---|---|
| digitaltwin/src/models/light_bulb.rs:61-67 | the test feeds the readings on slot "power", which neither state's dispatch map holds, so each call returns the bulb unchanged | readings 0.3 then 0.7 on "power" from the default: the bulb is still Off where the test asserts On | the readings go to the declared slot "CurrentPowerDraw" | not executed | LightBulb.PowerSlotTraceAsWritten | LightBulb.PowerTrace |
| src/models/light_bulb.rs:84-90 | the older copy's test feeds slot "power" too, against maps that only hold "CurrentPowerDraw" | readings 0.3 then 0.7 on "power" from Off: still Off where the test asserts On | the readings go to "CurrentPowerDraw" | not executed; assumes the older macros leave the bulb unchanged on an unknown slot (see Left out) | LegacyLightBulb.PowerSlotTraceAsWritten | LegacyLightBulb.PowerTrace |
