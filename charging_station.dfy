/** The ChargingStation twin (digitaltwin/src/models/charging_station.rs): four
    states, three thresholds, two input slots and four commands. Every handler
    compares its value with a field and picks the next state through
    `transition`, so a handler is the state it picks. */
module ChargingStation {
  import opened Wrappers
  import opened Dispatch
  import opened ActorMacros

  datatype Phase = Idle | Connected | Charging | Fault

  /** The declared fields: currents in A, power in W. */
  datatype Params = Params(minCurrent: real, maxCurrent: real, maxSleepPower: real)

  type Station = Actor<Params, Phase>

  /** The name `state()` reports: the state type's identifier. */
  function StateName(p: Phase): string
  {
    match p
    case Idle => "Idle"
    case Connected => "Connected"
    case Charging => "Charging"
    case Fault => "Fault"
  }

  /** The arguments of `#[actor(default_state = "Idle", slots("CurrentPowerDraw", "InputCurrent"))]`. */
  const ActorArgs: seq<NestedMeta> := [
    MetaItem(NameValue("default_state", LitStr("Idle"))),
    MetaItem(ListMeta("slots", [LitItem(LitStr("CurrentPowerDraw")), LitItem(LitStr("InputCurrent"))]))
  ]

  const Slots: seq<string> := ["CurrentPowerDraw", "InputCurrent"]

  /** `ChargingStationFactory::create_default()`: the `actor_attr` defaults, in the default state. */
  const Default: Station := Actor(Params(1.0, 16.0, 5.0), Idle)

  /** The `#[dispatch_map("Key" = handler)]` entries of each state's impl block, in order. */
  function DispatchPairs(p: Phase): seq<Entry>
  {
    match p
    case Idle => [("CurrentPowerDraw", "power_change")]
    case Connected => [("InputCurrent", "current_change")]
    case Charging => [("CurrentPowerDraw", "power_change"), ("InputCurrent", "current_change")]
    case Fault => []
  }

  /** The `#[command_map("Key" = handler)]` entries of each state's impl block. */
  function CommandPairs(p: Phase): seq<Entry>
  {
    match p
    case Idle => [("VehicleDetected", "connect_vehicle")]
    case Connected => [("VehicleDisconnected", "disconnect_vehicle")]
    case Charging => [("SetChargingCurrent", "set_charging_current")]
    case Fault => [("Reset", "reset")]
  }

  /** The attributes on each state's impl block: its dispatch maps, then its command maps. */
  function Attributes(p: Phase): seq<Attribute>
  {
    HandlerAttributes(DispatchMapPath, DispatchPairs(p)) + HandlerAttributes(CommandMapPath, CommandPairs(p))
  }

  function DispatchMap(p: Phase): map<string, string>
  {
    match p
    case Idle => map["CurrentPowerDraw" := "power_change"]
    case Connected => map["InputCurrent" := "current_change"]
    case Charging => map["CurrentPowerDraw" := "power_change", "InputCurrent" := "current_change"]
    case Fault => map[]
  }

  function CommandMap(p: Phase): map<string, string>
  {
    match p
    case Idle => map["VehicleDetected" := "connect_vehicle"]
    case Connected => map["VehicleDisconnected" := "disconnect_vehicle"]
    case Charging => map["SetChargingCurrent" := "set_charging_current"]
    case Fault => map["Reset" := "reset"]
  }

  /** The slot handlers: `power_change` and `current_change` of each state. */
  function OnSlot(f: Params, p: Phase, handler: string, value: real): Phase
  {
    match p
    case Idle =>
      if handler == "power_change" then (if value > f.maxSleepPower then Fault else Idle) else p
    case Connected =>
      if handler == "current_change" then (if value > f.minCurrent then Charging else Connected) else p
    case Charging =>
      if handler == "power_change" then (if value < f.maxSleepPower then Connected else Charging)
      else if handler == "current_change" then (if value > f.maxCurrent then Fault else Charging)
      else p
    case Fault => p
  }

  /** The command handlers; none of them reads its argument. */
  function OnCommand(f: Params, p: Phase, handler: string, args: Args): Phase
  {
    match handler
    case "connect_vehicle" => Connected
    case "disconnect_vehicle" => Idle
    case "set_charging_current" => Charging
    case "reset" => Idle
    case _ => p
  }

  const StationMachine: Machine<Params, Phase> := Machine(DispatchMap, CommandMap, OnSlot, OnCommand)

  function Step(a: Station, input: Input): Station
  {
    Dispatch.Step(StationMachine, a, input)
  }

  function Run(a: Station, inputs: seq<Input>): Station
  {
    Dispatch.Run(StationMachine, a, inputs)
  }

  /** The default state and the slots are what the `#[actor]` attribute declares. */
  lemma DefaultFromActorAttribute()
    ensures DefaultStateOf(ActorArgs) == Some(StateName(Default.state))
    ensures SlotsOf(ActorArgs) == Slots
  {
    assert IsDefaultStateArg(ActorArgs[0]);
    FirstIndexUnique(ActorArgs, IsDefaultStateArg, 0);
    assert !IsSlotsList(ActorArgs[0]) && IsSlotsList(ActorArgs[1]);
    FirstIndexUnique(ActorArgs, IsSlotsList, 1);
    var nested := ActorArgs[1].meta.nested;
    assert nested[..1] == [nested[0]];
    assert nested[..|nested| - 1] == [nested[0]];
    assert StringLiterals(nested[..1]) == ["CurrentPowerDraw"] by {
      assert nested[..1][..0] == [];
    }
  }

  /** Each state's maps are the ones `#[actor_state]` generates from its attributes:
      the entries `extract_handler_maps` finds, inserted in order. */
  lemma MapsFromAttributes(p: Phase)
    ensures DispatchMap(p) == BuildMap(HandlerEntries(Attributes(p), DispatchMapPath))
    ensures CommandMap(p) == BuildMap(HandlerEntries(Attributes(p), CommandMapPath))
  {
    PairsWellFormed(p);
    ImplBlockEntries(DispatchPairs(p), CommandPairs(p));
    PairsBuildMaps(p);
  }

  lemma PairsWellFormed(p: Phase)
    ensures WellFormedPairs(DispatchPairs(p)) && WellFormedPairs(CommandPairs(p))
  {
    match p
    case Idle => IdlePairsWellFormed();
    case Connected => ConnectedPairsWellFormed();
    case Charging => ChargingPairsWellFormed();
    case Fault => FaultPairsWellFormed();
  }

  lemma IdlePairsWellFormed()
    ensures WellFormedPairs(DispatchPairs(Idle)) && WellFormedPairs(CommandPairs(Idle))
  {
    assert WellFormedPair(("CurrentPowerDraw", "power_change"));
    assert WellFormedPair(("VehicleDetected", "connect_vehicle"));
  }

  lemma ConnectedPairsWellFormed()
    ensures WellFormedPairs(DispatchPairs(Connected)) && WellFormedPairs(CommandPairs(Connected))
  {
    assert WellFormedPair(("InputCurrent", "current_change"));
    assert WellFormedPair(("VehicleDisconnected", "disconnect_vehicle"));
  }

  lemma ChargingPairsWellFormed()
    ensures WellFormedPairs(DispatchPairs(Charging)) && WellFormedPairs(CommandPairs(Charging))
  {
    assert WellFormedPair(("CurrentPowerDraw", "power_change"));
    assert WellFormedPair(("InputCurrent", "current_change"));
    assert WellFormedPair(("SetChargingCurrent", "set_charging_current"));
  }

  lemma FaultPairsWellFormed()
    ensures WellFormedPairs(DispatchPairs(Fault)) && WellFormedPairs(CommandPairs(Fault))
  {
    assert WellFormedPair(("Reset", "reset"));
  }

  lemma PairsBuildMaps(p: Phase)
    ensures DispatchMap(p) == BuildMap(DispatchPairs(p))
    ensures CommandMap(p) == BuildMap(CommandPairs(p))
  {
    var d := DispatchPairs(p);
    if |d| == 2 {
      assert d[..1] == [d[0]];
      assert d[..1][..0] == [];
      assert BuildMap(d) == BuildMap(d[..1])[d[1].0 := d[1].1];
    } else if |d| == 1 {
      assert d[..0] == [];
    }
    var c := CommandPairs(p);
    assert c[..0] == [];
  }

  // ---------------------------------------------------------------------------
  // Behaviour per state

  /** Idle: a power draw above `max_sleep_power` is a fault, any other keeps Idle;
      a detected vehicle connects. */
  lemma IdleBehaviour(f: Params, v: real, args: Args)
    ensures v > f.maxSleepPower ==> Step(Actor(f, Idle), Slot("CurrentPowerDraw", v)) == Actor(f, Fault)
    ensures v <= f.maxSleepPower ==> Step(Actor(f, Idle), Slot("CurrentPowerDraw", v)) == Actor(f, Idle)
    ensures Step(Actor(f, Idle), Cmd("VehicleDetected", args)) == Actor(f, Connected)
  {
  }

  /** Connected: an input current above `min_current` starts charging, any other
      keeps Connected; a disconnect goes back to Idle. */
  lemma ConnectedBehaviour(f: Params, v: real, args: Args)
    ensures v > f.minCurrent ==> Step(Actor(f, Connected), Slot("InputCurrent", v)) == Actor(f, Charging)
    ensures v <= f.minCurrent ==> Step(Actor(f, Connected), Slot("InputCurrent", v)) == Actor(f, Connected)
    ensures Step(Actor(f, Connected), Cmd("VehicleDisconnected", args)) == Actor(f, Idle)
  {
  }

  /** Charging: power below `max_sleep_power` means charging is over (Connected);
      a current above `max_current` is a fault; SetChargingCurrent keeps charging. */
  lemma ChargingBehaviour(f: Params, v: real, args: Args)
    ensures v < f.maxSleepPower ==> Step(Actor(f, Charging), Slot("CurrentPowerDraw", v)) == Actor(f, Connected)
    ensures v >= f.maxSleepPower ==> Step(Actor(f, Charging), Slot("CurrentPowerDraw", v)) == Actor(f, Charging)
    ensures v > f.maxCurrent ==> Step(Actor(f, Charging), Slot("InputCurrent", v)) == Actor(f, Fault)
    ensures v <= f.maxCurrent ==> Step(Actor(f, Charging), Slot("InputCurrent", v)) == Actor(f, Charging)
    ensures Step(Actor(f, Charging), Cmd("SetChargingCurrent", args)) == Actor(f, Charging)
  {
  }

  predicate IsReset(input: Input)
  {
    input.Cmd? && input.name == "Reset"
  }

  /** Fault is left only by Reset, which leads to Idle; every slot update and every
      other command leaves the actor exactly as it was. */
  lemma FaultBehaviour(f: Params, input: Input)
    ensures IsReset(input) ==> Step(Actor(f, Fault), input) == Actor(f, Idle)
    ensures !IsReset(input) ==> Step(Actor(f, Fault), input) == Actor(f, Fault)
  {
  }

  /** Keys a state does not map are no-ops: power in Connected, current in Idle,
      Reset anywhere but Fault. */
  lemma UnmappedInputsAreNoOps(f: Params, v: real, args: Args, p: Phase)
    ensures Step(Actor(f, Connected), Slot("CurrentPowerDraw", v)) == Actor(f, Connected)
    ensures Step(Actor(f, Idle), Slot("InputCurrent", v)) == Actor(f, Idle)
    ensures p != Fault ==> Step(Actor(f, p), Cmd("Reset", args)) == Actor(f, p)
  {
  }

  /** Fault is entered only from Idle on a power draw above `max_sleep_power`, or
      from Charging on a current above `max_current`, and both do enter it. */
  lemma FaultEntry(a: Station, input: Input)
    ensures a.state != Fault && Step(a, input).state == Fault <==>
      || (a.state == Idle && input.Slot? && input.name == "CurrentPowerDraw" && input.value > a.fields.maxSleepPower)
      || (a.state == Charging && input.Slot? && input.name == "InputCurrent" && input.value > a.fields.maxCurrent)
  {
  }

  /** Once in Fault, no sequence of inputs without a Reset gets the actor out. */
  lemma {:induction false} FaultPersistsUntilReset(f: Params, inputs: seq<Input>)
    requires forall i :: 0 <= i < |inputs| ==> !IsReset(inputs[i])
    ensures Run(Actor(f, Fault), inputs) == Actor(f, Fault)
    decreases |inputs|
  {
    if inputs != [] {
      FaultBehaviour(f, inputs[0]);
      FaultPersistsUntilReset(f, inputs[1..]);
    }
  }

  /** The thresholds never change, whatever the inputs. */
  lemma ThresholdsNeverChange(a: Station, inputs: seq<Input>)
    ensures Run(a, inputs).fields == a.fields
  {
    RunKeepsFields(StationMachine, a, inputs);
  }

  // ---------------------------------------------------------------------------
  // The unit tests' traces, from the default actor

  const NoArgs: Args := Args("{}")

  lemma PowerInIdleTrace()
    ensures Step(Default, Slot("CurrentPowerDraw", 10.0)).state == Fault
  {
  }

  lemma VehicleDetectedTrace()
    ensures Step(Default, Cmd("VehicleDetected", NoArgs)).state == Connected
  {
  }

  /** The tests chain calls: each input goes to the actor the previous call returned. */
  lemma ChargingTraces()
    ensures Step(Step(Default, Cmd("VehicleDetected", NoArgs)), Slot("InputCurrent", 10.0)).state == Charging
    ensures Step(Step(Step(Default, Cmd("VehicleDetected", NoArgs)), Slot("InputCurrent", 10.0)),
                 Slot("CurrentPowerDraw", 1.0)).state == Connected
  {
    var connected := Step(Default, Cmd("VehicleDetected", NoArgs));
    assert connected == Actor(Default.fields, Connected);
    assert Step(connected, Slot("InputCurrent", 10.0)) == Actor(Default.fields, Charging);
  }

  lemma OvercurrentAndResetTraces()
    ensures Step(Step(Step(Default, Cmd("VehicleDetected", NoArgs)), Slot("InputCurrent", 10.0)),
                 Slot("InputCurrent", 20.0)).state == Fault
    ensures Step(Step(Step(Step(Default, Cmd("VehicleDetected", NoArgs)), Slot("InputCurrent", 10.0)),
                      Slot("InputCurrent", 20.0)), Cmd("Reset", NoArgs)).state == Idle
  {
    var connected := Step(Default, Cmd("VehicleDetected", NoArgs));
    assert connected == Actor(Default.fields, Connected);
    var charging := Step(connected, Slot("InputCurrent", 10.0));
    assert charging == Actor(Default.fields, Charging);
    assert Step(charging, Slot("InputCurrent", 20.0)) == Actor(Default.fields, Fault);
  }
}
