/** The LightBulb twin (digitaltwin/src/models/light_bulb.rs): On and Off, one
    threshold, one input slot and two commands. The power handlers compare the
    reading with the threshold; the switch commands force a state. */
module LightBulb {
  import opened Wrappers
  import opened Dispatch
  import opened ActorMacros

  datatype Light = On | Off

  /** The declared field: the power draw (W) at which the bulb counts as lit. */
  datatype Params = Params(threshold: real)

  type Bulb = Actor<Params, Light>

  function StateName(l: Light): string
  {
    match l
    case On => "On"
    case Off => "Off"
  }

  /** The arguments of `#[actor(default_state = "Off", slots("CurrentPowerDraw"))]`. */
  const ActorArgs: seq<NestedMeta> := [
    MetaItem(NameValue("default_state", LitStr("Off"))),
    MetaItem(ListMeta("slots", [LitItem(LitStr("CurrentPowerDraw"))]))
  ]

  const Slots: seq<string> := ["CurrentPowerDraw"]

  /** `LightBulbFactory::create_default()`: threshold 0.5, in the default state. */
  const Default: Bulb := Actor(Params(0.5), Off)

  function DispatchPairs(l: Light): seq<Entry>
  {
    match l
    case On => [("CurrentPowerDraw", "power_change")]
    case Off => [("CurrentPowerDraw", "power_change")]
  }

  function CommandPairs(l: Light): seq<Entry>
  {
    match l
    case On => [("SwitchOff", "switch_off")]
    case Off => [("SwitchOn", "switch_on")]
  }

  /** The attributes on each state's impl block: its dispatch map, then its command map. */
  function Attributes(l: Light): seq<Attribute>
  {
    HandlerAttributes(DispatchMapPath, DispatchPairs(l)) + HandlerAttributes(CommandMapPath, CommandPairs(l))
  }

  function DispatchMap(l: Light): map<string, string>
  {
    map["CurrentPowerDraw" := "power_change"]
  }

  function CommandMap(l: Light): map<string, string>
  {
    match l
    case On => map["SwitchOff" := "switch_off"]
    case Off => map["SwitchOn" := "switch_on"]
  }

  /** `power_change` of both states: On below the threshold turns Off, Off at or
      above it turns On. */
  function OnSlot(f: Params, l: Light, handler: string, value: real): Light
  {
    if handler != "power_change" then l
    else
      match l
      case On => if value < f.threshold then Off else On
      case Off => if value >= f.threshold then On else Off
  }

  function OnCommand(f: Params, l: Light, handler: string, args: Args): Light
  {
    match handler
    case "switch_off" => Off
    case "switch_on" => On
    case _ => l
  }

  const BulbMachine: Machine<Params, Light> := Machine(DispatchMap, CommandMap, OnSlot, OnCommand)

  function Step(a: Bulb, input: Input): Bulb
  {
    Dispatch.Step(BulbMachine, a, input)
  }

  function Run(a: Bulb, inputs: seq<Input>): Bulb
  {
    Dispatch.Run(BulbMachine, a, inputs)
  }

  /** The default state and the single slot are what the `#[actor]` attribute declares. */
  lemma DefaultFromActorAttribute()
    ensures DefaultStateOf(ActorArgs) == Some(StateName(Default.state))
    ensures SlotsOf(ActorArgs) == Slots
  {
    assert IsDefaultStateArg(ActorArgs[0]);
    FirstIndexUnique(ActorArgs, IsDefaultStateArg, 0);
    assert !IsSlotsList(ActorArgs[0]) && IsSlotsList(ActorArgs[1]);
    FirstIndexUnique(ActorArgs, IsSlotsList, 1);
    var nested := ActorArgs[1].meta.nested;
    assert nested[..0] == [];
  }

  /** Each state's maps are the ones `#[actor_state]` generates from its attributes. */
  lemma MapsFromAttributes(l: Light)
    ensures DispatchMap(l) == BuildMap(HandlerEntries(Attributes(l), DispatchMapPath))
    ensures CommandMap(l) == BuildMap(HandlerEntries(Attributes(l), CommandMapPath))
  {
    PairsWellFormed(l);
    ImplBlockEntries(DispatchPairs(l), CommandPairs(l));
    PairsBuildMaps(l);
  }

  lemma PairsWellFormed(l: Light)
    ensures WellFormedPairs(DispatchPairs(l)) && WellFormedPairs(CommandPairs(l))
  {
    match l
    case On => OnPairsWellFormed();
    case Off => OffPairsWellFormed();
  }

  lemma PairsBuildMaps(l: Light)
    ensures DispatchMap(l) == BuildMap(DispatchPairs(l))
    ensures CommandMap(l) == BuildMap(CommandPairs(l))
  {
    assert DispatchPairs(l)[..0] == [] && CommandPairs(l)[..0] == [];
  }

  lemma OnPairsWellFormed()
    ensures WellFormedPairs(DispatchPairs(On)) && WellFormedPairs(CommandPairs(On))
  {
    assert WellFormedPair(("CurrentPowerDraw", "power_change"));
    assert WellFormedPair(("SwitchOff", "switch_off"));
  }

  lemma OffPairsWellFormed()
    ensures WellFormedPairs(DispatchPairs(Off)) && WellFormedPairs(CommandPairs(Off))
  {
    assert WellFormedPair(("CurrentPowerDraw", "power_change"));
    assert WellFormedPair(("SwitchOn", "switch_on"));
  }

  // ---------------------------------------------------------------------------
  // Behaviour

  /** Off: a reading at or above the threshold turns the bulb On, a lower one keeps
      it Off; SwitchOn turns it On and SwitchOff, unmapped here, changes nothing. */
  lemma OffBehaviour(f: Params, v: real, args: Args)
    ensures v >= f.threshold ==> Step(Actor(f, Off), Slot("CurrentPowerDraw", v)) == Actor(f, On)
    ensures v < f.threshold ==> Step(Actor(f, Off), Slot("CurrentPowerDraw", v)) == Actor(f, Off)
    ensures Step(Actor(f, Off), Cmd("SwitchOn", args)) == Actor(f, On)
    ensures Step(Actor(f, Off), Cmd("SwitchOff", args)) == Actor(f, Off)
  {
  }

  /** On: a reading below the threshold turns the bulb Off, any other keeps it On;
      SwitchOff turns it Off and SwitchOn, unmapped here, changes nothing. */
  lemma OnBehaviour(f: Params, v: real, args: Args)
    ensures v < f.threshold ==> Step(Actor(f, On), Slot("CurrentPowerDraw", v)) == Actor(f, Off)
    ensures v >= f.threshold ==> Step(Actor(f, On), Slot("CurrentPowerDraw", v)) == Actor(f, On)
    ensures Step(Actor(f, On), Cmd("SwitchOff", args)) == Actor(f, Off)
    ensures Step(Actor(f, On), Cmd("SwitchOn", args)) == Actor(f, On)
  {
  }

  /** After a power reading the bulb is On exactly when the reading reaches the
      threshold, whatever state it was in. */
  lemma PowerReadingDecides(a: Bulb, v: real)
    ensures Step(a, Slot("CurrentPowerDraw", v)).state == On <==> v >= a.fields.threshold
  {
  }

  /** The same holds at the end of any history whose last input is a power reading:
      earlier inputs never shift the threshold. */
  lemma LastPowerReadingDecides(a: Bulb, inputs: seq<Input>, v: real)
    ensures Run(a, inputs + [Slot("CurrentPowerDraw", v)]).state == On <==> v >= a.fields.threshold
  {
    RunAppend(BulbMachine, a, inputs, [Slot("CurrentPowerDraw", v)]);
    RunKeepsFields(BulbMachine, a, inputs);
    PowerReadingDecides(Run(a, inputs), v);
  }

  /** The threshold never changes, whatever the inputs. */
  lemma ThresholdNeverChanges(a: Bulb, inputs: seq<Input>)
    ensures Run(a, inputs).fields == a.fields
  {
    RunKeepsFields(BulbMachine, a, inputs);
  }

  // ---------------------------------------------------------------------------
  // The unit test's trace

  /** As written, the test feeds the slot "power", which no state maps: every call
      returns the bulb unchanged, so it is still Off after the 0.7 reading the test
      expects to turn it On. */
  lemma PowerSlotTraceAsWritten()
    ensures Step(Default, Slot("power", 0.3)) == Default
    ensures Step(Step(Default, Slot("power", 0.3)), Slot("power", 0.7)).state == Off
  {
  }

  /** With the declared slot the readings 0.3, 0.7, 0.3 give Off, On, Off. */
  lemma PowerTrace()
    ensures Step(Default, Slot("CurrentPowerDraw", 0.3)).state == Off
    ensures Step(Step(Default, Slot("CurrentPowerDraw", 0.3)), Slot("CurrentPowerDraw", 0.7)).state == On
    ensures Step(Step(Step(Default, Slot("CurrentPowerDraw", 0.3)), Slot("CurrentPowerDraw", 0.7)),
                 Slot("CurrentPowerDraw", 0.3)).state == Off
  {
    var first := Step(Default, Slot("CurrentPowerDraw", 0.3));
    assert first == Default;
    assert Step(first, Slot("CurrentPowerDraw", 0.7)) == Actor(Default.fields, On);
  }
}
