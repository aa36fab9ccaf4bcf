/** The older LightBulb (src/models/light_bulb.rs), declared with the `define_*`
    macros of the first crate instead of attributes. Those macros are not part of
    this model; their lists are taken to be inserted in order, as
    `#[actor_state]` does. The behaviour is the same as the newer LightBulb, which
    `SameAsLightBulb` states. */
module LegacyLightBulb {
  import opened Dispatch
  import LightBulb

  datatype Light = On | Off

  datatype Params = Params(threshold: real)

  type Bulb = Actor<Params, Light>

  /** `define_actor!(LightBulb { threshold: f32 = 0.5 }, Off)`. */
  const Default: Bulb := Actor(Params(0.5), Off)

  /** `declare_slots!(LightBulb, ["CurrentPowerDraw"])`. */
  const Slots: seq<string> := ["CurrentPowerDraw"]

  /** The lists given to `define_state_maps!` for each state. */
  function DispatchPairs(l: Light): seq<(string, string)>
  {
    [("CurrentPowerDraw", "power_change")]
  }

  function CommandPairs(l: Light): seq<(string, string)>
  {
    match l
    case On => [("SwitchOff", "switch_off")]
    case Off => [("SwitchOn", "switch_on")]
  }

  function DispatchMap(l: Light): map<string, string>
  {
    map["CurrentPowerDraw" := "power_change"]
  }

  function CommandMap(l: Light): map<string, string>
  {
    match l
    case On => map["SwitchOff" := "switch_off"]
    case Off => map["SwitchOn" := "switch_on"]
  }

  function OnSlot(f: Params, l: Light, handler: string, value: real): Light
  {
    if handler != "power_change" then l
    else
      match l
      case On => if value < f.threshold then Off else On
      case Off => if value >= f.threshold then On else Off
  }

  function OnCommand(f: Params, l: Light, handler: string, args: Args): Light
  {
    match handler
    case "switch_off" => Off
    case "switch_on" => On
    case _ => l
  }

  const LegacyMachine: Machine<Params, Light> := Machine(DispatchMap, CommandMap, OnSlot, OnCommand)

  function Step(a: Bulb, input: Input): Bulb
  {
    Dispatch.Step(LegacyMachine, a, input)
  }

  function Run(a: Bulb, inputs: seq<Input>): Bulb
  {
    Dispatch.Run(LegacyMachine, a, inputs)
  }

  /** Each state's maps hold exactly the pairs its `define_state_maps!` lists. */
  lemma MapsFromStateMacro(l: Light)
    ensures DispatchMap(l) == BuildMap(DispatchPairs(l))
    ensures CommandMap(l) == BuildMap(CommandPairs(l))
  {
    assert DispatchPairs(l)[..0] == [] && CommandPairs(l)[..0] == [];
  }

  /** After a power reading the bulb is On exactly when the reading reaches the threshold. */
  lemma PowerReadingDecides(a: Bulb, v: real)
    ensures Step(a, Slot("CurrentPowerDraw", v)).state == On <==> v >= a.fields.threshold
  {
  }

  /** SwitchOff in On and SwitchOn in Off force the state; the other way round they are unmapped. */
  lemma SwitchBehaviour(f: Params, args: Args)
    ensures Step(Actor(f, On), Cmd("SwitchOff", args)) == Actor(f, Off)
    ensures Step(Actor(f, Off), Cmd("SwitchOn", args)) == Actor(f, On)
    ensures Step(Actor(f, On), Cmd("SwitchOn", args)) == Actor(f, On)
    ensures Step(Actor(f, Off), Cmd("SwitchOff", args)) == Actor(f, Off)
  {
  }

  // ---------------------------------------------------------------------------
  // The unit test's trace

  /** As written, the test feeds the slot "power", which neither state maps: the bulb
      created Off stays Off after the 0.7 reading the test expects to turn it On. */
  lemma PowerSlotTraceAsWritten()
    ensures Step(Default, Slot("power", 0.3)) == Default
    ensures Step(Step(Default, Slot("power", 0.3)), Slot("power", 0.7)).state == Off
  {
  }

  /** With the declared slot the readings 0.3, 0.7, 0.3 give Off, On, Off. */
  lemma PowerTrace()
    ensures Step(Default, Slot("CurrentPowerDraw", 0.3)).state == Off
    ensures Step(Step(Default, Slot("CurrentPowerDraw", 0.3)), Slot("CurrentPowerDraw", 0.7)).state == On
    ensures Step(Step(Step(Default, Slot("CurrentPowerDraw", 0.3)), Slot("CurrentPowerDraw", 0.7)),
                 Slot("CurrentPowerDraw", 0.3)).state == Off
  {
    var first := Step(Default, Slot("CurrentPowerDraw", 0.3));
    assert first == Default;
    assert Step(first, Slot("CurrentPowerDraw", 0.7)) == Actor(Default.fields, On);
  }

  // ---------------------------------------------------------------------------
  // Equivalence with the newer LightBulb

  function ToNew(a: Bulb): LightBulb.Bulb
  {
    Actor(LightBulb.Params(a.fields.threshold), if a.state == On then LightBulb.On else LightBulb.Off)
  }

  /** The two copies agree: same default, same slots, and every input sequence leads
      them to corresponding states. */
  lemma {:induction false} SameAsLightBulb(a: Bulb, inputs: seq<Input>)
    ensures ToNew(Default) == LightBulb.Default && Slots == LightBulb.Slots
    ensures ToNew(Run(a, inputs)) == LightBulb.Run(ToNew(a), inputs)
    decreases |inputs|
  {
    if inputs != [] {
      assert ToNew(Step(a, inputs[0])) == LightBulb.Step(ToNew(a), inputs[0]);
      SameAsLightBulb(Step(a, inputs[0]), inputs[1..]);
    }
  }
}
