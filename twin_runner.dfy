/** The twin runner task (digitaltwin/src/twin_runner.rs): it picks the actor type
    from the AAS id, registers with the manager and the network receiver, binds
    sensors to input slots from the AAS, then handles its messages one at a time,
    replacing the boxed actor with whatever each call returns. Channel sends become
    appended records; `find_elements_in_collection`, which is not part of this
    model, is the `sensorIds` parameter of Init. */
module TwinRunner {
  import opened Wrappers
  import opened Dispatch
  import opened Aas
  import opened Twins
  import ChargingStation
  import LightBulb

  /** The boxed actor: one of the two actor types of this crate, in some state. */
  datatype Twin = BulbTwin(bulb: LightBulb.Bulb) | StationTwin(station: ChargingStation.Station)

  /** One input, handed to the generated dispatch of the twin's own type. */
  function TwinStep(t: Twin, input: Input): Twin
  {
    match t
    case BulbTwin(b) => BulbTwin(LightBulb.Step(b, input))
    case StationTwin(s) => StationTwin(ChargingStation.Step(s, input))
  }

  /** A whole input sequence, run by the twin's own machine. */
  function TwinRun(t: Twin, inputs: seq<Input>): Twin
  {
    match t
    case BulbTwin(b) => BulbTwin(LightBulb.Run(b, inputs))
    case StationTwin(s) => StationTwin(ChargingStation.Run(s, inputs))
  }

  /** The factory chosen for an object type; None where `new` panics. */
  function CreateDefault(objectType: string): Option<(Twin, seq<string>)>
  {
    match objectType
    case "light" => Some((BulbTwin(LightBulb.Default), LightBulb.Slots))
    case "ev" => Some((BulbTwin(LightBulb.Default), LightBulb.Slots))
    case "charging-station" => Some((StationTwin(ChargingStation.Default), ChargingStation.Slots))
    case _ => None
  }

  /** Type selection in `TwinRunner::new`, from the fourth ':' component of the id. */
  function Factory(id: string): Option<(Twin, seq<string>)>
  {
    match ObjectType(id)
    case None => None
    case Some(objectType) => CreateDefault(objectType)
  }

  /** Lights and EVs get the LightBulb default, charging stations the ChargingStation
      default; an id with another fourth component, or with fewer than four, has no
      twin. */
  lemma FactorySpec(id: string)
    ensures Factory(id).Some? <==> ObjectType(id) in {Some("light"), Some("ev"), Some("charging-station")}
    ensures ObjectType(id) in {Some("light"), Some("ev")} ==> Factory(id) == Some((BulbTwin(LightBulb.Default), LightBulb.Slots))
    ensures ObjectType(id) == Some("charging-station") ==> Factory(id) == Some((StationTwin(ChargingStation.Default), ChargingStation.Slots))
    ensures multiset(id)[':'] < 3 ==> Factory(id) == None
  {
    ObjectTypeNeedsThreeColons(id);
  }

  // ---------------------------------------------------------------------------
  // Message handling

  /** One message: a known device's reading goes to its slot, an unknown device's is
      dropped, a command always goes to `execute`. */
  function Handle(slotMap: map<DeviceId, string>, t: Twin, msg: ActorMessage): Twin
  {
    match msg
    case InputChange(device, value) => if device in slotMap then TwinStep(t, Slot(slotMap[device], value)) else t
    case Command(command, args) => TwinStep(t, Cmd(command, args))
  }

  /** Messages handled in receive order. */
  function HandleAll(slotMap: map<DeviceId, string>, t: Twin, msgs: seq<ActorMessage>): Twin
  {
    if msgs == [] then t else Handle(slotMap, HandleAll(slotMap, t, msgs[..|msgs| - 1]), msgs[|msgs| - 1])
  }

  /** Handling messages is running the twin's own machine on the inputs they carry. */
  lemma {:induction false} HandleAllIsRun(slotMap: map<DeviceId, string>, t: Twin, msgs: seq<ActorMessage>)
    ensures HandleAll(slotMap, t, msgs) == TwinRun(t, Inputs(slotMap, msgs))
  {
    if msgs != [] {
      var n := |msgs| - 1;
      var front := Inputs(slotMap, msgs[..n]);
      var last := Inputs(slotMap, msgs) [|front|..];
      assert Inputs(slotMap, msgs) == front + last;
      HandleAllIsRun(slotMap, t, msgs[..n]);
      match t
      case BulbTwin(b) =>
        RunAppend(LightBulb.BulbMachine, b, front, last);
        if last != [] { assert last[1..] == []; }
      case StationTwin(s) =>
        RunAppend(ChargingStation.StationMachine, s, front, last);
        if last != [] { assert last[1..] == []; }
    }
  }

  /** A twin keeps its type and its thresholds whatever messages it handles. */
  lemma HandleAllKeepsTypeAndFields(slotMap: map<DeviceId, string>, t: Twin, msgs: seq<ActorMessage>)
    ensures HandleAll(slotMap, t, msgs).BulbTwin? == t.BulbTwin?
    ensures t.BulbTwin? ==> HandleAll(slotMap, t, msgs).bulb.fields == t.bulb.fields
    ensures t.StationTwin? ==> HandleAll(slotMap, t, msgs).station.fields == t.station.fields
  {
    HandleAllIsRun(slotMap, t, msgs);
    match t
    case BulbTwin(b) => RunKeepsFields(LightBulb.BulbMachine, b, Inputs(slotMap, msgs));
    case StationTwin(s) => RunKeepsFields(ChargingStation.StationMachine, s, Inputs(slotMap, msgs));
  }

  /** Readings from devices the slot map does not know leave the twin as it was. */
  lemma {:induction false} UnknownDevicesIgnored(slotMap: map<DeviceId, string>, t: Twin, msgs: seq<ActorMessage>)
    requires forall i :: 0 <= i < |msgs| ==> msgs[i].InputChange? && msgs[i].device !in slotMap
    ensures HandleAll(slotMap, t, msgs) == t
  {
    if msgs != [] {
      UnknownDevicesIgnored(slotMap, t, msgs[..|msgs| - 1]);
    }
  }

  /** A light-bulb twin whose sensor is bound to CurrentPowerDraw is lit after a
      reading from that sensor exactly when the reading reaches the threshold. */
  lemma BoundSensorDrivesBulb(slotMap: map<DeviceId, string>, b: LightBulb.Bulb, device: DeviceId, v: real)
    requires device in slotMap && slotMap[device] == "CurrentPowerDraw"
    ensures Handle(slotMap, BulbTwin(b), InputChange(device, v)).bulb.state == LightBulb.On <==> v >= b.fields.threshold
  {
    LightBulb.PowerReadingDecides(b, v);
  }

  // ---------------------------------------------------------------------------
  // The runner task

  class Runner {
    const aas: Shell
    /** The sending end of this twin's own channel, handed out at registration. */
    const inbox: Channel
    var innerState: Twin
    const slots: seq<string>
    var slotMap: map<DeviceId, string>
    /** What was sent on the manager channel and on the network channel, in order. */
    var managerSent: seq<ManagerMessage>
    var networkSent: seq<NetworkMessage>

    /** `TwinRunner::new`, which panics unless the id names a known object type. */
    constructor (aas: Shell, inbox: Channel)
      requires Factory(aas.id).Some?
      ensures this.aas == aas && this.inbox == inbox
      ensures innerState == Factory(aas.id).value.0 && slots == Factory(aas.id).value.1
      ensures slotMap == map[] && managerSent == [] && networkSent == []
    {
      this.aas := aas;
      this.inbox := inbox;
      var created := Factory(aas.id).value;
      innerState := created.0;
      slots := created.1;
      slotMap := map[];
      managerSent := [];
      networkSent := [];
    }

    /** `init`: register with the manager and the network receiver, bind each slot's
        sensor, and subscribe to `sensorIds` unless there are none. */
    method Init(sensorIds: seq<DeviceId>)
      modifies this
      ensures slotMap == old(slotMap) + SlotMap(aas, slots)
      ensures managerSent == old(managerSent) + [ManagerRegister(aas.id, inbox)]
      ensures networkSent == old(networkSent) + [Register(aas.id, inbox)]
        + (if sensorIds == [] then [] else [Subscribe(aas.id, sensorIds)])
      ensures innerState == old(innerState)
    {
      managerSent := managerSent + [ManagerRegister(aas.id, inbox)];
      networkSent := networkSent + [Register(aas.id, inbox)];
      BindSlots();
      if sensorIds == [] {
        return;
      }
      networkSent := networkSent + [Subscribe(aas.id, sensorIds)];
    }

    /** The slot loop of `init`: each slot whose sensor resolves from the AAS is
        inserted, in slot order. */
    method BindSlots()
      modifies this`slotMap
      ensures slotMap == old(slotMap) + SlotMap(aas, slots)
    {
      var sensorOf := slot => SensorFor(aas, slot);
      for i := 0 to |slots|
        invariant slotMap == old(slotMap) + BuildMap(SensorEntries(slots[..i], sensorOf))
      {
        SlotMapInsert(old(slotMap), slots, sensorOf, i);
        match sensorOf(slots[i]) {
          case Some(sensor) =>
            slotMap := slotMap[sensor := slots[i]];
          case None =>
        }
      }
      assert slots[..|slots|] == slots;
    }

    /** One message of the loop in `body`. */
    method HandleMessage(msg: ActorMessage)
      modifies this`innerState
      ensures innerState == Handle(slotMap, old(innerState), msg)
    {
      match msg {
        case InputChange(device, value) =>
          if device in slotMap {
            innerState := TwinStep(innerState, Slot(slotMap[device], value));
          }
        case Command(command, args) =>
          innerState := TwinStep(innerState, Cmd(command, args));
      }
    }

    /** `body`: `init`, then the received messages in order. The slot map is not
        touched after `init`. */
    method Body(sensorIds: seq<DeviceId>, msgs: seq<ActorMessage>)
      modifies this
      ensures slotMap == old(slotMap) + SlotMap(aas, slots)
      ensures innerState == HandleAll(slotMap, old(innerState), msgs)
      ensures managerSent == old(managerSent) + [ManagerRegister(aas.id, inbox)]
      ensures networkSent == old(networkSent) + [Register(aas.id, inbox)]
        + (if sensorIds == [] then [] else [Subscribe(aas.id, sensorIds)])
    {
      Init(sensorIds);
      for i := 0 to |msgs|
        invariant slotMap == old(slotMap) + SlotMap(aas, slots)
        invariant innerState == HandleAll(slotMap, old(innerState), msgs[..i])
        invariant managerSent == old(managerSent) + [ManagerRegister(aas.id, inbox)]
        invariant networkSent == old(networkSent) + [Register(aas.id, inbox)]
          + (if sensorIds == [] then [] else [Subscribe(aas.id, sensorIds)])
      {
        assert msgs[..i + 1][..i] == msgs[..i];
        HandleMessage(msgs[i]);
      }
      assert msgs[..|msgs|] == msgs;
    }
  }
}
