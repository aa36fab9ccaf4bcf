/** The older twin task (src/core/twin_actor.rs). It works like the newer runner,
    with one difference in `new`: every known object type, the charging station
    included, gets the older LightBulb created with threshold 0.5. Channel sends
    become appended records; `find_elements_in_collection`, which is not part of
    this model, is the `sensorIds` parameter of Init. */
module LegacyTwinActor {
  import opened Wrappers
  import opened Dispatch
  import opened Twins
  import LegacyLightBulb
  import LightBulb
  import TwinRunner

  /** The actor and slots `new` picks for an AAS id; None where it panics. */
  function Created(id: string): Option<(LegacyLightBulb.Bulb, seq<string>)>
  {
    match ObjectType(id)
    case Some("light") => Some((LegacyLightBulb.Default, LegacyLightBulb.Slots))
    case Some("ev") => Some((LegacyLightBulb.Default, LegacyLightBulb.Slots))
    case Some("charging-station") => Some((LegacyLightBulb.Default, LegacyLightBulb.Slots))
    case _ => None
  }

  /** The same three object types as the newer runner are accepted, and each of them,
      the charging station included, becomes a light bulb. */
  lemma CreatedSpec(id: string)
    ensures Created(id).Some? <==> TwinRunner.Factory(id).Some?
    ensures Created(id).Some? ==> Created(id).value == (LegacyLightBulb.Default, LegacyLightBulb.Slots)
    ensures ObjectType(id) == Some("charging-station") ==> TwinRunner.Factory(id).value.0.StationTwin?
  {
  }

  /** One message of the loop in `body`. */
  function Handle(slotMap: map<DeviceId, string>, a: LegacyLightBulb.Bulb, msg: ActorMessage): LegacyLightBulb.Bulb
  {
    match msg
    case InputChange(device, value) => if device in slotMap then LegacyLightBulb.Step(a, Slot(slotMap[device], value)) else a
    case Command(command, args) => LegacyLightBulb.Step(a, Cmd(command, args))
  }

  /** Messages handled in receive order. */
  function HandleAll(slotMap: map<DeviceId, string>, a: LegacyLightBulb.Bulb, msgs: seq<ActorMessage>): LegacyLightBulb.Bulb
  {
    if msgs == [] then a else Handle(slotMap, HandleAll(slotMap, a, msgs[..|msgs| - 1]), msgs[|msgs| - 1])
  }

  /** Handling messages is running the bulb's machine on the inputs they carry. */
  lemma {:induction false} HandleAllIsRun(slotMap: map<DeviceId, string>, a: LegacyLightBulb.Bulb, msgs: seq<ActorMessage>)
    ensures HandleAll(slotMap, a, msgs) == LegacyLightBulb.Run(a, Inputs(slotMap, msgs))
  {
    if msgs != [] {
      var n := |msgs| - 1;
      var front := Inputs(slotMap, msgs[..n]);
      var last := Inputs(slotMap, msgs)[|front|..];
      assert Inputs(slotMap, msgs) == front + last;
      HandleAllIsRun(slotMap, a, msgs[..n]);
      RunAppend(LegacyLightBulb.LegacyMachine, a, front, last);
      if last != [] { assert last[1..] == []; }
    }
  }

  /** For lights and EVs the older task and the newer runner agree: started from their
      defaults with the same slot map, they end in corresponding states after any
      messages. */
  lemma AgreesWithRunnerOnBulbs(id: string, slotMap: map<DeviceId, string>, msgs: seq<ActorMessage>)
    requires ObjectType(id) in {Some("light"), Some("ev")}
    ensures Created(id).Some? && TwinRunner.Factory(id).Some?
    ensures TwinRunner.HandleAll(slotMap, TwinRunner.Factory(id).value.0, msgs) ==
      TwinRunner.BulbTwin(LegacyLightBulb.ToNew(HandleAll(slotMap, Created(id).value.0, msgs)))
  {
    HandleAllIsRun(slotMap, LegacyLightBulb.Default, msgs);
    TwinRunner.HandleAllIsRun(slotMap, TwinRunner.BulbTwin(LightBulb.Default), msgs);
    LegacyLightBulb.SameAsLightBulb(LegacyLightBulb.Default, Inputs(slotMap, msgs));
  }

  // ---------------------------------------------------------------------------
  // The actor task

  class TwinActor {
    const aas: Aas.Shell
    /** The sending end of this actor's own channel, handed out at registration. */
    const inbox: Channel
    var innerState: LegacyLightBulb.Bulb
    const slots: seq<string>
    var slotMap: map<DeviceId, string>
    /** What was sent on the manager channel and on the network channel, in order. */
    var managerSent: seq<ManagerMessage>
    var networkSent: seq<NetworkMessage>

    /** `TwinActor::new`, which panics unless the id names a known object type. */
    constructor (aas: Aas.Shell, inbox: Channel)
      requires Created(aas.id).Some?
      ensures this.aas == aas && this.inbox == inbox
      ensures innerState == LegacyLightBulb.Default && slots == LegacyLightBulb.Slots
      ensures slotMap == map[] && managerSent == [] && networkSent == []
    {
      this.aas := aas;
      this.inbox := inbox;
      innerState := LegacyLightBulb.Default;
      slots := LegacyLightBulb.Slots;
      slotMap := map[];
      managerSent := [];
      networkSent := [];
    }

    /** `init`: register with the manager and the network receiver, bind each slot's
        sensor, and subscribe to `sensorIds` unless there are none. */
    method Init(sensorIds: seq<DeviceId>)
      modifies this
      ensures slotMap == old(slotMap) + SlotMap(aas, slots)
      ensures managerSent == old(managerSent) + [ManagerRegister(aas.id, inbox)]
      ensures networkSent == old(networkSent) + [Register(aas.id, inbox)]
        + (if sensorIds == [] then [] else [Subscribe(aas.id, sensorIds)])
      ensures innerState == old(innerState)
    {
      managerSent := managerSent + [ManagerRegister(aas.id, inbox)];
      networkSent := networkSent + [Register(aas.id, inbox)];
      BindSlots();
      if sensorIds == [] {
        return;
      }
      networkSent := networkSent + [Subscribe(aas.id, sensorIds)];
    }

    /** The slot loop of `init`: each slot whose sensor resolves from the AAS is
        inserted, in slot order. */
    method BindSlots()
      modifies this`slotMap
      ensures slotMap == old(slotMap) + SlotMap(aas, slots)
    {
      var sensorOf := slot => SensorFor(aas, slot);
      for i := 0 to |slots|
        invariant slotMap == old(slotMap) + BuildMap(SensorEntries(slots[..i], sensorOf))
      {
        SlotMapInsert(old(slotMap), slots, sensorOf, i);
        match sensorOf(slots[i]) {
          case Some(sensor) =>
            slotMap := slotMap[sensor := slots[i]];
          case None =>
        }
      }
      assert slots[..|slots|] == slots;
    }

    /** One message of the loop in `body`. */
    method HandleMessage(msg: ActorMessage)
      modifies this`innerState
      ensures innerState == Handle(slotMap, old(innerState), msg)
    {
      match msg {
        case InputChange(device, value) =>
          if device in slotMap {
            innerState := LegacyLightBulb.Step(innerState, Slot(slotMap[device], value));
          }
        case Command(command, args) =>
          innerState := LegacyLightBulb.Step(innerState, Cmd(command, args));
      }
    }

    /** `body`: `init`, then the received messages in order. */
    method Body(sensorIds: seq<DeviceId>, msgs: seq<ActorMessage>)
      modifies this
      ensures slotMap == old(slotMap) + SlotMap(aas, slots)
      ensures innerState == HandleAll(slotMap, old(innerState), msgs)
      ensures managerSent == old(managerSent) + [ManagerRegister(aas.id, inbox)]
      ensures networkSent == old(networkSent) + [Register(aas.id, inbox)]
        + (if sensorIds == [] then [] else [Subscribe(aas.id, sensorIds)])
    {
      Init(sensorIds);
      for i := 0 to |msgs|
        invariant slotMap == old(slotMap) + SlotMap(aas, slots)
        invariant innerState == HandleAll(slotMap, old(innerState), msgs[..i])
        invariant managerSent == old(managerSent) + [ManagerRegister(aas.id, inbox)]
        invariant networkSent == old(networkSent) + [Register(aas.id, inbox)]
          + (if sensorIds == [] then [] else [Subscribe(aas.id, sensorIds)])
      {
        assert msgs[..i + 1][..i] == msgs[..i];
        HandleMessage(msgs[i]);
      }
      assert msgs[..|msgs|] == msgs;
    }
  }
}
