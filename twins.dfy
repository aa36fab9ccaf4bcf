/** What the twin runner (digitaltwin/src/twin_runner.rs) and its older copy
    (src/core/twin_actor.rs) share: the message types, the object type read from an
    AAS id, and the `sensor -> slot` map that `init` builds from the AAS. */
module Twins {
  import opened Wrappers
  import opened Dispatch
  import opened Aas

  /** A sensor or actuator id; unrelated to the twin's AAS id. */
  type DeviceId = string

  type AssetId = string

  /** The sending end of an mpsc channel, told apart by the task that receives on it. */
  datatype Channel = Channel(id: nat)

  /** What a twin receives. */
  datatype ActorMessage = InputChange(device: DeviceId, value: real) | Command(command: string, args: Args)

  /** What the network receiver receives from twins. */
  datatype NetworkMessage = Register(asset: AssetId, channel: Channel) | Subscribe(asset: AssetId, devices: seq<DeviceId>)

  /** What the manager receives from twins. */
  datatype ManagerMessage = ManagerRegister(asset: AssetId, channel: Channel)

  // ---------------------------------------------------------------------------
  // Object type

  /** `id.split(':').nth(3)`: the fourth ':'-separated component, if there is one. */
  function ObjectType(id: string): Option<string>
  {
    var parts := Split(id, ':');
    if |parts| >= 4 then Some(parts[3]) else None
  }

  /** The id has a fourth component exactly when it holds at least three ':'. */
  lemma ObjectTypeNeedsThreeColons(id: string)
    ensures ObjectType(id).Some? <==> multiset(id)[':'] >= 3
  {
    SplitCount(id, ':');
  }

  /** For an id written as ':'-separated components, the object type is the fourth. */
  lemma ObjectTypeOfJoin(parts: seq<string>)
    requires |parts| >= 4
    requires forall k :: 0 <= k < |parts| ==> ':' !in parts[k]
    ensures ObjectType(Join(parts, ':')) == Some(parts[3])
  {
    SplitJoin(parts, ':');
  }

  // ---------------------------------------------------------------------------
  // The slot map built by `init`

  /** The sensor feeding a slot: the slot's reference in the DataSource collection of
      the PowerAndElectrical submodel, resolved to a SensorID. */
  function SensorFor(aas: Shell, slot: string): Option<DeviceId>
  {
    match FindReferenceValueInCollection(aas, "PowerAndElectrical", slot, "DataSource")
    case None => None
    case Some(reference) => ResolveSensorReference(aas, reference)
  }

  /** One (sensor, slot) entry per slot whose sensor resolves, in slot order. */
  function SensorEntries(slots: seq<string>, sensorOf: string -> Option<DeviceId>): seq<(DeviceId, string)>
  {
    if slots == [] then []
    else
      var last := slots[|slots| - 1];
      SensorEntries(slots[..|slots| - 1], sensorOf)
        + (match sensorOf(last) case Some(sensor) => [(sensor, last)] case None => [])
  }

  /** The map `init` builds: one insert per resolved slot, in slot order. */
  function SlotMap(aas: Shell, slots: seq<string>): map<DeviceId, string>
  {
    BuildMap(SensorEntries(slots, slot => SensorFor(aas, slot)))
  }

  lemma {:induction false} SensorEntriesSpec(slots: seq<string>, sensorOf: string -> Option<DeviceId>)
    ensures forall e :: e in SensorEntries(slots, sensorOf) <==>
      exists i :: 0 <= i < |slots| && e.1 == slots[i] && sensorOf(slots[i]) == Some(e.0)
  {
    if slots != [] {
      var n := |slots| - 1;
      SensorEntriesSpec(slots[..n], sensorOf);
      forall e ensures e in SensorEntries(slots, sensorOf) <==>
        exists i :: 0 <= i < |slots| && e.1 == slots[i] && sensorOf(slots[i]) == Some(e.0)
      {
        if exists i :: 0 <= i < |slots| && e.1 == slots[i] && sensorOf(slots[i]) == Some(e.0) {
          var i :| 0 <= i < |slots| && e.1 == slots[i] && sensorOf(slots[i]) == Some(e.0);
          if i < n {
            assert slots[..n][i] == slots[i];
          }
        }
      }
    }
  }

  /** Slot order is kept: the entries of two slot lists in a row are the entries of
      the first followed by those of the second. */
  lemma {:induction false} SensorEntriesAppend(xs: seq<string>, ys: seq<string>, sensorOf: string -> Option<DeviceId>)
    ensures SensorEntries(xs + ys, sensorOf) == SensorEntries(xs, sensorOf) + SensorEntries(ys, sensorOf)
    decreases |ys|
  {
    if ys == [] {
      assert xs + ys == xs;
    } else {
      var n := |ys| - 1;
      assert (xs + ys)[..|xs + ys| - 1] == xs + ys[..n];
      assert (xs + ys)[|xs + ys| - 1] == ys[n];
      SensorEntriesAppend(xs, ys[..n], sensorOf);
    }
  }

  /** A sensor is in the slot map exactly when some slot resolves to it. */
  lemma SlotMapKeys(aas: Shell, slots: seq<string>, sensor: DeviceId)
    ensures sensor in SlotMap(aas, slots) <==> exists i :: 0 <= i < |slots| && SensorFor(aas, slots[i]) == Some(sensor)
  {
    SensorKeys(slots, slot => SensorFor(aas, slot), sensor);
  }

  lemma SensorKeys(slots: seq<string>, sensorOf: string -> Option<DeviceId>, sensor: DeviceId)
    ensures sensor in BuildMap(SensorEntries(slots, sensorOf)) <==> exists i :: 0 <= i < |slots| && sensorOf(slots[i]) == Some(sensor)
  {
    var entries := SensorEntries(slots, sensorOf);
    SensorEntriesSpec(slots, sensorOf);
    BuildMapSpec(entries, sensor);
    if exists i :: 0 <= i < |slots| && sensorOf(slots[i]) == Some(sensor) {
      var i :| 0 <= i < |slots| && sensorOf(slots[i]) == Some(sensor);
      assert (sensor, slots[i]) in entries;
    }
    if sensor in BuildMap(entries) {
      var j :| 0 <= j < |entries| && entries[j].0 == sensor;
      assert entries[j] in entries;
    }
  }

  /** When several slots resolve to the same sensor, the last of them wins. */
  lemma SlotMapLastSlotWins(aas: Shell, slots: seq<string>, i: int)
    requires 0 <= i < |slots| && SensorFor(aas, slots[i]).Some?
    requires forall j :: i < j < |slots| ==> SensorFor(aas, slots[j]) != SensorFor(aas, slots[i])
    ensures SensorFor(aas, slots[i]).value in SlotMap(aas, slots)
    ensures SlotMap(aas, slots)[SensorFor(aas, slots[i]).value] == slots[i]
  {
    LastSensorWins(slots, slot => SensorFor(aas, slot), i);
  }

  lemma {:induction false} LastSensorWins(slots: seq<string>, sensorOf: string -> Option<DeviceId>, i: int)
    requires 0 <= i < |slots| && sensorOf(slots[i]).Some?
    requires forall j :: i < j < |slots| ==> sensorOf(slots[j]) != sensorOf(slots[i])
    ensures sensorOf(slots[i]).value in BuildMap(SensorEntries(slots, sensorOf))
    ensures BuildMap(SensorEntries(slots, sensorOf))[sensorOf(slots[i]).value] == slots[i]
    decreases |slots|
  {
    var n := |slots| - 1;
    var sensor := sensorOf(slots[i]).value;
    var front := SensorEntries(slots[..n], sensorOf);
    var entries := SensorEntries(slots, sensorOf);
    if i == n {
      assert entries == front + [(sensor, slots[n])];
      assert entries[..|entries| - 1] == front;
    } else {
      assert slots[..n][i] == slots[i];
      assert forall j :: i < j < n ==> slots[..n][j] == slots[j];
      LastSensorWins(slots[..n], sensorOf, i);
      if sensorOf(slots[n]).Some? {
        var other := sensorOf(slots[n]).value;
        assert entries == front + [(other, slots[n])];
        assert entries[..|entries| - 1] == front;
      } else {
        assert entries == front;
      }
    }
  }

  /** One more slot in `init`'s loop: its sensor, if it resolves, is inserted over
      whatever the map held. */
  lemma SlotMapInsert(base: map<DeviceId, string>, slots: seq<string>, sensorOf: string -> Option<DeviceId>, i: nat)
    requires i < |slots|
    ensures base + BuildMap(SensorEntries(slots[..i + 1], sensorOf)) ==
      match sensorOf(slots[i])
      case Some(sensor) => (base + BuildMap(SensorEntries(slots[..i], sensorOf)))[sensor := slots[i]]
      case None => base + BuildMap(SensorEntries(slots[..i], sensorOf))
  {
    assert slots[..i + 1][..i] == slots[..i];
    var pre := SensorEntries(slots[..i], sensorOf);
    match sensorOf(slots[i])
    case Some(sensor) =>
      var entries := pre + [(sensor, slots[i])];
      assert SensorEntries(slots[..i + 1], sensorOf) == entries;
      assert entries[..|entries| - 1] == pre;
      assert BuildMap(entries) == BuildMap(pre)[sensor := slots[i]];
    case None =>
      assert SensorEntries(slots[..i + 1], sensorOf) == pre;
  }

  // ---------------------------------------------------------------------------
  // Messages as actor inputs

  /** The inputs a twin's actor sees for a message sequence: readings from unknown
      devices vanish, the others become their slot's input, commands pass through. */
  function Inputs(slotMap: map<DeviceId, string>, msgs: seq<ActorMessage>): seq<Input>
  {
    if msgs == [] then []
    else
      Inputs(slotMap, msgs[..|msgs| - 1]) +
        match msgs[|msgs| - 1]
        case InputChange(device, value) => if device in slotMap then [Slot(slotMap[device], value)] else []
        case Command(command, args) => [Cmd(command, args)]
  }
}
