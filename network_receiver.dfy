/** The network receiver (src/network_receiver.rs): the one task that reads the MQTT
    topic. Twins register their channel and subscribe to device ids; each decoded
    publish is routed as an InputChange to every subscriber of its device that has
    a channel, and as a Command to the channel of its target asset. The MQTT
    connection, JSON decoding and the `select!` between the broker and the twins are
    not part of this model: the events arrive already decoded, in the order the
    loop takes them, and each channel send is an appended Delivery. */
module NetworkReceiver {
  import opened Wrappers
  import opened Dispatch
  import opened Twins

  /** A new reading from a sensor or actuator. */
  datatype Update = Update(device: DeviceId, value: real)

  /** A command for one asset, with its JSON arguments. */
  datatype CommandRequest = CommandRequest(target: AssetId, command: string, args: Args)

  /** The JSON payload of a publish: an optional update and an optional command. */
  datatype Message = Message(update: Option<Update>, command: Option<CommandRequest>)

  /** One poll of the MQTT connection: an incoming publish, whose payload is None when
      it does not decode as a Message; another incoming packet; an outgoing event; or
      a connection error. */
  datatype Event = Publish(decoded: Option<Message>) | OtherPacket | OtherEvent | PollError

  /** What the loop in `body` takes next: a broker event or a message from a twin. */
  datatype Incoming = FromBroker(event: Event) | FromTwin(msg: NetworkMessage)

  /** One send on a twin's channel. */
  datatype Delivery = Delivery(channel: Channel, msg: ActorMessage)

  /** The receiver's two tables: each asset's channel, and each device's subscribers
      in subscription order. */
  datatype Tables = Tables(channels: map<AssetId, Channel>, subscriptions: map<DeviceId, seq<AssetId>>)

  const Empty: Tables := Tables(map[], map[])

  /** `n` copies of `x`. */
  function Repeat<T>(x: T, n: nat): (r: seq<T>)
    ensures |r| == n && forall i :: 0 <= i < n ==> r[i] == x
  {
    seq(n, _ => x)
  }

  // ---------------------------------------------------------------------------
  // Messages from twins

  /** A device's subscribers; none when the device has no entry. */
  function Subscribers(subscriptions: map<DeviceId, seq<AssetId>>, device: DeviceId): seq<AssetId>
  {
    if device in subscriptions then subscriptions[device] else []
  }

  /** `Subscribe(src, oids)`: `src` appended to the list of each id in turn, the entry
      created when missing. */
  function Subscribed(subscriptions: map<DeviceId, seq<AssetId>>, src: AssetId, oids: seq<DeviceId>): map<DeviceId, seq<AssetId>>
  {
    if oids == [] then subscriptions
    else
      var before := Subscribed(subscriptions, src, oids[..|oids| - 1]);
      var oid := oids[|oids| - 1];
      before[oid := Subscribers(before, oid) + [src]]
  }

  /** A message from a twin: Register sets (or replaces) the asset's channel,
      Subscribe extends the subscription lists. */
  function Apply(t: Tables, msg: NetworkMessage): Tables
  {
    match msg
    case Register(src, ch) => t.(channels := t.channels[src := ch])
    case Subscribe(src, oids) => t.(subscriptions := Subscribed(t.subscriptions, src, oids))
  }

  /** Subscribing adds an entry for each listed id, and appends `src` to a device's list
      once for every time the device is listed; the channels are untouched. */
  lemma SubscribedSpec(subscriptions: map<DeviceId, seq<AssetId>>, src: AssetId, oids: seq<DeviceId>, d: DeviceId)
    ensures d in Subscribed(subscriptions, src, oids) <==> d in subscriptions || d in oids
    ensures Subscribers(Subscribed(subscriptions, src, oids), d) == Subscribers(subscriptions, d) + Repeat(src, multiset(oids)[d])
  {
    SubscribedKeys(subscriptions, src, oids, d);
    SubscribedLists(subscriptions, src, oids, d);
  }

  lemma {:induction false} SubscribedKeys(subscriptions: map<DeviceId, seq<AssetId>>, src: AssetId, oids: seq<DeviceId>, d: DeviceId)
    ensures d in Subscribed(subscriptions, src, oids) <==> d in subscriptions || d in oids
  {
    if oids != [] {
      var n := |oids| - 1;
      SubscribedKeys(subscriptions, src, oids[..n], d);
      assert oids == oids[..n] + [oids[n]];
    }
  }

  lemma {:induction false} SubscribedLists(subscriptions: map<DeviceId, seq<AssetId>>, src: AssetId, oids: seq<DeviceId>, d: DeviceId)
    ensures Subscribers(Subscribed(subscriptions, src, oids), d) == Subscribers(subscriptions, d) + Repeat(src, multiset(oids)[d])
  {
    if oids != [] {
      var n := |oids| - 1;
      SubscribedLists(subscriptions, src, oids[..n], d);
      CountOfLast(oids, d);
      if oids[n] == d {
        RepeatOneMore(src, multiset(oids[..n])[d]);
      }
    }
  }

  lemma CountOfLast<T>(s: seq<T>, x: T)
    requires s != []
    ensures multiset(s)[x] == multiset(s[..|s| - 1])[x] + if s[|s| - 1] == x then 1 else 0
  {
    assert s == s[..|s| - 1] + [s[|s| - 1]];
  }

  lemma RepeatOneMore<T>(x: T, n: nat)
    ensures Repeat(x, n) + [x] == Repeat(x, n + 1)
  {
  }

  /** Registering again replaces the earlier channel. */
  lemma ReRegisterReplaces(t: Tables, src: AssetId, first: Channel, second: Channel)
    ensures Apply(Apply(t, Register(src, first)), Register(src, second)) == Apply(t, Register(src, second))
  {
    assert t.channels[src := first][src := second] == t.channels[src := second];
  }

  // ---------------------------------------------------------------------------
  // Routing

  /** One delivery per subscriber that has a channel, in list order; subscribers
      without a channel are skipped. */
  function Routed(channels: map<AssetId, Channel>, subscribers: seq<AssetId>, msg: ActorMessage): seq<Delivery>
  {
    if subscribers == [] then []
    else
      var aid := subscribers[|subscribers| - 1];
      Routed(channels, subscribers[..|subscribers| - 1], msg)
        + (if aid in channels then [Delivery(channels[aid], msg)] else [])
  }

  /** An update goes to the subscribers of its device. */
  function UpdateDeliveries(t: Tables, u: Update): seq<Delivery>
  {
    Routed(t.channels, Subscribers(t.subscriptions, u.device), InputChange(u.device, u.value))
  }

  /** A command goes to its target's channel only, and nowhere when it has none. */
  function CommandDeliveries(t: Tables, c: CommandRequest): seq<Delivery>
  {
    if c.target in t.channels then [Delivery(t.channels[c.target], Command(c.command, c.args))] else []
  }

  /** A decoded message: its update is routed first, then its command. */
  function MessageDeliveries(t: Tables, m: Message): seq<Delivery>
  {
    (match m.update case Some(u) => UpdateDeliveries(t, u) case None => [])
      + (match m.command case Some(c) => CommandDeliveries(t, c) case None => [])
  }

  /** Only a publish that decodes sends anything. */
  function EventDeliveries(t: Tables, e: Event): seq<Delivery>
  {
    match e
    case Publish(Some(m)) => MessageDeliveries(t, m)
    case _ => []
  }

  lemma {:induction false} RoutedAppend(channels: map<AssetId, Channel>, first: seq<AssetId>, second: seq<AssetId>, msg: ActorMessage)
    ensures Routed(channels, first + second, msg) == Routed(channels, first, msg) + Routed(channels, second, msg)
    decreases |second|
  {
    if second != [] {
      var n := |second| - 1;
      var whole := first + second;
      assert whole[..|whole| - 1] == first + second[..n];
      assert whole[|whole| - 1] == second[n];
      RoutedAppend(channels, first, second[..n], msg);
      var tail := if second[n] in channels then [Delivery(channels[second[n]], msg)] else [];
      assert Routed(channels, second, msg) == Routed(channels, second[..n], msg) + tail;
      assert Routed(channels, whole, msg) == Routed(channels, first + second[..n], msg) + tail;
    } else {
      assert first + second == first;
    }
  }

  /** A delivery is routed exactly when it goes to the channel of a listed subscriber
      that has one, and carries the message. */
  lemma {:induction false} RoutedMembership(channels: map<AssetId, Channel>, subscribers: seq<AssetId>, msg: ActorMessage, d: Delivery)
    ensures d in Routed(channels, subscribers, msg) <==>
      exists i :: 0 <= i < |subscribers| && subscribers[i] in channels && d == Delivery(channels[subscribers[i]], msg)
  {
    if subscribers != [] {
      var n := |subscribers| - 1;
      RoutedMembership(channels, subscribers[..n], msg, d);
      if exists i :: 0 <= i < |subscribers| && subscribers[i] in channels && d == Delivery(channels[subscribers[i]], msg) {
        var i :| 0 <= i < |subscribers| && subscribers[i] in channels && d == Delivery(channels[subscribers[i]], msg);
        if i < n {
          assert subscribers[..n][i] == subscribers[i];
        }
      }
    }
  }

  /** A subscriber listed `k` times gets `k` deliveries; one without a channel none. */
  lemma {:induction false} RoutedRepeat(channels: map<AssetId, Channel>, aid: AssetId, k: nat, msg: ActorMessage)
    ensures Routed(channels, Repeat(aid, k), msg) == if aid in channels then Repeat(Delivery(channels[aid], msg), k) else []
  {
    if k > 0 {
      assert Repeat(aid, k)[..k - 1] == Repeat(aid, k - 1);
      RoutedRepeat(channels, aid, k - 1, msg);
      if aid in channels {
        assert Repeat(Delivery(channels[aid], msg), k - 1) + [Delivery(channels[aid], msg)] == Repeat(Delivery(channels[aid], msg), k);
      }
    }
  }

  /** After `Subscribe(src, oids)` an update for `d` reaches the earlier subscribers as
      before and then `src`, once for each time `d` was listed; a subscriber without a
      registered channel gets nothing. */
  lemma SubscribeThenUpdate(t: Tables, src: AssetId, oids: seq<DeviceId>, u: Update)
    ensures UpdateDeliveries(Apply(t, Subscribe(src, oids)), u) == UpdateDeliveries(t, u) +
      if src in t.channels then Repeat(Delivery(t.channels[src], InputChange(u.device, u.value)), multiset(oids)[u.device]) else []
  {
    var msg := InputChange(u.device, u.value);
    SubscribedSpec(t.subscriptions, src, oids, u.device);
    RoutedAppend(t.channels, Subscribers(t.subscriptions, u.device), Repeat(src, multiset(oids)[u.device]), msg);
    RoutedRepeat(t.channels, src, multiset(oids)[u.device], msg);
  }

  /** A twin that registers a channel and subscribes to a list of devices is sent every
      later reading of each of them on that channel. */
  lemma RegisteredSubscriberReceives(t: Tables, src: AssetId, ch: Channel, oids: seq<DeviceId>, u: Update)
    requires u.device in oids
    ensures Delivery(ch, InputChange(u.device, u.value)) in
      UpdateDeliveries(Apply(Apply(t, Register(src, ch)), Subscribe(src, oids)), u)
  {
    var registered := Apply(t, Register(src, ch));
    SubscribeThenUpdate(registered, src, oids, u);
    var extra := Repeat(Delivery(ch, InputChange(u.device, u.value)), multiset(oids)[u.device]);
    assert extra[0] in extra;
  }

  /** Each delivery of a message carries its update to a subscriber's channel or its
      command to the target's channel; all update deliveries come before the command,
      and the command is sent once exactly when the target has a channel. */
  lemma MessageDeliveriesSpec(t: Tables, m: Message)
    ensures forall d :: d in MessageDeliveries(t, m) && d.msg.InputChange? ==>
      m.update.Some? && d.msg == InputChange(m.update.value.device, m.update.value.value) &&
      exists aid :: aid in Subscribers(t.subscriptions, m.update.value.device) && aid in t.channels && d.channel == t.channels[aid]
    ensures forall d :: d in MessageDeliveries(t, m) && d.msg.Command? ==>
      m.command.Some? && m.command.value.target in t.channels &&
      d == Delivery(t.channels[m.command.value.target], Command(m.command.value.command, m.command.value.args))
    ensures forall i, j :: 0 <= i < j < |MessageDeliveries(t, m)| ==>
      !(MessageDeliveries(t, m)[i].msg.Command? && MessageDeliveries(t, m)[j].msg.InputChange?)
    ensures m.command.Some? && m.command.value.target in t.channels ==>
      MessageDeliveries(t, m)[|MessageDeliveries(t, m)| - 1] ==
        Delivery(t.channels[m.command.value.target], Command(m.command.value.command, m.command.value.args))
  {
    var updates := match m.update case Some(u) => UpdateDeliveries(t, u) case None => [];
    var commands := match m.command case Some(c) => CommandDeliveries(t, c) case None => [];
    assert MessageDeliveries(t, m) == updates + commands;
    forall d | d in updates
      ensures m.update.Some? && d.msg == InputChange(m.update.value.device, m.update.value.value)
      ensures exists aid :: aid in Subscribers(t.subscriptions, m.update.value.device) && aid in t.channels && d.channel == t.channels[aid]
    {
      var u := m.update.value;
      RoutedMembership(t.channels, Subscribers(t.subscriptions, u.device), InputChange(u.device, u.value), d);
      var i :| 0 <= i < |Subscribers(t.subscriptions, u.device)| && Subscribers(t.subscriptions, u.device)[i] in t.channels
        && d == Delivery(t.channels[Subscribers(t.subscriptions, u.device)[i]], InputChange(u.device, u.value));
      assert Subscribers(t.subscriptions, u.device)[i] in Subscribers(t.subscriptions, u.device);
    }
    forall i | 0 <= i < |updates|
      ensures updates[i].msg.InputChange?
    {
      assert updates[i] in updates;
    }
  }

  // ---------------------------------------------------------------------------
  // The body loop, as a function of what it takes in

  /** The tables after a sequence of inputs: only twin messages change them. */
  function TablesAfter(t: Tables, inputs: seq<Incoming>): Tables
  {
    if inputs == [] then t
    else
      var before := TablesAfter(t, inputs[..|inputs| - 1]);
      match inputs[|inputs| - 1]
      case FromTwin(msg) => Apply(before, msg)
      case FromBroker(_) => before
  }

  /** Everything sent for a sequence of inputs: each broker event is routed with the
      tables as they stand when it is taken. */
  function Sent(t: Tables, inputs: seq<Incoming>): seq<Delivery>
  {
    if inputs == [] then []
    else
      var front := inputs[..|inputs| - 1];
      Sent(t, front) +
        match inputs[|inputs| - 1]
        case FromBroker(e) => EventDeliveries(TablesAfter(t, front), e)
        case FromTwin(_) => []
  }

  /** Broker events never change the tables, and twin messages never send anything. */
  lemma {:induction false} BrokerOnlySendsTwinsOnlyConfigure(t: Tables, inputs: seq<Incoming>)
    ensures (forall i :: 0 <= i < |inputs| ==> inputs[i].FromBroker?) ==> TablesAfter(t, inputs) == t
    ensures (forall i :: 0 <= i < |inputs| ==> inputs[i].FromTwin?) ==> Sent(t, inputs) == []
  {
    if inputs != [] {
      var n := |inputs| - 1;
      BrokerOnlySendsTwinsOnlyConfigure(t, inputs[..n]);
      if forall i :: 0 <= i < |inputs| ==> inputs[i].FromBroker? {
        assert forall i :: 0 <= i < n ==> inputs[..n][i] == inputs[i];
      }
      if forall i :: 0 <= i < |inputs| ==> inputs[i].FromTwin? {
        assert forall i :: 0 <= i < n ==> inputs[..n][i] == inputs[i];
      }
    }
  }

  /** A publish that does not decode, and any other event, sends nothing. */
  lemma IgnoredEventsSendNothing(t: Tables, e: Event)
    requires e.Publish? ==> e.decoded.None?
    ensures EventDeliveries(t, e) == []
  {
  }

  // ---------------------------------------------------------------------------
  // The receiver task

  class Receiver {
    var assetChannels: map<AssetId, Channel>
    var subscriptions: map<DeviceId, seq<AssetId>>
    /** Every send on a twin channel, in order. */
    var sent: seq<Delivery>

    function Current(): Tables
      reads this
    {
      Tables(assetChannels, subscriptions)
    }

    /** `NetworkReceiver::new`: no channels, no subscriptions. */
    constructor ()
      ensures Current() == Empty && sent == []
    {
      assetChannels := map[];
      subscriptions := map[];
      sent := [];
    }

    /** The Subscribe arm of `body`. */
    method AddSubscriber(src: AssetId, oids: seq<DeviceId>)
      modifies this`subscriptions
      ensures subscriptions == Subscribed(old(subscriptions), src, oids)
    {
      for i := 0 to |oids|
        invariant subscriptions == Subscribed(old(subscriptions), src, oids[..i])
      {
        assert oids[..i + 1][..i] == oids[..i];
        var oid := oids[i];
        var list := if oid in subscriptions then subscriptions[oid] else [];
        subscriptions := subscriptions[oid := list + [src]];
      }
      assert oids[..|oids|] == oids;
    }

    /** The Register arm of `body`. */
    method RegisterAsset(src: AssetId, ch: Channel)
      modifies this`assetChannels
      ensures assetChannels == old(assetChannels)[src := ch]
    {
      assetChannels := assetChannels[src := ch];
    }

    /** A message from a twin. */
    method HandleNetworkMessage(msg: NetworkMessage)
      modifies this`assetChannels, this`subscriptions
      ensures Current() == Apply(old(Current()), msg)
    {
      match msg {
        case Register(src, ch) =>
          RegisterAsset(src, ch);
        case Subscribe(src, oids) =>
          AddSubscriber(src, oids);
      }
    }

    /** The loop over the subscribers of an update's device. */
    method Route(subscribers: seq<AssetId>, msg: ActorMessage)
      modifies this`sent
      ensures sent == old(sent) + Routed(assetChannels, subscribers, msg)
    {
      for i := 0 to |subscribers|
        invariant sent == old(sent) + Routed(assetChannels, subscribers[..i], msg)
      {
        assert subscribers[..i + 1][..i] == subscribers[..i];
        var aid := subscribers[i];
        if aid in assetChannels {
          sent := sent + [Delivery(assetChannels[aid], msg)];
        }
      }
      assert subscribers[..|subscribers|] == subscribers;
    }

    /** An event from the broker. */
    method HandleEvent(e: Event)
      modifies this`sent
      ensures sent == old(sent) + EventDeliveries(Current(), e)
    {
      match e {
        case Publish(Some(m)) =>
          match m.update {
            case Some(u) =>
              if u.device in subscriptions {
                Route(subscriptions[u.device], InputChange(u.device, u.value));
              }
            case None =>
          }
          match m.command {
            case Some(c) =>
              if c.target in assetChannels {
                sent := sent + [Delivery(assetChannels[c.target], Command(c.command, c.args))];
              }
            case None =>
          }
        case _ =>
      }
    }

    /** `body`: the inputs in the order the loop takes them. */
    method Body(inputs: seq<Incoming>)
      modifies this
      ensures Current() == TablesAfter(old(Current()), inputs)
      ensures sent == old(sent) + Sent(old(Current()), inputs)
    {
      for i := 0 to |inputs|
        invariant Current() == TablesAfter(old(Current()), inputs[..i])
        invariant sent == old(sent) + Sent(old(Current()), inputs[..i])
      {
        assert inputs[..i + 1][..i] == inputs[..i];
        match inputs[i] {
          case FromBroker(e) =>
            HandleEvent(e);
          case FromTwin(msg) =>
            HandleNetworkMessage(msg);
        }
      }
      assert inputs[..|inputs|] == inputs;
    }
  }
}
