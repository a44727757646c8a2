// The device manager: topics, registration and message routing
// (src/devices/device_manager.cpp).
module Devices {
  import opened Common
  import opened Mqtt

  datatype Device = Device(
    id: string, name: string, kind: string, protocol: string, address: string, isConnected: bool, lastSeen: int)

  // ── Topics ─────────────────────────────────────────────────────────────────

  const PREFIX: string := "devices/"

  function Topic(id: string, sub: string): string { PREFIX + (id + "/" + sub) }

  // HandleMqttMessage's split at the last slash.
  function Route(topic: string): Option<(string, string)> {
    if !(PREFIX <= topic) then None
    else
      var rest := topic[|PREFIX|..];
      match LastIndexOf(rest, '/')
      case None => None
      case Some(slash) => Some((rest[..slash], rest[slash + 1..]))
  }

  // Splitting inverts building, for every id and every subtopic without a slash.
  lemma {:induction false} RouteIff(topic: string, id: string, sub: string)
    ensures Route(topic) == Some((id, sub)) <==> topic == Topic(id, sub) && '/' !in sub
  {
    hide LastIndexOf;
    if Route(topic) == Some((id, sub)) {
      var rest := topic[|PREFIX|..];
      assert topic == PREFIX + rest;
      var slash := LastIndexOf(rest, '/').value;
      assert rest == rest[..slash] + "/" + rest[slash + 1..];
    }
    if topic == Topic(id, sub) && '/' !in sub {
      var rest := id + "/" + sub;
      assert topic[|PREFIX|..] == rest;
      assert rest[|id| + 1..] == sub && rest[..|id|] == id;
      LastIndexOfSeparator(rest, '/', |id|);
    }
  }

  // The subtopics of a device, and the QoS each is subscribed with.
  const STATUS: string := "status"
  const SENSORS: string := "sensors"
  const HEARTBEAT: string := "heartbeat"

  function QosOf(sub: string): Option<QoS> {
    if sub == STATUS || sub == SENSORS then Some(AtLeastOnce)
    else if sub == HEARTBEAT then Some(AtMostOnce)
    else None
  }

  // ── Subscriptions against the stored devices ───────────────────────────────

  datatype State = State(mqtt: Mqtt.State, store: map<string, Device>)

  // Which subscribe requests the library accepts.
  type Broker = string -> bool

  function SubscribedTo(m: Mqtt.State, id: string, ok: Broker): Mqtt.State {
    var a := SubscribeResult(m, Topic(id, STATUS), AtLeastOnce, ok(Topic(id, STATUS))).0;
    var b := SubscribeResult(a, Topic(id, SENSORS), AtLeastOnce, ok(Topic(id, SENSORS))).0;
    SubscribeResult(b, Topic(id, HEARTBEAT), AtMostOnce, ok(Topic(id, HEARTBEAT))).0
  }

  function UnsubscribedFrom(m: Mqtt.State, id: string): Mqtt.State {
    Unsubscribed(Unsubscribed(Unsubscribed(m, Topic(id, STATUS)), Topic(id, SENSORS)), Topic(id, HEARTBEAT))
  }

  // The repository keeps the old row of an existing id and reports success all the same.
  function Registered(s: State, d: Device, ok: Broker): State {
    s.(mqtt := if s.mqtt.connected then SubscribedTo(s.mqtt, d.id, ok) else s.mqtt,
       store := if d.id in s.store then s.store else s.store[d.id := d])
  }

  function Unregistered(s: State, id: string): State {
    s.(mqtt := if s.mqtt.connected then UnsubscribedFrom(s.mqtt, id) else s.mqtt, store := s.store - {id})
  }

  // A message's effect on the store; `online` is what its JSON says, if it parses.
  function Handled(s: State, topic: string, online: Option<bool>, now: int): State {
    match Route(topic)
    case None => s
    case Some((id, sub)) =>
      if id !in s.store then s
      else if sub == STATUS && online.Some? then
        s.(store := s.store[id := s.store[id].(isConnected := online.value, lastSeen := now)])
      else if sub == HEARTBEAT then s.(store := s.store[id := s.store[id].(lastSeen := now)])
      else s
  }

  function Lookup(m: Subscriptions, topic: string): Option<QoS> {
    if topic in m then Some(m[topic]) else None
  }

  // What should be subscribed for these devices.
  function Expected(ids: set<string>, topic: string): Option<QoS> {
    match Route(topic)
    case Some((id, sub)) => if id in ids then QosOf(sub) else None
    case None => None
  }

  ghost predicate Coherent(s: State) {
    forall t: string :: Lookup(s.mqtt.subscriptions, t) == Expected(s.store.Keys, t)
  }

  lemma {:induction false} SubtopicHasNoSlash(sub: string)
    requires QosOf(sub).Some?
    ensures '/' !in sub
  {
  }

  ghost predicate IsDeviceTopic(ids: set<string>, t: string) {
    exists id, sub :: id in ids && QosOf(sub).Some? && t == Topic(id, sub)
  }

  // Coherence, spelled out: the three topics of every stored device, each with its QoS, and
  // no other topic.
  lemma {:induction false} CoherentIffThreeTopics(s: State)
    ensures Coherent(s) <==>
      && (forall id, sub | id in s.store && QosOf(sub).Some? ::
            Lookup(s.mqtt.subscriptions, Topic(id, sub)) == QosOf(sub))
      && (forall t | t in s.mqtt.subscriptions :: IsDeviceTopic(s.store.Keys, t))
  {
    hide Topic, Route, QosOf;
    forall id, sub | QosOf(sub).Some? ensures Route(Topic(id, sub)) == Some((id, sub)) {
      SubtopicHasNoSlash(sub);
      RouteIff(Topic(id, sub), id, sub);
    }
    forall t: string, id, sub | Route(t) == Some((id, sub)) ensures t == Topic(id, sub) {
      RouteIff(t, id, sub);
    }
    forall t: string
      ensures Expected(s.store.Keys, t).Some? <==> IsDeviceTopic(s.store.Keys, t)
      ensures Route(t).Some? && Expected(s.store.Keys, t).Some? ==>
        t == Topic(Route(t).value.0, Route(t).value.1)
    {
      if Expected(s.store.Keys, t).Some? {
        var (id, sub) := Route(t).value;
        assert Route(t) == Some((id, sub));
      }
    }
    if Coherent(s) {
      forall id, sub | id in s.store && QosOf(sub).Some?
        ensures Lookup(s.mqtt.subscriptions, Topic(id, sub)) == QosOf(sub)
      {
        assert Lookup(s.mqtt.subscriptions, Topic(id, sub)) == Expected(s.store.Keys, Topic(id, sub));
      }
      forall t | t in s.mqtt.subscriptions ensures IsDeviceTopic(s.store.Keys, t) {
        assert Lookup(s.mqtt.subscriptions, t) == Expected(s.store.Keys, t);
      }
    }
  }

  predicate AcceptsAll(ok: Broker, id: string) {
    ok(Topic(id, STATUS)) && ok(Topic(id, SENSORS)) && ok(Topic(id, HEARTBEAT))
  }

  // Which topics are those of one device.
  lemma {:induction false} RoutesOf(t: string, id: string)
    ensures t == Topic(id, STATUS) <==> Route(t) == Some((id, STATUS))
    ensures t == Topic(id, SENSORS) <==> Route(t) == Some((id, SENSORS))
    ensures t == Topic(id, HEARTBEAT) <==> Route(t) == Some((id, HEARTBEAT))
    ensures STATUS != SENSORS && STATUS != HEARTBEAT && SENSORS != HEARTBEAT
  {
    RouteIff(t, id, STATUS);
    RouteIff(t, id, SENSORS);
    RouteIff(t, id, HEARTBEAT);
  }

  lemma {:induction false} RegisteredLookup(s: State, d: Device, ok: Broker, t: string)
    ensures Lookup(Registered(s, d, ok).mqtt.subscriptions, t) ==
      if s.mqtt.connected && ok(t) && Expected({d.id}, t).Some? then Expected({d.id}, t)
      else Lookup(s.mqtt.subscriptions, t)
  {
    SubscribedLookup(s.mqtt, d.id, ok, t);
  }

  lemma {:induction false} SubscribedLookup(m: Mqtt.State, id: string, ok: Broker, t: string)
    ensures SubscribedTo(m, id, ok).connected == m.connected
    ensures Lookup(SubscribedTo(m, id, ok).subscriptions, t) ==
      if m.connected && ok(t) && Expected({id}, t).Some? then Expected({id}, t) else Lookup(m.subscriptions, t)
  {
    hide Topic, Route, STATUS, SENSORS, HEARTBEAT;
    RoutesOf(t, id);
  }

  lemma {:induction false} UnregisteredLookup(s: State, id: string, t: string)
    ensures Lookup(Unregistered(s, id).mqtt.subscriptions, t) ==
      if s.mqtt.connected && Expected({id}, t).Some? then None else Lookup(s.mqtt.subscriptions, t)
  {
    hide Topic, Route, STATUS, SENSORS, HEARTBEAT;
    RoutesOf(t, id);
  }

  // Registering keeps coherence iff the id was known or all three requests went through.
  lemma {:induction false} RegisterKeepsCoherenceIff(s: State, d: Device, ok: Broker)
    requires Coherent(s)
    ensures Coherent(Registered(s, d, ok)) <==> d.id in s.store || (s.mqtt.connected && AcceptsAll(ok, d.id))
  {
    hide Topic, Route, STATUS, SENSORS, HEARTBEAT;
    var r := Registered(s, d, ok);
    if d.id in s.store || (s.mqtt.connected && AcceptsAll(ok, d.id)) {
      forall t: string ensures Lookup(r.mqtt.subscriptions, t) == Expected(r.store.Keys, t) {
        RegisteredLookup(s, d, ok, t);
        RoutesOf(t, d.id);
        assert Lookup(s.mqtt.subscriptions, t) == Expected(s.store.Keys, t);
      }
    } else {
      var sub := if !ok(Topic(d.id, STATUS)) then STATUS else if !ok(Topic(d.id, SENSORS)) then SENSORS else HEARTBEAT;
      var t := Topic(d.id, sub);
      RoutesOf(t, d.id);
      RegisteredLookup(s, d, ok, t);
      assert Lookup(s.mqtt.subscriptions, t) == Expected(s.store.Keys, t);
      assert Lookup(r.mqtt.subscriptions, t) != Expected(r.store.Keys, t);
    }
  }

  // Unregistering keeps coherence iff the id was unknown or the client is connected.
  lemma {:induction false} UnregisterKeepsCoherenceIff(s: State, id: string)
    requires Coherent(s)
    ensures Coherent(Unregistered(s, id)) <==> id !in s.store || s.mqtt.connected
  {
    hide Topic, Route, STATUS, SENSORS, HEARTBEAT;
    var r := Unregistered(s, id);
    if id !in s.store || s.mqtt.connected {
      forall t: string ensures Lookup(r.mqtt.subscriptions, t) == Expected(r.store.Keys, t) {
        UnregisteredLookup(s, id, t);
        assert Lookup(s.mqtt.subscriptions, t) == Expected(s.store.Keys, t);
      }
    } else {
      var t := Topic(id, STATUS);
      RoutesOf(t, id);
      UnregisteredLookup(s, id, t);
      assert Lookup(s.mqtt.subscriptions, t) == Expected(s.store.Keys, t);
      assert Lookup(r.mqtt.subscriptions, t) != Expected(r.store.Keys, t);
    }
  }

  // ── SubscribeAll ───────────────────────────────────────────────────────────

  function SubscribedEach(m: Mqtt.State, ids: seq<string>, ok: Broker): Mqtt.State {
    if ids == [] then m else SubscribedTo(SubscribedEach(m, ids[..|ids| - 1], ok), ids[|ids| - 1], ok)
  }

  lemma {:induction false} SubscribedEachLookup(m: Mqtt.State, ids: seq<string>, ok: Broker, t: string)
    ensures SubscribedEach(m, ids, ok).connected == m.connected
    ensures var expected := Expected((set id | id in ids), t);
      Lookup(SubscribedEach(m, ids, ok).subscriptions, t) ==
        if m.connected && ok(t) && expected.Some? then expected else Lookup(m.subscriptions, t)
  {
    hide Route;
    if ids != [] {
      SubscribedEachLookup(m, ids[..|ids| - 1], ok, t);
      SubscribedLookup(SubscribedEach(m, ids[..|ids| - 1], ok), ids[|ids| - 1], ok, t);
      assert forall id :: id in ids <==> id in ids[..|ids| - 1] || id == ids[|ids| - 1];
    }
  }

  // Connected, with every request going through, SubscribeAll restores coherence from any
  // part of the expected subscriptions, such as none.
  lemma {:induction false} SubscribeAllEstablishes(s: State, ids: seq<string>, ok: Broker)
    requires s.mqtt.connected && (set id | id in ids) == s.store.Keys
    requires forall id | id in ids :: AcceptsAll(ok, id)
    requires forall t :: Lookup(s.mqtt.subscriptions, t) in [None, Expected(s.store.Keys, t)]
    ensures Coherent(s.(mqtt := SubscribedEach(s.mqtt, ids, ok)))
  {
    hide Topic, Route, STATUS, SENSORS, HEARTBEAT;
    forall t: string
      ensures Lookup(SubscribedEach(s.mqtt, ids, ok).subscriptions, t) == Expected(s.store.Keys, t)
    {
      SubscribedEachLookup(s.mqtt, ids, ok, t);
      assert Lookup(s.mqtt.subscriptions, t) in [None, Expected(s.store.Keys, t)];
      if Route(t).Some? && Route(t).value.0 in ids {
        var id := Route(t).value.0;
        RoutesOf(t, id);
        assert AcceptsAll(ok, id);
      }
    }
  }

  // ── Messages ───────────────────────────────────────────────────────────────

  // For every topic: subscriptions and ids stay, a status message with readable JSON sets
  // both liveness fields of the device it was built for, a heartbeat message the time, and
  // no other field or device changes.
  lemma {:induction false} MessageTouchesItsDevice(s: State, topic: string, online: Option<bool>, now: int)
    ensures var t := Handled(s, topic, online, now);
      && t.mqtt == s.mqtt && t.store.Keys == s.store.Keys
      && forall id | id in s.store ::
           && t.store[id] == s.store[id].(isConnected := t.store[id].isConnected, lastSeen := t.store[id].lastSeen)
           && (t.store[id].lastSeen != s.store[id].lastSeen ==>
                 t.store[id].lastSeen == now && topic in {Topic(id, STATUS), Topic(id, HEARTBEAT)})
           && (t.store[id].isConnected != s.store[id].isConnected ==>
                 online == Some(t.store[id].isConnected) && topic == Topic(id, STATUS))
           && (topic == Topic(id, STATUS) && online.Some? ==>
                 t.store[id].isConnected == online.value && t.store[id].lastSeen == now)
           && (topic == Topic(id, HEARTBEAT) ==> t.store[id].lastSeen == now)
  {
    hide Route, Topic, STATUS, SENSORS, HEARTBEAT;
    forall id ensures topic == Topic(id, STATUS) <==> Route(topic) == Some((id, STATUS))
              ensures topic == Topic(id, HEARTBEAT) <==> Route(topic) == Some((id, HEARTBEAT))
              ensures STATUS != HEARTBEAT {
      RoutesOf(topic, id);
    }
  }

  // The topics as they stand in the code: what is expected to be subscribed for a device.
  lemma {:induction false} LiteralTopics(t: string, id: string)
    ensures Expected({id}, t) ==
      if t == "devices/" + (id + "/" + "status") || t == "devices/" + (id + "/" + "sensors") then Some(AtLeastOnce)
      else if t == "devices/" + (id + "/" + "heartbeat") then Some(AtMostOnce)
      else None
  {
    hide Route;
    RouteIff(t, id, "status");
    RouteIff(t, id, "sensors");
    RouteIff(t, id, "heartbeat");
  }

  // What a message to them does; and to a device that is not stored.
  lemma {:induction false} LiteralMessages(s: State, id: string, online: Option<bool>, now: int)
    requires id in s.store
    ensures online.Some? ==>
      Handled(s, "devices/" + (id + "/" + "status"), online, now) ==
      s.(store := s.store[id := s.store[id].(isConnected := online.value, lastSeen := now)])
    ensures Handled(s, "devices/" + (id + "/" + "status"), None, now) == s
    ensures Handled(s, "devices/" + (id + "/" + "heartbeat"), online, now) ==
      s.(store := s.store[id := s.store[id].(lastSeen := now)])
    ensures Handled(s, "devices/" + (id + "/" + "sensors"), online, now) == s
  {
    hide Route;
    RouteIff("devices/" + (id + "/" + "status"), id, "status");
    RouteIff("devices/" + (id + "/" + "sensors"), id, "sensors");
    RouteIff("devices/" + (id + "/" + "heartbeat"), id, "heartbeat");
  }

  lemma {:induction false} UnknownIsIgnored(s: State, id: string, sub: string, online: Option<bool>, now: int)
    requires id !in s.store && '/' !in sub
    ensures Handled(s, "devices/" + (id + "/" + sub), online, now) == s
  {
    hide Route;
    RouteIff("devices/" + (id + "/" + sub), id, sub);
  }

  // The rows: registering a new device stores it as given, a known one is not touched, and
  // unregistering removes exactly its row. Registered anew and unregistered again, everything
  // is as before.
  lemma {:induction false} RowsFollowCalls(s: State, d: Device, ok: Broker, other: string)
    ensures d.id !in s.store ==> Registered(s, d, ok).store == s.store[d.id := d]
    ensures d.id in s.store ==> Registered(s, d, ok).store == s.store
    ensures Unregistered(s, other).store == map id | id in s.store && id != other :: s.store[id]
    ensures Coherent(s) && s.mqtt.connected && d.id !in s.store ==> Unregistered(Registered(s, d, ok), d.id) == s
  {
    if Coherent(s) && s.mqtt.connected && d.id !in s.store {
      RegisteredAndGone(s, d, ok);
    }
  }

  lemma {:induction false} RegisteredAndGone(s: State, d: Device, ok: Broker)
    requires Coherent(s) && s.mqtt.connected && d.id !in s.store
    ensures Unregistered(Registered(s, d, ok), d.id) == s
  {
    hide Topic, Route, STATUS, SENSORS, HEARTBEAT, SubscribedTo, UnsubscribedFrom;
    var r := Registered(s, d, ok);
    var t := Unregistered(r, d.id);
    assert t.store == s.store;
    UnsubscribedKeepsFlag(r.mqtt, d.id);
    SubscribedLookup(s.mqtt, d.id, ok, "");
    forall x: string ensures Lookup(t.mqtt.subscriptions, x) == Lookup(s.mqtt.subscriptions, x) {
      SubscribedLookup(s.mqtt, d.id, ok, x);
      RegisteredLookup(s, d, ok, x);
      UnregisteredLookup(r, d.id, x);
      assert Lookup(s.mqtt.subscriptions, x) == Expected(s.store.Keys, x);
    }
    SameByLookup(t.mqtt.subscriptions, s.mqtt.subscriptions);
  }

  lemma {:induction false} UnsubscribedKeepsFlag(m: Mqtt.State, id: string)
    ensures UnsubscribedFrom(m, id).connected == m.connected
  {
  }

  lemma {:induction false} SameByLookup(a: Subscriptions, b: Subscriptions)
    requires forall x: string :: Lookup(a, x) == Lookup(b, x)
    ensures a == b
  {
    assert forall x: string :: x in a <==> x in b by {
      forall x: string ensures x in a <==> x in b {
        assert Lookup(a, x) == Lookup(b, x);
      }
    }
    forall x: string | x in a ensures a[x] == b[x] {
      assert Lookup(a, x) == Lookup(b, x);
    }
  }

  // ── The manager object ─────────────────────────────────────────────────────

  class DeviceManager {
    const mqtt: MqttClient
    var store: map<string, Device>      // the repository's rows by id

    ghost function View(): State
      reads this, mqtt
    {
      State.State(mqtt.View(), store)
    }

    constructor (mqtt: MqttClient, store: map<string, Device>)
      ensures this.mqtt == mqtt && this.store == store
    {
      this.mqtt, this.store := mqtt, store;
    }

    // A new device is taken to be offline, seen just now.
    method Register(id: string, name: string, kind: string, protocol: string, address: string, now: int, ok: Broker)
      returns (result: Result<Device>)
      modifies this, mqtt
      ensures result == Ok(Device(id, name, kind, protocol, address, false, now))
      ensures View() == Registered(old(View()), result.value, ok)
    {
      var device := Device(id, name, kind, protocol, address, false, now);
      if device.id !in store {
        store := store[device.id := device];
      }
      if mqtt.connected {
        SubscribeTopics(device.id, ok);
      }
      return Ok(device);
    }

    method SubscribeTopics(id: string, ok: Broker)
      modifies mqtt
      ensures mqtt.View() == SubscribedTo(old(mqtt.View()), id, ok)
    {
      var _ := mqtt.Subscribe(Topic(id, STATUS), AtLeastOnce, ok(Topic(id, STATUS)));
      var _ := mqtt.Subscribe(Topic(id, SENSORS), AtLeastOnce, ok(Topic(id, SENSORS)));
      var _ := mqtt.Subscribe(Topic(id, HEARTBEAT), AtMostOnce, ok(Topic(id, HEARTBEAT)));
    }

    method Unregister(id: string) returns (result: Result<()>)
      modifies this, mqtt
      ensures View() == Unregistered(old(View()), id)
      ensures result == if id in old(store) then Ok(()) else Err(DeviceNotFound)
    {
      if mqtt.connected {
        mqtt.Unsubscribe(Topic(id, STATUS));
        mqtt.Unsubscribe(Topic(id, SENSORS));
        mqtt.Unsubscribe(Topic(id, HEARTBEAT));
      }
      result := if id in store then Ok(()) else Err(DeviceNotFound);
      store := store - {id};
    }

    // The ids in the order in which the repository lists its rows.
    method SubscribeAll(ids: seq<string>, ok: Broker)
      modifies mqtt
      ensures mqtt.View() == SubscribedEach(old(mqtt.View()), ids, ok)
    {
      for i := 0 to |ids|
        invariant mqtt.View() == SubscribedEach(old(mqtt.View()), ids[..i], ok)
      {
        assert ids[..i + 1][..i] == ids[..i];
        SubscribeTopics(ids[i], ok);
      }
      assert ids[..|ids|] == ids;
    }

    method HandleMqttMessage(topic: string, online: Option<bool>, now: int)
      modifies this
      ensures View() == Handled(old(View()), topic, online, now)
    {
      var route := Route(topic);
      if route.None? {
        return;
      }
      var (deviceId, subtopic) := route.value;
      if subtopic == STATUS {
        if online.Some? && deviceId in store {
          store := store[deviceId := store[deviceId].(isConnected := online.value, lastSeen := now)];
        }
      } else if subtopic == HEARTBEAT {
        if deviceId in store {
          store := store[deviceId := store[deviceId].(lastSeen := now)];
        }
      }
    }
  }
}
