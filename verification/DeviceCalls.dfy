// The device manager's calls among each other (src/devices/device_manager.cpp). They hold
// no common lock: what is atomic is each call of the repository and of the MQTT client.
module DeviceCalls {
  import opened Common
  import opened Devices
  import Mqtt

  datatype Call =
    | Register(device: Device)
    | Unregister(id: string)
    | SubscribeAll
    | Message(topic: string, online: Option<bool>, now: int)

  // What a caller has still to do, next step first.
  datatype Task =
    | Registering(device: Device)                           // add the row
    | Added(id: string)                                     // look whether the client is connected
    | Listing                                               // fetch the rows
    | Subscribing(requests: seq<(string, string)>)          // device id and subtopic
    | Unregistering(id: string)                             // look whether the client is connected
    | Unsubscribing(id: string, subs: seq<string>)          // and then remove the row
    | Reading(id: string, online: Option<bool>, now: int)   // fetch the row
    | Writing(id: string, row: Device)                      // write the changed row back

  datatype Machine = Machine(base: State, tasks: map<nat, Task>)

  // `ok` and `order`: which requests the MQTT library accepts, and in which order the rows
  // come, as far as the step asks for them.
  datatype Event =
    | Start(caller: nat, call: Call)
    | Act(caller: nat, ok: Broker, order: seq<string>)
    | Connected
    | ConnectionLost

  const SUBTOPICS: seq<string> := [STATUS, SENSORS, HEARTBEAT]

  function Requests(id: string): seq<(string, string)> { [(id, STATUS), (id, SENSORS), (id, HEARTBEAT)] }

  function RequestsOf(ids: seq<string>): seq<(string, string)> {
    if ids == [] then [] else RequestsOf(ids[..|ids| - 1]) + Requests(ids[|ids| - 1])
  }

  predicate Lists(order: seq<string>, ids: set<string>) { (set id | id in order) == ids && |order| == |ids| }

  // A message's effect on the row it names.
  function Touched(row: Device, online: Option<bool>, now: int): Device {
    if online.Some? then row.(isConnected := online.value, lastSeen := now) else row.(lastSeen := now)
  }

  function QosFor(sub: string): Mqtt.QoS { if sub == HEARTBEAT then Mqtt.AtMostOnce else Mqtt.AtLeastOnce }

  function Requested(m: Mqtt.State, request: (string, string), ok: Broker): Mqtt.State {
    var topic := Topic(request.0, request.1);
    Mqtt.SubscribeResult(m, topic, QosFor(request.1), ok(topic)).0
  }

  function Begun(call: Call): Option<Task> {
    match call
    case Register(device) => Some(Registering(device))
    case Unregister(id) => Some(Unregistering(id))
    case SubscribeAll => Some(Listing)
    case Message(topic, online, now) =>
      match Route(topic)
      case None => None
      case Some((id, sub)) =>
        if sub == STATUS && online.Some? then Some(Reading(id, online, now))
        else if sub == HEARTBEAT then Some(Reading(id, None, now))
        else None
  }

  // One step of a task, and what is left of it.
  function Next(b: State, task: Task, ok: Broker, order: seq<string>): (State, Option<Task>) {
    match task
    case Registering(d) =>
      (b.(store := if d.id in b.store then b.store else b.store[d.id := d]), Some(Added(d.id)))
    case Added(id) => (b, if b.mqtt.connected then Some(Subscribing(Requests(id))) else None)
    case Listing => (b, Some(if Lists(order, b.store.Keys) then Subscribing(RequestsOf(order)) else Listing))
    case Subscribing(rs) =>
      if rs == [] then (b, None) else (b.(mqtt := Requested(b.mqtt, rs[0], ok)), Some(Subscribing(rs[1..])))
    case Unregistering(id) => (b, Some(Unsubscribing(id, if b.mqtt.connected then SUBTOPICS else [])))
    case Unsubscribing(id, subs) =>
      if subs == [] then (b.(store := b.store - {id}), None)
      else (b.(mqtt := Mqtt.Unsubscribed(b.mqtt, Topic(id, subs[0]))), Some(Unsubscribing(id, subs[1..])))
    case Reading(id, online, now) =>
      (b, if id in b.store then Some(Writing(id, Touched(b.store[id], online, now))) else None)
    case Writing(id, row) => (b.(store := if id in b.store then b.store[id := row] else b.store), None)
  }

  function Left(tasks: map<nat, Task>, caller: nat, task: Option<Task>): map<nat, Task> {
    if task.Some? then tasks[caller := task.value] else tasks - {caller}
  }

  function Step(s: Machine, e: Event): Machine {
    match e
    case Start(c, call) =>
      if c in s.tasks then s else s.(tasks := Left(s.tasks, c, Begun(call)))
    case Act(c, ok, order) =>
      if c !in s.tasks then s
      else var (b, task) := Next(s.base, s.tasks[c], ok, order); Machine(b, Left(s.tasks, c, task))
    case Connected => s.(base := s.base.(mqtt := s.base.mqtt.(connected := true)))
    case ConnectionLost => s.(base := s.base.(mqtt := s.base.mqtt.(connected := false)))
  }

  function Exec(s: Machine, es: seq<Event>): Machine
    decreases |es|
  {
    if es == [] then s else Exec(Step(s, es[0]), es[1..])
  }

  // ── Topics ─────────────────────────────────────────────────────────────────

  // What is tracked for one subtopic of a device.
  function Tracked(b: State, id: string, sub: string): Option<Mqtt.QoS> {
    Lookup(b.mqtt.subscriptions, Topic(id, sub))
  }

  lemma {:induction false} TopicsAreDistinct()
    ensures forall id, sub | QosOf(sub).Some? :: Route(Topic(id, sub)) == Some((id, sub))
    ensures forall t: string, id, sub | Route(t) == Some((id, sub)) :: t == Topic(id, sub)
  {
    hide Topic, Route;
    forall id, sub | QosOf(sub).Some? ensures Route(Topic(id, sub)) == Some((id, sub)) {
      SubtopicHasNoSlash(sub);
      RouteIff(Topic(id, sub), id, sub);
    }
    forall t: string, id, sub | Route(t) == Some((id, sub)) ensures t == Topic(id, sub) {
      RouteIff(t, id, sub);
    }
  }

  lemma {:induction false} InRequests(ids: seq<string>)
    ensures forall r :: r in RequestsOf(ids) <==> r.0 in ids && r.1 in SUBTOPICS
  {
    hide STATUS, SENSORS, HEARTBEAT;
    if ids != [] {
      InRequests(ids[..|ids| - 1]);
    }
  }

  // ── The invariant of overlapping calls ─────────────────────────────────────

  // The task is to bring the device's topics in, or to take device and topics out.
  ghost predicate Adds(b: State, task: Task, id: string) {
    match task
    case Registering(d) => d.id == id
    case Added(i) => i == id
    case Listing => id in b.store
    case Subscribing(rs) => exists r :: r in rs && r.0 == id
    case _ => false
  }

  predicate Removes(task: Task, id: string) { (task.Unregistering? || task.Unsubscribing?) && task.id == id }

  // The task will subscribe to the topic, or remove the device.
  predicate Mends(task: Task, id: string, sub: string) {
    task == Added(id) || (task.Subscribing? && (id, sub) in task.requests) || Removes(task, id)
  }

  // No device is being brought in and taken out at the same time.
  ghost predicate Apart(s: Machine) {
    forall c, d, id | c in s.tasks && d in s.tasks :: !(Adds(s.base, s.tasks[c], id) && Removes(s.tasks[d], id))
  }

  ghost predicate Sound(b: State, task: Task) {
    match task
    case Added(id) => id in b.store
    case Subscribing(rs) => forall r | r in rs :: r.0 in b.store && QosOf(r.1).Some?
    case Unsubscribing(id, subs) =>
      && (forall sub | sub in subs :: QosOf(sub).Some?)
      && (forall sub | QosOf(sub).Some? && sub !in subs :: Tracked(b, id, sub) == None)
    case _ => true
  }

  // Nothing is tracked but topics of stored devices.
  ghost predicate NoneAstray(b: State) {
    forall t: string :: Lookup(b.mqtt.subscriptions, t) == None
      || Lookup(b.mqtt.subscriptions, t) == Expected(b.store.Keys, t)
  }

  ghost predicate Mended(tasks: map<nat, Task>, id: string, sub: string) {
    exists c :: c in tasks && Mends(tasks[c], id, sub)
  }

  ghost predicate Inv(s: Machine) {
    && Apart(s)
    && NoneAstray(s.base)
    && (forall c | c in s.tasks :: Sound(s.base, s.tasks[c]))
    && (forall id, sub | id in s.base.store && QosOf(sub).Some? ::
          Tracked(s.base, id, sub) != None || Mended(s.tasks, id, sub))
  }

  // When no call is pending, the invariant is coherence.
  lemma {:induction false} CoherentIffInv(s: Machine)
    requires s.tasks == map[]
    ensures Inv(s) <==> Coherent(s.base)
  {
    hide Topic, Route, QosOf;
    TopicsAreDistinct();
    if Inv(s) {
      forall t: string ensures Lookup(s.base.mqtt.subscriptions, t) == Expected(s.base.store.Keys, t) {
        if Expected(s.base.store.Keys, t).Some? {
          var (id, sub) := Route(t).value;
          assert Tracked(s.base, id, sub) != None;
        }
      }
    }
    if Coherent(s.base) {
      forall id, sub | id in s.base.store && QosOf(sub).Some? ensures Tracked(s.base, id, sub) != None {
        assert Lookup(s.base.mqtt.subscriptions, Topic(id, sub)) == Expected(s.base.store.Keys, Topic(id, sub));
      }
    }
  }

  // The connection is up and takes the request, or nothing is missing without it; no call
  // starts to bring a device in while another takes it out, or the reverse.
  ghost predicate Orderly(s: Machine, e: Event) {
    match e
    case Start(_, _) => Apart(Step(s, e))
    case Act(c, ok, _) => c in s.tasks ==> Served(s.base, s.tasks[c], ok)
    case _ => true
  }

  ghost predicate Served(b: State, task: Task, ok: Broker) {
    match task
    case Added(id) => b.mqtt.connected || forall sub | QosOf(sub).Some? :: Tracked(b, id, sub) != None
    case Subscribing(rs) =>
      rs == [] || (b.mqtt.connected && ok(Topic(rs[0].0, rs[0].1))) || Tracked(b, rs[0].0, rs[0].1) != None
    case Unregistering(id) => b.mqtt.connected || forall sub | QosOf(sub).Some? :: Tracked(b, id, sub) == None
    case _ => true
  }

  ghost predicate AllOrderly(s: Machine, es: seq<Event>)
    decreases |es|
  {
    es == [] || (Orderly(s, es[0]) && AllOrderly(Step(s, es[0]), es[1..]))
  }

  // The topics stay mended when a task turns into one that mends as much.
  lemma {:induction false} StillMended(tasks: map<nat, Task>, c: nat, task: Option<Task>, id: string, sub: string)
    requires c in tasks && Mended(tasks, id, sub)
    requires Mends(tasks[c], id, sub) ==> task.Some? && Mends(task.value, id, sub)
    ensures Mended(Left(tasks, c, task), id, sub)
  {
    var d :| d in tasks && Mends(tasks[d], id, sub);
    assert d in Left(tasks, c, task) && Mends(Left(tasks, c, task)[d], id, sub);
  }

  lemma {:induction false} RegisteringKeepsInv(s: Machine, c: nat, ok: Broker, order: seq<string>)
    requires Inv(s) && c in s.tasks && s.tasks[c].Registering?
    ensures Inv(Step(s, Act(c, ok, order)))
  {
    hide Topic, Route, QosOf;
    TopicsAreDistinct();
    var t := Step(s, Act(c, ok, order));
    var id := s.tasks[c].device.id;
    assert Adds(s.base, s.tasks[c], id);
    forall i, sub | i in t.base.store && QosOf(sub).Some?
      ensures Tracked(t.base, i, sub) != None || Mended(t.tasks, i, sub)
    {
      if i in s.base.store {
        assert Tracked(s.base, i, sub) != None || Mended(s.tasks, i, sub);
        if Mended(s.tasks, i, sub) {
          StillMended(s.tasks, c, Some(Added(id)), i, sub);
        }
      } else {
        assert Mends(t.tasks[c], i, sub);
      }
    }
  }

  lemma {:induction false} AddedKeepsInv(s: Machine, c: nat, ok: Broker, order: seq<string>)
    requires Inv(s) && c in s.tasks && s.tasks[c].Added? && Served(s.base, s.tasks[c], ok)
    ensures Inv(Step(s, Act(c, ok, order)))
  {
    hide Topic, Route, STATUS, SENSORS, HEARTBEAT;
    var t := Step(s, Act(c, ok, order));
    var id := s.tasks[c].id;
    assert Adds(s.base, s.tasks[c], id);
    forall i, sub | i in t.base.store && QosOf(sub).Some?
      ensures Tracked(t.base, i, sub) != None || Mended(t.tasks, i, sub)
    {
      assert Tracked(s.base, i, sub) != None || Mended(s.tasks, i, sub);
      if Tracked(s.base, i, sub) == None {
        StillMended(s.tasks, c, Next(s.base, s.tasks[c], ok, order).1, i, sub);
      }
    }
  }

  lemma {:induction false} ListingKeepsInv(s: Machine, c: nat, ok: Broker, order: seq<string>)
    requires Inv(s) && c in s.tasks && s.tasks[c].Listing?
    ensures Inv(Step(s, Act(c, ok, order)))
  {
    hide Topic, Route, STATUS, SENSORS, HEARTBEAT;
    var t := Step(s, Act(c, ok, order));
    InRequests(order);
    assert forall i | Adds(t.base, t.tasks[c], i) :: Adds(s.base, s.tasks[c], i);
    forall i, sub | i in t.base.store && QosOf(sub).Some?
      ensures Tracked(t.base, i, sub) != None || Mended(t.tasks, i, sub)
    {
      assert Tracked(s.base, i, sub) != None || Mended(s.tasks, i, sub);
      if Tracked(s.base, i, sub) == None {
        StillMended(s.tasks, c, Next(s.base, s.tasks[c], ok, order).1, i, sub);
      }
    }
  }

  // What one accepted or needless request changes.
  lemma {:induction false} RequestedTracks(b: State, r: (string, string), ok: Broker, t: string)
    requires QosOf(r.1).Some? && r.0 in b.store && NoneAstray(b)
    requires (b.mqtt.connected && ok(Topic(r.0, r.1))) || Tracked(b, r.0, r.1) != None
    ensures Lookup(Requested(b.mqtt, r, ok).subscriptions, t) ==
      if t == Topic(r.0, r.1) then QosOf(r.1) else Lookup(b.mqtt.subscriptions, t)
    ensures Expected(b.store.Keys, Topic(r.0, r.1)) == QosOf(r.1)
  {
    hide Topic, Route;
    TopicsAreDistinct();
    assert Lookup(b.mqtt.subscriptions, Topic(r.0, r.1)) == None
      || Lookup(b.mqtt.subscriptions, Topic(r.0, r.1)) == Expected(b.store.Keys, Topic(r.0, r.1));
  }

  lemma {:induction false} SubscribingKeepsInv(s: Machine, c: nat, ok: Broker, order: seq<string>)
    requires Inv(s) && c in s.tasks && s.tasks[c].Subscribing? && Served(s.base, s.tasks[c], ok)
    ensures Inv(Step(s, Act(c, ok, order)))
  {
    hide Topic, Route, QosOf, Requested;
    TopicsAreDistinct();
    var t := Step(s, Act(c, ok, order));
    var rs := s.tasks[c].requests;
    if rs == [] {
      forall i, sub | i in t.base.store && QosOf(sub).Some?
        ensures Tracked(t.base, i, sub) != None || Mended(t.tasks, i, sub)
      {
        assert Tracked(s.base, i, sub) != None || Mended(s.tasks, i, sub);
        if Tracked(s.base, i, sub) == None {
          StillMended(s.tasks, c, None, i, sub);
        }
      }
      return;
    }
    var r := rs[0];
    assert r in rs && Adds(s.base, s.tasks[c], r.0);
    forall x: string
      ensures Lookup(t.base.mqtt.subscriptions, x) ==
        if x == Topic(r.0, r.1) then QosOf(r.1) else Lookup(s.base.mqtt.subscriptions, x)
      ensures Expected(s.base.store.Keys, Topic(r.0, r.1)) == QosOf(r.1)
    {
      RequestedTracks(s.base, r, ok, x);
    }
    assert Apart(t) by {
      assert forall i | Adds(t.base, t.tasks[c], i) :: Adds(s.base, s.tasks[c], i);
    }
    forall d | d in t.tasks ensures Sound(t.base, t.tasks[d]) {
      assert Sound(s.base, s.tasks[d]);
      if t.tasks[d].Unsubscribing? {
        assert !(Adds(s.base, s.tasks[c], r.0) && Removes(s.tasks[d], r.0));
      }
    }
    forall i, sub | i in t.base.store && QosOf(sub).Some?
      ensures Tracked(t.base, i, sub) != None || Mended(t.tasks, i, sub)
    {
      assert Tracked(s.base, i, sub) != None || Mended(s.tasks, i, sub);
      if Tracked(s.base, i, sub) == None && (i, sub) != r {
        StillMended(s.tasks, c, Some(Subscribing(rs[1..])), i, sub);
      }
    }
  }

  lemma {:induction false} UnregisteringKeepsInv(s: Machine, c: nat, ok: Broker, order: seq<string>)
    requires Inv(s) && c in s.tasks && s.tasks[c].Unregistering? && Served(s.base, s.tasks[c], ok)
    ensures Inv(Step(s, Act(c, ok, order)))
  {
    hide Topic, Route, STATUS, SENSORS, HEARTBEAT;
    var t := Step(s, Act(c, ok, order));
    forall i, sub | i in t.base.store && QosOf(sub).Some?
      ensures Tracked(t.base, i, sub) != None || Mended(t.tasks, i, sub)
    {
      assert Tracked(s.base, i, sub) != None || Mended(s.tasks, i, sub);
      if Tracked(s.base, i, sub) == None {
        StillMended(s.tasks, c, Some(t.tasks[c]), i, sub);
      }
    }
  }

  lemma {:induction false} UnsubscribingKeepsInv(s: Machine, c: nat, ok: Broker, order: seq<string>)
    requires Inv(s) && c in s.tasks && s.tasks[c].Unsubscribing? && s.tasks[c].subs != []
    ensures Inv(Step(s, Act(c, ok, order)))
  {
    hide Topic, Route, QosOf;
    TopicsAreDistinct();
    var t := Step(s, Act(c, ok, order));
    var id, subs := s.tasks[c].id, s.tasks[c].subs;
    forall i, sub | i in t.base.store && QosOf(sub).Some?
      ensures Tracked(t.base, i, sub) != None || Mended(t.tasks, i, sub)
    {
      assert Tracked(s.base, i, sub) != None || Mended(s.tasks, i, sub);
      if Tracked(s.base, i, sub) == None {
        StillMended(s.tasks, c, Some(t.tasks[c]), i, sub);
      } else if Tracked(t.base, i, sub) == None {
        assert Topic(i, sub) == Topic(id, subs[0]) && subs[0] in subs;
        assert Mends(t.tasks[c], i, sub);
      }
    }
    assert Apart(t) by {
      assert Removes(s.tasks[c], id);
    }
    assert Sound(s.base, s.tasks[c]);
    assert subs == [subs[0]] + subs[1..];
    forall d | d in t.tasks ensures Sound(t.base, t.tasks[d]) {
      assert Sound(s.base, s.tasks[d]);
    }
    assert NoneAstray(t.base);
  }

  lemma {:induction false} RemovingKeepsInv(s: Machine, c: nat, ok: Broker, order: seq<string>)
    requires Inv(s) && c in s.tasks && s.tasks[c].Unsubscribing? && s.tasks[c].subs == []
    ensures Inv(Step(s, Act(c, ok, order)))
  {
    hide Topic, Route, QosOf;
    TopicsAreDistinct();
    var t := Step(s, Act(c, ok, order));
    var id := s.tasks[c].id;
    assert Sound(s.base, s.tasks[c]) && Removes(s.tasks[c], id);
    forall i, sub | i in t.base.store && QosOf(sub).Some?
      ensures Tracked(t.base, i, sub) != None || Mended(t.tasks, i, sub)
    {
      assert Tracked(s.base, i, sub) != None || Mended(s.tasks, i, sub);
      if Tracked(s.base, i, sub) == None {
        StillMended(s.tasks, c, None, i, sub);
      }
    }
    forall x: string
      ensures Lookup(t.base.mqtt.subscriptions, x) == None
        || Lookup(t.base.mqtt.subscriptions, x) == Expected(t.base.store.Keys, x)
    {
      if Route(x).Some? && Route(x).value.0 == id && QosOf(Route(x).value.1).Some? {
        assert Tracked(s.base, id, Route(x).value.1) == None;
      }
    }
    forall d | d in t.tasks ensures Sound(t.base, t.tasks[d]) {
      assert Sound(s.base, s.tasks[d]) && !Adds(s.base, s.tasks[d], id);
    }
  }

  lemma {:induction false} MessageKeepsInv(s: Machine, c: nat, ok: Broker, order: seq<string>)
    requires Inv(s) && c in s.tasks && (s.tasks[c].Reading? || s.tasks[c].Writing?)
    ensures Inv(Step(s, Act(c, ok, order)))
  {
    hide Topic, Route, QosOf;
    var t := Step(s, Act(c, ok, order));
    var task := Next(s.base, s.tasks[c], ok, order).1;
    assert t.base.store.Keys == s.base.store.Keys;
    forall i, sub | i in t.base.store && QosOf(sub).Some?
      ensures Tracked(t.base, i, sub) != None || Mended(t.tasks, i, sub)
    {
      assert Tracked(s.base, i, sub) != None || Mended(s.tasks, i, sub);
      if Tracked(s.base, i, sub) == None {
        StillMended(s.tasks, c, task, i, sub);
      }
    }
  }

  lemma {:induction false} StartKeepsInv(s: Machine, c: nat, call: Call)
    requires Inv(s) && Apart(Step(s, Start(c, call)))
    ensures Inv(Step(s, Start(c, call)))
  {
    hide Topic, Route, QosOf;
    var t := Step(s, Start(c, call));
    forall i, sub | i in t.base.store && QosOf(sub).Some?
      ensures Tracked(t.base, i, sub) != None || Mended(t.tasks, i, sub)
    {
      assert Tracked(s.base, i, sub) != None || Mended(s.tasks, i, sub);
      if Tracked(s.base, i, sub) == None {
        var d :| d in s.tasks && Mends(s.tasks[d], i, sub);
        assert d in t.tasks && Mends(t.tasks[d], i, sub);
      }
    }
  }

  lemma {:induction false} ConnectionKeepsInv(s: Machine, e: Event)
    requires Inv(s) && (e.Connected? || e.ConnectionLost?)
    ensures Inv(Step(s, e))
  {
    hide Topic, Route, QosOf;
    var t := Step(s, e);
    forall i, sub | i in t.base.store && QosOf(sub).Some?
      ensures Tracked(t.base, i, sub) != None || Mended(t.tasks, i, sub)
    {
      assert Tracked(s.base, i, sub) != None || Mended(s.tasks, i, sub);
    }
  }

  lemma {:induction false} StepKeepsInv(s: Machine, e: Event)
    requires Inv(s) && Orderly(s, e)
    ensures Inv(Step(s, e))
  {
    hide Inv, Apart, Served;
    match e
    case Start(c, call) => StartKeepsInv(s, c, call);
    case Act(c, ok, order) =>
      if c in s.tasks {
        match s.tasks[c]
        case Registering(_) => RegisteringKeepsInv(s, c, ok, order);
        case Added(_) => AddedKeepsInv(s, c, ok, order);
        case Listing => ListingKeepsInv(s, c, ok, order);
        case Subscribing(_) => SubscribingKeepsInv(s, c, ok, order);
        case Unregistering(_) => UnregisteringKeepsInv(s, c, ok, order);
        case Unsubscribing(_, subs) =>
          if subs == [] {
            RemovingKeepsInv(s, c, ok, order);
          } else {
            UnsubscribingKeepsInv(s, c, ok, order);
          }
        case _ => MessageKeepsInv(s, c, ok, order);
      }
    case _ => ConnectionKeepsInv(s, e);
  }

  lemma {:induction false} ExecKeepsInv(s: Machine, es: seq<Event>)
    requires Inv(s) && AllOrderly(s, es)
    ensures Inv(Exec(s, es))
    decreases |es|
  {
    hide Inv, Orderly, Step;
    if es != [] {
      StepKeepsInv(s, es[0]);
      ExecKeepsInv(Step(s, es[0]), es[1..]);
    }
  }

  // However calls overlap, and whenever the connection goes and comes back: as long as no
  // device is brought in and taken out at the same time and needed requests are accepted,
  // nothing is ever tracked but topics of stored devices, and whenever no call is pending
  // the tracked subscriptions are exactly the three topics of every stored device.
  lemma {:induction false} SubscriptionsStayCoherent(s: Machine, es: seq<Event>)
    requires Coherent(s.base) && s.tasks == map[] && AllOrderly(s, es)
    ensures NoneAstray(Exec(s, es).base)
    ensures Exec(s, es).tasks == map[] ==> Coherent(Exec(s, es).base)
  {
    CoherentIffInv(s);
    ExecKeepsInv(s, es);
    if Exec(s, es).tasks == map[] {
      CoherentIffInv(Exec(s, es));
    }
  }

  // ── All interleavings of a set of calls ────────────────────────────────────

  // The calls begun together, call i by caller i.
  function AllBegun(b: State, calls: seq<Call>): Machine {
    Machine(b, map i: nat | i < |calls| && Begun(calls[i]).Some? :: Begun(calls[i]).value)
  }

  // Steps of the calls while every request is accepted.
  ghost predicate Plain(e: Event) { e.Act? && forall t :: e.ok(t) }

  ghost predicate AllPlain(es: seq<Event>) { forall e | e in es :: Plain(e) }

  // A device is taken out while it may be brought in.
  ghost predicate Clash(b: State, calls: seq<Call>, i: nat, j: nat) {
    && i < |calls| && j < |calls| && calls[i].Unregister?
    && ((calls[j].Register? && calls[j].device.id == calls[i].id)
        || (calls[j].SubscribeAll? && calls[i].id in b.store))
  }

  ghost predicate Clashing(b: State, calls: seq<Call>) { exists i, j :: Clash(b, calls, i, j) }

  lemma {:induction false} PlainIsOrderly(s: Machine, es: seq<Event>)
    requires s.base.mqtt.connected && AllPlain(es)
    ensures AllOrderly(s, es)
    decreases |es|
  {
    hide Topic, STATUS, SENSORS, HEARTBEAT, Lists, RequestsOf;
    if es != [] {
      assert es[0] in es && Plain(es[0]);
      PlainIsOrderly(Step(s, es[0]), es[1..]);
    }
  }

  lemma {:induction false} BegunApart(b: State, calls: seq<Call>)
    requires Coherent(b) && !Clashing(b, calls)
    ensures Inv(AllBegun(b, calls))
  {
    hide Topic, Route, QosOf;
    var s := AllBegun(b, calls);
    CoherentIffInv(Machine(b, map[]));
    forall c, d, id | c in s.tasks && d in s.tasks ensures !(Adds(b, s.tasks[c], id) && Removes(s.tasks[d], id)) {
      assert !Clash(b, calls, d, c);
    }
    forall id, sub | id in b.store && QosOf(sub).Some? ensures Tracked(b, id, sub) != None {
      assert Tracked(b, id, sub) != None || Mended(map[], id, sub);
    }
  }

  // How far a task is from its end.
  function Stage(task: Task): nat {
    match task
    case Registering(_) => 3
    case Added(_) => 2
    case Listing => 2
    case Unregistering(_) => 2
    case Reading(_, _, _) => 2
    case _ => 1
  }

  function Length(task: Task): nat {
    match task case Subscribing(rs) => |rs| case Unsubscribing(_, subs) => |subs| case _ => 0
  }

  const ALL: Broker := _ => true

  lemma {:induction false} ExecAppend(s: Machine, a: seq<Event>, b: seq<Event>)
    ensures Exec(s, a + b) == Exec(Exec(s, a), b)
    decreases |a|
  {
    if a == [] {
      assert a + b == b;
    } else {
      assert (a + b)[1..] == a[1..] + b;
      ExecAppend(Step(s, a[0]), a[1..], b);
    }
  }

  lemma {:induction false} ExecOne(s: Machine, e: Event)
    ensures Exec(s, [e]) == Step(s, e)
  {
    hide Step;
    assert [e][1..] == [];
  }

  lemma {:induction false} ExecTwo(s: Machine, e: Event, f: Event)
    ensures Exec(s, [e, f]) == Step(Step(s, e), f)
  {
    hide Step;
    assert [e, f] == [e] + [f];
    ExecAppend(s, [e], [f]);
    ExecOne(s, e);
    ExecOne(Step(s, e), f);
  }

  lemma {:induction false} InOrder(ids: set<string>) returns (order: seq<string>)
    ensures Lists(order, ids)
    decreases |ids|
  {
    if ids == {} {
      order := [];
    } else {
      var id :| id in ids;
      var rest := InOrder(ids - {id});
      order := rest + [id];
      assert forall x :: x in order <==> x in rest || x == id;
      assert (set x | x in order) == (set x | x in rest) + {id};
    }
  }

  // What a task has done for good once it is over.
  ghost predicate Done(before: State, task: Task, after: State) {
    && (task.Subscribing? ==>
          && after.store == before.store
          && (forall t :: t in before.mqtt.subscriptions ==> t in after.mqtt.subscriptions)
          && forall r | r in task.requests && QosOf(r.1).Some? :: Tracked(after, r.0, r.1) != None)
    && (forall id :: Removes(task, id) ==> id !in after.store)
  }

  lemma {:induction false} RequestIsDone(b: State, rs: seq<(string, string)>, end: State)
    requires b.mqtt.connected && rs != []
    requires Done(b.(mqtt := Requested(b.mqtt, rs[0], ALL)), Subscribing(rs[1..]), end)
    ensures Done(b, Subscribing(rs), end)
  {
    hide Topic, STATUS, SENSORS, HEARTBEAT, QosFor;
    var r := rs[0];
    var subscriptions := Requested(b.mqtt, r, ALL).subscriptions;
    assert subscriptions == b.mqtt.subscriptions[Topic(r.0, r.1) := QosFor(r.1)];
    assert Topic(r.0, r.1) in end.mqtt.subscriptions;
    assert rs == [r] + rs[1..];
  }

  lemma {:induction false} StageFalls(b: State, task: Task, order: seq<string>)
    requires b.mqtt.connected && Lists(order, b.store.Keys)
    ensures var (after, left) := Next(b, task, ALL, order);
      && after.mqtt.connected
      && (left.Some? ==>
            (Stage(left.value) < Stage(task)
             || (Stage(left.value) == Stage(task) && Length(left.value) < Length(task))))
  {
    hide Topic, STATUS, SENSORS, HEARTBEAT, SUBTOPICS, RequestsOf;
  }

  // `end` is the state after the last step.
  lemma {:induction false} DoneStep(b: State, task: Task, order: seq<string>, end: State)
    requires b.mqtt.connected
    requires var (after, left) := Next(b, task, ALL, order);
      if left.Some? then Done(after, left.value, end) else end == after
    ensures Done(b, task, end)
  {
    hide Topic, STATUS, SENSORS, HEARTBEAT, SUBTOPICS, RequestsOf, Requested, QosOf, Tracked;
    var (after, left) := Next(b, task, ALL, order);
    if task.Subscribing? && task.requests != [] {
      RequestIsDone(b, task.requests, end);
    } else if left.Some? {
      assert forall id :: Removes(task, id) ==> Removes(left.value, id);
    }
  }

  // Any task can be run to its end, alone.
  lemma {:induction false} Finish(s: Machine, c: nat) returns (es: seq<Event>)
    requires c in s.tasks && s.base.mqtt.connected
    ensures AllPlain(es)
    ensures var t := Exec(s, es);
      t.tasks == s.tasks - {c} && t.base.mqtt.connected && Done(s.base, s.tasks[c], t.base)
    decreases Stage(s.tasks[c]), Length(s.tasks[c])
  {
    hide Next, Done, Lists, Stage, Length;
    var order := InOrder(s.base.store.Keys);
    var e := Act(c, ALL, order);
    var t := Step(s, e);
    StageFalls(s.base, s.tasks[c], order);
    if c in t.tasks {
      var rest := Finish(t, c);
      DoneStep(s.base, s.tasks[c], order, Exec(t, rest).base);
      es := [e] + rest;
      assert es[0] == e && es[1..] == rest;
      assert t.tasks - {c} == s.tasks - {c};
    } else {
      es := [e];
      DoneStep(s.base, s.tasks[c], order, t.base);
      assert es[1..] == [];
    }
  }

  // So can any set of tasks.
  lemma {:induction false} FinishAllBut(s: Machine, keep: set<nat>) returns (es: seq<Event>)
    requires s.base.mqtt.connected
    ensures AllPlain(es)
    ensures var t := Exec(s, es);
      t.tasks == (map c | c in s.tasks && c in keep :: s.tasks[c]) && t.base.mqtt.connected
    decreases |s.tasks|
  {
    hide Step, Done;
    if c :| c in s.tasks && c !in keep {
      var first := Finish(s, c);
      var t := Exec(s, first);
      assert c !in t.tasks && t.tasks.Keys == s.tasks.Keys - {c};
      var rest := FinishAllBut(t, keep);
      es := first + rest;
      ExecAppend(s, first, rest);
    } else {
      es := [];
    }
  }

  // Up to its requests, the call that brings a clashing device in.
  lemma {:induction false} Prelude(s: Machine, j: nat, id: string) returns (es: seq<Event>)
    requires s.base.mqtt.connected && j in s.tasks
    requires (s.tasks[j].Registering? && s.tasks[j].device.id == id) || (s.tasks[j].Listing? && id in s.base.store)
    ensures AllPlain(es)
    ensures var t := Exec(s, es);
      && t.base.mqtt.connected
      && j in t.tasks && t.tasks == s.tasks[j := t.tasks[j]]
      && t.tasks[j].Subscribing? && (id, STATUS) in t.tasks[j].requests
  {
    hide STATUS, SENSORS, HEARTBEAT, RequestsOf;
    var order := InOrder(s.base.store.Keys);
    var e := Act(j, ALL, order);
    if s.tasks[j].Registering? {
      es := [e, e];
      ExecTwo(s, e, e);
      assert Step(s, e).tasks[j] == Added(id);
      assert Step(Step(s, e), e).tasks[j] == Subscribing(Requests(id));
    } else {
      es := [e];
      ExecOne(s, e);
      assert id in (set x | x in order);
      InRequests(order);
      assert Step(s, e).tasks[j] == Subscribing(RequestsOf(order));
    }
  }

  // The interleaving that goes wrong: everything else is done, and the device taken out,
  // before its topics are requested.
  lemma {:induction false} ClashBreaksCoherence(b: State, calls: seq<Call>) returns (es: seq<Event>)
    requires b.mqtt.connected && Clashing(b, calls)
    ensures AllPlain(es)
    ensures Exec(AllBegun(b, calls), es).tasks == map[] && !Coherent(Exec(AllBegun(b, calls), es).base)
  {
    hide Step, Topic, Route, STATUS, SENSORS, HEARTBEAT;
    var s := AllBegun(b, calls);
    var i: nat, j: nat :| Clash(b, calls, i, j);
    var id := calls[i].id;
    var prelude := Prelude(s, j, id);
    var s1 := Exec(s, prelude);
    var others := FinishAllBut(s1, {i, j});
    var s2 := Exec(s1, others);
    var takeOut := Finish(s2, i);
    var s3 := Exec(s2, takeOut);
    var bringIn := Finish(s3, j);
    var s4 := Exec(s3, bringIn);
    es := prelude + others + takeOut + bringIn;
    ExecAppend(s, prelude, others);
    ExecAppend(s, prelude + others, takeOut);
    ExecAppend(s, prelude + others + takeOut, bringIn);
    assert Removes(s2.tasks[i], id);
    assert id !in s4.base.store;
    RoutesOf(Topic(id, STATUS), id);
    assert QosOf(STATUS).Some?;
    assert Tracked(s4.base, id, STATUS) != None;
    assert Expected(s4.base.store.Keys, Topic(id, STATUS)) == None;
    assert s4.tasks == map[];
  }

  // Calls begun together on coherent subscriptions, with the client connected and every
  // request accepted, leave coherent subscriptions in every interleaving iff none of them
  // unregisters a device that another registers or, stored before, may subscribe again.
  lemma {:induction false} EveryInterleavingIff(b: State, calls: seq<Call>)
    requires Coherent(b) && b.mqtt.connected
    ensures (forall es | AllPlain(es) && Exec(AllBegun(b, calls), es).tasks == map[] ::
        Coherent(Exec(AllBegun(b, calls), es).base)) <==> !Clashing(b, calls)
  {
    hide Coherent;
    var s := AllBegun(b, calls);
    if Clashing(b, calls) {
      var es := ClashBreaksCoherence(b, calls);
    } else {
      BegunApart(b, calls);
      forall es | AllPlain(es) && Exec(s, es).tasks == map[] ensures Coherent(Exec(s, es).base) {
        PlainIsOrderly(s, es);
        ExecKeepsInv(s, es);
        CoherentIffInv(Exec(s, es));
      }
    }
  }

  // ── The connection ─────────────────────────────────────────────────────────

  // The client is connected iff the last change of the connection was its coming up.
  lemma {:induction false} ConnectedIff(s: Machine, es: seq<Event>)
    ensures Exec(s, es).base.mqtt.connected <==>
      (exists i :: 0 <= i < |es| && es[i] == Connected && forall j | i < j < |es| :: es[j] != ConnectionLost)
      || (s.base.mqtt.connected && forall j | 0 <= j < |es| :: es[j] != ConnectionLost)
    decreases |es|
  {
    hide Next, Begun;
    if es != [] {
      var t, rest := Step(s, es[0]), es[1..];
      NextKeepsConnection(s, es[0]);
      ConnectedIff(t, rest);
      assert forall i | 0 <= i < |rest| :: rest[i] == es[i + 1];
      if i :| 0 <= i < |rest| && rest[i] == Connected && forall j | i < j < |rest| :: rest[j] != ConnectionLost {
        assert es[i + 1] == Connected;
        assert forall j | i + 1 < j < |es| :: es[j] == rest[j - 1];
      }
      if i :| 0 <= i < |es| && es[i] == Connected && forall j | i < j < |es| :: es[j] != ConnectionLost {
        if i > 0 {
          assert rest[i - 1] == Connected;
          assert forall j | i - 1 < j < |rest| :: rest[j] == es[j + 1];
        }
      }
    }
  }

  lemma {:induction false} NextKeepsConnection(s: Machine, e: Event)
    ensures Step(s, e).base.mqtt.connected ==
      if e == Connected then true else if e == ConnectionLost then false else s.base.mqtt.connected
  {
    hide Topic, STATUS, SENSORS, HEARTBEAT, RequestsOf;
  }

  // ── Undisturbed calls ──────────────────────────────────────────────────────

  // A caller's steps with nothing in between; those after its end change nothing.
  function Acts(c: nat, ok: Broker, order: seq<string>, n: nat): seq<Event> { seq(n, _ => Act(c, ok, order)) }

  function Alone(c: nat, call: Call, ok: Broker, order: seq<string>, n: nat): seq<Event> {
    [Start(c, call)] + Acts(c, ok, order, n)
  }

  lemma {:induction false} ActsAre(s: Machine, c: nat, ok: Broker, order: seq<string>, n: nat)
    requires n > 0
    ensures Exec(s, Acts(c, ok, order, n)) == Exec(Step(s, Act(c, ok, order)), Acts(c, ok, order, n - 1))
  {
    hide Step;
    assert Acts(c, ok, order, n)[1..] == Acts(c, ok, order, n - 1);
  }

  lemma {:induction false} AloneIs(s: Machine, c: nat, call: Call, ok: Broker, order: seq<string>, n: nat)
    ensures Exec(s, Alone(c, call, ok, order, n)) == Exec(Step(s, Start(c, call)), Acts(c, ok, order, n))
  {
    hide Step;
    assert Alone(c, call, ok, order, n)[1..] == Acts(c, ok, order, n);
  }

  lemma {:induction false} OverIsOver(s: Machine, c: nat, ok: Broker, order: seq<string>, n: nat)
    requires c !in s.tasks
    ensures Exec(s, Acts(c, ok, order, n)) == s
    decreases n
  {
    if n > 0 {
      ActsAre(s, c, ok, order, n);
      OverIsOver(s, c, ok, order, n - 1);
    }
  }

  function RequestedEach(m: Mqtt.State, rs: seq<(string, string)>, ok: Broker): Mqtt.State
    decreases |rs|
  {
    if rs == [] then m else RequestedEach(Requested(m, rs[0], ok), rs[1..], ok)
  }

  lemma {:induction false} RequestedEachAppend(
    m: Mqtt.State, a: seq<(string, string)>, b: seq<(string, string)>, ok: Broker)
    ensures RequestedEach(m, a + b, ok) == RequestedEach(RequestedEach(m, a, ok), b, ok)
    decreases |a|
  {
    if a == [] {
      assert a + b == b;
    } else {
      assert (a + b)[1..] == a[1..] + b;
      RequestedEachAppend(Requested(m, a[0], ok), a[1..], b, ok);
    }
  }

  lemma {:induction false} RequestsOfOne(m: Mqtt.State, id: string, ok: Broker)
    ensures RequestedEach(m, Requests(id), ok) == SubscribedTo(m, id, ok)
  {
    hide Topic;
    var rs := Requests(id);
    var m1 := Requested(m, (id, STATUS), ok);
    var m2 := Requested(m1, (id, SENSORS), ok);
    assert rs[1..] == [(id, SENSORS), (id, HEARTBEAT)];
    assert rs[1..][1..] == [(id, HEARTBEAT)] && rs[1..][1..][1..] == [];
    assert RequestedEach(m, rs, ok) == RequestedEach(m1, rs[1..], ok);
    assert RequestedEach(m1, rs[1..], ok) == RequestedEach(m2, rs[1..][1..], ok);
    assert RequestedEach(m2, rs[1..][1..], ok) == Requested(m2, (id, HEARTBEAT), ok);
  }

  lemma {:induction false} RequestsOfAll(m: Mqtt.State, ids: seq<string>, ok: Broker)
    ensures RequestedEach(m, RequestsOf(ids), ok) == SubscribedEach(m, ids, ok)
    decreases |ids|
  {
    hide Requests, SubscribedTo;
    if ids != [] {
      RequestsOfAll(m, ids[..|ids| - 1], ok);
      RequestedEachAppend(m, RequestsOf(ids[..|ids| - 1]), Requests(ids[|ids| - 1]), ok);
      RequestsOfOne(SubscribedEach(m, ids[..|ids| - 1], ok), ids[|ids| - 1], ok);
    }
  }

  lemma {:induction false} SubscribingAlone(s: Machine, c: nat, ok: Broker, order: seq<string>, n: nat)
    requires c in s.tasks && s.tasks[c].Subscribing? && |s.tasks[c].requests| < n
    ensures Exec(s, Acts(c, ok, order, n)) ==
      Machine(s.base.(mqtt := RequestedEach(s.base.mqtt, s.tasks[c].requests, ok)), s.tasks - {c})
    decreases n
  {
    hide Requested;
    var t := Step(s, Act(c, ok, order));
    ActsAre(s, c, ok, order, n);
    if s.tasks[c].requests == [] {
      OverIsOver(t, c, ok, order, n - 1);
    } else {
      SubscribingAlone(t, c, ok, order, n - 1);
      assert t.tasks - {c} == s.tasks - {c};
    }
  }

  // Without other callers in between, the steps of a call are its effect as a whole.
  lemma {:induction false} RegisterAlone(s: Machine, c: nat, device: Device, ok: Broker)
    requires c !in s.tasks
    ensures Exec(s, Alone(c, Register(device), ok, [], 6)) == s.(base := Registered(s.base, device, ok))
  {
    hide Requests, Requested, SubscribedTo;
    AloneIs(s, c, Register(device), ok, [], 6);
    var s1 := Step(s, Start(c, Register(device)));
    var s2 := Step(s1, Act(c, ok, []));
    var s3 := Step(s2, Act(c, ok, []));
    ActsAre(s1, c, ok, [], 6);
    ActsAre(s2, c, ok, [], 5);
    if s.base.mqtt.connected {
      assert |Requests(device.id)| == 3 by { ThreeRequests(device.id); }
      SubscribingAlone(s3, c, ok, [], 4);
      RequestsOfOne(s.base.mqtt, device.id, ok);
      assert s3.tasks - {c} == s.tasks;
    } else {
      OverIsOver(s3, c, ok, [], 4);
      assert s3.tasks == s.tasks;
    }
  }

  lemma {:induction false} ThreeRequests(id: string)
    ensures |Requests(id)| == 3
  {
  }

  lemma {:induction false} SubscribeAllAlone(s: Machine, c: nat, ok: Broker, order: seq<string>, n: nat)
    requires c !in s.tasks && Lists(order, s.base.store.Keys) && n > |RequestsOf(order)| + 1
    ensures Exec(s, Alone(c, SubscribeAll, ok, order, n)) ==
      s.(base := s.base.(mqtt := SubscribedEach(s.base.mqtt, order, ok)))
  {
    hide Lists, RequestsOf;
    AloneIs(s, c, SubscribeAll, ok, order, n);
    var s1 := Step(s, Start(c, SubscribeAll));
    var s2 := Step(s1, Act(c, ok, order));
    ActsAre(s1, c, ok, order, n);
    SubscribingAlone(s2, c, ok, order, n - 1);
    RequestsOfAll(s.base.mqtt, order, ok);
    assert s2.tasks - {c} == s.tasks;
  }

  function UnsubscribedEach(m: Mqtt.State, id: string, subs: seq<string>): Mqtt.State
    decreases |subs|
  {
    if subs == [] then m else UnsubscribedEach(Mqtt.Unsubscribed(m, Topic(id, subs[0])), id, subs[1..])
  }

  lemma {:induction false} SubtopicsInOrder(m: Mqtt.State, id: string)
    ensures |SUBTOPICS| == 3 && UnsubscribedEach(m, id, []) == m
    ensures UnsubscribedEach(m, id, SUBTOPICS) == UnsubscribedFrom(m, id)
  {
    hide Topic;
    assert SUBTOPICS[1..] == [SENSORS, HEARTBEAT] && SUBTOPICS[1..][1..] == [HEARTBEAT];
    var m1 := Mqtt.Unsubscribed(m, Topic(id, STATUS));
    var m2 := Mqtt.Unsubscribed(m1, Topic(id, SENSORS));
    assert UnsubscribedEach(m, id, SUBTOPICS) == UnsubscribedEach(m1, id, SUBTOPICS[1..]);
    assert UnsubscribedEach(m1, id, SUBTOPICS[1..]) == UnsubscribedEach(m2, id, SUBTOPICS[1..][1..]);
    assert UnsubscribedEach(m2, id, [HEARTBEAT]) == Mqtt.Unsubscribed(m2, Topic(id, HEARTBEAT));
  }

  lemma {:induction false} UnsubscribingAlone(s: Machine, c: nat, ok: Broker, order: seq<string>, n: nat)
    requires c in s.tasks && s.tasks[c].Unsubscribing? && |s.tasks[c].subs| < n
    ensures var task := s.tasks[c];
      Exec(s, Acts(c, ok, order, n)) == Machine(
        s.base.(mqtt := UnsubscribedEach(s.base.mqtt, task.id, task.subs), store := s.base.store - {task.id}),
        s.tasks - {c})
    decreases n
  {
    hide Topic;
    var t := Step(s, Act(c, ok, order));
    ActsAre(s, c, ok, order, n);
    if s.tasks[c].subs == [] {
      OverIsOver(t, c, ok, order, n - 1);
    } else {
      UnsubscribingAlone(t, c, ok, order, n - 1);
      assert t.tasks - {c} == s.tasks - {c};
    }
  }

  lemma {:induction false} UnregisterAlone(s: Machine, c: nat, id: string, ok: Broker)
    requires c !in s.tasks
    ensures Exec(s, Alone(c, Unregister(id), ok, [], 5)) == s.(base := Unregistered(s.base, id))
  {
    hide Topic, STATUS, SENSORS, HEARTBEAT, UnsubscribedFrom, SUBTOPICS, UnsubscribedEach;
    assert |SUBTOPICS| == 3 && UnsubscribedEach(s.base.mqtt, id, []) == s.base.mqtt by {
      SubtopicsInOrder(s.base.mqtt, id);
    }
    AloneIs(s, c, Unregister(id), ok, [], 5);
    var s1 := Step(s, Start(c, Unregister(id)));
    var s2 := Step(s1, Act(c, ok, []));
    ActsAre(s1, c, ok, [], 5);
    UnsubscribingAlone(s2, c, ok, [], 4);
    SubtopicsInOrder(s.base.mqtt, id);
    assert s2.tasks - {c} == s.tasks;
  }

  lemma {:induction false} MessageAlone(s: Machine, c: nat, topic: string, online: Option<bool>, now: int, ok: Broker)
    requires c !in s.tasks
    ensures Exec(s, Alone(c, Message(topic, online, now), ok, [], 2)) == s.(base := Handled(s.base, topic, online, now))
  {
    hide Route;
    AloneIs(s, c, Message(topic, online, now), ok, [], 2);
    var s1 := Step(s, Start(c, Message(topic, online, now)));
    if c !in s1.tasks {
      OverIsOver(s1, c, ok, [], 2);
      assert s1.tasks == s.tasks;
    } else {
      var s2 := Step(s1, Act(c, ok, []));
      var s3 := Step(s2, Act(c, ok, []));
      ActsAre(s1, c, ok, [], 2);
      ActsAre(s2, c, ok, [], 1);
      OverIsOver(s3, c, ok, [], 0);
      assert s3.tasks == s.tasks;
    }
  }

  // ── Messages among other calls ─────────────────────────────────────────────

  predicate By(e: Event, c: nat) { (e.Start? && e.caller == c) || (e.Act? && e.caller == c) }

  lemma {:induction false} TaskIsKept(s: Machine, es: seq<Event>, c: nat)
    requires c in s.tasks && forall e | e in es :: !By(e, c)
    ensures c in Exec(s, es).tasks && Exec(s, es).tasks[c] == s.tasks[c]
    decreases |es|
  {
    hide Next, Begun;
    if es != [] {
      assert es[0] in es;
      TaskIsKept(Step(s, es[0]), es[1..], c);
    }
  }

  // A message with anything between its two repository calls leaves the row that was read,
  // changed, if the device is still there, and nothing otherwise. That is what it would do to
  // the row now stored iff the two differ in no more than the message sets.
  lemma {:induction false} CompletedMessage(s: Machine, c: nat, es: seq<Event>, ok: Broker)
    requires c in s.tasks && s.tasks[c].Reading? && s.tasks[c].id in s.base.store
    requires forall e | e in es :: !By(e, c)
    ensures var (id, online, now) := (s.tasks[c].id, s.tasks[c].online, s.tasks[c].now);
      var before := Exec(Step(s, Act(c, ok, [])), es).base;
      var after := Step(Exec(Step(s, Act(c, ok, [])), es), Act(c, ok, [])).base;
      && after.mqtt == before.mqtt
      && (id in before.store ==> after.store == before.store[id := Touched(s.base.store[id], online, now)])
      && (id in before.store ==>
            (after.store[id] == Touched(before.store[id], online, now) <==>
             before.store[id] == s.base.store[id].(
               lastSeen := before.store[id].lastSeen,
               isConnected := if online.Some? then before.store[id].isConnected else s.base.store[id].isConnected)))
      && (id !in before.store ==> after.store == before.store)
  {
    TaskIsKept(Step(s, Act(c, ok, [])), es, c);
  }

  // No other call is about to remove or rewrite the row.
  ghost predicate LeftAlone(s: Machine, id: string, c: nat) {
    forall d | d in s.tasks && d != c :: !Removes(s.tasks[d], id)
      && !((s.tasks[d].Reading? || s.tasks[d].Writing?) && s.tasks[d].id == id)
  }

  predicate Concerns(call: Call, id: string) {
    (call.Unregister? && call.id == id) || (call.Message? && Route(call.topic).Some? && Route(call.topic).value.0 == id)
  }

  lemma {:induction false} RowIsKept(s: Machine, es: seq<Event>, id: string, c: nat)
    requires id in s.base.store && LeftAlone(s, id, c)
    requires forall e | e in es :: !By(e, c) && !(e.Start? && Concerns(e.call, id))
    ensures id in Exec(s, es).base.store && Exec(s, es).base.store[id] == s.base.store[id]
    decreases |es|
  {
    hide Topic, Route, STATUS, SENSORS, HEARTBEAT, RequestsOf;
    if es != [] {
      assert es[0] in es;
      RowIsKept(Step(s, es[0]), es[1..], id, c);
    }
  }

  // So while others register devices, subscribe, and unregister or hear from other devices,
  // a message acts as one atomic step.
  lemma {:induction false} MessageIsAtomic(s: Machine, c: nat, es: seq<Event>, ok: Broker)
    requires c in s.tasks && s.tasks[c].Reading? && s.tasks[c].id in s.base.store
    requires LeftAlone(s, s.tasks[c].id, c)
    requires forall e | e in es :: !By(e, c) && !(e.Start? && Concerns(e.call, s.tasks[c].id))
    ensures var (id, online, now) := (s.tasks[c].id, s.tasks[c].online, s.tasks[c].now);
      var before := Exec(Step(s, Act(c, ok, [])), es).base;
      var after := Step(Exec(Step(s, Act(c, ok, [])), es), Act(c, ok, [])).base;
      id in before.store && after == before.(store := before.store[id := Touched(before.store[id], online, now)])
  {
    CompletedMessage(s, c, es, ok);
    RowIsKept(Step(s, Act(c, ok, [])), es, s.tasks[c].id, c);
  }

  lemma {:induction false} RowIsGone(b: State, id: string)
    ensures id !in Unregistered(b, id).store
  {
  }

  lemma {:induction false} AloneAreOthers(c: nat, other: nat, device: Device, ok: Broker)
    requires other != c
    ensures forall e | e in Alone(other, Unregister(device.id), ok, [], 5) + Alone(other, Register(device), ok, [], 6) ::
      !By(e, c)
  {
  }

  // A device unregistered and registered anew between the two calls gets its old name,
  // kind, protocol and address back.
  lemma {:induction false} StaleRowOverwritesNew(s: Machine, c: nat, other: nat, device: Device, ok: Broker)
    requires c in s.tasks && s.tasks[c].Reading? && s.tasks[c].id == device.id && device.id in s.base.store
    requires other !in s.tasks
    ensures var es := Alone(other, Unregister(device.id), ok, [], 5) + Alone(other, Register(device), ok, [], 6);
      var before := Exec(Step(s, Act(c, ok, [])), es);
      var after := Step(before, Act(c, ok, []));
      && device.id in before.base.store && before.base.store[device.id] == device
      && device.id in after.base.store && after.base.store[device.id]
           == Touched(s.base.store[device.id], s.tasks[c].online, s.tasks[c].now)
  {
    hide Unregistered, Acts;
    var t := Step(s, Act(c, ok, []));
    assert t.base == s.base && other !in t.tasks;
    var a, b := Alone(other, Unregister(device.id), ok, [], 5), Alone(other, Register(device), ok, [], 6);
    ExecAppend(t, a, b);
    UnregisterAlone(t, other, device.id, ok);
    assert device.id !in Unregistered(s.base, device.id).store by { RowIsGone(s.base, device.id); }
    RegisterAlone(Exec(t, a), other, device, ok);
    AloneAreOthers(c, other, device, ok);
    CompletedMessage(s, c, a + b, ok);
  }
}
