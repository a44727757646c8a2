// The WebSocket server's fan-out (src/network/websocket/ws_server.cpp): every enqueue
// loop runs under m_sessionsMutex, while the sessions' writers run between its steps.
module WsServer {
  import WS = WsSession

  type Id = nat
  type Topics = map<string, set<Id>>

  // ConnectionId is uint64_t and m_nextId starts at 1.
  const ID_SPACE: nat := 0x1_0000_0000_0000_0000

  // The id given to the k-th accepted connection (counted from 0).
  function IdOf(k: nat): Id { (k + 1) % ID_SPACE }

  lemma {:induction false} IdsAreDistinct(n: nat)
    ensures (forall i: nat, j: nat | i < j < n :: IdOf(i) != IdOf(j)) <==> n <= ID_SPACE
    ensures forall k: nat | k + 1 < 0x1_0000_0000_0000_0000 :: IdOf(k) == k + 1
  {
    if n <= ID_SPACE {
      forall i: nat, j: nat | i < j < n ensures IdOf(i) != IdOf(j) {
        assert i + 1 < ID_SPACE;
      }
    } else {
      assert IdOf(0) == 1;
      assert IdOf(ID_SPACE) == 1;
    }
  }

  // The live ids an enqueue for a topic reaches.
  function TopicIds<V>(sessions: map<Id, V>, topics: Topics, topic: string): set<Id> {
    if topic in topics then topics[topic] * sessions.Keys else {}
  }

  function Subscribed(topics: Topics, id: Id, topic: string): Topics {
    topics[topic := (if topic in topics then topics[topic] else {}) + {id}]
  }

  function Unsubscribed(topics: Topics, id: Id, topic: string): Topics {
    if topic !in topics then topics
    else if topics[topic] - {id} == {} then topics - {topic}
    else topics[topic := topics[topic] - {id}]
  }

  // A disconnect empties the id out of every topic and keeps the topics.
  function Dropped(topics: Topics, id: Id): Topics {
    map t | t in topics :: topics[t] - {id}
  }

  // What m_topics means: a plain relation between topics and ids.
  ghost function Relation(topics: Topics): set<(string, Id)> {
    set t, i | t in topics && i in topics[t] :: (t, i)
  }

  lemma {:induction false} TopicsRefineRelation<V>(topics: Topics, id: Id, topic: string, sessions: map<Id, V>)
    ensures Relation(Subscribed(topics, id, topic)) == Relation(topics) + {(topic, id)}
    ensures Relation(Unsubscribed(topics, id, topic)) == Relation(topics) - {(topic, id)}
    ensures Relation(Dropped(topics, id)) == set p | p in Relation(topics) && p.1 != id
    ensures TopicIds(sessions, topics, topic) == set i | i in sessions && (topic, i) in Relation(topics)
  {
    var sub := Subscribed(topics, id, topic);
    forall p ensures p in Relation(sub) <==> p in Relation(topics) + {(topic, id)} {
      assert p == (p.0, p.1);
    }
    var unsub := Unsubscribed(topics, id, topic);
    forall p ensures p in Relation(unsub) <==> p in Relation(topics) - {(topic, id)} {
      assert p == (p.0, p.1);
      if topic in topics && p.0 == topic && p.1 != id && p.1 in topics[topic] {
        assert p.1 in topics[topic] - {id};
      }
    }
    forall p ensures p in Relation(Dropped(topics, id)) <==> p in Relation(topics) && p.1 != id {
      assert p == (p.0, p.1);
    }
  }

  // ── The concurrent machine ─────────────────────────────────────────────────

  datatype Status = Handshaking | Live | Gone

  // One locked enqueue loop: its message and the connections it enqueues to.
  datatype Op = Op(message: WS.Message, targets: set<nat>)

  // Connections are named by their accept order; the server itself only knows ids.
  datatype State = State(
    accepts: nat,
    nextId: Id,                     // m_nextId
    status: map<nat, Status>,
    sessions: map<nat, WS.State>,   // every session object made so far
    registry: map<Id, nat>,         // m_sessions
    topics: Topics,                 // m_topics
    message: WS.Message,            // the running enqueue loop, and whom it still has to reach;
    pending: set<nat>,              //   m_sessionsMutex is held while this is not empty
    log: seq<Op>)                   // history: enqueue loops in lock order

  const INITIAL := State(0, 1, map[], map[], map[], map[], "", {}, [])

  datatype Event =
    | Accept
    | HandshakeDone(k: nat, ok: bool)      // OnAccept, then OnSessionConnected
    | Disconnect(k: nat)                   // OnSessionDisconnected, from a read or write error
    | Subscribe(id: Id, topic: string)
    | Unsubscribe(id: Id, topic: string)
    | Send(id: Id, message: WS.Message)
    | Broadcast(message: WS.Message)
    | BroadcastToTopic(topic: string, message: WS.Message)
    | Deliver(k: nat)                      // the loop's next session->Send
    | Writer(k: nat, e: WS.Event)          // an atomic action of one session's writer

  predicate Enabled(s: State, e: Event) {
    match e
    case Accept => true
    case HandshakeDone(k, _) => s.pending == {} && k in s.status && s.status[k] == Handshaking
    case Disconnect(k) => s.pending == {} && k in s.status && s.status[k] != Handshaking
    case Deliver(k) => k in s.pending && k in s.sessions
    case Writer(k, w) => k in s.sessions && !w.Send?
    case _ => s.pending == {}
  }

  function Begin(s: State, message: WS.Message, ids: set<Id>): State
    requires ids <= s.registry.Keys
  {
    var targets := set i | i in ids :: s.registry[i];
    s.(message := message, pending := targets, log := s.log + [Op(message, targets)])
  }

  function Step(s: State, e: Event): State {
    if !Enabled(s, e) then s else
    match e
    case Accept =>
      s.(accepts := s.accepts + 1,
         nextId := (s.nextId + 1) % ID_SPACE,
         status := s.status[s.accepts := Handshaking],
         sessions := s.sessions[s.accepts := WS.INITIAL])
    case HandshakeDone(k, ok) =>
      if ok then s.(status := s.status[k := Live], registry := s.registry[IdOf(k) := k])
      else s.(status := s.status[k := Gone])
    case Disconnect(k) =>
      s.(status := s.status[k := Gone],
         registry := s.registry - {IdOf(k)},
         topics := Dropped(s.topics, IdOf(k)))
    case Subscribe(id, t) => s.(topics := Subscribed(s.topics, id, t))
    case Unsubscribe(id, t) => s.(topics := Unsubscribed(s.topics, id, t))
    case Send(id, m) => Begin(s, m, {id} * s.registry.Keys)
    case Broadcast(m) => Begin(s, m, s.registry.Keys)
    case BroadcastToTopic(t, m) => Begin(s, m, TopicIds(s.registry, s.topics, t))
    case Deliver(k) =>
      s.(sessions := s.sessions[k := WS.Step(s.sessions[k], WS.Send(s.message))], pending := s.pending - {k})
    case Writer(k, w) => s.(sessions := s.sessions[k := WS.Step(s.sessions[k], w)])
  }

  function Exec(s: State, es: seq<Event>): State
    decreases |es|
  {
    if es == [] then s else Exec(Step(s, es[0]), es[1..])
  }

  // The projection of the global log onto one connection.
  function Inbox(log: seq<Op>, k: nat): seq<WS.Message> {
    if log == [] then []
    else
      var op := log[|log| - 1];
      Inbox(log[..|log| - 1], k) + (if k in op.targets then [op.message] else [])
  }

  lemma {:induction false} InboxAppend(log: seq<Op>, op: Op, k: nat)
    ensures Inbox(log + [op], k) == Inbox(log, k) + (if k in op.targets then [op.message] else [])
  {
    assert (log + [op])[..|log|] == log;
  }

  lemma {:induction false} InboxUntargeted(log: seq<Op>, k: nat)
    requires forall i | 0 <= i < |log| :: k !in log[i].targets
    ensures Inbox(log, k) == []
  {
    if log != [] {
      InboxUntargeted(log[..|log| - 1], k);
    }
  }

  // What is still owed to a connection by the loop that holds the mutex.
  function Owed(s: State, k: nat): seq<WS.Message> {
    if k in s.pending then [s.message] else []
  }

  ghost predicate RegistryInv(s: State) {
    && s.nextId == IdOf(s.accepts)
    && (forall k: nat :: k in s.status <==> k < s.accepts)
    && (forall k: nat :: k in s.sessions <==> k < s.accepts)
    && (forall id | id in s.registry ::
          s.registry[id] in s.status && s.status[s.registry[id]] == Live && IdOf(s.registry[id]) == id)
    && s.pending <= s.sessions.Keys
    && (s.accepts <= ID_SPACE ==>
          forall k | k in s.status && s.status[k] == Live ::
            IdOf(k) in s.registry && s.registry[IdOf(k)] == k)
  }

  ghost predicate DeliveryInv(s: State) {
    && (forall i | 0 <= i < |s.log| :: forall k | k in s.log[i].targets :: k < s.accepts)
    && (forall k | k in s.sessions ::
          WS.Inv(s.sessions[k]) && s.sessions[k].sent + Owed(s, k) == Inbox(s.log, k))
  }

  ghost predicate Inv(s: State) { RegistryInv(s) && DeliveryInv(s) }

  lemma {:induction false} IdOfInjective(i: nat, j: nat)
    requires i < ID_SPACE && j < ID_SPACE && IdOf(i) == IdOf(j)
    ensures i == j
  {
  }

  lemma {:induction false} HandshakeKeepsRegistry(s: State, k: nat, ok: bool)
    requires RegistryInv(s) && Enabled(s, HandshakeDone(k, ok))
    ensures RegistryInv(Step(s, HandshakeDone(k, ok)))
  {
    var t := Step(s, HandshakeDone(k, ok));
    if t.accepts <= ID_SPACE {
      forall j | j in t.status && t.status[j] == Live
        ensures IdOf(j) in t.registry && t.registry[IdOf(j)] == j
      {
        if IdOf(j) == IdOf(k) {
          IdOfInjective(j, k);
        }
      }
    }
  }

  lemma {:induction false} DisconnectKeepsRegistry(s: State, k: nat)
    requires RegistryInv(s) && Enabled(s, Disconnect(k))
    ensures RegistryInv(Step(s, Disconnect(k)))
  {
    var t := Step(s, Disconnect(k));
    if t.accepts <= ID_SPACE {
      forall j | j in t.status && t.status[j] == Live
        ensures IdOf(j) in t.registry && t.registry[IdOf(j)] == j
      {
        if IdOf(j) == IdOf(k) {
          IdOfInjective(j, k);
        }
      }
    }
  }

  lemma {:induction false} NextId(k: nat)
    ensures (IdOf(k) + 1) % ID_SPACE == IdOf(k + 1)
  {
  }

  lemma {:induction false} AcceptKeepsRegistry(s: State)
    requires RegistryInv(s)
    ensures RegistryInv(Step(s, Accept))
  {
    hide IdOf;
    NextId(s.accepts);
  }

  lemma {:induction false} BeginKeepsRegistry(s: State, message: WS.Message, ids: set<Id>)
    requires RegistryInv(s) && ids <= s.registry.Keys
    ensures RegistryInv(Begin(s, message, ids))
  {
    hide IdOf;
  }

  lemma {:induction false} StepKeepsRegistry(s: State, e: Event)
    requires RegistryInv(s)
    ensures RegistryInv(Step(s, e))
  {
    hide IdOf, Begin, WS.Step;
    if Enabled(s, e) {
      match e
      case Accept => AcceptKeepsRegistry(s);
      case Send(id, m) => BeginKeepsRegistry(s, m, {id} * s.registry.Keys);
      case Broadcast(m) => BeginKeepsRegistry(s, m, s.registry.Keys);
      case BroadcastToTopic(topic, m) => BeginKeepsRegistry(s, m, TopicIds(s.registry, s.topics, topic));
      case HandshakeDone(k, ok) => HandshakeKeepsRegistry(s, k, ok);
      case Disconnect(k) => DisconnectKeepsRegistry(s, k);
      case _ =>
    }
  }

  lemma {:induction false} BeginKeepsDelivery(s: State, message: WS.Message, ids: set<Id>)
    requires Inv(s) && s.pending == {} && ids <= s.registry.Keys
    ensures DeliveryInv(Begin(s, message, ids))
  {
    var t := Begin(s, message, ids);
    var op := t.log[|s.log|];
    forall k | k in t.sessions
      ensures t.sessions[k].sent + Owed(t, k) == Inbox(t.log, k)
    {
      InboxAppend(s.log, op, k);
    }
  }

  lemma {:induction false} AcceptKeepsDelivery(s: State)
    requires Inv(s)
    ensures DeliveryInv(Step(s, Accept))
  {
    InboxUntargeted(s.log, s.accepts);
  }

  lemma {:induction false} DeliverKeepsDelivery(s: State, k: nat)
    requires Inv(s) && k in s.pending
    ensures DeliveryInv(Step(s, Deliver(k)))
  {
    WS.StepKeepsInv(s.sessions[k], WS.Send(s.message));
  }

  lemma {:induction false} WriterKeepsDelivery(s: State, k: nat, w: WS.Event)
    requires Inv(s) && Enabled(s, Writer(k, w))
    ensures DeliveryInv(Step(s, Writer(k, w)))
  {
    WS.StepKeepsInv(s.sessions[k], w);
  }

  lemma {:induction false} StepKeepsDelivery(s: State, e: Event)
    requires Inv(s)
    ensures DeliveryInv(Step(s, e))
  {
    if Enabled(s, e) {
      match e
      case Accept => AcceptKeepsDelivery(s);
      case Send(id, m) => BeginKeepsDelivery(s, m, {id} * s.registry.Keys);
      case Broadcast(m) => BeginKeepsDelivery(s, m, s.registry.Keys);
      case BroadcastToTopic(topic, m) => BeginKeepsDelivery(s, m, TopicIds(s.registry, s.topics, topic));
      case Deliver(k) => DeliverKeepsDelivery(s, k);
      case Writer(k, w) => WriterKeepsDelivery(s, k, w);
      case HandshakeDone(k, ok) =>
      case Disconnect(k) =>
      case Subscribe(id, topic) =>
      case Unsubscribe(id, topic) =>
    }
  }

  lemma {:induction false} ExecKeepsInv(s: State, es: seq<Event>)
    requires Inv(s)
    ensures Inv(Exec(s, es))
    decreases |es|
  {
    if es != [] {
      StepKeepsRegistry(s, es[0]);
      StepKeepsDelivery(s, es[0]);
      ExecKeepsInv(Step(s, es[0]), es[1..]);
    }
  }

  // In every interleaving, what a connection has been handed is a prefix of the
  // projection of the one global log onto it.
  lemma {:induction false} HandedFollowsLog(es: seq<Event>, k: nat)
    requires k in Exec(INITIAL, es).sessions
    ensures var s := Exec(INITIAL, es);
      s.sessions[k].handed <= Inbox(s.log, k)
  {
    ExecKeepsInv(INITIAL, es);
    var s := Exec(INITIAL, es);
    var c := s.sessions[k];
    assert Inbox(s.log, k) == c.handed + (c.popped + c.queue + Owed(s, k));
  }

  function Writers(k: nat, ws: seq<WS.Event>): seq<Event> {
    seq(|ws|, i requires 0 <= i < |ws| => Writer(k, ws[i]))
  }

  lemma {:induction false} WritersRunAlone(s: State, k: nat, ws: seq<WS.Event>)
    requires k in s.sessions && forall w | w in ws :: !w.Send?
    ensures Exec(s, Writers(k, ws)) == s.(sessions := s.sessions[k := WS.Exec(s.sessions[k], ws)])
    decreases |ws|
  {
    hide WS.Step;
    if ws != [] {
      assert Writers(k, ws)[1..] == Writers(k, ws[1..]);
      WritersRunAlone(Step(s, Writer(k, ws[0])), k, ws[1..]);
    }
  }

  // End to end: when no loop owes a connection anything and its session has not failed, any
  // complete schedule of its writer has handed over all of its part of the log.
  lemma {:induction false} DeliveredInFull(es: seq<Event>, k: nat, ws: seq<WS.Event>)
    requires var s := Exec(INITIAL, es);
      && k in s.sessions && k !in s.pending && s.sessions[k].failed == 0
      && WS.Schedule(s.sessions[k], ws) && |ws| == WS.Remaining(s.sessions[k])
    ensures var s := Exec(INITIAL, es); var t := Exec(s, Writers(k, ws));
      && k in t.sessions && t.log == s.log
      && t.sessions[k].handed == Inbox(s.log, k)
      && t.sessions[k] == WS.INITIAL.(sent := Inbox(s.log, k), handed := Inbox(s.log, k))
  {
    hide WS.Step, WS.Schedule, WS.Remaining;
    var s := Exec(INITIAL, es);
    ExecKeepsInv(INITIAL, es);
    WS.ScheduleEvents(s.sessions[k], ws);
    WritersRunAlone(s, k, ws);
    WS.CompleteSchedule(s.sessions[k], ws);
  }

  // The place of loop i among those that reach k.
  function Rank(log: seq<Op>, k: nat, i: nat): nat
    requires i <= |log|
  {
    |Inbox(log[..i], k)|
  }

  // Loop i has been handed to the writer of connection k.
  predicate Delivered(s: State, k: nat, i: nat) {
    && k in s.sessions && i < |s.log| && k in s.log[i].targets
    && Rank(s.log, k, i) < |s.sessions[k].handed|
  }

  lemma {:induction false} InboxMonotone(log: seq<Op>, k: nat, i: nat, j: nat)
    requires i <= j <= |log|
    ensures Inbox(log[..i], k) <= Inbox(log[..j], k)
    decreases j
  {
    if i < j {
      InboxMonotone(log, k, i, j - 1);
      assert log[..j] == log[..j - 1] + [log[j - 1]];
      InboxAppend(log[..j - 1], log[j - 1], k);
    }
  }

  // Two connections that share two broadcasts never see them in different orders.
  lemma {:induction false} TotalOrder(es: seq<Event>, a: nat, b: nat, i: nat, j: nat)
    requires var s := Exec(INITIAL, es);
      && i < j && Delivered(s, a, j) && a in s.log[i].targets
      && Delivered(s, b, j) && b in s.log[i].targets
    ensures var s := Exec(INITIAL, es);
      forall k | k in {a, b} ::
        && Delivered(s, k, i)
        && Rank(s.log, k, i) < Rank(s.log, k, j)
        && s.sessions[k].handed[Rank(s.log, k, i)] == s.log[i].message
        && s.sessions[k].handed[Rank(s.log, k, j)] == s.log[j].message
  {
    DeliveredInOrder(es, a, i, j);
    DeliveredInOrder(es, b, i, j);
  }

  lemma {:induction false} DeliveredInOrder(es: seq<Event>, k: nat, i: nat, j: nat)
    requires var s := Exec(INITIAL, es);
      i < j && Delivered(s, k, j) && k in s.log[i].targets
    ensures var s := Exec(INITIAL, es);
      && Delivered(s, k, i)
      && Rank(s.log, k, i) < Rank(s.log, k, j)
      && s.sessions[k].handed[Rank(s.log, k, i)] == s.log[i].message
      && s.sessions[k].handed[Rank(s.log, k, j)] == s.log[j].message
  {
    var s := Exec(INITIAL, es);
    HandedFollowsLog(es, k);
    RankHolds(s.log, k, i);
    RankHolds(s.log, k, j);
    InboxMonotone(s.log, k, i + 1, j);
  }

  lemma {:induction false} RankHolds(log: seq<Op>, k: nat, i: nat)
    requires i < |log| && k in log[i].targets
    ensures Rank(log, k, i + 1) == Rank(log, k, i) + 1
    ensures Rank(log, k, i) < |Inbox(log, k)| && Inbox(log, k)[Rank(log, k, i)] == log[i].message
  {
    assert log[..i + 1] == log[..i] + [log[i]];
    InboxAppend(log[..i], log[i], k);
    InboxMonotone(log, k, i + 1, |log|);
    assert log[..|log|] == log;
  }

  lemma {:induction false} BeginReaches(s: State, topic: string, m: WS.Message)
    requires RegistryInv(s) && s.pending == {} && s.accepts <= ID_SPACE
    ensures Step(s, BroadcastToTopic(topic, m)).pending ==
      set k | k in s.status && s.status[k] == Live && (topic, IdOf(k)) in Relation(s.topics)
  {
    hide Relation;
    var ids := TopicIds(s.registry, s.topics, topic);
    TopicsRefineRelation(s.topics, 0, topic, s.registry);
    hide TopicIds, IdOf;
    var targets := set i | i in ids :: s.registry[i];
    forall k | k in s.status && s.status[k] == Live && (topic, IdOf(k)) in Relation(s.topics)
      ensures k in targets
    {
      assert s.registry[IdOf(k)] == k;
    }
  }

  // While ids are unique, a topic broadcast is for the live connections subscribed to the
  // topic and no others.
  lemma {:induction false} TopicBroadcastReaches(es: seq<Event>, topic: string, m: WS.Message)
    requires Exec(INITIAL, es).pending == {} && Exec(INITIAL, es).accepts <= ID_SPACE
    ensures var s := Exec(INITIAL, es);
      Step(s, BroadcastToTopic(topic, m)).pending ==
        set k | k in s.status && s.status[k] == Live && (topic, IdOf(k)) in Relation(s.topics)
  {
    hide Step, Relation;
    ExecKeepsInv(INITIAL, es);
    BeginReaches(Exec(INITIAL, es), topic, m);
  }

  // Deliveries and writer actions, in any interleaving, finish a loop with exactly one
  // Send of its message to each target and none to any other session.
  predicate LoopEvent(e: Event) { e.Deliver? || e.Writer? }

  lemma {:induction false} StepSends(s: State, e: Event, k: nat)
    requires Inv(s) && k in s.sessions
    ensures var t := Step(s, e);
      && k in t.sessions
      && t.sessions[k].sent == s.sessions[k].sent + (if e == Deliver(k) && k in s.pending then [s.message] else [])
  {
    hide WS.Step, WS.Inv, Inbox;
    if Enabled(s, e) {
      match e
      case Deliver(j) => WS.StepSends(s.sessions[j], WS.Send(s.message));
      case Writer(j, w) => WS.StepSends(s.sessions[j], w);
      case _ =>
    }
  }

  lemma {:induction false} LoopSendsOnce(s: State, es: seq<Event>, k: nat)
    requires Inv(s) && k in s.sessions && forall e | e in es :: LoopEvent(e)
    ensures var t := Exec(s, es);
      && t.log == s.log && t.pending <= s.pending && k in t.sessions
      && t.sessions[k].sent ==
         s.sessions[k].sent + (if k in s.pending - t.pending then [s.message] else [])
    decreases |es|
  {
    if es != [] {
      var t := Step(s, es[0]);
      StepSends(s, es[0], k);
      assert LoopEvent(es[0]);
      assert t.log == s.log && t.message == s.message && t.pending <= s.pending;
      StepKeepsRegistry(s, es[0]);
      StepKeepsDelivery(s, es[0]);
      LoopSendsOnce(t, es[1..], k);
    }
  }

  // ── The machine seen by id ─────────────────────────────────────────────────

  // The registered sessions by id, which is all the server knows of them.
  function Registered(s: State): map<Id, WS.State>
    requires forall id | id in s.registry :: s.registry[id] in s.sessions
  {
    map id | id in s.registry :: s.sessions[s.registry[id]]
  }

  // One Send to each session addressed.
  function Enqueued(sessions: map<Id, WS.State>, ids: set<Id>, message: WS.Message): map<Id, WS.State> {
    map id | id in sessions :: if id in ids then WS.Step(sessions[id], WS.Send(message)) else sessions[id]
  }

  predicate Enqueues(e: Event) { e.Send? || e.Broadcast? || e.BroadcastToTopic? }

  function Addressed(s: State, e: Event): set<Id> {
    match e
    case Send(id, _) => {id}
    case Broadcast(_) => s.registry.Keys
    case BroadcastToTopic(topic, _) => TopicIds(s.registry, s.topics, topic)
    case _ => {}
  }

  function Deliveries(ks: seq<nat>): seq<Event> {
    seq(|ks|, i requires 0 <= i < |ks| => Deliver(ks[i]))
  }

  lemma {:induction false} DeliverEach(s: State, ks: seq<nat>)
    requires s.pending <= s.sessions.Keys
    ensures Exec(s, Deliveries(ks)) == s.(
      sessions := map k | k in s.sessions ::
        if k in s.pending && k in ks then WS.Step(s.sessions[k], WS.Send(s.message)) else s.sessions[k],
      pending := set k | k in s.pending && k !in ks)
    decreases |ks|
  {
    hide WS.Step;
    if ks != [] {
      assert Deliveries(ks)[0] == Deliver(ks[0]) && Deliveries(ks)[1..] == Deliveries(ks[1..]);
      DeliverEach(Step(s, Deliver(ks[0])), ks[1..]);
    }
  }

  lemma {:induction false} LoopTargets(s: State, e: Event)
    requires RegistryInv(s) && s.pending == {} && Enqueues(e)
    ensures var t := Step(s, e);
      && t == s.(message := e.message, pending := t.pending, log := t.log)
      && t.pending <= s.sessions.Keys
      && forall id | id in s.registry ::
           s.registry[id] in s.sessions && (s.registry[id] in t.pending <==> id in Addressed(s, e))
  {
    hide IdOf;
    assert forall i, j | i in s.registry && j in s.registry && s.registry[i] == s.registry[j] :: i == j;
  }

  lemma {:induction false} DeliveredKeepsRegistry(s: State, t: State)
    requires RegistryInv(s) && t.pending == {} && t.sessions.Keys == s.sessions.Keys
    requires t == s.(sessions := t.sessions, pending := t.pending)
    ensures RegistryInv(t)
  {
    hide IdOf;
  }

  // An operation followed by its deliveries, in whatever order, is one enqueue to the
  // addressed sessions: the step that the methods of the server object take.
  lemma {:induction false} LoopIsEnqueue(s: State, e: Event, ks: seq<nat>)
    requires RegistryInv(s) && s.pending == {} && Enqueues(e)
    requires forall k | k in Step(s, e).pending :: k in ks
    ensures var t := Exec(Step(s, e), Deliveries(ks));
      && RegistryInv(t) && t.pending == {}
      && t == s.(sessions := t.sessions, message := t.message, log := t.log)
      && Registered(t) == Enqueued(Registered(s), Addressed(s, e), e.message)
  {
    hide WS.Step, IdOf, Step, Addressed, RegistryInv;
    var t := Step(s, e);
    StepKeepsRegistry(s, e);
    LoopTargets(s, e);
    DeliverEach(t, ks);
    DeliveredKeepsRegistry(t, Exec(t, Deliveries(ks)));
  }

  lemma {:induction false} GoneStep(s: State, e: Event, k: nat)
    requires Inv(s) && k in s.status && s.status[k] == Gone && k !in s.pending
    ensures var t := Step(s, e);
      k in t.status && t.status[k] == Gone && k !in t.pending
  {
  }

  // A connection that is gone stays gone and is never sent to again.
  lemma {:induction false} GoneStaysSilent(s: State, es: seq<Event>, k: nat)
    requires Inv(s) && k in s.status && s.status[k] == Gone && k !in s.pending
    ensures var t := Exec(s, es);
      && k in t.status && t.status[k] == Gone && k !in t.pending && k in t.sessions
      && t.sessions[k].sent == s.sessions[k].sent && Inbox(t.log, k) == t.sessions[k].sent
    decreases |es|
  {
    if es != [] {
      StepKeepsRegistry(s, es[0]);
      StepKeepsDelivery(s, es[0]);
      GoneStep(s, es[0], k);
      StepSends(s, es[0], k);
      GoneStaysSilent(Step(s, es[0]), es[1..], k);
    }
  }

  // ── The server object ──────────────────────────────────────────────────────

  class Server {
    var sessions: map<Id, WS.Session>
    var topics: Topics
    var nextId: Id

    ghost predicate Valid()
      reads this
    {
      && (forall i, j | i in sessions && j in sessions && sessions[i] == sessions[j] :: i == j)
      && nextId < ID_SPACE
    }

    ghost function Objects(ids: set<Id>): set<WS.Session>
      reads this
    {
      set i | i in ids && i in sessions :: sessions[i]
    }

    ghost function View(): map<Id, WS.State>
      reads this, Objects(sessions.Keys)
    {
      map i | i in sessions :: sessions[i].View()
    }

    constructor ()
      ensures Valid() && sessions == map[] && topics == map[] && nextId == IdOf(0)
    {
      sessions, topics, nextId := map[], map[], 1;
    }

    // AcceptLoop: m_nextId.fetch_add(1).
    method AllocateId(ghost accepts: nat) returns (id: Id)
      requires Valid() && nextId == IdOf(accepts)
      modifies this`nextId
      ensures Valid() && id == IdOf(accepts) && nextId == IdOf(accepts + 1)
    {
      id := nextId;
      nextId := (nextId + 1) % ID_SPACE;
    }

    method OnSessionConnected(id: Id, session: WS.Session)
      requires Valid() && session !in sessions.Values
      modifies this`sessions
      ensures Valid() && sessions == old(sessions)[id := session]
    {
      forall i | i in sessions ensures sessions[i] != session {
        assert sessions[i] in sessions.Values;
      }
      sessions := sessions[id := session];
    }

    method OnSessionDisconnected(id: Id)
      requires Valid()
      modifies this`sessions, this`topics
      ensures Valid() && sessions == old(sessions) - {id}
      ensures topics == Dropped(old(topics), id)
    {
      sessions := sessions - {id};
      var todo := topics.Keys;
      while todo != {}
        invariant sessions == old(sessions) - {id}
        invariant todo <= topics.Keys == old(topics).Keys
        invariant forall t | t in topics ::
          topics[t] == if t in todo then old(topics)[t] else old(topics)[t] - {id}
      {
        var t :| t in todo;
        topics := topics[t := topics[t] - {id}];
        todo := todo - {t};
      }
    }

    method Subscribe(id: Id, topic: string)
      modifies this`topics
      ensures topics == Subscribed(old(topics), id, topic)
    {
      if topic !in topics {
        topics := topics[topic := {}];
      }
      topics := topics[topic := topics[topic] + {id}];
    }

    method Unsubscribe(id: Id, topic: string)
      modifies this`topics
      ensures topics == Unsubscribed(old(topics), id, topic)
    {
      if topic in topics {
        topics := topics[topic := topics[topic] - {id}];
        if topics[topic] == {} {
          topics := topics - {topic};
        }
      }
    }

    method Send(id: Id, message: WS.Message)
      requires Valid()
      modifies Objects({id})
      ensures View() == Enqueued(old(View()), {id}, message)
    {
      if id in sessions {
        sessions[id].Send(message);
      }
    }

    method Broadcast(message: WS.Message)
      requires Valid()
      modifies Objects(sessions.Keys)
      ensures View() == Enqueued(old(View()), sessions.Keys, message)
    {
      hide WS.Step;
      var todo := sessions.Keys;
      while todo != {}
        invariant todo <= sessions.Keys
        invariant forall i | i in sessions ::
          sessions[i].View() ==
          (if i in todo then old(sessions[i].View()) else WS.Step(old(sessions[i].View()), WS.Send(message)))
      {
        var i :| i in todo;
        sessions[i].Send(message);
        todo := todo - {i};
      }
    }

    method BroadcastToTopic(topic: string, message: WS.Message)
      requires Valid()
      modifies Objects(TopicIds(sessions, topics, topic))
      ensures View() == Enqueued(old(View()), TopicIds(sessions, topics, topic), message)
    {
      hide WS.Step;
      if topic !in topics {
        return;
      }
      var todo := topics[topic];
      while todo != {}
        invariant todo <= topics[topic]
        invariant forall i | i in sessions ::
          sessions[i].View() ==
          (if i in topics[topic] && i !in todo then WS.Step(old(sessions[i].View()), WS.Send(message))
           else old(sessions[i].View()))
      {
        var i :| i in todo;
        if i in sessions {
          sessions[i].Send(message);
        }
        todo := todo - {i};
      }
    }
  }
}
