// What the WebSocket server's state says about the events that led to it
// (src/network/websocket/ws_server.cpp).
module WsHistory {
  import opened WsServer
  import WS = WsSession

  // Event i of a run from the start was enabled when its turn came.
  predicate Occurs(es: seq<Event>, i: nat): (occurs: bool)
    ensures occurs ==> i < |es|
  {
    i < |es| && Enabled(Exec(INITIAL, es[..i]), es[i])
  }

  // Kinds of events.
  datatype Kind =
    | Connects(k: nat)                      // successful handshakes of a connection
    | Handshakes(k: nat)                    // its handshakes, whatever they end with
    | Disconnects(k: nat)
    | Joins(id: Id, topic: string)          // subscriptions
    | Parts(id: Id, topic: string)          // their cancellation, and disconnects under the id
    | Never

  predicate Is(e: Event, kind: Kind) {
    match kind
    case Connects(k) => e == HandshakeDone(k, true)
    case Handshakes(k) => e.HandshakeDone? && e.k == k
    case Disconnects(k) => e == Disconnect(k)
    case Joins(id, topic) => e == Subscribe(id, topic)
    case Parts(id, topic) => e == Unsubscribe(id, topic) || (e.Disconnect? && IdOf(e.k) == id)
    case Never => false
  }

  // Some event of the first kind occurred, and none of the second kind since.
  ghost predicate LastWas(es: seq<Event>, on: Kind, off: Kind) {
    exists i: nat :: Occurs(es, i) && Is(es[i], on) && NoneSince(es, i, off)
  }

  ghost predicate NoneSince(es: seq<Event>, i: nat, off: Kind) {
    forall j: nat | i < j && Occurs(es, j) :: !Is(es[j], off)
  }

  ghost predicate LiveByEvents(es: seq<Event>, k: nat) { LastWas(es, Connects(k), Disconnects(k)) }

  ghost predicate SubscribedByEvents(es: seq<Event>, topic: string, id: Id) {
    LastWas(es, Joins(id, topic), Parts(id, topic))
  }

  function Accepts(es: seq<Event>): nat {
    if es == [] then 0 else Accepts(es[..|es| - 1]) + (if es[|es| - 1] == Accept then 1 else 0)
  }

  lemma {:induction false} ExecNext(s: State, es: seq<Event>, e: Event)
    ensures Exec(s, es + [e]) == Step(Exec(s, es), e)
    decreases |es|
  {
    hide Step;
    if es == [] {
      assert ([e])[1..] == [] && es + [e] == [e];
    } else {
      assert (es + [e])[1..] == es[1..] + [e];
      ExecNext(Step(s, es[0]), es[1..], e);
    }
  }

  lemma {:induction false} OccursNext(es: seq<Event>, e: Event)
    ensures forall i: nat | i < |es| :: Occurs(es + [e], i) <==> Occurs(es, i)
    ensures Occurs(es + [e], |es|) <==> Enabled(Exec(INITIAL, es), e)
  {
    hide Enabled, Exec;
    assert (es + [e])[..|es|] == es;
    assert forall i: nat | i < |es| :: (es + [e])[..i] == es[..i];
  }

  lemma {:induction false} NoneSinceNext(es: seq<Event>, e: Event, i: nat, off: Kind)
    requires i < |es|
    ensures NoneSince(es + [e], i, off) <==>
      NoneSince(es, i, off) && !(Enabled(Exec(INITIAL, es), e) && Is(e, off))
  {
    hide Enabled, Exec, Occurs, Is;
    OccursNext(es, e);
    var all := es + [e];
    if NoneSince(all, i, off) {
      forall j: nat | i < j && Occurs(es, j) ensures !Is(es[j], off) {
        assert Occurs(all, j) && all[j] == es[j];
      }
      assert Occurs(all, |es|) ==> !Is(all[|es|], off);
    }
    if NoneSince(es, i, off) && !(Enabled(Exec(INITIAL, es), e) && Is(e, off)) {
      forall j: nat | i < j && Occurs(all, j) ensures !Is(all[j], off) {
        assert j < |es| ==> Occurs(es, j) && all[j] == es[j];
      }
    }
  }

  lemma {:induction false} NoneSinceLast(es: seq<Event>, e: Event, off: Kind)
    ensures NoneSince(es + [e], |es|, off)
  {
    hide Enabled, Exec, Is;
  }

  lemma {:induction false} LastWasNext(es: seq<Event>, e: Event, on: Kind, off: Kind)
    ensures LastWas(es + [e], on, off) <==>
      (Enabled(Exec(INITIAL, es), e) && Is(e, on)) ||
      (LastWas(es, on, off) && !(Enabled(Exec(INITIAL, es), e) && Is(e, off)))
  {
    hide Enabled, Exec, Is, Occurs, NoneSince;
    var all, n := es + [e], |es|;
    OccursNext(es, e);
    NoneSinceLast(es, e, off);
    if LastWas(all, on, off) {
      var i: nat :| Occurs(all, i) && Is(all[i], on) && NoneSince(all, i, off);
      if i < n {
        NoneSinceNext(es, e, i, off);
        assert Occurs(es, i) && Is(es[i], on) && NoneSince(es, i, off);
      }
    }
    if LastWas(es, on, off) && !(Enabled(Exec(INITIAL, es), e) && Is(e, off)) {
      var i: nat :| Occurs(es, i) && Is(es[i], on) && NoneSince(es, i, off);
      NoneSinceNext(es, e, i, off);
      assert Occurs(all, i) && Is(all[i], on) && NoneSince(all, i, off);
    }
    if Enabled(Exec(INITIAL, es), e) && Is(e, on) {
      assert Occurs(all, n) && Is(all[n], on) && NoneSince(all, n, off);
    }
  }

  // ── Connections ────────────────────────────────────────────────────────────

  lemma {:induction false} AcceptsAreCounted(es: seq<Event>)
    ensures Exec(INITIAL, es).accepts == Accepts(es)
  {
    if es != [] {
      var before, e := es[..|es| - 1], es[|es| - 1];
      assert es == before + [e];
      ExecNext(INITIAL, before, e);
      AcceptsAreCounted(before);
    }
  }

  lemma {:induction false} StatusStep(s: State, e: Event, k: nat)
    requires RegistryInv(s)
    ensures var t := Step(s, e);
      && (k in t.status && t.status[k] == Live <==>
            (Enabled(s, e) && Is(e, Connects(k)))
            || (k in s.status && s.status[k] == Live && !(Enabled(s, e) && Is(e, Disconnects(k)))))
      && (k in t.status && t.status[k] != Handshaking <==>
            (Enabled(s, e) && Is(e, Handshakes(k))) || (k in s.status && s.status[k] != Handshaking))
  {
    hide IdOf;
  }

  lemma {:induction false} NothingYet(on: Kind, off: Kind)
    ensures !LastWas([], on, off)
  {
  }

  // A connection is live iff its handshake succeeded and it was not disconnected since; it
  // is past its handshake iff there was one.
  lemma {:induction false} LiveIff(es: seq<Event>, k: nat)
    ensures var s := Exec(INITIAL, es);
      && (k in s.status && s.status[k] == Live <==> LiveByEvents(es, k))
      && (k in s.status && s.status[k] != Handshaking <==> LastWas(es, Handshakes(k), Never))
    decreases |es|
  {
    hide Step, Enabled, LastWas, RegistryInv, DeliveryInv;
    if es == [] {
      NothingYet(Connects(k), Disconnects(k));
      NothingYet(Handshakes(k), Never);
    } else {
      var before, e := es[..|es| - 1], es[|es| - 1];
      assert es == before + [e];
      ExecNext(INITIAL, before, e);
      LiveIff(before, k);
      ReachableInv(before);
      StatusStep(Exec(INITIAL, before), e, k);
      LastWasNext(before, e, Connects(k), Disconnects(k));
      LastWasNext(before, e, Handshakes(k), Never);
    }
  }

  lemma {:induction false} ReachableInv(es: seq<Event>)
    ensures RegistryInv(Exec(INITIAL, es)) && DeliveryInv(Exec(INITIAL, es))
  {
    ExecKeepsInv(INITIAL, es);
  }

  // What the operations wait for: the handshake for its connection, which can be only once;
  // the disconnect for the handshake; and everything but accepting, deliveries and writers
  // for the loop that holds the mutex.
  lemma {:induction false} EnabledIff(es: seq<Event>, k: nat, ok: bool, id: Id, topic: string, m: WS.Message)
    ensures var s := Exec(INITIAL, es);
      && Enabled(s, Accept)
      && (Enabled(s, HandshakeDone(k, ok)) <==>
            s.pending == {} && k < Accepts(es) && !LastWas(es, Handshakes(k), Never))
      && (Enabled(s, Disconnect(k)) <==> s.pending == {} && LastWas(es, Handshakes(k), Never))
      && (Enabled(s, Subscribe(id, topic)) <==> s.pending == {})
      && (Enabled(s, Unsubscribe(id, topic)) <==> s.pending == {})
      && (Enabled(s, Send(id, m)) <==> s.pending == {})
      && (Enabled(s, Broadcast(m)) <==> s.pending == {})
      && (Enabled(s, BroadcastToTopic(topic, m)) <==> s.pending == {})
  {
    hide LastWas, Accepts;
    ReachableInv(es);
    LiveIff(es, k);
    AcceptsAreCounted(es);
  }

  // ── Subscriptions ──────────────────────────────────────────────────────────

  lemma {:induction false} RelationStep(s: State, e: Event, topic: string, id: Id)
    ensures (topic, id) in Relation(Step(s, e).topics) <==>
      (Enabled(s, e) && Is(e, Joins(id, topic)))
      || ((topic, id) in Relation(s.topics) && !(Enabled(s, e) && Is(e, Parts(id, topic))))
  {
    hide IdOf, Subscribed, Unsubscribed, Dropped, Relation, WS.Step;
    if Enabled(s, e) {
      match e
      case Subscribe(i, t) => TopicsRefineRelation(s.topics, i, t, s.registry);
      case Unsubscribe(i, t) => TopicsRefineRelation(s.topics, i, t, s.registry);
      case Disconnect(k) => TopicsRefineRelation(s.topics, IdOf(k), topic, s.registry);
      case _ =>
    }
  }

  // An id is subscribed to a topic iff the last thing that concerned both was a Subscribe.
  lemma {:induction false} SubscribedIff(es: seq<Event>, topic: string, id: Id)
    ensures (topic, id) in Relation(Exec(INITIAL, es).topics) <==> SubscribedByEvents(es, topic, id)
    decreases |es|
  {
    hide Step, Enabled, LastWas;
    if es == [] {
      NothingYet(Joins(id, topic), Parts(id, topic));
    } else {
      var before, e := es[..|es| - 1], es[|es| - 1];
      assert es == before + [e];
      ExecNext(INITIAL, before, e);
      SubscribedIff(before, topic, id);
      RelationStep(Exec(INITIAL, before), e, topic, id);
      LastWasNext(before, e, Joins(id, topic), Parts(id, topic));
    }
  }

  // ── Who is reached ─────────────────────────────────────────────────────────

  lemma {:induction false} Targets(s: State, id: Id, topic: string, m: WS.Message, k: nat)
    requires RegistryInv(s) && s.pending == {} && s.accepts <= ID_SPACE
    ensures var live := k in s.status && s.status[k] == Live;
      && (k in Step(s, Broadcast(m)).pending <==> live)
      && (k in Step(s, Send(id, m)).pending <==> live && IdOf(k) == id)
      && (k in Step(s, BroadcastToTopic(topic, m)).pending <==> live && (topic, IdOf(k)) in Relation(s.topics))
  {
    hide IdOf, Relation;
    TopicsRefineRelation(s.topics, id, topic, s.registry);
  }

  // While ids are unique: a Broadcast is for every live connection, a Send for the live one
  // of its id, a topic broadcast for the live ones whose id is subscribed, all by the events.
  lemma {:induction false} ReachedIff(es: seq<Event>, id: Id, topic: string, m: WS.Message, k: nat)
    requires Exec(INITIAL, es).pending == {} && Accepts(es) <= ID_SPACE
    ensures var s := Exec(INITIAL, es);
      && (k in Step(s, Broadcast(m)).pending <==> LiveByEvents(es, k))
      && (k in Step(s, Send(id, m)).pending <==> LiveByEvents(es, k) && IdOf(k) == id)
      && (k in Step(s, BroadcastToTopic(topic, m)).pending <==>
            LiveByEvents(es, k) && SubscribedByEvents(es, topic, IdOf(k)))
  {
    hide IdOf, LastWas, Relation, RegistryInv, DeliveryInv, Step, Exec;
    var s := Exec(INITIAL, es);
    AcceptsAreCounted(es);
    ReachableInv(es);
    LiveIff(es, k);
    SubscribedIff(es, topic, IdOf(k));
    Targets(s, id, topic, m, k);
  }

  lemma {:induction false} Admitted(s: State, k: nat, topic: string)
    requires s.pending == {} && k == s.accepts
    ensures var t := Step(Step(Step(s, Accept), HandshakeDone(k, true)), Subscribe(IdOf(k), topic));
      && t.pending == {}
      && IdOf(k) in TopicIds(t.registry, t.topics, topic) && t.registry[IdOf(k)] == k
      && k in t.sessions && t.sessions[k].sent == []
  {
    hide IdOf;
  }

  lemma {:induction false} Reached(s: State, k: nat, topic: string, m: WS.Message)
    requires s.pending == {} && IdOf(k) in TopicIds(s.registry, s.topics, topic) && s.registry[IdOf(k)] == k
    requires k in s.sessions
    ensures var t := Step(Step(s, BroadcastToTopic(topic, m)), Deliver(k));
      k in t.sessions && t.sessions[k].sent == s.sessions[k].sent + [m]
  {
    hide IdOf;
  }

  // A connection accepted after any run, with its handshake done and subscribed to a topic,
  // is sent the next broadcast to it, and that alone.
  lemma {:induction false} SubscriberIsSent(es: seq<Event>, topic: string, m: WS.Message)
    requires Exec(INITIAL, es).pending == {}
    ensures var k := Accepts(es);
      var more := [Accept, HandshakeDone(k, true), Subscribe(IdOf(k), topic), BroadcastToTopic(topic, m),
        Deliver(k)];
      var t := Exec(INITIAL, es + more);
      k in t.sessions && t.sessions[k].sent == [m]
  {
    hide Step, Enabled, LastWas, Accepts, IdOf, Relation, RegistryInv, DeliveryInv;
    var k, id := Accepts(es), IdOf(Accepts(es));
    var es1 := es + [Accept];
    var es2 := es1 + [HandshakeDone(k, true)];
    var es3 := es2 + [Subscribe(id, topic)];
    var more := [Accept, HandshakeDone(k, true), Subscribe(id, topic), BroadcastToTopic(topic, m), Deliver(k)];
    assert es + more == es3 + [BroadcastToTopic(topic, m)] + [Deliver(k)];
    ExecNext(INITIAL, es, Accept);
    ExecNext(INITIAL, es1, HandshakeDone(k, true));
    ExecNext(INITIAL, es2, Subscribe(id, topic));
    ExecNext(INITIAL, es3, BroadcastToTopic(topic, m));
    ExecNext(INITIAL, es3 + [BroadcastToTopic(topic, m)], Deliver(k));
    AcceptsAreCounted(es);
    var s := Exec(INITIAL, es);
    Admitted(s, k, topic);
    Reached(Exec(INITIAL, es3), k, topic, m);
  }
}
