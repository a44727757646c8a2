// One WebSocket session's write queue (src/network/websocket/ws_session.cpp).
//
// Send may run on any thread between any two of the writer's atomic actions. The
// machine below counts the pending activations of each kind instead of naming a
// phase, so that "there is at most one writer" is something to prove.
module WsSession {
  import opened Common

  type Message = string

  datatype State = State(
    queue: seq<Message>,    // m_writeQueue
    writing: bool,          // m_writing
    posted: nat,            // DoWrite handlers posted by Send and not yet run
    checked: nat,           // OnWrite handlers past their queue check, about to call DoWrite
    popped: seq<Message>,   // DoWrite activations that took a message, not yet handed over
    inFlight: nat,          // async_write operations not yet completed
    failed: nat,            // async_write operations completed with an error
    sent: seq<Message>,     // history: arguments of Send, in lock order
    handed: seq<Message>)   // history: messages handed to async_write, in order

  const INITIAL := State([], false, 0, 0, [], 0, 0, [], [])

  // The atomic actions. The locked section of DoWrite and its call of async_write are
  // two actions; so are the check in OnWrite and the DoWrite it leads to.
  datatype Event =
    | Send(message: Message)
    | StartPosted
    | StartChecked
    | HandOff(activation: nat)
    | WriteOk
    | WriteError

  predicate Enabled(s: State, e: Event) {
    match e
    case Send(_) => true
    case StartPosted => s.posted > 0
    case StartChecked => s.checked > 0
    case HandOff(i) => i < |s.popped|
    case WriteOk => s.inFlight > 0
    case WriteError => s.inFlight > 0
  }

  // The locked section of DoWrite.
  function Take(s: State): State {
    if s.queue == [] then s.(writing := false)
    else s.(queue := s.queue[1..], popped := s.popped + [s.queue[0]])
  }

  // One atomic action; an action that is not enabled changes nothing.
  function Step(s: State, e: Event): State {
    if !Enabled(s, e) then s else
    match e
    case Send(m) =>
      var t := s.(queue := s.queue + [m], sent := s.sent + [m]);
      if s.writing then t else t.(writing := true, posted := s.posted + 1)
    case StartPosted => Take(s.(posted := s.posted - 1))
    case StartChecked => Take(s.(checked := s.checked - 1))
    case HandOff(i) =>
      s.(popped := s.popped[..i] + s.popped[i + 1..],
         inFlight := s.inFlight + 1,
         handed := s.handed + [s.popped[i]])
    case WriteOk =>
      var t := s.(inFlight := s.inFlight - 1);
      if s.queue == [] then t.(writing := false) else t.(checked := s.checked + 1)
    case WriteError => s.(inFlight := s.inFlight - 1, failed := s.failed + 1)
  }

  function Exec(s: State, es: seq<Event>): State
    decreases |es|
  {
    if es == [] then s else Exec(Step(s, es[0]), es[1..])
  }

  // Everything that holds the right to write: it must be unique while m_writing is set.
  function Writers(s: State): nat {
    s.posted + s.checked + |s.popped| + s.inFlight + s.failed
  }

  ghost predicate Inv(s: State) {
    && Writers(s) == (if s.writing then 1 else 0)
    && (s.posted + s.checked > 0 ==> s.queue != [])
    && (!s.writing ==> s.queue == [])
    && s.sent == s.handed + s.popped + s.queue
  }

  lemma {:induction false} StepKeepsInv(s: State, e: Event)
    requires Inv(s)
    ensures Inv(Step(s, e))
  {
    var t := Step(s, e);
    if Enabled(s, e) {
      match e
      case Send(m) =>
        assert t.sent == s.handed + s.popped + (s.queue + [m]);
      case StartPosted =>
        assert s.popped + s.queue == t.popped + t.queue;
      case StartChecked =>
        assert s.popped + s.queue == t.popped + t.queue;
      case HandOff(i) =>
        assert t.handed + t.popped == s.handed + s.popped;
      case WriteOk =>
      case WriteError =>
    }
  }

  lemma {:induction false} StepSends(s: State, e: Event)
    ensures Step(s, e).sent == s.sent + (if e.Send? then [e.message] else [])
  {
  }

  lemma {:induction false} ExecKeepsInv(s: State, es: seq<Event>)
    requires Inv(s)
    ensures Inv(Exec(s, es))
    decreases |es|
  {
    if es != [] {
      StepKeepsInv(s, es[0]);
      ExecKeepsInv(Step(s, es[0]), es[1..]);
    }
  }

  // Single writer and no lost wake-up, after every interleaving of sends and writer actions.
  lemma {:induction false} SingleWriter(es: seq<Event>)
    ensures var s := Exec(INITIAL, es);
      && s.sent == s.handed + s.popped + s.queue
      && (s.writing <==> Writers(s) == 1) && (!s.writing <==> Writers(s) == 0)
      && (s.queue != [] ==> s.posted + s.checked + |s.popped| + s.inFlight + s.failed == 1)
      && (forall e :: e in [StartPosted, StartChecked] && Enabled(s, e) ==> |Step(s, e).popped| == 1)
  {
    ExecKeepsInv(INITIAL, es);
  }

  // After a failed write nothing more is handed over, whatever is sent; it only queues up.
  lemma {:induction false} FailedIsSilent(s: State, es: seq<Event>)
    requires Inv(s) && s.failed > 0
    ensures var t := Exec(s, es);
      t.handed == s.handed && t.writing && s.queue <= t.queue && t.sent == t.handed + t.queue
    decreases |es|
  {
    if es != [] {
      StepKeepsInv(s, es[0]);
      FailedIsSilent(Step(s, es[0]), es[1..]);
    }
  }

  // The messages of the Send events, in order.
  function Sends(es: seq<Event>): seq<Message> {
    if es == [] then [] else (if es[0].Send? then [es[0].message] else []) + Sends(es[1..])
  }

  // How often an action took place.
  function Times(s: State, es: seq<Event>, e: Event): nat
    decreases |es|
  {
    if es == [] then 0
    else (if es[0] == e && Enabled(s, e) then 1 else 0) + Times(Step(s, es[0]), es[1..], e)
  }

  lemma {:induction false} StateFollowsNone(s: State)
    ensures (Enabled(s, WriteOk) <==> s.inFlight > 0) && (Enabled(s, WriteError) <==> s.inFlight > 0)
  {
  }

  lemma {:induction false} StepFollowsEvent(s: State, e: Event)
    ensures var t := Step(s, e);
      && t.sent == s.sent + (if e.Send? then [e.message] else [])
      && t.failed == s.failed + (if e == WriteError && Enabled(s, e) then 1 else 0)
      && |t.handed| - |s.handed| == t.inFlight - s.inFlight + (
           if (e == WriteOk || e == WriteError) && Enabled(s, e) then 1 else 0)
  {
  }

  // In terms of the events alone: every Send counts at once; a write is in flight until it
  // completes, with or without error; the session has failed iff a write completed with one.
  lemma {:induction false} StateFollowsEvents(s: State, es: seq<Event>)
    ensures var t := Exec(s, es);
      && t.sent == s.sent + Sends(es)
      && t.failed == s.failed + Times(s, es, WriteError)
      && |t.handed| - |s.handed| == t.inFlight - s.inFlight + Times(s, es, WriteOk) + Times(s, es, WriteError)
      && (Enabled(t, WriteOk) <==> t.inFlight > 0) && (Enabled(t, WriteError) <==> t.inFlight > 0)
    decreases |es|
  {
    hide Step, Enabled;
    StateFollowsNone(s);
    if es != [] {
      StepFollowsEvent(s, es[0]);
      StateFollowsEvents(Step(s, es[0]), es[1..]);
      StateFollowsNone(Exec(s, es));
    }
  }

  // ── Draining ───────────────────────────────────────────────────────────────

  predicate WriterEvent(e: Event) { !e.Send? && !e.WriteError? }

  // A schedule of writer actions, each one enabled when its turn comes.
  predicate Schedule(s: State, es: seq<Event>)
    decreases |es|
  {
    es == [] || (WriterEvent(es[0]) && Enabled(s, es[0]) && Schedule(Step(s, es[0]), es[1..]))
  }

  // Three actions for a queued message, two for a taken one, one for a write in flight.
  function Remaining(s: State): nat { 3 * |s.queue| + 2 * |s.popped| + s.inFlight }

  function HandOffs(es: seq<Event>): nat {
    if es == [] then 0 else (if es[0].HandOff? then 1 else 0) + HandOffs(es[1..])
  }

  // The writer action that a session with work left can take.
  function NextAction(s: State): Event {
    if s.posted > 0 then StartPosted
    else if s.checked > 0 then StartChecked
    else if s.popped != [] then HandOff(0)
    else WriteOk
  }

  lemma {:induction false} WriterStepCountsDown(s: State, e: Event)
    requires Inv(s) && s.failed == 0 && WriterEvent(e) && Enabled(s, e)
    ensures var t := Step(s, e);
      && t.failed == 0 && t.sent == s.sent
      && Remaining(t) + 1 == Remaining(s)
      && |t.handed| == |s.handed| + HandOffs([e])
  {
  }

  lemma {:induction false} ScheduleCountsDown(s: State, es: seq<Event>)
    requires Inv(s) && s.failed == 0 && Schedule(s, es)
    ensures var t := Exec(s, es);
      && Inv(t) && t.failed == 0
      && Remaining(t) + |es| == Remaining(s)
      && |t.handed| == |s.handed| + HandOffs(es)
      && t.sent == s.sent
      && (Remaining(t) > 0 ==> WriterEvent(NextAction(t)) && Enabled(t, NextAction(t)))
    decreases |es|
  {
    if es != [] {
      StepKeepsInv(s, es[0]);
      WriterStepCountsDown(s, es[0]);
      ScheduleCountsDown(Step(s, es[0]), es[1..]);
    }
  }

  lemma {:induction false} CompleteSchedule(s: State, es: seq<Event>)
    requires Inv(s) && s.failed == 0 && Schedule(s, es) && |es| == Remaining(s)
    ensures Exec(s, es) == INITIAL.(sent := s.sent, handed := s.sent)
  {
    ScheduleCountsDown(s, es);
  }

  lemma {:induction false} ScheduleEvents(s: State, es: seq<Event>)
    requires Schedule(s, es)
    ensures forall e | e in es :: WriterEvent(e)
    decreases |es|
  {
    if es != [] {
      ScheduleEvents(Step(s, es[0]), es[1..]);
    }
  }

  // With no further Send and no write error, every reachable session that has not failed
  // becomes idle after exactly Remaining(s) writer actions, with one write per message.
  lemma {:induction false} WriterDrains(history: seq<Event>, es: seq<Event>)
    requires Exec(INITIAL, history).failed == 0 && Schedule(Exec(INITIAL, history), es)
    ensures var s := Exec(INITIAL, history); var t := Exec(s, es);
      && |es| <= Remaining(s)
      && (|es| < Remaining(s) ==> exists e :: WriterEvent(e) && Schedule(t, [e]))
      && (|es| == Remaining(s) ==>
            && t == INITIAL.(sent := s.sent, handed := s.sent)
            && HandOffs(es) == |s.popped| + |s.queue|)
  {
    var s := Exec(INITIAL, history);
    ExecKeepsInv(INITIAL, history);
    ScheduleCountsDown(s, es);
    var t := Exec(s, es);
    if |es| < Remaining(s) {
      assert Schedule(t, [NextAction(t)]);
    }
  }

  // ── The session object ─────────────────────────────────────────────────────

  class Session {
    var writeQueue: seq<Message>
    var writing: bool
    // What asio holds for this session, and the two histories.
    ghost var posted: nat
    ghost var checked: nat
    ghost var popped: seq<Message>
    ghost var inFlight: nat
    ghost var failed: nat
    ghost var sent: seq<Message>
    ghost var handed: seq<Message>

    ghost function View(): State
      reads this
    {
      State(writeQueue, writing, posted, checked, popped, inFlight, failed, sent, handed)
    }

    constructor ()
      ensures View() == INITIAL
    {
      writeQueue, writing := [], false;
      posted, checked, popped, inFlight, failed := 0, 0, [], 0, 0;
      sent, handed := [], [];
    }

    method Send(message: Message)
      modifies this
      ensures View() == Step(old(View()), Event.Send(message))
    {
      writeQueue := writeQueue + [message];
      sent := sent + [message];
      if !writing {
        writing := true;
        posted := posted + 1;
      }
    }

    // The locked section of DoWrite, entered from the posted handler or from OnWrite.
    method TakeFront(ghost fromPost: bool) returns (msg: Option<Message>)
      requires Enabled(View(), if fromPost then StartPosted else StartChecked)
      modifies this
      ensures View() == Step(old(View()), if fromPost then StartPosted else StartChecked)
      ensures msg == if old(writeQueue) == [] then None else Some(old(writeQueue)[0])
      ensures msg.Some? ==> popped == old(popped) + [msg.value]
    {
      if fromPost {
        posted := posted - 1;
      } else {
        checked := checked - 1;
      }
      if writeQueue == [] {
        writing := false;
        return None;
      }
      msg := Some(writeQueue[0]);
      popped := popped + [writeQueue[0]];
      writeQueue := writeQueue[1..];
    }

    // The completion handler: report a disconnect, stop, or go on with DoWrite.
    method OnWrite(error: bool) returns (disconnected: bool, again: bool)
      requires inFlight > 0
      modifies this
      ensures View() == Step(old(View()), if error then WriteError else WriteOk)
      ensures disconnected == error
      ensures again <==> !error && old(writeQueue) != []
    {
      inFlight := inFlight - 1;
      if error {
        failed := failed + 1;
        return true, false;
      }
      if writeQueue == [] {
        writing := false;
        return false, false;
      }
      checked := checked + 1;
      return false, true;
    }
  }
}
