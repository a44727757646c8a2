// The MQTT client's subscription tracking (src/network/mqtt/mqtt_client.cpp).
module Mqtt {
  import opened Common

  datatype QoS = AtMostOnce | AtLeastOnce | ExactlyOnce

  type Subscriptions = map<string, QoS>

  datatype State = State(connected: bool, subscriptions: Subscriptions)

  // rcOk: MQTTAsync_subscribe accepted the request.
  function SubscribeResult(s: State, topic: string, qos: QoS, rcOk: bool): (State, Result<()>) {
    if !s.connected then (s, Err(ConnectionFailed))
    else if !rcOk then (s, Err(MqttError))
    else (s.(subscriptions := s.subscriptions[topic := qos]), Ok(()))
  }

  // The library's return code is not looked at, nor is the connection.
  function Unsubscribed(s: State, topic: string): State {
    s.(subscriptions := s.subscriptions - {topic})
  }

  class MqttClient {
    var connected: bool
    var subscriptions: Subscriptions

    function View(): State
      reads this
    {
      State(connected, subscriptions)
    }

    constructor ()
      ensures View() == State(false, map[])
    {
      connected, subscriptions := false, map[];
    }

    method Subscribe(topic: string, qos: QoS, rcOk: bool) returns (result: Result<()>)
      modifies this
      ensures (View(), result) == SubscribeResult(old(View()), topic, qos, rcOk)
      ensures !old(connected) ==> result == Err(ConnectionFailed)
      ensures old(connected) && !rcOk ==> result == Err(MqttError)
      ensures old(connected) && rcOk ==> result == Ok(())
      ensures View() == old(View()).(
        subscriptions := if result.Ok? then old(subscriptions)[topic := qos] else old(subscriptions))
    {
      if !connected {
        return Err(ConnectionFailed);
      }
      if !rcOk {
        return Err(MqttError);
      }
      subscriptions := subscriptions[topic := qos];
      return Ok(());
    }

    method Unsubscribe(topic: string)
      modifies this
      ensures View() == Unsubscribed(old(View()), topic)
      ensures connected == old(connected) && subscriptions == old(subscriptions) - {topic}
    {
      subscriptions := subscriptions - {topic};
    }

    // The library calls made, in the map's own order: each tracked topic once, with its QoS.
    method ResubscribeAll() returns (calls: seq<(string, QoS)>)
      ensures forall t, q :: (t, q) in calls <==> t in subscriptions && subscriptions[t] == q
      ensures forall i, j | 0 <= i < j < |calls| :: calls[i].0 != calls[j].0
    {
      calls := [];
      var todo := subscriptions.Keys;
      while todo != {}
        invariant todo <= subscriptions.Keys
        invariant forall t, q :: (t, q) in calls <==> t in subscriptions && t !in todo && subscriptions[t] == q
        invariant forall i | 0 <= i < |calls| :: (calls[i].0, calls[i].1) in calls
        invariant forall i, j | 0 <= i < j < |calls| :: calls[i].0 != calls[j].0
      {
        var topic :| topic in todo;
        ghost var before := calls;
        calls := calls + [(topic, subscriptions[topic])];
        todo := todo - {topic};
        assert forall i | 0 <= i < |before| :: calls[i] == before[i];
      }
    }

    method OnConnected() returns (calls: seq<(string, QoS)>)
      modifies this`connected
      ensures connected && subscriptions == old(subscriptions)
      ensures forall t, q :: (t, q) in calls <==> t in subscriptions && subscriptions[t] == q
      ensures forall i, j | 0 <= i < j < |calls| :: calls[i].0 != calls[j].0
    {
      connected := true;
      calls := ResubscribeAll();
    }

    // Also what Disconnect does to the flag.
    method OnConnectionLost()
      modifies this`connected
      ensures !connected
    {
      connected := false;
    }
  }
}
