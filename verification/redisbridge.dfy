// One Bridge on its own (go/adapter/redis/redis.go): its fields, Start from the first locked
// section to the last cleanup, and Stop.
module RedisBridge {
  import opened Bytes
  import opened RedisKeys
  import opened RedisCluster

  // A message from Redis; None when its payload is not an envelope.
  type Payload = Option<Msg>

  datatype StartResult = StartedAlready | Cancelled | ReceiveFailed | HubRefused

  // What the receive loop hands to the hub: every envelope of another source, in order, as the
  // broadcast or publish its Redis channel names.
  function HandedOver(prefix: Channel, source: nat, payloads: seq<Payload>): seq<Item> {
    if payloads == [] then []
    else (if payloads[0].Some? && payloads[0].value.source != source then [RedisCluster.Received(prefix, payloads[0].value)] else [])
         + HandedOver(prefix, source, payloads[1..])
  }

  lemma {:induction false} HandedOverAppend(prefix: Channel, source: nat, xs: seq<Payload>, ys: seq<Payload>)
    ensures HandedOver(prefix, source, xs + ys) == HandedOver(prefix, source, xs) + HandedOver(prefix, source, ys)
  {
    if xs == [] {
      assert xs + ys == ys;
    } else {
      assert (xs + ys)[1..] == xs[1..] + ys;
      HandedOverAppend(prefix, source, xs[1..], ys);
    }
  }

  // What a bridge hands over of the messages of a cluster: the items of the other nodes'
  // calls, unchanged and in order, and none of its own node's.
  lemma {:induction false} HandsOverOthers(c: Cluster, n: nat, ids: seq<nat>, payloads: seq<Payload>)
    requires RedisCluster.Shape(c) && n < |c.nodes| && |payloads| == |ids|
    requires forall i | 0 <= i < |ids| ::
      ids[i] < |c.origins| && Forwardable(c.origins[ids[i]].item) && c.origins[ids[i]].node < |c.nodes| &&
      payloads[i] == Some(MsgOf(c, ids[i]))
    ensures HandedOver(c.prefix, c.nodes[n].source, payloads) == ItemsFromElsewhere(c, n, ids)
  {
    if ids != [] {
      assert FromOrigin(c, MsgOf(c, ids[0]));
      ReceivedIsOrigin(c, MsgOf(c, ids[0]));
      HandsOverOthers(c, n, ids[1..], payloads[1..]);
      hide RedisCluster.Received;
    }
  }

  function ItemsFromElsewhere(c: Cluster, n: nat, ids: seq<nat>): seq<Item>
    requires forall i | 0 <= i < |ids| :: ids[i] < |c.origins|
  {
    if ids == [] then []
    else (if c.origins[ids[0]].node != n then [c.origins[ids[0]].item] else []) + ItemsFromElsewhere(c, n, ids[1..])
  }

  // The hub takes this many calls and refuses the next one, having stopped.
  function Taken(items: seq<Item>, budget: nat): (r: seq<Item>)
    ensures r <= items && |r| <= budget && (|r| < budget ==> r == items)
  {
    if |items| <= budget then items else items[..budget]
  }

  class Bridge {
    const source: nat
    const prefix: Channel
    var running: bool
    var sessions: seq<Session>   // what each call of Start holds
    var stored: bool             // the last call's handles are in the fields

    constructor (source: nat, prefix: Channel)
      ensures this.source == source && this.prefix == prefix && !running && sessions == [] && !stored
    {
      this.source, this.prefix := source, prefix;
      running, sessions, stored := false, [], false;
    }

    // This bridge in a cluster, without the frames on their way.
    ghost function AsNode(): Node
      reads this
    {
      NewNode(source).(running := running, sessions := sessions)
    }

    // The first locked section of Start.
    method TryStart() returns (started: bool)
      modifies this`running, this`sessions
      ensures started == !old(running)
      ensures AsNode() == NodeStep(old(AsNode()), StartCall(0), prefix, 0)
    {
      started := !running;
      if started {
        running := true;
        sessions := sessions + [NEW_SESSION];
      }
    }

    // One step of call k between its first locked section and its receive loop.
    method Install(k: nat)
      requires NodeEnabled(AsNode(), StartStep(0, k))
      modifies this`sessions
      ensures AsNode() == NodeStep(old(AsNode()), StartStep(0, k), prefix, 0)
    {
      sessions := sessions[k := RedisCluster.Begin(sessions[k])];
    }

    // The locked section of Start's deferred function.
    method Finish(k: nat)
      requires NodeEnabled(AsNode(), EndSession(0, k))
      modifies this
      ensures AsNode() == NodeStep(old(AsNode()), EndSession(0, k), prefix, 0) && !stored
    {
      running, stored := false, false;
      sessions := sessions[k := sessions[k].(phase := Ending)];
    }

    // A session without its hooks and its subscription.
    function Released(s: Session): Session {
      s.(subscribed := false, publishHook := false, broadcastHook := false)
    }

    // Taking them down; doing so again changes nothing.
    method Release(k: nat)
      requires k < |sessions|
      modifies this`sessions
      ensures sessions == old(sessions)[k := Released(old(sessions)[k])]
    {
      sessions := sessions[k := sessions[k].(publishHook := false)];
      sessions := sessions[k := sessions[k].(broadcastHook := false)];
      sessions := sessions[k := sessions[k].(subscribed := false)];
    }

    method ReceiveLoop(payloads: seq<Payload>, budget: nat) returns (handed: seq<Item>, refused: bool)
      ensures handed == Taken(HandedOver(prefix, source, payloads), budget)
      ensures refused <==> |HandedOver(prefix, source, payloads)| > budget
    {
      handed := [];
      refused := false;
      assert payloads[..0] == [] && payloads[..|payloads|] == payloads;
      for i := 0 to |payloads|
        invariant handed == HandedOver(prefix, source, payloads[..i]) && |handed| <= budget
      {
        hide HandedOver;
        HandedNext(prefix, source, payloads, i);
        if payloads[i] == None || payloads[i].value.source == source {
          continue;
        }
        if |handed| == budget {
          return handed, true;
        }
        var m := payloads[i].value;
        var channel := ChannelFromRedis(prefix, m.key);
        if channel == [] {
          handed := handed + [Bcast(m.frame)];
        } else {
          handed := handed + [Pub(channel, m.frame)];
        }
      }
    }

    // A whole call of Start: when it returns the bridge is as if it had not been called, and
    // the hub got what the loop handed over. After the payloads receiving fails; whether the
    // context was cancelled by then decides if that is reported.
    method Start(payloads: seq<Payload>, budget: nat, cancelled: bool) returns (result: StartResult, handed: seq<Item>)
      modifies this
      ensures old(running) ==> result == StartedAlready && handed == [] && AsNode() == old(AsNode())
      ensures !old(running) ==>
        && handed == Taken(HandedOver(prefix, source, payloads), budget)
        && result == (if |HandedOver(prefix, source, payloads)| > budget then HubRefused
                      else if cancelled then Cancelled else ReceiveFailed)
        && !running && !stored && sessions == old(sessions) + [Released(UP).(phase := Returned)]
    {
      var started := TryStart();
      if !started {
        return StartedAlready, [];
      }
      ghost var before := old(sessions);
      var k := |sessions| - 1;
      Install(k);
      Install(k);
      Install(k);
      stored := true;
      assert sessions == before + [UP];
      var refused;
      handed, refused := ReceiveLoop(payloads, budget);
      Finish(k);
      Release(k);
      sessions := sessions[k := sessions[k].(phase := Returned)];
      if refused {
        result := HubRefused;
      } else if cancelled {
        result := Cancelled;
      } else {
        result := ReceiveFailed;
      }
    }

    // Stop takes down what the running call of Start has stored, and nothing else; it leaves
    // running for that call to clear.
    method Stop()
      requires stored ==> sessions != []
      modifies this`sessions
      ensures !(old(running) && old(stored)) ==> sessions == old(sessions)
      ensures old(running) && old(stored) ==>
        var k := |old(sessions)| - 1;
        sessions == old(sessions)[k := Released(old(sessions)[k])]
    {
      if running && stored {
        Release(|sessions| - 1);
      }
    }
  }

  lemma HandedOne(prefix: Channel, source: nat, p: Payload)
    ensures HandedOver(prefix, source, [p]) ==
      if p.Some? && p.value.source != source then [RedisCluster.Received(prefix, p.value)] else []
  {
    assert [p][1..] == [];
    assert HandedOver(prefix, source, []) == [];
  }

  // One more payload, and what the rest can only add.
  lemma HandedNext(prefix: Channel, source: nat, payloads: seq<Payload>, i: nat)
    requires i < |payloads|
    ensures var p := payloads[i];
      HandedOver(prefix, source, payloads[..i + 1]) == HandedOver(prefix, source, payloads[..i]) +
      if p.Some? && p.value.source != source then [RedisCluster.Received(prefix, p.value)] else []
    ensures HandedOver(prefix, source, payloads[..i + 1]) <= HandedOver(prefix, source, payloads)
  {
    hide HandedOver;
    HandedOne(prefix, source, payloads[i]);
    assert payloads[..i + 1] == payloads[..i] + [payloads[i]];
    HandedOverAppend(prefix, source, payloads[..i], [payloads[i]]);
    assert payloads == payloads[..i + 1] + payloads[i + 1..];
    HandedOverAppend(prefix, source, payloads[..i + 1], payloads[i + 1..]);
  }
}
