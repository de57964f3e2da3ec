// adapter/tcp connections: short reads and writes, the read loops, and what reaches the hub.
module TcpLink {
  import opened Bytes
  import opened TcpFrames
  import Peers

  // What the network does with one Write call: how much it takes, and whether it fails.
  datatype WriteOutcome = WriteOutcome(takes: nat, fails: bool)

  // A net.Conn. inbound holds the segments that will still arrive, cut anywhere, after which
  // reads fail; network decides the k-th Write.
  class Conn {
    var inbound: seq<seq<byte>>
    var outbound: seq<byte>
    var writes: nat
    const network: nat -> WriteOutcome

    constructor (inbound: seq<seq<byte>>, network: nat -> WriteOutcome)
      ensures this.inbound == inbound && outbound == [] && writes == 0 && this.network == network
    {
      this.inbound, outbound, writes, this.network := inbound, [], 0, network;
    }

    // One Read: some bytes of what has arrived, at most max; no bytes means failure.
    method Read(max: nat) returns (data: seq<byte>)
      requires max > 0
      modifies this`inbound
      ensures old(Flat(inbound)) == data + Flat(inbound) && |data| <= max
      ensures data == [] <==> old(Flat(inbound)) == []
    {
      while inbound != [] && inbound[0] == []
        invariant Flat(inbound) == old(Flat(inbound))
        decreases |inbound|
      {
        inbound := inbound[1..];
      }
      if inbound == [] {
        return [];
      }
      var n := if |inbound[0]| <= max then |inbound[0]| else max;
      data := inbound[0][..n];
      inbound := [inbound[0][n..]] + inbound[1..];
    }

    // io.ReadFull
    method ReadFull(n: nat) returns (ok: bool, data: seq<byte>)
      modifies this`inbound
      ensures ok <==> n <= |old(Flat(inbound))|
      ensures ok ==> data == old(Flat(inbound))[..n] && Flat(inbound) == old(Flat(inbound))[n..]
      ensures !ok ==> Flat(inbound) == []
    {
      data := [];
      while |data| < n
        invariant |data| <= n && old(Flat(inbound)) == data + Flat(inbound)
        decreases n - |data|
      {
        var more := Read(n - |data|);
        if more == [] {
          return false, data;
        }
        data := data + more;
      }
      ok := true;
    }

    // readTCPFrame: the result depends on the bytes alone, not on how they are segmented.
    method ReadTCPFrame(max: int) returns (r: ReadResult)
      requires max >= 0
      modifies this`inbound
      ensures (r, Flat(inbound)) == ReadFrame(old(Flat(inbound)), max)
    {
      var ok, lengthBytes := ReadFull(4);
      if !ok {
        return Failed(Truncated);
      }
      var length := Get32(lengthBytes);
      if max > 0 && length > Uint32(max) {
        return Failed(TooLarge);
      }
      var payload;
      ok, payload := ReadFull(length);
      if !ok {
        return Failed(Truncated);
      }
      ghost var s := old(Flat(inbound));
      assert payload == s[4..4 + length] && Flat(inbound) == s[4 + length..];
      if |payload| < 4 {
        return Failed(Invalid);
      }
      var channelLength := Get32(payload[..4]);
      if channelLength > |payload| - 4 {
        return Failed(Invalid);
      }
      return Got(Message(payload[4..4 + channelLength], payload[4 + channelLength..]));
    }

    // From its k-th Write on, the network takes something each time and never fails.
    ghost predicate Healthy(k: nat) {
      forall j: nat | j >= k :: !network(j).fails && network(j).takes > 0
    }

    method Write(payload: seq<byte>) returns (written: nat, fails: bool)
      modifies this`outbound, this`writes
      ensures written <= |payload| && outbound == old(outbound) + payload[..written]
      ensures writes == old(writes) + 1
      ensures Healthy(old(writes)) && payload != [] ==> written > 0 && !fails
    {
      var outcome := network(writes);
      writes := writes + 1;
      written := if outcome.takes <= |payload| then outcome.takes else |payload|;
      outbound := outbound + payload[..written];
      fails := outcome.fails;
    }

    // writeAll: short writes are continued; on failure a prefix has been sent. It fails only if
    // some write does, or takes nothing.
    method WriteAll(payload: seq<byte>) returns (ok: bool)
      modifies this`outbound, this`writes
      ensures ok ==> outbound == old(outbound) + payload
      ensures exists sent :: 0 <= sent <= |payload| && outbound == old(outbound) + payload[..sent]
      ensures writes >= old(writes) && (Healthy(old(writes)) ==> ok)
    {
      var rest := payload;
      assert payload[..0] == [];
      while |rest| > 0
        invariant |rest| <= |payload| && rest == payload[|payload| - |rest|..]
        invariant outbound == old(outbound) + payload[..|payload| - |rest|]
        invariant writes >= old(writes)
      {
        ghost var sent := |payload| - |rest|;
        var written, fails := Write(rest);
        assert payload[..sent + written] == payload[..sent] + rest[..written];
        if fails || written <= 0 {
          return false;
        }
        rest := rest[written..];
      }
      assert payload[..|payload|] == payload;
      ok := true;
    }
  }

  // writePump: write the queued frames in turn until the queue is closed or a write fails.
  // However writes are split and wherever they fail, a prefix of the frames' bytes goes out.
  method WritePump(conn: Conn, queue: seq<Frame>) returns (all: bool)
    modifies conn`outbound, conn`writes
    ensures exists sent :: 0 <= sent <= |Flat(queue)| && conn.outbound == old(conn.outbound) + Flat(queue)[..sent]
    ensures all ==> conn.outbound == old(conn.outbound) + Flat(queue)
    ensures conn.Healthy(old(conn.writes)) ==> all
  {
    assert queue[..0] == [];
    for i := 0 to |queue|
      invariant conn.outbound == old(conn.outbound) + Flat(queue[..i]) && conn.writes >= old(conn.writes)
    {
      ghost var before := Flat(queue[..i]);
      assert queue == queue[..i] + ([queue[i]] + queue[i + 1..]);
      FlatAppend(queue[..i], [queue[i]] + queue[i + 1..]);
      assert queue[..i + 1] == queue[..i] + [queue[i]];
      FlatAppend(queue[..i], [queue[i]]);
      var ok := conn.WriteAll(queue[i]);
      if !ok {
        ghost var part :| 0 <= part <= |queue[i]| && conn.outbound == old(conn.outbound) + before + queue[i][..part];
        assert Flat(queue)[..|before| + part] == before + queue[i][..part];
        return false;
      }
      assert Flat([queue[i]]) == queue[i];
    }
    assert queue[..|queue|] == queue;
    assert Flat(queue)[..|Flat(queue)|] == Flat(queue);
    return true;
  }

  // What a received message asks the hub to do.
  datatype Dispatch = PublishFromPeer(channel: Channel, frame: Frame) | BroadcastFromPeer(frame: Frame)

  // dispatchTCPFrame, and the same branch in handleConn's loop.
  function ToDispatch(m: Message): Dispatch {
    if m.channel == [] then BroadcastFromPeer(m.frame) else PublishFromPeer(m.channel, m.frame)
  }

  function Dispatches(messages: seq<Message>): (r: seq<Dispatch>)
    ensures |r| == |messages|
  {
    seq(|messages|, i requires 0 <= i < |messages| => ToDispatch(messages[i]))
  }

  // The hub accepts this many calls and then refuses (it has stopped running); the
  // connection is given up at the first refusal.
  function Accepted(calls: seq<Dispatch>, budget: nat): (r: seq<Dispatch>)
    ensures r <= calls && |r| <= budget && (|r| < budget ==> r == calls)
  {
    calls[..if budget <= |calls| then budget else |calls|]
  }

  // What the hub is asked to do over one accepted connection that receives these bytes.
  function Served(s: seq<byte>, authenticator: Option<Frame -> bool>, running: bool): seq<Message> {
    var (first, rest) := ReadFrame(s, if authenticator.Some? then MAX_HANDSHAKE_FRAME_SIZE else MAX_FRAME_SIZE);
    if first.Failed? || (authenticator.Some? && !authenticator.value(first.message.frame)) || !running then []
    else (if authenticator.Some? then [] else [first.message]) + ReadAll(rest).messages
  }

  lemma DispatchesCons(m: Message, messages: seq<Message>)
    ensures Dispatches([m] + messages) == [ToDispatch(m)] + Dispatches(messages)
  {}

  lemma ReadAllStep(s: seq<byte>)
    ensures var (result, rest) := ReadFrame(s, MAX_FRAME_SIZE);
      Dispatches(ReadAll(s).messages) ==
      if result.Failed? then [] else [ToDispatch(result.message)] + Dispatches(ReadAll(rest).messages)
  {
    hide ReadFrame, Dispatches, ToDispatch;
    var (result, rest) := ReadFrame(s, MAX_FRAME_SIZE);
    if result.Got? {
      DispatchesCons(result.message, ReadAll(rest).messages);
    } else {
      assert ReadAll(s).messages == [];
    }
  }

  // The loop shared by handleConn and pipePeer: read and dispatch until something fails.
  method ReadLoop(conn: Conn, budget: nat) returns (dispatched: seq<Dispatch>)
    modifies conn`inbound
    ensures dispatched == Accepted(Dispatches(ReadAll(old(Flat(conn.inbound))).messages), budget)
  {
    hide ReadFrame, ReadAll, Flat, Dispatches, ToDispatch;
    dispatched := [];
    ghost var calls := Dispatches(ReadAll(Flat(conn.inbound)).messages);
    while true
      invariant |dispatched| <= budget
      invariant calls == dispatched + Dispatches(ReadAll(Flat(conn.inbound)).messages)
      decreases |Flat(conn.inbound)|
    {
      ghost var s := Flat(conn.inbound);
      ReadAllStep(s);
      var result := conn.ReadTCPFrame(MAX_FRAME_SIZE);
      if result.Failed? || |dispatched| >= budget {
        return;
      }
      ReadFrameShrinks(s, MAX_FRAME_SIZE);
      ghost var left := Dispatches(ReadAll(Flat(conn.inbound)).messages);
      assert dispatched + ([ToDispatch(result.message)] + left) == (dispatched + [ToDispatch(result.message)]) + left;
      dispatched := dispatched + [ToDispatch(result.message)];
    }
  }

  // The connection is closed unserved: the hub does not run, no message came, or the first one
  // is too long for a handshake or not accepted as one.
  predicate Refused(received: seq<Message>, authenticator: Option<Frame -> bool>, running: bool) {
    || !running
    || received == []
    || (authenticator.Some? &&
        !(Fits(received[0], MAX_HANDSHAKE_FRAME_SIZE) && authenticator.value(received[0].frame)))
  }

  // What the hub is to be asked for when these messages arrive whole: each of them, except the
  // first one if it was the handshake.
  function Due(received: seq<Message>, authenticator: Option<Frame -> bool>, running: bool): seq<Message> {
    if Refused(received, authenticator, running) then []
    else if authenticator.Some? then received[1..] else received
  }

  method HandleConn(conn: Conn, authenticator: Option<Frame -> bool>, running: bool, budget: nat)
    returns (dispatched: seq<Dispatch>)
    modifies conn`inbound
    ensures dispatched == Accepted(Dispatches(Served(old(Flat(conn.inbound)), authenticator, running)), budget)
    ensures forall messages, cut |
      AllFit(messages) && 0 <= cut <= |WireAll(messages)| && old(Flat(conn.inbound)) == WireAll(messages)[..cut] ::
        dispatched == Accepted(Dispatches(Due(messages[..Whole(messages, cut)], authenticator, running)), budget)
  {
    hide Due, WireAll, Whole, AllFit, Fits, Flat;
    ghost var s := Flat(conn.inbound);
    ServedStreams(s, authenticator, running);
    var first := conn.ReadTCPFrame(if authenticator.Some? then MAX_HANDSHAKE_FRAME_SIZE else MAX_FRAME_SIZE);
    if first.Failed? {
      return [];
    }
    if authenticator.Some? && !authenticator.value(first.message.frame) {
      return [];
    }
    if !running {
      return [];
    }
    if authenticator.Some? {
      assert [] + ReadAll(Flat(conn.inbound)).messages == ReadAll(Flat(conn.inbound)).messages;
      dispatched := ReadLoop(conn, budget);
      return;
    }
    ReadAllStep(s);
    assert Served(s, authenticator, running) == ReadAll(s).messages;
    if budget == 0 {
      return [];
    }
    var more := ReadLoop(conn, budget - 1);
    dispatched := [ToDispatch(first.message)] + more;
  }

  method PipePeer(conn: Conn, budget: nat) returns (dispatched: seq<Dispatch>)
    modifies conn`inbound
    ensures dispatched == Accepted(Dispatches(ReadAll(old(Flat(conn.inbound))).messages), budget)
  {
    dispatched := ReadLoop(conn, budget);
  }

  // However the stream of messages is cut, a connection is served exactly if it is not refused,
  // and then every message that arrived whole is, except the handshake.
  lemma ServedMessages(messages: seq<Message>, cut: nat, authenticator: Option<Frame -> bool>, running: bool)
    requires AllFit(messages) && cut <= |WireAll(messages)|
    ensures Served(WireAll(messages)[..cut], authenticator, running) ==
      Due(messages[..Whole(messages, cut)], authenticator, running)
  {
    if messages == [] || cut < 4 + Size(messages[0]) {
      FirstIsCut(messages, cut, if authenticator.Some? then MAX_HANDSHAKE_FRAME_SIZE else MAX_FRAME_SIZE);
      hide ReadFrame, ReadAll, WireAll, Fits;
    } else {
      ServedWhole(messages, cut, authenticator, running);
    }
  }

  lemma ServedWhole(messages: seq<Message>, cut: nat, authenticator: Option<Frame -> bool>, running: bool)
    requires AllFit(messages) && messages != [] && 4 + Size(messages[0]) <= cut <= |WireAll(messages)|
    ensures Served(WireAll(messages)[..cut], authenticator, running) ==
      Due(messages[..Whole(messages, cut)], authenticator, running)
  {
    hide WireAll, ReadAll, ReadFrame, Served, Due, FirstRead, Refused, Fits;
    var left := cut - 4 - Size(messages[0]);
    WireAllTail(messages, cut);
    ReadAnyPrefix(messages[1..], left);
    var n := Whole(messages[1..], left);
    assert Whole(messages, cut) == n + 1;
    hide Whole, AllFit;
    assert messages[..n + 1] == [messages[0]] + messages[1..][..n];
    WholeServed(WireAll(messages)[..cut], messages[0], WireAll(messages[1..])[..left], authenticator, running);
    DueCons(messages[0], messages[1..][..n], authenticator, running);
  }

  lemma ServedStreams(s: seq<byte>, authenticator: Option<Frame -> bool>, running: bool)
    ensures forall messages, cut | AllFit(messages) && 0 <= cut <= |WireAll(messages)| && s == WireAll(messages)[..cut] ::
      Served(s, authenticator, running) == Due(messages[..Whole(messages, cut)], authenticator, running)
  {
    hide *;
    forall messages, cut | AllFit(messages) && 0 <= cut <= |WireAll(messages)| && s == WireAll(messages)[..cut]
      ensures Served(s, authenticator, running) == Due(messages[..Whole(messages, cut)], authenticator, running)
    {
      ServedMessages(messages, cut, authenticator, running);
    }
  }

  lemma DueCons(m: Message, more: seq<Message>, authenticator: Option<Frame -> bool>, running: bool)
    ensures Due([m] + more, authenticator, running) ==
      if Refused([m] + more, authenticator, running) then [] else (if authenticator.Some? then [] else [m]) + more
    ensures Refused([m] + more, authenticator, running) == Refused([m], authenticator, running)
  {
    hide Fits;
  }

  // The first message was read whole, and after it comes the rest.
  ghost predicate FirstRead(s: seq<byte>, m: Message, after: seq<byte>) {
    && ReadFrame(s, MAX_FRAME_SIZE) == (Got(m), after)
    && (Fits(m, MAX_HANDSHAKE_FRAME_SIZE) ==> ReadFrame(s, MAX_HANDSHAKE_FRAME_SIZE) == (Got(m), after))
    && (!Fits(m, MAX_HANDSHAKE_FRAME_SIZE) ==> ReadFrame(s, MAX_HANDSHAKE_FRAME_SIZE).0.Failed?)
  }

  lemma WholeServed(s: seq<byte>, m: Message, after: seq<byte>, authenticator: Option<Frame -> bool>, running: bool)
    requires FirstRead(s, m, after)
    ensures Served(s, authenticator, running) ==
      if Refused([m], authenticator, running) then []
      else (if authenticator.Some? then [] else [m]) + ReadAll(after).messages
  {
    hide ReadFrame, ReadAll, Fits;
  }

  lemma WireAllTail(messages: seq<Message>, cut: nat)
    requires AllFit(messages) && messages != [] && 4 + Size(messages[0]) <= cut <= |WireAll(messages)|
    ensures var m, left := messages[0], cut - 4 - Size(messages[0]);
      && left <= |WireAll(messages[1..])|
      && WireAll(messages)[..cut] == Wire(m) + WireAll(messages[1..])[..left]
    ensures FirstRead(WireAll(messages)[..cut], messages[0], WireAll(messages[1..])[..cut - 4 - Size(messages[0])])
  {
    assert Fits(messages[0], MAX_FRAME_SIZE);
    var m, left := messages[0], cut - 4 - Size(messages[0]);
    CutAfter(Wire(m), WireAll(messages[1..]), cut);
    FirstIsWhole(m, WireAll(messages[1..])[..left]);
    hide FirstRead, Wire;
  }

  lemma FirstIsWhole(m: Message, after: seq<byte>)
    requires Fits(m, MAX_FRAME_SIZE)
    ensures FirstRead(Wire(m) + after, m, after)
  {
    ReadWire(m, after, MAX_FRAME_SIZE);
    if Fits(m, MAX_HANDSHAKE_FRAME_SIZE) {
      ReadWire(m, after, MAX_HANDSHAKE_FRAME_SIZE);
    } else {
      assert (Wire(m) + after)[..4] == Put32(Size(m));
      Get32Put32(Size(m));
    }
  }

  lemma FirstIsCut(messages: seq<Message>, cut: nat, max: int)
    requires AllFit(messages) && cut <= |WireAll(messages)| && max >= 0
    requires messages == [] || cut < 4 + Size(messages[0])
    ensures ReadFrame(WireAll(messages)[..cut], max).0.Failed?
  {
    if messages != [] && cut >= 4 {
      assert Fits(messages[0], MAX_FRAME_SIZE);
      assert WireAll(messages)[..cut][..4] == Put32(Size(messages[0]));
      Get32Put32(Size(messages[0]));
    }
  }

  // Over a whole connection every message is dispatched, except the first one when an
  // authenticator consumes it as the handshake.
  lemma WholeConnection(messages: seq<Message>, authenticator: Option<Frame -> bool>)
    requires AllFit(messages) && messages != []
    requires authenticator.Some? ==>
      Fits(messages[0], MAX_HANDSHAKE_FRAME_SIZE) && authenticator.value(messages[0].frame)
    ensures Served(WireAll(messages), authenticator, true) == if authenticator.Some? then messages[1..] else messages
  {
    var s := WireAll(messages);
    ServedMessages(messages, |s|, authenticator, true);
    WholeStream(messages);
    assert s[..|s|] == s && messages[..|messages|] == messages;
    hide Served, Whole, WireAll, AllFit;
  }

  lemma {:induction false} QueuedFrames(messages: seq<Message>, queue: seq<Frame>)
    requires AllFit(messages) && |queue| == |messages|
    requires forall i | 0 <= i < |queue| :: EncoderResult(messages[i]) == Some(queue[i])
    ensures Flat(queue) == WireAll(messages)
  {
    if queue != [] {
      assert Fits(messages[0], MAX_FRAME_SIZE);
      EncoderCorrectIff(messages[0]);
      QueuedFrames(messages[1..], queue[1..]);
    }
  }

  // From the sending hub to the receiving one: if the sender's pump put out `sent` bytes of
  // the frames queued for the peer, the far end dispatches the messages that got through
  // whole, in order, each as the publish or broadcast it was.
  lemma LinkPreservesMeaning(messages: seq<Message>, queue: seq<Frame>, sent: nat)
    requires AllFit(messages) && |queue| == |messages|
    requires forall i | 0 <= i < |queue| :: EncoderResult(messages[i]) == Some(queue[i])
    requires sent <= |Flat(queue)|
    ensures Dispatches(ReadAll(Flat(queue)[..sent]).messages) == Dispatches(messages)[..Whole(messages, sent)]
    ensures sent == |Flat(queue)| ==> Whole(messages, sent) == |messages|
  {
    QueuedFrames(messages, queue);
    ReadAnyPrefix(messages, sent);
    WholeStream(messages);
  }

  // Every frame that a run offers to the peer is what some message is read from.
  ghost predicate OffersMessages(actions: seq<Peers.Action>) {
    forall i | 0 <= i < |actions| && actions[i].Send? :: CarriesSome(actions[i].frame)
  }

  ghost predicate CarriesSome(wire: Frame) {
    exists m :: ReadsAs(wire, m)
  }

  // The frames Send accepted are among those it was offered.
  lemma {:induction false} AcceptedWereOffered(actions: seq<Peers.Action>)
    requires OffersMessages(actions)
    ensures forall wire | wire in Peers.Run(Peers.NewPeer(true), actions).sent :: CarriesSome(wire)
  {
    hide CarriesSome;
    if actions != [] {
      var last := |actions| - 1;
      AcceptedWereOffered(actions[..last]);
      var before, after := Peers.Run(Peers.NewPeer(true), actions[..last]), Peers.Run(Peers.NewPeer(true), actions);
      assert after == Peers.Step(before, actions[last]);
    }
  }

  lemma {:induction false} MessagesOf(queue: seq<Frame>) returns (messages: seq<Message>)
    requires forall wire | wire in queue :: CarriesSome(wire)
    ensures |messages| == |queue| && AllFit(messages)
    ensures forall i | 0 <= i < |queue| :: ReadsAs(queue[i], messages[i]) && EncoderResult(messages[i]) == Some(queue[i])
  {
    messages := [];
    if queue != [] {
      var last := |queue| - 1;
      assert forall wire | wire in queue[..last] :: wire in queue;
      var before := MessagesOf(queue[..last]);
      assert CarriesSome(queue[last]);
      var m :| ReadsAs(queue[last], m);
      ReadsAsIff(queue[last], m);
      EncoderCorrectIff(m);
      messages := before + [m];
      hide *;
      assert forall i | 0 <= i < last :: messages[i] == before[i] && queue[i] == queue[..last][i];
    }
  }

  // From one hub to the other. The hub offers a tcp peer frames that are read as the messages
  // they carry; whatever else the peer goes through, of the messages whose frames its Send
  // accepted the far hub is asked, in order, to do the first ones, each as the publish or
  // broadcast it was: those that its transport drained and the pump put out whole.
  lemma HubToHub(actions: seq<Peers.Action>, sent: nat) returns (messages: seq<Message>)
    requires OffersMessages(actions) && sent <= |Flat(Peers.Run(Peers.NewPeer(true), actions).drained)|
    ensures AllFit(messages)
    ensures var p := Peers.Run(Peers.NewPeer(true), actions);
      && |p.drained| <= |messages| == |p.sent|
      && (forall i | 0 <= i < |messages| :: ReadsAs(p.sent[i], messages[i]))
      && Dispatches(ReadAll(Flat(p.drained)[..sent]).messages) ==
           Dispatches(messages)[..Whole(messages[..|p.drained|], sent)]
      && (sent == |Flat(p.drained)| ==> Whole(messages[..|p.drained|], sent) == |p.drained|)
  {
    var p := Peers.Run(Peers.NewPeer(true), actions);
    Peers.RunKeepsInv(true, actions);
    assert p.drained == p.sent[..|p.drained|];
    AcceptedWereOffered(actions);
    hide *;
    messages := MessagesOf(p.sent);
    FirstOnes(messages, p.sent, p.drained, sent);
  }

  // The link carries the first frames of a queue.
  lemma FirstOnes(messages: seq<Message>, queue: seq<Frame>, first: seq<Frame>, sent: nat)
    requires AllFit(messages) && |queue| == |messages| && |first| <= |queue| && first == queue[..|first|]
    requires forall i | 0 <= i < |queue| :: EncoderResult(messages[i]) == Some(queue[i])
    requires sent <= |Flat(first)|
    ensures Dispatches(ReadAll(Flat(first)[..sent]).messages) == Dispatches(messages)[..Whole(messages[..|first|], sent)]
    ensures sent == |Flat(first)| ==> Whole(messages[..|first|], sent) == |first|
  {
    hide Whole, ReadAll, Flat, EncoderResult, Fits;
    LinkPreservesMeaning(messages[..|first|], first, sent);
    assert Dispatches(messages[..|first|]) == Dispatches(messages)[..|first|];
  }

  // sendToPeer encodes (channel, frame); the far end publishes on the same channel exactly
  // when the channel is not empty. A publish on "" arrives as a broadcast.
  lemma PublishArrivesAsPublishIff(channel: Channel, frame: Frame, rest: seq<byte>)
    requires Fits(Message(channel, frame), MAX_FRAME_SIZE)
    ensures var (r, left) := ReadFrame(EncoderResult(Message(channel, frame)).value + rest, MAX_FRAME_SIZE);
      r.Got? && left == rest && (ToDispatch(r.message) == PublishFromPeer(channel, frame) <==> channel != [])
    ensures var (r, left) := ReadFrame(EncoderResult(Message(channel, frame)).value + rest, MAX_FRAME_SIZE);
      channel == [] ==> ToDispatch(r.message) == BroadcastFromPeer(frame)
  {
    EncoderCorrectIff(Message(channel, frame));
    ReadWire(Message(channel, frame), rest, MAX_FRAME_SIZE);
  }

  lemma OversizeFails(big: Message, after: seq<byte>)
    requires Fits(big, 0) && !Fits(big, MAX_FRAME_SIZE)
    ensures ReadAll(Wire(big) + after).messages == [] && ReadAll(Wire(big) + after).error == TooLarge
  {
    var tail := Wire(big) + after;
    assert tail[..4] == Put32(Size(big));
    Get32Put32(Size(big));
  }

  // A message too large for the reader ends the connection after the messages before it.
  lemma {:induction false} OversizeEndsTheLink(messages: seq<Message>, big: Message, after: seq<byte>)
    requires AllFit(messages) && Fits(big, 0) && !Fits(big, MAX_FRAME_SIZE)
    ensures ReadAll(WireAll(messages) + (Wire(big) + after)).messages == messages
    ensures ReadAll(WireAll(messages) + (Wire(big) + after)).error == TooLarge
  {
    hide ReadFrame, ReadAll, Wire;
    var tail := Wire(big) + after;
    if messages == [] {
      OversizeFails(big, after);
      assert WireAll(messages) + tail == tail;
    } else {
      assert Fits(messages[0], MAX_FRAME_SIZE);
      OversizeEndsTheLink(messages[1..], big, after);
      ReadAllCons(messages[0], WireAll(messages[1..]) + tail);
      Associative(Wire(messages[0]), WireAll(messages[1..]), tail);
    }
  }
}
