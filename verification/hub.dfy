// go/hub.go: the Hub object, one locked section or one uninterrupted call per method.
// The tables it protects are described by Registries; interleavings are in hubruns.dfy.
module Hubs {
  import opened Bytes
  import opened ByteOrder
  import opened Registries
  import Peers
  import TcpFrames

  type Peer = Peers.Peer

  const HUB_QUEUE_SIZE: nat := 256

  datatype PublishDelivery = PublishDelivery(channel: Channel, frame: Frame, notify: bool)
  datatype PublishResult = Accepted | HubNotRunning

  datatype HubStats = HubStats(peers: nat, channels: nat, subscriberCount: map<Channel, nat>)

  class Hub<H> {
    var peers: set<Peer>
    var channels: map<Channel, set<Peer>>
    var channelHandlers: map<Channel, map<nat, H>>
    var broadcastHandlers: map<nat, H>
    var publishHandlers: map<nat, H>
    var nextHandlerID: nat
    var running: bool
    var publishQueue: seq<PublishDelivery>
    var overflow: multiset<PublishDelivery>      // goroutines waiting to enqueue
    const authoriser: Option<(Peer, Channel) -> bool>
    ghost var known: set<Peer>                   // the peers used with this hub
    ghost var tables: map<Peer, set<Channel>>    // their subscriptions fields

    // The hub's and the peers' tables as a value.
    ghost function State(): Registry<Peer, H>
      reads this
    {
      Registry(peers, channels, tables, channelHandlers, broadcastHandlers, publishHandlers, nextHandlerID)
    }

    ghost predicate Valid()
      reads this, known`subscriptions
    {
      && peers <= known && tables.Keys == known
      && (forall p | p in known :: tables[p] == p.subscriptions)
      && IndexInv(State())
    }

    constructor (authoriser: Option<(Peer, Channel) -> bool>)
      ensures Valid() && State() == Empty() && known == {} && !running && publishQueue == [] && overflow == multiset{}
      ensures this.authoriser == authoriser
    {
      peers, channels, channelHandlers, broadcastHandlers, publishHandlers := {}, map[], map[], map[], map[];
      nextHandlerID, running, publishQueue, overflow, known := 0, false, [], multiset{}, {};
      tables := map[];
      this.authoriser := authoriser;
    }

    function Allowed(peer: Peer, channel: Channel): bool {
      authoriser.None? || authoriser.value(peer, channel)
    }

    // ---- subscriptions of peers ----

    method AddToChannel(channel: Channel, peer: Peer)
      modifies this`channels
      ensures channels == old(channels)[channel := PeersOf(old(State()), channel) + {peer}]
    {
      if channel !in channels {
        channels := channels[channel := {}];
      }
      channels := channels[channel := channels[channel] + {peer}];
    }

    method DeleteFromChannel(channel: Channel, peer: Peer)
      modifies this`channels
      ensures channels == WithoutPeer(old(channels), channel, peer)
    {
      if channel in channels {
        channels := channels[channel := channels[channel] - {peer}];
        if channels[channel] == {} {
          channels := channels - {channel};
        }
      }
    }

    // Range over the table, deleting the peer everywhere and the entries that become empty.
    method DeleteFromAllChannels(peer: Peer)
      modifies this`channels
      ensures channels == map c | c in old(channels) && old(channels)[c] - {peer} != {} :: old(channels)[c] - {peer}
    {
      var todo := channels.Keys;
      while todo != {}
        invariant todo <= old(channels).Keys && channels.Keys <= old(channels).Keys
        invariant forall c | c in todo :: c in channels && channels[c] == old(channels)[c]
        invariant forall c | c in old(channels) && c !in todo :: c in channels <==> old(channels)[c] - {peer} != {}
        invariant forall c | c in channels && c !in todo :: channels[c] == old(channels)[c] - {peer}
      {
        var channel :| channel in todo;
        todo := todo - {channel};
        channels := channels[channel := channels[channel] - {peer}];
        if channels[channel] == {} {
          channels := channels - {channel};
        }
      }
    }

    method SubscribePeer(peer: Peer, channel: Channel) returns (outcome: Outcome)
      requires Valid() && (peer !in known ==> peer.subscriptions == {})
      modifies this`channels, this`known, this`tables, peer`subscriptions, peer`send
      ensures Valid() && known == old(known) + (if outcome == Ok then {peer} else {})
      ensures outcome == SubscribeOutcome(channel, Allowed(peer, channel))
      ensures outcome == EmptyChannel <==> channel == []
      ensures outcome == AuthRejected <==>
        channel != [] && channel != WILDCARD && authoriser.Some? && !authoriser.value(peer, channel)
      ensures peer.subscriptions == old(peer.subscriptions) + (if outcome == Ok then {channel} else {})
      ensures outcome == Ok ==> channel in channels && peer in channels[channel]
      ensures State() == Registries.SubscribePeer(old(State()), peer, channel, Allowed(peer, channel))
      ensures peer.State() == if outcome == Ok then Peers.Step(old(peer.State()), Peers.EnsureQueue) else old(peer.State())
    {
      hide IndexInv, Peers.Step;
      if channel == [] {
        return EmptyChannel;
      }
      if authoriser.Some? && channel != WILDCARD && !authoriser.value(peer, channel) {
        return AuthRejected;
      }
      peer.EnsureSendQueue();
      EnterSubscription(peer, channel);
      return Ok;
    }

    method EnterSubscription(peer: Peer, channel: Channel)
      requires Valid() && (peer !in known ==> peer.subscriptions == {}) && channel != []
      modifies this`channels, this`known, this`tables, peer`subscriptions
      ensures Valid() && known == old(known) + {peer}
      ensures State() == Registries.SubscribePeer(old(State()), peer, channel, true)
      ensures peer.subscriptions == old(peer.subscriptions) + {channel}
      ensures channel in channels && peer in channels[channel]
    {
      hide IndexInv;
      ghost var r := State();
      SubscribePeerKeepsIndex(r, peer, channel, true);
      peer.subscriptions := peer.subscriptions + {channel};
      AddToChannel(channel, peer);
      known, tables := known + {peer}, tables[peer := peer.subscriptions];
      assert State() == Registries.SubscribePeer(r, peer, channel, true);
    }

    method UnsubscribePeer(peer: Peer, channel: Channel)
      requires Valid() && (peer !in known ==> peer.subscriptions == {})
      modifies this`channels, this`known, this`tables, peer`subscriptions
      ensures Valid() && State() == Registries.UnsubscribePeer(old(State()), peer, channel)
      ensures peer.subscriptions == old(peer.subscriptions) - {channel}
      ensures !(channel in channels && peer in channels[channel])
    {
      NoEmptySubscription(State(), peer);
      hide IndexInv;
      if channel == [] {
        return;
      }
      ghost var r := State();
      UnsubscribePeerKeepsIndex(r, peer, channel);
      peer.subscriptions := peer.subscriptions - {channel};
      DeleteFromChannel(channel, peer);
      known, tables := known + {peer}, tables[peer := peer.subscriptions];
      assert State() == Registries.UnsubscribePeer(r, peer, channel);
    }

    // addPeer's locked section; added tells whether OnConnect is called next.
    method AddPeerLocked(peer: Peer) returns (added: bool)
      requires Valid() && (peer !in known ==> peer.subscriptions == {})
      modifies this`peers, this`known, this`tables
      ensures Valid() && known == old(known) + {peer} && State() == Registries.AddPeer(old(State()), peer)
      ensures added <==> peer !in old(peers)
      ensures peers == old(peers) + {peer}
    {
      hide IndexInv;
      ghost var r := State();
      AddPeerKeepsIndex(r, peer);
      known, tables := known + {peer}, tables[peer := peer.subscriptions];
      added := peer !in peers;
      if added {
        peers := peers + {peer};
      }
      assert State() == Registries.AddPeer(r, peer);
    }

    // removePeer's locked section.
    method RemovePeerLocked(peer: Peer) returns (removed: bool)
      requires Valid()
      modifies this`peers, this`channels, this`tables, peer`subscriptions
      ensures Valid() && known == old(known) && State() == Registries.RemovePeer(old(State()), peer)
      ensures removed <==> peer in old(peers)
      ensures peers == old(peers) - {peer} && (removed ==> peer.subscriptions == {})
      ensures removed ==> forall c | c in channels :: peer !in channels[c]
    {
      hide IndexInv;
      if peer !in peers {
        return false;
      }
      ghost var r := State();
      RemovePeerKeepsIndex(r, peer);
      peers := peers - {peer};
      DeleteFromAllChannels(peer);
      peer.subscriptions := {};
      tables := tables[peer := {}];
      assert State() == Registries.RemovePeer(r, peer);
      return true;
    }

    // ---- handlers ----

    method PutHandler(channel: Channel, id: nat, handler: H)
      modifies this`channelHandlers
      ensures channelHandlers == old(channelHandlers)[channel := HandlersOf(old(State()), channel)[id := handler]]
    {
      if channel !in channelHandlers {
        channelHandlers := channelHandlers[channel := map[]];
      }
      var handlers: map<nat, H> := channelHandlers[channel];
      handlers := handlers[id := handler];
      channelHandlers := channelHandlers[channel := handlers];
    }

    method DeleteHandler(channel: Channel, id: nat)
      modifies this`channelHandlers
      ensures channelHandlers == WithoutHandler(old(channelHandlers), channel, id)
    {
      if channel in channelHandlers {
        var handlers := channelHandlers[channel] - {id};
        channelHandlers := channelHandlers[channel := handlers];
        assert |handlers| == |handlers.Keys|;
        if |handlers| == 0 {
          channelHandlers := channelHandlers - {channel};
        }
      }
    }

    method NewHandlerID() returns (id: nat)
      modifies this`nextHandlerID
      ensures id == nextHandlerID == NextID(old(State()))
    {
      nextHandlerID := (nextHandlerID + 1) % UINT64_RANGE;
      id := nextHandlerID;
    }

    method SubscribeWithError(channel: Channel, handler: H) returns (token: Option<Token>)
      requires Valid()
      modifies this`channelHandlers, this`nextHandlerID
      ensures Valid() && (State(), token) == Registries.Subscribe(old(State()), ForChannel(channel), handler)
    {
      hide IndexInv, NextID;
      if channel == [] {
        return None;
      }
      ghost var r := State();
      SubscribeKeepsIndex(r, ForChannel(channel), handler);
      var id := NewHandlerID();
      PutHandler(channel, id, handler);
      assert State() == Registries.Subscribe(r, ForChannel(channel), handler).0;
      return Some(ChannelToken(channel, id));
    }

    method SubscribeBroadcast(handler: H) returns (token: Token)
      requires Valid()
      modifies this`broadcastHandlers, this`nextHandlerID
      ensures Valid() && (State(), Some(token)) == Registries.Subscribe(old(State()), ForBroadcasts, handler)
    {
      hide IndexInv, NextID;
      ghost var r := State();
      SubscribeKeepsIndex(r, ForBroadcasts, handler);
      var id := NewHandlerID();
      broadcastHandlers := broadcastHandlers[id := handler];
      assert State() == Registries.Subscribe(r, ForBroadcasts, handler).0;
      return BroadcastToken(id);
    }

    method SubscribePublished(handler: H) returns (token: Token)
      requires Valid()
      modifies this`publishHandlers, this`nextHandlerID
      ensures Valid() && (State(), Some(token)) == Registries.Subscribe(old(State()), ForPublishes, handler)
    {
      hide IndexInv, NextID;
      ghost var r := State();
      SubscribeKeepsIndex(r, ForPublishes, handler);
      var id := NewHandlerID();
      publishHandlers := publishHandlers[id := handler];
      assert State() == Registries.Subscribe(r, ForPublishes, handler).0;
      return PublishToken(id);
    }

    method Unsubscribe(token: Token)
      requires Valid()
      modifies this`channelHandlers, this`broadcastHandlers, this`publishHandlers
      ensures Valid() && State() == Registries.Unsubscribe(old(State()), token)
    {
      hide IndexInv, WithoutHandler;
      ghost var r := State();
      UnsubscribeKeepsIndex(r, token);
      match token
      case ChannelToken(channel, id) => DeleteHandler(channel, id);
      case BroadcastToken(id) => broadcastHandlers := broadcastHandlers - {id};
      case PublishToken(id) => publishHandlers := publishHandlers - {id};
      assert State() == Registries.Unsubscribe(r, token);
    }

    // ---- counts and iterators ----

    // len of a possibly missing entry
    function HandlerCount(channel: Channel): nat
      reads this
    {
      if channel in channelHandlers then |channelHandlers[channel]| else 0
    }

    function PeerCountOf(channel: Channel): nat
      reads this
    {
      if channel in channels then |channels[channel]| else 0
    }

    // Stats' first loop: the channels with a peer entry.
    method CountByPeerEntries() returns (subscriberCount: map<Channel, nat>)
      ensures forall c :: c in subscriberCount <==> c != WILDCARD && c in channels
      ensures forall c | c in subscriberCount :: subscriberCount[c] == PeerCountOf(c) + HandlerCount(c)
    {
      subscriberCount := map[];
      var todo := channels.Keys;
      while todo != {}
        invariant todo <= channels.Keys
        invariant forall c :: c in subscriberCount <==> c != WILDCARD && c in channels && c !in todo
        invariant forall c | c in subscriberCount :: subscriberCount[c] == PeerCountOf(c) + HandlerCount(c)
      {
        var channel :| channel in todo;
        todo := todo - {channel};
        if channel == WILDCARD {
          continue;
        }
        subscriberCount := subscriberCount[channel := |channels[channel]| + HandlerCount(channel)];
      }
    }

    // Stats' second loop: handler entries not counted yet.
    method CountByHandlerEntries(first: map<Channel, nat>) returns (subscriberCount: map<Channel, nat>)
      requires forall c :: c in first <==> c != WILDCARD && c in channels
      requires forall c | c in first :: first[c] == PeerCountOf(c) + HandlerCount(c)
      ensures forall c :: c in subscriberCount <==> c != WILDCARD && (c in channels || c in channelHandlers)
      ensures forall c | c in subscriberCount :: subscriberCount[c] == PeerCountOf(c) + HandlerCount(c)
    {
      subscriberCount := first;
      var todo := channelHandlers.Keys;
      while todo != {}
        invariant todo <= channelHandlers.Keys
        invariant forall c :: c in subscriberCount <==>
          c != WILDCARD && (c in channels || (c in channelHandlers && c !in todo))
        invariant forall c | c in subscriberCount :: subscriberCount[c] == PeerCountOf(c) + HandlerCount(c)
      {
        var channel :| channel in todo;
        todo := todo - {channel};
        if channel == WILDCARD {
          continue;
        }
        if channel in subscriberCount {
          continue;
        }
        subscriberCount := subscriberCount[channel := |channelHandlers[channel]|];
      }
    }

    method Stats() returns (stats: HubStats)
      ensures stats.peers == |peers| && stats.channels == |ActiveChannels(State())|
      ensures stats.subscriberCount.Keys == ActiveChannels(State())
      ensures forall c | c in stats.subscriberCount :: stats.subscriberCount[c] == SubscriberCount(State(), c)
      ensures forall c :: c in stats.subscriberCount <==> c != WILDCARD && (c in channels || c in channelHandlers)
      ensures forall c | c in stats.subscriberCount :: stats.subscriberCount[c] == PeerCountOf(c) + HandlerCount(c)
    {
      var first := CountByPeerEntries();
      var subscriberCount := CountByHandlerEntries(first);
      StatsAreActive(subscriberCount);
      hide *;
      stats := HubStats(|peers|, |subscriberCount|, subscriberCount);
    }

    lemma StatsAreActive(subscriberCount: map<Channel, nat>)
      requires forall c :: c in subscriberCount <==> c != WILDCARD && (c in channels || c in channelHandlers)
      requires forall c | c in subscriberCount :: subscriberCount[c] == PeerCountOf(c) + HandlerCount(c)
      ensures subscriberCount.Keys == ActiveChannels(State()) && |subscriberCount| == |ActiveChannels(State())|
      ensures forall c | c in subscriberCount :: subscriberCount[c] == SubscriberCount(State(), c)
    {
      assert subscriberCount.Keys == ActiveChannels(State());
    }

    predicate HasSubscribers(channel: Channel)
      reads this
    {
      channel in channels && channel != WILDCARD && |channels[channel]| + HandlerCount(channel) != 0
    }

    predicate HasHandlersOnly(channel: Channel)
      reads this
    {
      channel in channelHandlers && channel != WILDCARD && |channelHandlers[channel]| != 0 && !(PeerCountOf(channel) > 0)
    }

    lemma LoopGuards()
      ensures forall c :: c in CountedAsPeers(State()) <==> HasSubscribers(c)
      ensures forall c :: c in CountedAsHandlers(State()) <==> HasHandlersOnly(c)
    {}

    method CountByPeers() returns (count: nat)
      ensures count == |CountedAsPeers(State())|
    {
      LoopGuards();
      ghost var goal := CountedAsPeers(State());
      hide State, CountedAsPeers;
      count := 0;
      var todo := channels.Keys;
      ghost var counted := {};
      while todo != {}
        invariant todo <= channels.Keys && count == |counted|
        invariant forall c :: c in counted <==> HasSubscribers(c) && c !in todo
      {
        var channel :| channel in todo;
        todo := todo - {channel};
        if channel == WILDCARD {
          continue;
        }
        if |channels[channel]| + HandlerCount(channel) == 0 {
          continue;
        }
        count, counted := count + 1, counted + {channel};
      }
      assert counted == goal;
    }

    // Without any invariant on the tables, this is what the two loops count.
    method ChannelCount() returns (count: nat)
      ensures count == |CountedAsPeers(State())| + |CountedAsHandlers(State())|
    {
      LoopGuards();
      count := CountByPeers();
      ghost var byPeers := count;
      ghost var goal := CountedAsHandlers(State());
      hide State, CountedAsPeers, CountedAsHandlers;
      var todo := channelHandlers.Keys;
      ghost var counted := {};
      while todo != {}
        invariant todo <= channelHandlers.Keys && count == byPeers + |counted|
        invariant forall c :: c in counted <==> HasHandlersOnly(c) && c !in todo
      {
        var channel :| channel in todo;
        todo := todo - {channel};
        if channel == WILDCARD {
          continue;
        }
        if |channelHandlers[channel]| == 0 {
          continue;
        }
        if PeerCountOf(channel) > 0 {
          continue;
        }
        count, counted := count + 1, counted + {channel};
      }
      assert counted == goal;
    }

    method ChannelSubscriberCount(channel: Channel) returns (count: nat)
      ensures count == SubscriberCount(State(), channel)
      ensures count == (if channel in channels then |channels[channel]| else 0) +
        (if channel in channelHandlers then |channelHandlers[channel]| else 0)
    {
      count := PeerCountOf(channel) + HandlerCount(channel);
    }

    method AllChannels() returns (sorted: seq<Channel>)
      ensures SortedBy(sorted, (c: Channel) => c)
      ensures |sorted| == |CountedAsPeers(State()) + CountedAsHandlers(State())|
      ensures forall c :: c in sorted <==> c in CountedAsPeers(State()) + CountedAsHandlers(State())
    {
      LoopGuards();
      ghost var goal := CountedAsPeers(State()) + CountedAsHandlers(State());
      hide State, CountedAsPeers, CountedAsHandlers;
      var found: set<Channel> := {};
      var todo := channels.Keys;
      while todo != {}
        invariant todo <= channels.Keys
        invariant forall c :: c in found <==> HasSubscribers(c) && c !in todo
      {
        var channel :| channel in todo;
        todo := todo - {channel};
        if channel == WILDCARD || |channels[channel]| + HandlerCount(channel) == 0 {
          continue;
        }
        found := found + {channel};
      }
      todo := channelHandlers.Keys;
      while todo != {}
        invariant todo <= channelHandlers.Keys
        invariant forall c | c in found :: HasSubscribers(c) || HasHandlersOnly(c)
        invariant forall c :: HasSubscribers(c) || (HasHandlersOnly(c) && c !in todo) ==> c in found
      {
        var channel :| channel in todo;
        todo := todo - {channel};
        if channel == WILDCARD || |channelHandlers[channel]| == 0 {
          continue;
        }
        found := found + {channel};
      }
      assert found == goal;
      sorted := SortSet(found, (c: Channel) => c);
    }

    // In every state with the index invariant the four counts agree.
    method CountsAgree() returns (stats: HubStats, count: nat, all: seq<Channel>)
      requires Valid()
      ensures stats.channels == count == |all| == |ActiveChannels(State())|
      ensures forall c :: c in all <==> c in stats.subscriberCount
      ensures forall c | c in all :: stats.subscriberCount[c] > 0
    {
      hide SubscriberCount, ActiveChannels, CountedAsPeers, CountedAsHandlers;
      stats := Stats();
      count := ChannelCount();
      all := AllChannels();
      ActiveWhenNoEmptyEntry(State());
    }

    // ---- publishing ----

    // The peers that get a publish: a combined set, then sorted by ID.
    method CollectChannelPeersLocked(channel: Channel) returns (sorted: seq<Peer>)
      ensures SortedBy(sorted, (p: Peer) => p.ID)
      ensures |sorted| == |Targets(State(), channel)| && forall p :: p in sorted <==> p in Targets(State(), channel)
      ensures NoDuplicates(sorted)
    {
      var combined: set<Peer> := {};
      if channel in channels {
        combined := combined + channels[channel];
      }
      if channel != WILDCARD {
        if WILDCARD in channels {
          combined := combined + channels[WILDCARD];
        }
      }
      assert combined == Targets(State(), channel);
      sorted := SortSet(combined, (p: Peer) => p.ID);
    }

    // sendToPeer: what is put on the peer's queue depends on its transport.
    function WireFor(peer: Peer, channel: Channel, frame: Frame): Frame
      requires Encodes(peer, channel, frame)
    {
      if peer.isTCP then TcpFrames.EncoderResult(TcpFrames.Message(channel, frame)).value else frame
    }

    // What a peer's queue gets: the frame itself, or for a tcp peer what the encoder makes of
    // channel and frame, which the far end reads as just these if they fit its limit.
    ghost predicate Carries(peer: Peer, wire: Frame, channel: Channel, frame: Frame) {
      var m := TcpFrames.Message(channel, frame);
      && (!peer.isTCP ==> wire == frame)
      && (peer.isTCP ==> TcpFrames.EncoderResult(m) == Some(wire))
      && (peer.isTCP && TcpFrames.Fits(m, TcpFrames.MAX_FRAME_SIZE) ==> TcpFrames.ReadsAs(wire, m))
    }

    // The peer was offered the frame once: it has one more if its queue was open and had room.
    ghost predicate OfferedOnce(before: Peers.PeerState, after: Peers.PeerState, peer: Peer, channel: Channel, frame: Frame) {
      exists wire: Frame :: Carries(peer, wire, channel, frame) &&
        if before.queue.Queue? && !before.queue.closed && |before.queue.items| < Peers.SEND_BUFFER
        then after == before.(queue := Peers.Queue(before.queue.items + [wire], false), sent := before.sent + [wire])
        else after == before
    }

    lemma SentIsOffered(before: Peers.PeerState, peer: Peer, channel: Channel, frame: Frame)
      requires Encodes(peer, channel, frame)
      ensures OfferedOnce(before, Sent(before, peer, channel, frame), peer, channel, frame)
    {
      var m := TcpFrames.Message(channel, frame);
      TcpFrames.EncoderCorrectIff(m);
      TcpFrames.ReadsAsIff(WireFor(peer, channel, frame), m);
      assert Carries(peer, WireFor(peer, channel, frame), channel, frame);
    }

    // The state of a peer after Send was tried with that.
    ghost function Sent(before: Peers.PeerState, peer: Peer, channel: Channel, frame: Frame): Peers.PeerState
      requires Encodes(peer, channel, frame)
    {
      Peers.Step(before, Peers.Action.Send(WireFor(peer, channel, frame)))
    }

    method SendToPeer(peer: Peer, channel: Channel, frame: Frame)
      requires Encodes(peer, channel, frame)
      modifies peer`send, peer`sent
      ensures peer.State() == Sent(old(peer.State()), peer, channel, frame)
      ensures OfferedOnce(old(peer.State()), peer.State(), peer, channel, frame)
    {
      SentIsOffered(peer.State(), peer, channel, frame);
      hide OfferedOnce;
      var payload := frame;
      if peer.isTCP {
        var panicked, encoded := TcpFrames.EncodeStreamFrame(channel, frame);
        payload := encoded[..];
      }
      var _ := peer.Send(payload);
    }

    lemma TargetsAreKnown(channel: Channel)
      requires Valid()
      ensures Targets(State(), channel) <= known
    {
      forall p | p in Targets(State(), channel) ensures p in known {
        assert p in tables;
      }
    }

    lemma SubscribersAreTargets(channel: Channel, notify: bool)
      requires Valid()
      ensures forall p | p in known ::
        (p in Targets(State(), channel) <==> channel in p.subscriptions || WILDCARD in p.subscriptions)
      ensures forall p | p in Targets(State(), channel) :: !NobodyListens(State(), channel, notify)
    {
      EarlyReturnIff(State(), channel, notify);
      forall p | p in known
        ensures p in Targets(State(), channel) <==> channel in p.subscriptions || WILDCARD in p.subscriptions
      {
        FanOutIsRelational(State(), channel, notify, p, BroadcastToken(0));
        assert tables[p] == p.subscriptions;
      }
    }

    // The hub runs and somebody would get the publish.
    ghost predicate Reaches(channel: Channel, notify: bool)
      reads this
    {
      running && !NobodyListens(State(), channel, notify)
    }

    // sendToChannelFromPeer without interference: every target's queue is offered the frame
    // once, no other peer is touched, and the delivery is queued or handed to a goroutine.
    method SendToChannel(channel: Channel, frame: Frame, notify: bool) returns (r: PublishResult)
      requires Valid() && forall p | p in Targets(State(), channel) :: Encodes(p, channel, frame)
      modifies this`publishQueue, this`overflow, known`send, known`sent
      ensures r == if running then Accepted else HubNotRunning
      ensures old(Reaches(channel, notify)) ==>
        (publishQueue, overflow) ==
        Offered(old(publishQueue), old(overflow), PublishDelivery(channel, frame, notify))
      ensures !old(Reaches(channel, notify)) ==> publishQueue == old(publishQueue) && overflow == old(overflow)
      ensures forall p | p in old(known) ::
        if old(running) && (channel in p.subscriptions || WILDCARD in p.subscriptions)
        then OfferedOnce(old(p.State()), p.State(), p, channel, frame) else p.State() == old(p.State())
    {
      TargetsAreKnown(channel);
      SubscribersAreTargets(channel, notify);
      assert Reaches(channel, notify) <==> running && !NobodyListens(State(), channel, notify);
      hide *;
      var peersToSend, nobody := SnapshotForPublish(channel, notify);
      r := if running then Accepted else HubNotRunning;
      if running && !nobody {
        SendToAll(peersToSend, channel, frame);
        EnqueuePublishDelivery(channel, frame, notify);
      }
    }

    // The reads under the lock that decide who gets a publish and whether anyone does.
    method SnapshotForPublish(channel: Channel, notify: bool) returns (peersToSend: seq<Peer>, nobody: bool)
      ensures SortedBy(peersToSend, (p: Peer) => p.ID) && NoDuplicates(peersToSend)
      ensures forall p :: p in peersToSend <==> p in Targets(State(), channel)
      ensures nobody <==> NobodyListens(State(), channel, notify)
    {
      peersToSend := CollectChannelPeersLocked(channel);
      var hasHandlers := HandlerCount(channel) > 0;
      var hasWildcardHandlers := HandlerCount(WILDCARD) > 0 && channel != WILDCARD;
      var hasPublishers := notify && |publishHandlers| > 0;
      nobody := |peersToSend| == 0 && !hasHandlers && !hasWildcardHandlers && !hasPublishers;
    }

    method EnqueuePublishDelivery(channel: Channel, frame: Frame, notify: bool)
      modifies this`publishQueue, this`overflow
      ensures (publishQueue, overflow) ==
        Offered(old(publishQueue), old(overflow), PublishDelivery(channel, frame, notify))
      ensures old(publishQueue) <= publishQueue && (overflow == old(overflow) <==> |old(publishQueue)| < HUB_QUEUE_SIZE)
      ensures multiset(publishQueue) + overflow ==
        multiset(old(publishQueue)) + old(overflow) + multiset{PublishDelivery(channel, frame, notify)}
    {
      var item := PublishDelivery(channel, frame, notify);
      if |publishQueue| < HUB_QUEUE_SIZE {
        publishQueue := publishQueue + [item];
      } else {
        overflow := overflow + multiset{item};
      }
    }

    method SendToAll(targets: seq<Peer>, channel: Channel, frame: Frame)
      requires forall p | p in targets :: p in known && Encodes(p, channel, frame)
      requires NoDuplicates(targets)
      modifies known`send, known`sent
      ensures forall p | p in old(known) ::
        p.State() == if p in targets then Sent(old(p.State()), p, channel, frame) else old(p.State())
      ensures forall p | p in old(known) && p in targets :: OfferedOnce(old(p.State()), p.State(), p, channel, frame)
    {
      hide Sent, Encodes, OfferedOnce;
      for i := 0 to |targets|
        invariant forall p | p in known ::
          p.State() == if p in targets[..i] then Sent(old(p.State()), p, channel, frame) else old(p.State())
        invariant forall p | p in known && p in targets[..i] :: OfferedOnce(old(p.State()), p.State(), p, channel, frame)
      {
        assert targets[i] !in targets[..i];
        SendToPeer(targets[i], channel, frame);
      }
      assert targets[..|targets|] == targets;
    }

    // cloneChannelHandlers and its two copies: the handlers of one table in map order.
    method CloneHandlers(kind: Kind, ids: set<nat>) returns (cloned: seq<Token>)
      ensures NoDuplicates(cloned)
      ensures forall t :: t in cloned <==> t.id in ids && t == TokenFor(kind, t.id)
    {
      cloned := [];
      var todo := ids;
      while todo != {}
        invariant todo <= ids && NoDuplicates(cloned)
        invariant forall t :: t in cloned <==> t.id in ids - todo && t == TokenFor(kind, t.id)
      {
        var id :| id in todo;
        todo := todo - {id};
        cloned := cloned + [TokenFor(kind, id)];
      }
    }

    function HandlerIDs(channel: Channel): set<nat>
      reads this
    {
      if channel in channelHandlers then channelHandlers[channel].Keys else {}
    }

    // processPublishDelivery: every handler of the channel and of "*" once, also when the
    // channel is "*", and the publish handlers if they are to be notified.
    method ProcessPublishDelivery(channel: Channel, notify: bool) returns (invoked: seq<Token>)
      ensures NoDuplicates(invoked)
      ensures forall t :: t in invoked <==> t in Calls(State(), channel, notify)
    {
      invoked := CloneHandlers(ForChannel(channel), HandlerIDs(channel));
      if channel != WILDCARD {
        var wildcard := CloneHandlers(ForChannel(WILDCARD), HandlerIDs(WILDCARD));
        NoDuplicatesAppend(invoked, wildcard);
        invoked := invoked + wildcard;
      }
      if notify {
        var published := CloneHandlers(ForPublishes, publishHandlers.Keys);
        NoDuplicatesAppend(invoked, published);
        invoked := invoked + published;
      }
      InvokedAreCalls(channel, notify, invoked);
    }

    lemma InvokedAreCalls(channel: Channel, notify: bool, invoked: seq<Token>)
      requires forall t :: t in invoked <==>
        || (t.id in HandlerIDs(channel) && t == ChannelToken(channel, t.id))
        || (channel != WILDCARD && t.id in HandlerIDs(WILDCARD) && t == ChannelToken(WILDCARD, t.id))
        || (notify && t.id in publishHandlers && t == PublishToken(t.id))
      ensures forall t :: t in invoked <==> t in Calls(State(), channel, notify)
    {}

    // broadcastToPeers: every registered peer is offered the frame once, whatever it is
    // subscribed to, then the "*" handlers and, if wanted, the broadcast handlers run.
    method BroadcastToPeers(frame: Frame, notify: bool) returns (invoked: seq<Token>)
      requires Valid() && forall p | p in peers :: Encodes(p, [], frame)
      modifies known`send, known`sent
      ensures forall p | p in old(known) ::
        p.State() == if p in peers then Sent(old(p.State()), p, [], frame) else old(p.State())
      ensures forall p | p in old(known) ::
        if p in peers then OfferedOnce(old(p.State()), p.State(), p, [], frame) else p.State() == old(p.State())
      ensures NoDuplicates(invoked) && forall t :: t in invoked <==> t in BroadcastCalls(State(), notify)
    {
      hide IndexInv, OfferedOnce;
      var targets: seq<Peer> := [];
      var todo := peers;
      while todo != {}
        invariant todo <= peers && NoDuplicates(targets) && forall p :: p in targets <==> p in peers - todo
        modifies {}
      {
        var peer :| peer in todo;
        todo := todo - {peer};
        NoDuplicatesAppend(targets, [peer]);
        targets := targets + [peer];
      }
      assert forall p :: p in targets <==> p in peers;
      invoked := CloneHandlers(ForChannel(WILDCARD), HandlerIDs(WILDCARD));
      var broadcast := CloneHandlers(ForBroadcasts, broadcastHandlers.Keys);
      if notify {
        NoDuplicatesAppend(invoked, broadcast);
        invoked := invoked + broadcast;
      }
      assert forall t :: t in invoked <==> t in BroadcastCalls(State(), notify);
      hide State, BroadcastCalls, Sent;
      SendToAll(targets, [], frame);
    }
  }

  // Encoding for this peer does not panic; what it then sends of a frame too long for 32 bits
  // is in TcpFrames.EncoderResult.
  predicate Encodes(peer: Peer, channel: Channel, frame: Frame) {
    peer.isTCP ==> TcpFrames.EncoderResult(TcpFrames.Message(channel, frame)).Some?
  }

  // A non-blocking send on the queue, with a goroutine taking over when it is full.
  function Offered<D>(queue: seq<D>, overflow: multiset<D>, item: D): (r: (seq<D>, multiset<D>))
    ensures queue <= r.0 && (r.1 == overflow <==> |queue| < HUB_QUEUE_SIZE)
    ensures multiset(r.0) + r.1 == multiset(queue) + overflow + multiset{item}
  {
    if |queue| < HUB_QUEUE_SIZE then (queue + [item], overflow) else (queue, overflow + multiset{item})
  }
}
