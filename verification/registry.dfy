// The tables of a Hub that hub.mutex protects, as a value: each function below is what one
// locked section of go/hub.go does to them.
module Registries {
  import opened Bytes

  const UINT64_RANGE: int := 0x1_0000_0000_0000_0000

  // What an unsubscribe closure captures.
  datatype Token = ChannelToken(channel: Channel, id: nat) | BroadcastToken(id: nat) | PublishToken(id: nat)

  // P identifies peers and H handler functions. subscriptions collects the peers' own
  // tables, for the peers that are used with this hub.
  datatype Registry<P(==), H> = Registry(
    peers: set<P>,
    channels: map<Channel, set<P>>,
    subscriptions: map<P, set<Channel>>,
    channelHandlers: map<Channel, map<nat, H>>,
    broadcastHandlers: map<nat, H>,
    publishHandlers: map<nat, H>,
    nextHandlerID: nat)

  function Empty<P(==), H>(): Registry<P, H> {
    Registry({}, map[], map[], map[], map[], map[], 0)
  }

  // Lookups that give the zero value for a missing key, as Go maps do.
  function Subs<P(==), H>(r: Registry<P, H>, p: P): set<Channel> {
    if p in r.subscriptions then r.subscriptions[p] else {}
  }

  function PeersOf<P(==), H>(r: Registry<P, H>, c: Channel): set<P> {
    if c in r.channels then r.channels[c] else {}
  }

  function HandlersOf<P(==), H>(r: Registry<P, H>, c: Channel): map<nat, H> {
    if c in r.channelHandlers then r.channelHandlers[c] else map[]
  }

  function Lookup<P(==), H>(r: Registry<P, H>, t: Token): Option<H> {
    match t
    case ChannelToken(c, id) => if id in HandlersOf(r, c) then Some(HandlersOf(r, c)[id]) else None
    case BroadcastToken(id) => if id in r.broadcastHandlers then Some(r.broadcastHandlers[id]) else None
    case PublishToken(id) => if id in r.publishHandlers then Some(r.publishHandlers[id]) else None
  }

  datatype Outcome = Ok | EmptyChannel | AuthRejected

  // allowed: there is no ChannelAuthoriser, or it accepts this peer and channel.
  function SubscribeOutcome(c: Channel, allowed: bool): Outcome {
    if c == [] then EmptyChannel else if c != WILDCARD && !allowed then AuthRejected else Ok
  }

  function SubscribePeer<P(==), H>(r: Registry<P, H>, p: P, c: Channel, allowed: bool): Registry<P, H> {
    if SubscribeOutcome(c, allowed) != Ok then r
    else r.(subscriptions := r.subscriptions[p := Subs(r, p) + {c}], channels := r.channels[c := PeersOf(r, c) + {p}])
  }

  function WithoutPeer<P(==)>(channels: map<Channel, set<P>>, c: Channel, p: P): map<Channel, set<P>> {
    if c !in channels then channels
    else if channels[c] - {p} == {} then channels - {c}
    else channels[c := channels[c] - {p}]
  }

  function UnsubscribePeer<P(==), H>(r: Registry<P, H>, p: P, c: Channel): Registry<P, H> {
    if c == [] then r
    else r.(subscriptions := r.subscriptions[p := Subs(r, p) - {c}], channels := WithoutPeer(r.channels, c, p))
  }

  // The locked section of addPeer.
  function AddPeer<P(==), H>(r: Registry<P, H>, p: P): Registry<P, H> {
    r.(peers := r.peers + {p}, subscriptions := r.subscriptions[p := Subs(r, p)])
  }

  // The locked section of removePeer; a peer that is not registered is left alone.
  function RemovePeer<P(==), H>(r: Registry<P, H>, p: P): Registry<P, H> {
    if p !in r.peers then r
    else r.(peers := r.peers - {p},
            channels := map c | c in r.channels && r.channels[c] - {p} != {} :: r.channels[c] - {p},
            subscriptions := r.subscriptions[p := {}])
  }

  // hub.nextHandlerID++ on a uint64
  function NextID<P(==), H>(r: Registry<P, H>): nat {
    (r.nextHandlerID + 1) % UINT64_RANGE
  }

  datatype Kind = ForChannel(channel: Channel) | ForBroadcasts | ForPublishes

  function TokenFor(kind: Kind, id: nat): Token {
    match kind
    case ForChannel(c) => ChannelToken(c, id)
    case ForBroadcasts => BroadcastToken(id)
    case ForPublishes => PublishToken(id)
  }

  // SubscribeWithError, SubscribeBroadcast and subscribePublished.
  function Subscribe<P(==), H>(r: Registry<P, H>, kind: Kind, h: H): (Registry<P, H>, Option<Token>) {
    var id := NextID(r);
    match kind
    case ForChannel(c) =>
      if c == [] then (r, None)
      else (r.(nextHandlerID := id, channelHandlers := r.channelHandlers[c := HandlersOf(r, c)[id := h]]),
            Some(TokenFor(kind, id)))
    case ForBroadcasts =>
      (r.(nextHandlerID := id, broadcastHandlers := r.broadcastHandlers[id := h]), Some(TokenFor(kind, id)))
    case ForPublishes =>
      (r.(nextHandlerID := id, publishHandlers := r.publishHandlers[id := h]), Some(TokenFor(kind, id)))
  }

  function WithoutHandler<H>(handlers: map<Channel, map<nat, H>>, c: Channel, id: nat): map<Channel, map<nat, H>> {
    if c !in handlers then handlers
    else if (handlers[c] - {id}).Keys == {} then handlers - {c}
    else handlers[c := handlers[c] - {id}]
  }

  // The body of an unsubscribe closure.
  function Unsubscribe<P(==), H>(r: Registry<P, H>, t: Token): Registry<P, H> {
    match t
    case ChannelToken(c, id) => r.(channelHandlers := WithoutHandler(r.channelHandlers, c, id))
    case BroadcastToken(id) => r.(broadcastHandlers := r.broadcastHandlers - {id})
    case PublishToken(id) => r.(publishHandlers := r.publishHandlers - {id})
  }

  // ---- the index mirror ----

  // c is in p.subscriptions exactly when p is in hub.channels[c].
  ghost predicate Mirror<P, H>(r: Registry<P, H>) {
    && (forall p, c | p in r.subscriptions && c in r.subscriptions[p] :: c in r.channels && p in r.channels[c])
    && (forall c, p | c in r.channels && p in r.channels[c] :: p in r.subscriptions && c in r.subscriptions[p])
  }

  // No stored entry is empty, and the empty channel is never a key.
  ghost predicate NoEmptyEntry<P, H>(r: Registry<P, H>) {
    && (forall c | c in r.channels :: c != [] && r.channels[c] != {})
    && (forall c | c in r.channelHandlers :: c != [] && r.channelHandlers[c].Keys != {})
  }

  ghost predicate IndexInv<P, H>(r: Registry<P, H>) {
    Mirror(r) && NoEmptyEntry(r)
  }

  lemma NoEmptySubscription<P, H>(r: Registry<P, H>, p: P)
    requires IndexInv(r)
    ensures [] !in Subs(r, p) && [] !in r.channels
  {
    var c: Channel := [];
    assert c in Subs(r, p) ==> c in r.channels;
  }

  lemma SubscribePeerKeepsIndex<P, H>(r: Registry<P, H>, p: P, c: Channel, allowed: bool)
    requires IndexInv(r)
    ensures IndexInv(SubscribePeer(r, p, c, allowed))
  {
    assert p in PeersOf(r, c) + {p};
  }

  lemma UnsubscribePeerKeepsIndex<P, H>(r: Registry<P, H>, p: P, c: Channel)
    requires IndexInv(r)
    ensures IndexInv(UnsubscribePeer(r, p, c))
  {
    var r' := UnsubscribePeer(r, p, c);
    forall q, d | q in r'.subscriptions && d in r'.subscriptions[q] ensures d in r'.channels && q in r'.channels[d] {
      assert d in r.channels && q in r.channels[d];
      if d == c && c != [] {
        assert q in r.channels[c] - {p};
      }
    }
  }

  lemma AddPeerKeepsIndex<P, H>(r: Registry<P, H>, p: P)
    requires IndexInv(r)
    ensures IndexInv(AddPeer(r, p))
  {}

  lemma RemovePeerKeepsIndex<P, H>(r: Registry<P, H>, p: P)
    requires IndexInv(r)
    ensures IndexInv(RemovePeer(r, p))
    ensures p in r.peers ==> forall c :: p !in PeersOf(RemovePeer(r, p), c)
  {
    var r' := RemovePeer(r, p);
    forall q, d | q in r'.subscriptions && d in r'.subscriptions[q] ensures d in r'.channels && q in r'.channels[d] {
      assert d in r.channels && q in r.channels[d];
      if p in r.peers {
        assert q in r.channels[d] - {p};
      }
    }
  }

  lemma UnsubscribeKeepsIndex<P, H>(r: Registry<P, H>, t: Token)
    requires IndexInv(r)
    ensures IndexInv(Unsubscribe(r, t))
  {}

  lemma SubscribeKeepsIndex<P, H>(r: Registry<P, H>, kind: Kind, h: H)
    requires IndexInv(r)
    ensures IndexInv(Subscribe(r, kind, h).0)
  {
    hide NextID;
    if kind.ForChannel? && kind.channel != [] {
      assert NextID(r) in HandlersOf(r, kind.channel)[NextID(r) := h].Keys;
    }
  }

  // ---- what each operation changes, pair by pair ----

  lemma SubscribePeerIsExact<P, H>(r: Registry<P, H>, p: P, c: Channel, allowed: bool, q: P, d: Channel)
    ensures var r' := SubscribePeer(r, p, c, allowed);
      && (d in Subs(r', q) <==> d in Subs(r, q) || (q == p && d == c && c != [] && (c == WILDCARD || allowed)))
      && (q in PeersOf(r', d) <==> q in PeersOf(r, d) || (q == p && d == c && c != [] && (c == WILDCARD || allowed)))
      && r'.(subscriptions := r.subscriptions, channels := r.channels) == r
  {}

  lemma UnsubscribePeerIsExact<P, H>(r: Registry<P, H>, p: P, c: Channel, q: P, d: Channel)
    ensures var r' := UnsubscribePeer(r, p, c);
      && (d in Subs(r', q) <==> d in Subs(r, q) && !(q == p && d == c && c != []))
      && (q in PeersOf(r', d) <==> q in PeersOf(r, d) && !(q == p && d == c && c != []))
      && r'.(subscriptions := r.subscriptions, channels := r.channels) == r
  {}

  lemma AddPeerIsExact<P, H>(r: Registry<P, H>, p: P, q: P, d: Channel)
    ensures var r' := AddPeer(r, p);
      && (q in r'.peers <==> q in r.peers || q == p)
      && (d in Subs(r', q) <==> d in Subs(r, q))
      && r'.(peers := r.peers, subscriptions := r.subscriptions) == r
  {}

  lemma RemovePeerIsExact<P, H>(r: Registry<P, H>, p: P, q: P, d: Channel)
    ensures var r' := RemovePeer(r, p);
      && (q in r'.peers <==> q in r.peers && q != p)
      && (d in Subs(r', q) <==> d in Subs(r, q) && !(q == p && p in r.peers))
      && (q in PeersOf(r', d) <==> q in PeersOf(r, d) && !(q == p && p in r.peers))
      && r'.(peers := r.peers, subscriptions := r.subscriptions, channels := r.channels) == r
  {
    var r' := RemovePeer(r, p);
    if p in r.peers && d in r.channels {
      assert q in PeersOf(r', d) <==> q in r.channels[d] - {p};
    }
  }

  // removePeer clears a peer's subscriptions only if it is registered: one that subscribed
  // without being added (or after being removed) stays in the channel tables.
  lemma RemoveClearsIff<P, H>(r: Registry<P, H>, p: P)
    requires IndexInv(r)
    ensures Subs(RemovePeer(r, p), p) == {} <==> p in r.peers || Subs(r, p) == {}
    ensures p !in r.peers ==> RemovePeer(r, p) == r
  {}

  // A peer's own table is shared by the hubs it is used with. What another hub does to it keeps
  // this hub's mirror exactly if this hub's tables say the same already: a subscription there
  // if the peer has it here, and a removal there if the peer has none.
  lemma SharedPeerKeepsMirrorIff<P, H>(r: Registry<P, H>, p: P, c: Channel)
    requires Mirror(r)
    ensures Mirror(r.(subscriptions := r.subscriptions[p := Subs(r, p) + {c}])) <==> c in Subs(r, p)
    ensures Mirror(r.(subscriptions := r.subscriptions[p := {}])) <==> Subs(r, p) == {}
  {
    ForeignSubscription(r, p, c);
    ForeignRemoval(r, p);
  }

  lemma ForeignSubscription<P, H>(r: Registry<P, H>, p: P, c: Channel)
    requires Mirror(r)
    ensures Mirror(r.(subscriptions := r.subscriptions[p := Subs(r, p) + {c}])) <==> c in Subs(r, p)
  {
    var more := r.(subscriptions := r.subscriptions[p := Subs(r, p) + {c}]);
    assert p in more.subscriptions && c in more.subscriptions[p];
    if c in Subs(r, p) {
      assert Subs(r, p) + {c} == Subs(r, p);
      assert more.subscriptions == r.subscriptions;
      assert more == r;
    } else {
      assert !(c in more.channels && p in more.channels[c]);
    }
  }

  lemma ForeignRemoval<P, H>(r: Registry<P, H>, p: P)
    requires Mirror(r)
    ensures Mirror(r.(subscriptions := r.subscriptions[p := {}])) <==> Subs(r, p) == {}
  {
    var none := r.(subscriptions := r.subscriptions[p := {}]);
    if Subs(r, p) != {} {
      var d :| d in Subs(r, p);
      assert d in none.channels && p in none.channels[d] && d !in none.subscriptions[p];
    } else {
      forall c, q | c in none.channels && q in none.channels[c] ensures q in none.subscriptions && c in none.subscriptions[q] {
        assert c in r.subscriptions[q];
      }
    }
  }

  // ---- fan-out ----

  // collectChannelPeersLocked
  function Targets<P(==), H>(r: Registry<P, H>, c: Channel): set<P> {
    PeersOf(r, c) + if c != WILDCARD then PeersOf(r, WILDCARD) else {}
  }

  // The handlers processPublishDelivery invokes.
  function Calls<P(==), H>(r: Registry<P, H>, c: Channel, notify: bool): set<Token> {
    (set id | id in HandlersOf(r, c) :: ChannelToken(c, id))
    + (if c != WILDCARD then set id | id in HandlersOf(r, WILDCARD) :: ChannelToken(WILDCARD, id) else {})
    + (if notify then set id | id in r.publishHandlers :: PublishToken(id) else {})
  }

  // The handlers broadcastToPeers invokes.
  function BroadcastCalls<P(==), H>(r: Registry<P, H>, notify: bool): set<Token> {
    (set id | id in HandlersOf(r, WILDCARD) :: ChannelToken(WILDCARD, id))
    + (if notify then set id | id in r.broadcastHandlers :: BroadcastToken(id) else {})
  }

  // The condition under which a publish returns Ok without being enqueued.
  predicate NobodyListens<P(==), H>(r: Registry<P, H>, c: Channel, notify: bool) {
    && |Targets(r, c)| == 0
    && !(|HandlersOf(r, c)| > 0)
    && !(|HandlersOf(r, WILDCARD)| > 0 && c != WILDCARD)
    && !(notify && |r.publishHandlers| > 0)
  }

  // Fan-out against the peers' own subscriptions and the live handlers.
  lemma FanOutIsRelational<P, H>(r: Registry<P, H>, c: Channel, notify: bool, p: P, t: Token)
    requires IndexInv(r)
    ensures p in Targets(r, c) <==> c in Subs(r, p) || WILDCARD in Subs(r, p)
    ensures t in Calls(r, c, notify) <==>
      && Lookup(r, t).Some?
      && match t
         case ChannelToken(d, _) => d == c || d == WILDCARD
         case BroadcastToken(_) => false
         case PublishToken(_) => notify
  {}

  // The early return is taken exactly when processing in that state would reach no one.
  lemma EarlyReturnIff<P, H>(r: Registry<P, H>, c: Channel, notify: bool)
    ensures NobodyListens(r, c, notify) <==> Targets(r, c) == {} && Calls(r, c, notify) == {}
  {
    var calls := Calls(r, c, notify);
    if HandlersOf(r, c).Keys != {} {
      var id :| id in HandlersOf(r, c).Keys;
      assert ChannelToken(c, id) in calls;
    }
    if HandlersOf(r, WILDCARD).Keys != {} && c != WILDCARD {
      var id :| id in HandlersOf(r, WILDCARD).Keys;
      assert ChannelToken(WILDCARD, id) in calls;
    }
    if r.publishHandlers.Keys != {} && notify {
      var id :| id in r.publishHandlers.Keys;
      assert PublishToken(id) in calls;
    }
    assert |HandlersOf(r, c)| == |HandlersOf(r, c).Keys|;
    assert |HandlersOf(r, WILDCARD)| == |HandlersOf(r, WILDCARD).Keys|;
    assert |r.publishHandlers| == |r.publishHandlers.Keys|;
  }

  // ---- counts ----

  // The channels that have a peer or a handler, other than the wildcard.
  function ActiveChannels<P(==), H>(r: Registry<P, H>): set<Channel> {
    set c | c in r.channels.Keys + r.channelHandlers.Keys && c != WILDCARD
  }

  function SubscriberCount<P(==), H>(r: Registry<P, H>, c: Channel): nat {
    |PeersOf(r, c)| + |HandlersOf(r, c)|
  }

  // The channels that ChannelCount's first and second loop count.
  function CountedAsPeers<P(==), H>(r: Registry<P, H>): set<Channel> {
    set c | c in r.channels && c != WILDCARD && SubscriberCount(r, c) != 0
  }

  function CountedAsHandlers<P(==), H>(r: Registry<P, H>): set<Channel> {
    set c | c in r.channelHandlers && c != WILDCARD && |r.channelHandlers[c]| != 0 && !(|PeersOf(r, c)| > 0)
  }

  // ChannelCount is right exactly when no channel has an empty peer entry beside handlers;
  // each such channel would be counted twice.
  lemma ChannelCountIff<P, H>(r: Registry<P, H>)
    ensures |CountedAsPeers(r)| + |CountedAsHandlers(r)| == |set c | c in ActiveChannels(r) && SubscriberCount(r, c) != 0|
      <==> forall c | c in r.channels && c in r.channelHandlers && c != WILDCARD && |r.channelHandlers[c]| != 0 ::
             r.channels[c] != {}
  {
    var a, b := CountedAsPeers(r), CountedAsHandlers(r);
    hide CountedAsPeers, CountedAsHandlers, ActiveChannels, SubscriberCount;
    ActiveIsCounted(r);
    forall c ensures c in a * b <==>
      c in r.channels && c in r.channelHandlers && c != WILDCARD && |r.channelHandlers[c]| != 0 && r.channels[c] == {}
    {
      CountedTwiceIff(r, c);
    }
    UnionSize(a, b);
  }

  lemma ActiveIsCounted<P, H>(r: Registry<P, H>)
    ensures (set c | c in ActiveChannels(r) && SubscriberCount(r, c) != 0) == CountedAsPeers(r) + CountedAsHandlers(r)
  {}

  lemma UnionSize(a: set<Channel>, b: set<Channel>)
    ensures |a + b| == |a| + |b| <==> forall c :: c !in a * b
  {
    assert |a + b| == |a| + |b| - |a * b|;
    if forall c :: c !in a * b {
      assert a * b == {};
    }
  }

  lemma CountedTwiceIff<P, H>(r: Registry<P, H>, c: Channel)
    ensures c in CountedAsPeers(r) && c in CountedAsHandlers(r) <==>
      c in r.channels && c in r.channelHandlers && c != WILDCARD && |r.channelHandlers[c]| != 0 && r.channels[c] == {}
  {}

  lemma ActiveWhenNoEmptyEntry<P, H>(r: Registry<P, H>)
    requires NoEmptyEntry(r)
    ensures ActiveChannels(r) == CountedAsPeers(r) + CountedAsHandlers(r)
    ensures |ActiveChannels(r)| == |CountedAsPeers(r)| + |CountedAsHandlers(r)|
    ensures forall c | c in ActiveChannels(r) :: SubscriberCount(r, c) != 0
  {
    forall c | c in ActiveChannels(r)
      ensures SubscriberCount(r, c) != 0 && c in CountedAsPeers(r) + CountedAsHandlers(r)
    {
      if c in r.channels {
        assert |r.channels[c]| > 0;
      } else {
        assert |r.channelHandlers[c].Keys| > 0;
      }
    }
    assert CountedAsPeers(r) !! CountedAsHandlers(r);
    assert ActiveChannels(r) == CountedAsPeers(r) + CountedAsHandlers(r);
  }

  // ---- handler identity ----

  // Every subscription ever granted, and the closures that were called.
  datatype Grants<H> = Grants(granted: map<Token, H>, fired: set<Token>)

  function Live<H>(g: Grants<H>, t: Token): Option<H> {
    if t in g.granted && t !in g.fired then Some(g.granted[t]) else None
  }

  // The three registries hold exactly the handlers granted and not yet unsubscribed, and
  // IDs are never reused, while fewer than 2^64 subscriptions were granted.
  ghost predicate HandlersMatch<P, H>(r: Registry<P, H>, g: Grants<H>) {
    && (forall t: Token :: Lookup(r, t) == Live(g, t))
    && DistinctIDs(g)
    && r.nextHandlerID == |g.granted|
  }

  ghost predicate DistinctIDs<H>(g: Grants<H>) {
    && (forall t | t in g.granted :: 1 <= t.id <= |g.granted|)
    && (forall t, u | t in g.granted && u in g.granted && t.id == u.id :: t == u)
  }

  lemma GrantKeepsDistinctIDs<H>(g: Grants<H>, t: Token, h: H)
    requires DistinctIDs(g) && t.id == |g.granted| + 1
    ensures t !in g.granted && DistinctIDs(Grant(g, Some(t), h)) && |Grant(g, Some(t), h).granted| == |g.granted| + 1
  {}

  function Grant<H>(g: Grants<H>, t: Option<Token>, h: H): Grants<H> {
    if t.Some? then g.(granted := g.granted[t.value := h]) else g
  }

  lemma SubscribeLookup<P, H>(r: Registry<P, H>, kind: Kind, h: H, u: Token)
    ensures var (r', t) := Subscribe(r, kind, h);
      Lookup(r', u) == (if t == Some(u) then Some(h) else Lookup(r, u))
    ensures var (r', t) := Subscribe(r, kind, h);
      if t.Some? then t.value.id == r'.nextHandlerID == NextID(r) else r' == r
  {
    hide NextID;
  }

  lemma NextIDBelowRange<P, H>(r: Registry<P, H>)
    requires r.nextHandlerID + 1 < UINT64_RANGE
    ensures NextID(r) == r.nextHandlerID + 1
  {}

  lemma SubscribeKeepsHandlers<P, H>(r: Registry<P, H>, g: Grants<H>, kind: Kind, h: H)
    requires HandlersMatch(r, g) && |g.granted| + 1 < UINT64_RANGE && g.fired <= g.granted.Keys
    ensures var (r', t) := Subscribe(r, kind, h);
      HandlersMatch(r', Grant(g, t, h)) && (t.Some? ==> t.value !in g.granted && Lookup(r', t.value) == Some(h))
  {
    NextIDBelowRange(r);
    hide *;
    var (r', t) := Subscribe(r, kind, h);
    if t.Some? {
      SubscribeLookup(r, kind, h, t.value);
      GrantKeepsDistinctIDs(g, t.value, h);
      GrantKeepsMatch(r, g, kind, h);
    } else {
      SubscribeLookup(r, kind, h, BroadcastToken(0));
    }
  }

  lemma GrantKeepsMatch<P, H>(r: Registry<P, H>, g: Grants<H>, kind: Kind, h: H)
    requires forall t: Token :: Lookup(r, t) == Live(g, t)
    requires g.fired <= g.granted.Keys && Subscribe(r, kind, h).1.Some? && Subscribe(r, kind, h).1.value !in g.granted
    ensures var (r', t) := Subscribe(r, kind, h);
      forall u: Token :: Lookup(r', u) == Live(Grant(g, t, h), u)
  {
    hide Lookup, Subscribe;
    forall u: Token ensures Lookup(Subscribe(r, kind, h).0, u) == Live(Grant(g, Subscribe(r, kind, h).1, h), u) {
      SubscribeLookup(r, kind, h, u);
      assert Lookup(r, u) == Live(g, u);
    }
  }

  // A closure removes its own handler and no other, also when its channel entry has been
  // deleted and made again since; calling it once more changes nothing.
  lemma UnsubscribeExact<P, H>(r: Registry<P, H>, t: Token, u: Token)
    ensures Lookup(Unsubscribe(r, t), t) == None
    ensures u != t ==> Lookup(Unsubscribe(r, t), u) == Lookup(r, u)
    ensures Unsubscribe(r, t).peers == r.peers && Unsubscribe(r, t).channels == r.channels
  {}

  lemma UnsubscribeKeepsHandlers<P, H>(r: Registry<P, H>, g: Grants<H>, t: Token)
    requires HandlersMatch(r, g) && t in g.granted
    ensures HandlersMatch(Unsubscribe(r, t), g.(fired := g.fired + {t}))
  {
    forall u: Token ensures Lookup(Unsubscribe(r, t), u) == Live(g.(fired := g.fired + {t}), u) {
      UnsubscribeExact(r, t, u);
      assert Lookup(r, u) == Live(g, u);
    }
  }

  // n subscriptions with handler h, one after the other.
  function SubscribeTimes<P(==), H>(r: Registry<P, H>, kind: Kind, h: H, n: nat): Registry<P, H> {
    if n == 0 then r else Subscribe(SubscribeTimes(r, kind, h, n - 1), kind, h).0
  }

  lemma {:induction false} IDsCountUp<P, H>(c: Channel, first: H, h: H, n: nat)
    requires c != [] && n < UINT64_RANGE
    ensures var r := SubscribeTimes(Subscribe(Empty<P, H>(), ForChannel(c), first).0, ForBroadcasts, h, n);
      r.nextHandlerID == (n + 1) % UINT64_RANGE && Lookup(r, ChannelToken(c, 1)) == Some(first)
  {
    var start := Subscribe(Empty<P, H>(), ForChannel(c), first).0;
    if n > 0 {
      IDsCountUp<P, H>(c, first, h, n - 1);
      SubscribeLookup(SubscribeTimes(start, ForBroadcasts, h, n - 1), ForBroadcasts, h, ChannelToken(c, 1));
      hide Lookup;
    }
  }

  // Without the bound the property is lost: a hub's first handler is replaced by the one that
  // is subscribed to its channel after 2^64 - 1 others, which gets ID 1 again.
  lemma WrappedIDReplacesHandler<P, H>(c: Channel, first: H, h: H)
    requires c != []
    ensures var r := SubscribeTimes(Subscribe(Empty<P, H>(), ForChannel(c), first).0, ForBroadcasts, h, UINT64_RANGE - 1);
      && Lookup(r, ChannelToken(c, 1)) == Some(first)
      && Subscribe(r, ForChannel(c), h).1 == Some(ChannelToken(c, 1))
      && Lookup(Subscribe(r, ForChannel(c), h).0, ChannelToken(c, 1)) == Some(h)
  {
    IDsCountUp<P, H>(c, first, h, UINT64_RANGE - 1);
    hide SubscribeTimes;
    var r := SubscribeTimes(Subscribe(Empty<P, H>(), ForChannel(c), first).0, ForBroadcasts, h, UINT64_RANGE - 1);
    SubscribeLookup(r, ForChannel(c), h, ChannelToken(c, 1));
  }
}
