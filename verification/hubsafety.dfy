// Safety of the hub over every run: the invariant that all interleavings keep, from a new
// hub on, and what it means for deliveries, peers, handlers and shutdown.
module HubSafety {
  import opened Bytes
  import opened Registries
  import opened HubRuns
  import opened HubInvariants

  // ---- at most one Run, and done ----

  // A thread that is in Run's select loop, or in a call it made from there.
  predicate Runs(t: Thread) {
    (t.At? || t.In?) && t.after.Loop?
  }

  ghost predicate OneLoop(s: Sys) {
    && (forall i, j | 0 <= i < |s.threads| && 0 <= j < |s.threads| && Runs(s.threads[i]) && Runs(s.threads[j]) :: i == j)
    && (s.running <==> exists i | 0 <= i < |s.threads| :: Runs(s.threads[i]))
  }

  lemma CallRuns(s: Sys, i: nat)
    requires i < |s.threads| && CanProceed(s, s.threads[i]) && s.threads[i].In?
    ensures var s' := AdvanceCall(s, i, s.threads[i].call, s.threads[i].after);
      s'.running == s.running && Runs(s'.threads[i]) == Runs(s.threads[i])
  {
    hide AddPeer, RemovePeer;
  }

  lemma AdvanceRuns(s: Sys, i: nat)
    requires i < |s.threads| && CanProceed(s, s.threads[i])
    ensures Advance(s, i).running == s.running && Runs(Advance(s, i).threads[i]) == Runs(s.threads[i])
  {
    if s.threads[i].In? {
      CallRuns(s, i);
    }
    hide Offer, Push, WithLane, LaneOf, AdvanceCall;
  }

  lemma ActorRuns(s: Sys, a: Action)
    requires Enabled(s, a) && Actor(a).Some?
    ensures var i := Actor(a).value;
      i < |s.threads| && i < |Step(s, a).threads| &&
      if a.LoopStop? then !Step(s, a).running && Runs(s.threads[i]) && !Runs(Step(s, a).threads[i])
      else Step(s, a).running == s.running && Runs(Step(s, a).threads[i]) == Runs(s.threads[i])
  {
    hide Lists, Advance, Take, WithLane, LaneOf;
    if a.Proceed? {
      AdvanceRuns(s, a.i);
    }
  }

  lemma OneLoopActor(s: Sys, a: Action)
    requires Enabled(s, a) && OneLoop(s) && Actor(a).Some?
    ensures OneLoop(Step(s, a))
  {
    ActorStep(s, a);
    ActorRuns(s, a);
    hide Step, Runs, Enabled;
    var s', i := Step(s, a), Actor(a).value;
    forall j | 0 <= j < |s.threads| && j != i ensures s'.threads[j] == s.threads[j] {}
    if s'.running {
      var j :| 0 <= j < |s.threads| && Runs(s.threads[j]);
      assert Runs(s'.threads[j]);
    }
  }

  lemma ClientRuns(s: Sys, a: Action)
    requires Enabled(s, a) && Actor(a).None?
    ensures var n := |s.threads|; var s' := Step(s, a);
      if a == StartRun && !s.running then s'.running && s'.threads == s.threads + [At(Loop)]
      else s'.running == s.running && (s'.threads == s.threads || (|s'.threads| == n + 1 && !Runs(s'.threads[n])))
  {
    hide Lists, Subscribe, SubscribePeer, UnsubscribePeer, Unsubscribe, NobodyListens, Grant;
  }

  lemma OneLoopStep(s: Sys, a: Action)
    requires Enabled(s, a) && OneLoop(s)
    ensures OneLoop(Step(s, a))
  {
    if Actor(a).Some? {
      OneLoopActor(s, a);
    } else {
      ClientStep(s, a);
      ClientRuns(s, a);
      assert Runs(At(Loop));
      hide Step, Runs, Enabled;
      var s' := Step(s, a);
      forall j | 0 <= j < |s.threads| ensures s'.threads[j] == s.threads[j] {}
      if a == StartRun && !s.running {
        assert s'.threads[|s.threads|] == At(Loop);
      } else if s'.running {
        var j :| 0 <= j < |s.threads| && Runs(s.threads[j]);
        assert Runs(s'.threads[j]);
      }
    }
  }

  // Items are given up only after done is closed, and done is closed exactly when some Run has
  // returned.
  ghost predicate DoneInv(s: Sys) {
    && (s.broadcasts.discarded != multiset{} || s.publishes.discarded != multiset{} ==> s.done)
    && (s.done <==> RunDone in s.threads)
  }

  lemma DoneActor(s: Sys, a: Action)
    requires Enabled(s, a) && Actor(a).Some?
    ensures var i := Actor(a).value;
      i < |s.threads| && i < |Step(s, a).threads| && s.threads[i] != RunDone &&
      (Step(s, a).done <==> s.done || Step(s, a).threads[i] == RunDone)
  {
    hide Lists, Offer, Push, Take, GiveUp, Advance;
    if a.Proceed? {
      DoneAdvance(s, a.i);
    }
  }

  lemma DoneAdvance(s: Sys, i: nat)
    requires i < |s.threads| && CanProceed(s, s.threads[i])
    ensures Advance(s, i).done <==> s.done || Advance(s, i).threads[i] == RunDone
  {
    if s.threads[i].In? {
      DoneCall(s, i, s.threads[i].call, s.threads[i].after);
    }
    hide Offer, Push, WithLane, LaneOf, AdvanceCall;
  }

  lemma DoneCall(s: Sys, i: nat, call: Call, after: After)
    requires i < |s.threads| && !call.LookUp?
    ensures AdvanceCall(s, i, call, after).done == s.done && AdvanceCall(s, i, call, after).threads[i] != RunDone
  {
    hide AddPeer, RemovePeer;
  }

  lemma DoneClient(s: Sys, a: Action)
    requires Enabled(s, a) && Actor(a).None?
    ensures Step(s, a).done == s.done
    ensures |Step(s, a).threads| > |s.threads| ==> Step(s, a).threads[|s.threads|] != RunDone
  {}

  lemma DiscardNeedsDone(s: Sys, a: Action)
    requires Enabled(s, a)
    ensures Step(s, a).broadcasts.discarded == s.broadcasts.discarded || s.done
    ensures Step(s, a).publishes.discarded == s.publishes.discarded || s.done
  {
    LaneMoves(s, a);
    hide Step;
  }

  lemma DoneStep(s: Sys, a: Action)
    requires Enabled(s, a) && DoneInv(s)
    ensures DoneInv(Step(s, a)) && (s.done ==> Step(s, a).done)
  {
    DiscardNeedsDone(s, a);
    var s' := Step(s, a);
    if Actor(a).Some? {
      ActorStep(s, a);
      DoneActor(s, a);
      hide Step, Enabled;
      var i := Actor(a).value;
      forall j | 0 <= j < |s.threads| && j != i ensures s'.threads[j] == s.threads[j] {}
      DoneThreads(s, s', i);
    } else {
      ClientStep(s, a);
      DoneClient(s, a);
      hide Step, Enabled;
      assert s.threads == s'.threads || s'.threads == s.threads + [s'.threads[|s.threads|]];
    }
  }

  lemma DoneThreads(s: Sys, s': Sys, i: nat)
    requires i < |s.threads| == |s'.threads| && forall j | 0 <= j < |s.threads| && j != i :: s'.threads[j] == s.threads[j]
    requires s.threads[i] != RunDone
    ensures RunDone in s'.threads <==> RunDone in s.threads || s'.threads[i] == RunDone
  {
    if RunDone in s.threads {
      var j :| 0 <= j < |s.threads| && s.threads[j] == RunDone;
      assert s'.threads[j] == RunDone;
    }
  }

  // ---- registered peers ----

  ghost predicate PeersInv(s: Sys) {
    && (forall p :: s.log.added[p] == s.log.removed[p] + (if p in s.reg.peers then 1 else 0))
    && (forall p | s.log.disconnected[p] > 0 :: p in s.log.closed)
    && (forall t | t in s.threads && t.In? && t.call.Disconnecting? :: t.call.p in s.log.closed)
  }

  // The steps inside addPeer, removePeer and the delivery loops.
  predicate InsideCall(s: Sys, a: Action) {
    a.Proceed? && a.i < |s.threads| && s.threads[a.i].In?
  }

  // The client calls that change the tables.
  predicate TableCall(a: Action) {
    a.DoSubscribePeer? || a.DoUnsubscribePeer? || a.DoSubscribe? || a.DoUnsubscribe?
  }

  // No change of the tables, the record of peers, or the handlers granted.
  ghost predicate Untouched(s: Sys, s': Sys) {
    && s'.reg == s.reg && s'.grants == s.grants
    && s'.log.added == s.log.added && s'.log.removed == s.log.removed
    && s'.log.disconnected == s.log.disconnected && s'.log.closed == s.log.closed
  }

  lemma QueueStepTouchesNothing(s: Sys, i: nat)
    requires i < |s.threads| && CanProceed(s, s.threads[i])
    requires s.threads[i].Offering? || s.threads[i].Blocked? || s.threads[i].Registering? || s.threads[i].Unregistering?
    ensures Untouched(s, Advance(s, i))
    ensures var t := Advance(s, i).threads[i]; t.In? ==> !t.call.Disconnecting?
  {
    hide Offer, Push, WithLane, LaneOf, AdvanceCall, QUEUE_SIZE;
  }

  lemma AdvanceTouchesNothing(s: Sys, i: nat)
    requires i < |s.threads| && CanProceed(s, s.threads[i]) && !s.threads[i].In?
    ensures Untouched(s, Advance(s, i))
    ensures var t := Advance(s, i).threads[i]; t.In? ==> !t.call.Disconnecting?
  {
    if s.threads[i].At? || s.threads[i].Publishing? {
      hide Offer, Push, WithLane, LaneOf, AdvanceCall, QUEUE_SIZE;
    } else {
      QueueStepTouchesNothing(s, i);
    }
  }

  lemma ActorTouchesNothing(s: Sys, a: Action)
    requires Enabled(s, a) && !InsideCall(s, a) && Actor(a).Some?
    ensures Untouched(s, Step(s, a)) && Actor(a).value < |Step(s, a).threads|
    ensures var t := Step(s, a).threads[Actor(a).value]; t.In? ==> !t.call.Disconnecting?
  {
    hide Advance, Take, GiveUp, WithLane, LaneOf, Lists;
    if a.Proceed? {
      AdvanceTouchesNothing(s, a.i);
    }
  }

  lemma ClientTouchesNothing(s: Sys, a: Action)
    requires Enabled(s, a) && !TableCall(a) && Actor(a).None?
    ensures Untouched(s, Step(s, a))
    ensures forall t | t in Step(s, a).threads && t.In? && t.call.Disconnecting? :: t in s.threads
  {
    hide Lists, NobodyListens;
  }

  lemma OthersTouchNothing(s: Sys, a: Action)
    requires Enabled(s, a) && !InsideCall(s, a) && !TableCall(a)
    ensures Untouched(s, Step(s, a))
    ensures forall t | t in Step(s, a).threads && t.In? && t.call.Disconnecting? :: t in s.threads
  {
    if Actor(a).Some? {
      ActorStep(s, a);
      ActorTouchesNothing(s, a);
      hide Step, Enabled, Untouched;
      var i, s' := Actor(a).value, Step(s, a);
      forall t | t in s'.threads && t.In? && t.call.Disconnecting? ensures t in s.threads {
        var j :| 0 <= j < |s'.threads| && s'.threads[j] == t;
        assert s.threads[j] == t;
      }
    } else {
      ClientTouchesNothing(s, a);
    }
  }

  lemma RegistryKeepsPeers(r: Registry<PeerRef, HandlerRef>, p: PeerRef, c: Channel, allowed: bool)
    ensures SubscribePeer(r, p, c, allowed).peers == UnsubscribePeer(r, p, c).peers == r.peers
  {}

  lemma RegistryKeepsPeersToo(r: Registry<PeerRef, HandlerRef>, kind: Kind, h: HandlerRef, t: Token)
    ensures Subscribe(r, kind, h).0.peers == Unsubscribe(r, t).peers == r.peers
  {}

  lemma TableCallKeepsPeers(s: Sys, a: Action)
    requires TableCall(a) && Enabled(s, a)
    ensures Step(s, a).reg.peers == s.reg.peers && Step(s, a).log == s.log && Step(s, a).threads == s.threads
  {
    hide SubscribePeer, UnsubscribePeer, Subscribe, Unsubscribe, Grant;
    match a
    case DoSubscribePeer(p, c, allowed) => RegistryKeepsPeers(s.reg, p, c, allowed);
    case DoUnsubscribePeer(p, c) => RegistryKeepsPeers(s.reg, p, c, true);
    case DoSubscribe(kind, h) => RegistryKeepsPeersToo(s.reg, kind, h, BroadcastToken(0));
    case DoUnsubscribe(t) => RegistryKeepsPeersToo(s.reg, ForBroadcasts, 0, t);
  }

  // How a step of a call changes the set of peers and the record of the changes.
  ghost predicate PeersMove(s: Sys, s': Sys) {
    || (s'.reg.peers == s.reg.peers && s'.log.added == s.log.added && s'.log.removed == s.log.removed)
    || (exists p :: p !in s.reg.peers && s'.reg.peers == s.reg.peers + {p} &&
          s'.log.added == s.log.added + multiset{p} && s'.log.removed == s.log.removed)
    || (exists p :: p in s.reg.peers && s'.reg.peers == s.reg.peers - {p} &&
          s'.log.added == s.log.added && s'.log.removed == s.log.removed + multiset{p})
  }

  // How it changes the record of closed peers and callbacks.
  ghost predicate ClosedMove(s: Sys, s': Sys, i: nat) {
    && i < |s.threads| && i < |s'.threads|
    && s.log.closed <= s'.log.closed
    && (s'.threads[i].In? && s'.threads[i].call.Disconnecting? ==> s'.threads[i].call.p in s'.log.closed)
    && (s'.log.disconnected == s.log.disconnected ||
        (s.threads[i].In? && s.threads[i].call.Disconnecting? &&
         s'.log.disconnected == s.log.disconnected + multiset{s.threads[i].call.p}))
  }

  lemma AddLockMovesPeers(s: Sys, i: nat)
    requires i < |s.threads| && CanProceed(s, s.threads[i]) && s.threads[i].In? && s.threads[i].call.AddLock?
    ensures PeersMove(s, AdvanceCall(s, i, s.threads[i].call, s.threads[i].after))
  {}

  lemma RemoveLockMovesPeers(s: Sys, i: nat)
    requires i < |s.threads| && CanProceed(s, s.threads[i]) && s.threads[i].In? && s.threads[i].call.RemoveLock?
    ensures PeersMove(s, AdvanceCall(s, i, s.threads[i].call, s.threads[i].after))
  {}

  lemma CallMovesPeers(s: Sys, i: nat)
    requires i < |s.threads| && CanProceed(s, s.threads[i]) && s.threads[i].In?
    ensures PeersMove(s, AdvanceCall(s, i, s.threads[i].call, s.threads[i].after))
  {
    hide AddPeer, RemovePeer;
    match s.threads[i].call
    case AddLock(_) => AddLockMovesPeers(s, i);
    case RemoveLock(_) => RemoveLockMovesPeers(s, i);
    case _ =>
  }

  lemma LocksKeepClosed(s: Sys, p: PeerRef)
    ensures var (s1, s2) := (AddLocked(s, p), RemoveLocked(s, p));
      s1.log.closed == s2.log.closed == s.log.closed && s1.log.disconnected == s2.log.disconnected == s.log.disconnected &&
      s1.threads == s2.threads == s.threads
  {
    hide AddPeer, RemovePeer;
  }

  lemma CallMovesClosed(s: Sys, i: nat, call: Call, after: After)
    requires i < |s.threads| && s.threads[i] == In(call, after) && !call.LookUp?
    ensures ClosedMove(s, AdvanceCall(s, i, call, after), i)
  {
    if call.AddLock? || call.RemoveLock? {
      LocksKeepClosed(s, call.p);
      hide AddLocked, RemoveLocked;
    } else {
      hide AddLocked, RemoveLocked;
    }
  }

  lemma PeersMoveBalances(s: Sys, s': Sys, p: PeerRef)
    requires PeersMove(s, s') && s.log.added[p] == s.log.removed[p] + (if p in s.reg.peers then 1 else 0)
    ensures s'.log.added[p] == s'.log.removed[p] + (if p in s'.reg.peers then 1 else 0)
  {}

  lemma ClosedMoveKeeps(s: Sys, s': Sys, i: nat)
    requires PeersInv(s) && ClosedMove(s, s', i) && s'.threads == s.threads[i := s'.threads[i]]
    ensures forall p | s'.log.disconnected[p] > 0 :: p in s'.log.closed
    ensures forall t | t in s'.threads && t.In? && t.call.Disconnecting? :: t.call.p in s'.log.closed
  {
    assert s.threads[i] in s.threads;
    forall t | t in s'.threads && t != s'.threads[i] ensures t in s.threads {
      var j :| 0 <= j < |s'.threads| && s'.threads[j] == t;
      assert s.threads[j] == t;
    }
  }

  lemma CallKeepsPeersInv(s: Sys, i: nat, s': Sys)
    requires i < |s.threads| && s.threads[i].In? && !s.threads[i].call.LookUp? && PeersInv(s)
    requires s' == AdvanceCall(s, i, s.threads[i].call, s.threads[i].after)
    ensures PeersInv(s')
  {
    CallMovesPeers(s, i);
    CallMovesClosed(s, i, s.threads[i].call, s.threads[i].after);
    hide AdvanceCall, PeersMove, ClosedMove;
    forall p: PeerRef ensures s'.log.added[p] == s'.log.removed[p] + (if p in s'.reg.peers then 1 else 0) {
      PeersMoveBalances(s, s', p);
    }
    ClosedMoveKeeps(s, s', i);
  }

  lemma PeersStep(s: Sys, a: Action)
    requires Enabled(s, a) && PeersInv(s)
    ensures PeersInv(Step(s, a))
  {
    if InsideCall(s, a) {
      CallKeepsPeersInv(s, a.i, Step(s, a));
      hide AdvanceCall, PeersInv;
    } else if TableCall(a) {
      TableCallKeepsPeers(s, a);
      hide Step, Enabled;
    } else {
      OthersTouchNothing(s, a);
      hide Step, Enabled;
    }
  }

  // ---- tables ----

  lemma IndexStep(s: Sys, a: Action)
    requires Enabled(s, a) && IndexInv(s.reg)
    ensures IndexInv(Step(s, a).reg)
  {
    hide Lists, Offer, Push, Take, Subscribe, SubscribePeer, UnsubscribePeer, Unsubscribe, NobodyListens, AddPeer, RemovePeer, IndexInv, Grant;
    match a
    case DoSubscribePeer(p, c, allowed) => SubscribePeerKeepsIndex(s.reg, p, c, allowed);
    case DoUnsubscribePeer(p, c) => UnsubscribePeerKeepsIndex(s.reg, p, c);
    case DoSubscribe(kind, h) => SubscribeKeepsIndex(s.reg, kind, h);
    case DoUnsubscribe(t) => UnsubscribeKeepsIndex(s.reg, t);
    case Proceed(i) =>
      if s.threads[i].In? && s.threads[i].call.AddLock? {
        AddPeerKeepsIndex(s.reg, s.threads[i].call.p);
      } else if s.threads[i].In? && s.threads[i].call.RemoveLock? {
        RemovePeerKeepsIndex(s.reg, s.threads[i].call.p);
      }
    case _ =>
  }

  // While fewer than 2^64 handlers were subscribed.
  ghost predicate HandlersHold(r: Registry<PeerRef, HandlerRef>, g: Grants<HandlerRef>) {
    |g.granted| < UINT64_RANGE ==> HandlersMatch(r, g) && g.fired <= g.granted.Keys
  }

  ghost predicate HandlersInv(s: Sys) {
    HandlersHold(s.reg, s.grants)
  }

  // The handler tables of the registry.
  predicate SameHandlers(r: Registry<PeerRef, HandlerRef>, r': Registry<PeerRef, HandlerRef>) {
    && r'.channelHandlers == r.channelHandlers
    && r'.broadcastHandlers == r.broadcastHandlers
    && r'.publishHandlers == r.publishHandlers
    && r'.nextHandlerID == r.nextHandlerID
  }

  lemma PeerStepsKeepHandlers(r: Registry<PeerRef, HandlerRef>, p: PeerRef, c: Channel, allowed: bool)
    ensures SameHandlers(r, SubscribePeer(r, p, c, allowed)) && SameHandlers(r, UnsubscribePeer(r, p, c))
    ensures SameHandlers(r, AddPeer(r, p)) && SameHandlers(r, RemovePeer(r, p))
  {}

  lemma CallKeepsHandlers(s: Sys, i: nat)
    requires i < |s.threads| && CanProceed(s, s.threads[i]) && s.threads[i].In?
    ensures var s' := AdvanceCall(s, i, s.threads[i].call, s.threads[i].after);
      SameHandlers(s.reg, s'.reg) && s'.grants == s.grants
  {
    var call := s.threads[i].call;
    if call.AddLock? || call.RemoveLock? {
      PeerStepsKeepHandlers(s.reg, call.p, [], true);
    }
    hide AddPeer, RemovePeer;
  }

  lemma OthersKeepHandlers(s: Sys, a: Action)
    requires Enabled(s, a) && !a.DoSubscribe? && !a.DoUnsubscribe?
    ensures SameHandlers(s.reg, Step(s, a).reg) && Step(s, a).grants == s.grants
  {
    if InsideCall(s, a) {
      CallKeepsHandlers(s, a.i);
      hide AdvanceCall;
    } else if TableCall(a) {
      PeerStepsKeepHandlers(s.reg, a.p, a.c, a.DoSubscribePeer? && a.allowed);
    } else {
      OthersTouchNothing(s, a);
    }
  }

  lemma SameHandlersMatch(r: Registry<PeerRef, HandlerRef>, r': Registry<PeerRef, HandlerRef>, g: Grants<HandlerRef>)
    requires SameHandlers(r, r') && HandlersMatch(r, g)
    ensures HandlersMatch(r', g)
  {
    forall t: Token ensures Lookup(r', t) == Live(g, t) {
      assert Lookup(r, t) == Live(g, t);
    }
  }

  lemma GrantCounts(g: Grants<HandlerRef>, t: Token, h: HandlerRef)
    ensures |g.granted| <= |Grant(g, Some(t), h).granted| <= |g.granted| + 1
    ensures t !in g.granted ==> |Grant(g, Some(t), h).granted| == |g.granted| + 1
    ensures g.granted.Keys <= Grant(g, Some(t), h).granted.Keys && Grant(g, Some(t), h).fired == g.fired
  {
    var keys, more := g.granted.Keys, Grant(g, Some(t), h).granted.Keys;
    assert more == keys + {t};
    assert |g.granted| == |keys| && |Grant(g, Some(t), h).granted| == |more|;
  }

  lemma NewTokenIsFresh(r: Registry<PeerRef, HandlerRef>, g: Grants<HandlerRef>, kind: Kind, h: HandlerRef)
    requires HandlersMatch(r, g) && |g.granted| < UINT64_RANGE
    ensures var t := Subscribe(r, kind, h).1; t.Some? ==> t.value !in g.granted
  {
    SubscribeLookup(r, kind, h, BroadcastToken(0));
    hide Subscribe, Lookup;
  }

  lemma SubscribeHolds(r: Registry<PeerRef, HandlerRef>, g: Grants<HandlerRef>, kind: Kind, h: HandlerRef)
    requires HandlersHold(r, g)
    ensures HandlersHold(Subscribe(r, kind, h).0, Grant(g, Subscribe(r, kind, h).1, h))
  {
    SubscribeLookup(r, kind, h, BroadcastToken(0));
    hide Subscribe, HandlersMatch, Lookup, NextID;
    var t := Subscribe(r, kind, h).1;
    if t.Some? {
      GrantCounts(g, t.value, h);
      if |g.granted| < UINT64_RANGE {
        NewTokenIsFresh(r, g, kind, h);
        if |g.granted| + 1 < UINT64_RANGE {
          SubscribeKeepsHandlers(r, g, kind, h);
        }
      }
    }
  }

  lemma HandlersStep(s: Sys, a: Action)
    requires Enabled(s, a) && HandlersInv(s)
    ensures HandlersInv(Step(s, a))
  {
    match a
    case DoSubscribe(kind, h) => SubscribeHolds(s.reg, s.grants, kind, h);
    case DoUnsubscribe(t) =>
      if t !in s.grants.fired && |s.grants.granted| < UINT64_RANGE {
        UnsubscribeKeepsHandlers(s.reg, s.grants, t);
      }
    case _ =>
      OthersKeepHandlers(s, a);
      if |s.grants.granted| < UINT64_RANGE {
        SameHandlersMatch(s.reg, Step(s, a).reg, s.grants);
      }
  }

  // ---- effects ----

  // How often an effect may have been decided on: a publish is sent when it is requested,
  // everything else is done when a delivery's handlers are read.
  function Occasions(s: Sys, e: Effect): nat {
    if e.SendTo? && e.item.PublishItem? then s.log.requested[e.item] else s.log.read[e.item]
  }

  ghost predicate PlannedOnce(s: Sys) {
    forall e: Effect :: s.log.planned[e] <= Occasions(s, e)
  }

  // What one publish or delivery does: a send to exactly the peers that subscribe to the
  // channel or to "*", or to every registered peer for a broadcast; and a call of exactly the
  // live handlers that match.
  lemma EffectsAreRelational(r: Registry<PeerRef, HandlerRef>, item: Item, p: PeerRef, t: Token)
    requires IndexInv(r)
    ensures item.PublishItem? ==>
      (SendTo(p, item) in PublishSends(r, item) <==> item.channel in Subs(r, p) || WILDCARD in Subs(r, p))
    ensures SendTo(p, item) in Deliveries(r, item) <==> item.BroadcastItem? && p in r.peers
    ensures Invoke(t, item) in Deliveries(r, item) <==>
      && Lookup(r, t).Some?
      && match t
         case ChannelToken(d, _) => d == WILDCARD || (item.PublishItem? && d == item.channel)
         case BroadcastToken(_) => item.BroadcastItem? && item.notify
         case PublishToken(_) => item.PublishItem? && item.notify
  {
    if item.PublishItem? {
      FanOutIsRelational(r, item.channel, item.notify, p, t);
      hide Targets, Calls, Lookup;
    }
  }

  lemma ListedOnce(order: seq<Effect>, effects: set<Effect>, e: Effect)
    requires Lists(order, effects)
    ensures multiset(order)[e] == if e in effects then 1 else 0
  {}

  lemma PlannedAtPublish(s: Sys, item: Item, order: seq<Effect>, e: Effect)
    requires Enabled(s, BeginPublish(item, order)) && s.log.planned[e] <= Occasions(s, e)
    ensures var s' := Step(s, BeginPublish(item, order)); s'.log.planned[e] <= Occasions(s', e)
  {
    ListedOnce(order, PublishSends(s.reg, item), e);
    assert e in PublishSends(s.reg, item) ==> e.SendTo? && e.item == item;
    hide Lists, NobodyListens, PublishSends;
  }

  lemma PlannedAtRead(s: Sys, i: nat, order: seq<Effect>, e: Effect)
    requires Enabled(s, ReadHandlers(i, order)) && s.log.planned[e] <= Occasions(s, e)
    ensures var s' := Step(s, ReadHandlers(i, order)); s'.log.planned[e] <= Occasions(s', e)
  {
    var item := s.threads[i].call.item;
    ListedOnce(order, Deliveries(s.reg, item), e);
    assert e in Deliveries(s.reg, item) ==> e.item == item && !(e.SendTo? && item.PublishItem?);
    hide Lists, Deliveries;
  }

  // The other steps decide on nothing.
  lemma OthersPlanNothing(s: Sys, a: Action, e: Effect)
    requires Enabled(s, a) && !a.BeginPublish? && !a.ReadHandlers?
    ensures Step(s, a).log.planned[e] == s.log.planned[e] && Occasions(s, e) <= Occasions(Step(s, a), e)
  {
    if Actor(a).Some? {
      ActorPlansNothing(s, a);
      hide Step, Enabled;
    } else {
      hide Lists, NobodyListens, Subscribe, SubscribePeer, UnsubscribePeer, Unsubscribe, Grant;
    }
  }

  lemma ActorPlansNothing(s: Sys, a: Action)
    requires Enabled(s, a) && Actor(a).Some? && !a.ReadHandlers?
    ensures var log := Step(s, a).log;
      log.planned == s.log.planned && log.requested == s.log.requested && log.read == s.log.read
  {
    hide Advance, Take, GiveUp, Lists, WithLane, LaneOf;
    if a.Proceed? {
      AdvancePlansNothing(s, a.i);
    }
  }

  lemma AdvancePlansNothing(s: Sys, i: nat)
    requires i < |s.threads| && CanProceed(s, s.threads[i])
    ensures var log := Advance(s, i).log;
      log.planned == s.log.planned && log.requested == s.log.requested && log.read == s.log.read
  {
    if s.threads[i].In? {
      CallPlansNothing(s, i, s.threads[i].call, s.threads[i].after);
    }
    hide AdvanceCall, Offer, Push, WithLane, LaneOf;
  }

  lemma CallPlansNothing(s: Sys, i: nat, call: Call, after: After)
    requires i < |s.threads| && !call.LookUp?
    ensures var log := AdvanceCall(s, i, call, after).log;
      log.planned == s.log.planned && log.requested == s.log.requested && log.read == s.log.read
  {
    hide AddPeer, RemovePeer;
  }

  lemma PlannedStep(s: Sys, a: Action)
    requires Enabled(s, a) && PlannedOnce(s)
    ensures PlannedOnce(Step(s, a))
  {
    hide Step, Enabled, Occasions;
    forall e: Effect ensures Step(s, a).log.planned[e] <= Occasions(Step(s, a), e) {
      match a
      case BeginPublish(item, order) => PlannedAtPublish(s, item, order, e);
      case ReadHandlers(i, order) => PlannedAtRead(s, i, order, e);
      case _ => OthersPlanNothing(s, a, e);
    }
  }

  // ---- every run ----

  ghost predicate Safe(s: Sys) {
    AllBalanced(s) && QueuesInv(s) && OneLoop(s) && DoneInv(s) && PeersInv(s) && IndexInv(s.reg) && HandlersInv(s) &&
    PlannedOnce(s)
  }

  lemma StepIsSafe(s: Sys, a: Action)
    requires Enabled(s, a) && Safe(s)
    ensures Safe(Step(s, a))
  {
    hide Step, Enabled, QueuesInv, OneLoop, DoneInv, PeersInv, IndexInv, HandlersInv, PlannedOnce, Balanced;
    forall k: Key ensures Balanced(Step(s, a), k) {
      assert Balanced(s, k);
      BalancedStep(s, a, k);
    }
    QueuesStep(s, a);
    OneLoopStep(s, a);
    DoneStep(s, a);
    PeersStep(s, a);
    IndexStep(s, a);
    HandlersStep(s, a);
    PlannedStep(s, a);
  }

  lemma NewHubIsBalanced(k: Key)
    ensures Balanced(NewHub(), k)
  {}

  lemma NewHubHandlers()
    ensures HandlersMatch(NewHub().reg, NewHub().grants)
  {}

  lemma NewHubIsSafe()
    ensures Safe(NewHub())
  {
    forall k: Key ensures Balanced(NewHub(), k) {
      NewHubIsBalanced(k);
    }
    hide Balanced;
    NewHubHandlers();
    hide HandlersMatch;
  }

  lemma {:induction false} RunIsSafe(s: Sys, actions: seq<Action>)
    requires ValidRun(s, actions) && Safe(s)
    ensures Safe(Exec(s, actions))
    decreases |actions|
  {
    hide Safe;
    if actions != [] {
      StepIsSafe(s, actions[0]);
      RunIsSafe(Step(s, actions[0]), actions[1..]);
    }
  }

  // A publish is refused or cut short exactly when the hub is not running, or its tables show
  // no peer to send to and no handler to call.
  lemma PublishIsCutShortIff(s: Sys, item: Item, order: seq<Effect>)
    requires Enabled(s, BeginPublish(item, order))
    ensures Step(s, BeginPublish(item, order)) == s <==>
      !s.running || (Targets(s.reg, item.channel) == {} && Calls(s.reg, item.channel, item.notify) == {})
  {
    EarlyReturnIff(s.reg, item.channel, item.notify);
    hide NobodyListens, Targets, Calls, Lists;
    assert |s.threads + [Publishing(order, item)]| != |s.threads|;
  }

  lemma DeliveryBooks(s: Sys, item: Item, e: Effect)
    requires AllBalanced(s)
    ensures s.log.requested[item] == multiset(LaneOf(s, item).accepted)[item] + Sum(s.threads, OfferKey(item))
    ensures multiset(LaneOf(s, item).accepted)[item] == LaneCount(LaneOf(s, item), item) + Sum(s.threads, ItemKey(item))
    ensures multiset(LaneOf(s, item).processed)[item] == s.log.read[item] + Sum(s.threads, ReadKey(item))
    ensures s.log.planned[e] == s.log.performed[e] + Sum(s.threads, EffectKey(e))
  {
    hide LaneCount, LaneOf, Sum;
    assert Balanced(s, OfferKey(item)) && Balanced(s, ItemKey(item));
    assert Balanced(s, ReadKey(item)) && Balanced(s, EffectKey(e));
  }

  // Conservation, in four stages. A broadcast or publish that was not refused or cut short
  // is accepted or about to be; an accepted one has been processed, is queued, is held by an
  // overflow goroutine or was given up after a Run had returned; for a processed one the
  // handlers have been read or are about to be; and a send or handler call that was decided
  // on has been performed or is pending. Each is exactly one of these.
  lemma EveryDeliveryIsAccountedFor(actions: seq<Action>, item: Item, e: Effect)
    requires ValidRun(NewHub(), actions)
    ensures var s := Exec(NewHub(), actions); var lane := LaneOf(s, item);
      && s.log.requested[item] == multiset(lane.accepted)[item] + Sum(s.threads, OfferKey(item))
      && multiset(lane.accepted)[item] ==
           multiset(lane.processed)[item] + multiset(lane.queue)[item] + lane.discarded[item] + Sum(s.threads, ItemKey(item))
      && multiset(lane.processed)[item] == s.log.read[item] + Sum(s.threads, ReadKey(item))
      && s.log.planned[e] == s.log.performed[e] + Sum(s.threads, EffectKey(e))
      && (lane.discarded[item] > 0 ==> s.done && RunDone in s.threads)
  {
    NewHubIsSafe();
    RunIsSafe(NewHub(), actions);
    hide Exec, ValidRun, NewHub, QueuesInv, OneLoop, PeersInv, IndexInv, HandlersInv, PlannedOnce, AllBalanced, Sum;
    var s := Exec(NewHub(), actions);
    DeliveryBooks(s, item, e);
  }

  // At most once for every request: no peer is sent a frame, and no handler called with it,
  // more often than the publish or broadcast was requested; a delivery that was given up is
  // not processed besides.
  lemma EffectsAtMostOncePerRequest(actions: seq<Action>, e: Effect)
    requires ValidRun(NewHub(), actions)
    ensures var s := Exec(NewHub(), actions);
      && s.log.performed[e] <= s.log.requested[e.item]
      && (e.Invoke? || e.item.BroadcastItem? ==>
            s.log.performed[e] + LaneOf(s, e.item).discarded[e.item] <= s.log.requested[e.item])
  {
    NewHubIsSafe();
    RunIsSafe(NewHub(), actions);
    hide Exec, ValidRun, NewHub, QueuesInv, OneLoop, DoneInv, PeersInv, IndexInv, HandlersInv, AllBalanced, Sum;
    var s := Exec(NewHub(), actions);
    DeliveryBooks(s, e.item, e);
    assert s.log.planned[e] <= Occasions(s, e);
  }

  // A queue never holds more than 256 deliveries, and one that has never overflowed is a
  // plain FIFO log: no goroutine holds a delivery and none was given up.
  lemma QueuesAreFIFOUntilOverflow(actions: seq<Action>)
    requires ValidRun(NewHub(), actions)
    ensures var s := Exec(NewHub(), actions);
      forall item :: var lane := LaneOf(s, item);
        && |lane.queue| <= QUEUE_SIZE
        && (!lane.overflowed ==>
              && lane.accepted == lane.processed + lane.queue
              && lane.discarded[item] == 0
              && Blocked(item) !in s.threads)
  {
    NewHubIsSafe();
    RunIsSafe(NewHub(), actions);
    var s := Exec(NewHub(), actions);
    hide Exec, ValidRun, NewHub, OneLoop, DoneInv, PeersInv, IndexInv, HandlersInv, PlannedOnce, Balanced, Sum;
    forall item | !LaneOf(s, item).overflowed
      ensures LaneOf(s, item).discarded[item] == 0 && Blocked(item) !in s.threads
    {
      assert Balanced(s, ItemKey(item));
      NoOverflowNoneHeld(s, item);
    }
  }

  lemma PeerBooks(s: Sys, p: PeerRef)
    requires AllBalanced(s)
    ensures s.log.addCalls[p] == s.log.addLocks[p] + multiset(s.register)[p] + Sum(s.threads, AddKey(p))
    ensures s.log.removeCalls[p] == s.log.removeLocks[p] + multiset(s.unregister)[p] + Sum(s.threads, RemoveKey(p))
    ensures s.log.added[p] == s.log.connected[p] + Sum(s.threads, ConnectKey(p))
    ensures s.log.removed[p] == s.log.disconnected[p] + Sum(s.threads, DisconnectKey(p))
  {
    hide LaneCount, LaneOf, Sum;
    assert Balanced(s, AddKey(p)) && Balanced(s, RemoveKey(p));
    assert Balanced(s, ConnectKey(p)) && Balanced(s, DisconnectKey(p));
  }

  // Per peer: every call of addPeer and removePeer has run its locked section, is queued or
  // is under way; OnConnect calls minus OnDisconnect calls, counting those that are due, is
  // one if the peer is registered and zero if it is not; a disconnected peer is closed.
  lemma LifecycleIsAccountedFor(actions: seq<Action>, p: PeerRef)
    requires ValidRun(NewHub(), actions)
    ensures var s := Exec(NewHub(), actions);
      && s.log.addCalls[p] == s.log.addLocks[p] + multiset(s.register)[p] + Sum(s.threads, AddKey(p))
      && s.log.removeCalls[p] == s.log.removeLocks[p] + multiset(s.unregister)[p] + Sum(s.threads, RemoveKey(p))
      && s.log.connected[p] + Sum(s.threads, ConnectKey(p)) ==
           s.log.disconnected[p] + Sum(s.threads, DisconnectKey(p)) + (if p in s.reg.peers then 1 else 0)
      && (s.log.disconnected[p] > 0 ==> p in s.log.closed)
  {
    NewHubIsSafe();
    RunIsSafe(NewHub(), actions);
    hide Exec, ValidRun, NewHub, QueuesInv, OneLoop, DoneInv, IndexInv, HandlersInv, PlannedOnce, AllBalanced, Sum;
    PeerBooks(Exec(NewHub(), actions), p);
  }

  lemma MirrorAt(r: Registry<PeerRef, HandlerRef>, p: PeerRef, c: Channel)
    requires Mirror(r)
    ensures c in Subs(r, p) <==> p in PeersOf(r, c)
  {}

  // The tables in every reachable state: the two indices mirror each other, no entry is
  // empty, and the counts are those of the plain relation.
  lemma TablesAgree(actions: seq<Action>, p: PeerRef, c: Channel)
    requires ValidRun(NewHub(), actions)
    ensures var r := Exec(NewHub(), actions).reg;
      && IndexInv(r)
      && (c in Subs(r, p) <==> p in PeersOf(r, c))
      && |ActiveChannels(r)| == |CountedAsPeers(r)| + |CountedAsHandlers(r)|
      && (forall d | d in ActiveChannels(r) :: SubscriberCount(r, d) != 0)
  {
    NewHubIsSafe();
    RunIsSafe(NewHub(), actions);
    hide Exec, ValidRun, Mirror, NoEmptyEntry, ActiveChannels, CountedAsPeers, CountedAsHandlers, SubscriberCount, Subs, PeersOf;
    MirrorAt(Exec(NewHub(), actions).reg, p, c);
    ActiveWhenNoEmptyEntry(Exec(NewHub(), actions).reg);
  }

  // Handlers in every reachable state with fewer than 2^64 subscriptions so far: a handler is
  // found under its token exactly from its subscription to its closure's first call, and no
  // two subscriptions, of whatever kind, share an ID.
  lemma HandlersAreExact(actions: seq<Action>, t: Token, u: Token)
    requires ValidRun(NewHub(), actions)
    requires |Exec(NewHub(), actions).grants.granted| < UINT64_RANGE
    ensures var s := Exec(NewHub(), actions);
      && Lookup(s.reg, t) == (if t in s.grants.granted && t !in s.grants.fired then Some(s.grants.granted[t]) else None)
      && (t in s.grants.granted && u in s.grants.granted && t != u ==> t.id != u.id)
  {
    NewHubIsSafe();
    RunIsSafe(NewHub(), actions);
    var s := Exec(NewHub(), actions);
    assert HandlersMatch(s.reg, s.grants);
    assert Lookup(s.reg, t) == Live(s.grants, t);
  }

  // ---- the deferred cleanup of Run ----

  // No peer is added and none subscribes at this step.
  predicate Quiet(s: Sys, a: Action) {
    !a.DoSubscribePeer? && !(InsideCall(s, a) && s.threads[a.i].call.AddLock?)
  }

  predicate QuietRun(s: Sys, actions: seq<Action>)
    requires ValidRun(s, actions)
    decreases |actions|
  {
    actions == [] || (Quiet(s, actions[0]) && QuietRun(Step(s, actions[0]), actions[1..]))
  }

  // A thread in the deferred function of Run, or past it.
  predicate Cleans(t: Thread) {
    match t
    case At(after) => after.Cleanup?
    case In(call, after) => after.Cleanup? && (call.RemoveLock? || call.Closing? || call.Disconnecting?)
    case RunDone => true
    case _ => false
  }

  // The peers that it has not locked yet.
  function StillToRemove(t: Thread): set<PeerRef> {
    if (t.At? || t.In?) && t.after.Cleanup?
    then (set p | p in t.after.todo) + if t.In? && t.call.RemoveLock? then {t.call.p} else {}
    else {}
  }

  ghost predicate InNoChannel(r: Registry<PeerRef, HandlerRef>, p: PeerRef) {
    forall c :: p !in PeersOf(r, c)
  }

  ghost predicate Cleaning(s: Sys, i: nat, peers: set<PeerRef>) {
    && i < |s.threads|
    && s.reg.peers <= StillToRemove(s.threads[i])
    && Cleans(s.threads[i])
    && (forall p | p in peers && p !in s.reg.peers :: InNoChannel(s.reg, p))
  }

  // Quiet steps only take peers away.
  ghost predicate Shrinks(r: Registry<PeerRef, HandlerRef>, r': Registry<PeerRef, HandlerRef>) {
    && r'.peers <= r.peers
    && (forall p | InNoChannel(r, p) || (p in r.peers && p !in r'.peers) :: InNoChannel(r', p))
  }

  lemma TablesShrink(r: Registry<PeerRef, HandlerRef>, p: PeerRef, c: Channel)
    ensures Shrinks(r, UnsubscribePeer(r, p, c)) && Shrinks(r, RemovePeer(r, p))
  {
    forall q | InNoChannel(r, q) ensures InNoChannel(UnsubscribePeer(r, p, c), q) && InNoChannel(RemovePeer(r, p), q) {
      forall d ensures q !in PeersOf(UnsubscribePeer(r, p, c), d) && q !in PeersOf(RemovePeer(r, p), d) {
        assert q !in PeersOf(r, d);
      }
    }
  }

  lemma QuietShrinks(s: Sys, a: Action)
    requires Enabled(s, a) && Quiet(s, a)
    ensures Shrinks(s.reg, Step(s, a).reg)
  {
    if a.DoUnsubscribePeer? {
      TablesShrink(s.reg, a.p, a.c);
    } else if InsideCall(s, a) {
      QuietCallShrinks(s, a.i);
      hide AdvanceCall, Shrinks;
    } else if a.DoSubscribe? || a.DoUnsubscribe? {
      HandlerCallKeepsPeers(s.reg, if a.DoSubscribe? then a.kind else ForBroadcasts, if a.DoSubscribe? then a.h else 0,
                            if a.DoUnsubscribe? then a.t else BroadcastToken(0));
    } else {
      OthersTouchNothing(s, a);
      hide Step, Enabled;
    }
  }

  lemma HandlerCallKeepsPeers(r: Registry<PeerRef, HandlerRef>, kind: Kind, h: HandlerRef, t: Token)
    ensures Shrinks(r, Subscribe(r, kind, h).0) && Shrinks(r, Unsubscribe(r, t))
  {
    var r1, r2 := Subscribe(r, kind, h).0, Unsubscribe(r, t);
    assert r1.channels == r2.channels == r.channels && r1.peers == r2.peers == r.peers;
    forall q | InNoChannel(r, q) ensures InNoChannel(r1, q) && InNoChannel(r2, q) {
      forall d ensures q !in PeersOf(r1, d) && q !in PeersOf(r2, d) {
        assert q !in PeersOf(r, d);
      }
    }
  }

  lemma QuietCallShrinks(s: Sys, i: nat)
    requires i < |s.threads| && CanProceed(s, s.threads[i]) && s.threads[i].In? && !s.threads[i].call.AddLock?
    ensures Shrinks(s.reg, AdvanceCall(s, i, s.threads[i].call, s.threads[i].after).reg)
  {
    if s.threads[i].call.RemoveLock? {
      TablesShrink(s.reg, s.threads[i].call.p, []);
    }
    hide RemovePeer;
  }

  // The cleaning thread's own step removes the peer it locks.
  lemma CleanerStep(s: Sys, i: nat, peers: set<PeerRef>)
    requires Cleaning(s, i, peers) && CanProceed(s, s.threads[i])
    ensures var s' := Advance(s, i);
      && Cleans(s'.threads[i])
      && s'.reg.peers <= StillToRemove(s'.threads[i])
  {
    hide AddPeer, WithLane, LaneOf, Offer, Push;
    var t := s.threads[i];
    if t.At? && t.after.todo != [] {
      assert t.after.todo == [t.after.todo[0]] + t.after.todo[1..];
    }
  }

  lemma ClientKeepsThread(s: Sys, a: Action, i: nat)
    requires Enabled(s, a) && i < |s.threads| && Actor(a) != Some(i)
    ensures i < |Step(s, a).threads| && Step(s, a).threads[i] == s.threads[i]
  {
    if Actor(a).Some? {
      ActorStep(s, a);
    } else {
      ClientStep(s, a);
    }
  }

  lemma CleaningStep(s: Sys, a: Action, i: nat, peers: set<PeerRef>)
    requires Enabled(s, a) && Quiet(s, a) && Cleaning(s, i, peers)
    ensures Cleaning(Step(s, a), i, peers)
  {
    QuietShrinks(s, a);
    if Actor(a) == Some(i) {
      assert a.Proceed?;
      ActorStep(s, a);
      CleanerStep(s, i, peers);
      hide Advance, Cleans, StillToRemove;
    } else {
      ClientKeepsThread(s, a, i);
      hide Step, Enabled, Quiet, Cleans, StillToRemove;
    }
  }

  lemma {:induction false} CleaningRun(s: Sys, actions: seq<Action>, i: nat, peers: set<PeerRef>)
    requires ValidRun(s, actions) && QuietRun(s, actions) && Cleaning(s, i, peers)
    ensures Cleaning(Exec(s, actions), i, peers)
    decreases |actions|
  {
    hide Cleaning, Enabled, Step, Quiet;
    if actions != [] {
      CleaningStep(s, actions[0], i, peers);
      CleaningRun(Step(s, actions[0]), actions[1..], i, peers);
    }
  }

  // Run's cleanup, whatever the other threads do meanwhile short of adding or subscribing a
  // peer: when Run has returned, the hub has no peer, and none of those it had when Run
  // stopped is in a channel.
  lemma CleanupIsComplete(s: Sys, i: nat, order: seq<PeerRef>, actions: seq<Action>)
    requires IndexInv(s.reg) && Enabled(s, LoopStop(i, order))
    requires var s0 := Step(s, LoopStop(i, order)); ValidRun(s0, actions) && QuietRun(s0, actions)
    ensures var s' := Exec(Step(s, LoopStop(i, order)), actions);
      i < |s'.threads| && s'.threads[i] == RunDone ==>
        s'.reg.peers == {} && forall p, c | p in s.reg.peers :: p !in PeersOf(s'.reg, c)
  {
    var s0 := Step(s, LoopStop(i, order));
    assert s0.threads[i] == At(Cleanup(order)) && s0.reg == s.reg;
    forall p | p in s.reg.peers ensures p in order {
      assert p in multiset(s.reg.peers) && p in multiset(order);
    }
    assert Cleaning(s0, i, s.reg.peers);
    CleaningRun(s0, actions, i, s.reg.peers);
    hide Step, Enabled, Exec, ValidRun, QuietRun;
    var s' := Exec(s0, actions);
    forall p, c | s'.threads[i] == RunDone && p in s.reg.peers ensures p !in PeersOf(s'.reg, c) {
      assert p !in s'.reg.peers;
      assert InNoChannel(s'.reg, p);
    }
  }

  // ---- composing runs ----

  lemma OneStep(s: Sys, a: Action)
    requires Enabled(s, a)
    ensures ValidRun(s, [a]) && Exec(s, [a]) == Step(s, a)
  {
    hide Enabled, Step;
    assert [a][1..] == [];
    assert ValidRun(Step(s, a), []) && Exec(Step(s, a), []) == Step(s, a);
  }

  lemma {:induction false} RunsCompose(s: Sys, xs: seq<Action>, ys: seq<Action>)
    requires ValidRun(s, xs) && ValidRun(Exec(s, xs), ys)
    ensures ValidRun(s, xs + ys) && Exec(s, xs + ys) == Exec(Exec(s, xs), ys)
    decreases |xs|
  {
    hide Enabled, Step;
    if xs == [] {
      assert xs + ys == ys;
    } else {
      assert (xs + ys)[1..] == xs[1..] + ys;
      RunsCompose(Step(s, xs[0]), xs[1..], ys);
    }
  }

  lemma TwoSteps(s: Sys, a: Action, b: Action)
    requires Enabled(s, a) && Enabled(Step(s, a), b)
    ensures ValidRun(s, [a, b]) && Exec(s, [a, b]) == Step(Step(s, a), b)
  {
    OneStep(s, a);
    OneStep(Step(s, a), b);
    RunsCompose(s, [a], [b]);
    assert [a] + [b] == [a, b];
  }
}
