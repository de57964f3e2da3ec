// What every interleaving of hubruns.dfy keeps.
module HubInvariants {
  import opened Bytes
  import opened Registries
  import opened HubRuns

  // ---- conservation ----

  // How often it was begun, and finished or given up.
  function Begun(s: Sys, k: Key): nat {
    match k
    case OfferKey(item) => s.log.requested[item]
    case ItemKey(item) => multiset(LaneOf(s, item).accepted)[item]
    case ReadKey(item) => multiset(LaneOf(s, item).processed)[item]
    case AddKey(p) => s.log.addCalls[p]
    case RemoveKey(p) => s.log.removeCalls[p]
    case ConnectKey(p) => s.log.added[p]
    case DisconnectKey(p) => s.log.removed[p]
    case EffectKey(e) => s.log.planned[e]
  }

  function LaneCount(lane: Lane, item: Item): nat {
    multiset(lane.processed)[item] + multiset(lane.queue)[item] + lane.discarded[item]
  }

  function Ended(s: Sys, k: Key): nat {
    match k
    case OfferKey(item) => multiset(LaneOf(s, item).accepted)[item]
    case ItemKey(item) => LaneCount(LaneOf(s, item), item)
    case ReadKey(item) => s.log.read[item]
    case AddKey(p) => s.log.addLocks[p] + multiset(s.register)[p]
    case RemoveKey(p) => s.log.removeLocks[p] + multiset(s.unregister)[p]
    case ConnectKey(p) => s.log.connected[p]
    case DisconnectKey(p) => s.log.disconnected[p]
    case EffectKey(e) => s.log.performed[e]
  }

  // Everything begun is ended, queued, or held by a thread; nothing else is.
  ghost predicate Balanced(s: Sys, k: Key) {
    Begun(s, k) == Ended(s, k) + Sum(s.threads, k)
  }

  // ---- what each change of the state begins and ends ----

  // The change from s to s' begins b and ends e of k.
  ghost predicate Delta(s: Sys, s': Sys, k: Key, b: int, e: int) {
    Begun(s', k) == Begun(s, k) + b && Ended(s', k) == Ended(s, k) + e
  }

  lemma DeltaAdds(s: Sys, m: Sys, s': Sys, k: Key, b: int, e: int, b': int, e': int)
    requires Delta(s, m, k, b, e) && Delta(m, s', k, b', e')
    ensures Delta(s, s', k, b + b', e + e')
  {
    hide Begun, Ended;
  }

  lemma SameBooks(s: Sys, s': Sys, k: Key)
    requires s'.log == s.log && s'.broadcasts == s.broadcasts && s'.publishes == s.publishes
    requires s'.register == s.register && s'.unregister == s.unregister
    ensures Begun(s', k) == Begun(s, k) && Ended(s', k) == Ended(s, k)
  {
    hide LaneCount;
  }

  lemma RequestedDelta(s: Sys, item: Item, k: Key)
    ensures Delta(s, Requested(s, item), k, Is(k, OfferKey(item)), 0)
  {
    hide LaneCount;
  }

  lemma ReadDelta(s: Sys, item: Item, k: Key)
    ensures Delta(s, Read(s, item), k, 0, Is(k, ReadKey(item)))
  {
    hide LaneCount;
  }

  lemma PlannedDelta(s: Sys, order: seq<Effect>, k: Key)
    ensures Delta(s, Planned(s, order), k, EffectsIn(order, k), 0)
  {
    hide LaneCount;
  }

  lemma PerformedDelta(s: Sys, e: Effect, k: Key)
    ensures Delta(s, Performed(s, e), k, 0, Is(k, EffectKey(e)))
  {
    hide LaneCount;
  }

  lemma AddCalledDelta(s: Sys, p: PeerRef, k: Key)
    ensures Delta(s, AddCalled(s, p), k, Is(k, AddKey(p)), 0)
  {
    hide LaneCount;
  }

  lemma RemoveCalledDelta(s: Sys, peers: seq<PeerRef>, k: Key)
    ensures Delta(s, RemoveCalled(s, peers), k, RemovalsIn(peers, k), 0)
  {
    hide LaneCount;
  }

  lemma AddLockedDelta(s: Sys, p: PeerRef, k: Key)
    ensures Delta(s, AddLocked(s, p), k, if p in s.reg.peers then 0 else Is(k, ConnectKey(p)), Is(k, AddKey(p)))
  {
    hide LaneCount, AddPeer;
  }

  lemma RemoveLockedDelta(s: Sys, p: PeerRef, k: Key)
    ensures Delta(s, RemoveLocked(s, p), k, if p in s.reg.peers then Is(k, DisconnectKey(p)) else 0, Is(k, RemoveKey(p)))
  {
    hide LaneCount, RemovePeer;
  }

  lemma ConnectedDelta(s: Sys, p: PeerRef, k: Key)
    ensures Delta(s, Connected(s, p), k, 0, Is(k, ConnectKey(p)))
  {
    hide LaneCount;
  }

  lemma ClosedDelta(s: Sys, p: PeerRef, k: Key)
    ensures Delta(s, Closed(s, p), k, 0, 0)
  {
    hide LaneCount;
  }

  lemma DisconnectedDelta(s: Sys, p: PeerRef, k: Key)
    ensures Delta(s, Disconnected(s, p), k, 0, Is(k, DisconnectKey(p)))
  {
    hide LaneCount;
  }

  lemma RegisterPushDelta(s: Sys, p: PeerRef, k: Key)
    ensures Delta(s, s.(register := s.register + [p]), k, 0, Is(k, AddKey(p)))
    ensures Delta(s, s.(unregister := s.unregister + [p]), k, 0, Is(k, RemoveKey(p)))
  {
    hide LaneCount;
  }

  lemma FirstCounts<T>(xs: seq<T>, x: T)
    requires xs != []
    ensures multiset(xs)[x] == multiset(xs[1..])[x] + (if x == xs[0] then 1 else 0)
  {
    assert xs == [xs[0]] + xs[1..];
  }

  lemma FirstEffect(todo: seq<Effect>, k: Key)
    requires todo != []
    ensures EffectsIn(todo, k) == EffectsIn(todo[1..], k) + Is(k, EffectKey(todo[0]))
  {
    if k.EffectKey? {
      FirstCounts(todo, k.effect);
    }
  }

  lemma FirstRemoval(todo: seq<PeerRef>, k: Key)
    requires todo != []
    ensures RemovalsIn(todo, k) == RemovalsIn(todo[1..], k) + Is(k, RemoveKey(todo[0]))
  {
    if k.RemoveKey? {
      FirstCounts(todo, k.p);
    }
  }

  lemma RegisterPopDelta(s: Sys, k: Key)
    requires s.register != []
    ensures Delta(s, s.(register := s.register[1..]), k, 0, -(Is(k, AddKey(s.register[0])) as int))
  {
    hide LaneCount;
    if k.AddKey? {
      FirstCounts(s.register, k.p);
    }
  }

  lemma UnregisterPopDelta(s: Sys, k: Key)
    requires s.unregister != []
    ensures Delta(s, s.(unregister := s.unregister[1..]), k, 0, -(Is(k, RemoveKey(s.unregister[0])) as int))
  {
    hide LaneCount;
    if k.RemoveKey? {
      FirstCounts(s.unregister, k.p);
    }
  }

  // A change of one lane, in terms of what it does to the counts of that lane.
  lemma LaneDelta(s: Sys, item: Item, lane: Lane, k: Key, accepted: int, counted: int, processed: int)
    requires k.OfferKey? || k.ItemKey? || k.ReadKey? ==>
      var before := LaneOf(s, item);
      if k.item == item then
        && multiset(lane.accepted)[item] == multiset(before.accepted)[item] + accepted
        && LaneCount(lane, item) == LaneCount(before, item) + counted
        && multiset(lane.processed)[item] == multiset(before.processed)[item] + processed
      else
        && multiset(lane.accepted)[k.item] == multiset(before.accepted)[k.item]
        && LaneCount(lane, k.item) == LaneCount(before, k.item)
        && multiset(lane.processed)[k.item] == multiset(before.processed)[k.item]
    ensures Delta(s, WithLane(s, item, lane), k,
                  Is(k, ItemKey(item)) * accepted + Is(k, ReadKey(item)) * processed,
                  Is(k, OfferKey(item)) * accepted + Is(k, ItemKey(item)) * counted)
  {
    hide LaneCount;
  }

  lemma OfferDelta(s: Sys, item: Item, k: Key)
    ensures Delta(s, WithLane(s, item, Offer(LaneOf(s, item), item)), k, Is(k, ItemKey(item)),
                  Is(k, OfferKey(item)) + if |LaneOf(s, item).queue| < QUEUE_SIZE then Is(k, ItemKey(item)) else 0)
  {
    var lane := LaneOf(s, item);
    LaneDelta(s, item, Offer(lane, item), k, 1, if |lane.queue| < QUEUE_SIZE then 1 else 0, 0);
    hide LaneCount, Offer, WithLane, LaneOf;
  }

  lemma PushDelta(s: Sys, item: Item, k: Key)
    ensures Delta(s, WithLane(s, item, Push(LaneOf(s, item), item)), k, 0, Is(k, ItemKey(item)))
  {
    LaneDelta(s, item, Push(LaneOf(s, item), item), k, 0, 1, 0);
    hide LaneCount, Push, WithLane, LaneOf;
  }

  lemma GiveUpDelta(s: Sys, item: Item, k: Key)
    ensures Delta(s, WithLane(s, item, GiveUp(LaneOf(s, item), item)), k, 0, Is(k, ItemKey(item)))
  {
    LaneDelta(s, item, GiveUp(LaneOf(s, item), item), k, 0, 1, 0);
    hide LaneCount, GiveUp, WithLane, LaneOf;
  }

  lemma TakeDelta(s: Sys, item: Item, k: Key)
    requires LaneOf(s, item).queue != [] && LaneOf(s, item).queue[0] == item
    ensures Delta(s, WithLane(s, item, Take(LaneOf(s, item))), k, Is(k, ReadKey(item)), 0)
  {
    var lane := LaneOf(s, item);
    if k.OfferKey? || k.ItemKey? || k.ReadKey? {
      FirstCounts(lane.queue, k.item);
    }
    LaneDelta(s, item, Take(lane), k, 0, 0, 1);
    hide LaneCount, Take, WithLane, LaneOf;
  }

  // ---- every step keeps the books balanced ----

  // What a step begins, minus what it ends, is what its thread holds more than before.
  ghost predicate StepBalance(s: Sys, s': Sys, i: nat, k: Key)
    requires i < |s.threads| && i < |s'.threads|
  {
    Begun(s', k) + Holds(s.threads[i], k) + Ended(s, k) == Begun(s, k) + Ended(s', k) + Holds(s'.threads[i], k)
  }

  lemma SetBalance(s: Sys, m: Sys, i: nat, t: Thread, k: Key, b: int, e: int)
    requires i < |s.threads| == |m.threads| && Delta(s, m, k, b, e)
    requires b - e == Holds(t, k) - Holds(s.threads[i], k)
    ensures StepBalance(s, Set(m, i, t), i, k)
  {
    SameBooks(m, Set(m, i, t), k);
    hide Begun, Ended, Holds;
  }

  lemma DeliverBalance(s: Sys, i: nat, todo: seq<Effect>, after: After, k: Key)
    requires i < |s.threads| && s.threads[i] == In(Deliver(todo), after)
    ensures StepBalance(s, AdvanceCall(s, i, Deliver(todo), after), i, k)
  {
    hide Delta, AfterHolds, EffectsIn, Is, StepBalance, Begun, Ended;
    if todo == [] {
      EmptyLists(k);
      NoDelta(s, s, k);
      SetBalance(s, s, i, At(after), k, 0, 0);
    } else {
      PerformedDelta(s, todo[0], k);
      FirstEffect(todo, k);
      SetBalance(s, Performed(s, todo[0]), i, In(Deliver(todo[1..]), after), k, 0, Is(k, EffectKey(todo[0])));
    }
  }

  lemma NoDelta(s: Sys, s': Sys, k: Key)
    requires s'.log == s.log && s'.broadcasts == s.broadcasts && s'.publishes == s.publishes
    requires s'.register == s.register && s'.unregister == s.unregister
    ensures Delta(s, s', k, 0, 0)
  {
    SameBooks(s, s', k);
    hide Begun, Ended;
  }

  lemma EmptyLists(k: Key)
    ensures EffectsIn([], k) == 0 && RemovalsIn([], k) == 0
  {}

  lemma CallBalance(s: Sys, i: nat, call: Call, after: After, k: Key)
    requires i < |s.threads| && s.threads[i] == In(call, after) && !call.LookUp?
    ensures StepBalance(s, AdvanceCall(s, i, call, after), i, k)
  {
    hide Delta, AfterHolds, EffectsIn, Is, StepBalance, Begun, Ended;
    hide AddPeer, RemovePeer;
    match call
    case AddLock(p) =>
      AddLockedDelta(s, p, k);
      var known := p in s.reg.peers;
      SetBalance(s, AddLocked(s, p), i, if known then At(after) else In(Connecting(p), after), k,
                 if known then 0 else Is(k, ConnectKey(p)), Is(k, AddKey(p)));
    case Connecting(p) =>
      ConnectedDelta(s, p, k);
      SetBalance(s, Connected(s, p), i, At(after), k, 0, Is(k, ConnectKey(p)));
    case RemoveLock(p) =>
      RemoveLockedDelta(s, p, k);
      var known := p in s.reg.peers;
      SetBalance(s, RemoveLocked(s, p), i, if known then In(Closing(p), after) else At(after), k,
                 if known then Is(k, DisconnectKey(p)) else 0, Is(k, RemoveKey(p)));
    case Closing(p) =>
      ClosedDelta(s, p, k);
      SetBalance(s, Closed(s, p), i, In(Disconnecting(p), after), k, 0, 0);
    case Disconnecting(p) =>
      DisconnectedDelta(s, p, k);
      SetBalance(s, Disconnected(s, p), i, At(after), k, 0, Is(k, DisconnectKey(p)));
    case Deliver(todo) => DeliverBalance(s, i, todo, after, k);
  }

  lemma OfferingBalance(s: Sys, i: nat, k: Key)
    requires i < |s.threads| && s.threads[i].Offering?
    ensures StepBalance(s, Advance(s, i), i, k)
  {
    hide Delta, Is, StepBalance, Begun, Ended, Offer, WithLane;
    var item := s.threads[i].item;
    var room := |LaneOf(s, item).queue| < QUEUE_SIZE;
    hide LaneOf;
    OfferDelta(s, item, k);
    SetBalance(s, WithLane(s, item, Offer(LaneOf(s, item), item)), i, if room then At(Exit) else Blocked(item), k,
               Is(k, ItemKey(item)), Is(k, OfferKey(item)) + if room then Is(k, ItemKey(item)) else 0);
  }

  lemma BlockedBalance(s: Sys, i: nat, k: Key)
    requires i < |s.threads| && CanProceed(s, s.threads[i]) && s.threads[i].Blocked?
    ensures StepBalance(s, Advance(s, i), i, k)
  {
    hide Delta, Is, StepBalance, Begun, Ended, Push, WithLane, LaneOf;
    var item := s.threads[i].item;
    PushDelta(s, item, k);
    SetBalance(s, WithLane(s, item, Push(LaneOf(s, item), item)), i, At(Exit), k, 0, Is(k, ItemKey(item)));
  }

  lemma PublishingBalance(s: Sys, i: nat, k: Key)
    requires i < |s.threads| && s.threads[i].Publishing?
    ensures StepBalance(s, Advance(s, i), i, k)
  {
    hide Delta, Is, EffectsIn, StepBalance, Begun, Ended;
    var (todo, item) := (s.threads[i].todo, s.threads[i].item);
    if todo == [] {
      EmptyLists(k);
      NoDelta(s, s, k);
      SetBalance(s, s, i, Offering(item), k, 0, 0);
    } else {
      PerformedDelta(s, todo[0], k);
      FirstEffect(todo, k);
      SetBalance(s, Performed(s, todo[0]), i, Publishing(todo[1..], item), k, 0, Is(k, EffectKey(todo[0])));
    }
  }

  lemma CleanupBalance(s: Sys, i: nat, k: Key)
    requires i < |s.threads| && CanProceed(s, s.threads[i]) && s.threads[i].At?
    ensures StepBalance(s, Advance(s, i), i, k)
  {
    hide Delta, Is, RemovalsIn, StepBalance, Begun, Ended;
    var todo := s.threads[i].after.todo;
    if todo == [] {
      EmptyLists(k);
      NoDelta(s, s.(done := true), k);
      SetBalance(s, s.(done := true), i, RunDone, k, 0, 0);
    } else {
      NoDelta(s, s, k);
      FirstRemoval(todo, k);
      SetBalance(s, s, i, In(RemoveLock(todo[0]), Cleanup(todo[1..])), k, 0, 0);
    }
  }

  lemma RegisteringBalance(s: Sys, i: nat, k: Key)
    requires i < |s.threads| && s.threads[i].Registering?
    ensures StepBalance(s, Advance(s, i), i, k)
  {
    hide Delta, Is, StepBalance, Begun, Ended;
    var p := s.threads[i].p;
    if |s.register| < QUEUE_SIZE {
      RegisterPushDelta(s, p, k);
      SetBalance(s, s.(register := s.register + [p]), i, At(Exit), k, 0, Is(k, AddKey(p)));
    } else {
      NoDelta(s, s, k);
      SetBalance(s, s, i, In(AddLock(p), Exit), k, 0, 0);
    }
  }

  lemma UnregisteringBalance(s: Sys, i: nat, k: Key)
    requires i < |s.threads| && s.threads[i].Unregistering?
    ensures StepBalance(s, Advance(s, i), i, k)
  {
    hide Delta, Is, StepBalance, Begun, Ended;
    var p := s.threads[i].p;
    if |s.unregister| < QUEUE_SIZE {
      RegisterPushDelta(s, p, k);
      SetBalance(s, s.(unregister := s.unregister + [p]), i, At(Exit), k, 0, Is(k, RemoveKey(p)));
    } else {
      NoDelta(s, s, k);
      SetBalance(s, s, i, In(RemoveLock(p), Exit), k, 0, 0);
    }
  }

  lemma AdvanceBalance(s: Sys, i: nat, k: Key)
    requires i < |s.threads| && CanProceed(s, s.threads[i])
    ensures StepBalance(s, Advance(s, i), i, k)
  {
    hide StepBalance, AdvanceCall;
    match s.threads[i]
    case At(_) => CleanupBalance(s, i, k);
    case In(call, after) => CallBalance(s, i, call, after, k);
    case Publishing(_, _) => PublishingBalance(s, i, k);
    case Offering(_) => OfferingBalance(s, i, k);
    case Blocked(_) => BlockedBalance(s, i, k);
    case Registering(_) => RegisteringBalance(s, i, k);
    case Unregistering(_) => UnregisteringBalance(s, i, k);
  }

  lemma LoopTakeBalance(s: Sys, a: Action, k: Key)
    requires Enabled(s, a) && QueuesInv(s) && (a.LoopBroadcast? || a.LoopPublish?)
    ensures StepBalance(s, Step(s, a), a.i, k)
  {
    hide Delta, Is, StepBalance, Begun, Ended, Take;
    var lane := if a.LoopBroadcast? then s.broadcasts else s.publishes;
    var item := lane.queue[0];
    assert item in lane.queue;
    assert item.BroadcastItem? == a.LoopBroadcast?;
    TakeDelta(s, item, k);
    SetBalance(s, WithLane(s, item, Take(lane)), a.i, In(LookUp(item), Loop), k, Is(k, ReadKey(item)), 0);
  }

  lemma DiscardBalance(s: Sys, i: nat, k: Key)
    requires Enabled(s, Discard(i))
    ensures StepBalance(s, Step(s, Discard(i)), i, k)
  {
    hide Delta, Is, StepBalance, Begun, Ended, GiveUp, WithLane, LaneOf;
    var item := s.threads[i].item;
    GiveUpDelta(s, item, k);
    SetBalance(s, WithLane(s, item, GiveUp(LaneOf(s, item), item)), i, At(Exit), k, 0, Is(k, ItemKey(item)));
  }

  lemma ReadHandlersBalance(s: Sys, i: nat, item: Item, after: After, order: seq<Effect>, k: Key)
    requires i < |s.threads| && s.threads[i] == In(LookUp(item), after)
    ensures StepBalance(s, Set(Planned(Read(s, item), order), i, In(Deliver(order), after)), i, k)
  {
    hide Delta, Is, StepBalance, Begun, Ended, EffectsIn, AfterHolds, Read, Planned;
    ReadDelta(s, item, k);
    PlannedDelta(Read(s, item), order, k);
    DeltaAdds(s, Read(s, item), Planned(Read(s, item), order), k, 0, Is(k, ReadKey(item)), EffectsIn(order, k), 0);
    SameThreads(s, item, order);
    SetBalance(s, Planned(Read(s, item), order), i, In(Deliver(order), after), k, EffectsIn(order, k), Is(k, ReadKey(item)));
  }

  lemma SameThreads(s: Sys, item: Item, order: seq<Effect>)
    ensures Planned(Read(s, item), order).threads == s.threads
  {}

  lemma LoopStopBalance(s: Sys, i: nat, peers: seq<PeerRef>, k: Key)
    requires Enabled(s, LoopStop(i, peers))
    ensures StepBalance(s, Step(s, LoopStop(i, peers)), i, k)
  {
    var m := s.(running := false);
    assert s.threads[i] == At(Loop);
    hide Is, StepBalance, Begun, Ended, RemovalsIn, Lists, Delta;
    NoDelta(s, m, k);
    RemoveCalledDelta(m, peers, k);
    DeltaAdds(s, m, RemoveCalled(m, peers), k, 0, 0, RemovalsIn(peers, k), 0);
    SetBalance(s, RemoveCalled(m, peers), i, At(Cleanup(peers)), k, RemovalsIn(peers, k), 0);
  }

  lemma LoopRegisterBalance(s: Sys, i: nat, k: Key)
    requires Enabled(s, LoopRegister(i))
    ensures StepBalance(s, Step(s, LoopRegister(i)), i, k)
  {
    hide Delta, Is, StepBalance, Begun, Ended;
    RegisterPopDelta(s, k);
    SetBalance(s, s.(register := s.register[1..]), i, In(AddLock(s.register[0]), Loop), k, 0, -(Is(k, AddKey(s.register[0])) as int));
  }

  lemma LoopUnregisterBalance(s: Sys, i: nat, k: Key)
    requires Enabled(s, LoopUnregister(i))
    ensures StepBalance(s, Step(s, LoopUnregister(i)), i, k)
  {
    hide Delta, Is, StepBalance, Begun, Ended;
    UnregisterPopDelta(s, k);
    SetBalance(s, s.(unregister := s.unregister[1..]), i, In(RemoveLock(s.unregister[0]), Loop), k, 0,
               -(Is(k, RemoveKey(s.unregister[0])) as int));
  }

  lemma StepIsBalanced(s: Sys, a: Action, k: Key)
    requires Enabled(s, a) && QueuesInv(s) && Actor(a).Some?
    ensures var i := Actor(a).value;
      i < |s.threads| && i < |Step(s, a).threads| && StepBalance(s, Step(s, a), i, k)
  {
    ActorStep(s, a);
    hide StepBalance, QueuesInv, Lists, Read, Planned, RemoveCalled;
    match a
    case LoopStop(i, peers) => LoopStopBalance(s, i, peers, k);
    case LoopRegister(i) => LoopRegisterBalance(s, i, k);
    case LoopUnregister(i) => LoopUnregisterBalance(s, i, k);
    case LoopBroadcast(_) => LoopTakeBalance(s, a, k);
    case LoopPublish(_) => LoopTakeBalance(s, a, k);
    case ReadHandlers(i, order) => ReadHandlersBalance(s, i, s.threads[i].call.item, s.threads[i].after, order, k);
    case Discard(i) => DiscardBalance(s, i, k);
    case Proceed(i) => AdvanceBalance(s, i, k);
  }

  lemma ActorBalanced(s: Sys, a: Action, k: Key)
    requires Enabled(s, a) && QueuesInv(s) && Balanced(s, k) && Actor(a).Some?
    ensures Balanced(Step(s, a), k)
  {
    hide Step, Enabled, QueuesInv, Begun, Ended, Holds, Sum;
    ActorStep(s, a);
    StepIsBalanced(s, a, k);
    SumUpdate(s.threads, Actor(a).value, Step(s, a).threads[Actor(a).value], k);
  }

  // A client call that starts a thread begins just what the thread holds.
  lemma SpawnBalanced(s: Sys, m: Sys, t: Thread, k: Key)
    requires Balanced(s, k) && m.threads == s.threads && Delta(s, m, k, Holds(t, k), 0)
    ensures Balanced(Spawn(m, t), k)
  {
    SameBooks(m, Spawn(m, t), k);
    assert (s.threads + [t])[..|s.threads|] == s.threads;
    hide Begun, Ended, Holds;
  }

  lemma QuietClient(s: Sys, a: Action, k: Key)
    requires Enabled(s, a) && Actor(a).None? && Step(s, a).threads == s.threads && Balanced(s, k)
    ensures Balanced(Step(s, a), k)
  {
    var s' := Step(s, a);
    QuietClientBooks(s, a);
    SameBooks(s, s', k);
    hide Begun, Ended, Sum, Step;
  }

  lemma QuietClientBooks(s: Sys, a: Action)
    requires Enabled(s, a) && Actor(a).None? && Step(s, a).threads == s.threads
    ensures var s' := Step(s, a);
      && s'.log == s.log && s'.broadcasts == s.broadcasts && s'.publishes == s.publishes
      && s'.register == s.register && s'.unregister == s.unregister
  {
    hide Lists, NobodyListens, Subscribe, SubscribePeer, UnsubscribePeer, Unsubscribe, Grant;
  }

  lemma ClientBalanced(s: Sys, a: Action, k: Key)
    requires Enabled(s, a) && Balanced(s, k) && Actor(a).None?
    ensures Balanced(Step(s, a), k)
  {
    if Step(s, a).threads == s.threads {
      QuietClient(s, a, k);
    } else if a.BeginPublish? {
      PublishingClient(s, a.item, a.order, k);
      hide Balanced;
    } else {
      SpawningClient(s, a, k);
    }
  }

  lemma PublishingClient(s: Sys, item: Item, order: seq<Effect>, k: Key)
    requires Balanced(s, k)
    ensures Balanced(Spawn(Planned(Requested(s, item), order), Publishing(order, item)), k)
  {
    hide Balanced, Begun, Ended, Is, Delta, EffectsIn;
    RequestedDelta(s, item, k);
    PlannedDelta(Requested(s, item), order, k);
    DeltaAdds(s, Requested(s, item), Planned(Requested(s, item), order), k, Is(k, OfferKey(item)), 0, EffectsIn(order, k), 0);
    SpawnBalanced(s, Planned(Requested(s, item), order), Publishing(order, item), k);
  }

  lemma SpawningClient(s: Sys, a: Action, k: Key)
    requires Enabled(s, a) && Balanced(s, k) && Actor(a).None? && Step(s, a).threads != s.threads && !a.BeginPublish?
    ensures Balanced(Step(s, a), k)
  {
    hide Balanced, Begun, Ended, Is, Delta, EffectsIn, RemovalsIn, Lists, NobodyListens;
    match a
    case StartRun =>
      NoDelta(s, s.(running := true), k);
      SpawnBalanced(s, s.(running := true), At(Loop), k);
    case BeginBroadcast(frame, notify) =>
      var item := BroadcastItem(frame, notify);
      RequestedDelta(s, item, k);
      SpawnBalanced(s, Requested(s, item), Offering(item), k);
    case BeginAdd(p) =>
      AddCalledDelta(s, p, k);
      SpawnBalanced(s, AddCalled(s, p), if s.running then Registering(p) else In(AddLock(p), Exit), k);
    case BeginRemove(p) =>
      RemoveCalledDelta(s, [p], k);
      OneRemoval(p, k);
      SpawnBalanced(s, RemoveCalled(s, [p]), if s.running then Unregistering(p) else In(RemoveLock(p), Exit), k);
    case _ =>
  }

  lemma OneRemoval(p: PeerRef, k: Key)
    ensures RemovalsIn([p], k) == Is(k, RemoveKey(p))
  {}

  lemma BalancedStep(s: Sys, a: Action, k: Key)
    requires Enabled(s, a) && QueuesInv(s) && Balanced(s, k)
    ensures Balanced(Step(s, a), k)
  {
    if Actor(a).Some? {
      ActorBalanced(s, a, k);
    } else {
      ClientBalanced(s, a, k);
    }
  }

  ghost predicate AllBalanced(s: Sys) {
    forall k: Key :: Balanced(s, k)
  }

  // ---- bounded queues and order ----

  // A lane holds its own kind of items, and until its queue first overflows it is a FIFO
  // log: what was accepted is what was processed followed by what is queued.
  ghost predicate LaneInv(lane: Lane, broadcast: bool) {
    && |lane.queue| <= QUEUE_SIZE
    && (!lane.overflowed ==> lane.accepted == lane.processed + lane.queue)
    && (forall item: Item | item in lane.queue || item in lane.processed :: item.BroadcastItem? == broadcast)
  }

  ghost predicate QueuesInv(s: Sys) {
    && LaneInv(s.broadcasts, true) && LaneInv(s.publishes, false)
    && |s.register| <= QUEUE_SIZE && |s.unregister| <= QUEUE_SIZE
  }

  // Before the first overflow no goroutine holds an item and none was given up.
  lemma NoOverflowNoneHeld(s: Sys, item: Item)
    requires Balanced(s, ItemKey(item)) && QueuesInv(s) && !LaneOf(s, item).overflowed
    ensures LaneOf(s, item).discarded[item] == 0 && Sum(s.threads, ItemKey(item)) == 0
    ensures Blocked(item) !in s.threads
  {
    SumIsZeroIff(s.threads, ItemKey(item));
    forall i | 0 <= i < |s.threads| ensures s.threads[i] != Blocked(item) {
      assert Holds(s.threads[i], ItemKey(item)) == 0;
    }
  }

  // How a step treats the lane of the broadcasts, or of the publishes.
  ghost predicate LaneMove(s: Sys, broadcast: bool, after: Lane) {
    var before := if broadcast then s.broadcasts else s.publishes;
    || after == before
    || (exists item: Item :: item.BroadcastItem? == broadcast && after == Offer(before, item))
    || (exists item: Item :: item.BroadcastItem? == broadcast && Blocked(item) in s.threads &&
          after == Push(before, item) && |before.queue| < QUEUE_SIZE)
    || (before.queue != [] && after == Take(before))
    || (exists item: Item :: item.BroadcastItem? == broadcast && Blocked(item) in s.threads && s.done &&
          after == before.(discarded := before.discarded + multiset{item}))
  }

  lemma LaneMoves(s: Sys, a: Action)
    requires Enabled(s, a)
    ensures LaneMove(s, true, Step(s, a).broadcasts) && LaneMove(s, false, Step(s, a).publishes)
  {
    hide Lists, Offer, Push, Take, Subscribe, SubscribePeer, UnsubscribePeer, Unsubscribe, AdvanceCall, NobodyListens;
    match a
    case Proceed(i) => ProceedLaneMoves(s, i);
    case Discard(i) => assert Blocked(s.threads[i].item) in s.threads;
    case _ =>
  }

  lemma ProceedLaneMoves(s: Sys, i: nat)
    requires i < |s.threads| && CanProceed(s, s.threads[i])
    ensures LaneMove(s, true, Advance(s, i).broadcasts) && LaneMove(s, false, Advance(s, i).publishes)
  {
    hide Offer, Push, Take;
    match s.threads[i]
    case In(_, _) => CallKeepsLanes(s, i);
    case Blocked(item) => assert Blocked(item) in s.threads;
    case _ =>
  }

  lemma CallKeepsLanes(s: Sys, i: nat)
    requires i < |s.threads| && CanProceed(s, s.threads[i]) && s.threads[i].In?
    ensures var s' := AdvanceCall(s, i, s.threads[i].call, s.threads[i].after);
      s'.broadcasts == s.broadcasts && s'.publishes == s.publishes &&
      s'.register == s.register && s'.unregister == s.unregister
  {
    hide AddPeer, RemovePeer;
  }

  lemma TakeKeepsInv(lane: Lane, broadcast: bool)
    requires LaneInv(lane, broadcast) && lane.queue != []
    ensures LaneInv(Take(lane), broadcast)
  {
    assert lane.processed + lane.queue == (lane.processed + [lane.queue[0]]) + lane.queue[1..];
  }

  lemma OfferKeepsInv(lane: Lane, broadcast: bool, item: Item)
    requires LaneInv(lane, broadcast) && item.BroadcastItem? == broadcast
    ensures LaneInv(Offer(lane, item), broadcast)
    ensures lane.overflowed && |lane.queue| < QUEUE_SIZE ==> LaneInv(Push(lane, item), broadcast)
  {}

  lemma LaneMoveKeepsInv(s: Sys, broadcast: bool, after: Lane)
    requires LaneMove(s, broadcast, after) && QueuesInv(s)
    requires forall item | !LaneOf(s, item).overflowed :: Blocked(item) !in s.threads
    ensures LaneInv(after, broadcast)
  {
    var before := if broadcast then s.broadcasts else s.publishes;
    hide Offer, Push, Take;
    if before.queue != [] && after == Take(before) {
      TakeKeepsInv(before, broadcast);
    } else {
      forall item: Item | item.BroadcastItem? == broadcast
        ensures LaneInv(Offer(before, item), broadcast)
        ensures before.overflowed && |before.queue| < QUEUE_SIZE ==> LaneInv(Push(before, item), broadcast)
      {
        OfferKeepsInv(before, broadcast, item);
      }
    }
  }

  lemma QueuesStep(s: Sys, a: Action)
    requires Enabled(s, a) && QueuesInv(s) && AllBalanced(s)
    ensures QueuesInv(Step(s, a))
  {
    LaneMoves(s, a);
    forall item | !LaneOf(s, item).overflowed ensures Blocked(item) !in s.threads {
      assert Balanced(s, ItemKey(item));
      NoOverflowNoneHeld(s, item);
    }
    hide LaneInv, LaneMove, Enabled, Step;
    LaneMoveKeepsInv(s, true, Step(s, a).broadcasts);
    LaneMoveKeepsInv(s, false, Step(s, a).publishes);
    RegisterBounds(s, a);
  }

  lemma ProceedRegisterBounds(s: Sys, i: nat)
    requires i < |s.threads| && CanProceed(s, s.threads[i]) && |s.register| <= QUEUE_SIZE && |s.unregister| <= QUEUE_SIZE
    ensures |Advance(s, i).register| <= QUEUE_SIZE && |Advance(s, i).unregister| <= QUEUE_SIZE
  {
    if s.threads[i].In? {
      CallKeepsLanes(s, i);
    }
    hide Offer, Push, AdvanceCall, WithLane, LaneOf;
  }

  lemma RegisterBounds(s: Sys, a: Action)
    requires Enabled(s, a) && |s.register| <= QUEUE_SIZE && |s.unregister| <= QUEUE_SIZE
    ensures |Step(s, a).register| <= QUEUE_SIZE && |Step(s, a).unregister| <= QUEUE_SIZE
  {
    hide Lists, Take, Advance, Subscribe, SubscribePeer, UnsubscribePeer, Unsubscribe, NobodyListens, WithLane, LaneOf;
    if a.Proceed? {
      ProceedRegisterBounds(s, a.i);
    }
  }
}
