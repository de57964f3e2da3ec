// go/hub.go under concurrency: every goroutine that uses or runs the hub is a thread, and
// every locked section, channel operation or callback is one step. Runs are arbitrary
// interleavings of any number of threads.
module HubRuns {
  import opened Bytes
  import opened Registries

  const QUEUE_SIZE: nat := 256

  // Pointers to peers, and handler functions.
  type PeerRef = nat
  type HandlerRef = nat

  datatype Item =
    | BroadcastItem(frame: Frame, notify: bool)
    | PublishItem(channel: Channel, frame: Frame, notify: bool)

  // One delivery queue, with a record of what went through it.
  datatype Lane = Lane(
    queue: seq<Item>,
    accepted: seq<Item>,        // in the order of the non-blocking sends
    processed: seq<Item>,       // in the order Run took them
    discarded: multiset<Item>,  // given up by overflow goroutines
    overflowed: bool)           // some non-blocking send found the queue full

  // What a publish or a processed delivery does to the outside.
  datatype Effect = SendTo(peer: PeerRef, item: Item) | Invoke(token: Token, item: Item)

  // A function of the hub being executed, by whatever thread.
  datatype Call =
    | AddLock(p: PeerRef) | Connecting(p: PeerRef)                       // addPeer
    | RemoveLock(p: PeerRef) | Closing(p: PeerRef) | Disconnecting(p: PeerRef) // removePeer
    | LookUp(item: Item)                                     // a delivery, before its handlers are read
    | Deliver(todo: seq<Effect>)

  // What the thread does when its call returns.
  datatype After = Exit | Loop | Cleanup(todo: seq<PeerRef>)

  datatype Thread =
    | At(after: After)                            // Loop: in Run's select; Exit: finished
    | In(call: Call, after: After)
    | Publishing(todo: seq<Effect>, item: Item)   // between the snapshot and the enqueue
    | Offering(item: Item)                           // about to try the queue
    | Blocked(item: Item)                            // overflow goroutine
    | Registering(p: PeerRef) | Unregistering(p: PeerRef)        // saw the hub running, about to try a queue
    | RunDone                                        // a Run that closed done and returned

  datatype Sys = Sys(
    reg: Registry<PeerRef, HandlerRef>,
    running: bool,
    done: bool,
    broadcasts: Lane,
    publishes: Lane,
    register: seq<PeerRef>,
    unregister: seq<PeerRef>,
    threads: seq<Thread>,
    log: Log,
    grants: Grants<HandlerRef>)

  // What happened so far.
  datatype Log = Log(
    requested: multiset<Item>,                      // broadcasts, and publishes not cut short
    read: multiset<Item>,                           // deliveries whose handlers were read
    addCalls: multiset<PeerRef>, addLocks: multiset<PeerRef>,        // of addPeer, and done by it
    removeCalls: multiset<PeerRef>, removeLocks: multiset<PeerRef>,
    added: multiset<PeerRef>, removed: multiset<PeerRef>,            // changes of hub.peers
    connected: multiset<PeerRef>, disconnected: multiset<PeerRef>,   // callbacks made
    closed: set<PeerRef>,
    planned: multiset<Effect>, performed: multiset<Effect>)

  const NEW_LANE: Lane := Lane([], [], [], multiset{}, false)

  const NEW_LOG: Log :=
    Log(multiset{}, multiset{}, multiset{}, multiset{}, multiset{}, multiset{}, multiset{}, multiset{}, multiset{},
        multiset{}, {}, multiset{}, multiset{})

  function NewHub(): Sys {
    Sys(Empty(), false, false, NEW_LANE, NEW_LANE, [], [], [],
        NEW_LOG, Grants(map[], {}))
  }

  datatype Action =
    | StartRun
    | BeginBroadcast(frame: Frame, notify: bool)
    | BeginPublish(item: Item, order: seq<Effect>)
    | BeginAdd(p: PeerRef) | BeginRemove(p: PeerRef)
    | DoSubscribePeer(p: PeerRef, c: Channel, allowed: bool) | DoUnsubscribePeer(p: PeerRef, c: Channel)
    | DoSubscribe(kind: Kind, h: HandlerRef) | DoUnsubscribe(t: Token)
    // Run's select
    | LoopStop(i: nat, peers: seq<PeerRef>)
    | LoopRegister(i: nat) | LoopUnregister(i: nat) | LoopBroadcast(i: nat) | LoopPublish(i: nat)
    // the remaining steps of thread i
    | ReadHandlers(i: nat, order: seq<Effect>)
    | Discard(i: nat)
    | Proceed(i: nat)

  // ---- effects ----

  function PublishSends(r: Registry<PeerRef, HandlerRef>, item: Item): set<Effect>
    requires item.PublishItem?
  {
    set p | p in Targets(r, item.channel) :: SendTo(p, item)
  }

  // What processing a delivery does in this state of the tables.
  function Deliveries(r: Registry<PeerRef, HandlerRef>, item: Item): set<Effect> {
    match item
    case PublishItem(c, _, notify) => set t | t in Calls(r, c, notify) :: Invoke(t, item)
    case BroadcastItem(_, notify) =>
      (set p | p in r.peers :: SendTo(p, item)) + (set t | t in BroadcastCalls(r, notify) :: Invoke(t, item))
  }

  // Each effect once, in some order.
  predicate Lists<T(==)>(order: seq<T>, effects: set<T>) {
    multiset(order) == multiset(effects)
  }

  // ---- changes of the state ----

  function Offer(lane: Lane, item: Item): Lane {
    if |lane.queue| < QUEUE_SIZE then lane.(queue := lane.queue + [item], accepted := lane.accepted + [item])
    else lane.(accepted := lane.accepted + [item], overflowed := true)
  }

  function Push(lane: Lane, item: Item): Lane {
    lane.(queue := lane.queue + [item])
  }

  function GiveUp(lane: Lane, item: Item): Lane {
    lane.(discarded := lane.discarded + multiset{item})
  }

  function Take(lane: Lane): Lane
    requires lane.queue != []
  {
    lane.(queue := lane.queue[1..], processed := lane.processed + [lane.queue[0]])
  }

  function LaneOf(s: Sys, item: Item): Lane {
    if item.BroadcastItem? then s.broadcasts else s.publishes
  }

  function WithLane(s: Sys, item: Item, lane: Lane): (r: Sys)
    ensures r == s.(broadcasts := r.broadcasts, publishes := r.publishes)
  {
    if item.BroadcastItem? then s.(broadcasts := lane) else s.(publishes := lane)
  }

  function Spawn(s: Sys, t: Thread): Sys {
    s.(threads := s.threads + [t])
  }

  function Set(s: Sys, i: nat, t: Thread): Sys
    requires i < |s.threads|
  {
    s.(threads := s.threads[i := t])
  }

  // Entries in the log.

  function Requested(s: Sys, item: Item): Sys {
    s.(log := s.log.(requested := s.log.requested + multiset{item}))
  }

  function Read(s: Sys, item: Item): Sys {
    s.(log := s.log.(read := s.log.read + multiset{item}))
  }

  function Planned(s: Sys, order: seq<Effect>): Sys {
    s.(log := s.log.(planned := s.log.planned + multiset(order)))
  }

  function Performed(s: Sys, e: Effect): Sys {
    s.(log := s.log.(performed := s.log.performed + multiset{e}))
  }

  function AddCalled(s: Sys, p: PeerRef): Sys {
    s.(log := s.log.(addCalls := s.log.addCalls + multiset{p}))
  }

  function RemoveCalled(s: Sys, peers: seq<PeerRef>): Sys {
    s.(log := s.log.(removeCalls := s.log.removeCalls + multiset(peers)))
  }

  // The locked sections of addPeer and removePeer.
  function AddLocked(s: Sys, p: PeerRef): Sys {
    s.(reg := AddPeer(s.reg, p),
       log := s.log.(addLocks := s.log.addLocks + multiset{p},
                     added := s.log.added + if p in s.reg.peers then multiset{} else multiset{p}))
  }

  function RemoveLocked(s: Sys, p: PeerRef): Sys {
    s.(reg := RemovePeer(s.reg, p),
       log := s.log.(removeLocks := s.log.removeLocks + multiset{p},
                     removed := s.log.removed + if p in s.reg.peers then multiset{p} else multiset{}))
  }

  function Connected(s: Sys, p: PeerRef): Sys {
    s.(log := s.log.(connected := s.log.connected + multiset{p}))
  }

  function Closed(s: Sys, p: PeerRef): Sys {
    s.(log := s.log.(closed := s.log.closed + {p}))
  }

  function Disconnected(s: Sys, p: PeerRef): Sys {
    s.(log := s.log.(disconnected := s.log.disconnected + multiset{p}))
  }

  // ---- steps ----

  predicate InLoop(s: Sys, i: nat) {
    i < |s.threads| && s.threads[i].At? && s.threads[i].after.Loop?
  }

  predicate Enabled(s: Sys, a: Action) {
    match a
    case BeginPublish(item, order) => item.PublishItem? && Lists(order, PublishSends(s.reg, item))
    case DoUnsubscribe(t) => t in s.grants.granted
    case LoopStop(i, peers) => InLoop(s, i) && Lists(peers, s.reg.peers)
    case LoopRegister(i) => InLoop(s, i) && s.register != []
    case LoopUnregister(i) => InLoop(s, i) && s.unregister != []
    case LoopBroadcast(i) => InLoop(s, i) && s.broadcasts.queue != []
    case LoopPublish(i) => InLoop(s, i) && s.publishes.queue != []
    case ReadHandlers(i, order) =>
      i < |s.threads| && s.threads[i].In? && s.threads[i].call.LookUp? &&
      Lists(order, Deliveries(s.reg, s.threads[i].call.item))
    case Discard(i) => i < |s.threads| && s.threads[i].Blocked? && s.done
    case Proceed(i) => i < |s.threads| && CanProceed(s, s.threads[i])
    case _ => true
  }

  predicate CanProceed(s: Sys, t: Thread) {
    match t
    case At(after) => after.Cleanup?
    case In(call, _) => !call.LookUp?
    case Blocked(item) => |LaneOf(s, item).queue| < QUEUE_SIZE
    case RunDone => false
    case _ => true
  }

  function Step(s: Sys, a: Action): Sys
    requires Enabled(s, a)
  {
    match a
    case StartRun => if s.running then s else Spawn(s.(running := true), At(Loop))
    case BeginBroadcast(frame, notify) =>
      var item := BroadcastItem(frame, notify);
      if s.running then Spawn(Requested(s, item), Offering(item)) else s
    case BeginPublish(item, order) =>
      if !s.running || NobodyListens(s.reg, item.channel, item.notify) then s
      else Spawn(Planned(Requested(s, item), order), Publishing(order, item))
    case BeginAdd(p) => Spawn(AddCalled(s, p), if s.running then Registering(p) else In(AddLock(p), Exit))
    case BeginRemove(p) => Spawn(RemoveCalled(s, [p]), if s.running then Unregistering(p) else In(RemoveLock(p), Exit))
    case DoSubscribePeer(p, c, allowed) => s.(reg := SubscribePeer(s.reg, p, c, allowed))
    case DoUnsubscribePeer(p, c) => s.(reg := UnsubscribePeer(s.reg, p, c))
    case DoSubscribe(kind, h) =>
      var (reg, t) := Subscribe(s.reg, kind, h);
      s.(reg := reg, grants := Grant(s.grants, t, h))
    case DoUnsubscribe(t) =>
      if t in s.grants.fired then s
      else s.(reg := Unsubscribe(s.reg, t), grants := s.grants.(fired := s.grants.fired + {t}))
    case LoopStop(i, peers) => Set(RemoveCalled(s.(running := false), peers), i, At(Cleanup(peers)))
    case LoopRegister(i) => Set(s.(register := s.register[1..]), i, In(AddLock(s.register[0]), Loop))
    case LoopUnregister(i) => Set(s.(unregister := s.unregister[1..]), i, In(RemoveLock(s.unregister[0]), Loop))
    case LoopBroadcast(i) => Set(s.(broadcasts := Take(s.broadcasts)), i, In(LookUp(s.broadcasts.queue[0]), Loop))
    case LoopPublish(i) => Set(s.(publishes := Take(s.publishes)), i, In(LookUp(s.publishes.queue[0]), Loop))
    case ReadHandlers(i, order) =>
      Set(Planned(Read(s, s.threads[i].call.item), order), i, In(Deliver(order), s.threads[i].after))
    case Discard(i) =>
      var item := s.threads[i].item;
      Set(WithLane(s, item, GiveUp(LaneOf(s, item), item)), i, At(Exit))
    case Proceed(i) => Advance(s, i)
  }

  function Advance(s: Sys, i: nat): (r: Sys)
    requires i < |s.threads| && CanProceed(s, s.threads[i])
    ensures |r.threads| == |s.threads| && r.threads == s.threads[i := r.threads[i]]
  {
    match s.threads[i]
    case At(after) =>
      // the deferred function of Run: remove the peers it saw, then close done
      if after.todo == [] then Set(s.(done := true), i, RunDone)
      else Set(s, i, In(RemoveLock(after.todo[0]), Cleanup(after.todo[1..])))
    case In(call, after) => AdvanceCall(s, i, call, after)
    case Publishing(todo, item) =>
      if todo == [] then Set(s, i, Offering(item)) else Set(Performed(s, todo[0]), i, Publishing(todo[1..], item))
    case Offering(item) =>
      var lane := LaneOf(s, item);
      Set(WithLane(s, item, Offer(lane, item)), i, if |lane.queue| < QUEUE_SIZE then At(Exit) else Blocked(item))
    case Blocked(item) => Set(WithLane(s, item, Push(LaneOf(s, item), item)), i, At(Exit))
    case Registering(p) =>
      if |s.register| < QUEUE_SIZE then Set(s.(register := s.register + [p]), i, At(Exit))
      else Set(s, i, In(AddLock(p), Exit))
    case Unregistering(p) =>
      if |s.unregister| < QUEUE_SIZE then Set(s.(unregister := s.unregister + [p]), i, At(Exit))
      else Set(s, i, In(RemoveLock(p), Exit))
  }

  function AdvanceCall(s: Sys, i: nat, call: Call, after: After): (r: Sys)
    requires i < |s.threads| && !call.LookUp?
    ensures |r.threads| == |s.threads| && r.threads == s.threads[i := r.threads[i]]
  {
    match call
    case AddLock(p) => Set(AddLocked(s, p), i, if p in s.reg.peers then At(after) else In(Connecting(p), after))
    case Connecting(p) => Set(Connected(s, p), i, At(after))
    case RemoveLock(p) => Set(RemoveLocked(s, p), i, if p in s.reg.peers then In(Closing(p), after) else At(after))
    case Closing(p) => Set(Closed(s, p), i, In(Disconnecting(p), after))
    case Disconnecting(p) => Set(Disconnected(s, p), i, At(after))
    case Deliver(todo) =>
      if todo == [] then Set(s, i, At(after)) else Set(Performed(s, todo[0]), i, In(Deliver(todo[1..]), after))
  }

  // ---- runs ----

  predicate ValidRun(s: Sys, actions: seq<Action>)
    decreases |actions|
  {
    actions == [] || (Enabled(s, actions[0]) && ValidRun(Step(s, actions[0]), actions[1..]))
  }

  function Exec(s: Sys, actions: seq<Action>): Sys
    requires ValidRun(s, actions)
    decreases |actions|
  {
    if actions == [] then s else Exec(Step(s, actions[0]), actions[1..])
  }

  // ---- what the threads still hold ----

  // Something that is begun at one step and finished at a later one, maybe by another
  // thread: a requested item until it is accepted, an accepted one until it is processed, a
  // processed one until its handlers are read, an effect that was decided on, a call of
  // addPeer or removePeer, a callback that is due.
  datatype Key =
    | OfferKey(item: Item) | ItemKey(item: Item) | ReadKey(item: Item) | EffectKey(effect: Effect)
    | AddKey(p: PeerRef) | RemoveKey(p: PeerRef) | ConnectKey(p: PeerRef) | DisconnectKey(p: PeerRef)

  function Is(k: Key, key: Key): nat {
    if k == key then 1 else 0
  }

  function EffectsIn(todo: seq<Effect>, k: Key): nat {
    if k.EffectKey? then multiset(todo)[k.effect] else 0
  }

  function RemovalsIn(todo: seq<PeerRef>, k: Key): nat {
    if k.RemoveKey? then multiset(todo)[k.p] else 0
  }

  // How often a thread is in the middle of it.
  function Holds(t: Thread, k: Key): nat {
    match t
    case At(after) => AfterHolds(after, k)
    case In(call, after) => CallHolds(call, k) + AfterHolds(after, k)
    case Publishing(todo, item) => EffectsIn(todo, k) + Is(k, OfferKey(item))
    case Offering(item) => Is(k, OfferKey(item))
    case Blocked(item) => Is(k, ItemKey(item))
    case Registering(p) => Is(k, AddKey(p))
    case Unregistering(p) => Is(k, RemoveKey(p))
    case RunDone => 0
  }

  function AfterHolds(after: After, k: Key): nat {
    if after.Cleanup? then RemovalsIn(after.todo, k) else 0
  }

  function CallHolds(call: Call, k: Key): nat {
    match call
    case AddLock(p) => Is(k, AddKey(p))
    case Connecting(p) => Is(k, ConnectKey(p))
    case RemoveLock(p) => Is(k, RemoveKey(p))
    case Closing(p) => Is(k, DisconnectKey(p))
    case Disconnecting(p) => Is(k, DisconnectKey(p))
    case LookUp(item) => Is(k, ReadKey(item))
    case Deliver(todo) => EffectsIn(todo, k)
  }

  function Sum(threads: seq<Thread>, k: Key): nat {
    if threads == [] then 0 else Sum(threads[..|threads| - 1], k) + Holds(threads[|threads| - 1], k)
  }

  lemma {:induction false} SumUpdate(threads: seq<Thread>, i: nat, t: Thread, k: Key)
    requires i < |threads|
    ensures Sum(threads[i := t], k) + Holds(threads[i], k) == Sum(threads, k) + Holds(t, k)
  {
    hide Holds;
    var n := |threads| - 1;
    if i == n {
      assert threads[i := t][..n] == threads[..n];
    } else {
      SumUpdate(threads[..n], i, t, k);
      assert threads[i := t][..n] == threads[..n][i := t];
    }
  }

  lemma {:induction false} SumIsZeroIff(threads: seq<Thread>, k: Key)
    ensures Sum(threads, k) == 0 <==> forall i | 0 <= i < |threads| :: Holds(threads[i], k) == 0
  {
    hide Holds;
    if threads != [] {
      SumIsZeroIff(threads[..|threads| - 1], k);
    }
  }

  // The thread that takes the step; client calls that only start a thread have none.
  function Actor(a: Action): Option<nat> {
    match a
    case LoopStop(i, _) => Some(i)
    case LoopRegister(i) => Some(i)
    case LoopUnregister(i) => Some(i)
    case LoopBroadcast(i) => Some(i)
    case LoopPublish(i) => Some(i)
    case ReadHandlers(i, _) => Some(i)
    case Discard(i) => Some(i)
    case Proceed(i) => Some(i)
    case _ => None
  }

  lemma ActorStep(s: Sys, a: Action)
    requires Enabled(s, a) && Actor(a).Some?
    ensures var i := Actor(a).value;
      i < |s.threads| && |Step(s, a).threads| == |s.threads| &&
      Step(s, a).threads == s.threads[i := Step(s, a).threads[i]]
  {
    hide Advance, AdvanceCall, Take, WithLane, Lists, CanProceed;
  }

  lemma ClientStep(s: Sys, a: Action)
    requires Enabled(s, a) && Actor(a).None?
    ensures var n := |s.threads|; var t := Step(s, a).threads;
      t == s.threads || (|t| == n + 1 && t == s.threads + [t[n]] && t[..n] == s.threads)
  {}
}
