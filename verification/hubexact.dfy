// What a run of the hub does, counted from its calls and from who listens when they are made:
// no publish is left unsent and no handler uncalled.
module HubExact {
  import opened Bytes
  import opened Registries
  import opened HubRuns
  import opened HubInvariants
  import opened HubSafety

  // ---- who listens ----

  // The subscriptions whose handlers get the item.
  predicate Matches(t: Token, item: Item) {
    match t
    case ChannelToken(c, _) => c == WILDCARD || (item.PublishItem? && c == item.channel)
    case BroadcastToken(_) => item.BroadcastItem? && item.notify
    case PublishToken(_) => item.PublishItem? && item.notify
  }

  // The recipient of the effect wants the item: a peer by its own subscriptions, or for a
  // broadcast by being registered, and a handler by what it was subscribed to.
  predicate Listens(r: Registry<PeerRef, HandlerRef>, e: Effect) {
    match e
    case SendTo(p, item) =>
      if item.PublishItem? then item.channel in Subs(r, p) || WILDCARD in Subs(r, p) else p in r.peers
    case Invoke(t, item) => Lookup(r, t).Some? && Matches(t, item)
  }

  ghost predicate SomebodyListens(r: Registry<PeerRef, HandlerRef>, item: Item) {
    exists e: Effect :: e.item == item && Listens(r, e)
  }

  // A publish is sent to peers when it is requested; all else waits for the delivery.
  predicate AtRequest(e: Effect) {
    e.SendTo? && e.item.PublishItem?
  }

  lemma EffectsAreListeners(r: Registry<PeerRef, HandlerRef>, item: Item, e: Effect)
    requires IndexInv(r)
    ensures item.PublishItem? ==> (e in PublishSends(r, item) <==> AtRequest(e) && e.item == item && Listens(r, e))
    ensures e in Deliveries(r, item) <==> !AtRequest(e) && e.item == item && Listens(r, e)
  {
    var p := if e.SendTo? then e.peer else 0;
    var t := if e.Invoke? then e.token else BroadcastToken(0);
    EffectsAreRelational(r, item, p, t);
    OwnItems(r, item, e);
    hide PublishSends, Deliveries, Subs, Lookup, IndexInv;
  }

  lemma OwnItems(r: Registry<PeerRef, HandlerRef>, item: Item, e: Effect)
    ensures item.PublishItem? && e in PublishSends(r, item) ==> AtRequest(e) && e.item == item
    ensures e in Deliveries(r, item) ==> !AtRequest(e) && e.item == item
  {
    hide Targets, Calls, BroadcastCalls;
  }

  lemma NobodyListensIff(r: Registry<PeerRef, HandlerRef>, c: Channel, frame: Frame, notify: bool)
    requires IndexInv(r)
    ensures NobodyListens(r, c, notify) <==> !SomebodyListens(r, PublishItem(c, frame, notify))
  {
    var item := PublishItem(c, frame, notify);
    EarlyReturnIff(r, c, notify);
    hide NobodyListens;
    if Targets(r, c) != {} {
      var p :| p in Targets(r, c);
      FanOutIsRelational(r, c, notify, p, BroadcastToken(0));
      assert Listens(r, SendTo(p, item));
    }
    if Calls(r, c, notify) != {} {
      var t :| t in Calls(r, c, notify);
      FanOutIsRelational(r, c, notify, 0, t);
      assert Listens(r, Invoke(t, item));
    }
    if SomebodyListens(r, item) {
      var e: Effect :| e.item == item && Listens(r, e);
      ListenerIsReached(r, c, notify, e);
    }
  }

  lemma ListenerIsReached(r: Registry<PeerRef, HandlerRef>, c: Channel, notify: bool, e: Effect)
    requires IndexInv(r) && e.item.PublishItem? && e.item.channel == c && e.item.notify == notify && Listens(r, e)
    ensures Targets(r, c) != {} || Calls(r, c, notify) != {}
  {
    FanOutIsRelational(r, c, notify, if e.SendTo? then e.peer else 0, if e.Invoke? then e.token else BroadcastToken(0));
    hide Targets, Calls, Lookup, IndexInv;
  }

  // ---- one step ----

  // The call that requests the item, and is neither refused nor cut short.
  ghost predicate Requests(s: Sys, a: Action, item: Item) {
    && s.running
    && match a
       case BeginBroadcast(frame, notify) => item == BroadcastItem(frame, notify)
       case BeginPublish(published, _) => item == published && SomebodyListens(s.reg, item)
       case _ => false
  }

  // Its handlers are read.
  predicate Reads(s: Sys, a: Action, item: Item) {
    a.ReadHandlers? && a.i < |s.threads| && s.threads[a.i].In? && s.threads[a.i].call == LookUp(item)
  }

  // The step decides on the effect.
  ghost predicate Decides(s: Sys, a: Action, e: Effect) {
    Listens(s.reg, e) && if AtRequest(e) then Requests(s, a, e.item) else Reads(s, a, e.item)
  }

  function One(b: bool): nat {
    if b then 1 else 0
  }

  ghost predicate StepCounts(s: Sys, a: Action, s': Sys, item: Item, e: Effect) {
    && s'.log.requested[item] == s.log.requested[item] + One(Requests(s, a, item))
    && s'.log.read[item] == s.log.read[item] + One(Reads(s, a, item))
    && s'.log.planned[e] == s.log.planned[e] + One(Decides(s, a, e))
  }

  lemma PublishLogs(s: Sys, published: Item, order: seq<Effect>, item: Item, e: Effect)
    requires Enabled(s, BeginPublish(published, order))
    ensures published.PublishItem?
    ensures var log := Step(s, BeginPublish(published, order)).log;
      var begun := s.running && !NobodyListens(s.reg, published.channel, published.notify);
      && log.read[item] == s.log.read[item]
      && log.requested[item] == s.log.requested[item] + One(begun && item == published)
      && log.planned[e] == s.log.planned[e] + One(begun && e in PublishSends(s.reg, published))
  {
    ListedOnce(order, PublishSends(s.reg, published), e);
    hide Lists, PublishSends, NobodyListens;
  }

  lemma PublishDecides(s: Sys, a: Action, item: Item, e: Effect)
    requires Enabled(s, a) && IndexInv(s.reg) && a.BeginPublish?
    ensures a.item.PublishItem? && !Reads(s, a, item)
    ensures var begun := s.running && !NobodyListens(s.reg, a.item.channel, a.item.notify);
      && (Requests(s, a, item) <==> begun && item == a.item)
      && (Decides(s, a, e) <==> begun && e in PublishSends(s.reg, a.item))
  {
    NobodyListensIff(s.reg, a.item.channel, a.item.frame, a.item.notify);
    EffectsAreListeners(s.reg, a.item, e);
    assert Listens(s.reg, e) ==> SomebodyListens(s.reg, e.item);
    hide Lists, PublishSends, Deliveries, SomebodyListens, Listens, NobodyListens, IndexInv;
  }

  lemma PublishCounts(s: Sys, a: Action, item: Item, e: Effect)
    requires Enabled(s, a) && IndexInv(s.reg) && a.BeginPublish?
    ensures StepCounts(s, a, Step(s, a), item, e)
  {
    PublishDecides(s, a, item, e);
    PublishLogs(s, a.item, a.order, item, e);
    hide Step, Enabled, PublishSends, Decides, Requests, Reads, NobodyListens, IndexInv;
  }

  lemma ReadLogs(s: Sys, i: nat, order: seq<Effect>, item: Item, e: Effect)
    requires Enabled(s, ReadHandlers(i, order))
    ensures var log := Step(s, ReadHandlers(i, order)).log; var read := s.threads[i].call.item;
      && log.requested[item] == s.log.requested[item]
      && log.read[item] == s.log.read[item] + One(item == read)
      && log.planned[e] == s.log.planned[e] + One(e in Deliveries(s.reg, read))
  {
    ListedOnce(order, Deliveries(s.reg, s.threads[i].call.item), e);
    hide Lists, Deliveries;
  }

  lemma ReadDecides(s: Sys, a: Action, item: Item, e: Effect)
    requires Enabled(s, a) && IndexInv(s.reg) && a.ReadHandlers?
    ensures var read := s.threads[a.i].call.item;
      && !Requests(s, a, item)
      && (Reads(s, a, item) <==> item == read)
      && (Decides(s, a, e) <==> e in Deliveries(s.reg, read))
  {
    EffectsAreListeners(s.reg, s.threads[a.i].call.item, e);
    hide Lists, PublishSends, Deliveries, Listens, IndexInv;
  }

  lemma ReadCounts(s: Sys, a: Action, item: Item, e: Effect)
    requires Enabled(s, a) && IndexInv(s.reg) && a.ReadHandlers?
    ensures StepCounts(s, a, Step(s, a), item, e)
  {
    ReadDecides(s, a, item, e);
    ReadLogs(s, a.i, a.order, item, e);
    hide Step, Deliveries, Decides, Requests, Reads, IndexInv, Lists;
  }

  lemma ClientLogs(s: Sys, a: Action)
    requires Enabled(s, a) && Actor(a).None? && !a.BeginPublish?
    ensures var log := Step(s, a).log;
      && log.read == s.log.read && log.planned == s.log.planned
      && log.requested == s.log.requested +
           if a.BeginBroadcast? && s.running then multiset{BroadcastItem(a.frame, a.notify)} else multiset{}
  {
    hide Subscribe, SubscribePeer, UnsubscribePeer, Unsubscribe, Grant;
  }

  lemma ClientDecides(s: Sys, a: Action, item: Item, e: Effect)
    requires Actor(a).None? && !a.BeginPublish?
    ensures Requests(s, a, item) <==> a.BeginBroadcast? && s.running && item == BroadcastItem(a.frame, a.notify)
    ensures !Reads(s, a, item) && !Decides(s, a, e)
  {
    hide Listens;
  }

  lemma OtherClientCounts(s: Sys, a: Action, item: Item, e: Effect)
    requires Enabled(s, a) && Actor(a).None? && !a.BeginPublish?
    ensures StepCounts(s, a, Step(s, a), item, e)
  {
    ClientLogs(s, a);
    ClientDecides(s, a, item, e);
    hide Requests, Decides, Step, Enabled, Reads;
  }

  lemma OtherActorCounts(s: Sys, a: Action, item: Item, e: Effect)
    requires Enabled(s, a) && Actor(a).Some? && !a.ReadHandlers?
    ensures StepCounts(s, a, Step(s, a), item, e)
  {
    ActorPlansNothing(s, a);
    hide Listens, Step, Enabled;
  }

  // Every step, whatever it is: the publishes and broadcasts requested, the deliveries whose
  // handlers are read, and the sends and handler calls that are decided on.
  lemma EveryStepCounts(s: Sys, a: Action, item: Item, e: Effect)
    requires Enabled(s, a) && IndexInv(s.reg)
    ensures StepCounts(s, a, Step(s, a), item, e)
  {
    hide StepCounts, Step, Enabled, IndexInv;
    if a.BeginPublish? {
      PublishCounts(s, a, item, e);
    } else if a.ReadHandlers? {
      ReadCounts(s, a, item, e);
    } else if Actor(a).Some? {
      OtherActorCounts(s, a, item, e);
    } else {
      OtherClientCounts(s, a, item, e);
    }
  }

  // A publish that is not cut short is sent once to exactly the peers that subscribe to its
  // channel or to "*".
  lemma PublishReachesSubscribers(s: Sys, item: Item, order: seq<Effect>, p: PeerRef)
    requires Enabled(s, BeginPublish(item, order)) && IndexInv(s.reg) && Step(s, BeginPublish(item, order)) != s
    ensures Step(s, BeginPublish(item, order)).log.planned[SendTo(p, item)] ==
      s.log.planned[SendTo(p, item)] + if item.channel in Subs(s.reg, p) || WILDCARD in Subs(s.reg, p) then 1 else 0
  {
    EveryStepCounts(s, BeginPublish(item, order), item, SendTo(p, item));
    PublishIsCutShortIff(s, item, order);
    assert Listens(s.reg, SendTo(p, item)) ==> SomebodyListens(s.reg, item);
    hide Step, IndexInv, Targets, Calls, SomebodyListens;
  }

  // ---- what one step does to the tables ----

  // The locked section of addPeer, or of removePeer, for p.
  predicate AddsNow(s: Sys, a: Action, p: PeerRef) {
    InsideCall(s, a) && s.threads[a.i].call == AddLock(p)
  }

  predicate RemovesNow(s: Sys, a: Action, p: PeerRef) {
    InsideCall(s, a) && s.threads[a.i].call == RemoveLock(p)
  }

  predicate SubscribesNow(a: Action, p: PeerRef, c: Channel) {
    a.DoSubscribePeer? && a.p == p && a.c == c && c != [] && (a.allowed || c == WILDCARD)
  }

  predicate UnsubscribesNow(a: Action, p: PeerRef, c: Channel) {
    a.DoUnsubscribePeer? && a.p == p && a.c == c
  }

  lemma CallTables(s: Sys, a: Action, p: PeerRef, c: Channel)
    requires Enabled(s, a) && InsideCall(s, a)
    ensures var r := Step(s, a).reg;
      && (p in r.peers <==> AddsNow(s, a, p) || (p in s.reg.peers && !RemovesNow(s, a, p)))
      && (c in Subs(r, p) <==> c in Subs(s.reg, p) && !(RemovesNow(s, a, p) && p in s.reg.peers))
  {
    var call := s.threads[a.i].call;
    if call.AddLock? {
      AddPeerIsExact(s.reg, call.p, p, c);
    } else if call.RemoveLock? {
      RemovePeerIsExact(s.reg, call.p, p, c);
    }
    hide AddPeer, RemovePeer, Subs;
  }

  lemma TableCallTables(s: Sys, a: Action, p: PeerRef, c: Channel)
    requires Enabled(s, a) && TableCall(a) && IndexInv(s.reg)
    ensures var r := Step(s, a).reg;
      && r.peers == s.reg.peers
      && (c in Subs(r, p) <==> SubscribesNow(a, p, c) || (c in Subs(s.reg, p) && !UnsubscribesNow(a, p, c)))
  {
    TableCallKeepsPeers(s, a);
    NoEmptySubscription(s.reg, p);
    match a
    case DoSubscribePeer(q, d, allowed) => SubscribePeerIsExact(s.reg, q, d, allowed, p, c);
    case DoUnsubscribePeer(q, d) => UnsubscribePeerIsExact(s.reg, q, d, p, c);
    case DoSubscribe(kind, h) => HandlersKeepSubscriptions(s.reg, kind, h, BroadcastToken(0));
    case DoUnsubscribe(t) => HandlersKeepSubscriptions(s.reg, ForBroadcasts, 0, t);
    hide SubscribePeer, UnsubscribePeer, Subscribe, Unsubscribe, Grant, IndexInv;
  }

  lemma HandlersKeepSubscriptions(r: Registry<PeerRef, HandlerRef>, kind: Kind, h: HandlerRef, t: Token)
    ensures Subscribe(r, kind, h).0.subscriptions == Unsubscribe(r, t).subscriptions == r.subscriptions
  {}

  // A peer is registered from the locked section of an addPeer to that of a removePeer, and
  // subscribed from an accepted SubscribePeer to an UnsubscribePeer of that channel or a
  // removePeer that finds it registered; no other step makes a difference.
  lemma TablesFollowCalls(s: Sys, a: Action, p: PeerRef, c: Channel)
    requires Enabled(s, a) && IndexInv(s.reg)
    ensures var r := Step(s, a).reg;
      && (p in r.peers <==> AddsNow(s, a, p) || (p in s.reg.peers && !RemovesNow(s, a, p)))
      && (c in Subs(r, p) <==>
            || SubscribesNow(a, p, c)
            || (c in Subs(s.reg, p) && !UnsubscribesNow(a, p, c) && !(RemovesNow(s, a, p) && p in s.reg.peers)))
  {
    hide Step, Enabled, IndexInv, Subs;
    if InsideCall(s, a) {
      CallTables(s, a, p, c);
    } else if TableCall(a) {
      TableCallTables(s, a, p, c);
    } else {
      OthersTouchNothing(s, a);
    }
  }

  // A handler is granted a token of the kind it asked for, except on the empty channel, and its
  // closure's first call takes it away; nothing else changes the grants.
  lemma GrantsFollowCalls(s: Sys, a: Action)
    requires Enabled(s, a)
    ensures var g, g' := s.grants, Step(s, a).grants;
      match a
      case DoSubscribe(kind, h) =>
        && g'.fired == g.fired
        && if kind == ForChannel([]) then g'.granted == g.granted
           else exists id :: g'.granted == g.granted[TokenFor(kind, id) := h]
      case DoUnsubscribe(t) => g'.granted == g.granted && g'.fired == g.fired + {t}
      case _ => g' == g
  {
    match a
    case DoSubscribe(kind, h) => assert Grant(s.grants, Some(TokenFor(kind, NextID(s.reg))), h).granted ==
                                        s.grants.granted[TokenFor(kind, NextID(s.reg)) := h];
    case DoUnsubscribe(_) =>
    case _ => OthersKeepHandlers(s, a); hide Step, Enabled;
  }

  // The hub runs from a Start to the stop of the Run loop it started.
  lemma RunningFollowsCalls(s: Sys, a: Action)
    requires Enabled(s, a)
    ensures Step(s, a).running <==> a.StartRun? || (s.running && !a.LoopStop?)
  {
    if Actor(a).Some? {
      ActorRuns(s, a);
    } else {
      ClientRuns(s, a);
    }
    hide Step, Enabled;
  }

  // addPeer is called by the client alone, removePeer by the client and, once for every
  // registered peer, by a Run that stops.
  lemma CallsAreCounted(s: Sys, a: Action, p: PeerRef)
    requires Enabled(s, a)
    ensures var log := Step(s, a).log;
      && log.addCalls[p] == s.log.addCalls[p] + One(a == BeginAdd(p))
      && log.removeCalls[p] == s.log.removeCalls[p] + One(a == BeginRemove(p) || (a.LoopStop? && p in s.reg.peers))
  {
    if a.Proceed? {
      AdvanceCallsNothing(s, a.i);
      hide Advance;
    } else if a.LoopStop? {
      assert multiset(a.peers)[p] == multiset(s.reg.peers)[p];
    } else {
      hide Lists, Take, GiveUp, WithLane, LaneOf, NobodyListens, Subscribe, SubscribePeer, UnsubscribePeer, Unsubscribe, Grant;
    }
  }

  lemma AdvanceCallsNothing(s: Sys, i: nat)
    requires i < |s.threads| && CanProceed(s, s.threads[i])
    ensures Advance(s, i).log.addCalls == s.log.addCalls && Advance(s, i).log.removeCalls == s.log.removeCalls
  {
    if s.threads[i].In? {
      CallCallsNothing(s, i, s.threads[i].call, s.threads[i].after);
    }
    hide AdvanceCall, Offer, Push, WithLane, LaneOf;
  }

  lemma CallCallsNothing(s: Sys, i: nat, call: Call, after: After)
    requires i < |s.threads| && !call.LookUp?
    ensures var log := AdvanceCall(s, i, call, after).log;
      log.addCalls == s.log.addCalls && log.removeCalls == s.log.removeCalls
  {
    hide AddPeer, RemovePeer;
  }

  // ---- every run ----

  // How many steps of the run decide on the effect.
  ghost function Decisions(s: Sys, actions: seq<Action>, e: Effect): nat
    requires ValidRun(s, actions)
    decreases |actions|
  {
    if actions == [] then 0 else One(Decides(s, actions[0], e)) + Decisions(Step(s, actions[0]), actions[1..], e)
  }

  // How many of its calls request the item.
  ghost function RequestsIn(s: Sys, actions: seq<Action>, item: Item): nat
    requires ValidRun(s, actions)
    decreases |actions|
  {
    if actions == [] then 0 else One(Requests(s, actions[0], item)) + RequestsIn(Step(s, actions[0]), actions[1..], item)
  }

  lemma {:induction false} RunCounts(s: Sys, actions: seq<Action>, item: Item, e: Effect)
    requires ValidRun(s, actions) && IndexInv(s.reg)
    ensures Exec(s, actions).log.planned[e] == s.log.planned[e] + Decisions(s, actions, e)
    ensures Exec(s, actions).log.requested[item] == s.log.requested[item] + RequestsIn(s, actions, item)
    decreases |actions|
  {
    hide Enabled, Step, IndexInv, Decides, Requests, Reads, One;
    if actions != [] {
      EveryStepCounts(s, actions[0], item, e);
      IndexStep(s, actions[0]);
      RunCounts(Step(s, actions[0]), actions[1..], item, e);
    }
  }

  // In every reachable state, for every peer, handler and item: the effect was performed or is
  // still to be performed exactly as often as the run decided on it, and the item was accepted,
  // or is about to be, exactly as often as it was requested of a running hub with a listener.
  lemma EffectsAreExact(actions: seq<Action>, item: Item, e: Effect)
    requires ValidRun(NewHub(), actions)
    ensures var s := Exec(NewHub(), actions);
      && s.log.performed[e] + Sum(s.threads, EffectKey(e)) == Decisions(NewHub(), actions, e)
      && multiset(LaneOf(s, item).accepted)[item] + Sum(s.threads, OfferKey(item)) == RequestsIn(NewHub(), actions, item)
  {
    EmptyIndex();
    EveryDeliveryIsAccountedFor(actions, item, e);
    RunCounts(NewHub(), actions, item, e);
    hide Exec, ValidRun, Sum, LaneOf, Decisions, RequestsIn, IndexInv;
  }

  lemma EmptyIndex()
    ensures IndexInv(NewHub().reg)
  {}

  // The recipient listens before every step, or before none.
  ghost predicate Throughout(s: Sys, actions: seq<Action>, e: Effect, listening: bool)
    requires ValidRun(s, actions)
    decreases |actions|
  {
    actions == [] || (Listens(s.reg, e) == listening && Throughout(Step(s, actions[0]), actions[1..], e, listening))
  }

  lemma {:induction false} SteadyCounts(s: Sys, actions: seq<Action>, e: Effect, listening: bool)
    requires ValidRun(s, actions) && IndexInv(s.reg) && Throughout(s, actions, e, listening)
    ensures Exec(s, actions).log.planned[e] ==
      s.log.planned[e] + if listening then Occasions(Exec(s, actions), e) - Occasions(s, e) else 0
    decreases |actions|
  {
    hide Enabled, Step, IndexInv, Requests, Reads, Listens;
    if actions != [] {
      EveryStepCounts(s, actions[0], e.item, e);
      IndexStep(s, actions[0]);
      SteadyCounts(Step(s, actions[0]), actions[1..], e, listening);
    }
  }

  // Performed, or decided on and still to be performed.
  function Undertaken(s: Sys, e: Effect): nat {
    s.log.performed[e] + Sum(s.threads, EffectKey(e))
  }

  // Delivery, over any stretch of any run: a peer that subscribes throughout is sent every
  // publish on its channels exactly once for every request, a registered peer every broadcast
  // and a live handler every matching item exactly once for every delivery, and one that does
  // not listen gets nothing.
  lemma SteadyListenersGetEverything(before: seq<Action>, actions: seq<Action>, e: Effect, listening: bool)
    requires ValidRun(NewHub(), before) && ValidRun(Exec(NewHub(), before), actions)
    requires Throughout(Exec(NewHub(), before), actions, e, listening)
    ensures var s := Exec(NewHub(), before); var s' := Exec(s, actions);
      && (!listening ==> Undertaken(s', e) == Undertaken(s, e))
      && (listening && e.SendTo? && e.item.PublishItem? ==>
            Undertaken(s', e) + s.log.requested[e.item] == Undertaken(s, e) + s'.log.requested[e.item])
      && (listening && !(e.SendTo? && e.item.PublishItem?) ==>
            Undertaken(s', e) + s.log.read[e.item] == Undertaken(s, e) + s'.log.read[e.item])
  {
    NewHubIsSafe();
    RunIsSafe(NewHub(), before);
    var s := Exec(NewHub(), before);
    RunIsSafe(s, actions);
    hide Exec, ValidRun, Throughout, QueuesInv, OneLoop, DoneInv, PeersInv, IndexInv, HandlersInv, PlannedOnce, AllBalanced, Sum;
    SteadyCounts(s, actions, e, listening);
    DeliveryBooks(s, e.item, e);
    DeliveryBooks(Exec(s, actions), e.item, e);
  }

  // No step of the run ends p's subscription to c.
  ghost predicate Stays(s: Sys, actions: seq<Action>, p: PeerRef, c: Channel)
    requires ValidRun(s, actions)
    decreases |actions|
  {
    || actions == []
    || (!UnsubscribesNow(actions[0], p, c) && !RemovesNow(s, actions[0], p) && Stays(Step(s, actions[0]), actions[1..], p, c))
  }

  // A peer that subscribes, and neither unsubscribes nor is removed, listens throughout.
  lemma {:induction false} SubscriptionLasts(s: Sys, actions: seq<Action>, p: PeerRef, item: Item)
    requires ValidRun(s, actions) && IndexInv(s.reg) && item.PublishItem?
    requires item.channel in Subs(s.reg, p) && Stays(s, actions, p, item.channel)
    ensures Throughout(s, actions, SendTo(p, item), true)
    decreases |actions|
  {
    hide Enabled, Step, IndexInv, Subs;
    if actions != [] {
      TablesFollowCalls(s, actions[0], p, item.channel);
      IndexStep(s, actions[0]);
      SubscriptionLasts(Step(s, actions[0]), actions[1..], p, item);
    }
  }
}
