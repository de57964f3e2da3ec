// How many messages and deliveries one call causes in a cluster of bridges, over every run.
module RedisTraffic {
  import opened Bytes
  import opened RedisKeys
  import opened RedisCluster

  // ---- one live call of Start at a time ----

  ghost predicate AtMostOneLive(sessions: seq<Session>) {
    forall j, k | 0 <= j < |sessions| && 0 <= k < |sessions| && Live(sessions[j]) && Live(sessions[k]) :: j == k
  }

  // bridge.running is set exactly while the receive loop of some Start has not returned.
  ghost predicate OneLive(node: Node) {
    && AtMostOneLive(node.sessions)
    && (node.running <==> exists k | 0 <= k < |node.sessions| :: Live(node.sessions[k]))
  }

  ghost predicate AllOneLive(c: Cluster) {
    forall n | 0 <= n < |c.nodes| :: OneLive(c.nodes[n])
  }

  lemma SessionKeepsOneLive(node: Node, k: nat, s: Session, running: bool)
    requires OneLive(node) && k < |node.sessions| && (Live(s) ==> Live(node.sessions[k]))
    requires running == if Live(node.sessions[k]) then Live(s) else node.running
    ensures OneLive(WithSession(node, k, s).(running := running))
  {
    var all := node.sessions[k := s];
    if j :| 0 <= j < |node.sessions| && Live(node.sessions[j]) && j != k {
      assert Live(all[j]);
    }
    if Live(s) {
      assert Live(all[k]);
    }
  }

  lemma StartKeepsOneLive(node: Node)
    requires OneLive(node) && !node.running
    ensures OneLive(node.(running := true, sessions := node.sessions + [NEW_SESSION]))
  {
    assert Live((node.sessions + [NEW_SESSION])[|node.sessions|]);
  }

  lemma SessionActionKeepsOneLive(node: Node, a: Action, prefix: Channel, id: nat)
    requires NodeEnabled(node, a) && OneLive(node) && SessionAction(a)
    ensures OneLive(NodeStep(node, a, prefix, id))
  {
    var s' := NodeStep(node, a, prefix, id).sessions[a.k];
    hide OneLive;
    match a
    case StartStep(_, k) => SessionKeepsOneLive(node, k, s', node.running);
    case EndSession(_, k) => SessionKeepsOneLive(node, k, s', false);
    case Unhook(_, k, _) => SessionKeepsOneLive(node, k, s', node.running);
    case Unsubscribe(_, k) => SessionKeepsOneLive(node, k, s', node.running);
    case ReturnSession(_, k) => SessionKeepsOneLive(node, k, s', node.running);
  }

  lemma LiveIsRunning(node: Node, k: nat)
    requires OneLive(node) && k < |node.sessions| && Live(node.sessions[k])
    ensures node.running
  {}

  lemma NodeStepKeepsOneLive(node: Node, a: Action, prefix: Channel, id: nat)
    requires NodeEnabled(node, a) && OneLive(node)
    ensures OneLive(NodeStep(node, a, prefix, id))
  {
    if SessionAction(a) {
      SessionActionKeepsOneLive(node, a, prefix, id);
    } else if a.Receive? || a.Lose? {
      MailTakenKeepsOneLive(node, a.k, a.m);
      hide Received;
      SameSessionsOneLive(WithoutMail(node, a.k, a.m), NodeStep(node, a, prefix, id));
    } else if a.StartCall? {
      if !node.running {
        StartKeepsOneLive(node);
      }
    } else {
      hide Hooks;
      SameSessionsOneLive(node, NodeStep(node, a, prefix, id));
    }
  }

  lemma MailTakenKeepsOneLive(node: Node, k: nat, m: Msg)
    requires OneLive(node) && k < |node.sessions|
    ensures OneLive(WithoutMail(node, k, m))
  {
    var s := node.sessions[k].(inbox := node.sessions[k].inbox - multiset{m});
    if Live(s) {
      LiveIsRunning(node, k);
    }
    SessionKeepsOneLive(node, k, s, node.running);
  }

  lemma SameSessionsOneLive(node: Node, node': Node)
    requires OneLive(node) && node'.sessions == node.sessions && node'.running == node.running
    ensures OneLive(node')
  {}

  lemma MailKeepsOneLive(prefix: Channel, node: Node, m: Msg)
    requires OneLive(node)
    ensures OneLive(node.(sessions := MailAll(prefix, node.sessions, m)))
  {
    var all := MailAll(prefix, node.sessions, m);
    assert forall k | 0 <= k < |all| :: Live(all[k]) == Live(node.sessions[k]);
    hide MailAll;
  }

  lemma PublishKeepsOneLive(c: Cluster, n: nat, id: nat, item: Item)
    requires n < |c.nodes| && AllOneLive(c)
    ensures AllOneLive(Publish(c, n, id, item))
  {
    hide OneLive, KeyOf, MailAll;
    var m := Msg(id, c.nodes[n].source, KeyOf(c.prefix, item), item.frame);
    forall i | 0 <= i < |c.nodes| ensures OneLive(Publish(c, n, id, item).nodes[i]) {
      MailKeepsOneLive(c.prefix, c.nodes[i], m);
    }
  }

  lemma StepKeepsOneLive(c: Cluster, a: Action)
    requires Enabled(c, a) && AllOneLive(c)
    ensures AllOneLive(LocalStep(c, a)) && AllOneLive(Step(c, a))
  {
    var c1 := LocalStep(c, a);
    NodeStepKeepsOneLive(c.nodes[a.n], a, c.prefix, |c.origins|);
    hide OneLive, NodeStep, NodeEnabled, Publish;
    assert AllOneLive(c1);
    if a.HookCall? && a.ok && Forwardable(a.d.item) {
      PublishKeepsOneLive(c1, a.n, a.d.id, a.d.item);
    } else if a.Direct? && a.ok {
      PublishKeepsOneLive(c1, a.n, |c.origins|, a.item);
    }
  }

  // ---- mail for the live call ----

  function MailFor(s: Session, m: Msg): nat {
    if Live(s) then s.inbox[m] else 0
  }

  // The copies of m that a receive loop can still get.
  function LiveMail(sessions: seq<Session>, m: Msg): nat {
    if sessions == [] then 0 else LiveMail(sessions[..|sessions| - 1], m) + MailFor(sessions[|sessions| - 1], m)
  }

  function LiveSubscriptions(sessions: seq<Session>): nat {
    if sessions == [] then 0
    else LiveSubscriptions(sessions[..|sessions| - 1]) +
         if Live(sessions[|sessions| - 1]) && sessions[|sessions| - 1].subscribed then 1 else 0
  }

  lemma {:induction false} MailUpdate(sessions: seq<Session>, k: nat, s: Session, m: Msg)
    requires k < |sessions|
    ensures LiveMail(sessions[k := s], m) + MailFor(sessions[k], m) == LiveMail(sessions, m) + MailFor(s, m)
  {
    hide MailFor;
    var n := |sessions| - 1;
    if k == n {
      assert sessions[k := s][..n] == sessions[..n];
    } else {
      MailUpdate(sessions[..n], k, s, m);
      assert sessions[k := s][..n] == sessions[..n][k := s];
    }
  }

  lemma NewSessionMail(sessions: seq<Session>, m: Msg)
    ensures LiveMail(sessions + [NEW_SESSION], m) == LiveMail(sessions, m)
  {
    assert (sessions + [NEW_SESSION])[..|sessions|] == sessions;
  }

  lemma {:induction false} OneLiveSubscription(sessions: seq<Session>)
    requires AtMostOneLive(sessions)
    ensures LiveSubscriptions(sessions) <= 1
    ensures (forall k | 0 <= k < |sessions| :: !Live(sessions[k])) ==> LiveSubscriptions(sessions) == 0
  {
    if sessions != [] {
      OneLiveSubscription(sessions[..|sessions| - 1]);
    }
  }

  lemma MailArrivesAt(prefix: Channel, s: Session, m: Msg, x: Msg)
    requires Copies(prefix, m.key) == 1
    ensures MailFor(Mail(prefix, s, m), x) == MailFor(s, x) + if x == m && Live(s) && s.subscribed then 1 else 0
  {}

  // A message adds one copy for each live subscription.
  lemma {:induction false} MailArrives(prefix: Channel, sessions: seq<Session>, m: Msg, x: Msg)
    requires Copies(prefix, m.key) == 1
    ensures LiveMail(MailAll(prefix, sessions, m), x) ==
      LiveMail(sessions, x) + if x == m then LiveSubscriptions(sessions) else 0
  {
    hide Copies, MailFor, Mail;
    var n := |sessions| - 1;
    if sessions == [] {
      assert MailAll(prefix, sessions, m) == [];
    } else {
      MailArrives(prefix, sessions[..n], m, x);
      MailArrivesAt(prefix, sessions[n], m, x);
      assert MailAll(prefix, sessions, m)[..n] == MailAll(prefix, sessions[..n], m);
      assert MailAll(prefix, sessions, m)[n] == Mail(prefix, sessions[n], m);
      hide MailAll;
    }
  }

  lemma {:induction false} HooksIgnoreMail(prefix: Channel, sessions: seq<Session>, m: Msg, broadcast: bool)
    ensures Hooks(MailAll(prefix, sessions, m), broadcast) == Hooks(sessions, broadcast)
    ensures LiveSubscriptions(MailAll(prefix, sessions, m)) == LiveSubscriptions(sessions)
  {
    hide Copies;
    var n := |sessions| - 1;
    if sessions == [] {
      assert MailAll(prefix, sessions, m) == [];
    } else {
      HooksIgnoreMail(prefix, sessions[..n], m, broadcast);
      assert MailAll(prefix, sessions, m)[..n] == MailAll(prefix, sessions[..n], m);
      assert MailAll(prefix, sessions, m)[n] == Mail(prefix, sessions[n], m);
      hide MailAll;
    }
  }

  // ---- what one call has caused ----

  ghost predicate Known(c: Cluster, id: nat) {
    id < |c.origins| && c.origins[id].node < |c.nodes|
  }

  // Its delivery on its own hub, with the hooks to be called.
  ghost function Notifying(c: Cluster, id: nat): Delivery
    requires Known(c, id)
  {
    Delivery(id, c.origins[id].item, true)
  }

  ghost function Unprocessed(c: Cluster, id: nat): nat
    requires Known(c, id)
  {
    c.nodes[c.origins[id].node].queue[Notifying(c, id)]
  }

  ghost function Pending(c: Cluster, id: nat): nat
    requires Known(c, id)
  {
    c.nodes[c.origins[id].node].calls[Notifying(c, id)]
  }

  ghost function Sent(c: Cluster, id: nat): nat
    requires Known(c, id)
  {
    c.published[MsgOf(c, id)]
  }

  // Copies of its messages on the way to the receive loop of node n, and those that the
  // bridge of node n handed to the hub.
  ghost function Inbound(c: Cluster, id: nat, n: nat): nat
    requires Known(c, id) && n < |c.nodes|
  {
    LiveMail(c.nodes[n].sessions, MsgOf(c, id))
  }

  ghost function Handed(c: Cluster, id: nat, n: nat): nat
    requires Known(c, id) && n < |c.nodes|
  {
    c.nodes[n].delivered[Delivery(id, c.origins[id].item, false)]
  }

  lemma KnownStays(c: Cluster, c': Cluster, id: nat)
    requires Extends(c, c') && Known(c, id)
    ensures Known(c', id) && c'.origins[id] == c.origins[id] && MsgOf(c', id) == MsgOf(c, id)
  {
    assert c'.origins[..|c.origins|][id] == c.origins[id];
  }

  // A step without an error, a lost message, or a change of what runs.
  predicate Healthy(a: Action) {
    a.LocalCall? || a.Process? || a.Receive? || ((a.HookCall? || a.Direct?) && a.ok)
  }

  // Whether a takes this delivery from the queue, or calls a hook with it.
  predicate Processes(a: Action, d: Delivery) {
    a.Process? && a.d == d
  }

  predicate Dequeues(a: Action, d: Delivery) {
    (a.Process? || a.GiveUp?) && a.d == d
  }

  predicate CallsHook(a: Action, d: Delivery) {
    a.HookCall? && a.d == d
  }

  // ---- the counts of one node ----

  lemma ProcessQueues(node: Node, a: Action, prefix: Channel, id: nat, d: Delivery)
    requires NodeEnabled(node, a) && a.Process? && d.notify
    ensures var node' := NodeStep(node, a, prefix, id);
      && node'.queue[d] + (if a.d == d then 1 else 0) == node.queue[d]
      && node'.calls[d] == node.calls[d] + (if a.d == d then Hooks(node.sessions, d.item.Bcast?) else 0)
  {
    hide Hooks;
  }

  lemma ReceiveQueues(node: Node, a: Action, prefix: Channel, id: nat, d: Delivery)
    requires NodeEnabled(node, a) && a.Receive? && d.notify
    ensures var node' := NodeStep(node, a, prefix, id); node'.queue[d] == node.queue[d] && node'.calls[d] == node.calls[d]
  {
    hide Received;
  }

  lemma NodeQueues(node: Node, a: Action, prefix: Channel, id: nat, d: Delivery)
    requires NodeEnabled(node, a) && d.notify && d.id != id
    ensures var node' := NodeStep(node, a, prefix, id);
      && node'.queue[d] + (if Dequeues(a, d) then 1 else 0) == node.queue[d]
      && node'.calls[d] + (if CallsHook(a, d) then 1 else 0) ==
           node.calls[d] + (if Processes(a, d) then Hooks(node.sessions, d.item.Bcast?) else 0)
  {
    if a.Process? {
      ProcessQueues(node, a, prefix, id, d);
      hide NodeStep, NodeEnabled, Hooks;
    } else if a.Receive? {
      ReceiveQueues(node, a, prefix, id, d);
      hide NodeStep, NodeEnabled, Hooks;
    } else {
      hide Received, Hooks, Begin;
    }
  }

  lemma NodeDelivered(node: Node, a: Action, prefix: Channel, id: nat, d: Delivery)
    requires NodeEnabled(node, a)
    ensures NodeStep(node, a, prefix, id).delivered[d] == node.delivered[d] +
      if a.Receive? && d == Delivery(a.m.id, Received(prefix, a.m), false) && a.m.source != node.source && node.hubRunning
      then 1 else 0
  {
    hide Received, Hooks, Begin;
  }

  // A session changes its phase or what it holds, and keeps its mail.
  lemma PhaseMail(sessions: seq<Session>, k: nat, s: Session, m: Msg)
    requires k < |sessions| && s.inbox == sessions[k].inbox && (Live(s) ==> Live(sessions[k]))
    ensures LiveMail(sessions[k := s], m) <= LiveMail(sessions, m)
  {
    MailUpdate(sessions, k, s, m);
    hide LiveMail;
  }

  // A session loses a message; what a live one loses is one copy less.
  lemma TakeMail(sessions: seq<Session>, k: nat, x: Msg, m: Msg)
    requires k < |sessions| && x in sessions[k].inbox
    ensures LiveMail(sessions[k := sessions[k].(inbox := sessions[k].inbox - multiset{x})], m) +
      (if x == m && Live(sessions[k]) then 1 else 0) == LiveMail(sessions, m)
  {
    MailUpdate(sessions, k, sessions[k].(inbox := sessions[k].inbox - multiset{x}), m);
    hide LiveMail;
  }

  lemma SessionMailStep(node: Node, a: Action, prefix: Channel, id: nat, m: Msg)
    requires NodeEnabled(node, a) && SessionAction(a)
    ensures LiveMail(NodeStep(node, a, prefix, id).sessions, m) <= LiveMail(node.sessions, m)
  {
    var all' := NodeStep(node, a, prefix, id).sessions;
    hide LiveMail;
    match a
    case StartStep(_, k) => PhaseMail(node.sessions, k, all'[k], m);
    case EndSession(_, k) => PhaseMail(node.sessions, k, all'[k], m);
    case Unhook(_, k, _) => PhaseMail(node.sessions, k, all'[k], m);
    case Unsubscribe(_, k) => PhaseMail(node.sessions, k, all'[k], m);
    case ReturnSession(_, k) => PhaseMail(node.sessions, k, all'[k], m);
  }

  lemma TakeMailStep(node: Node, a: Action, prefix: Channel, id: nat, m: Msg)
    requires NodeEnabled(node, a) && (a.Receive? || a.Lose?)
    ensures LiveMail(NodeStep(node, a, prefix, id).sessions, m) + (if a.m == m && Live(node.sessions[a.k]) then 1 else 0)
      == LiveMail(node.sessions, m)
    ensures a.Receive? ==> Live(node.sessions[a.k])
  {
    TakeMail(node.sessions, a.k, a.m, m);
    hide LiveMail, Received;
  }

  lemma NodeMailStep(node: Node, a: Action, prefix: Channel, id: nat, m: Msg)
    requires NodeEnabled(node, a)
    ensures var (mail', mail) := (LiveMail(NodeStep(node, a, prefix, id).sessions, m), LiveMail(node.sessions, m));
      && mail' + (if a.Receive? && a.m == m then 1 else 0) <= mail
      && (Healthy(a) ==> mail' + (if a.Receive? && a.m == m then 1 else 0) == mail)
  {
    if SessionAction(a) {
      SessionMailStep(node, a, prefix, id, m);
      hide NodeStep, LiveMail;
    } else if a.Receive? || a.Lose? {
      TakeMailStep(node, a, prefix, id, m);
      hide NodeStep, LiveMail;
    } else if a.StartCall? {
      NewSessionMail(node.sessions, m);
    } else {
      hide Hooks, LiveMail;
      assert NodeStep(node, a, prefix, id).sessions == node.sessions;
    }
  }

  // ---- the counts of one call at a step ----

  // The delivery with hooks to call is only on its own node.
  lemma OwnDelivery(c: Cluster, a: Action, id: nat)
    requires Shape(c) && Enabled(c, a) && Known(c, id)
    ensures Dequeues(a, Notifying(c, id)) || CallsHook(a, Notifying(c, id)) ==> a.n == c.origins[id].node
  {
    assert Contents(c, a.n, c.nodes[a.n]);
    hide FromOrigin, HasMail;
  }

  lemma LocalQueues(c: Cluster, a: Action, id: nat)
    requires Shape(c) && Enabled(c, a) && Known(c, id)
    ensures var (c1, d) := (LocalStep(c, a), Notifying(c, id));
      && Known(c1, id) && c1.origins[id] == c.origins[id] && MsgOf(c1, id) == MsgOf(c, id) && Sent(c1, id) == Sent(c, id)
      && Unprocessed(c1, id) + (if Dequeues(a, d) then 1 else 0) == Unprocessed(c, id)
      && Pending(c1, id) + (if CallsHook(a, d) then 1 else 0) ==
           Pending(c, id) + (if Processes(a, d) then Hooks(c.nodes[a.n].sessions, d.item.Bcast?) else 0)
  {
    var c1, d := LocalStep(c, a), Notifying(c, id);
    LocalStepExtends(c, a);
    KnownStays(c, c1, id);
    OwnDelivery(c, a, id);
    hide Hooks, Extends, NodeStep, NodeEnabled, Shape;
    NodeQueues(c.nodes[a.n], a, c.prefix, |c.origins|, d);
  }

  // The receive loop gets a message of this call and hands it on.
  ghost predicate Delivers(c: Cluster, a: Action, id: nat)
    requires Known(c, id) && Enabled(c, a)
  {
    a.Receive? && a.m == MsgOf(c, id) && a.m.source != c.nodes[a.n].source && c.nodes[a.n].hubRunning
  }

  lemma LocalHanded(c: Cluster, a: Action, id: nat, n: nat)
    requires Shape(c) && Enabled(c, a) && Known(c, id) && n < |c.nodes|
    ensures Known(LocalStep(c, a), id)
    ensures Handed(LocalStep(c, a), id, n) == Handed(c, id, n) + if n == a.n && Delivers(c, a, id) then 1 else 0
  {
    var c1, d := LocalStep(c, a), Delivery(id, c.origins[id].item, false);
    LocalStepExtends(c, a);
    KnownStays(c, c1, id);
    if n == a.n {
      NodeDelivered(c.nodes[n], a, c.prefix, |c.origins|, d);
      assert Contents(c, n, c.nodes[n]);
      if a.Receive? {
        assert HasMail(c.nodes[n], a.m) && FromOrigin(c, a.m);
        ReceivedIsOrigin(c, a.m);
      }
    }
    hide NodeStep, Received, Extends, HasMail;
  }

  lemma LocalInbound(c: Cluster, a: Action, id: nat, n: nat)
    requires Enabled(c, a) && Known(c, id) && n < |c.nodes|
    ensures Known(LocalStep(c, a), id)
    ensures var taken := if n == a.n && a.Receive? && a.m == MsgOf(c, id) then 1 else 0;
      && Inbound(LocalStep(c, a), id, n) + taken <= Inbound(c, id, n)
      && (Healthy(a) ==> Inbound(LocalStep(c, a), id, n) + taken == Inbound(c, id, n))
  {
    var c1 := LocalStep(c, a);
    LocalStepExtends(c, a);
    KnownStays(c, c1, id);
    hide NodeStep, NodeEnabled, LiveMail, Extends, MsgOf;
    if n == a.n {
      NodeMailStep(c.nodes[n], a, c.prefix, |c.origins|, MsgOf(c, id));
    }
  }

  // What Publish adds, for the call it sends a message of and for every other.
  lemma PublishCounts(c: Cluster, n: nat, id: nat, item: Item, k: nat)
    requires Known(c, id) && c.origins[id] == Origin(n, item) && Known(c, k)
    ensures var c' := Publish(c, n, id, item);
      && Known(c', k) && c'.origins == c.origins && MsgOf(c', k) == MsgOf(c, k)
      && Unprocessed(c', k) == Unprocessed(c, k) && Pending(c', k) == Pending(c, k)
      && Sent(c', k) == Sent(c, k) + (if k == id then 1 else 0)
  {
    PublishExtends(c, n, id, item);
    KnownStays(c, Publish(c, n, id, item), k);
    hide KeyOf, MailAll;
    assert k != id ==> MsgOf(c, k) != MsgOf(c, id);
  }

  lemma PublishCopies(c: Cluster, n: nat, id: nat, item: Item, k: nat, i: nat)
    requires ReceivesOnce(c.prefix) && Known(c, id) && c.origins[id] == Origin(n, item) && Known(c, k) && i < |c.nodes|
    ensures var c' := Publish(c, n, id, item);
      && Known(c', k) && Handed(c', k, i) == Handed(c, k, i)
      && Inbound(c', k, i) == Inbound(c, k, i) + (if k == id then LiveSubscriptions(c.nodes[i].sessions) else 0)
  {
    var m := MsgOf(c, id);
    PublishExtends(c, n, id, item);
    KnownStays(c, Publish(c, n, id, item), k);
    KeysAreExact(c.prefix, if item.Pub? then item.channel else []);
    MailArrives(c.prefix, c.nodes[i].sessions, m, MsgOf(c, k));
    hide KeyOf, Copies, LiveMail, MailAll, ReceivesOnce, Extends;
    assert k != id ==> MsgOf(c, k) != m;
    assert Publish(c, n, id, item).nodes[i] == c.nodes[i].(sessions := MailAll(c.prefix, c.nodes[i].sessions, m));
  }

  // The call whose message a step sends to Redis.
  function Sends(c: Cluster, a: Action): Option<nat>
    requires Enabled(c, a)
  {
    match a
    case HookCall(_, d, ok) => if ok && Forwardable(d.item) then Some(d.id) else None
    case Direct(_, _, ok) => if ok then Some(|c.origins|) else None
    case _ => None
  }

  function SentItem(a: Action): Item {
    if a.HookCall? then a.d.item else if a.Direct? then a.item else Bcast([])
  }

  lemma StepIs(c: Cluster, a: Action)
    requires Shape(c) && Enabled(c, a)
    ensures Sends(c, a) == None ==> Step(c, a) == LocalStep(c, a)
    ensures Sends(c, a).Some? ==>
      var (c1, id) := (LocalStep(c, a), Sends(c, a).value);
      && Known(c1, id) && c1.origins[id] == Origin(a.n, SentItem(a)) && Step(c, a) == Publish(c1, a.n, id, SentItem(a))
      && (id < |c.origins| ==> a.HookCall? && Known(c, id) && a.d == Notifying(c, id))
  {
    LocalStepExtends(c, a);
    if a.HookCall? {
      assert Contents(c, a.n, c.nodes[a.n]);
      assert Due(c, a.n, a.d);
      KnownStays(c, LocalStep(c, a), a.d.id);
    }
    hide NodeStep, Publish;
  }

  // Deliveries, hook calls and messages of a call that was made before the step.
  lemma StepCounts(c: Cluster, a: Action, id: nat)
    requires Shape(c) && Enabled(c, a) && Known(c, id)
    ensures var (c', d) := (Step(c, a), Notifying(c, id));
      && Known(c', id) && c'.origins[id] == c.origins[id] && MsgOf(c', id) == MsgOf(c, id)
      && Unprocessed(c', id) + (if Dequeues(a, d) then 1 else 0) == Unprocessed(c, id)
      && Pending(c', id) + (if CallsHook(a, d) then 1 else 0) ==
           Pending(c, id) + (if Processes(a, d) then Hooks(c.nodes[a.n].sessions, d.item.Bcast?) else 0)
      && Sent(c', id) == Sent(c, id) + (if Sends(c, a) == Some(id) then 1 else 0)
      && (Sends(c, a) == Some(id) ==> CallsHook(a, d))
  {
    LocalQueues(c, a, id);
    StepIs(c, a);
    hide LocalStep, Step, Publish, Unprocessed, Pending, Sent, MsgOf, Shape, NodeEnabled, Hooks;
    if Sends(c, a).Some? {
      PublishCounts(LocalStep(c, a), a.n, Sends(c, a).value, SentItem(a), id);
    }
  }

  lemma NotSeenBefore(c: Cluster, x: Delivery, m: Msg)
    requires Shape(c) && x.id == |c.origins| && m.id == |c.origins|
    ensures c.published[m] == 0
    ensures forall n | 0 <= n < |c.nodes| ::
      c.nodes[n].queue[x] == c.nodes[n].calls[x] == c.nodes[n].delivered[x] == 0 && !HasMail(c.nodes[n], m)
  {
    forall n | 0 <= n < |c.nodes|
      ensures c.nodes[n].queue[x] == c.nodes[n].calls[x] == c.nodes[n].delivered[x] == 0 && !HasMail(c.nodes[n], m)
    {
      assert Contents(c, n, c.nodes[n]);
      hide HasMail;
      assert !FromOrigin(c, m);
    }
  }

  lemma {:induction false} NoMailNoneLive(sessions: seq<Session>, m: Msg)
    requires forall k | 0 <= k < |sessions| :: m !in sessions[k].inbox
    ensures LiveMail(sessions, m) == 0
  {
    if sessions != [] {
      NoMailNoneLive(sessions[..|sessions| - 1], m);
    }
  }

  // The call made by the step itself, before it sends a message.
  lemma FreshCounts(c: Cluster, a: Action)
    requires Shape(c) && Enabled(c, a) && (a.LocalCall? || a.Direct?)
    ensures var (c1, id) := (LocalStep(c, a), |c.origins|);
      && Known(c1, id) && c1.origins[id] == Origin(a.n, a.item)
      && Unprocessed(c1, id) == (if a.LocalCall? then 1 else 0) && Pending(c1, id) == Sent(c1, id) == 0
  {
    var c1, id := LocalStep(c, a), |c.origins|;
    LocalStepExtends(c, a);
    FreshIsKnown(c, a);
    NotSeenBefore(c, Delivery(id, a.item, true), MsgOf(c1, id));
    hide KeyOf, Extends, Shape, HasMail;
  }

  lemma FreshIsKnown(c: Cluster, a: Action)
    requires Shape(c) && Enabled(c, a) && (a.LocalCall? || a.Direct?)
    ensures var c1 := LocalStep(c, a);
      Known(c1, |c.origins|) && c1.origins == c.origins + [Origin(a.n, a.item)] && |c1.nodes| == |c.nodes|
  {
    hide NodeStep;
  }

  lemma FreshCopies(c: Cluster, a: Action, n: nat)
    requires Shape(c) && Enabled(c, a) && (a.LocalCall? || a.Direct?) && n < |c.nodes|
    ensures Known(LocalStep(c, a), |c.origins|) && n < |LocalStep(c, a).nodes|
    ensures Inbound(LocalStep(c, a), |c.origins|, n) == Handed(LocalStep(c, a), |c.origins|, n) == 0
  {
    var c1, id := LocalStep(c, a), |c.origins|;
    FreshIsKnown(c, a);
    NotSeenBefore(c, Delivery(id, a.item, false), MsgOf(c1, id));
    assert c1.nodes[n].sessions == c.nodes[n].sessions && c1.nodes[n].delivered == c.nodes[n].delivered;
    NoMailNoneLive(c.nodes[n].sessions, MsgOf(c1, id));
  }

  // ---- every run ----

  // At a bridge no more copies than messages; with exact, at another node no fewer.
  ghost predicate OneCopy(c: Cluster, id: nat, n: nat, exact: bool)
    requires Known(c, id) && n < |c.nodes|
  {
    && Inbound(c, id, n) + Handed(c, id, n) <= Sent(c, id)
    && (exact && n != c.origins[id].node ==> Inbound(c, id, n) + Handed(c, id, n) == Sent(c, id))
  }

  // A hub that runs, with one bridge that is up.
  ghost predicate Up(node: Node) {
    node.hubRunning && Hooks(node.sessions, true) == Hooks(node.sessions, false) == LiveSubscriptions(node.sessions) == 1
  }

  ghost predicate AllUp(c: Cluster) {
    forall n | 0 <= n < |c.nodes| :: Up(c.nodes[n])
  }

  lemma PublishKeepsCopy(c: Cluster, n: nat, id: nat, item: Item, k: nat, i: nat, exact: bool)
    requires ReceivesOnce(c.prefix) && AllOneLive(c) && Known(c, id) && c.origins[id] == Origin(n, item)
    requires Known(c, k) && i < |c.nodes| && OneCopy(c, k, i, exact) && (exact ==> AllUp(c))
    ensures Known(Publish(c, n, id, item), k) && OneCopy(Publish(c, n, id, item), k, i, exact)
  {
    PublishCounts(c, n, id, item, k);
    PublishCopies(c, n, id, item, k, i);
    assert OneLive(c.nodes[i]) && (exact ==> Up(c.nodes[i]));
    OneLiveSubscription(c.nodes[i].sessions);
    hide Publish, Inbound, Handed, Sent, LiveSubscriptions, Hooks, MsgOf, ReceivesOnce;
  }

  // A message of a call that the bridge of another node receives is handed to its hub, if that
  // runs.
  lemma ReceivedIsDelivered(c: Cluster, a: Action, id: nat)
    requires Shape(c) && Enabled(c, a) && Known(c, id) && a.Receive? && a.m == MsgOf(c, id)
    requires Up(c.nodes[a.n]) && !Delivers(c, a, id)
    ensures a.n == c.origins[id].node
  {
    assert c.nodes[c.origins[id].node].source == MsgOf(c, id).source;
    hide Hooks, LiveSubscriptions, Contents;
  }

  lemma LocalKeepsCopy(c: Cluster, a: Action, id: nat, i: nat, exact: bool)
    requires Shape(c) && Enabled(c, a) && Known(c, id) && i < |c.nodes| && OneCopy(c, id, i, exact)
    requires exact ==> AllUp(c) && Healthy(a)
    ensures Known(LocalStep(c, a), id) && OneCopy(LocalStep(c, a), id, i, exact)
  {
    LocalQueues(c, a, id);
    LocalInbound(c, a, id, i);
    LocalHanded(c, a, id, i);
    assert exact ==> Up(c.nodes[a.n]);
    if exact && i == a.n && a.Receive? && a.m == MsgOf(c, id) && !Delivers(c, a, id) {
      ReceivedIsDelivered(c, a, id);
    }
    assert Delivers(c, a, id) ==> a.Receive? && a.m == MsgOf(c, id);
    hide LocalStep, Inbound, Handed, Sent, Unprocessed, Pending, MsgOf, NodeEnabled, Up, Shape, Delivers, Hooks, Notifying;
  }

  ghost predicate CopyAt(c: Cluster, id: nat, i: nat, exact: bool) {
    Known(c, id) && i < |c.nodes| && OneCopy(c, id, i, exact)
  }

  ghost predicate AllCopies(c: Cluster, exact: bool) {
    forall id, i | 0 <= id < |c.origins| && 0 <= i < |c.nodes| :: CopyAt(c, id, i, exact)
  }

  lemma LocalStepKeepsCopy(c: Cluster, a: Action, id: nat, i: nat, exact: bool)
    requires Shape(c) && Enabled(c, a) && AllCopies(c, exact)
    requires exact ==> AllUp(c) && Healthy(a)
    requires id < |LocalStep(c, a).origins| && i < |c.nodes|
    ensures CopyAt(LocalStep(c, a), id, i, exact)
  {
    SameOrigins(c, a);
    assert id < |c.origins| ==> CopyAt(c, id, i, exact);
    hide *;
    if id < |c.origins| {
      OldKeepsCopy(c, a, id, i, exact);
    } else {
      FreshKeepsCopy(c, a, i, exact);
    }
  }

  lemma OldKeepsCopy(c: Cluster, a: Action, id: nat, i: nat, exact: bool)
    requires Shape(c) && Enabled(c, a) && CopyAt(c, id, i, exact)
    requires exact ==> AllUp(c) && Healthy(a)
    ensures CopyAt(LocalStep(c, a), id, i, exact)
  {
    LocalStepExtends(c, a);
    hide LocalStep, OneCopy, NodeEnabled, Shape, AllUp, Healthy;
    LocalKeepsCopy(c, a, id, i, exact);
  }

  lemma SameOrigins(c: Cluster, a: Action)
    requires Enabled(c, a)
    ensures |LocalStep(c, a).origins| == |c.origins| + if a.LocalCall? || a.Direct? then 1 else 0
  {}

  lemma FreshKeepsCopy(c: Cluster, a: Action, i: nat, exact: bool)
    requires Shape(c) && Enabled(c, a) && i < |c.nodes|
    ensures a.LocalCall? || a.Direct? ==> CopyAt(LocalStep(c, a), |c.origins|, i, exact)
  {
    if a.LocalCall? || a.Direct? {
      FreshCounts(c, a);
      FreshCopies(c, a, i);
      hide LocalStep, Inbound, Handed, Sent, Unprocessed, Pending, NodeEnabled, Shape;
    }
  }

  lemma HealthyNodeStep(node: Node, a: Action, prefix: Channel, id: nat)
    requires NodeEnabled(node, a) && Healthy(a)
    ensures Up(node) ==> Up(NodeStep(node, a, prefix, id))
  {
    if a.Receive? {
      ReceiveKeepsHooks(node, a.k, a.m);
    }
    hide Received, Hooks, LiveSubscriptions;
  }

  lemma ReceiveKeepsHooks(node: Node, k: nat, m: Msg)
    requires k < |node.sessions|
    ensures forall broadcast :: Hooks(WithoutMail(node, k, m).sessions, broadcast) == Hooks(node.sessions, broadcast)
    ensures LiveSubscriptions(WithoutMail(node, k, m).sessions) == LiveSubscriptions(node.sessions)
  {
    forall broadcast
      ensures Hooks(WithoutMail(node, k, m).sessions, broadcast) == Hooks(node.sessions, broadcast)
      ensures LiveSubscriptions(WithoutMail(node, k, m).sessions) == LiveSubscriptions(node.sessions)
    {
      SameHooks(node.sessions, WithoutMail(node, k, m).sessions, broadcast);
    }
  }

  lemma {:induction false} SameHooks(xs: seq<Session>, ys: seq<Session>, broadcast: bool)
    requires |xs| == |ys| && forall k | 0 <= k < |xs| :: ys[k] == xs[k].(inbox := ys[k].inbox)
    ensures Hooks(xs, broadcast) == Hooks(ys, broadcast) && LiveSubscriptions(xs) == LiveSubscriptions(ys)
  {
    if xs != [] {
      SameHooks(xs[..|xs| - 1], ys[..|ys| - 1], broadcast);
    }
  }

  lemma HealthyKeepsUp(c: Cluster, a: Action)
    requires Enabled(c, a) && AllUp(c) && Healthy(a)
    ensures AllUp(LocalStep(c, a)) && AllUp(Step(c, a))
  {
    var c1 := LocalStep(c, a);
    HealthyNodeStep(c.nodes[a.n], a, c.prefix, |c.origins|);
    hide NodeStep, Up, Publish, NodeEnabled;
    assert AllUp(c1);
    if a.HookCall? && Forwardable(a.d.item) {
      PublishKeepsUp(c1, a.n, a.d.id, a.d.item);
    } else if a.Direct? {
      PublishKeepsUp(c1, a.n, |c.origins|, a.item);
    }
  }

  lemma PublishKeepsUp(c: Cluster, n: nat, id: nat, item: Item)
    requires n < |c.nodes| && AllUp(c)
    ensures AllUp(Publish(c, n, id, item))
  {
    hide KeyOf, MailAll, Hooks, LiveSubscriptions;
    var m := Msg(id, c.nodes[n].source, KeyOf(c.prefix, item), item.frame);
    forall i | 0 <= i < |c.nodes| ensures Up(Publish(c, n, id, item).nodes[i]) {
      assert Up(c.nodes[i]);
      HooksIgnoreMail(c.prefix, c.nodes[i].sessions, m, true);
      HooksIgnoreMail(c.prefix, c.nodes[i].sessions, m, false);
    }
  }

  lemma LocalStepKeepsCopies(c: Cluster, a: Action, exact: bool)
    requires Shape(c) && Enabled(c, a) && AllCopies(c, exact) && (exact ==> AllUp(c) && Healthy(a))
    ensures AllCopies(LocalStep(c, a), exact) && LocalStep(c, a).prefix == c.prefix
  {
    LocalStepExtends(c, a);
    var c1 := LocalStep(c, a);
    hide LocalStep, Shape, NodeEnabled, CopyAt, AllUp;
    forall id, i | 0 <= id < |c1.origins| && 0 <= i < |c1.nodes| ensures CopyAt(c1, id, i, exact) {
      LocalStepKeepsCopy(c, a, id, i, exact);
    }
  }

  lemma PublishKeepsCopies(c: Cluster, n: nat, id: nat, item: Item, exact: bool)
    requires ReceivesOnce(c.prefix) && AllOneLive(c) && Known(c, id) && c.origins[id] == Origin(n, item)
    requires AllCopies(c, exact) && (exact ==> AllUp(c))
    ensures AllCopies(Publish(c, n, id, item), exact)
  {
    PublishExtends(c, n, id, item);
    var c' := Publish(c, n, id, item);
    hide Publish, OneCopy, AllUp, AllOneLive, ReceivesOnce;
    forall k, i | 0 <= k < |c'.origins| && 0 <= i < |c'.nodes| ensures CopyAt(c', k, i, exact) {
      assert CopyAt(c, k, i, exact);
      PublishKeepsCopy(c, n, id, item, k, i, exact);
    }
  }

  lemma StepKeepsCopies(c: Cluster, a: Action, exact: bool)
    requires ReceivesOnce(c.prefix) && Shape(c) && AllOneLive(c) && Enabled(c, a) && AllCopies(c, exact)
    requires exact ==> AllUp(c) && Healthy(a)
    ensures AllCopies(Step(c, a), exact)
  {
    hide *;
    StepIs(c, a);
    LocalStepKeepsCopies(c, a, exact);
    StepKeepsOneLive(c, a);
    if exact {
      HealthyKeepsUp(c, a);
    }
    if Sends(c, a).Some? {
      PublishKeepsCopies(LocalStep(c, a), a.n, Sends(c, a).value, SentItem(a), exact);
    }
  }

  // A call is processed at most once, and before that no hook is called for it.
  ghost predicate ProcessedOnce(c: Cluster, id: nat)
    requires Known(c, id)
  {
    Unprocessed(c, id) <= 1 && (Unprocessed(c, id) == 1 ==> Pending(c, id) == Sent(c, id) == 0)
  }

  ghost predicate AllProcessedOnce(c: Cluster) {
    forall id | 0 <= id < |c.origins| :: Known(c, id) && ProcessedOnce(c, id)
  }

  lemma FreshStep(c: Cluster, a: Action)
    requires Shape(c) && Enabled(c, a) && (a.LocalCall? || a.Direct?)
    ensures var (c', id) := (Step(c, a), |c.origins|);
      && Known(c', id) && c'.origins[id] == Origin(a.n, a.item)
      && Unprocessed(c', id) == (if a.LocalCall? then 1 else 0) && Pending(c', id) == 0
      && Sent(c', id) == (if a.Direct? && a.ok then 1 else 0)
  {
    FreshCounts(c, a);
    StepIs(c, a);
    hide LocalStep, Step, Publish, Unprocessed, Pending, Sent, Shape, NodeEnabled;
    if Sends(c, a).Some? {
      PublishCounts(LocalStep(c, a), a.n, Sends(c, a).value, SentItem(a), |c.origins|);
    }
  }

  lemma NewOrigins(c: Cluster, a: Action)
    requires Enabled(c, a)
    ensures |Step(c, a).origins| == |c.origins| + if a.LocalCall? || a.Direct? then 1 else 0
    ensures Step(c, a).prefix == c.prefix
  {
    hide NodeStep;
  }

  // In the queue the delivery of a call is alone: its hook calls come later.
  lemma CallsHookAfter(c: Cluster, a: Action, id: nat)
    requires Shape(c) && Enabled(c, a) && Known(c, id)
    ensures CallsHook(a, Notifying(c, id)) ==> Pending(c, id) > 0
    ensures Dequeues(a, Notifying(c, id)) ==> Unprocessed(c, id) > 0 && a.n == c.origins[id].node
  {
    assert Contents(c, a.n, c.nodes[a.n]);
    hide FromOrigin, HasMail;
  }

  lemma EachProcessedOnce(c: Cluster, a: Action, id: nat)
    requires Shape(c) && Enabled(c, a) && id < |Step(c, a).origins|
    requires id < |c.origins| ==> Known(c, id) && ProcessedOnce(c, id)
    ensures Known(Step(c, a), id) && ProcessedOnce(Step(c, a), id)
  {
    NewOrigins(c, a);
    hide Step, Shape, NodeEnabled, Known, Unprocessed, Pending, Sent, Notifying, Hooks;
    if id < |c.origins| {
      StepCounts(c, a, id);
      CallsHookAfter(c, a, id);
    } else {
      FreshStep(c, a);
    }
  }

  lemma StepKeepsProcessedOnce(c: Cluster, a: Action)
    requires Shape(c) && Enabled(c, a) && AllProcessedOnce(c)
    ensures AllProcessedOnce(Step(c, a))
  {
    hide Step, Shape, Enabled, Known, ProcessedOnce;
    forall id | 0 <= id < |Step(c, a).origins| ensures Known(Step(c, a), id) && ProcessedOnce(Step(c, a), id) {
      EachProcessedOnce(c, a, id);
    }
  }

  // What every run keeps, however calls of Start overlap.
  ghost predicate Inv(c: Cluster) {
    ReceivesOnce(c.prefix) && Shape(c) && AllOneLive(c) && AllCopies(c, false) && AllProcessedOnce(c)
  }

  lemma StepKeepsInv(c: Cluster, a: Action)
    requires Inv(c) && Enabled(c, a)
    ensures Inv(Step(c, a))
  {
    StepKeepsShape(c, a);
    StepKeepsOneLive(c, a);
    StepKeepsCopies(c, a, false);
    StepKeepsProcessedOnce(c, a);
    NewOrigins(c, a);
    hide Step, Shape, AllOneLive, AllCopies, AllProcessedOnce, ReceivesOnce, Enabled;
  }

  lemma {:induction false} RunKeepsInv(c: Cluster, actions: seq<Action>)
    requires Inv(c) && ValidRun(c, actions)
    ensures Inv(Exec(c, actions))
    decreases |actions|
  {
    hide Inv, Step, Enabled;
    if actions != [] {
      StepKeepsInv(c, actions[0]);
      RunKeepsInv(Step(c, actions[0]), actions[1..]);
    }
  }

  predicate Distinct(sources: seq<nat>) {
    forall i, j | 0 <= i < |sources| && 0 <= j < |sources| && sources[i] == sources[j] :: i == j
  }

  lemma NewClusterHasInv(prefix: Channel, sources: seq<nat>)
    requires Distinct(sources)
    ensures Shape(NewCluster(prefix, sources)) && AllOneLive(NewCluster(prefix, sources))
    ensures ReceivesOnce(prefix) ==> Inv(NewCluster(prefix, sources))
  {}

  function TotalHanded(nodes: seq<Node>, d: Delivery): nat {
    if nodes == [] then 0 else TotalHanded(nodes[..|nodes| - 1], d) + nodes[|nodes| - 1].delivered[d]
  }

  lemma {:induction false} TotalIsBounded(nodes: seq<Node>, d: Delivery, origin: nat)
    requires forall i | 0 <= i < |nodes| :: nodes[i].delivered[d] <= if i == origin then 0 else 1
    ensures TotalHanded(nodes, d) <= if origin < |nodes| then |nodes| - 1 else |nodes|
  {
    if nodes != [] {
      TotalIsBounded(nodes[..|nodes| - 1], d, origin);
    }
  }

  lemma {:induction false} TotalIsExact(nodes: seq<Node>, d: Delivery, origin: nat)
    requires forall i | 0 <= i < |nodes| :: nodes[i].delivered[d] == if i == origin then 0 else 1
    ensures TotalHanded(nodes, d) == if origin < |nodes| then |nodes| - 1 else |nodes|
  {
    if nodes != [] {
      TotalIsExact(nodes[..|nodes| - 1], d, origin);
    }
  }

  lemma {:induction false} TotalIsScaled(nodes: seq<Node>, d: Delivery, origin: nat, each: nat)
    requires forall i | 0 <= i < |nodes| :: nodes[i].delivered[d] <= if i == origin then 0 else each
    ensures TotalHanded(nodes, d) <= each * if origin < |nodes| then |nodes| - 1 else |nodes|
  {
    if nodes != [] {
      TotalIsScaled(nodes[..|nodes| - 1], d, origin, each);
    }
  }

  // Every run of any number of nodes, with distinct source IDs and a common prefix without
  // "*", with calls of Start, Stop and Run at any time and in any overlap: at most one delivery
  // for each Redis message at each other node, and none at its own; so with n messages of a
  // call at most n * (N - 1) deliveries. Its hook calls are due only at its own node.
  lemma DeliveriesPerMessage(prefix: Channel, sources: seq<nat>, actions: seq<Action>, id: nat)
    requires ReceivesOnce(prefix) && Distinct(sources) && ValidRun(NewCluster(prefix, sources), actions)
    requires id < |Exec(NewCluster(prefix, sources), actions).origins|
    ensures var c := Exec(NewCluster(prefix, sources), actions);
      && Known(c, id)
      && (forall n | 0 <= n < |c.nodes| :: Handed(c, id, n) <= if n == c.origins[id].node then 0 else Sent(c, id))
      && TotalHanded(c.nodes, Delivery(id, c.origins[id].item, false)) <= Sent(c, id) * (|c.nodes| - 1)
      && (forall n, d | 0 <= n < |c.nodes| && d in c.nodes[n].calls && d.id == id :: n == c.origins[id].node)
  {
    NewClusterHasInv(prefix, sources);
    RunKeepsInv(NewCluster(prefix, sources), actions);
    hide Exec, ValidRun, NewCluster, ReceivesOnce, AllOneLive, AllProcessedOnce, Shape, AllCopies;
    BoundedAt(Exec(NewCluster(prefix, sources), actions), id);
  }

  lemma HandedElsewhere(c: Cluster, id: nat, n: nat)
    requires Shape(c) && AllCopies(c, false) && id < |c.origins| && n < |c.nodes|
    ensures Known(c, id) && Handed(c, id, n) <= if n == c.origins[id].node then 0 else Sent(c, id)
    ensures forall d | d in c.nodes[n].calls && d.id == id :: n == c.origins[id].node
  {
    assert CopyAt(c, id, n, false) && Contents(c, n, c.nodes[n]);
    hide MsgOf, FromOrigin, HasMail;
  }

  lemma BoundedAt(c: Cluster, id: nat)
    requires Shape(c) && AllCopies(c, false) && id < |c.origins|
    ensures Known(c, id)
    ensures forall n | 0 <= n < |c.nodes| :: Handed(c, id, n) <= if n == c.origins[id].node then 0 else Sent(c, id)
    ensures TotalHanded(c.nodes, Delivery(id, c.origins[id].item, false)) <= Sent(c, id) * (|c.nodes| - 1)
    ensures forall n, d | 0 <= n < |c.nodes| && d in c.nodes[n].calls && d.id == id :: n == c.origins[id].node
  {
    var d := Delivery(id, c.origins[id].item, false);
    assert c.origins[id] in c.origins;
    assert Known(c, id);
    hide Shape, AllCopies, Sent;
    forall n | 0 <= n < |c.nodes|
      ensures Handed(c, id, n) == c.nodes[n].delivered[d] <= if n == c.origins[id].node then 0 else Sent(c, id)
      ensures forall d | d in c.nodes[n].calls && d.id == id :: n == c.origins[id].node
    {
      HandedElsewhere(c, id, n);
    }
    TotalIsScaled(c.nodes, d, c.origins[id].node, Sent(c, id));
  }

  // ---- messages of a call, counted by the hooks that are installed when it is processed ----

  // After the delivery was processed the messages, with the hook calls still due, only go down.
  lemma {:induction false} AfterProcessing(c: Cluster, run: seq<Action>, id: nat)
    requires Shape(c) && ValidRun(c, run) && Known(c, id) && Unprocessed(c, id) == 0
    ensures Known(Exec(c, run), id) && Sent(Exec(c, run), id) <= Pending(c, id) + Sent(c, id)
    ensures Sent(Exec(c, run), id) + Pending(Exec(c, run), id) <= Pending(c, id) + Sent(c, id)
    decreases |run|
  {
    hide Step, Enabled, Shape, Known, Unprocessed, Pending, Sent, Notifying, Hooks;
    if run != [] {
      StepKeepsShape(c, run[0]);
      StepCounts(c, run[0], id);
      AfterProcessing(Step(c, run[0]), run[1..], id);
    }
  }

  lemma {:induction false} RunExtends(c: Cluster, run: seq<Action>)
    requires ValidRun(c, run)
    ensures Extends(c, Exec(c, run))
    decreases |run|
  {
    hide Step, Enabled, Extends;
    if run != [] {
      StepExtends(c, run[0]);
      RunExtends(Step(c, run[0]), run[1..]);
      ExtendsTransitive(c, Step(c, run[0]), Exec(c, run));
    } else {
      SelfExtends(c);
    }
  }

  lemma SelfExtends(c: Cluster)
    ensures Extends(c, c)
  {}

  function Repeat(a: Action, k: nat): seq<Action> {
    if k == 0 then [] else [a] + Repeat(a, k - 1)
  }

  lemma RunStep(c: Cluster, a: Action, rest: seq<Action>)
    requires Enabled(c, a) && ValidRun(Step(c, a), rest)
    ensures ValidRun(c, [a] + rest) && Exec(c, [a] + rest) == Exec(Step(c, a), rest)
  {
    hide Enabled, Step;
    assert ([a] + rest)[1..] == rest;
  }

  lemma {:induction false} RunsCompose(c: Cluster, xs: seq<Action>, ys: seq<Action>)
    requires ValidRun(c, xs) && ValidRun(Exec(c, xs), ys)
    ensures ValidRun(c, xs + ys) && Exec(c, xs + ys) == Exec(Exec(c, xs), ys)
    decreases |xs|
  {
    hide Enabled, Step;
    if xs == [] {
      assert xs + ys == ys;
    } else {
      assert (xs + ys)[1..] == xs[1..] + ys;
      RunsCompose(Step(c, xs[0]), xs[1..], ys);
    }
  }

  lemma HookCallEnabled(c: Cluster, id: nat)
    requires Shape(c) && Known(c, id) && Pending(c, id) > 0 && Forwardable(c.origins[id].item)
    ensures var a := HookCall(c.origins[id].node, Notifying(c, id), true);
      Enabled(c, a) && Sends(c, a) == Some(id)
  {}

  // All hook calls that are due can succeed.
  lemma {:induction false} AllCallsPublish(c: Cluster, id: nat, k: nat) returns (run: seq<Action>)
    requires Shape(c) && Known(c, id) && Pending(c, id) == k && Forwardable(c.origins[id].item)
    ensures ValidRun(c, run) && Known(Exec(c, run), id) && Sent(Exec(c, run), id) == Sent(c, id) + k
    decreases k
  {
    run := [];
    if k > 0 {
      var a := HookCall(c.origins[id].node, Notifying(c, id), true);
      HookCallEnabled(c, id);
      StepKeepsShape(c, a);
      StepCounts(c, a, id);
      hide Step, Enabled, Shape, Known, Unprocessed, Pending, Sent, Hooks;
      var more := AllCallsPublish(Step(c, a), id, k - 1);
      RunStep(c, a, more);
      run := [a] + more;
    }
  }

  // The state after the delivery of a call is processed, in whatever reachable state.
  lemma Processing(c: Cluster, id: nat)
    requires Inv(c) && Known(c, id) && Unprocessed(c, id) > 0
    ensures var a := Process(c.origins[id].node, Notifying(c, id));
      && Enabled(c, a)
      && var c1 := Step(c, a);
         && Shape(c1) && Known(c1, id) && c1.origins[id] == c.origins[id]
         && Unprocessed(c1, id) == 0 && Sent(c1, id) == 0
         && Pending(c1, id) == Hooks(c.nodes[c.origins[id].node].sessions, c.origins[id].item.Bcast?)
  {
    var a := Process(c.origins[id].node, Notifying(c, id));
    assert Enabled(c, a);
    assert ProcessedOnce(c, id);
    StepKeepsShape(c, a);
    StepCounts(c, a, id);
    hide Step, Shape, MsgOf, Hooks;
  }

  // In every run, a call sends at most as many messages as hooks for its kind were installed
  // on its hub when its delivery was processed, and may send as many; so it sends at most one
  // in every continuation exactly when at most one was.
  lemma AtMostOneMessageIff(prefix: Channel, sources: seq<nat>, actions: seq<Action>, id: nat)
    requires ReceivesOnce(prefix) && Distinct(sources) && ValidRun(NewCluster(prefix, sources), actions)
    requires var c := Exec(NewCluster(prefix, sources), actions); Known(c, id) && Unprocessed(c, id) > 0
    ensures var c := Exec(NewCluster(prefix, sources), actions);
      var hooks := Hooks(c.nodes[c.origins[id].node].sessions, c.origins[id].item.Bcast?);
      var a := Process(c.origins[id].node, Notifying(c, id));
      && Enabled(c, a)
      && (forall later | ValidRun(Step(c, a), later) ::
            Known(Exec(Step(c, a), later), id) && Sent(Exec(Step(c, a), later), id) <= hooks)
      && (Forwardable(c.origins[id].item) ==>
            ((forall later | ValidRun(Step(c, a), later) :: Sent(Exec(Step(c, a), later), id) <= 1) <==> hooks <= 1))
  {
    NewClusterHasInv(prefix, sources);
    RunKeepsInv(NewCluster(prefix, sources), actions);
    hide Exec, ValidRun, NewCluster, ReceivesOnce, Inv, Known, Unprocessed, Step, Enabled;
    MessagesOfProcessed(Exec(NewCluster(prefix, sources), actions), id);
  }

  lemma MessagesOfProcessed(c: Cluster, id: nat)
    requires Inv(c) && Known(c, id) && Unprocessed(c, id) > 0
    ensures var hooks := Hooks(c.nodes[c.origins[id].node].sessions, c.origins[id].item.Bcast?);
      var a := Process(c.origins[id].node, Notifying(c, id));
      && Enabled(c, a)
      && (forall later | ValidRun(Step(c, a), later) ::
            Known(Exec(Step(c, a), later), id) && Sent(Exec(Step(c, a), later), id) <= hooks)
      && (Forwardable(c.origins[id].item) ==>
            ((forall later | ValidRun(Step(c, a), later) :: Sent(Exec(Step(c, a), later), id) <= 1) <==> hooks <= 1))
  {
    Processing(c, id);
    var c1 := Step(c, Process(c.origins[id].node, Notifying(c, id)));
    hide Inv, Step, Exec, ValidRun, Unprocessed, Pending, Sent, Shape, Hooks;
    forall later | ValidRun(c1, later)
      ensures Known(Exec(c1, later), id) && Sent(Exec(c1, later), id) <= Pending(c1, id)
    {
      AfterProcessing(c1, later, id);
    }
    if Forwardable(c.origins[id].item) {
      var run := AllCallsPublish(c1, id, Pending(c1, id));
    }
  }
}
