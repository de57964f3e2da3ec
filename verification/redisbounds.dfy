// The traffic of one call when at most one hook of each kind is installed: at most, and without
// failures exactly, one message and one delivery at each other node.
module RedisBounds {
  import opened Bytes
  import opened RedisKeys
  import opened RedisCluster
  import opened RedisTraffic

  // When a delivery is processed that hooks are to be called for, at most one is installed.
  predicate SingleHooked(c: Cluster, a: Action)
    requires Enabled(c, a)
  {
    a.Process? && a.d.notify ==> Hooks(c.nodes[a.n].sessions, a.d.item.Bcast?) <= 1
  }

  predicate SingleHookedRun(c: Cluster, actions: seq<Action>)
    requires ValidRun(c, actions)
    decreases |actions|
  {
    actions == [] || (SingleHooked(c, actions[0]) && SingleHookedRun(Step(c, actions[0]), actions[1..]))
  }

  // At most one message, sent or to come; with exact, no fewer.
  ghost predicate OneMessage(c: Cluster, id: nat, exact: bool) {
    && Known(c, id)
    && Unprocessed(c, id) + Pending(c, id) + Sent(c, id) <= 1
    && (exact && Forwardable(c.origins[id].item) ==> Unprocessed(c, id) + Pending(c, id) + Sent(c, id) == 1)
  }

  ghost predicate AllOneMessage(c: Cluster, exact: bool) {
    forall id | 0 <= id < |c.origins| :: OneMessage(c, id, exact)
  }

  lemma StepKeepsOneMessage(c: Cluster, a: Action, id: nat, exact: bool)
    requires Shape(c) && Enabled(c, a) && SingleHooked(c, a) && OneMessage(c, id, exact)
    requires exact ==> AllUp(c) && Healthy(a)
    ensures OneMessage(Step(c, a), id, exact)
  {
    StepCounts(c, a, id);
    CallsHookAfter(c, a, id);
    var d := Notifying(c, id);
    assert exact ==> Up(c.nodes[a.n]);
    assert CallsHook(a, d) && exact && Forwardable(d.item) ==> Sends(c, a) == Some(id);
    hide Step, Shape, NodeEnabled, Unprocessed, Pending, Sent, Hooks, LiveSubscriptions, Known, MsgOf;
  }

  lemma FreshOneMessage(c: Cluster, a: Action, exact: bool)
    requires Shape(c) && Enabled(c, a) && (a.LocalCall? || a.Direct?) && (exact ==> Healthy(a))
    ensures OneMessage(Step(c, a), |c.origins|, exact)
  {
    FreshStep(c, a);
    hide Step, Shape, NodeEnabled, Unprocessed, Pending, Sent, Known;
  }

  lemma EachOneMessage(c: Cluster, a: Action, id: nat, exact: bool)
    requires Shape(c) && Enabled(c, a) && SingleHooked(c, a) && (exact ==> AllUp(c) && Healthy(a))
    requires id < |Step(c, a).origins| && (id < |c.origins| ==> OneMessage(c, id, exact))
    ensures OneMessage(Step(c, a), id, exact)
  {
    hide *;
    NewOrigins(c, a);
    if id < |c.origins| {
      StepKeepsOneMessage(c, a, id, exact);
    } else {
      FreshOneMessage(c, a, exact);
    }
  }

  lemma StepKeepsAllOneMessage(c: Cluster, a: Action, exact: bool)
    requires Shape(c) && Enabled(c, a) && SingleHooked(c, a) && AllOneMessage(c, exact)
    requires exact ==> AllUp(c) && Healthy(a)
    ensures AllOneMessage(Step(c, a), exact)
  {
    hide Step, Shape, Enabled, OneMessage, SingleHooked, AllUp, Healthy;
    forall id | 0 <= id < |Step(c, a).origins| ensures OneMessage(Step(c, a), id, exact) {
      EachOneMessage(c, a, id, exact);
    }
  }

  lemma {:induction false} RunKeepsOneMessage(c: Cluster, actions: seq<Action>)
    requires Shape(c) && ValidRun(c, actions) && SingleHookedRun(c, actions) && AllOneMessage(c, false)
    ensures Shape(Exec(c, actions)) && AllOneMessage(Exec(c, actions), false)
    decreases |actions|
  {
    hide Step, Shape, Enabled, AllOneMessage, SingleHooked;
    if actions != [] {
      StepKeepsShape(c, actions[0]);
      StepKeepsAllOneMessage(c, actions[0], false);
      RunKeepsOneMessage(Step(c, actions[0]), actions[1..]);
    }
  }

  // In every run in which at most one hook of each kind is installed whenever a call is
  // processed, also with overlapping calls of Start: each call of Publish, Broadcast or their
  // direct forms causes at most one Redis message, at most one delivery at each other node and
  // none at its own, so at most 1 + (N - 1) of both together.
  lemma TrafficIsBounded(prefix: Channel, sources: seq<nat>, actions: seq<Action>, id: nat)
    requires ReceivesOnce(prefix) && Distinct(sources)
    requires ValidRun(NewCluster(prefix, sources), actions) && SingleHookedRun(NewCluster(prefix, sources), actions)
    requires id < |Exec(NewCluster(prefix, sources), actions).origins|
    ensures var c := Exec(NewCluster(prefix, sources), actions);
      && Known(c, id) && Sent(c, id) <= 1
      && (forall n | 0 <= n < |c.nodes| :: Handed(c, id, n) <= if n == c.origins[id].node then 0 else Sent(c, id))
      && Sent(c, id) + TotalHanded(c.nodes, Delivery(id, c.origins[id].item, false)) <= |c.nodes|
  {
    var c0 := NewCluster(prefix, sources);
    NewClusterHasInv(prefix, sources);
    assert AllOneMessage(c0, false);
    DeliveriesPerMessage(prefix, sources, actions, id);
    RunKeepsOneMessage(c0, actions);
    var c := Exec(c0, actions);
    assert OneMessage(c, id, false);
    hide Exec, ValidRun, SingleHookedRun, NewCluster, Shape, AllOneMessage, TotalHanded, Sent, Handed;
    BoundOfOne(Sent(c, id), |c.nodes|);
  }

  lemma BoundOfOne(sent: nat, nodes: nat)
    requires sent <= 1 && nodes > 0
    ensures sent + sent * (nodes - 1) <= nodes
  {}

  // ---- calls of Start one after the other ----

  // Only the last call of Start may still hold anything.
  ghost predicate Tidy(node: Node) {
    var n := |node.sessions|;
    && (forall k | 0 <= k < n - 1 :: node.sessions[k].phase.Returned?)
    && (forall k | 0 <= k < n && node.sessions[k].phase.Returned? ::
          !node.sessions[k].publishHook && !node.sessions[k].broadcastHook)
    && (node.running ==> n > 0 && Live(node.sessions[n - 1]))
  }

  ghost predicate AllTidy(c: Cluster) {
    forall n | 0 <= n < |c.nodes| :: Tidy(c.nodes[n])
  }

  lemma {:induction false} ReturnedHoldNothing(sessions: seq<Session>, broadcast: bool)
    requires forall k | 0 <= k < |sessions| :: !sessions[k].publishHook && !sessions[k].broadcastHook
    ensures Hooks(sessions, broadcast) == 0
  {
    if sessions != [] {
      ReturnedHoldNothing(sessions[..|sessions| - 1], broadcast);
    }
  }

  lemma TidyHoldsOne(node: Node, broadcast: bool)
    requires Tidy(node)
    ensures Hooks(node.sessions, broadcast) <= 1
  {
    if node.sessions != [] {
      ReturnedHoldNothing(node.sessions[..|node.sessions| - 1], broadcast);
    }
  }

  // One session changes, not having returned before.
  lemma SessionKeepsTidy(node: Node, k: nat, s: Session, running: bool)
    requires Tidy(node) && k < |node.sessions| && !node.sessions[k].phase.Returned?
    requires s.phase.Returned? ==> !s.publishHook && !s.broadcastHook
    requires running ==> Live(s)
    ensures Tidy(WithSession(node, k, s).(running := running))
  {}

  lemma MailKeepsTidy(node: Node, k: nat, s: Session)
    requires Tidy(node) && k < |node.sessions| && s == node.sessions[k].(inbox := s.inbox)
    ensures Tidy(WithSession(node, k, s))
  {}

  lemma NodeStepKeepsTidy(node: Node, a: Action, prefix: Channel, id: nat)
    requires NodeEnabled(node, a) && Tidy(node)
    requires a.StartCall? && !node.running ==> forall s | s in node.sessions :: s.phase.Returned?
    ensures Tidy(NodeStep(node, a, prefix, id))
  {
    if SessionAction(a) {
      SessionActionKeepsTidy(node, a, prefix, id);
    } else if a.Receive? || a.Lose? {
      MailKeepsTidy(node, a.k, WithoutMail(node, a.k, a.m).sessions[a.k]);
      hide Received;
    } else if a.StartCall? {
      if !node.running {
        StartKeepsTidy(node);
      }
    } else {
      hide Hooks;
      assert NodeStep(node, a, prefix, id).sessions == node.sessions && NodeStep(node, a, prefix, id).running == node.running;
    }
  }

  lemma StartKeepsTidy(node: Node)
    requires Tidy(node) && forall s | s in node.sessions :: s.phase.Returned?
    ensures Tidy(node.(running := true, sessions := node.sessions + [NEW_SESSION]))
  {
    assert forall k | 0 <= k < |node.sessions| :: node.sessions[k] in node.sessions;
  }

  lemma SessionActionKeepsTidy(node: Node, a: Action, prefix: Channel, id: nat)
    requires NodeEnabled(node, a) && Tidy(node) && SessionAction(a)
    ensures Tidy(NodeStep(node, a, prefix, id))
  {
    match a
    case StartStep(_, k) => SessionKeepsTidy(node, k, Begin(node.sessions[k]), node.running);
    case EndSession(_, k) => SessionKeepsTidy(node, k, node.sessions[k].(phase := Ending), false);
    case Unhook(_, k, _) => SessionKeepsTidy(node, k, NodeStep(node, a, prefix, id).sessions[k], node.running);
    case Unsubscribe(_, k) => SessionKeepsTidy(node, k, node.sessions[k].(subscribed := false), node.running);
    case ReturnSession(_, k) => SessionKeepsTidy(node, k, node.sessions[k].(phase := Returned), node.running);
  }

  lemma PublishKeepsTidy(c: Cluster, n: nat, id: nat, item: Item)
    requires n < |c.nodes| && AllTidy(c)
    ensures AllTidy(Publish(c, n, id, item))
  {
    hide KeyOf, Copies;
    var c', m := Publish(c, n, id, item), Msg(id, c.nodes[n].source, KeyOf(c.prefix, item), item.frame);
    forall i | 0 <= i < |c.nodes| ensures Tidy(c'.nodes[i]) {
      assert Tidy(c.nodes[i]);
      assert c'.nodes[i] == c.nodes[i].(sessions := MailAll(c.prefix, c.nodes[i].sessions, m));
    }
  }

  lemma StepKeepsTidy(c: Cluster, a: Action)
    requires Enabled(c, a) && Sequential(c, a) && AllTidy(c)
    ensures AllTidy(Step(c, a)) && SingleHooked(c, a)
  {
    var c1 := LocalStep(c, a);
    NodeStepKeepsTidy(c.nodes[a.n], a, c.prefix, |c.origins|);
    if a.Process? {
      TidyHoldsOne(c.nodes[a.n], a.d.item.Bcast?);
    }
    hide Tidy, NodeStep, NodeEnabled, Publish, Hooks;
    assert AllTidy(c1);
    if a.HookCall? && a.ok && Forwardable(a.d.item) {
      PublishKeepsTidy(c1, a.n, a.d.id, a.d.item);
    } else if a.Direct? && a.ok {
      PublishKeepsTidy(c1, a.n, |c.origins|, a.item);
    }
  }

  // A caller who waits for Start to return before calling it again is safe.
  lemma {:induction false} SequentialIsSingleHooked(c: Cluster, actions: seq<Action>)
    requires AllTidy(c) && ValidRun(c, actions) && SequentialRun(c, actions)
    ensures SingleHookedRun(c, actions)
    decreases |actions|
  {
    hide AllTidy, Enabled, Step, Sequential, SingleHooked;
    if actions != [] {
      StepKeepsTidy(c, actions[0]);
      SequentialIsSingleHooked(Step(c, actions[0]), actions[1..]);
    }
  }

  lemma NewClusterIsTidy(prefix: Channel, sources: seq<nat>)
    ensures AllTidy(NewCluster(prefix, sources))
  {}

  // From a new cluster on: if Start is called only after every earlier call of it has returned,
  // each call of Publish, Broadcast or their direct forms causes at most one Redis message, at
  // most one delivery at each other node, none at its own, and at most 1 + (N - 1) in all.
  lemma SequentialTrafficIsBounded(prefix: Channel, sources: seq<nat>, actions: seq<Action>, id: nat)
    requires ReceivesOnce(prefix) && Distinct(sources)
    requires ValidRun(NewCluster(prefix, sources), actions) && SequentialRun(NewCluster(prefix, sources), actions)
    requires id < |Exec(NewCluster(prefix, sources), actions).origins|
    ensures var c := Exec(NewCluster(prefix, sources), actions);
      && Known(c, id) && Sent(c, id) <= 1
      && (forall n | 0 <= n < |c.nodes| :: Handed(c, id, n) <= if n == c.origins[id].node then 0 else Sent(c, id))
      && Sent(c, id) + TotalHanded(c.nodes, Delivery(id, c.origins[id].item, false)) <= |c.nodes|
  {
    hide *;
    NewClusterIsTidy(prefix, sources);
    SequentialIsSingleHooked(NewCluster(prefix, sources), actions);
    TrafficIsBounded(prefix, sources, actions, id);
  }

  // ---- exact counts ----

  predicate HealthyRun(actions: seq<Action>) {
    forall a | a in actions :: Healthy(a)
  }

  lemma UpIsSingleHooked(c: Cluster, a: Action)
    requires Enabled(c, a) && AllUp(c)
    ensures SingleHooked(c, a)
  {
    hide Hooks, LiveSubscriptions;
    assert Up(c.nodes[a.n]);
  }

  lemma {:induction false} HealthyRunIsExact(c: Cluster, actions: seq<Action>)
    requires ReceivesOnce(c.prefix) && Shape(c) && AllOneLive(c) && AllUp(c)
    requires AllCopies(c, true) && AllOneMessage(c, true) && ValidRun(c, actions) && HealthyRun(actions)
    ensures var c' := Exec(c, actions); Shape(c') && AllCopies(c', true) && AllOneMessage(c', true)
    decreases |actions|
  {
    hide Shape, AllOneLive, AllCopies, AllOneMessage, ReceivesOnce, Step, Enabled, AllUp, Healthy, SingleHooked;
    if actions != [] {
      var a := actions[0];
      HealthyKeepsUp(c, a);
      StepKeepsShape(c, a);
      StepKeepsOneLive(c, a);
      StepKeepsCopies(c, a, true);
      UpIsSingleHooked(c, a);
      StepKeepsAllOneMessage(c, a, true);
      NewOrigins(c, a);
      HealthyRunIsExact(Step(c, a), actions[1..]);
    }
  }

  // Nothing is queued, due or on its way to a receive loop.
  ghost predicate Drained(c: Cluster) {
    forall n | 0 <= n < |c.nodes| ::
      && c.nodes[n].queue == multiset{} && c.nodes[n].calls == multiset{}
      && forall m :: LiveMail(c.nodes[n].sessions, m) == 0
  }

  // Without errors, lost messages or stops, and once everything has drained, the bounds are
  // exact: one message, and one delivery at every other node.
  lemma TrafficIsExact(c: Cluster, actions: seq<Action>, id: nat)
    requires ReceivesOnce(c.prefix) && Shape(c) && AllOneLive(c) && AllUp(c) && c.origins == []
    requires ValidRun(c, actions) && HealthyRun(actions) && Drained(Exec(c, actions))
    requires id < |Exec(c, actions).origins| && Forwardable(Exec(c, actions).origins[id].item)
    ensures var c' := Exec(c, actions);
      && Known(c', id) && Sent(c', id) == 1
      && (forall n | 0 <= n < |c'.nodes| :: Handed(c', id, n) == if n == c'.origins[id].node then 0 else 1)
      && TotalHanded(c'.nodes, Delivery(id, c'.origins[id].item, false)) == |c'.nodes| - 1
  {
    assert AllCopies(c, true) && AllOneMessage(c, true);
    HealthyRunIsExact(c, actions);
    hide Exec, ValidRun, ReceivesOnce, AllOneLive, AllUp, HealthyRun, Shape, AllCopies, AllOneMessage, Drained;
    ExactAt(Exec(c, actions), id);
  }

  lemma DrainedCounts(c: Cluster, id: nat, n: nat)
    requires Drained(c) && Shape(c) && AllCopies(c, true) && AllOneMessage(c, true)
    requires id < |c.origins| && n < |c.nodes| && Forwardable(c.origins[id].item)
    ensures Known(c, id) && Sent(c, id) == 1 && Handed(c, id, n) == if n == c.origins[id].node then 0 else 1
  {
    assert OneMessage(c, id, true) && CopyAt(c, id, n, true);
    assert Contents(c, n, c.nodes[n]);
    hide MsgOf, LiveMail, FromOrigin, HasMail;
    assert Inbound(c, id, n) == 0;
  }

  lemma ExactAt(c: Cluster, id: nat)
    requires Shape(c) && AllCopies(c, true) && AllOneMessage(c, true) && Drained(c)
    requires id < |c.origins| && Forwardable(c.origins[id].item)
    ensures Known(c, id) && Sent(c, id) == 1
    ensures forall n | 0 <= n < |c.nodes| :: Handed(c, id, n) == if n == c.origins[id].node then 0 else 1
    ensures TotalHanded(c.nodes, Delivery(id, c.origins[id].item, false)) == |c.nodes| - 1
  {
    assert c.origins[id] in c.origins;
    var d, o := Delivery(id, c.origins[id].item, false), c.origins[id].node;
    hide Shape, AllCopies, AllOneMessage, Drained, Sent;
    DrainedCounts(c, id, o);
    forall n | 0 <= n < |c.nodes| ensures Handed(c, id, n) == c.nodes[n].delivered[d] == if n == o then 0 else 1 {
      DrainedCounts(c, id, n);
    }
    TotalIsExact(c.nodes, d, o);
  }

  // ---- a cluster that is up ----

  // A new node on which the hub runs and the bridge has been started.
  function UpNode(source: nat): Node {
    NewNode(source).(hubRunning := true, running := true, sessions := [UP])
  }

  function UpCluster(prefix: Channel, sources: seq<nat>): Cluster {
    Cluster(prefix, seq(|sources|, i requires 0 <= i < |sources| => UpNode(sources[i])), multiset{}, [])
  }

  // The steps that bring node n up.
  function StartNode(n: nat): seq<Action> {
    [SetHubRunning(n, true)] + ([StartCall(n)] + ([StartStep(n, 0)] + ([StartStep(n, 0)] + ([StartStep(n, 0)] + []))))
  }

  lemma NodeChanges(c: Cluster, a: Action, node: Node)
    requires Enabled(c, a) && (a.SetHubRunning? || a.StartCall? || a.StartStep?)
    requires NodeStep(c.nodes[a.n], a, c.prefix, |c.origins|) == node
    ensures Step(c, a) == c.(nodes := c.nodes[a.n := node])
  {}

  lemma StartNodeRuns(c: Cluster, n: nat)
    requires n < |c.nodes| && c.nodes[n] == NewNode(c.nodes[n].source)
    ensures ValidRun(c, StartNode(n)) && Exec(c, StartNode(n)) == c.(nodes := c.nodes[n := UpNode(c.nodes[n].source)])
  {
    var n0, a := c.nodes[n], StartStep(n, 0);
    var n1 := n0.(hubRunning := true);
    var n2 := n1.(running := true, sessions := [NEW_SESSION]);
    var n3 := n2.(sessions := [Session(Subscribed, true, false, false, multiset{})]);
    var n4 := n2.(sessions := [Session(PublishHooked, true, true, false, multiset{})]);
    var n5 := n2.(sessions := [UP]);
    assert [] + [NEW_SESSION] == [NEW_SESSION];
    var c1, c2, c3 := c.(nodes := c.nodes[n := n1]), c.(nodes := c.nodes[n := n2]), c.(nodes := c.nodes[n := n3]);
    var c4, c5 := c.(nodes := c.nodes[n := n4]), c.(nodes := c.nodes[n := n5]);
    NodeChanges(c, SetHubRunning(n, true), n1);
    NodeChanges(c1, StartCall(n), n2);
    NodeChanges(c2, a, n3);
    NodeChanges(c3, a, n4);
    NodeChanges(c4, a, n5);
    assert c1.nodes[n := n2] == c2.nodes && c2.nodes[n := n3] == c3.nodes;
    assert c3.nodes[n := n4] == c4.nodes && c4.nodes[n := n5] == c5.nodes;
    hide Step, NodeStep;
    RunStep(c4, a, []);
    RunStep(c3, a, [a] + []);
    RunStep(c2, a, [a] + ([a] + []));
    RunStep(c1, StartCall(n), [a] + ([a] + ([a] + [])));
    RunStep(c, SetHubRunning(n, true), [StartCall(n)] + ([a] + ([a] + ([a] + []))));
  }

  function StartFrom(n: nat, count: nat): seq<Action>
    decreases count
  {
    if count == 0 then [] else StartNode(n) + StartFrom(n + 1, count - 1)
  }

  // The nodes before n are up, the others new.
  function PartlyUp(prefix: Channel, sources: seq<nat>, n: nat): Cluster {
    Cluster(prefix, seq(|sources|, i requires 0 <= i < |sources| => if i < n then UpNode(sources[i]) else NewNode(sources[i])),
            multiset{}, [])
  }

  lemma {:induction false} StartFromRuns(prefix: Channel, sources: seq<nat>, n: nat)
    requires n <= |sources|
    ensures ValidRun(PartlyUp(prefix, sources, n), StartFrom(n, |sources| - n))
    ensures Exec(PartlyUp(prefix, sources, n), StartFrom(n, |sources| - n)) == UpCluster(prefix, sources)
    decreases |sources| - n
  {
    var c := PartlyUp(prefix, sources, n);
    if n == |sources| {
      assert c.nodes == UpCluster(prefix, sources).nodes;
    } else {
      var next := PartlyUp(prefix, sources, n + 1);
      StartNodeRuns(c, n);
      assert c.nodes[n := UpNode(c.nodes[n].source)] == next.nodes;
      StartFromRuns(prefix, sources, n + 1);
      hide Step, Enabled, UpNode, StartNode;
      RunsCompose(c, StartNode(n), StartFrom(n + 1, |sources| - n - 1));
    }
  }

  // Every cluster that is up is reached from a new one, and meets the conditions of
  // TrafficIsExact.
  lemma UpClusterIsReached(prefix: Channel, sources: seq<nat>)
    requires Distinct(sources)
    ensures ValidRun(NewCluster(prefix, sources), StartFrom(0, |sources|))
    ensures Exec(NewCluster(prefix, sources), StartFrom(0, |sources|)) == UpCluster(prefix, sources)
    ensures var c := UpCluster(prefix, sources); Shape(c) && AllOneLive(c) && AllUp(c) && c.origins == []
  {
    NewIsPartlyUp(prefix, sources);
    UpClusterNodes(prefix, sources);
    hide *;
    StartFromRuns(prefix, sources, 0);
    UpClusterIsUp(UpCluster(prefix, sources));
  }

  lemma NewIsPartlyUp(prefix: Channel, sources: seq<nat>)
    ensures NewCluster(prefix, sources) == PartlyUp(prefix, sources, 0)
  {
    assert NewCluster(prefix, sources).nodes == PartlyUp(prefix, sources, 0).nodes;
  }

  lemma UpClusterNodes(prefix: Channel, sources: seq<nat>)
    requires Distinct(sources)
    ensures var c := UpCluster(prefix, sources);
      && DistinctSources(c) && c.published == multiset{} && c.origins == [] && c.prefix == prefix
      && forall n | 0 <= n < |c.nodes| :: c.nodes[n] == UpNode(c.nodes[n].source)
  {}

  lemma UpClusterIsUp(c: Cluster)
    requires DistinctSources(c) && c.published == multiset{} && c.origins == []
    requires forall n | 0 <= n < |c.nodes| :: c.nodes[n] == UpNode(c.nodes[n].source)
    ensures Shape(c) && AllOneLive(c) && AllUp(c)
  {
    forall n | 0 <= n < |c.nodes| ensures Up(c.nodes[n]) && OneLive(c.nodes[n]) {
      assert c.nodes[n].sessions[..0] == [] && Live(c.nodes[n].sessions[0]);
    }
  }

  // From a new cluster on, all nodes started and then nothing but calls, deliveries and
  // messages that succeed: once all is drained, exactly one message and one delivery at every
  // other node for each call.
  lemma TrafficOfStartedIsExact(prefix: Channel, sources: seq<nat>, actions: seq<Action>, id: nat)
    requires ReceivesOnce(prefix) && Distinct(sources) && ValidRun(UpCluster(prefix, sources), actions)
    requires var c := Exec(UpCluster(prefix, sources), actions);
      HealthyRun(actions) && Drained(c) && id < |c.origins| && Forwardable(c.origins[id].item)
    ensures var start := StartFrom(0, |sources|);
      && ValidRun(NewCluster(prefix, sources), start + actions)
      && var c := Exec(NewCluster(prefix, sources), start + actions);
         && Known(c, id) && Sent(c, id) == 1
         && (forall n | 0 <= n < |c.nodes| :: Handed(c, id, n) == if n == c.origins[id].node then 0 else 1)
  {
    UpClusterIsReached(prefix, sources);
    assert UpCluster(prefix, sources).prefix == prefix;
    hide Exec, ValidRun, UpCluster, NewCluster, StartFrom, Drained, ReceivesOnce, HealthyRun;
    RunsCompose(NewCluster(prefix, sources), StartFrom(0, |sources|), actions);
    TrafficIsExact(UpCluster(prefix, sources), actions, id);
  }
}
