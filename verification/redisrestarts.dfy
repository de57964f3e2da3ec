// A bridge that is started again too early: the two calls of Start overlap.
module RedisRestarts {
  import opened Bytes
  import opened RedisKeys
  import opened RedisCluster
  import opened RedisTraffic

  lemma OneNodeStep(c: Cluster, node: Node, a: Action)
    requires c.nodes == [node] && a.n == 0 && NodeEnabled(node, a)
    requires a.SetHubRunning? || a.StartCall? || a.StartStep? || a.EndSession?
    ensures Enabled(c, a) && Step(c, a) == c.(nodes := [NodeStep(node, a, c.prefix, |c.origins|)])
  {
    assert [node][0 := NodeStep(node, a, c.prefix, |c.origins|)] == [NodeStep(node, a, c.prefix, |c.origins|)];
  }

  // The four steps of a call of Start, the sessions before it being held.
  lemma StartRuns(c: Cluster, node: Node, held: seq<Session>)
    requires c.nodes == [node] && node.sessions == held && !node.running
    ensures var k := |held|;
      var run := [StartCall(0)] + ([StartStep(0, k)] + ([StartStep(0, k)] + ([StartStep(0, k)] + [])));
      && ValidRun(c, run)
      && Exec(c, run) ==
           c.(nodes := [node.(running := true, sessions := held + [UP])])
  {
    var k, a := |held|, StartStep(0, |held|);
    var n1 := node.(running := true, sessions := held + [NEW_SESSION]);
    var n2 := node.(running := true, sessions := held + [Session(Subscribed, true, false, false, multiset{})]);
    var n3 := node.(running := true, sessions := held + [Session(PublishHooked, true, true, false, multiset{})]);
    var n4 := node.(running := true, sessions := held + [UP]);
    var id := |c.origins|;
    assert NodeStep(node, StartCall(0), c.prefix, id) == n1;
    assert NodeStep(n1, a, c.prefix, id) == n2 && NodeStep(n2, a, c.prefix, id) == n3 && NodeStep(n3, a, c.prefix, id) == n4;
    OneNodeStep(c, node, StartCall(0));
    OneNodeStep(c.(nodes := [n1]), n1, a);
    OneNodeStep(c.(nodes := [n2]), n2, a);
    OneNodeStep(c.(nodes := [n3]), n3, a);
    hide Step, Enabled, NodeStep;
    RunStep(c.(nodes := [n3]), a, []);
    RunStep(c.(nodes := [n2]), a, [a] + []);
    RunStep(c.(nodes := [n1]), a, [a] + ([a] + []));
    RunStep(c, StartCall(0), [a] + ([a] + ([a] + [])));
  }

  function StartRun(k: nat): seq<Action> {
    [StartCall(0)] + ([StartStep(0, k)] + ([StartStep(0, k)] + ([StartStep(0, k)] + [])))
  }

  // One bridge: start it, let its receive loop end, and start it again at once.
  function OverlapRun(): seq<Action> {
    StartRun(0) + ([EndSession(0, 0)] + ([SetHubRunning(0, true)] + StartRun(1)))
  }

  const OVERLAPPED: Node :=
    NewNode(0).(running := true, hubRunning := true, sessions := [UP.(phase := Ending), UP])

  lemma EndThenRun(c: Cluster, n1: Node, n3: Node)
    requires c.nodes == [n1] && n1.sessions == [UP]
    requires n3 == n1.(running := false, hubRunning := true, sessions := [UP.(phase := Ending)])
    ensures Enabled(c, EndSession(0, 0)) && Enabled(Step(c, EndSession(0, 0)), SetHubRunning(0, true))
    ensures Step(Step(c, EndSession(0, 0)), SetHubRunning(0, true)) == c.(nodes := [n3])
  {
    var n2 := n1.(running := false, sessions := [UP.(phase := Ending)]);
    assert NodeStep(n1, EndSession(0, 0), c.prefix, |c.origins|) == n2;
    OneNodeStep(c, n1, EndSession(0, 0));
    OneNodeStep(c.(nodes := [n2]), n2, SetHubRunning(0, true));
  }

  lemma OverlapIsReachable(prefix: Channel)
    ensures ValidRun(NewCluster(prefix, [0]), OverlapRun())
    ensures Exec(NewCluster(prefix, [0]), OverlapRun()) == NewCluster(prefix, [0]).(nodes := [OVERLAPPED])
  {
    var c, n0 := NewCluster(prefix, [0]), NewNode(0);
    var n1 := n0.(running := true, sessions := [UP]);
    var n3 := n1.(running := false, hubRunning := true, sessions := [UP.(phase := Ending)]);
    assert c.nodes == [n0] && n0.sessions == [];
    assert [] + [UP] == [UP] && n3.sessions + [UP] == OVERLAPPED.sessions;
    var c1, c3 := c.(nodes := [n1]), c.(nodes := [n3]);
    StartRuns(c, n0, []);
    EndThenRun(c1, n1, n3);
    StartRuns(c3, n3, n3.sessions);
    assert n3.(running := true, sessions := OVERLAPPED.sessions) == OVERLAPPED;
    hide Step, Enabled, Exec, ValidRun, NewCluster;
    assert Exec(c3, StartRun(1)) == c.(nodes := [OVERLAPPED]);
    RunStep(Step(c1, EndSession(0, 0)), SetHubRunning(0, true), StartRun(1));
    RunStep(c1, EndSession(0, 0), [SetHubRunning(0, true)] + StartRun(1));
    RunsCompose(c, StartRun(0), [EndSession(0, 0)] + ([SetHubRunning(0, true)] + StartRun(1)));
  }

  lemma OverlappedCluster(prefix: Channel, c: Cluster, item: Item)
    requires c == NewCluster(prefix, [0]).(nodes := [OVERLAPPED])
    ensures Enabled(c, LocalCall(0, item))
    ensures var c1 := Step(c, LocalCall(0, item));
      && Known(c1, 0) && c1.origins[0] == Origin(0, item) && Unprocessed(c1, 0) == 1
      && Hooks(c1.nodes[0].sessions, item.Bcast?) == 2
  {
    TwoHooks(UP.(phase := Ending), UP, item.Bcast?);
    hide Hooks;
  }

  // One bridge is started again as soon as it is no longer running, before the previous Start
  // has taken down its hooks; then a client publishes.
  function PublishOverlapped(item: Item): seq<Action> {
    OverlapRun() + [LocalCall(0, item)]
  }

  // Both calls' hooks are installed when the publish is processed, and it can be sent twice.
  lemma OverlappingStartsDuplicate(prefix: Channel, item: Item)
    requires ReceivesOnce(prefix) && Forwardable(item)
    ensures ValidRun(NewCluster(prefix, [0]), PublishOverlapped(item))
    ensures var c := Exec(NewCluster(prefix, [0]), PublishOverlapped(item));
      var a := Process(0, Delivery(0, item, true));
      && Enabled(c, a)
      && exists later | ValidRun(Step(c, a), later) ::
           Known(Exec(Step(c, a), later), 0) && Sent(Exec(Step(c, a), later), 0) > 1
  {
    hide Step, Enabled, Exec, ValidRun, NewCluster, Hooks, Sent, Unprocessed, Known, ReceivesOnce, Distinct;
    hide PublishOverlapped, OverlapRun;
    var c0 := NewCluster(prefix, [0]);
    var c := c0.(nodes := [OVERLAPPED]);
    var b := LocalCall(0, item);
    OverlapIsReachable(prefix);
    OverlappedCluster(prefix, c, item);
    ValidEnd(Step(c, b));
    RunStep(c, b, []);
    RunsCompose(c0, OverlapRun(), [b] + []);
    PublishOverlappedIs(item);
    OneSource();
    AtMostOneMessageIff(prefix, [0], PublishOverlapped(item), 0);
  }

  lemma ValidEnd(c: Cluster)
    ensures ValidRun(c, []) && Exec(c, []) == c
  {}

  lemma PublishOverlappedIs(item: Item)
    ensures PublishOverlapped(item) == OverlapRun() + ([LocalCall(0, item)] + [])
  {}

  lemma OneSource()
    ensures Distinct([0])
  {}

  lemma TwoHooks(s: Session, t: Session, broadcast: bool)
    requires s.publishHook && s.broadcastHook && t.publishHook && t.broadcastHook
    ensures Hooks([s, t], broadcast) == 2
  {
    assert [s][..0] == [];
    assert Hooks([s], broadcast) == 1;
    assert [s, t][..1] == [s];
  }

  // ---- the end of a Start ----

  // The steps by which a call of Start ends: the locked section of its deferred function, then
  // the two hooks and the subscription.
  function Cleanup(k: nat): seq<Action> {
    [EndSession(0, k), Unhook(0, k, false), Unhook(0, k, true), Unsubscribe(0, k), ReturnSession(0, k)]
  }

  predicate NodeRunValid(node: Node, actions: seq<Action>, prefix: Channel)
    decreases |actions|
  {
    actions == [] ||
    (NodeEnabled(node, actions[0]) && NodeRunValid(NodeStep(node, actions[0], prefix, 0), actions[1..], prefix))
  }

  function NodeRun(node: Node, actions: seq<Action>, prefix: Channel): Node
    requires NodeRunValid(node, actions, prefix)
    decreases |actions|
  {
    if actions == [] then node else NodeRun(NodeStep(node, actions[0], prefix, 0), actions[1..], prefix)
  }

  lemma NodeRunStep(node: Node, a: Action, rest: seq<Action>, prefix: Channel)
    requires NodeEnabled(node, a) && NodeRunValid(NodeStep(node, a, prefix, 0), rest, prefix)
    ensures NodeRunValid(node, [a] + rest, prefix)
    ensures NodeRun(node, [a] + rest, prefix) == NodeRun(NodeStep(node, a, prefix, 0), rest, prefix)
  {
    hide NodeEnabled, NodeStep;
    assert ([a] + rest)[1..] == rest;
  }

  // Session k of a node in another state, the node running or not.
  function Having(node: Node, k: nat, s: Session, running: bool): Node
    requires k < |node.sessions|
  {
    node.(running := running, sessions := node.sessions[k := s])
  }

  lemma UnhookSteps(node: Node, k: nat, s: Session, prefix: Channel)
    requires k < |node.sessions| && s.phase.Receiving?
    ensures var s1 := s.(phase := Ending);
      var (n0, n1) := (Having(node, k, s, true), Having(node, k, s1, false));
      var n2 := Having(node, k, s1.(publishHook := false), false);
      && NodeEnabled(n0, EndSession(0, k)) && NodeStep(n0, EndSession(0, k), prefix, 0) == n1
      && NodeEnabled(n1, Unhook(0, k, false)) && NodeStep(n1, Unhook(0, k, false), prefix, 0) == n2
      && NodeEnabled(n2, Unhook(0, k, true))
      && NodeStep(n2, Unhook(0, k, true), prefix, 0) ==
           Having(node, k, s1.(publishHook := false, broadcastHook := false), false)
  {}

  lemma LastSteps(node: Node, k: nat, s: Session, prefix: Channel)
    requires k < |node.sessions| && s.phase.Ending? && !s.publishHook && !s.broadcastHook
    ensures var (n3, n4) := (Having(node, k, s, false), Having(node, k, s.(subscribed := false), false));
      && NodeEnabled(n3, Unsubscribe(0, k)) && NodeStep(n3, Unsubscribe(0, k), prefix, 0) == n4
      && NodeEnabled(n4, ReturnSession(0, k))
      && NodeStep(n4, ReturnSession(0, k), prefix, 0) == Having(node, k, s.(subscribed := false, phase := Returned), false)
  {}

  // When a Start whose loop has ended has cleaned up, its session holds no hook and no
  // subscription, the bridge can be started again, and nothing else has changed; what Stop had
  // taken down before makes no difference.
  lemma CleanupTakesAllDown(node: Node, k: nat, prefix: Channel)
    requires k < |node.sessions| && node.running && node.sessions[k].phase.Receiving?
    ensures NodeRunValid(node, Cleanup(k), prefix)
    ensures var after := NodeRun(node, Cleanup(k), prefix);
      after == node.(running := false, sessions := node.sessions[k := Session(Returned, false, false, false, node.sessions[k].inbox)])
  {
    var s := node.sessions[k];
    assert Having(node, k, s, true) == node;
    var s1 := s.(phase := Ending);
    var s2 := s1.(publishHook := false);
    var s3 := s2.(broadcastHook := false);
    var s4 := s3.(subscribed := false);
    UnhookSteps(node, k, s, prefix);
    LastSteps(node, k, s3, prefix);
    var last := Having(node, k, s4.(phase := Returned), false);
    assert NodeRunValid(last, [], prefix) && NodeRun(last, [], prefix) == last;
    hide NodeStep, NodeEnabled, NodeRun, NodeRunValid;
    NodeRunStep(Having(node, k, s4, false), ReturnSession(0, k), [], prefix);
    NodeRunStep(Having(node, k, s3, false), Unsubscribe(0, k), [ReturnSession(0, k)] + [], prefix);
    NodeRunStep(Having(node, k, s2, false), Unhook(0, k, true), [Unsubscribe(0, k)] + ([ReturnSession(0, k)] + []), prefix);
    NodeRunStep(Having(node, k, s1, false), Unhook(0, k, false),
                [Unhook(0, k, true)] + ([Unsubscribe(0, k)] + ([ReturnSession(0, k)] + [])), prefix);
    NodeRunStep(node, EndSession(0, k),
                [Unhook(0, k, false)] + ([Unhook(0, k, true)] + ([Unsubscribe(0, k)] + ([ReturnSession(0, k)] + []))), prefix);
    assert Cleanup(k) ==
      [EndSession(0, k)] + ([Unhook(0, k, false)] + ([Unhook(0, k, true)] + ([Unsubscribe(0, k)] + ([ReturnSession(0, k)] + []))));
  }

  // A message that a receive loop takes is handed to its hub as the item of the call it came
  // from, once, unless it is the node's own or the hub has stopped; a hub that queues it calls
  // no hook for it.
  lemma ReceiveHandsOver(c: Cluster, n: nat, k: nat, m: Msg, heard: bool)
    requires Shape(c) && n < |c.nodes| && NodeEnabled(c.nodes[n], Receive(n, k, m, heard))
    ensures m.id < |c.origins|
    ensures var node, node' := c.nodes[n], NodeStep(c.nodes[n], Receive(n, k, m, heard), c.prefix, |c.origins|);
      var d := Delivery(m.id, c.origins[m.id].item, false);
      var due := if c.origins[m.id].node != n && node.hubRunning then multiset{d} else multiset{};
      && node'.delivered == node.delivered + due
      && node'.queue == node.queue + (if heard then due else multiset{})
      && node'.calls == node.calls && node'.running == node.running
  {
    assert HasMail(c.nodes[n], m) && Contents(c, n, c.nodes[n]) && FromOrigin(c, m);
    ReceivedIsOrigin(c, m);
    hide RedisCluster.Received, KeyOf, Contents;
  }
}
