// Hubs joined by Redis bridges (go/adapter/redis/redis.go): one bridge per hub, all with the
// same prefix, and Redis as a broker that copies each message to every subscription that
// matches it. Every locked section, hook call and message is one step.
module RedisCluster {
  import opened Bytes
  import opened RedisKeys

  datatype Item = Pub(channel: Channel, frame: Frame) | Bcast(frame: Frame)

  // The id of a delivery or message is the number of the call that caused it; the code
  // carries no such number, and no step below looks at it.
  datatype Delivery = Delivery(id: nat, item: Item, notify: bool)
  datatype Msg = Msg(id: nat, source: nat, key: Channel, frame: Frame)
  datatype Origin = Origin(node: nat, item: Item)

  // How far a call of Start has come.
  datatype Phase = Starting | Subscribed | PublishHooked | Receiving | Ending | Returned

  // What a call of Start holds: its subscription, its two hooks on the hub, and the messages on
  // their way to it from Redis.
  datatype Session = Session(
    phase: Phase, subscribed: bool, publishHook: bool, broadcastHook: bool, inbox: multiset<Msg>)

  datatype Node = Node(
    source: nat,                     // bridge.sourceID
    hubRunning: bool,
    running: bool,                   // bridge.running
    sessions: seq<Session>,          // every call of Start, oldest first
    queue: multiset<Delivery>,       // accepted by the hub, not processed yet
    calls: multiset<Delivery>,       // hook calls that are due
    delivered: multiset<Delivery>)   // handed to the hub by the bridge so far

  datatype Cluster = Cluster(
    prefix: Channel, nodes: seq<Node>, published: multiset<Msg>, origins: seq<Origin>)

  datatype Action =
    | SetHubRunning(n: nat, on: bool)
    | StartCall(n: nat) | StartStep(n: nat, k: nat)
    | EndSession(n: nat, k: nat)                             // the receive loop returns
    | Unhook(n: nat, k: nat, broadcast: bool) | Unsubscribe(n: nat, k: nat)  // by Stop or by Start's cleanup
    | ReturnSession(n: nat, k: nat)
    | LocalCall(n: nat, item: Item)                          // Publish or Broadcast on the hub
    | Process(n: nat, d: Delivery)
    | GiveUp(n: nat, d: Delivery)                            // by a goroutine of the hub, done being closed
    | HookCall(n: nat, d: Delivery, ok: bool)                // ok: Redis got the message
    | Receive(n: nat, k: nat, m: Msg, heard: bool)           // heard: someone listens on this hub
    | Lose(n: nat, k: nat, m: Msg)
    | Direct(n: nat, item: Item, ok: bool)                   // PublishToChannel, PublishBroadcast

  // An item the bridge sends; the publish hook and PublishToChannel refuse the empty channel.
  predicate Forwardable(item: Item) {
    item.Bcast? || item.channel != []
  }

  function KeyOf(prefix: Channel, item: Item): Channel {
    if item.Bcast? then BroadcastKey(prefix) else ChannelKey(prefix, item.channel)
  }

  function Received(prefix: Channel, m: Msg): Item {
    var channel := ChannelFromRedis(prefix, m.key);
    if channel == [] then Bcast(m.frame) else Pub(channel, m.frame)
  }

  predicate Hooked(s: Session, broadcast: bool) {
    if broadcast then s.broadcastHook else s.publishHook
  }

  function Hooks(sessions: seq<Session>, broadcast: bool): nat {
    if sessions == [] then 0
    else Hooks(sessions[..|sessions| - 1], broadcast) + if Hooked(sessions[|sessions| - 1], broadcast) then 1 else 0
  }

  // A call of Start whose receive loop has not returned.
  predicate Live(s: Session) {
    s.phase.Starting? || s.phase.Subscribed? || s.phase.PublishHooked? || s.phase.Receiving?
  }

  // ---- steps ----

  predicate NodeEnabled(node: Node, a: Action) {
    match a
    case StartStep(_, k) =>
      k < |node.sessions| && var p := node.sessions[k].phase; p.Starting? || p.Subscribed? || p.PublishHooked?
    case EndSession(_, k) => k < |node.sessions| && node.sessions[k].phase.Receiving?
    case Unhook(_, k, _) => k < |node.sessions| && var p := node.sessions[k].phase; p.Receiving? || p.Ending?
    case Unsubscribe(_, k) => k < |node.sessions| && var p := node.sessions[k].phase; p.Receiving? || p.Ending?
    case ReturnSession(_, k) =>
      k < |node.sessions| &&
      var s := node.sessions[k]; s.phase.Ending? && !s.subscribed && !s.publishHook && !s.broadcastHook
    case LocalCall(_, _) => node.hubRunning
    case Process(_, d) => d in node.queue
    case GiveUp(_, d) => d in node.queue
    case HookCall(_, d, _) => d in node.calls
    case Receive(_, k, m, _) => k < |node.sessions| && node.sessions[k].phase.Receiving? && m in node.sessions[k].inbox
    case Lose(_, k, m) => k < |node.sessions| && m in node.sessions[k].inbox
    case Direct(_, item, _) => node.running && Forwardable(item)
    case _ => true
  }

  predicate Enabled(c: Cluster, a: Action) {
    a.n < |c.nodes| && NodeEnabled(c.nodes[a.n], a)
  }

  function Begin(s: Session): Session
    requires s.phase.Starting? || s.phase.Subscribed? || s.phase.PublishHooked?
  {
    match s.phase
    case Starting => s.(phase := Subscribed, subscribed := true)
    case Subscribed => s.(phase := PublishHooked, publishHook := true)
    case PublishHooked => s.(phase := Receiving, broadcastHook := true)
  }

  function WithSession(node: Node, k: nat, s: Session): Node
    requires k < |node.sessions|
  {
    node.(sessions := node.sessions[k := s])
  }

  // Redis copies a message to each subscription once per matching pattern.
  function Mail(prefix: Channel, s: Session, m: Msg): Session {
    if s.subscribed then s.(inbox := s.inbox[m := s.inbox[m] + Copies(prefix, m.key)]) else s
  }

  function MailAll(prefix: Channel, sessions: seq<Session>, m: Msg): (r: seq<Session>)
    ensures |r| == |sessions|
    ensures forall k | 0 <= k < |r| :: r[k] == Mail(prefix, sessions[k], m)
  {
    seq(|sessions|, k requires 0 <= k < |sessions| => Mail(prefix, sessions[k], m))
  }

  function Spread(prefix: Channel, nodes: seq<Node>, m: Msg): (r: seq<Node>)
    ensures |r| == |nodes|
    ensures forall i | 0 <= i < |r| :: r[i] == nodes[i].(sessions := MailAll(prefix, nodes[i].sessions, m))
  {
    seq(|nodes|, i requires 0 <= i < |nodes| => nodes[i].(sessions := MailAll(prefix, nodes[i].sessions, m)))
  }

  // publishWithClient
  function Publish(c: Cluster, n: nat, id: nat, item: Item): Cluster
    requires n < |c.nodes|
  {
    var m := Msg(id, c.nodes[n].source, KeyOf(c.prefix, item), item.frame);
    c.(published := c.published + multiset{m}, nodes := Spread(c.prefix, c.nodes, m))
  }

  const NEW_SESSION: Session := Session(Starting, false, false, false, multiset{})

  // One that receives, with nothing on its way.
  const UP: Session := Session(Receiving, true, true, true, multiset{})

  function WithoutMail(node: Node, k: nat, m: Msg): Node
    requires k < |node.sessions|
  {
    WithSession(node, k, node.sessions[k].(inbox := node.sessions[k].inbox - multiset{m}))
  }

  // What an action does to its own node; id is the number of the next call.
  function NodeStep(node: Node, a: Action, prefix: Channel, id: nat): Node
    requires NodeEnabled(node, a)
  {
    match a
    case SetHubRunning(_, on) => node.(hubRunning := on)
    case StartCall(_) =>
      if node.running then node
      else node.(running := true, sessions := node.sessions + [NEW_SESSION])
    case StartStep(_, k) => WithSession(node, k, Begin(node.sessions[k]))
    case EndSession(_, k) => WithSession(node, k, node.sessions[k].(phase := Ending)).(running := false)
    case Unhook(_, k, broadcast) =>
      WithSession(node, k, if broadcast then node.sessions[k].(broadcastHook := false)
                           else node.sessions[k].(publishHook := false))
    case Unsubscribe(_, k) => WithSession(node, k, node.sessions[k].(subscribed := false))
    case ReturnSession(_, k) => WithSession(node, k, node.sessions[k].(phase := Returned))
    case LocalCall(_, item) => node.(queue := node.queue + multiset{Delivery(id, item, true)})
    case Process(_, d) =>
      // a hook is called once for each Start that has installed it
      var due := if d.notify then Hooks(node.sessions, d.item.Bcast?) else 0;
      node.(queue := node.queue - multiset{d}, calls := node.calls[d := node.calls[d] + due])
    case GiveUp(_, d) => node.(queue := node.queue - multiset{d})
    case HookCall(_, d, _) => node.(calls := node.calls - multiset{d})
    case Receive(_, k, m, heard) =>
      var d := Delivery(m.id, Received(prefix, m), false);
      if m.source == node.source || !node.hubRunning then WithoutMail(node, k, m)
      else WithoutMail(node, k, m).(delivered := node.delivered + multiset{d},
                                    queue := node.queue + if heard then multiset{d} else multiset{})
    case Lose(_, k, m) => WithoutMail(node, k, m)
    case Direct(_, _, _) => node
  }

  // Without the message to Redis.
  function LocalStep(c: Cluster, a: Action): Cluster
    requires Enabled(c, a)
  {
    c.(nodes := c.nodes[a.n := NodeStep(c.nodes[a.n], a, c.prefix, |c.origins|)],
       origins := if a.LocalCall? || a.Direct? then c.origins + [Origin(a.n, a.item)] else c.origins)
  }

  function Step(c: Cluster, a: Action): Cluster
    requires Enabled(c, a)
  {
    match a
    case HookCall(n, d, ok) =>
      if ok && Forwardable(d.item) then Publish(LocalStep(c, a), n, d.id, d.item) else LocalStep(c, a)
    case Direct(n, item, ok) =>
      if ok then Publish(LocalStep(c, a), n, |c.origins|, item) else LocalStep(c, a)
    case _ => LocalStep(c, a)
  }

  // ---- runs ----

  predicate ValidRun(c: Cluster, actions: seq<Action>)
    decreases |actions|
  {
    actions == [] || (Enabled(c, actions[0]) && ValidRun(Step(c, actions[0]), actions[1..]))
  }

  function Exec(c: Cluster, actions: seq<Action>): Cluster
    requires ValidRun(c, actions)
    decreases |actions|
  {
    if actions == [] then c else Exec(Step(c, actions[0]), actions[1..])
  }

  function NewNode(source: nat): Node {
    Node(source, false, false, [], multiset{}, multiset{}, multiset{})
  }

  function NewCluster(prefix: Channel, sources: seq<nat>): Cluster {
    Cluster(prefix, seq(|sources|, i requires 0 <= i < |sources| => NewNode(sources[i])), multiset{}, [])
  }

  predicate DistinctSources(c: Cluster) {
    forall i, j | 0 <= i < |c.nodes| && 0 <= j < |c.nodes| && c.nodes[i].source == c.nodes[j].source :: i == j
  }

  // Start is called only when every earlier call of Start on that bridge has returned.
  predicate Sequential(c: Cluster, a: Action)
    requires Enabled(c, a)
  {
    a.StartCall? && !c.nodes[a.n].running ==> forall s | s in c.nodes[a.n].sessions :: s.phase.Returned?
  }

  predicate SequentialRun(c: Cluster, actions: seq<Action>)
    requires ValidRun(c, actions)
    decreases |actions|
  {
    actions == [] || (Sequential(c, actions[0]) && SequentialRun(Step(c, actions[0]), actions[1..]))
  }

  // ---- what every run keeps, however calls of Start overlap ----

  function MsgOf(c: Cluster, id: nat): Msg
    requires id < |c.origins| && c.origins[id].node < |c.nodes|
  {
    var o := c.origins[id];
    Msg(id, c.nodes[o.node].source, KeyOf(c.prefix, o.item), o.item.frame)
  }

  ghost predicate FromOrigin(c: Cluster, m: Msg) {
    m.id < |c.origins| && c.origins[m.id].node < |c.nodes| && Forwardable(c.origins[m.id].item) && m == MsgOf(c, m.id)
  }

  ghost predicate Queued(c: Cluster, n: nat, d: Delivery) {
    d.id < |c.origins| && d.item == c.origins[d.id].item && (d.notify ==> c.origins[d.id].node == n)
  }

  ghost predicate Due(c: Cluster, n: nat, d: Delivery) {
    Queued(c, n, d) && d.notify
  }

  ghost predicate Bridged(c: Cluster, n: nat, d: Delivery) {
    Queued(c, n, d) && !d.notify && c.origins[d.id].node != n
  }

  // Frames keep their kind, channel and bytes; hooks run only where the frame came from and
  // only for frames that did not come from a bridge; no bridge delivers its own frames.
  ghost predicate Contents(c: Cluster, n: nat, node: Node) {
    && (forall d | d in node.queue :: Queued(c, n, d))
    && (forall d | d in node.calls :: Due(c, n, d))
    && (forall d | d in node.delivered :: Bridged(c, n, d))
    && (forall m | HasMail(node, m) :: FromOrigin(c, m))
  }

  ghost predicate HasMail(node: Node, m: Msg) {
    exists k | 0 <= k < |node.sessions| :: m in node.sessions[k].inbox
  }

  ghost predicate Shape(c: Cluster) {
    && DistinctSources(c)
    && (forall o | o in c.origins :: o.node < |c.nodes|)
    && (forall n | 0 <= n < |c.nodes| :: Contents(c, n, c.nodes[n]))
    && (forall m | m in c.published :: FromOrigin(c, m))
  }

  // Steps add to the origins and keep the prefix and the nodes' sources.
  ghost predicate Extends(c: Cluster, c': Cluster) {
    && c'.prefix == c.prefix && |c'.nodes| == |c.nodes|
    && |c.origins| <= |c'.origins| && c'.origins[..|c.origins|] == c.origins
    && (forall i | 0 <= i < |c.nodes| :: c'.nodes[i].source == c.nodes[i].source)
  }

  lemma ExtendsKeeps(c: Cluster, c': Cluster, m: Msg, n: nat, d: Delivery)
    requires Extends(c, c')
    ensures FromOrigin(c, m) ==> FromOrigin(c', m)
    ensures Queued(c, n, d) ==> Queued(c', n, d)
    ensures Bridged(c, n, d) ==> Bridged(c', n, d)
  {
    assert forall i | 0 <= i < |c.origins| :: c'.origins[..|c.origins|][i] == c.origins[i];
  }

  lemma PublishExtends(c: Cluster, n: nat, id: nat, item: Item)
    requires n < |c.nodes|
    ensures Extends(c, Publish(c, n, id, item)) && Publish(c, n, id, item).origins == c.origins
  {
    hide KeyOf, MailAll;
  }

  lemma NodeStepKeepsSource(node: Node, a: Action, prefix: Channel, id: nat)
    requires NodeEnabled(node, a)
    ensures NodeStep(node, a, prefix, id).source == node.source
  {
    hide Begin, Received, Hooks;
  }

  lemma LocalStepExtends(c: Cluster, a: Action)
    requires Enabled(c, a)
    ensures Extends(c, LocalStep(c, a))
  {
    NodeStepKeepsSource(c.nodes[a.n], a, c.prefix, |c.origins|);
    hide NodeStep, NodeEnabled;
  }

  lemma ExtendsTransitive(c: Cluster, c1: Cluster, c2: Cluster)
    requires Extends(c, c1) && Extends(c1, c2)
    ensures Extends(c, c2)
  {
    assert c2.origins[..|c.origins|] == c2.origins[..|c1.origins|][..|c.origins|];
  }

  lemma StepExtends(c: Cluster, a: Action)
    requires Enabled(c, a)
    ensures Extends(c, Step(c, a))
  {
    LocalStepExtends(c, a);
    var c1 := LocalStep(c, a);
    hide Publish, LocalStep, Extends;
    if a.HookCall? && a.ok && Forwardable(a.d.item) {
      PublishExtends(c1, a.n, a.d.id, a.d.item);
      ExtendsTransitive(c, c1, Publish(c1, a.n, a.d.id, a.d.item));
    } else if a.Direct? && a.ok {
      PublishExtends(c1, a.n, |c.origins|, a.item);
      ExtendsTransitive(c, c1, Publish(c1, a.n, |c.origins|, a.item));
    }
  }

  const NO_DELIVERY: Delivery := Delivery(0, Bcast([]), false)
  const NO_MSG: Msg := Msg(0, 0, [], [])

  lemma ContentsExtend(c: Cluster, c': Cluster, n: nat, node: Node)
    requires Extends(c, c') && Contents(c, n, node)
    ensures Contents(c', n, node)
  {
    hide FromOrigin, Queued, Bridged, Extends, HasMail;
    forall m | FromOrigin(c, m) ensures FromOrigin(c', m) {
      ExtendsKeeps(c, c', m, n, NO_DELIVERY);
    }
    forall d | Queued(c, n, d) ensures Queued(c', n, d) && (Bridged(c, n, d) ==> Bridged(c', n, d)) {
      ExtendsKeeps(c, c', NO_MSG, n, d);
    }
    forall d | Bridged(c, n, d) ensures Bridged(c', n, d) {
      ExtendsKeeps(c, c', NO_MSG, n, d);
    }
  }

  lemma MailGains(prefix: Channel, node: Node, m: Msg, x: Msg)
    ensures HasMail(node.(sessions := MailAll(prefix, node.sessions, m)), x) ==> HasMail(node, x) || x == m
  {
    hide Copies;
    var all := MailAll(prefix, node.sessions, m);
    if k :| 0 <= k < |all| && x in all[k].inbox && x != m {
      assert x in node.sessions[k].inbox;
    }
  }

  lemma SpreadKeepsContents(c: Cluster, i: nat, m: Msg)
    requires i < |c.nodes| && Contents(c, i, c.nodes[i]) && FromOrigin(c, m)
    ensures Contents(c, i, c.nodes[i].(sessions := MailAll(c.prefix, c.nodes[i].sessions, m)))
  {
    hide FromOrigin, MailAll, HasMail;
    var node' := c.nodes[i].(sessions := MailAll(c.prefix, c.nodes[i].sessions, m));
    forall x | HasMail(node', x) ensures FromOrigin(c, x) {
      MailGains(c.prefix, c.nodes[i], m, x);
    }
  }

  lemma PublishedNodes(c: Cluster, n: nat, id: nat, item: Item)
    requires n < |c.nodes| && id < |c.origins| && c.origins[id] == Origin(n, item) && Forwardable(item)
    ensures var (c', m) := (Publish(c, n, id, item), MsgOf(c, id));
      && Extends(c, c') && c'.origins == c.origins && c'.published == c.published + multiset{m} && FromOrigin(c, m)
      && forall i | 0 <= i < |c.nodes| ::
           c'.nodes[i] == c.nodes[i].(sessions := MailAll(c.prefix, c.nodes[i].sessions, m))
  {
    hide MailAll, KeyOf;
  }

  lemma PublishKeepsShape(c: Cluster, n: nat, id: nat, item: Item)
    requires Shape(c) && n < |c.nodes| && id < |c.origins| && c.origins[id] == Origin(n, item) && Forwardable(item)
    ensures Shape(Publish(c, n, id, item))
  {
    var c', m := Publish(c, n, id, item), MsgOf(c, id);
    PublishedNodes(c, n, id, item);
    assert DistinctSources(c');
    hide Contents, MailAll, Publish, FromOrigin, DistinctSources;
    forall i | 0 <= i < |c.nodes| ensures Contents(c', i, c'.nodes[i]) {
      SpreadKeepsContents(c, i, m);
      ContentsExtend(c, c', i, c'.nodes[i]);
    }
    forall x | x in c'.published ensures FromOrigin(c', x) {
      ExtendsKeeps(c, c', x, n, NO_DELIVERY);
    }
  }

  // What a bridge hands to its hub is what was published.
  lemma ReceivedIsOrigin(c: Cluster, m: Msg)
    requires FromOrigin(c, m)
    ensures Received(c.prefix, m) == c.origins[m.id].item
  {
    var item := c.origins[m.id].item;
    NamesRoundTrip(c.prefix, if item.Pub? then item.channel else []);
  }

  // What the node gets by the step: nothing but what was its own, a new call, or what was
  // published elsewhere.
  ghost predicate Gains(node: Node, node': Node, called: set<Delivery>, received: set<Delivery>) {
    && (forall d | d in node'.queue :: d in node.queue || d in called || d in received)
    && (forall d | d in node'.calls :: d in node.calls || (d in node.queue && d.notify))
    && (forall d | d in node'.delivered :: d in node.delivered || d in received)
    && (forall m | HasMail(node', m) :: HasMail(node, m))
  }

  ghost function Called(a: Action, id: nat): set<Delivery> {
    if a.LocalCall? then {Delivery(id, a.item, true)} else {}
  }

  ghost function ReceivedBy(node: Node, a: Action, prefix: Channel): set<Delivery> {
    if a.Receive? && a.m.source != node.source then {Delivery(a.m.id, Received(prefix, a.m), false)} else {}
  }

  // A change of one session that adds no mail to it.
  lemma SessionGainsNoMail(node: Node, node': Node, k: nat, m: Msg)
    requires k < |node.sessions| == |node'.sessions| && node'.sessions == node.sessions[k := node'.sessions[k]]
    requires node'.sessions[k].inbox <= node.sessions[k].inbox
    ensures HasMail(node', m) ==> HasMail(node, m)
  {
    if j :| 0 <= j < |node'.sessions| && m in node'.sessions[j].inbox {
      assert m in node.sessions[j].inbox;
    }
  }

  predicate SessionAction(a: Action) {
    a.StartStep? || a.EndSession? || a.Unhook? || a.Unsubscribe? || a.ReturnSession?
  }

  lemma SessionActionMail(node: Node, a: Action, prefix: Channel, id: nat, m: Msg)
    requires NodeEnabled(node, a) && SessionAction(a)
    ensures HasMail(NodeStep(node, a, prefix, id), m) ==> HasMail(node, m)
  {
    var node' := NodeStep(node, a, prefix, id);
    hide HasMail;
    match a
    case StartStep(_, k) => SessionGainsNoMail(node, node', k, m);
    case EndSession(_, k) => SessionGainsNoMail(node, node', k, m);
    case Unhook(_, k, _) => SessionGainsNoMail(node, node', k, m);
    case Unsubscribe(_, k) => SessionGainsNoMail(node, node', k, m);
    case ReturnSession(_, k) => SessionGainsNoMail(node, node', k, m);
  }

  lemma NodeMail(node: Node, a: Action, prefix: Channel, id: nat, m: Msg)
    requires NodeEnabled(node, a)
    ensures HasMail(NodeStep(node, a, prefix, id), m) ==> HasMail(node, m)
  {
    var node' := NodeStep(node, a, prefix, id);
    hide HasMail, Received, Hooks;
    if SessionAction(a) {
      SessionActionMail(node, a, prefix, id, m);
    } else if a.Receive? || a.Lose? {
      SessionGainsNoMail(node, node', a.k, m);
    } else if a.StartCall? {
      NewSessionHasNoMail(node, m);
    } else {
      SameMail(node, node', m);
    }
  }

  lemma SameMail(node: Node, node': Node, m: Msg)
    requires node'.sessions == node.sessions
    ensures HasMail(node', m) ==> HasMail(node, m)
  {}

  lemma NewSessionHasNoMail(node: Node, m: Msg)
    ensures HasMail(node.(running := true, sessions := node.sessions + [NEW_SESSION]), m) ==> HasMail(node, m)
  {
    var all := node.sessions + [NEW_SESSION];
    if k :| 0 <= k < |all| && m in all[k].inbox {
      assert m in node.sessions[k].inbox;
    }
  }

  lemma NodeGains(node: Node, a: Action, prefix: Channel, id: nat)
    requires NodeEnabled(node, a)
    ensures Gains(node, NodeStep(node, a, prefix, id), Called(a, id), ReceivedBy(node, a, prefix))
  {
    forall m ensures HasMail(NodeStep(node, a, prefix, id), m) ==> HasMail(node, m) {
      NodeMail(node, a, prefix, id, m);
    }
    hide Received, Hooks, Begin, HasMail;
  }

  lemma GainsAreContents(c: Cluster, n: nat, node: Node, node': Node, called: set<Delivery>, received: set<Delivery>)
    requires Contents(c, n, node) && Gains(node, node', called, received)
    requires forall d | d in called :: Queued(c, n, d)
    requires forall d | d in received :: Queued(c, n, d) && Bridged(c, n, d)
    ensures Contents(c, n, node')
  {
    hide Queued, Bridged, FromOrigin, HasMail;
  }

  lemma CalledAndReceived(c: Cluster, a: Action, d: Delivery)
    requires Shape(c) && Enabled(c, a)
    ensures d in Called(a, |c.origins|) ==> Queued(LocalStep(c, a), a.n, d)
    ensures d in ReceivedBy(c.nodes[a.n], a, c.prefix) ==>
      Queued(LocalStep(c, a), a.n, d) && Bridged(LocalStep(c, a), a.n, d)
  {
    LocalStepExtends(c, a);
    if a.Receive? {
      assert Contents(c, a.n, c.nodes[a.n]);
      assert HasMail(c.nodes[a.n], a.m) && FromOrigin(c, a.m);
      hide LocalStep, FromOrigin, Received, Extends, Queued, Bridged;
      ReceivedIsBridged(c, a.n, a.m);
      ExtendsKeeps(c, LocalStep(c, a), a.m, a.n, d);
    }
  }

  lemma NodeStepKeepsContents(c: Cluster, a: Action)
    requires Shape(c) && Enabled(c, a)
    ensures Contents(LocalStep(c, a), a.n, NodeStep(c.nodes[a.n], a, c.prefix, |c.origins|))
  {
    var c', n, node, id := LocalStep(c, a), a.n, c.nodes[a.n], |c.origins|;
    LocalStepExtends(c, a);
    assert Contents(c, n, node);
    hide *;
    ContentsExtend(c, c', n, node);
    NodeGains(node, a, c.prefix, id);
    forall d ensures d in Called(a, id) ==> Queued(c', n, d)
      ensures d in ReceivedBy(node, a, c.prefix) ==> Queued(c', n, d) && Bridged(c', n, d)
    {
      CalledAndReceived(c, a, d);
    }
    GainsAreContents(c', n, node, NodeStep(node, a, c.prefix, id), Called(a, id), ReceivedBy(node, a, c.prefix));
  }

  lemma ReceivedIsBridged(c: Cluster, n: nat, m: Msg)
    requires Shape(c) && n < |c.nodes| && FromOrigin(c, m)
    ensures m.source != c.nodes[n].source ==>
      var d := Delivery(m.id, Received(c.prefix, m), false); Queued(c, n, d) && Bridged(c, n, d)
  {
    ReceivedIsOrigin(c, m);
    hide Received;
  }

  lemma LocalStepKeepsShape(c: Cluster, a: Action)
    requires Shape(c) && Enabled(c, a)
    ensures Shape(LocalStep(c, a))
  {
    var c' := LocalStep(c, a);
    LocalStepExtends(c, a);
    NodeStepKeepsContents(c, a);
    NodeStepKeepsSource(c.nodes[a.n], a, c.prefix, |c.origins|);
    assert DistinctSources(c');
    hide Contents, FromOrigin, NodeStep, NodeEnabled, DistinctSources;
    forall i | 0 <= i < |c.nodes| ensures Contents(c', i, c'.nodes[i]) {
      if i != a.n {
        ContentsExtend(c, c', i, c.nodes[i]);
      }
    }
    forall m | m in c'.published ensures FromOrigin(c', m) {
      ExtendsKeeps(c, c', m, a.n, NO_DELIVERY);
    }
  }

  lemma StepKeepsShape(c: Cluster, a: Action)
    requires Shape(c) && Enabled(c, a)
    ensures Shape(Step(c, a))
  {
    LocalStepKeepsShape(c, a);
    var c1 := LocalStep(c, a);
    if a.HookCall? && a.ok && Forwardable(a.d.item) {
      assert Contents(c, a.n, c.nodes[a.n]);
      assert Due(c, a.n, a.d);
      hide Shape, Publish;
      PublishKeepsShape(c1, a.n, a.d.id, a.d.item);
    } else if a.Direct? && a.ok {
      hide Shape, Publish;
      PublishKeepsShape(c1, a.n, |c.origins|, a.item);
    }
  }

  // Whatever the calls of Start do, frames arrive unchanged, only from elsewhere, and are
  // never forwarded again.
  lemma {:induction false} RunKeepsShape(c: Cluster, actions: seq<Action>)
    requires Shape(c) && ValidRun(c, actions)
    ensures Shape(Exec(c, actions))
    decreases |actions|
  {
    hide Shape, Step, Enabled;
    if actions != [] {
      StepKeepsShape(c, actions[0]);
      RunKeepsShape(Step(c, actions[0]), actions[1..]);
    }
  }
}
