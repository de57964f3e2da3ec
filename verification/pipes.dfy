// Hubs joined by Pipe (go/stream.go): every pipe republishes on its destination what its
// source's publish and broadcast handlers are called with.
module Pipes {
  import opened Bytes

  // The destinations of the pipes that leave each hub; two pipes may join the same hubs.
  type Graph = seq<seq<nat>>

  datatype Item = Pub(channel: Channel, frame: Frame) | Bcast(frame: Frame)

  // A delivery in a hub's queues, or a pipe's handler that is about to publish.
  datatype Token = Queued(hub: nat, item: Item, notify: bool) | Due(dst: nat, item: Item)

  // made: the publishes and broadcasts that pipes have made and hubs accepted.
  datatype Net = Net(pending: seq<Token>, made: seq<Token>)

  datatype Action =
    | Process(i: nat, targets: seq<nat>)   // the pipes still installed when the handlers are read
    | Call(i: nat, accepted: bool)         // accepted: the hub runs, and someone listens

  ghost predicate InRange(g: Graph) {
    forall h, s | 0 <= h < |g| && s in g[h] :: s < |g|
  }

  // Pipe refuses to join a hub with itself.
  function Pipe(g: Graph, src: nat, dst: nat): Graph
    requires src < |g|
  {
    if src == dst then g else g[src := g[src] + [dst]]
  }

  // ---- steps ----

  function Without(tokens: seq<Token>, i: nat): seq<Token>
    requires i < |tokens|
  {
    tokens[..i] + tokens[i + 1..]
  }

  function DueAt(targets: seq<nat>, item: Item): seq<Token> {
    if targets == [] then [] else DueAt(targets[..|targets| - 1], item) + [Due(targets[|targets| - 1], item)]
  }

  predicate Enabled(g: Graph, s: Net, a: Action) {
    match a
    case Process(i, targets) =>
      i < |s.pending| && s.pending[i].Queued? && s.pending[i].hub < |g| &&
      multiset(targets) <= multiset(g[s.pending[i].hub]) && (!s.pending[i].notify ==> targets == [])
    case Call(i, _) => i < |s.pending| && s.pending[i].Due?
  }

  function Step(s: Net, a: Action): Net
    requires a.i < |s.pending| && (if a.Process? then s.pending[a.i].Queued? else s.pending[a.i].Due?)
  {
    var t := s.pending[a.i];
    var rest := Without(s.pending, a.i);
    match a
    case Process(_, targets) => s.(pending := rest + DueAt(targets, t.item))
    case Call(_, accepted) =>
      // dst.Publish or dst.Broadcast, with the channel and a copy of the frame
      if accepted then Net(rest + [Queued(t.dst, t.item, true)], s.made + [Queued(t.dst, t.item, true)])
      else s.(pending := rest)
  }

  predicate ValidRun(g: Graph, s: Net, actions: seq<Action>)
    decreases |actions|
  {
    actions == [] || (Enabled(g, s, actions[0]) && ValidRun(g, Step(s, actions[0]), actions[1..]))
  }

  function Exec(g: Graph, s: Net, actions: seq<Action>): Net
    requires ValidRun(g, s, actions)
    decreases |actions|
  {
    if actions == [] then s else Exec(g, Step(s, actions[0]), actions[1..])
  }

  // One publish or broadcast at hub h, and nothing else going on.
  function One(h: nat, item: Item): Net {
    Net([Queued(h, item, true)], [])
  }

  // ---- reachability ----

  ghost predicate ReachIn(g: Graph, a: nat, b: nat, n: nat)
    decreases n
  {
    a < |g| && if n == 0 then b in g[a] else exists m :: m in g[a] && ReachIn(g, m, b, n - 1)
  }

  ghost predicate Reaches(g: Graph, a: nat, b: nat) {
    exists n: nat :: ReachIn(g, a, b, n)
  }

  ghost predicate Acyclic(g: Graph) {
    forall h :: !Reaches(g, h, h)
  }

  lemma {:induction false} ReachThrough(g: Graph, a: nat, b: nat, c: nat, n: nat, k: nat)
    requires ReachIn(g, a, b, n) && ReachIn(g, b, c, k)
    ensures ReachIn(g, a, c, n + k + 1)
    decreases n
  {
    if n > 0 {
      var m :| m in g[a] && ReachIn(g, m, b, n - 1);
      ReachThrough(g, m, b, c, n - 1, k);
    }
  }

  lemma ReachesTransitive(g: Graph, a: nat, b: nat, c: nat)
    requires Reaches(g, a, b) && Reaches(g, b, c)
    ensures Reaches(g, a, c)
  {
    var n: nat :| ReachIn(g, a, b, n);
    var k: nat :| ReachIn(g, b, c, k);
    ReachThrough(g, a, b, c, n, k);
  }

  lemma EdgeReaches(g: Graph, a: nat, b: nat)
    requires a < |g| && b in g[a]
    ensures Reaches(g, a, b)
  {
    assert ReachIn(g, a, b, 0);
  }

  ghost function Below(g: Graph, h: nat): set<nat> {
    set s | 0 <= s < |g| && Reaches(g, h, s)
  }

  // Following a pipe shrinks what is still reachable, in an acyclic graph.
  lemma BelowShrinks(g: Graph, h: nat, s: nat)
    requires Acyclic(g) && InRange(g) && h < |g| && s in g[h]
    ensures |Below(g, s)| < |Below(g, h)|
  {
    EdgeReaches(g, h, s);
    forall x | x in Below(g, s) ensures x in Below(g, h) {
      ReachesTransitive(g, h, s, x);
    }
    assert s in Below(g, h) && s !in Below(g, s);
    Smaller(Below(g, s), Below(g, h), s);
  }

  lemma Smaller(a: set<nat>, b: set<nat>, x: nat)
    requires a <= b && x in b && x !in a
    ensures |a| < |b|
  {
    SubsetSize(a, b - {x});
  }

  lemma {:induction false} SubsetSize(a: set<nat>, b: set<nat>)
    requires a <= b
    ensures |a| <= |b|
  {
    if a != {} {
      var x :| x in a;
      SubsetSize(a - {x}, b - {x});
    }
  }

  // ---- paths ----

  // to: any end, or one.
  predicate Ends(s: nat, to: Option<nat>) {
    to == None || to == Some(s)
  }

  // The paths of one pipe or more from h to such an end.
  ghost function Paths(g: Graph, h: nat, to: Option<nat>): nat
    requires Acyclic(g) && InRange(g) && h < |g|
    decreases |Below(g, h)|, 1, 0
  {
    PathsFrom(g, h, g[h], to)
  }

  // Those that begin with a pipe to one of targets.
  ghost function PathsFrom(g: Graph, h: nat, targets: seq<nat>, to: Option<nat>): nat
    requires Acyclic(g) && InRange(g) && h < |g| && forall s | s in targets :: s in g[h]
    decreases |Below(g, h)|, 0, |targets|
  {
    if targets == [] then 0
    else
      var s := targets[|targets| - 1];
      BelowShrinks(g, h, s);
      PathsFrom(g, h, targets[..|targets| - 1], to) + ((if Ends(s, to) then 1 else 0) + Paths(g, s, to))
  }

  ghost function Ahead(g: Graph, s: nat, to: Option<nat>): nat
    requires Acyclic(g) && InRange(g) && s < |g|
  {
    (if Ends(s, to) then 1 else 0) + Paths(g, s, to)
  }

  lemma {:induction false} PathsRemove(g: Graph, h: nat, targets: seq<nat>, i: nat, to: Option<nat>)
    requires Acyclic(g) && InRange(g) && h < |g| && i < |targets| && forall s | s in targets :: s in g[h]
    ensures forall s | s in targets[..i] + targets[i + 1..] :: s in g[h]
    ensures targets[i] < |g| && PathsFrom(g, h, targets, to) ==
      PathsFrom(g, h, targets[..i] + targets[i + 1..], to) + Ahead(g, targets[i], to)
    decreases |targets|
  {
    hide Acyclic, Paths;
    var n := |targets| - 1;
    var rest := targets[..i] + targets[i + 1..];
    assert targets[i] in targets;
    if i == n {
      assert rest == targets[..n];
    } else {
      PathsRemove(g, h, targets[..n], i, to);
      assert rest[..n - 1] == targets[..n][..i] + targets[..n][i + 1..];
      assert rest[n - 1] == targets[n];
    }
  }

  // Fewer pipes, fewer paths; the order of the pipes does not matter.
  lemma {:induction false} PathsMonotone(g: Graph, h: nat, xs: seq<nat>, ys: seq<nat>, to: Option<nat>)
    requires Acyclic(g) && InRange(g) && h < |g| && multiset(xs) <= multiset(ys)
    requires forall s | s in ys :: s in g[h]
    ensures forall s | s in xs :: s in g[h]
    ensures PathsFrom(g, h, xs, to) <= PathsFrom(g, h, ys, to)
    decreases |xs|
  {
    hide Acyclic, InRange, Paths;
    forall s | s in xs ensures s in g[h] {
      assert s in multiset(xs) && s in multiset(ys);
    }
    if xs != [] {
      var n := |xs| - 1;
      var j := Partner(xs, ys);
      PathsRemove(g, h, ys, j, to);
      PathsMonotone(g, h, xs[..n], ys[..j] + ys[j + 1..], to);
    }
  }

  lemma CountWithout(xs: seq<nat>, j: nat)
    requires j < |xs|
    ensures multiset(xs) == multiset(xs[..j] + xs[j + 1..]) + multiset{xs[j]}
  {
    assert xs == xs[..j] + [xs[j]] + xs[j + 1..];
  }

  lemma Partner(xs: seq<nat>, ys: seq<nat>) returns (j: nat)
    requires xs != [] && multiset(xs) <= multiset(ys)
    ensures j < |ys| && ys[j] == xs[|xs| - 1] && multiset(xs[..|xs| - 1]) <= multiset(ys[..j] + ys[j + 1..])
  {
    var n := |xs| - 1;
    assert xs[n] in multiset(xs);
    j :| 0 <= j < |ys| && ys[j] == xs[n];
    CountWithout(xs, n);
    CountWithout(ys, j);
    assert xs[..n] + xs[n + 1..] == xs[..n];
    var a, b, one := multiset(xs[..n]), multiset(ys[..j] + ys[j + 1..]), multiset{xs[n]};
    forall x ensures a[x] <= b[x] {
      assert (a + one)[x] <= (b + one)[x];
    }
  }

  // ---- what is still to come ----

  ghost predicate Sound(g: Graph, t: Token) {
    (if t.Queued? then t.hub else t.dst) < |g|
  }

  // The publishes at such ends that a token can still cause.
  ghost function Coming(g: Graph, t: Token, to: Option<nat>): nat
    requires Acyclic(g) && InRange(g) && Sound(g, t)
  {
    match t
    case Queued(h, _, notify) => if notify then Paths(g, h, to) else 0
    case Due(dst, _) => Ahead(g, dst, to)
  }

  ghost function ComingAll(g: Graph, tokens: seq<Token>, to: Option<nat>): nat
    requires Acyclic(g) && InRange(g) && forall t | t in tokens :: Sound(g, t)
    decreases |tokens|
  {
    if tokens == [] then 0
    else ComingAll(g, tokens[..|tokens| - 1], to) + Coming(g, tokens[|tokens| - 1], to)
  }

  lemma {:induction false} ComingAppend(g: Graph, xs: seq<Token>, ys: seq<Token>, to: Option<nat>)
    requires Acyclic(g) && InRange(g) && (forall t | t in xs :: Sound(g, t)) && forall t | t in ys :: Sound(g, t)
    ensures ComingAll(g, xs + ys, to) == ComingAll(g, xs, to) + ComingAll(g, ys, to)
    decreases |ys|
  {
    hide Acyclic, InRange, Coming, Sound;
    var n := |ys| - 1;
    if ys == [] {
      assert xs + ys == xs;
    } else {
      ComingAppend(g, xs, ys[..n], to);
      assert (xs + ys)[..|xs| + n] == xs + ys[..n];
    }
  }

  lemma ComingWithout(g: Graph, tokens: seq<Token>, i: nat, to: Option<nat>)
    requires Acyclic(g) && InRange(g) && i < |tokens| && forall t | t in tokens :: Sound(g, t)
    ensures forall t | t in Without(tokens, i) :: Sound(g, t)
    ensures ComingAll(g, tokens, to) == ComingAll(g, Without(tokens, i), to) + Coming(g, tokens[i], to)
  {
    hide Acyclic, InRange, Coming, Sound;
    var one := [tokens[i]];
    assert tokens == (tokens[..i] + one) + tokens[i + 1..];
    ComingAppend(g, tokens[..i] + one, tokens[i + 1..], to);
    ComingAppend(g, tokens[..i], one, to);
    ComingAppend(g, tokens[..i], tokens[i + 1..], to);
    assert one[..0] == [] && ComingAll(g, one, to) == Coming(g, tokens[i], to);
  }

  lemma {:induction false} ComingDue(g: Graph, h: nat, targets: seq<nat>, item: Item, to: Option<nat>)
    requires Acyclic(g) && InRange(g) && h < |g| && forall s | s in targets :: s in g[h]
    ensures forall t | t in DueAt(targets, item) :: Sound(g, t)
    ensures ComingAll(g, DueAt(targets, item), to) == PathsFrom(g, h, targets, to)
    decreases |targets|
  {
    hide Acyclic, Paths;
    var n := |targets| - 1;
    if targets != [] {
      ComingDue(g, h, targets[..n], item, to);
      var last := Due(targets[n], item);
      assert targets[n] in g[h] && Sound(g, last);
      assert DueAt(targets, item)[..|DueAt(targets[..n], item)|] == DueAt(targets[..n], item);
      assert Coming(g, last, to) == Ahead(g, targets[n], to);
    }
  }

  function MadeAt(made: seq<Token>, to: Option<nat>): nat {
    if made == [] then 0
    else
      var t := made[|made| - 1];
      MadeAt(made[..|made| - 1], to) + if t.Queued? && Ends(t.hub, to) then 1 else 0
  }

  // Nothing is stopped or refused at this step.
  ghost predicate Full(g: Graph, s: Net, a: Action)
    requires Enabled(g, s, a)
  {
    match a
    case Process(i, targets) => s.pending[i].notify ==> multiset(targets) == multiset(g[s.pending[i].hub])
    case Call(_, accepted) => accepted
  }

  ghost predicate SoundNet(g: Graph, s: Net) {
    forall t | t in s.pending :: Sound(g, t)
  }

  lemma ProcessBalance(g: Graph, s: Net, i: nat, targets: seq<nat>, to: Option<nat>)
    requires Acyclic(g) && InRange(g) && SoundNet(g, s) && Enabled(g, s, Process(i, targets))
    ensures var s' := Step(s, Process(i, targets));
      && SoundNet(g, s') && s'.made == s.made
      && ComingAll(g, s'.pending, to) <= ComingAll(g, s.pending, to)
      && (Full(g, s, Process(i, targets)) ==> ComingAll(g, s'.pending, to) == ComingAll(g, s.pending, to))
  {
    var t := s.pending[i];
    assert t in s.pending;
    hide Acyclic, InRange;
    PathsMonotone(g, t.hub, targets, g[t.hub], to);
    if multiset(targets) == multiset(g[t.hub]) {
      PathsMonotone(g, t.hub, g[t.hub], targets, to);
    }
    hide Sound, PathsFrom;
    ComingWithout(g, s.pending, i, to);
    ComingDue(g, t.hub, targets, t.item, to);
    ComingAppend(g, Without(s.pending, i), DueAt(targets, t.item), to);
  }

  lemma CallBalance(g: Graph, s: Net, i: nat, accepted: bool, to: Option<nat>)
    requires Acyclic(g) && InRange(g) && SoundNet(g, s) && Enabled(g, s, Call(i, accepted))
    ensures var s' := Step(s, Call(i, accepted));
      && SoundNet(g, s')
      && MadeAt(s'.made, to) + ComingAll(g, s'.pending, to) <= MadeAt(s.made, to) + ComingAll(g, s.pending, to)
      && (accepted ==>
            MadeAt(s'.made, to) + ComingAll(g, s'.pending, to) == MadeAt(s.made, to) + ComingAll(g, s.pending, to))
  {
    var t := s.pending[i];
    assert t in s.pending;
    hide Acyclic, InRange, Paths;
    ComingWithout(g, s.pending, i, to);
    if accepted {
      var q := Queued(t.dst, t.item, true);
      assert Sound(g, q);
      ComingAppend(g, Without(s.pending, i), [q], to);
      assert [q][..0] == [] && ComingAll(g, [q], to) == Coming(g, q, to);
      assert (s.made + [q])[..|s.made|] == s.made;
    }
  }

  // ---- every run ----

  ghost predicate FullRun(g: Graph, s: Net, actions: seq<Action>)
    requires ValidRun(g, s, actions)
    decreases |actions|
  {
    actions == [] || (Full(g, s, actions[0]) && FullRun(g, Step(s, actions[0]), actions[1..]))
  }

  lemma StepBalance(g: Graph, s: Net, a: Action, to: Option<nat>)
    requires Acyclic(g) && InRange(g) && SoundNet(g, s) && Enabled(g, s, a)
    ensures var s' := Step(s, a);
      && SoundNet(g, s')
      && MadeAt(s'.made, to) + ComingAll(g, s'.pending, to) <= MadeAt(s.made, to) + ComingAll(g, s.pending, to)
      && (Full(g, s, a) ==>
            MadeAt(s'.made, to) + ComingAll(g, s'.pending, to) == MadeAt(s.made, to) + ComingAll(g, s.pending, to))
  {
    match a
    case Process(i, targets) => ProcessBalance(g, s, i, targets, to);
    case Call(i, accepted) => CallBalance(g, s, i, accepted, to);
  }

  lemma {:induction false} RunBalance(g: Graph, s: Net, actions: seq<Action>, to: Option<nat>)
    requires Acyclic(g) && InRange(g) && SoundNet(g, s) && ValidRun(g, s, actions)
    ensures var s' := Exec(g, s, actions);
      && SoundNet(g, s')
      && MadeAt(s'.made, to) + ComingAll(g, s'.pending, to) <= MadeAt(s.made, to) + ComingAll(g, s.pending, to)
      && (FullRun(g, s, actions) ==>
            MadeAt(s'.made, to) + ComingAll(g, s'.pending, to) == MadeAt(s.made, to) + ComingAll(g, s.pending, to))
    decreases |actions|
  {
    hide Acyclic, InRange, SoundNet, Step, Full;
    if actions != [] {
      StepBalance(g, s, actions[0], to);
      RunBalance(g, Step(s, actions[0]), actions[1..], to);
    }
  }

  // Every token carries the item of the call it came from.
  ghost predicate Carries(s: Net, item: Item) {
    (forall t | t in s.pending :: t.item == item) && (forall t | t in s.made :: t.item == item)
  }

  lemma {:induction false} DueCarry(targets: seq<nat>, item: Item)
    ensures forall t | t in DueAt(targets, item) :: t.item == item
  {
    if targets != [] {
      DueCarry(targets[..|targets| - 1], item);
    }
  }

  lemma {:induction false} RunCarries(g: Graph, s: Net, actions: seq<Action>, item: Item)
    requires ValidRun(g, s, actions) && Carries(s, item)
    ensures Carries(Exec(g, s, actions), item)
    decreases |actions|
  {
    if actions != [] {
      var a := actions[0];
      assert s.pending[a.i] in s.pending;
      if a.Process? {
        DueCarry(a.targets, s.pending[a.i].item);
      }
      RunCarries(g, Step(s, a), actions[1..], item);
    }
  }

  // In an acyclic graph the pipes make at most one publish at each hub for every path to it,
  // all of the kind, channel and bytes of the first one; and exactly that many once all is
  // done, if nothing was stopped or refused.
  lemma OnePublishPerPath(g: Graph, h: nat, item: Item, actions: seq<Action>, to: Option<nat>)
    requires Acyclic(g) && InRange(g) && h < |g| && ValidRun(g, One(h, item), actions)
    ensures var s := Exec(g, One(h, item), actions);
      && MadeAt(s.made, to) <= Paths(g, h, to)
      && (s.pending == [] && FullRun(g, One(h, item), actions) ==> MadeAt(s.made, to) == Paths(g, h, to))
      && (forall t | t in s.made :: t.item == item)
  {
    RunBalance(g, One(h, item), actions, to);
    RunCarries(g, One(h, item), actions, item);
    var q := Queued(h, item, true);
    assert [q][..0] == [] && ComingAll(g, [q], to) == Coming(g, q, to);
  }

  // ---- once for each path ----

  // The next step, when nothing is stopped or refused.
  function NextFull(g: Graph, s: Net): Action
    requires s.pending != [] && (s.pending[0].Queued? ==> s.pending[0].hub < |g|)
  {
    var t := s.pending[0];
    if t.Due? then Call(0, true) else Process(0, if t.notify then g[t.hub] else [])
  }

  // All forwarding runs to its end.
  lemma {:induction false} RunsDry(g: Graph, s: Net) returns (run: seq<Action>)
    requires Acyclic(g) && InRange(g) && SoundNet(g, s)
    ensures ValidRun(g, s, run) && FullRun(g, s, run) && Exec(g, s, run).pending == []
    decreases CostAll(g, s.pending)
  {
    run := [];
    if s.pending != [] {
      assert Sound(g, s.pending[0]);
      var a := NextFull(g, s);
      assert Enabled(g, s, a) && Full(g, s, a);
      StepCosts(g, s, a);
      hide Acyclic, InRange, SoundNet, CostAll, Step, Enabled, Full, NextFull;
      var more := RunsDry(g, Step(s, a));
      assert ([a] + more)[1..] == more;
      run := [a] + more;
    }
  }

  // In an acyclic graph, no run makes more than one publish at x, whatever is stopped or
  // refused, exactly when at most one path leads there.
  lemma AtMostOnceIff(g: Graph, h: nat, item: Item, x: nat)
    requires Acyclic(g) && InRange(g) && h < |g|
    ensures (forall actions | ValidRun(g, One(h, item), actions) ::
               MadeAt(Exec(g, One(h, item), actions).made, Some(x)) <= 1) <==> Paths(g, h, Some(x)) <= 1
  {
    var s := One(h, item);
    hide Paths, ValidRun, Exec, MadeAt;
    if Paths(g, h, Some(x)) <= 1 {
      forall actions | ValidRun(g, s, actions) ensures MadeAt(Exec(g, s, actions).made, Some(x)) <= 1 {
        OnePublishPerPath(g, h, item, actions, Some(x));
      }
    } else {
      assert SoundNet(g, s);
      var run := RunsDry(g, s);
      OnePublishPerPath(g, h, item, run, Some(x));
    }
  }

  // ---- termination ----

  // Every step uses up at least one of these.
  ghost function CostAll(g: Graph, tokens: seq<Token>): nat
    requires Acyclic(g) && InRange(g) && forall t | t in tokens :: Sound(g, t)
  {
    2 * ComingAll(g, tokens, None) + QueuedIn(tokens)
  }

  function QueuedIn(tokens: seq<Token>): nat {
    if tokens == [] then 0 else QueuedIn(tokens[..|tokens| - 1]) + if tokens[|tokens| - 1].Queued? then 1 else 0
  }

  lemma {:induction false} QueuedAppend(xs: seq<Token>, ys: seq<Token>)
    ensures QueuedIn(xs + ys) == QueuedIn(xs) + QueuedIn(ys)
    decreases |ys|
  {
    if ys == [] {
      assert xs + ys == xs;
    } else {
      QueuedAppend(xs, ys[..|ys| - 1]);
      assert (xs + ys)[..|xs + ys| - 1] == xs + ys[..|ys| - 1];
    }
  }

  lemma {:induction false} DueAreNotQueued(targets: seq<nat>, item: Item)
    ensures QueuedIn(DueAt(targets, item)) == 0
  {
    if targets != [] {
      DueAreNotQueued(targets[..|targets| - 1], item);
      assert DueAt(targets, item)[..|DueAt(targets, item)| - 1] == DueAt(targets[..|targets| - 1], item);
    }
  }

  lemma {:induction false} QueuedWithout(tokens: seq<Token>, i: nat)
    requires i < |tokens|
    ensures QueuedIn(tokens) == QueuedIn(Without(tokens, i)) + if tokens[i].Queued? then 1 else 0
  {
    var one := [tokens[i]];
    assert one[..0] == [] && QueuedIn(one) == if tokens[i].Queued? then 1 else 0;
    hide QueuedIn;
    assert tokens == (tokens[..i] + one) + tokens[i + 1..];
    QueuedAppend(tokens[..i] + one, tokens[i + 1..]);
    QueuedAppend(tokens[..i], one);
    QueuedAppend(tokens[..i], tokens[i + 1..]);
  }

  lemma StepCosts(g: Graph, s: Net, a: Action)
    requires Acyclic(g) && InRange(g) && SoundNet(g, s) && Enabled(g, s, a)
    ensures SoundNet(g, Step(s, a)) && CostAll(g, Step(s, a).pending) < CostAll(g, s.pending)
  {
    StepBalance(g, s, a, None);
    hide Acyclic, InRange, SoundNet;
    var t, rest := s.pending[a.i], Without(s.pending, a.i);
    QueuedWithout(s.pending, a.i);
    match a
    case Process(i, targets) =>
      QueuedAppend(rest, DueAt(targets, t.item));
      DueAreNotQueued(targets, t.item);
    case Call(i, accepted) => CallCosts(g, s, i, accepted);
  }

  lemma CallCosts(g: Graph, s: Net, i: nat, accepted: bool)
    requires Acyclic(g) && InRange(g) && SoundNet(g, s) && Enabled(g, s, Call(i, accepted))
    ensures SoundNet(g, Step(s, Call(i, accepted)))
    ensures CostAll(g, Step(s, Call(i, accepted)).pending) < CostAll(g, s.pending)
  {
    var t, rest := s.pending[i], Without(s.pending, i);
    assert t in s.pending;
    hide Acyclic, InRange, Paths;
    ComingWithout(g, s.pending, i, None);
    QueuedWithout(s.pending, i);
    if accepted {
      var q := Queued(t.dst, t.item, true);
      assert Sound(g, q);
      ComingAppend(g, rest, [q], None);
      QueuedAppend(rest, [q]);
      assert [q][..0] == [] && ComingAll(g, [q], None) == Coming(g, q, None) && QueuedIn([q]) == 1;
    }
  }

  // Whatever is pending, a run is no longer than its cost at the start.
  lemma {:induction false} RunsAreBounded(g: Graph, s: Net, actions: seq<Action>)
    requires Acyclic(g) && InRange(g) && SoundNet(g, s) && ValidRun(g, s, actions)
    ensures |actions| <= CostAll(g, s.pending)
    decreases |actions|
  {
    hide Acyclic, InRange, SoundNet, Step, CostAll;
    if actions != [] {
      StepCosts(g, s, actions[0]);
      RunsAreBounded(g, Step(s, actions[0]), actions[1..]);
    }
  }

  ghost predicate Has(s: Net, h: nat, item: Item) {
    Queued(h, item, true) in s.pending
  }

  lemma TwoSteps(g: Graph, s: Net, x: Action, y: Action)
    requires Enabled(g, s, x) && Enabled(g, Step(s, x), y)
    ensures ValidRun(g, s, [x, y]) && Exec(g, s, [x, y]) == Step(Step(s, x), y)
  {
    OneStep(g, Step(s, x), y);
    hide Step;
    assert [x, y][1..] == [y];
  }

  lemma OneStep(g: Graph, s: Net, a: Action)
    requires Enabled(g, s, a)
    ensures ValidRun(g, s, [a]) && Exec(g, s, [a]) == Step(s, a)
  {
    hide Step;
    assert [a][1..] == [];
    assert ValidRun(g, Step(s, a), []) && Exec(g, Step(s, a), []) == Step(s, a);
  }

  // A frame can travel any path.
  lemma Hop(g: Graph, s: Net, a: nat, b: nat, item: Item) returns (run: seq<Action>)
    requires a < |g| && b in g[a] && Has(s, a, item)
    ensures |run| == 2 && ValidRun(g, s, run) && Has(Exec(g, s, run), b, item)
  {
    var i: nat :| i < |s.pending| && s.pending[i] == Queued(a, item, true);
    assert multiset([b]) <= multiset(g[a]);
    assert [b][..0] == [] && DueAt([], item) == [];
    assert DueAt([b], item) == [Due(b, item)];
    var rest := Without(s.pending, i);
    var s1 := s.(pending := rest + [Due(b, item)]);
    assert Step(s, Process(i, [b])) == s1 && s1.pending[|rest|] == Due(b, item);
    var s2 := Step(s1, Call(|rest|, true));
    assert s2.pending[|s2.pending| - 1] == Queued(b, item, true);
    run := [Process(i, [b]), Call(|rest|, true)];
    hide ValidRun, Exec;
    TwoSteps(g, s, Process(i, [b]), Call(|rest|, true));
  }

  lemma {:induction false} RunsCompose(g: Graph, s: Net, xs: seq<Action>, ys: seq<Action>)
    requires ValidRun(g, s, xs) && ValidRun(g, Exec(g, s, xs), ys)
    ensures ValidRun(g, s, xs + ys) && Exec(g, s, xs + ys) == Exec(g, Exec(g, s, xs), ys)
    decreases |xs|
  {
    if xs == [] {
      assert xs + ys == ys;
    } else {
      assert (xs + ys)[1..] == xs[1..] + ys;
      RunsCompose(g, Step(s, xs[0]), xs[1..], ys);
    }
  }

  lemma {:induction false} Travel(g: Graph, s: Net, a: nat, b: nat, n: nat, item: Item) returns (run: seq<Action>)
    requires ReachIn(g, a, b, n) && Has(s, a, item)
    ensures |run| > n && ValidRun(g, s, run) && Has(Exec(g, s, run), b, item)
    decreases n
  {
    if n == 0 {
      run := Hop(g, s, a, b, item);
    } else {
      var m :| m in g[a] && ReachIn(g, m, b, n - 1);
      var xs := Hop(g, s, a, m, item);
      var ys := Travel(g, Exec(g, s, xs), m, b, n - 1, item);
      RunsCompose(g, s, xs, ys);
      run := xs + ys;
    }
  }

  lemma {:induction false} Circle(g: Graph, s: Net, h: nat, n: nat, times: nat, item: Item) returns (run: seq<Action>)
    requires ReachIn(g, h, h, n) && Has(s, h, item)
    ensures |run| >= times && ValidRun(g, s, run) && Has(Exec(g, s, run), h, item)
    decreases times
  {
    if times == 0 {
      run := [];
    } else {
      var xs := Travel(g, s, h, h, n, item);
      var ys := Circle(g, Exec(g, s, xs), h, n, times - 1, item);
      RunsCompose(g, s, xs, ys);
      run := xs + ys;
    }
  }

  // No run that starts with one publish at h is longer.
  ghost predicate BoundedBy(g: Graph, h: nat, item: Item, bound: nat) {
    forall actions | ValidRun(g, One(h, item), actions) :: |actions| <= bound
  }

  ghost predicate Terminates(g: Graph, h: nat, item: Item) {
    exists bound: nat :: BoundedBy(g, h, item, bound)
  }

  // Forwarding always ends exactly when the pipes form no cycle.
  lemma TerminatesIffAcyclic(g: Graph, item: Item)
    requires InRange(g)
    ensures Acyclic(g) <==> forall h | 0 <= h < |g| :: Terminates(g, h, item)
  {
    if Acyclic(g) {
      forall h | 0 <= h < |g| ensures Terminates(g, h, item) {
        forall actions | ValidRun(g, One(h, item), actions) ensures |actions| <= CostAll(g, One(h, item).pending) {
          RunsAreBounded(g, One(h, item), actions);
        }
        assert BoundedBy(g, h, item, CostAll(g, One(h, item).pending));
      }
    } else {
      var h: nat :| Reaches(g, h, h);
      CycleRunsOn(g, h, item);
    }
  }

  lemma CycleRunsOn(g: Graph, h: nat, item: Item)
    requires Reaches(g, h, h)
    ensures h < |g| && !Terminates(g, h, item)
  {
    var n: nat :| ReachIn(g, h, h, n);
    forall bound: nat ensures !BoundedBy(g, h, item, bound) {
      var run := Circle(g, One(h, item), h, n, bound + 1, item);
    }
  }

  // ---- adding a pipe ----

  lemma {:induction false} OldPathsStay(g: Graph, src: nat, dst: nat, a: nat, b: nat, n: nat)
    requires src < |g| && ReachIn(g, a, b, n)
    ensures ReachIn(Pipe(g, src, dst), a, b, n)
    decreases n
  {
    if n > 0 {
      var m :| m in g[a] && ReachIn(g, m, b, n - 1);
      OldPathsStay(g, src, dst, m, b, n - 1);
      assert m in Pipe(g, src, dst)[a];
    }
  }

  // A path in the new graph is an old one, or goes over the new pipe.
  lemma {:induction false} NewPaths(g: Graph, src: nat, dst: nat, a: nat, b: nat, n: nat)
    requires src < |g| && ReachIn(Pipe(g, src, dst), a, b, n)
    ensures Reaches(g, a, b) || ((a == src || Reaches(g, a, src)) && (dst == b || Reaches(g, dst, b)))
    decreases n
  {
    var g' := Pipe(g, src, dst);
    if n == 0 {
      if b in g[a] {
        EdgeReaches(g, a, b);
      }
    } else {
      var m :| m in g'[a] && ReachIn(g', m, b, n - 1);
      NewPaths(g, src, dst, m, b, n - 1);
      if m in g[a] {
        EdgeReaches(g, a, m);
        if Reaches(g, m, b) {
          ReachesTransitive(g, a, m, b);
        } else if m != src {
          ReachesTransitive(g, a, m, src);
        }
      }
    }
  }

  // Adding a pipe keeps forwarding finite exactly when its destination did not lead to its
  // source before; a pipe from a hub to itself is refused, and so is always safe.
  lemma PipeKeepsAcyclicIff(g: Graph, src: nat, dst: nat)
    requires Acyclic(g) && src < |g|
    ensures Acyclic(Pipe(g, src, dst)) <==> src == dst || !Reaches(g, dst, src)
  {
    var g' := Pipe(g, src, dst);
    if src != dst {
      if Reaches(g, dst, src) {
        var n: nat :| ReachIn(g, dst, src, n);
        OldPathsStay(g, src, dst, dst, src, n);
        assert ReachIn(g', src, dst, 0);
        ReachThrough(g', src, dst, src, 0, n);
        assert Reaches(g', src, src);
      } else {
        forall h ensures !Reaches(g', h, h) {
          if Reaches(g', h, h) {
            NoNewCycle(g, src, dst, h);
          }
        }
      }
    }
  }

  lemma NoNewCycle(g: Graph, src: nat, dst: nat, h: nat)
    requires src < |g| && src != dst && Reaches(Pipe(g, src, dst), h, h)
    ensures Reaches(g, h, h) || Reaches(g, dst, src)
  {
    var n: nat :| ReachIn(Pipe(g, src, dst), h, h, n);
    NewPaths(g, src, dst, h, h, n);
    if !Reaches(g, h, h) && dst != h && h != src {
      ReachesTransitive(g, dst, h, src);
    }
  }
}
