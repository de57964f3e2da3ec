// Schedules of the hub: runs that reach a given point, and what they show about the order of
// deliveries, of additions and removals, and about a hub that runs again.
module HubSchedules {
  import opened Bytes
  import opened Registries
  import opened HubRuns
  import opened HubInvariants
  import opened HubSafety

  lemma {:induction false} SomeOrder<T>(effects: set<T>) returns (order: seq<T>)
    ensures Lists(order, effects)
    decreases |effects|
  {
    if effects == {} {
      order := [];
    } else {
      var e :| e in effects;
      var rest := SomeOrder(effects - {e});
      order := [e] + rest;
      assert multiset(effects) == multiset(effects - {e}) + multiset{e};
    }
  }

  // ---- the loop comes back to its select ----

  // The queues and the calls made stay, and every thread but one.
  ghost predicate OnlyThread(s: Sys, t: Sys, i: nat) {
    && t.running == s.running && t.done == s.done
    && t.broadcasts == s.broadcasts && t.publishes == s.publishes
    && t.register == s.register && t.unregister == s.unregister
    && |t.threads| == |s.threads|
    && (forall j | 0 <= j < |s.threads| && j != i :: t.threads[j] == s.threads[j])
  }

  // Steps that start no call of addPeer or removePeer, and stop no Run.
  predicate Tame(run: seq<Action>) {
    forall a | a in run :: a.Proceed? || a.ReadHandlers? || a.LoopRegister?
  }

  // The steps a call of the loop still takes.
  function StepsLeft(call: Call): nat {
    match call
    case AddLock(_) => 2
    case Connecting(_) => 1
    case RemoveLock(_) => 3
    case Closing(_) => 2
    case Disconnecting(_) => 1
    case LookUp(_) => 0
    case Deliver(todo) => |todo| + 1
  }

  lemma CallStep(s: Sys, i: nat, call: Call, after: After)
    requires i < |s.threads| && s.threads[i] == In(call, after) && !call.LookUp?
    ensures var t := AdvanceCall(s, i, call, after);
      && OnlyThread(s, t, i)
      && (t.threads[i] == At(after) ||
          (t.threads[i].In? && t.threads[i].after == after && !t.threads[i].call.LookUp? &&
           StepsLeft(t.threads[i].call) < StepsLeft(call)))
  {
    hide AddPeer, RemovePeer;
  }

  lemma OnlyThreadTwice(s: Sys, m: Sys, t: Sys, i: nat)
    requires OnlyThread(s, m, i) && OnlyThread(m, t, i)
    ensures OnlyThread(s, t, i)
  {}

  lemma {:induction false} CallReturns(s: Sys, i: nat, call: Call, after: After) returns (run: seq<Action>)
    requires i < |s.threads| && s.threads[i] == In(call, after) && !call.LookUp?
    ensures ValidRun(s, run) && Tame(run)
    ensures OnlyThread(s, Exec(s, run), i) && Exec(s, run).threads[i] == At(after)
    decreases StepsLeft(call)
  {
    var a := Proceed(i);
    CallStep(s, i, call, after);
    assert Enabled(s, a) && Step(s, a) == AdvanceCall(s, i, call, after);
    OneStep(s, a);
    var t := Step(s, a);
    run := [a];
    hide Step, Enabled, AdvanceCall, OnlyThread, Exec, ValidRun;
    if t.threads[i] != At(after) {
      var more := CallReturns(t, i, t.threads[i].call, after);
      RunsCompose(s, [a], more);
      OnlyThreadTwice(s, t, Exec(t, more), i);
      run := [a] + more;
    }
  }

  lemma LookUpStep(s: Sys, i: nat, order: seq<Effect>)
    requires i < |s.threads| && s.threads[i].In? && s.threads[i].call.LookUp?
    requires Enabled(s, ReadHandlers(i, order))
    ensures var t := Step(s, ReadHandlers(i, order));
      OnlyThread(s, t, i) && t.threads[i] == In(Deliver(order), s.threads[i].after)
  {
    hide Lists, Deliveries;
  }

  // A thread gets to the end of its call, and meanwhile leaves the queues and the other threads
  // alone.
  lemma Returns(s: Sys, i: nat, after: After) returns (run: seq<Action>)
    requires i < |s.threads| && (s.threads[i].At? || s.threads[i].In?) && s.threads[i].after == after
    ensures ValidRun(s, run) && Tame(run)
    ensures OnlyThread(s, Exec(s, run), i) && Exec(s, run).threads[i] == At(after)
  {
    if s.threads[i].At? {
      run := [];
    } else if !s.threads[i].call.LookUp? {
      run := CallReturns(s, i, s.threads[i].call, after);
    } else {
      var order := SomeOrder(Deliveries(s.reg, s.threads[i].call.item));
      var a := ReadHandlers(i, order);
      LookUpStep(s, i, order);
      OneStep(s, a);
      var t := Step(s, a);
      hide Step, Enabled, Exec, ValidRun, OnlyThread;
      var more := CallReturns(t, i, Deliver(order), after);
      RunsCompose(s, [a], more);
      OnlyThreadTwice(s, t, Exec(t, more), i);
      run := [a] + more;
    }
  }

  // A thread of Run gets back to the select.
  lemma ToLoop(s: Sys, i: nat) returns (run: seq<Action>)
    requires i < |s.threads| && Runs(s.threads[i])
    ensures ValidRun(s, run) && Tame(run)
    ensures OnlyThread(s, Exec(s, run), i) && Exec(s, run).threads[i] == At(Loop)
  {
    run := Returns(s, i, Loop);
  }

  lemma LoopThread(s: Sys) returns (i: nat)
    requires OneLoop(s) && s.running
    ensures i < |s.threads| && Runs(s.threads[i])
  {
    var j :| 0 <= j < |s.threads| && Runs(s.threads[j]);
    i := j;
  }

  // ---- order ----

  // One of the two is the beginning of the other.
  predicate Comparable(xs: seq<Item>, ys: seq<Item>) {
    xs <= ys || ys <= xs
  }

  // So many were accepted before, and are processed or queued in that order.
  ghost predicate Keeps(lane: Lane, accepted: seq<Item>) {
    accepted <= lane.processed + lane.queue
  }

  lemma LaneMoveKeeps(s: Sys, broadcast: bool, after: Lane, accepted: seq<Item>)
    requires LaneMove(s, broadcast, after) && Keeps(if broadcast then s.broadcasts else s.publishes, accepted)
    ensures Keeps(after, accepted)
  {
    var before := if broadcast then s.broadcasts else s.publishes;
    if before.queue != [] {
      assert before.processed + before.queue == (before.processed + [before.queue[0]]) + before.queue[1..];
    }
    assert forall item :: before.processed + (before.queue + [item]) == (before.processed + before.queue) + [item];
  }

  lemma {:induction false} RunKeeps(s: Sys, run: seq<Action>, x: Item, accepted: seq<Item>)
    requires ValidRun(s, run) && Keeps(LaneOf(s, x), accepted)
    ensures Keeps(LaneOf(Exec(s, run), x), accepted)
    decreases |run|
  {
    hide Keeps, LaneMove, Step, Enabled;
    if run != [] {
      LaneMoves(s, run[0]);
      LaneMoveKeeps(s, x.BroadcastItem?, LaneOf(Step(s, run[0]), x), accepted);
      RunKeeps(Step(s, run[0]), run[1..], x, accepted);
    }
  }

  // The loop takes the next item of a lane, and does all there is to do for it.
  lemma ProcessOne(s: Sys, i: nat, x: Item) returns (run: seq<Action>)
    requires InLoop(s, i) && LaneOf(s, x).queue != []
    ensures ValidRun(s, run) && OnlyLane(s, Exec(s, run), i, x)
    ensures LaneOf(Exec(s, run), x) == Take(LaneOf(s, x)) && InLoop(Exec(s, run), i)
  {
    var a := if x.BroadcastItem? then LoopBroadcast(i) else LoopPublish(i);
    assert Enabled(s, a);
    OneStep(s, a);
    var t := Step(s, a);
    assert t.threads[i] == In(LookUp(LaneOf(s, x).queue[0]), Loop) && LaneOf(t, x) == Take(LaneOf(s, x));
    assert OnlyLane(s, t, i, x);
    hide Step, Enabled, Take, Exec, ValidRun;
    var more := ToLoop(t, i);
    RunsCompose(s, [a], more);
    run := [a] + more;
  }

  // Nothing changes but one thread and one lane.
  ghost predicate OnlyLane(s: Sys, t: Sys, i: nat, x: Item) {
    && t.running == s.running && t.done == s.done
    && t.register == s.register && t.unregister == s.unregister
    && (if x.BroadcastItem? then t.publishes == s.publishes else t.broadcasts == s.broadcasts)
    && |t.threads| == |s.threads|
    && (forall j | 0 <= j < |s.threads| && j != i :: t.threads[j] == s.threads[j])
  }

  lemma {:induction false} ProcessMany(s: Sys, i: nat, x: Item, n: nat) returns (run: seq<Action>)
    requires InLoop(s, i) && n <= |LaneOf(s, x).queue|
    ensures ValidRun(s, run) && OnlyLane(s, Exec(s, run), i, x) && InLoop(Exec(s, run), i)
    ensures var before, after := LaneOf(s, x), LaneOf(Exec(s, run), x);
      after == before.(processed := before.processed + before.queue[..n], queue := before.queue[n..])
    decreases n
  {
    if n == 0 {
      run := [];
      var before := LaneOf(s, x);
      assert before.processed + before.queue[..0] == before.processed;
    } else {
      var first := ProcessOne(s, i, x);
      var m := Exec(s, first);
      var more := ProcessMany(m, i, x, n - 1);
      RunsCompose(s, first, more);
      run := first + more;
      var before := LaneOf(s, x);
      TakeMore(before, n);
    }
  }

  lemma TakeMore(lane: Lane, n: nat)
    requires 0 < n <= |lane.queue|
    ensures var m := Take(lane);
      && m.queue[n - 1..] == lane.queue[n..]
      && m.processed + m.queue[..n - 1] == lane.processed + lane.queue[..n]
  {
    assert lane.queue[..n] == [lane.queue[0]] + lane.queue[1..][..n - 1];
  }

  // No Run stops.
  predicate NoStop(run: seq<Action>) {
    forall a | a in run :: !a.LoopStop?
  }

  // One more thread, and otherwise the same hub but for its tables.
  ghost predicate OneMore(s: Sys, t: Sys) {
    && t.running == s.running && t.done == s.done
    && t.broadcasts == s.broadcasts && t.publishes == s.publishes
    && t.register == s.register && t.unregister == s.unregister
    && |t.threads| == |s.threads| + 1
    && (forall j | 0 <= j < |s.threads| :: t.threads[j] == s.threads[j])
  }

  lemma OneMoreThen(s: Sys, m: Sys, t: Sys)
    requires OneMore(s, m) && OnlyThread(m, t, |s.threads|)
    ensures OneMore(s, t)
  {}

  lemma {:induction false} SendsEnd(s: Sys, n: nat, todo: seq<Effect>, y: Item) returns (run: seq<Action>)
    requires n < |s.threads| && s.threads[n] == Publishing(todo, y)
    ensures ValidRun(s, run) && NoStop(run) && OnlyThread(s, Exec(s, run), n) && Exec(s, run).threads[n] == Offering(y)
    decreases |todo|
  {
    var a := Proceed(n);
    OneStep(s, a);
    var t := Step(s, a);
    assert OnlyThread(s, t, n);
    run := [a];
    if todo != [] {
      assert t.threads[n] == Publishing(todo[1..], y);
      hide Step, Enabled, OnlyThread, Exec, ValidRun;
      var more := SendsEnd(t, n, todo[1..], y);
      RunsCompose(s, [a], more);
      OnlyThreadTwice(s, t, Exec(t, more), n);
      run := [a] + more;
    }
  }

  lemma SubscribedListens(s: Sys, c: Channel)
    ensures var t := Step(s, DoSubscribe(ForPublishes, 0));
      && !NobodyListens(t.reg, c, true) && t.threads == s.threads && t.running == s.running && t.done == s.done
      && t.broadcasts == s.broadcasts && t.publishes == s.publishes
      && t.register == s.register && t.unregister == s.unregister
  {
    var r := s.reg;
    var id := NextID(r);
    assert Subscribe(r, ForPublishes, 0).0.publishHandlers == r.publishHandlers[id := 0];
    assert id in r.publishHandlers[id := 0];
  }

  // A client of a running hub asks for a publish or broadcast; a publish needs a listener.
  lemma Ask(s: Sys, y: Item) returns (run: seq<Action>)
    requires s.running && y.notify
    ensures ValidRun(s, run) && NoStop(run)
    ensures OneMore(s, Exec(s, run)) && Exec(s, run).threads[|s.threads|] == Offering(y)
  {
    if y.BroadcastItem? {
      var a := BeginBroadcast(y.frame, y.notify);
      run := [a];
      OneStep(s, a);
    } else {
      run := AskPublish(s, y);
    }
  }

  lemma AskPublish(s: Sys, y: Item) returns (run: seq<Action>)
    requires s.running && y.PublishItem? && y.notify
    ensures ValidRun(s, run) && NoStop(run)
    ensures OneMore(s, Exec(s, run)) && Exec(s, run).threads[|s.threads|] == Offering(y)
  {
    var a := DoSubscribe(ForPublishes, 0);
    SubscribedListens(s, y.channel);
    OneStep(s, a);
    var m := Step(s, a);
    hide NobodyListens;
    var order := SomeOrder(PublishSends(m.reg, y));
    var b := BeginPublish(y, order);
    OneStep(m, b);
    var t := Step(m, b);
    assert OneMore(m, t) && t.threads[|s.threads|] == Publishing(order, y);
    assert OneMore(s, t);
    hide Step, Enabled, OneMore, OnlyThread, Exec, ValidRun;
    var more := SendsEnd(t, |s.threads|, order, y);
    RunsCompose(m, [b], more);
    RunsCompose(s, [a], [b] + more);
    OneMoreThen(s, t, Exec(t, more));
    run := [a] + ([b] + more);
  }

  lemma OfferStep(s: Sys, i: nat, x: Item)
    requires i < |s.threads| && s.threads[i] == Offering(x)
    ensures Enabled(s, Proceed(i)) && OnlyLane(s, Step(s, Proceed(i)), i, x)
    ensures LaneOf(Step(s, Proceed(i)), x) == Offer(LaneOf(s, x), x)
    ensures Step(s, Proceed(i)).threads[i] == if |LaneOf(s, x).queue| < QUEUE_SIZE then At(Exit) else Blocked(x)
  {
    hide Offer;
  }

  // A client asks for y, and the queue is offered it.
  lemma Request(s: Sys, y: Item) returns (run: seq<Action>)
    requires s.running && y.notify
    ensures ValidRun(s, run) && NoStop(run)
    ensures var t := Exec(s, run);
      && LaneOf(t, y) == Offer(LaneOf(s, y), y) && t.running && t.done == s.done
      && |t.threads| == |s.threads| + 1 && (forall j | 0 <= j < |s.threads| :: t.threads[j] == s.threads[j])
      && t.threads[|s.threads|] == (if |LaneOf(s, y).queue| < QUEUE_SIZE then At(Exit) else Blocked(y))
      && t.register == s.register && t.unregister == s.unregister
  {
    var n := |s.threads|;
    var asked := Ask(s, y);
    var m := Exec(s, asked);
    OfferStep(m, n, y);
    OneStep(m, Proceed(n));
    hide Step, Enabled, Offer, Exec, ValidRun;
    RunsCompose(s, asked, [Proceed(n)]);
    run := asked + [Proceed(n)];
  }

  // Another item of the same kind, that is announced to publish or broadcast handlers.
  function Other(x: Item): (y: Item)
    ensures y != x && y.BroadcastItem? == x.BroadcastItem? && y.notify
  {
    if x.BroadcastItem? then BroadcastItem(x.frame + [0], true) else PublishItem(x.channel, x.frame + [0], true)
  }

  // The loop makes room, a client's y takes it before x does, and all up to y are processed.
  lemma Overtake(s: Sys, i: nat, x: Item, l: nat) returns (run: seq<Action>)
    requires i < |s.threads| && s.threads[i] == Blocked(x) && InLoop(s, l)
    requires s.running && |LaneOf(s, x).queue| == QUEUE_SIZE
    ensures ValidRun(s, run)
    ensures var lane := LaneOf(s, x);
      && LaneOf(Exec(s, run), x).processed == lane.processed + lane.queue + [Other(x)]
      && LaneOf(Exec(s, run), x).accepted == lane.accepted + [Other(x)]
  {
    var y := Other(x);
    var first := ProcessOne(s, l, x);
    var m := Exec(s, first);
    var second := Request(m, y);
    var t := Exec(m, second);
    var third := ProcessMany(t, l, x, QUEUE_SIZE);
    var lane := LaneOf(s, x);
    TakeOfferTake(lane, y);
    hide Exec, ValidRun, Take, Offer;
    RunsCompose(m, second, third);
    RunsCompose(s, first, second + third);
    run := first + (second + third);
  }

  lemma TakeOfferTake(lane: Lane, y: Item)
    requires |lane.queue| == QUEUE_SIZE
    ensures var m := Offer(Take(lane), y);
      && |m.queue| == QUEUE_SIZE && m.accepted == lane.accepted + [y]
      && m.processed + m.queue[..QUEUE_SIZE] == lane.processed + lane.queue + [y]
  {
    var m := Offer(Take(lane), y);
    assert m.queue[..QUEUE_SIZE] == m.queue == lane.queue[1..] + [y];
    assert lane.queue == [lane.queue[0]] + lane.queue[1..];
  }

  // Some Run gets to its select, started if need be; goroutines that wait are left waiting.
  lemma SomeLoop(s: Sys) returns (run: seq<Action>, l: nat)
    requires OneLoop(s)
    ensures ValidRun(s, run)
    ensures var t := Exec(s, run);
      && t.running && InLoop(t, l) && t.broadcasts == s.broadcasts && t.publishes == s.publishes
      && |s.threads| <= |t.threads|
      && (forall j | 0 <= j < |s.threads| && s.threads[j].Blocked? :: t.threads[j] == s.threads[j])
  {
    if s.running {
      l := LoopThread(s);
      run := ToLoop(s, l);
    } else {
      l := |s.threads|;
      run := [StartRun];
      OneStep(s, StartRun);
    }
  }

  // In every continuation what is processed of a lane agrees with what was accepted by now.
  ghost predicate KeepsOrder(s: Sys, x: Item) {
    forall later | ValidRun(s, later) :: Comparable(LaneOf(Exec(s, later), x).processed, LaneOf(s, x).accepted)
  }

  lemma RoomKeepsOrder(s: Sys, i: nat, x: Item)
    requires i < |s.threads| && s.threads[i] == Offering(x) && |LaneOf(s, x).queue| < QUEUE_SIZE
    requires LaneOf(s, x).accepted == LaneOf(s, x).processed + LaneOf(s, x).queue
    ensures Enabled(s, Proceed(i)) && KeepsOrder(Step(s, Proceed(i)), x)
  {
    OfferStep(s, i, x);
    var t := Step(s, Proceed(i));
    var lane := LaneOf(t, x);
    assert lane.accepted == lane.processed + lane.queue;
    forall later | ValidRun(t, later) ensures Comparable(LaneOf(Exec(t, later), x).processed, lane.accepted) {
      RunKeeps(t, later, x, lane.accepted);
    }
  }

  lemma FullLosesOrder(s: Sys, i: nat, x: Item)
    requires Safe(s) && i < |s.threads| && s.threads[i] == Offering(x) && |LaneOf(s, x).queue| == QUEUE_SIZE
    requires LaneOf(s, x).accepted == LaneOf(s, x).processed + LaneOf(s, x).queue
    ensures Enabled(s, Proceed(i)) && !KeepsOrder(Step(s, Proceed(i)), x)
  {
    OfferStep(s, i, x);
    StepIsSafe(s, Proceed(i));
    var t := Step(s, Proceed(i));
    var before, lane := LaneOf(s, x).accepted, LaneOf(t, x);
    assert lane.accepted == before + [x] && lane.processed + lane.queue == before;
    hide Step, Enabled, Exec, ValidRun, Offer;
    var first, l := SomeLoop(t);
    var m := Exec(t, first);
    var second := Overtake(m, i, x, l);
    RunsCompose(t, first, second);
    var end := LaneOf(Exec(t, first + second), x).processed;
    assert end == before + [Other(x)];
    assert end[|before|] != lane.accepted[|before|];
  }

  // From any reachable state in which a queue has not overflowed: a delivery that is about to
  // be offered keeps its place, whatever happens afterwards, exactly when the queue has room.
  lemma OrderIsKeptIff(actions: seq<Action>, i: nat, x: Item)
    requires ValidRun(NewHub(), actions)
    requires var s := Exec(NewHub(), actions); i < |s.threads| && s.threads[i] == Offering(x) && !LaneOf(s, x).overflowed
    ensures var s := Exec(NewHub(), actions);
      Enabled(s, Proceed(i)) && (KeepsOrder(Step(s, Proceed(i)), x) <==> |LaneOf(s, x).queue| < QUEUE_SIZE)
  {
    NewHubIsSafe();
    RunIsSafe(NewHub(), actions);
    var s := Exec(NewHub(), actions);
    assert LaneInv(LaneOf(s, x), x.BroadcastItem?);
    hide Exec, ValidRun, Safe, KeepsOrder, Step, Enabled;
    if |LaneOf(s, x).queue| < QUEUE_SIZE {
      RoomKeepsOrder(s, i, x);
    } else {
      FullLosesOrder(s, i, x);
    }
  }

  // Requests fill the queue.
  lemma {:induction false} Fill(s: Sys, x: Item, k: nat) returns (run: seq<Action>)
    requires s.running && x.notify && |LaneOf(s, x).queue| + k == QUEUE_SIZE
    ensures ValidRun(s, run) && NoStop(run)
    ensures var t := Exec(s, run);
      && |LaneOf(t, x).queue| == QUEUE_SIZE && t.running && t.done == s.done
      && LaneOf(t, x).processed == LaneOf(s, x).processed && LaneOf(t, x).discarded == LaneOf(s, x).discarded
      && (LaneOf(s, x).accepted == LaneOf(s, x).processed + LaneOf(s, x).queue ==>
            LaneOf(t, x).accepted == LaneOf(t, x).processed + LaneOf(t, x).queue)
      && |s.threads| <= |t.threads| && forall j | 0 <= j < |s.threads| :: t.threads[j] == s.threads[j]
    decreases k
  {
    run := [];
    if k > 0 {
      var first := Request(s, x);
      hide Exec, ValidRun;
      var m := Exec(s, first);
      var more := Fill(m, x, k - 1);
      RunsCompose(s, first, more);
      run := first + more;
    }
  }

  // A run from a new hub on: 256 requests fill the queue, the next one is overtaken by the one
  // after it, and what is processed is not the beginning of what was accepted.
  lemma OverflowReorders(x: Item)
    requires x.notify
    ensures exists actions | ValidRun(NewHub(), actions) ::
      var lane := LaneOf(Exec(NewHub(), actions), x); !(lane.processed <= lane.accepted)
  {
    var s := Step(NewHub(), StartRun);
    OneStep(NewHub(), StartRun);
    assert s.threads == [At(Loop)];
    hide Step, Enabled, Exec, ValidRun;
    var first := Fill(s, x, QUEUE_SIZE);
    var m := Exec(s, first);
    var second := Request(m, x);
    var t := Exec(m, second);
    var third := Overtake(t, |m.threads|, x, 0);
    RunsCompose(m, second, third);
    RunsCompose(s, first, second + third);
    RunsCompose(NewHub(), [StartRun], first + (second + third));
    var run := [StartRun] + (first + (second + third));
    var before, lane := LaneOf(m, x).accepted, LaneOf(Exec(NewHub(), run), x);
    assert LaneOf(t, x).processed + LaneOf(t, x).queue == before;
    assert lane.processed == before + [Other(x)] && lane.accepted == before + [x] + [Other(x)];
    assert lane.processed[|before|] != lane.accepted[|before|];
    assert ValidRun(NewHub(), run);
  }

  // ---- a hub that runs again ----

  // In every reachable state done is closed exactly when some Run has finished its cleanup; a
  // Run that found the hub running and returned at once is none of these.
  lemma DoneIffRunReturned(actions: seq<Action>)
    requires ValidRun(NewHub(), actions)
    ensures Exec(NewHub(), actions).done <==> RunDone in Exec(NewHub(), actions).threads
  {
    NewHubIsSafe();
    RunIsSafe(NewHub(), actions);
  }

  // A Run that has left its loop and not closed done yet.
  predicate InCleanup(t: Thread) {
    (t.At? || t.In?) && t.after.Cleanup?
  }

  ghost predicate NoneCleansUp(s: Sys) {
    forall t | t in s.threads :: !InCleanup(t)
  }

  // A run in which no Run stops and in which an accepted delivery is given up.
  ghost predicate GivesUpDelivery(s: Sys, later: seq<Action>) {
    && ValidRun(s, later) && NoStop(later)
    && exists x :: LaneOf(Exec(s, later), x).discarded[x] > LaneOf(s, x).discarded[x]
  }

  lemma CallCleans(s: Sys, i: nat, call: Call, after: After)
    requires i < |s.threads| && s.threads[i] == In(call, after) && !call.LookUp? && !after.Cleanup?
    ensures !InCleanup(AdvanceCall(s, i, call, after).threads[i]) && AdvanceCall(s, i, call, after).done == s.done
  {
    hide AddPeer, RemovePeer;
  }

  lemma AdvanceCleans(s: Sys, i: nat)
    requires i < |s.threads| && CanProceed(s, s.threads[i]) && !InCleanup(s.threads[i])
    ensures !InCleanup(Advance(s, i).threads[i]) && Advance(s, i).done == s.done
  {
    if s.threads[i].In? {
      CallCleans(s, i, s.threads[i].call, s.threads[i].after);
    }
    hide AdvanceCall, Offer, Push, WithLane, LaneOf;
  }

  lemma ActorCleans(s: Sys, a: Action)
    requires Enabled(s, a) && Actor(a).Some? && !a.LoopStop? && NoneCleansUp(s)
    ensures var i := Actor(a).value;
      i < |Step(s, a).threads| && !InCleanup(Step(s, a).threads[i]) && Step(s, a).done == s.done
  {
    ActorStep(s, a);
    assert s.threads[Actor(a).value] in s.threads;
    hide Advance, Take, GiveUp, Lists, WithLane, LaneOf;
    if a.Proceed? {
      AdvanceCleans(s, a.i);
    }
  }

  lemma ClientCleans(s: Sys, a: Action)
    requires Enabled(s, a) && Actor(a).None?
    ensures Step(s, a).done == s.done
    ensures |Step(s, a).threads| > |s.threads| ==> !InCleanup(Step(s, a).threads[|s.threads|])
  {
    hide Lists, NobodyListens;
  }

  lemma StepCleans(s: Sys, a: Action)
    requires Enabled(s, a) && !a.LoopStop? && NoneCleansUp(s)
    ensures NoneCleansUp(Step(s, a)) && Step(s, a).done == s.done
  {
    if Actor(a).Some? {
      ActorStep(s, a);
      ActorCleans(s, a);
    } else {
      ClientStep(s, a);
      ClientCleans(s, a);
    }
    hide Step, Enabled, InCleanup;
  }

  // With done open and no Run cleaning up, nothing is given up while no Run stops.
  lemma {:induction false} NothingGivenUp(s: Sys, later: seq<Action>, x: Item)
    requires ValidRun(s, later) && NoStop(later) && !s.done && NoneCleansUp(s)
    ensures LaneOf(Exec(s, later), x).discarded == LaneOf(s, x).discarded
    decreases |later|
  {
    hide Step, Enabled, NoneCleansUp;
    if later != [] {
      assert later[0] in later;
      assert forall a | a in later[1..] :: a in later;
      StepCleans(s, later[0]);
      DiscardNeedsDone(s, later[0]);
      NothingGivenUp(Step(s, later[0]), later[1..], x);
    }
  }

  // A Run that cleans up gets to the end and closes done.
  lemma {:induction false} CleanupEnds(s: Sys, i: nat, todo: seq<PeerRef>) returns (run: seq<Action>)
    requires i < |s.threads| && InCleanup(s.threads[i]) && s.threads[i].after.todo == todo
    ensures ValidRun(s, run) && NoStop(run)
    ensures var t := Exec(s, run);
      t.done && t.running == s.running && t.broadcasts == s.broadcasts && t.publishes == s.publishes
    decreases |todo|
  {
    var first := Returns(s, i, Cleanup(todo));
    var m := Exec(s, first);
    var a := Proceed(i);
    assert Enabled(m, a);
    OneStep(m, a);
    var t := Step(m, a);
    assert t.running == s.running && t.broadcasts == s.broadcasts && t.publishes == s.publishes;
    var more := [];
    if todo != [] {
      assert t.threads[i] == In(RemoveLock(todo[0]), Cleanup(todo[1..]));
      hide Step, Enabled, Exec, ValidRun;
      more := CleanupEnds(t, i, todo[1..]);
    }
    hide Step, Enabled;
    RunsCompose(m, [a], more);
    RunsCompose(s, first, [a] + more);
    run := first + ([a] + more);
  }

  // A running hub with done closed: its queue is filled and the next delivery given up.
  lemma GivesUpOne(s: Sys, x: Item) returns (run: seq<Action>)
    requires s.running && s.done && x.notify && |LaneOf(s, x).queue| <= QUEUE_SIZE
    ensures ValidRun(s, run) && NoStop(run) && Exec(s, run).running && Exec(s, run).done
    ensures LaneOf(Exec(s, run), x).discarded[x] > LaneOf(s, x).discarded[x]
  {
    var first := Fill(s, x, QUEUE_SIZE - |LaneOf(s, x).queue|);
    var m := Exec(s, first);
    var second := Request(m, x);
    var t := Exec(m, second);
    var n := |m.threads|;
    assert t.threads[n] == Blocked(x) && t.done;
    OneStep(t, Discard(n));
    DiscardStep(t, n, x);
    hide Step, Enabled, Exec, ValidRun;
    RunsCompose(m, second, [Discard(n)]);
    RunsCompose(s, first, second + [Discard(n)]);
    run := first + (second + [Discard(n)]);
  }

  lemma DiscardStep(s: Sys, i: nat, x: Item)
    requires i < |s.threads| && s.threads[i] == Blocked(x) && s.done
    ensures Enabled(s, Discard(i))
    ensures var t := Step(s, Discard(i));
      t.running == s.running && t.done && LaneOf(t, x).discarded[x] == LaneOf(s, x).discarded[x] + 1
  {}

  lemma GivesUpSome(s: Sys) returns (run: seq<Action>)
    requires Safe(s) && s.running && (s.done || !NoneCleansUp(s))
    ensures GivesUpDelivery(s, run)
  {
    var x := BroadcastItem([], true);
    assert LaneInv(LaneOf(s, x), true);
    hide Safe, Step, Enabled, Exec, ValidRun;
    if s.done {
      run := GivesUpOne(s, x);
    } else {
      var t :| t in s.threads && InCleanup(t);
      var i: nat :| i < |s.threads| && s.threads[i] == t;
      var first := CleanupEnds(s, i, t.after.todo);
      var second := GivesUpOne(Exec(s, first), x);
      RunsCompose(s, first, second);
      run := first + second;
    }
  }

  // In every reachable state of a running hub: while no Run stops, an accepted delivery can be
  // given up exactly when done is closed already or an earlier Run is still cleaning up.
  lemma RunningHubGivesUpIff(actions: seq<Action>)
    requires ValidRun(NewHub(), actions) && Exec(NewHub(), actions).running
    ensures var s := Exec(NewHub(), actions);
      (exists later :: GivesUpDelivery(s, later)) <==> s.done || exists t | t in s.threads :: InCleanup(t)
  {
    NewHubIsSafe();
    RunIsSafe(NewHub(), actions);
    var s := Exec(NewHub(), actions);
    hide Exec, ValidRun, Safe, InCleanup;
    if s.done || !NoneCleansUp(s) {
      var later := GivesUpSome(s);
    } else {
      forall later ensures !GivesUpDelivery(s, later) {
        if ValidRun(s, later) && NoStop(later) {
          forall x ensures LaneOf(Exec(s, later), x).discarded == LaneOf(s, x).discarded {
            NothingGivenUp(s, later, x);
          }
        }
      }
    }
  }

  lemma Restarted()
    ensures var run := [StartRun, LoopStop(0, [])] + [Proceed(0), StartRun];
      ValidRun(NewHub(), run) && var s := Exec(NewHub(), run);
      s == NewHub().(running := true, done := true, threads := [RunDone, At(Loop)])
  {
    var s0 := NewHub();
    var s1 := Step(s0, StartRun);
    assert Enabled(s1, LoopStop(0, []));
    var s2 := Step(s1, LoopStop(0, []));
    assert s2 == s0.(threads := [At(Cleanup([]))], log := s2.log) && s2.log == s0.log;
    var s3 := Step(s2, Proceed(0));
    assert s3 == s0.(done := true, threads := [RunDone]);
    TwoSteps(s0, StartRun, LoopStop(0, []));
    TwoSteps(s2, Proceed(0), StartRun);
    RunsCompose(s0, [StartRun, LoopStop(0, [])], [Proceed(0), StartRun]);
  }

  // A run from a new hub on: the hub runs again, and gives up a delivery that it has accepted.
  lemma RestartedHubDiscards(x: Item)
    requires x.notify
    ensures exists actions | ValidRun(NewHub(), actions) ::
      var s := Exec(NewHub(), actions); s.running && s.done && LaneOf(s, x).discarded[x] > 0
  {
    Restarted();
    var start := [StartRun, LoopStop(0, [])] + [Proceed(0), StartRun];
    var s := Exec(NewHub(), start);
    assert LaneOf(s, x).queue == [];
    hide Exec, ValidRun;
    var more := GivesUpOne(s, x);
    RunsCompose(NewHub(), start, more);
    assert ValidRun(NewHub(), start + more);
  }
}
