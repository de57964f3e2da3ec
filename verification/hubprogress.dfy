// A running hub is never stuck: from every reachable state its threads, left to themselves, can
// finish all that was begun.
module HubProgress {
  import opened Bytes
  import opened Registries
  import opened HubRuns
  import opened HubInvariants
  import opened HubSafety
  import opened HubSchedules
  import opened HubExact

  // ---- how much is left to do ----

  function Total(threads: seq<Thread>, weight: Thread -> nat): nat {
    if threads == [] then 0 else Total(threads[..|threads| - 1], weight) + weight(threads[|threads| - 1])
  }

  lemma {:induction false} TotalUpdate(threads: seq<Thread>, i: nat, t: Thread, weight: Thread -> nat)
    requires i < |threads|
    ensures Total(threads[i := t], weight) + weight(threads[i]) == Total(threads, weight) + weight(t)
  {
    var n := |threads| - 1;
    if i == n {
      assert threads[i := t][..n] == threads[..n];
    } else {
      TotalUpdate(threads[..n], i, t, weight);
      assert threads[i := t][..n] == threads[..n][i := t];
    }
  }

  // How far a delivery is from having its handlers read; a queued one counts 2.
  function Stage(t: Thread): nat {
    match t
    case Publishing(_, _) => 5
    case Offering(_) => 4
    case Blocked(_) => 3
    case In(call, _) => if call.LookUp? then 1 else 0
    case _ => 0
  }

  // The other steps a thread has left; a queued addition or removal counts 5.
  function Work(t: Thread): nat {
    match t
    case At(after) => CleanupWork(after)
    case In(call, after) => StepsLeft(call) + 1 + CleanupWork(after)
    case Publishing(todo, _) => |todo|
    case Registering(_) => 6
    case Unregistering(_) => 6
    case _ => 0
  }

  function CleanupWork(after: After): nat {
    if after.Cleanup? then 6 * |after.todo| + 1 else 0
  }

  function QueuedStages(s: Sys): nat {
    2 * (|s.broadcasts.queue| + |s.publishes.queue|)
  }

  function QueuedWork(s: Sys): nat {
    5 * (|s.register| + |s.unregister|)
  }

  function StagesLeft(s: Sys): nat {
    Total(s.threads, Stage) + QueuedStages(s)
  }

  function WorkLeft(s: Sys): nat {
    Total(s.threads, Work) + QueuedWork(s)
  }

  // The steps of threads that are under way, without new calls, stops, and giving up.
  predicate Drives(a: Action) {
    Actor(a).Some? && !a.LoopStop? && !a.Discard?
  }

  // Thread i brings the end nearer.
  ghost predicate Nearer(s: Sys, s': Sys, i: nat) {
    && i < |s.threads| && i < |s'.threads|
    && var (before, after) := (Stage(s.threads[i]) + QueuedStages(s), Stage(s'.threads[i]) + QueuedStages(s'));
       after < before || (after == before && Work(s'.threads[i]) + QueuedWork(s') < Work(s.threads[i]) + QueuedWork(s))
  }

  lemma CallIsNearer(s: Sys, i: nat, call: Call, after: After)
    requires i < |s.threads| && s.threads[i] == In(call, after) && !call.LookUp?
    ensures Nearer(s, AdvanceCall(s, i, call, after), i)
  {
    CallStep(s, i, call, after);
    hide AdvanceCall, StepsLeft;
  }

  lemma OfferIsNearer(s: Sys, i: nat)
    requires i < |s.threads| && CanProceed(s, s.threads[i]) && (s.threads[i].Offering? || s.threads[i].Blocked?)
    ensures Nearer(s, Advance(s, i), i)
  {
    hide AdvanceCall;
  }

  lemma OwnStepIsNearer(s: Sys, i: nat)
    requires i < |s.threads| && CanProceed(s, s.threads[i])
    requires s.threads[i].At? || s.threads[i].Publishing? || s.threads[i].Registering? || s.threads[i].Unregistering?
    ensures Nearer(s, Advance(s, i), i)
  {
    hide AdvanceCall, Offer, Push, WithLane, LaneOf;
  }

  lemma LoopIsNearer(s: Sys, a: Action)
    requires Enabled(s, a) && (a.LoopRegister? || a.LoopUnregister? || a.LoopBroadcast? || a.LoopPublish?)
    ensures Nearer(s, Step(s, a), a.i)
  {}

  lemma ReadIsNearer(s: Sys, a: Action)
    requires Enabled(s, a) && a.ReadHandlers?
    ensures Nearer(s, Step(s, a), a.i)
  {
    LookUpStep(s, a.i, a.order);
    hide Step, Lists, Deliveries;
  }

  lemma DrivesNearer(s: Sys, a: Action)
    requires Enabled(s, a) && Drives(a)
    ensures Nearer(s, Step(s, a), Actor(a).value)
  {
    hide Nearer, Advance, AdvanceCall, CanProceed, Lists, Take;
    match a
    case ReadHandlers(_, _) => ReadIsNearer(s, a);
    case Proceed(i) =>
      match s.threads[i] {
        case In(call, after) => ProceedsInCall(s, i, call, after);
        case Offering(_) => OfferIsNearer(s, i);
        case Blocked(_) => OfferIsNearer(s, i);
        case RunDone => NotDone(s, i);
        case _ => OwnStepIsNearer(s, i);
      }
    case _ => LoopIsNearer(s, a);
  }

  lemma ProceedsInCall(s: Sys, i: nat, call: Call, after: After)
    requires i < |s.threads| && CanProceed(s, s.threads[i]) && s.threads[i] == In(call, after)
    ensures Nearer(s, Advance(s, i), i)
  {
    CallIsNearer(s, i, call, after);
    hide Nearer, AdvanceCall;
  }

  lemma NotDone(s: Sys, i: nat)
    requires i < |s.threads| && CanProceed(s, s.threads[i])
    ensures s.threads[i] != RunDone
  {}

  lemma DrivesLower(s: Sys, a: Action)
    requires Enabled(s, a) && Drives(a)
    ensures StagesLeft(Step(s, a)) < StagesLeft(s) ||
      (StagesLeft(Step(s, a)) == StagesLeft(s) && WorkLeft(Step(s, a)) < WorkLeft(s))
  {
    ActorStep(s, a);
    DrivesNearer(s, a);
    hide Step, Enabled, Stage, Work, QueuedStages, QueuedWork;
    var i := Actor(a).value;
    TotalUpdate(s.threads, i, Step(s, a).threads[i], Stage);
    TotalUpdate(s.threads, i, Step(s, a).threads[i], Work);
  }

  // ---- there is always a next step ----

  predicate Idle(t: Thread) {
    t.RunDone? || (t.At? && !t.after.Cleanup?)
  }

  // Nothing is queued, and no thread is in the middle of anything.
  ghost predicate Settled(s: Sys) {
    && s.broadcasts.queue == [] && s.publishes.queue == [] && s.register == [] && s.unregister == []
    && forall i | 0 <= i < |s.threads| :: Idle(s.threads[i])
  }

  lemma BusyMoves(s: Sys, i: nat) returns (a: Action)
    requires i < |s.threads| && !Idle(s.threads[i])
    requires s.threads[i].Blocked? ==> |LaneOf(s, s.threads[i].item).queue| < QUEUE_SIZE
    ensures Enabled(s, a) && Drives(a)
  {
    if s.threads[i].In? && s.threads[i].call.LookUp? {
      var order := SomeOrder(Deliveries(s.reg, s.threads[i].call.item));
      a := ReadHandlers(i, order);
      hide Lists, Deliveries;
    } else {
      a := Proceed(i);
    }
  }

  // With the loop in its select, whatever is queued can be taken.
  lemma QueuedMoves(s: Sys, i: nat) returns (a: Action)
    requires InLoop(s, i)
    requires s.broadcasts.queue != [] || s.publishes.queue != [] || s.register != [] || s.unregister != []
    ensures Enabled(s, a) && Drives(a)
  {
    a := if s.broadcasts.queue != [] then LoopBroadcast(i)
         else if s.publishes.queue != [] then LoopPublish(i)
         else if s.register != [] then LoopRegister(i)
         else LoopUnregister(i);
  }

  lemma SomethingMoves(s: Sys) returns (a: Action)
    requires OneLoop(s) && s.running && !Settled(s)
    ensures Enabled(s, a) && Drives(a)
  {
    if i: nat :| i < |s.threads| && !Idle(s.threads[i]) && !s.threads[i].Blocked? {
      a := BusyMoves(s, i);
    } else if s.broadcasts.queue != [] || s.publishes.queue != [] || s.register != [] || s.unregister != [] {
      var l := LoopThread(s);
      assert Idle(s.threads[l]);
      a := QueuedMoves(s, l);
    } else {
      var i: nat :| i < |s.threads| && !Idle(s.threads[i]);
      a := BusyMoves(s, i);
    }
  }

  predicate DrivesOnly(run: seq<Action>) {
    forall a | a in run :: Drives(a)
  }

  lemma {:induction false} Settles(s: Sys) returns (run: seq<Action>)
    requires OneLoop(s) && s.running
    ensures ValidRun(s, run) && DrivesOnly(run) && Settled(Exec(s, run)) && Exec(s, run).running
    decreases StagesLeft(s), WorkLeft(s)
  {
    run := [];
    hide Step, Enabled, OneLoop, Settled, StagesLeft, WorkLeft, Drives;
    if !Settled(s) {
      var a := SomethingMoves(s);
      DrivesLower(s, a);
      OneLoopStep(s, a);
      RunningFollowsCalls(s, a);
      DrivesNoStop(a);
      OneStep(s, a);
      var more := Settles(Step(s, a));
      RunsCompose(s, [a], more);
      run := [a] + more;
      hide Exec, ValidRun;
    }
  }

  lemma DrivesNoStop(a: Action)
    requires Drives(a)
    ensures !a.LoopStop?
  {}

  lemma SettledHoldsNothing(s: Sys, k: Key)
    requires Settled(s)
    ensures Sum(s.threads, k) == 0
  {
    SumIsZeroIff(s.threads, k);
    forall i | 0 <= i < |s.threads| ensures Holds(s.threads[i], k) == 0 {
      assert Idle(s.threads[i]);
    }
  }

  // From every reachable state of a running hub, without a further call, a further stop or a
  // further loss, its threads can come to a state in which it still runs and nothing is left to
  // do: every effect that was decided on has been performed; every item requested has had its
  // handlers read, or was given up before; and additions, removals and their callbacks are done.
  lemma RunningHubCanSettle(actions: seq<Action>) returns (more: seq<Action>)
    requires ValidRun(NewHub(), actions) && Exec(NewHub(), actions).running
    ensures DrivesOnly(more) && ValidRun(NewHub(), actions + more)
    ensures var s := Exec(NewHub(), actions + more);
      && s.running
      && (forall e: Effect :: s.log.performed[e] == Decisions(NewHub(), actions + more, e))
      && (forall item: Item :: s.log.read[item] + LaneOf(s, item).discarded[item] == RequestsIn(NewHub(), actions + more, item))
      && (forall p: PeerRef ::
            && s.log.addLocks[p] == s.log.addCalls[p] && s.log.removeLocks[p] == s.log.removeCalls[p]
            && s.log.connected[p] == s.log.disconnected[p] + if p in s.reg.peers then 1 else 0)
  {
    NewHubIsSafe();
    RunIsSafe(NewHub(), actions);
    var s0 := Exec(NewHub(), actions);
    more := Settles(s0);
    RunsCompose(NewHub(), actions, more);
    var all := actions + more;
    var s := Exec(NewHub(), all);
    assert Settled(s);
    hide *;
    forall e: Effect ensures s.log.performed[e] == Decisions(NewHub(), all, e) {
      SettledHoldsNothing(s, EffectKey(e));
      EffectsAreExact(all, e.item, e);
    }
    forall item: Item
      ensures s.log.read[item] + LaneOf(s, item).discarded[item] == RequestsIn(NewHub(), all, item)
    {
      SettledDeliveries(all, item);
    }
    forall p: PeerRef
      ensures s.log.addLocks[p] == s.log.addCalls[p] && s.log.removeLocks[p] == s.log.removeCalls[p]
      ensures s.log.connected[p] == s.log.disconnected[p] + if p in s.reg.peers then 1 else 0
    {
      SettledPeers(all, p);
    }
  }

  lemma SettledDeliveries(actions: seq<Action>, item: Item)
    requires ValidRun(NewHub(), actions) && Settled(Exec(NewHub(), actions))
    ensures var s := Exec(NewHub(), actions);
      s.log.read[item] + LaneOf(s, item).discarded[item] == RequestsIn(NewHub(), actions, item)
  {
    var s := Exec(NewHub(), actions);
    assert LaneOf(s, item).queue == [];
    hide *;
    EveryDeliveryIsAccountedFor(actions, item, SendTo(0, item));
    EffectsAreExact(actions, item, SendTo(0, item));
    SettledHoldsNothing(s, OfferKey(item));
    SettledHoldsNothing(s, ItemKey(item));
    SettledHoldsNothing(s, ReadKey(item));
  }

  lemma SettledPeers(actions: seq<Action>, p: PeerRef)
    requires ValidRun(NewHub(), actions) && Settled(Exec(NewHub(), actions))
    ensures var s := Exec(NewHub(), actions);
      && s.log.addLocks[p] == s.log.addCalls[p] && s.log.removeLocks[p] == s.log.removeCalls[p]
      && s.log.connected[p] == s.log.disconnected[p] + if p in s.reg.peers then 1 else 0
  {
    var s := Exec(NewHub(), actions);
    assert s.register == [] && s.unregister == [];
    hide *;
    LifecycleIsAccountedFor(actions, p);
    SettledHoldsNothing(s, AddKey(p));
    SettledHoldsNothing(s, RemoveKey(p));
    SettledHoldsNothing(s, ConnectKey(p));
    SettledHoldsNothing(s, DisconnectKey(p));
  }
}
