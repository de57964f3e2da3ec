// AddPeer and RemovePeer of one peer: they travel on two queues, and a removal can overtake the
// addition before it.
module HubRemovals {
  import opened Bytes
  import opened Registries
  import opened HubRuns
  import opened HubInvariants
  import opened HubSafety
  import opened HubSchedules

  // ---- what a step does to one peer ----

  // In terms of the calls of addPeer and removePeer that were made, and of their locked
  // sections.
  ghost predicate PeerStep(s: Sys, t: Sys, p: PeerRef) {
    && t.log.addCalls[p] >= s.log.addCalls[p] && t.log.removeCalls[p] >= s.log.removeCalls[p]
    && t.log.addLocks[p] >= s.log.addLocks[p] && t.log.removeLocks[p] >= s.log.removeLocks[p]
    && (t.log.addLocks[p] > s.log.addLocks[p] ==> p in t.reg.peers && t.log.removeLocks[p] == s.log.removeLocks[p])
    && (t.log.removeLocks[p] > s.log.removeLocks[p] ==> p !in t.reg.peers)
    && (t.log.addLocks[p] == s.log.addLocks[p] && t.log.removeLocks[p] == s.log.removeLocks[p] ==>
          (p in t.reg.peers <==> p in s.reg.peers))
  }

  lemma CallPeerStep(s: Sys, i: nat, call: Call, after: After, p: PeerRef)
    requires i < |s.threads| && !call.LookUp?
    ensures var t := AdvanceCall(s, i, call, after);
      PeerStep(s, t, p) && t.log.addCalls == s.log.addCalls && t.log.removeCalls == s.log.removeCalls
  {
    match call
    case AddLock(q) => LockStep(s, q, p);
    case RemoveLock(q) => LockStep(s, q, p);
    case _ =>
  }

  lemma LockStep(s: Sys, q: PeerRef, p: PeerRef)
    ensures PeerStep(s, AddLocked(s, q), p) && PeerStep(s, RemoveLocked(s, q), p)
  {}

  // Outside calls nothing is logged about peers.
  lemma OutsideCalls(s: Sys, i: nat)
    requires i < |s.threads| && CanProceed(s, s.threads[i]) && !s.threads[i].In?
    ensures var t := Advance(s, i);
      && t.reg == s.reg && t.log.(performed := s.log.performed) == s.log
  {
    hide Offer, Push, WithLane, LaneOf, AdvanceCall;
  }

  lemma AdvancePeerStep(s: Sys, i: nat, p: PeerRef)
    requires i < |s.threads| && CanProceed(s, s.threads[i])
    ensures var t := Advance(s, i);
      PeerStep(s, t, p) && t.log.addCalls == s.log.addCalls && t.log.removeCalls == s.log.removeCalls
  {
    if s.threads[i].In? {
      CallPeerStep(s, i, s.threads[i].call, s.threads[i].after, p);
      hide AdvanceCall, PeerStep;
    } else {
      OutsideCalls(s, i);
      hide Advance;
    }
  }

  lemma ActorPeerStep(s: Sys, a: Action, p: PeerRef)
    requires Enabled(s, a) && Actor(a).Some?
    ensures var t := Step(s, a);
      && PeerStep(s, t, p) && t.log.addCalls == s.log.addCalls
      && (!a.LoopStop? ==> t.log.removeCalls == s.log.removeCalls)
  {
    hide Advance, Take, GiveUp, Lists, WithLane, LaneOf;
    if a.Proceed? {
      AdvancePeerStep(s, a.i, p);
    }
  }

  // What the calls that start a thread leave in the log.
  lemma ClientLog(s: Sys, a: Action)
    requires Enabled(s, a) && Actor(a).None? && !TableCall(a)
    ensures var t := Step(s, a);
      && t.reg == s.reg && t.log.addLocks == s.log.addLocks && t.log.removeLocks == s.log.removeLocks
      && t.log.addCalls == s.log.addCalls + (if a.BeginAdd? then multiset{a.p} else multiset{})
      && t.log.removeCalls == s.log.removeCalls + (if a.BeginRemove? then multiset([a.p]) else multiset{})
  {
    hide Lists, NobodyListens;
  }

  lemma ClientPeerStep(s: Sys, a: Action, p: PeerRef)
    requires Enabled(s, a) && Actor(a).None?
    ensures var t := Step(s, a);
      && PeerStep(s, t, p) && (a != BeginAdd(p) ==> t.log.addCalls[p] == s.log.addCalls[p])
  {
    if TableCall(a) {
      TableCallKeepsPeers(s, a);
    } else {
      ClientLog(s, a);
    }
    hide Step, Enabled;
  }

  lemma StepOfPeer(s: Sys, a: Action, p: PeerRef)
    requires Enabled(s, a)
    ensures PeerStep(s, Step(s, a), p)
    ensures a != BeginAdd(p) ==> Step(s, a).log.addCalls[p] == s.log.addCalls[p]
    ensures a.Proceed? || a.ReadHandlers? || a.LoopRegister? ==> Step(s, a).log.removeCalls == s.log.removeCalls
  {
    hide Step, Enabled, PeerStep;
    if Actor(a).Some? {
      ActorPeerStep(s, a, p);
    } else {
      ClientPeerStep(s, a, p);
    }
  }

  // ---- pending calls ----

  function PendingAdds(s: Sys, p: PeerRef): nat {
    multiset(s.register)[p] + Sum(s.threads, AddKey(p))
  }

  function PendingRemoves(s: Sys, p: PeerRef): nat {
    multiset(s.unregister)[p] + Sum(s.threads, RemoveKey(p))
  }

  lemma PendingAreCalls(s: Sys, p: PeerRef)
    requires AllBalanced(s)
    ensures s.log.addCalls[p] == s.log.addLocks[p] + PendingAdds(s, p)
    ensures s.log.removeCalls[p] == s.log.removeLocks[p] + PendingRemoves(s, p)
  {
    PeerBooks(s, p);
  }

  // No addition is pending, and if the peer is registered a removal is.
  ghost predicate Leaving(s: Sys, p: PeerRef) {
    && s.log.addCalls[p] == s.log.addLocks[p]
    && (p in s.reg.peers ==> s.log.removeCalls[p] > s.log.removeLocks[p])
  }

  lemma {:induction false} LeavingRun(s: Sys, run: seq<Action>, p: PeerRef)
    requires ValidRun(s, run) && Safe(s) && Leaving(s, p) && BeginAdd(p) !in run
    ensures Safe(Exec(s, run)) && Leaving(Exec(s, run), p)
    decreases |run|
  {
    hide Step, Enabled, Safe;
    if run != [] {
      var t := Step(s, run[0]);
      StepIsSafe(s, run[0]);
      StepOfPeer(s, run[0], p);
      PendingOf(t, p);
      LeavingRun(t, run[1..], p);
    }
  }

  lemma PendingOf(s: Sys, p: PeerRef)
    requires Safe(s)
    ensures s.log.addCalls[p] >= s.log.addLocks[p] && s.log.removeCalls[p] >= s.log.removeLocks[p]
  {
    PendingAreCalls(s, p);
  }

  // ---- driving the additions ----

  // A tame run: if no removal is pending, a peer that gets added stays.
  lemma {:induction false} AddedStays(s: Sys, run: seq<Action>, p: PeerRef)
    requires ValidRun(s, run) && Safe(s) && Tame(run) && s.log.removeCalls[p] == s.log.removeLocks[p]
    ensures var t := Exec(s, run);
      && Safe(t) && t.log.removeCalls[p] == t.log.removeLocks[p] && t.log.addCalls[p] == s.log.addCalls[p]
      && t.log.addLocks[p] >= s.log.addLocks[p]
      && (t.log.addLocks[p] > s.log.addLocks[p] || p in s.reg.peers ==> p in t.reg.peers)
    decreases |run|
  {
    hide Step, Enabled, Safe;
    if run != [] {
      var a, t := run[0], Step(s, run[0]);
      assert a in run;
      StepIsSafe(s, a);
      StepOfPeer(s, a, p);
      PendingOf(t, p);
      AddedStays(t, run[1..], p);
    }
  }

  // The steps that a thread still needs until the additions of p that it holds are done or
  // queued.
  function Work(t: Thread, p: PeerRef): nat {
    if t == Registering(p) then 2 else if t.In? && t.call == AddLock(p) then 1 else 0
  }

  function WorkIn(threads: seq<Thread>, p: PeerRef): nat {
    if threads == [] then 0 else WorkIn(threads[..|threads| - 1], p) + Work(threads[|threads| - 1], p)
  }

  lemma {:induction false} WorkUpdate(threads: seq<Thread>, i: nat, t: Thread, p: PeerRef)
    requires i < |threads|
    ensures WorkIn(threads[i := t], p) + Work(threads[i], p) == WorkIn(threads, p) + Work(t, p)
  {
    hide Work;
    var n := |threads| - 1;
    if i == n {
      assert threads[i := t][..n] == threads[..n];
    } else {
      WorkUpdate(threads[..n], i, t, p);
      assert threads[i := t][..n] == threads[..n][i := t];
    }
  }

  lemma WorkStep(s: Sys, i: nat, p: PeerRef)
    requires i < |s.threads| && Work(s.threads[i], p) > 0
    ensures Enabled(s, Proceed(i)) && Work(Step(s, Proceed(i)).threads[i], p) < Work(s.threads[i], p)
    ensures Step(s, Proceed(i)).running == s.running && |Step(s, Proceed(i)).threads| == |s.threads|
  {
    hide AddPeer, RemovePeer;
  }

  // Every thread that holds an addition of p takes its steps.
  lemma {:induction false} DriveThreads(s: Sys, p: PeerRef) returns (run: seq<Action>)
    requires s.running
    ensures ValidRun(s, run) && Tame(run) && Exec(s, run).running && Sum(Exec(s, run).threads, AddKey(p)) == 0
    decreases WorkIn(s.threads, p)
  {
    SumIsZeroIff(s.threads, AddKey(p));
    run := [];
    if Sum(s.threads, AddKey(p)) > 0 {
      var i: nat :| i < |s.threads| && Holds(s.threads[i], AddKey(p)) != 0;
      assert Work(s.threads[i], p) > 0;
      var a := Proceed(i);
      WorkStep(s, i, p);
      ActorStep(s, a);
      OneStep(s, a);
      var t := Step(s, a);
      hide Step, Enabled, Work, Exec, ValidRun;
      WorkUpdate(s.threads, i, t.threads[i], p);
      var more := DriveThreads(t, p);
      RunsCompose(s, [a], more);
      run := [a] + more;
    }
  }

  lemma NoneHeld(s: Sys, t: Sys, l: nat, p: PeerRef)
    requires OnlyThread(s, t, l) && l < |s.threads| && t.threads[l] == At(Loop)
    requires forall i | 0 <= i < |s.threads| && i != l :: Holds(s.threads[i], AddKey(p)) == 0
    ensures Sum(t.threads, AddKey(p)) == 0
  {
    SumIsZeroIff(t.threads, AddKey(p));
    forall i | 0 <= i < |t.threads| ensures Holds(t.threads[i], AddKey(p)) == 0 {
      if i != l {
        assert t.threads[i] == s.threads[i];
      }
    }
  }

  lemma TakeRegister(s: Sys, l: nat)
    requires InLoop(s, l) && s.register != []
    ensures Enabled(s, LoopRegister(l))
    ensures var t := Step(s, LoopRegister(l));
      && t.running == s.running && t.register == s.register[1..] && |t.threads| == |s.threads|
      && Runs(t.threads[l]) && forall j | 0 <= j < |s.threads| && j != l :: t.threads[j] == s.threads[j]
  {}

  // The loop takes all that is queued to be added.
  lemma {:induction false} DriveQueue(s: Sys, l: nat, p: PeerRef) returns (run: seq<Action>)
    requires s.running && InLoop(s, l) && Sum(s.threads, AddKey(p)) == 0
    ensures ValidRun(s, run) && Tame(run)
    ensures var t := Exec(s, run); t.running && t.register == [] && Sum(t.threads, AddKey(p)) == 0
    decreases |s.register|
  {
    run := [];
    if s.register != [] {
      SumIsZeroIff(s.threads, AddKey(p));
      var a := LoopRegister(l);
      TakeRegister(s, l);
      OneStep(s, a);
      var m := Step(s, a);
      hide Step, Enabled, Exec, ValidRun, Holds;
      var back := ToLoop(m, l);
      var t := Exec(m, back);
      NoneHeld(m, t, l, p);
      var more := DriveQueue(t, l, p);
      RunsCompose(m, back, more);
      RunsCompose(s, [a], back + more);
      run := [a] + (back + more);
    }
  }

  // All pending additions of p are done.
  lemma DriveAdds(s: Sys, p: PeerRef) returns (run: seq<Action>)
    requires s.running && Safe(s)
    ensures ValidRun(s, run) && Tame(run) && Exec(s, run).running && PendingAdds(Exec(s, run), p) == 0
  {
    hide Step, Enabled, Exec, ValidRun, Safe;
    var first := DriveThreads(s, p);
    var m := Exec(s, first);
    RunIsSafe(s, first);
    SafeHasOneLoop(m);
    var l := LoopThread(m);
    SumIsZeroIff(m.threads, AddKey(p));
    var second := ToLoop(m, l);
    var t := Exec(m, second);
    NoneHeld(m, t, l, p);
    var third := DriveQueue(t, l, p);
    RunsCompose(m, second, third);
    RunsCompose(s, first, second + third);
    run := first + (second + third);
  }

  lemma SafeHasOneLoop(s: Sys)
    requires Safe(s)
    ensures OneLoop(s)
  {}

  // ---- removing first ----

  // Nothing is done about the calls for p.
  ghost predicate SameForPeer(s: Sys, t: Sys, p: PeerRef) {
    && t.log.addCalls[p] == s.log.addCalls[p] && t.log.removeCalls[p] == s.log.removeCalls[p]
    && t.log.addLocks[p] == s.log.addLocks[p] && t.log.removeLocks[p] == s.log.removeLocks[p]
  }

  // Another client removes q, through the queue while it has room.
  lemma QueueRemoval(s: Sys, q: PeerRef, p: PeerRef) returns (run: seq<Action>)
    requires s.running && |s.unregister| < QUEUE_SIZE && q != p
    ensures ValidRun(s, run) && BeginAdd(p) !in run
    ensures var t := Exec(s, run);
      && t.running && |t.unregister| == |s.unregister| + 1 && SameForPeer(s, t, p)
      && |t.threads| == |s.threads| + 1 && (forall j | 0 <= j < |s.threads| :: t.threads[j] == s.threads[j])
  {
    var a, b := BeginRemove(q), Proceed(|s.threads|);
    var m := Step(s, a);
    assert m.threads[|s.threads|] == Unregistering(q);
    assert Enabled(m, b);
    TwoSteps(s, a, b);
    run := [a, b];
  }

  lemma {:induction false} FillRemovals(s: Sys, q: PeerRef, p: PeerRef, k: nat) returns (run: seq<Action>)
    requires s.running && |s.unregister| + k == QUEUE_SIZE && q != p
    ensures ValidRun(s, run) && BeginAdd(p) !in run
    ensures var t := Exec(s, run);
      && t.running && |t.unregister| == QUEUE_SIZE && SameForPeer(s, t, p)
      && |t.threads| >= |s.threads| && (forall j | 0 <= j < |s.threads| :: t.threads[j] == s.threads[j])
    decreases k
  {
    run := [];
    if k > 0 {
      var first := QueueRemoval(s, q, p);
      hide Exec, ValidRun;
      var m := Exec(s, first);
      var more := FillRemovals(m, q, p, k - 1);
      RunsCompose(s, first, more);
      run := first + more;
    }
  }

  // With the queue full the removal of p runs at once, in its own thread.
  lemma RemoveDirectly(s: Sys, j: nat, p: PeerRef) returns (run: seq<Action>)
    requires j < |s.threads| && s.threads[j] == Unregistering(p) && |s.unregister| == QUEUE_SIZE && s.running
    ensures ValidRun(s, run) && BeginAdd(p) !in run
    ensures var t := Exec(s, run);
      && t.running && t.log.removeLocks[p] == s.log.removeLocks[p] + 1 && t.log.removeCalls[p] == s.log.removeCalls[p]
      && t.log.addLocks[p] == s.log.addLocks[p] && t.log.addCalls[p] == s.log.addCalls[p]
  {
    var a := Proceed(j);
    var m := Step(s, a);
    assert m == s.(threads := m.threads) && m.threads[j] == In(RemoveLock(p), Exit);
    assert Enabled(m, a) && Step(m, a) == AdvanceCall(m, j, RemoveLock(p), Exit);
    TwoSteps(s, a, a);
    run := [a, a];
  }

  // ---- when a removal leaves the peer registered ----

  // From the call of RemovePeer on, a run without a further AddPeer of p, at whose end no
  // addPeer or removePeer of p is pending, and p is registered.
  ghost predicate EndsRegistered(s: Sys, later: seq<Action>, p: PeerRef) {
    && ValidRun(s, later) && BeginAdd(p) !in later
    && var t := Exec(s, later); PendingAdds(t, p) == 0 && PendingRemoves(t, p) == 0 && p in t.reg.peers
  }

  lemma BeginRemoveStep(s: Sys, p: PeerRef)
    requires s.running
    ensures Enabled(s, BeginRemove(p))
    ensures var t := Step(s, BeginRemove(p));
      && t.running && |t.threads| == |s.threads| + 1 && t.threads[|s.threads|] == Unregistering(p)
      && t.log.removeCalls[p] == s.log.removeCalls[p] + 1 && t.log.addCalls[p] == s.log.addCalls[p]
      && t.log.addLocks[p] == s.log.addLocks[p] && t.log.removeLocks[p] == s.log.removeLocks[p]
      && (p in t.reg.peers <==> p in s.reg.peers)
  {}

  lemma QueueBound(s: Sys)
    requires Safe(s)
    ensures |s.unregister| <= QUEUE_SIZE
  {}

  // The queue of removals is filled with those of another peer, so that of p runs at once.
  lemma RemoveFirst(s: Sys, j: nat, p: PeerRef) returns (run: seq<Action>)
    requires Safe(s) && s.running && j < |s.threads| && s.threads[j] == Unregistering(p)
    ensures ValidRun(s, run) && BeginAdd(p) !in run
    ensures var t := Exec(s, run);
      && Safe(t) && t.running && t.log.removeLocks[p] == s.log.removeLocks[p] + 1
      && t.log.removeCalls[p] == s.log.removeCalls[p]
      && t.log.addLocks[p] == s.log.addLocks[p] && t.log.addCalls[p] == s.log.addCalls[p]
  {
    QueueBound(s);
    hide Exec, ValidRun, Safe;
    var first := FillRemovals(s, p + 1, p, QUEUE_SIZE - |s.unregister|);
    var m := Exec(s, first);
    var second := RemoveDirectly(m, j, p);
    RunsCompose(s, first, second);
    run := first + second;
    RunIsSafe(s, run);
  }

  // The removal first, then the additions that were pending before it.
  lemma RemovalOvertakes(s: Sys, p: PeerRef) returns (later: seq<Action>)
    requires Safe(s) && s.running && PendingRemoves(s, p) == 0 && PendingAdds(s, p) > 0
    ensures EndsRegistered(Step(s, BeginRemove(p)), later, p)
  {
    BeginRemoveStep(s, p);
    SafePending(s, p);
    StepIsSafe(s, BeginRemove(p));
    var s1 := Step(s, BeginRemove(p));
    hide Step, Enabled, Exec, ValidRun, Safe, PendingAdds, PendingRemoves;
    var first := RemoveFirst(s1, |s.threads|, p);
    var second := AddAgain(Exec(s1, first), p);
    RunsCompose(s1, first, second);
    later := first + second;
  }

  // With no removal pending, pending additions end with the peer registered.
  lemma AddAgain(s: Sys, p: PeerRef) returns (run: seq<Action>)
    requires Safe(s) && s.running && s.log.removeCalls[p] == s.log.removeLocks[p]
    requires s.log.addCalls[p] > s.log.addLocks[p]
    ensures EndsRegistered(s, run, p)
  {
    hide Step, Enabled, Exec, ValidRun, Safe, PendingAdds, PendingRemoves;
    run := DriveAdds(s, p);
    AddedStays(s, run, p);
    SafePending(Exec(s, run), p);
    assert BeginAdd(p) !in run;
  }

  lemma SafePending(s: Sys, p: PeerRef)
    requires Safe(s)
    ensures s.log.addCalls[p] == s.log.addLocks[p] + PendingAdds(s, p)
    ensures s.log.removeCalls[p] == s.log.removeLocks[p] + PendingRemoves(s, p)
  {
    PendingAreCalls(s, p);
  }

  lemma RemovalIsLast(s: Sys, p: PeerRef, later: seq<Action>)
    requires Safe(s) && s.running && PendingRemoves(s, p) == 0 && PendingAdds(s, p) == 0
    ensures !EndsRegistered(Step(s, BeginRemove(p)), later, p)
  {
    BeginRemoveStep(s, p);
    SafePending(s, p);
    StepIsSafe(s, BeginRemove(p));
    var s1 := Step(s, BeginRemove(p));
    hide Step, Enabled, Exec, ValidRun, Safe, PendingAdds, PendingRemoves;
    assert Leaving(s1, p);
    if ValidRun(s1, later) && BeginAdd(p) !in later {
      LeavingRun(s1, later, p);
      SafePending(Exec(s1, later), p);
    }
  }

  // In any reachable state of a running hub with no removal of p pending: after a RemovePeer
  // of p, and with no further AddPeer, some run leaves p registered for good exactly when an
  // addPeer of it was still pending. If none was, every run ends with p unregistered.
  lemma RemoveLeavesRegisteredIff(actions: seq<Action>, p: PeerRef)
    requires ValidRun(NewHub(), actions)
    requires var s := Exec(NewHub(), actions); s.running && PendingRemoves(s, p) == 0
    ensures var s := Exec(NewHub(), actions);
      && Enabled(s, BeginRemove(p))
      && ((exists later :: EndsRegistered(Step(s, BeginRemove(p)), later, p)) <==>
            p in s.register || Sum(s.threads, AddKey(p)) > 0)
  {
    NewHubIsSafe();
    RunIsSafe(NewHub(), actions);
    var s := Exec(NewHub(), actions);
    assert PendingAdds(s, p) > 0 <==> p in s.register || Sum(s.threads, AddKey(p)) > 0;
    hide Exec, ValidRun, Safe, EndsRegistered, PendingAdds, PendingRemoves, Step;
    if PendingAdds(s, p) > 0 {
      var later := RemovalOvertakes(s, p);
    } else {
      forall later ensures !EndsRegistered(Step(s, BeginRemove(p)), later, p) {
        RemovalIsLast(s, p, later);
      }
    }
  }

  // From a new hub on: AddPeer has returned, RemovePeer is called, and the peer stays.
  lemma RemoveCanOvertakeAdd(p: PeerRef)
    ensures var called := [StartRun, BeginAdd(p)] + [Proceed(1)];
      && ValidRun(NewHub(), called)
      && var s := Exec(NewHub(), called);
         && s.threads == [At(Loop), At(Exit)] && Enabled(s, BeginRemove(p))
         && exists later :: EndsRegistered(Step(s, BeginRemove(p)), later, p)
  {
    var called := [StartRun, BeginAdd(p)] + [Proceed(1)];
    AddIsQueued(p);
    hide Step, Enabled, Exec, ValidRun;
    var s := Exec(NewHub(), called);
    SumIsZeroIff(s.threads, RemoveKey(p));
    assert PendingRemoves(s, p) == 0;
    hide PendingRemoves, Sum;
    RemoveLeavesRegisteredIff(called, p);
  }

  lemma AddIsQueued(p: PeerRef)
    ensures var called := [StartRun, BeginAdd(p)] + [Proceed(1)];
      && ValidRun(NewHub(), called)
      && var s := Exec(NewHub(), called);
         s.running && s.threads == [At(Loop), At(Exit)] && s.register == [p] && s.unregister == []
  {
    var s0 := NewHub();
    var s1 := Step(s0, StartRun);
    var s2 := Step(s1, BeginAdd(p));
    assert s2.threads == [At(Loop), Registering(p)];
    assert Enabled(s2, Proceed(1));
    TwoSteps(s0, StartRun, BeginAdd(p));
    OneStep(s2, Proceed(1));
    RunsCompose(s0, [StartRun, BeginAdd(p)], [Proceed(1)]);
  }
}
