// stream.go: one connected endpoint with its bounded outbound queue.
module Peers {
  import opened Bytes

  const SEND_BUFFER: nat := 256

  // The Go channel behind Peer.send: nil, or a buffer that may be closed.
  datatype Queue = NoQueue | Queue(items: seq<Frame>, closed: bool)

  // How far the body of closeOnce has run. Between TookHook and Closed the closing
  // goroutine holds the queue and the hook it read under the lock.
  datatype Closing =
    | Open
    | TookHook(hadQueue: bool, hook: bool)
    | ClosedQueue(hadQueue: bool, hook: bool)
    | Closed(hadQueue: bool)

  // One peer together with a record of what its users observed.
  datatype PeerState = PeerState(
    queue: Queue,
    hook: bool,              // closeHook != nil
    closing: Closing,
    sent: seq<Frame>,        // frames for which Send returned true
    drained: seq<Frame>,     // frames the transport took from SendQueue
    queueCloses: nat,
    hookCalls: nat)

  // A peer made by NewPeer has its queue; the zero value Peer{} has none yet.
  function NewPeer(queue: bool): PeerState {
    PeerState(if queue then Queue([], false) else NoQueue, false, Open, [], [], 0, 0)
  }

  // Every lock-protected section or channel operation of stream.go, as one step.
  datatype Action =
    | Send(frame: Frame)
    | Drain
    | EnsureQueue            // AddPeer and SubscribePeer make a nil queue
    | SetHook(present: bool)
    | CloseBegin             // closeOnce.Do enters: read queue and hook, forget the hook
    | CloseQueue
    | CloseHook

  function SendOk(p: PeerState): bool {
    p.queue.Queue? && !p.queue.closed && |p.queue.items| < SEND_BUFFER
  }

  function Step(p: PeerState, a: Action): PeerState {
    match a
    case Send(frame) =>
      if SendOk(p) then p.(queue := p.queue.(items := p.queue.items + [frame]), sent := p.sent + [frame]) else p
    case Drain =>
      if p.queue.Queue? && p.queue.items != []
      then p.(queue := p.queue.(items := p.queue.items[1..]), drained := p.drained + [p.queue.items[0]]) else p
    case EnsureQueue => if p.queue.NoQueue? then p.(queue := Queue([], false)) else p
    case SetHook(present) => p.(hook := present)
    case CloseBegin => if p.closing.Open? then p.(closing := TookHook(p.queue.Queue?, p.hook), hook := false) else p
    case CloseQueue =>
      if !p.closing.TookHook? then p
      else if p.closing.hadQueue && p.queue.Queue?
      then p.(queue := p.queue.(closed := true), closing := ClosedQueue(p.closing.hadQueue, p.closing.hook), queueCloses := p.queueCloses + 1)
      else p.(closing := ClosedQueue(p.closing.hadQueue, p.closing.hook))
    case CloseHook =>
      if !p.closing.ClosedQueue? then p
      else p.(closing := Closed(p.closing.hadQueue), hookCalls := p.hookCalls + if p.closing.hook then 1 else 0)
  }

  function Run(p: PeerState, actions: seq<Action>): PeerState {
    if actions == [] then p else Step(Run(p, actions[..|actions| - 1]), actions[|actions| - 1])
  }

  // What every interleaving keeps: accepted frames leave in order, none is lost or
  // invented, the buffer is bounded, and queue and hook are closed at most once.
  ghost predicate Inv(p: PeerState) {
    && p.sent == p.drained + (if p.queue.Queue? then p.queue.items else [])
    && (p.queue.Queue? ==> |p.queue.items| <= SEND_BUFFER && (p.queue.closed <==> p.queueCloses == 1))
    && (!p.closing.Open? && p.closing.hadQueue ==> p.queue.Queue?)
    && (p.closing.ClosedQueue? || p.closing.Closed? ==> (p.closing.hadQueue <==> p.queueCloses == 1))
    && p.queueCloses <= 1 && p.hookCalls <= 1
    && (p.closing.Open? || p.closing.TookHook? ==> p.queueCloses == 0)
    && (!p.closing.Closed? ==> p.hookCalls == 0)
    && (p.queue.NoQueue? ==> p.queueCloses == 0 && p.sent == [])
  }

  lemma StepKeepsInv(p: PeerState, a: Action)
    requires Inv(p)
    ensures Inv(Step(p, a))
  {
    if a.Drain? && p.queue.Queue? && p.queue.items != [] {
      assert p.queue.items == [p.queue.items[0]] + p.queue.items[1..];
    }
  }

  lemma {:induction false} RunKeepsInv(queue: bool, actions: seq<Action>)
    ensures Inv(Run(NewPeer(queue), actions))
  {
    if actions != [] {
      hide Inv, Step;
      var last := |actions| - 1;
      RunKeepsInv(queue, actions[..last]);
      StepKeepsInv(Run(NewPeer(queue), actions[..last]), actions[last]);
    } else {
      assert Inv(NewPeer(queue));
    }
  }

  // Once the queue is closed it stays closed, and Send accepts nothing any more.
  lemma {:induction false} ClosedRejects(p: PeerState, actions: seq<Action>)
    requires Inv(p) && p.queueCloses == 1 && p.queue.Queue?
    ensures Run(p, actions).sent == p.sent && Run(p, actions).queue.Queue? && Run(p, actions).queue.closed
    ensures !SendOk(Run(p, actions))
  {
    if actions != [] {
      ClosedRejects(p, actions[..|actions| - 1]);
    }
  }

  // No continuation of the run lets a Send succeed.
  ghost predicate NeverAccepts(p: PeerState) {
    forall later: seq<Action> :: !SendOk(Run(p, later))
  }

  // "Send fails once Close is done" holds, over every interleaving, exactly for the peers
  // whose queue existed when Close read it. A zero-valued Peer closed before its first
  // AddPeer or SubscribePeer gets a fresh queue there, and nothing closes that one.
  lemma SendFailsAfterCloseIff(made: bool, actions: seq<Action>)
    requires var closing := Run(NewPeer(made), actions).closing; closing.ClosedQueue? || closing.Closed?
    ensures var p := Run(NewPeer(made), actions);
      NeverAccepts(p) <==> p.closing.hadQueue
  {
    RunKeepsInv(made, actions);
    var p := Run(NewPeer(made), actions);
    if p.closing.hadQueue {
      forall later: seq<Action> ensures !SendOk(Run(p, later)) {
        ClosedRejects(p, later);
      }
    } else {
      var more := MakeRoom(p, [EnsureQueue]);
      assert SendOk(Run(p, more));
    }
  }

  // The transport can take a frame from an open queue, after which Send has room.
  lemma MakeRoom(p: PeerState, actions: seq<Action>) returns (more: seq<Action>)
    requires Inv(Run(p, actions)) && Run(p, actions).queue.Queue? && !Run(p, actions).queue.closed
    ensures SendOk(Run(p, more))
  {
    if SendOk(Run(p, actions)) {
      more := actions;
    } else {
      more := actions + [Drain];
      assert more[..|more| - 1] == actions;
    }
  }

  // A peer made by NewPeer is always in the good case.
  lemma {:induction false} NewPeerClosesItsQueue(actions: seq<Action>)
    ensures var p := Run(NewPeer(true), actions); p.queue.Queue? && (!p.closing.Open? ==> p.closing.hadQueue)
  {
    if actions != [] {
      NewPeerClosesItsQueue(actions[..|actions| - 1]);
    }
  }

  // ---- what a run does, from its actions ----

  // The actions before Close is first entered.
  function BeforeClose(actions: seq<Action>): seq<Action> {
    if actions == [] then []
    else
      var before := actions[..|actions| - 1];
      if CloseBegin in before then BeforeClose(before)
      else if actions[|actions| - 1].CloseBegin? then before
      else actions
  }

  // Whether the last SetCloseHook gave a hook.
  function LastHook(actions: seq<Action>): bool {
    if actions == [] then false
    else if actions[|actions| - 1].SetHook? then actions[|actions| - 1].present
    else LastHook(actions[..|actions| - 1])
  }

  ghost predicate FollowsActions(p: PeerState, made: bool, actions: seq<Action>) {
    var before := BeforeClose(actions);
    && (p.closing.Open? <==> CloseBegin !in actions)
    && (p.closing.Open? ==> before == actions && p.hook == LastHook(actions))
    && (p.queue.Queue? <==> made || EnsureQueue in actions)
    && (!p.closing.Open? ==> (p.closing.hadQueue <==> made || EnsureQueue in before))
    && (p.closing.TookHook? || p.closing.ClosedQueue? ==> p.closing.hook == LastHook(before))
    && (p.closing.Open? || p.closing.TookHook? ==> p.queueCloses == 0)
    && (p.closing.ClosedQueue? || p.closing.Closed? ==> p.queueCloses == if made || EnsureQueue in before then 1 else 0)
    && p.hookCalls == if p.closing.Closed? && LastHook(before) then 1 else 0
  }

  lemma {:induction false} RunFollowsActions(made: bool, actions: seq<Action>)
    ensures FollowsActions(Run(NewPeer(made), actions), made, actions)
  {
    if actions != [] {
      var before, a := actions[..|actions| - 1], actions[|actions| - 1];
      RunFollowsActions(made, before);
      RunKeepsInv(made, before);
      assert actions == before + [a];
      StepFollowsActions(Run(NewPeer(made), before), made, before, a);
    }
  }

  lemma StepFollowsActions(p: PeerState, made: bool, before: seq<Action>, a: Action)
    requires FollowsActions(p, made, before) && Inv(p)
    ensures FollowsActions(Step(p, a), made, before + [a])
  {
    hide Step, FollowsActions, Inv;
    if a.CloseBegin? || a.CloseQueue? || a.CloseHook? {
      CloseFollowsActions(p, made, before, a);
    } else {
      UseFollowsActions(p, made, before, a);
    }
  }

  lemma CloseFollowsActions(p: PeerState, made: bool, before: seq<Action>, a: Action)
    requires FollowsActions(p, made, before) && Inv(p) && (a.CloseBegin? || a.CloseQueue? || a.CloseHook?)
    ensures FollowsActions(Step(p, a), made, before + [a])
  {
    RecordsStep(before, a);
    assert forall x :: x in before + [a] <==> x in before || x == a;
    hide BeforeClose, LastHook;
  }

  lemma UseFollowsActions(p: PeerState, made: bool, before: seq<Action>, a: Action)
    requires FollowsActions(p, made, before) && !a.CloseBegin? && !a.CloseQueue? && !a.CloseHook?
    ensures FollowsActions(Step(p, a), made, before + [a])
  {
    RecordsStep(before, a);
    assert forall x :: x in before + [a] <==> x in before || x == a;
    hide BeforeClose, LastHook;
  }

  lemma RecordsStep(before: seq<Action>, a: Action)
    ensures LastHook(before + [a]) == if a.SetHook? then a.present else LastHook(before)
    ensures BeforeClose(before + [a]) ==
      if CloseBegin in before then BeforeClose(before) else if a.CloseBegin? then before else before + [a]
  {
    var actions := before + [a];
    assert actions[..|actions| - 1] == before && actions[|actions| - 1] == a;
  }

  // Over every run: when Close is done the hook was called exactly if the last SetCloseHook
  // before Close gave one, and the queue closed exactly if there was one by then.
  lemma CloseCallsTheLastHook(made: bool, actions: seq<Action>)
    ensures var p := Run(NewPeer(made), actions);
      p.closing.Closed? ==>
        && (p.hookCalls == 1 <==> LastHook(BeforeClose(actions)))
        && (p.queueCloses == 1 <==> made || EnsureQueue in BeforeClose(actions))
  {
    RunFollowsActions(made, actions);
  }

  // Close gets to its end, and a Send, a drain and a new queue do what they say.
  lemma StepsOfOneUse(p: PeerState, frame: Frame)
    ensures p.closing.Open? ==> Step(Step(Step(p, CloseBegin), CloseQueue), CloseHook).closing.Closed?
    ensures p.queue.Queue? && !p.queue.closed && |p.queue.items| < SEND_BUFFER ==>
      var q := Step(p, Send(frame)); q.sent == p.sent + [frame] && q.queue == Queue(p.queue.items + [frame], false)
    ensures p.queue.NoQueue? || p.queue.closed || |p.queue.items| >= SEND_BUFFER ==> Step(p, Send(frame)) == p
    ensures p.queue.Queue? && p.queue.items != [] ==>
      var q := Step(p, Drain); p.queue.items == [q.drained[|p.drained|]] + q.queue.items && |q.drained| == |p.drained| + 1
  {}

  function WithoutSetHooks(actions: seq<Action>): seq<Action> {
    if actions == [] then []
    else WithoutSetHooks(actions[..|actions| - 1]) +
         if actions[|actions| - 1].SetHook? then [] else [actions[|actions| - 1]]
  }

  // Once Close has read the hook, setting one changes nothing but the field: all else, and
  // whether the hook that Close read is called, is as if it had not been set.
  lemma {:induction false} LateHookIsNotCalled(p: PeerState, actions: seq<Action>)
    requires !p.closing.Open?
    ensures !Run(p, actions).closing.Open?
    ensures Run(p, actions).(hook := false) == Run(p, WithoutSetHooks(actions)).(hook := false)
  {
    if actions != [] {
      var last, before := actions[|actions| - 1], actions[..|actions| - 1];
      LateHookIsNotCalled(p, before);
      LateStep(Run(p, before), Run(p, WithoutSetHooks(before)), last);
      var kept := WithoutSetHooks(actions);
      if !last.SetHook? {
        assert kept[..|kept| - 1] == WithoutSetHooks(before);
      } else {
        assert kept == WithoutSetHooks(before);
      }
    }
  }

  lemma LateStep(p: PeerState, q: PeerState, a: Action)
    requires !p.closing.Open? && p.(hook := false) == q.(hook := false)
    ensures !Step(p, a).closing.Open? && Step(p, a).(hook := false) == Step(q, a).(hook := false)
    ensures a.SetHook? ==> Step(p, a).(hook := false) == q.(hook := false)
  {}

  // stream.Peer: the fields the source updates, and ghost records of what happened.
  class Peer {
    const ID: seq<byte>
    const isTCP: bool                   // Transport == "tcp"
    var send: Queue
    var closeHook: bool
    var subscriptions: set<Channel>
    var closing: Closing                // progress of closeOnce
    ghost var sent: seq<Frame>
    ghost var drained: seq<Frame>
    ghost var queueCloses: nat
    ghost var hookCalls: nat

    ghost function State(): PeerState
      reads this`send, this`closeHook, this`closing, this`sent, this`drained, this`queueCloses, this`hookCalls
    {
      PeerState(send, closeHook, closing, sent, drained, queueCloses, hookCalls)
    }

    constructor (id: seq<byte>, isTCP: bool)
      ensures State() == NewPeer(true) && subscriptions == {} && ID == id && this.isTCP == isTCP
    {
      ID, this.isTCP := id, isTCP;
      send, closeHook, subscriptions, closing := Queue([], false), false, {}, Open;
      sent, drained, queueCloses, hookCalls := [], [], 0, 0;
    }

    method Send(frame: Frame) returns (ok: bool)
      modifies this`send, this`sent
      ensures ok <==> old(send).Queue? && !old(send).closed && |old(send).items| < SEND_BUFFER
      ensures ok ==> send == Queue(old(send).items + [frame], false) && sent == old(sent) + [frame]
      ensures !ok ==> send == old(send) && sent == old(sent)
      ensures State() == Step(old(State()), Action.Send(frame))
    {
      if send.NoQueue? || send.closed || |send.items| >= SEND_BUFFER {
        return false;
      }
      send := send.(items := send.items + [frame]);
      sent := sent + [frame];
      return true;
    }

    // One receive from SendQueue by the transport.
    method Receive() returns (frame: Option<Frame>)
      modifies this`send, this`drained
      ensures State() == Step(old(State()), Drain)
      ensures frame.Some? <==> old(send).Queue? && old(send).items != []
      ensures frame.Some? ==> frame.value == old(send).items[0] && drained == old(drained) + [frame.value]
      ensures frame.Some? ==> send == old(send).(items := old(send).items[1..])
    {
      if send.NoQueue? || send.items == [] {
        return None;
      }
      frame := Some(send.items[0]);
      drained := drained + [send.items[0]];
      send := send.(items := send.items[1..]);
    }

    method EnsureSendQueue()
      modifies this`send
      ensures State() == Step(old(State()), EnsureQueue)
      ensures send == if old(send).NoQueue? then Queue([], false) else old(send)
    {
      if send.NoQueue? {
        send := Queue([], false);
      }
    }

    method SetCloseHook(present: bool)
      modifies this`closeHook
      ensures State() == Step(old(State()), SetHook(present)) && closeHook == present
    {
      closeHook := present;
    }

    // closeOnce.Do, run without interference; it does nothing from the second call on.
    method Close()
      requires closing.Open? || closing.Closed?
      modifies this`send, this`closeHook, this`closing, this`queueCloses, this`hookCalls
      ensures State() == Step(Step(Step(old(State()), CloseBegin), Action.CloseQueue), Action.CloseHook)
      ensures old(closing).Closed? ==> State() == old(State())
      ensures closing.Closed? && (send.Queue? ==> old(closing).Open? ==> send == old(send).(closed := true))
      ensures old(closing).Open? ==> hookCalls == old(hookCalls) + if old(closeHook) then 1 else 0
      ensures old(closing).Open? ==> queueCloses == old(queueCloses) + if old(send).Queue? then 1 else 0
    {
      if closing.Closed? {
        return;
      }
      var queue, hook := send, closeHook;
      closeHook := false;
      if queue.Queue? {
        send := send.(closed := true);
        queueCloses := queueCloses + 1;
      }
      if hook {
        hookCalls := hookCalls + 1;
      }
      closing := Closed(queue.Queue?);
    }
  }
}
