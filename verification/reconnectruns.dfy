// Connect and Close under concurrency: each locked section, dial, handshake, read and sleep of
// a Connect is one step, and Close may fall between any two.
module ReconnectRuns {
  import opened Bytes
  import opened Backoffs
  import opened Reconnecting

  // Where a call of Connect is.
  datatype Place =
    | Head                                   // about to check closed and the context
    | Announce                               // about to set the state to Connecting
    | Dial | Handshake(c: ConnRef)           // the handshake is TCP's
    | Install(c: ConnRef)
    | Reading(c: ConnRef)
    | Clear(c: ConnRef) | ClearState         // the second is TCP's
    | Check                                  // after a session
    | Failed                                 // about to set the state to Disconnected
    | Decide | Sleep
    | Returned(ok: bool)

  // cancelled: the context that this call was given.
  datatype Thread = Thread(place: Place, attempt: nat, backoff: int, cancelled: bool)

  datatype Sys = Sys(
    shared: Shared, threads: seq<Thread>, nextConn: ConnRef,
    connects: nat,                  // connections installed so far
    sleeps: seq<int>)

  datatype Action =
    | BeginConnect
    | Tick(i: nat, ok: bool)        // ok: the dial, handshake or sleep succeeds
    | CloseCall
    | Cancel(i: nat)

  function NewClient(): Sys {
    Sys(Shared(None, Disconnected, false), [], 0, 0, [])
  }

  predicate Enabled(s: Sys, a: Action) {
    match a
    case Tick(i, ok) =>
      i < |s.threads| && !s.threads[i].place.Returned?
      && (s.threads[i].place.Dial? && ok ==> !s.threads[i].cancelled)
      && (s.threads[i].place.Sleep? && !ok ==> s.threads[i].cancelled)
    case Cancel(i) => i < |s.threads|
    case _ => true
  }

  function SetState(s: Shared, state: ConnectionState): Shared {
    s.(state := state)
  }

  // The thread after its step, which sees the shared fields and the context.
  function Next(cfg: Config, tcp: bool, s: Sys, t: Thread, ok: bool): Thread
    requires ValidConfig(cfg)
  {
    match t.place
    case Head => t.(place := if s.shared.closed || t.cancelled then Returned(true) else Announce)
    case Announce => t.(place := Dial)
    case Dial =>
      if !ok then t.(place := Failed, attempt := t.attempt + 1)
      else t.(place := if tcp then Handshake(s.nextConn) else Install(s.nextConn))
    case Handshake(c) => if ok then t.(place := Install(c)) else t.(place := Failed, attempt := t.attempt + 1)
    case Install(c) => t.(place := Reading(c), attempt := 0, backoff := cfg.initial)
    case Reading(c) => t.(place := Clear(c))
    case Clear(_) => t.(place := if tcp then ClearState else Check)
    case ClearState => t.(place := Check)
    case Check =>
      if s.shared.closed || t.cancelled then t.(place := Returned(true))
      else t.(place := Decide, attempt := t.attempt + 1)
    case Failed => t.(place := Decide)
    case Decide => t.(place := if Retries(cfg, t.attempt) then Sleep else Returned(false))
    case Sleep =>
      if ok || t.backoff <= 0 then t.(place := Head, backoff := Backoffs.Next(t.backoff, cfg.multiplier, cfg.max))
      else t.(place := Returned(false))
    case Returned(_) => t
  }

  function NextShared(tcp: bool, s: Shared, place: Place): Shared {
    match place
    case Announce => SetState(s, Connecting)
    case Install(c) => WithConn(s, c)
    case Clear(c) => if tcp then WithoutConn(s, c) else Dropped(s, c)
    case ClearState => SetState(s, Disconnected)
    case Failed => SetState(s, Disconnected)
    case _ => s
  }

  function NewThread(cfg: Config): Thread {
    Thread(Head, 0, cfg.initial, false)
  }

  function Step(cfg: Config, tcp: bool, s: Sys, a: Action): Sys
    requires ValidConfig(cfg) && Enabled(s, a)
  {
    match a
    case BeginConnect => s.(threads := s.threads + [NewThread(cfg)])
    case CloseCall => s.(shared := Closed(s.shared))
    case Cancel(i) => s.(threads := s.threads[i := s.threads[i].(cancelled := true)])
    case Tick(i, ok) =>
      var t := s.threads[i];
      s.(threads := s.threads[i := Next(cfg, tcp, s, t, ok)],
         shared := NextShared(tcp, s.shared, t.place),
         nextConn := if t.place.Dial? then s.nextConn + 1 else s.nextConn,
         connects := if t.place.Install? then s.connects + 1 else s.connects,
         sleeps := if t.place.Decide? && Retries(cfg, t.attempt) then s.sleeps + [t.backoff] else s.sleeps)
  }

  predicate ValidRun(cfg: Config, tcp: bool, s: Sys, actions: seq<Action>)
    requires ValidConfig(cfg)
    decreases |actions|
  {
    actions == [] || (Enabled(s, actions[0]) && ValidRun(cfg, tcp, Step(cfg, tcp, s, actions[0]), actions[1..]))
  }

  function Exec(cfg: Config, tcp: bool, s: Sys, actions: seq<Action>): Sys
    requires ValidConfig(cfg) && ValidRun(cfg, tcp, s, actions)
    decreases |actions|
  {
    if actions == [] then s else Exec(cfg, tcp, Step(cfg, tcp, s, actions[0]), actions[1..])
  }

  // Connect is called only when every earlier call has returned.
  predicate OneAtATime(s: Sys, a: Action) {
    a.BeginConnect? ==> forall t | t in s.threads :: t.place.Returned?
  }

  predicate OneAtATimeRun(cfg: Config, tcp: bool, s: Sys, actions: seq<Action>)
    requires ValidConfig(cfg) && ValidRun(cfg, tcp, s, actions)
    decreases |actions|
  {
    actions == [] || (OneAtATime(s, actions[0]) && OneAtATimeRun(cfg, tcp, Step(cfg, tcp, s, actions[0]), actions[1..]))
  }

  // ---- coherence ----

  // The connection a Connect at this place may have installed.
  function Held(place: Place): Option<ConnRef> {
    match place
    case Reading(c) => Some(c)
    case Clear(c) => Some(c)
    case _ => None
  }

  // This Connect only has steps left that leave the client alone: it has returned, or will
  // without another attempt.
  predicate Harmless(cfg: Config, closed: bool, t: Thread) {
    || t.place.Returned?
    || (t.place.Decide? && !Retries(cfg, t.attempt))
    || ((closed || t.cancelled) && (t.place.Head? || t.place.Check? || t.place.Decide? || t.place.Sleep?))
  }

  ghost predicate OneActive(cfg: Config, s: Sys) {
    forall i, j | 0 <= i < |s.threads| && 0 <= j < |s.threads| &&
        !Harmless(cfg, s.shared.closed, s.threads[i]) && !Harmless(cfg, s.shared.closed, s.threads[j]) :: i == j
  }

  // What a Connect that may still use the client has stored in it; only Close takes it away.
  ghost predicate HoldsConn(s: Sys, t: Thread) {
    && (s.shared.conn == None || s.shared.conn == Held(t.place))
    && (Held(t.place).Some? && !s.shared.closed ==> s.shared.conn == Held(t.place))
    && (Held(t.place).Some? || t.place.ClearState? || t.place.Check? ==> t.attempt == 0)
  }

  // The client is connected only with the connection of the one Connect that may use it.
  ghost predicate ConnInv(cfg: Config, s: Sys) {
    && OneActive(cfg, s)
    && Coherent(s.shared)
    && (forall t | t in s.threads && !Harmless(cfg, s.shared.closed, t) :: HoldsConn(s, t))
    && ((forall t | t in s.threads :: Harmless(cfg, s.shared.closed, t)) ==> s.shared.conn == None)
  }

  // Harmless stays harmless, and leaves the client alone.
  lemma HarmlessTick(cfg: Config, tcp: bool, s: Sys, i: nat, ok: bool)
    requires ValidConfig(cfg) && Enabled(s, Tick(i, ok)) && Harmless(cfg, s.shared.closed, s.threads[i])
    ensures var s' := Step(cfg, tcp, s, Tick(i, ok));
      s'.shared == s.shared && Harmless(cfg, s.shared.closed, s'.threads[i])
  {}

  lemma OthersStay(cfg: Config, s: Sys, s': Sys, i: nat)
    requires i < |s.threads| == |s'.threads| && s'.shared.closed == s.shared.closed
    requires forall j | 0 <= j < |s.threads| && j != i :: s'.threads[j] == s.threads[j]
    requires OneActive(cfg, s) && !Harmless(cfg, s.shared.closed, s.threads[i])
    ensures OneActive(cfg, s') && forall t | t in s'.threads && t != s'.threads[i] :: Harmless(cfg, s.shared.closed, t)
  {
    forall j | 0 <= j < |s'.threads| && j != i ensures Harmless(cfg, s.shared.closed, s'.threads[j]) {
      assert Harmless(cfg, s.shared.closed, s.threads[j]);
    }
  }

  lemma ActiveTick(cfg: Config, tcp: bool, s: Sys, i: nat, ok: bool)
    requires ValidConfig(cfg) && Enabled(s, Tick(i, ok)) && !Harmless(cfg, s.shared.closed, s.threads[i])
    requires HoldsConn(s, s.threads[i]) && Coherent(s.shared)
    ensures var s' := Step(cfg, tcp, s, Tick(i, ok));
      && s'.shared.closed == s.shared.closed && Coherent(s'.shared) && HoldsConn(s', s'.threads[i])
      && (Harmless(cfg, s.shared.closed, s'.threads[i]) ==> s'.shared.conn == None)
  {}

  lemma TickKeepsConnInv(cfg: Config, tcp: bool, s: Sys, i: nat, ok: bool)
    requires ValidConfig(cfg) && Enabled(s, Tick(i, ok)) && ConnInv(cfg, s)
    ensures ConnInv(cfg, Step(cfg, tcp, s, Tick(i, ok)))
  {
    var s', closed := Step(cfg, tcp, s, Tick(i, ok)), s.shared.closed;
    assert s.threads[i] in s.threads && s'.threads[i] in s'.threads;
    assert forall j | 0 <= j < |s.threads| && j != i :: s'.threads[j] == s.threads[j];
    if Harmless(cfg, closed, s.threads[i]) {
      HarmlessTick(cfg, tcp, s, i, ok);
      hide Step, Enabled, Harmless, HoldsConn;
      HarmlessChange(cfg, s, s', i);
    } else {
      ActiveTick(cfg, tcp, s, i, ok);
      OthersStay(cfg, s, s', i);
      hide Step, Enabled, Harmless, HoldsConn;
    }
  }

  // One harmless thread changes, and stays so.
  lemma HarmlessChange(cfg: Config, s: Sys, s': Sys, i: nat)
    requires ConnInv(cfg, s) && i < |s.threads| == |s'.threads| && s'.shared == s.shared
    requires forall j | 0 <= j < |s.threads| && j != i :: s'.threads[j] == s.threads[j]
    requires Harmless(cfg, s.shared.closed, s.threads[i]) && Harmless(cfg, s.shared.closed, s'.threads[i])
    ensures ConnInv(cfg, s')
  {
    hide Harmless;
    forall t | t in s'.threads && !Harmless(cfg, s.shared.closed, t) ensures HoldsConn(s', t) {
      var j :| 0 <= j < |s'.threads| && s'.threads[j] == t;
      assert s.threads[j] == t && t in s.threads;
      assert HoldsConn(s, t);
    }
    if forall t | t in s'.threads :: Harmless(cfg, s.shared.closed, t) {
      forall t | t in s.threads ensures Harmless(cfg, s.shared.closed, t) {
        var j :| 0 <= j < |s.threads| && s.threads[j] == t;
        assert s'.threads[j] in s'.threads;
      }
    }
  }

  lemma CloseKeepsConnInv(cfg: Config, tcp: bool, s: Sys)
    requires ValidConfig(cfg) && ConnInv(cfg, s)
    ensures ConnInv(cfg, Step(cfg, tcp, s, CloseCall))
  {
    assert forall t | Harmless(cfg, s.shared.closed, t) :: Harmless(cfg, true, t);
  }

  lemma CancelKeepsConnInv(cfg: Config, tcp: bool, s: Sys, i: nat)
    requires ValidConfig(cfg) && ConnInv(cfg, s) && i < |s.threads|
    ensures ConnInv(cfg, Step(cfg, tcp, s, Cancel(i)))
  {
    var s', closed := Step(cfg, tcp, s, Cancel(i)), s.shared.closed;
    assert s.threads[i] in s.threads && s'.threads[i] in s'.threads;
    if Harmless(cfg, closed, s.threads[i]) {
      HarmlessChange(cfg, s, s', i);
    } else {
      OthersStay(cfg, s, s', i);
      assert HoldsConn(s, s.threads[i]);
      assert HoldsConn(s', s'.threads[i]);
    }
  }

  // Connect is called while every earlier call is harmless, or on a closed client.
  lemma BeginKeepsConnInv(cfg: Config, tcp: bool, s: Sys)
    requires ValidConfig(cfg) && ConnInv(cfg, s)
    requires s.shared.closed || forall t | t in s.threads :: Harmless(cfg, s.shared.closed, t)
    ensures ConnInv(cfg, Step(cfg, tcp, s, BeginConnect))
  {
    var s', closed := Step(cfg, tcp, s, BeginConnect), s.shared.closed;
    assert forall j | 0 <= j < |s.threads| :: s.threads[j] in s.threads && s'.threads[j] == s.threads[j];
    assert s'.threads[|s.threads|] == NewThread(cfg);
    assert forall t | t in s.threads :: t in s'.threads;
  }

  lemma StepKeepsConnInv(cfg: Config, tcp: bool, s: Sys, a: Action)
    requires ValidConfig(cfg) && Enabled(s, a) && ConnInv(cfg, s)
    requires a.BeginConnect? ==> s.shared.closed || forall t | t in s.threads :: Harmless(cfg, s.shared.closed, t)
    ensures ConnInv(cfg, Step(cfg, tcp, s, a))
  {
    hide ConnInv, Step;
    match a
    case Tick(i, ok) => TickKeepsConnInv(cfg, tcp, s, i, ok);
    case BeginConnect => BeginKeepsConnInv(cfg, tcp, s);
    case CloseCall => CloseKeepsConnInv(cfg, tcp, s);
    case Cancel(i) => CancelKeepsConnInv(cfg, tcp, s, i);
  }

  lemma {:induction false} RunKeepsConnInv(cfg: Config, tcp: bool, s: Sys, actions: seq<Action>)
    requires ValidConfig(cfg) && ValidRun(cfg, tcp, s, actions) && OneAtATimeRun(cfg, tcp, s, actions) && ConnInv(cfg, s)
    ensures ConnInv(cfg, Exec(cfg, tcp, s, actions))
    decreases |actions|
  {
    hide ConnInv, Enabled, Step;
    if actions != [] {
      StepKeepsConnInv(cfg, tcp, s, actions[0]);
      RunKeepsConnInv(cfg, tcp, Step(cfg, tcp, s, actions[0]), actions[1..]);
    }
  }

  // With one Connect at a time and Close called at any point, both clients report Connected
  // exactly when they have a connection.
  lemma StateIsCoherent(cfg: Config, tcp: bool, actions: seq<Action>)
    requires ValidConfig(cfg) && ValidRun(cfg, tcp, NewClient(), actions)
    requires OneAtATimeRun(cfg, tcp, NewClient(), actions)
    ensures Coherent(Exec(cfg, tcp, NewClient(), actions).shared)
  {
    RunKeepsConnInv(cfg, tcp, NewClient(), actions);
  }

  // ---- a second Connect ----

  // No continuation without a further call of Connect is incoherent.
  ghost predicate StaysCoherent(cfg: Config, tcp: bool, s: Sys)
    requires ValidConfig(cfg)
  {
    forall later | ValidRun(cfg, tcp, s, later) && BeginConnect !in later :: Coherent(Exec(cfg, tcp, s, later).shared)
  }

  lemma {:induction false} QuietRunKeepsConnInv(cfg: Config, tcp: bool, s: Sys, later: seq<Action>)
    requires ValidConfig(cfg) && ValidRun(cfg, tcp, s, later) && BeginConnect !in later && ConnInv(cfg, s)
    ensures ConnInv(cfg, Exec(cfg, tcp, s, later))
    decreases |later|
  {
    hide ConnInv, Enabled, Step;
    if later != [] {
      StepKeepsConnInv(cfg, tcp, s, later[0]);
      QuietRunKeepsConnInv(cfg, tcp, Step(cfg, tcp, s, later[0]), later[1..]);
    }
  }

  // The same but for thread i, and not closed.
  ghost predicate OnlyThread(s: Sys, s': Sys, i: nat) {
    && !s'.shared.closed && |s'.threads| == |s.threads|
    && (forall j | 0 <= j < |s.threads| && j != i :: s'.threads[j] == s.threads[j])
  }

  function ToConnect(place: Place): nat {
    match place
    case Head => 4
    case Announce => 3
    case Dial => 2
    case Handshake(_) => 1
    case _ => 0
  }

  // A Connect that starts an attempt can end up connected.
  lemma {:induction false} Connects(cfg: Config, tcp: bool, s: Sys, i: nat) returns (run: seq<Action>)
    requires ValidConfig(cfg) && !s.shared.closed && i < |s.threads| && !s.threads[i].cancelled
    requires s.threads[i].place.Head? || WillConnect(s.threads[i])
    ensures ValidRun(cfg, tcp, s, run) && BeginConnect !in run
    ensures OnlyThread(s, Exec(cfg, tcp, s, run), i) && Exec(cfg, tcp, s, run).shared.conn.Some?
    decreases ToConnect(s.threads[i].place)
  {
    var a := Tick(i, true);
    var s1 := Step(cfg, tcp, s, a);
    var more := [];
    if s.threads[i].place.Install? {
      ValidEnd(cfg, tcp, s1);
    } else {
      more := Connects(cfg, tcp, s1, i);
    }
    RunStep(cfg, tcp, s, a, more);
    run := [a] + more;
  }

  // How far a Connect is from its next change of the state, or from giving up the way to it.
  function ToDisturb(place: Place): nat {
    match place
    case Check => 4
    case Decide => 3
    case Sleep => 2
    case Head => 1
    case Dial => 1
    case Handshake(_) => 1
    case _ => 0
  }

  // While another Connect's connection is stored, one that goes on sets the state over it: it
  // announces itself, or reports its own failure or the end of its own session.
  lemma {:induction false} Disturbs(cfg: Config, tcp: bool, s: Sys, i: nat) returns (run: seq<Action>)
    requires ValidConfig(cfg) && !s.shared.closed && s.shared.conn.Some? && i < |s.threads|
    requires !Harmless(cfg, false, s.threads[i]) && Held(s.threads[i].place) == None && !s.threads[i].place.Install?
    requires s.threads[i].place.Check? ==> s.threads[i].attempt == 0
    ensures ValidRun(cfg, tcp, s, run) && BeginConnect !in run
    ensures !Coherent(Exec(cfg, tcp, s, run).shared)
    decreases ToDisturb(s.threads[i].place)
  {
    var place := s.threads[i].place;
    var a := Tick(i, !place.Dial? && !place.Handshake?);
    var s1 := Step(cfg, tcp, s, a);
    var more := [];
    if place.Announce? || place.ClearState? || place.Failed? {
      ValidEnd(cfg, tcp, s1);
    } else {
      more := Disturbs(cfg, tcp, s1, i);
    }
    RunStep(cfg, tcp, s, a, more);
    run := [a] + more;
  }

  // The new Connect, at j, and one that goes on.
  lemma TwoDisturb(cfg: Config, tcp: bool, s: Sys, i: nat, j: nat) returns (run: seq<Action>)
    requires ValidConfig(cfg) && !s.shared.closed && i < |s.threads| && j < |s.threads| && i != j
    requires s.threads[j] == NewThread(cfg) && !Harmless(cfg, false, s.threads[i]) && HoldsConn(s, s.threads[i])
    ensures ValidRun(cfg, tcp, s, run) && BeginConnect !in run
    ensures !Coherent(Exec(cfg, tcp, s, run).shared)
  {
    if Held(s.threads[i].place).Some? {
      run := Disturbs(cfg, tcp, s, j);
    } else if s.threads[i].place.Install? {
      var a := Tick(i, true);
      var more := Disturbs(cfg, tcp, Step(cfg, tcp, s, a), j);
      RunStep(cfg, tcp, s, a, more);
      run := [a] + more;
    } else {
      var first := Connects(cfg, tcp, s, j);
      hide Step, Enabled;
      var more := Disturbs(cfg, tcp, Exec(cfg, tcp, s, first), i);
      RunsCompose(cfg, tcp, s, first, more);
      run := first + more;
    }
  }

  // After any run with one Connect at a time, one more call of Connect keeps state and
  // connection in agreement, whatever happens next, exactly when the client is closed or every
  // earlier Connect is harmless: it has returned, is about to give up, or has been cancelled
  // between two attempts.
  lemma SecondConnectIsSafeIff(cfg: Config, tcp: bool, actions: seq<Action>)
    requires ValidConfig(cfg) && ValidRun(cfg, tcp, NewClient(), actions)
    requires OneAtATimeRun(cfg, tcp, NewClient(), actions)
    ensures var s := Exec(cfg, tcp, NewClient(), actions);
      StaysCoherent(cfg, tcp, Step(cfg, tcp, s, BeginConnect)) <==>
      s.shared.closed || forall t | t in s.threads :: Harmless(cfg, false, t)
  {
    RunKeepsConnInv(cfg, tcp, NewClient(), actions);
    var s := Exec(cfg, tcp, NewClient(), actions);
    var s1 := Step(cfg, tcp, s, BeginConnect);
    if s.shared.closed || forall t | t in s.threads :: Harmless(cfg, false, t) {
      BeginKeepsConnInv(cfg, tcp, s);
      hide Step, Enabled, Exec, ValidRun;
      forall later | ValidRun(cfg, tcp, s1, later) && BeginConnect !in later
        ensures Coherent(Exec(cfg, tcp, s1, later).shared)
      {
        QuietRunKeepsConnInv(cfg, tcp, s1, later);
      }
    } else {
      var t :| t in s.threads && !Harmless(cfg, false, t);
      var i: nat :| i < |s.threads| && s.threads[i] == t;
      assert HoldsConn(s, t) && HoldsConn(s1, t) && s1.threads[i] == t;
      var run := TwoDisturb(cfg, tcp, s1, i, |s.threads|);
    }
  }

  // Two calls of Connect on a new client reach a state where the two disagree.
  lemma TwoConnectsAreIncoherent(cfg: Config, tcp: bool)
    requires ValidConfig(cfg)
    ensures exists actions | ValidRun(cfg, tcp, NewClient(), actions) ::
      !Coherent(Exec(cfg, tcp, NewClient(), actions).shared)
  {
    var s := Step(cfg, tcp, NewClient(), BeginConnect);
    ValidEnd(cfg, tcp, s);
    RunStep(cfg, tcp, NewClient(), BeginConnect, []);
    assert s.threads == [NewThread(cfg)] && s.threads[0] in s.threads;
    SecondConnectIsSafeIff(cfg, tcp, [BeginConnect] + []);
    var s1 := Step(cfg, tcp, s, BeginConnect);
    var later :| ValidRun(cfg, tcp, s1, later) && BeginConnect !in later && !Coherent(Exec(cfg, tcp, s1, later).shared);
    RunStep(cfg, tcp, s, BeginConnect, later);
    RunStep(cfg, tcp, NewClient(), BeginConnect, [BeginConnect] + later);
  }

  lemma ValidEnd(cfg: Config, tcp: bool, s: Sys)
    requires ValidConfig(cfg)
    ensures ValidRun(cfg, tcp, s, []) && Exec(cfg, tcp, s, []) == s
  {}

  lemma {:induction false} RunsCompose(cfg: Config, tcp: bool, s: Sys, xs: seq<Action>, ys: seq<Action>)
    requires ValidConfig(cfg) && ValidRun(cfg, tcp, s, xs) && ValidRun(cfg, tcp, Exec(cfg, tcp, s, xs), ys)
    ensures ValidRun(cfg, tcp, s, xs + ys) && Exec(cfg, tcp, s, xs + ys) == Exec(cfg, tcp, Exec(cfg, tcp, s, xs), ys)
    decreases |xs|
  {
    hide Enabled, Step;
    if xs == [] {
      assert xs + ys == ys;
    } else {
      assert (xs + ys)[1..] == xs[1..] + ys;
      RunsCompose(cfg, tcp, Step(cfg, tcp, s, xs[0]), xs[1..], ys);
    }
  }

  lemma RunStep(cfg: Config, tcp: bool, s: Sys, a: Action, rest: seq<Action>)
    requires ValidConfig(cfg) && Enabled(s, a) && ValidRun(cfg, tcp, Step(cfg, tcp, s, a), rest)
    ensures ValidRun(cfg, tcp, s, [a] + rest)
    ensures Exec(cfg, tcp, s, [a] + rest) == Exec(cfg, tcp, Step(cfg, tcp, s, a), rest)
  {
    hide Enabled, Step;
    assert ([a] + rest)[1..] == rest;
  }

  // ---- Close ----

  // Past its check of closed, and not connected yet; a dial on a cancelled context fails.
  predicate WillConnect(t: Thread) {
    t.place.Handshake? || t.place.Install? || ((t.place.Announce? || t.place.Dial?) && !t.cancelled)
  }

  function Left(threads: seq<Thread>): nat {
    if threads == [] then 0 else Left(threads[..|threads| - 1]) + if WillConnect(threads[|threads| - 1]) then 1 else 0
  }

  lemma {:induction false} LeftUpdate(threads: seq<Thread>, i: nat, t: Thread)
    requires i < |threads|
    ensures Left(threads[i := t]) + (if WillConnect(threads[i]) then 1 else 0) ==
      Left(threads) + (if WillConnect(t) then 1 else 0)
  {
    var n := |threads| - 1;
    if i == n {
      assert threads[i := t][..n] == threads[..n];
    } else {
      LeftUpdate(threads[..n], i, t);
      assert threads[i := t][..n] == threads[..n][i := t];
    }
  }

  lemma StepAfterClose(cfg: Config, tcp: bool, s: Sys, a: Action)
    requires ValidConfig(cfg) && Enabled(s, a) && s.shared.closed
    ensures var s' := Step(cfg, tcp, s, a);
      && s'.shared.closed && s.connects <= s'.connects
      && s'.connects + Left(s'.threads) <= s.connects + Left(s.threads)
      && (s'.shared.state.Connected? ==> s.shared.state.Connected? || s'.connects > s.connects)
  {
    hide Left, Retries, Backoffs.Next;
    match a
    case Tick(i, ok) => LeftUpdate(s.threads, i, Next(cfg, tcp, s, s.threads[i], ok));
    case Cancel(i) => LeftUpdate(s.threads, i, s.threads[i].(cancelled := true));
    case BeginConnect => LeftAppend(s.threads, NewThread(cfg));
    case CloseCall =>
  }

  lemma LeftAppend(threads: seq<Thread>, t: Thread)
    ensures Left(threads + [t]) == Left(threads) + if WillConnect(t) then 1 else 0
  {
    assert (threads + [t])[..|threads|] == threads;
  }

  // After Close, however many calls of Connect there are, each that had passed its check makes
  // at most one more connection, and no other makes any.
  lemma {:induction false} CloseBoundsConnects(cfg: Config, tcp: bool, s: Sys, actions: seq<Action>)
    requires ValidConfig(cfg) && s.shared.closed && ValidRun(cfg, tcp, s, actions)
    ensures var s' := Exec(cfg, tcp, s, actions);
      && s'.shared.closed && s.connects <= s'.connects <= s.connects + Left(s.threads)
      && s'.connects + Left(s'.threads) <= s.connects + Left(s.threads)
      && (s'.shared.state.Connected? ==> s.shared.state.Connected? || s'.connects > s.connects)
    decreases |actions|
  {
    hide Enabled, Step, Left;
    if actions != [] {
      StepAfterClose(cfg, tcp, s, actions[0]);
      CloseBoundsConnects(cfg, tcp, Step(cfg, tcp, s, actions[0]), actions[1..]);
    }
  }

  ghost predicate CanConnect(cfg: Config, tcp: bool, s: Sys)
    requires ValidConfig(cfg)
  {
    exists actions | ValidRun(cfg, tcp, s, actions) :: Exec(cfg, tcp, s, actions).shared.state.Connected?
  }

  lemma Arrives(cfg: Config, tcp: bool, s: Sys, i: nat, rest: seq<Action>)
    requires ValidConfig(cfg) && Enabled(s, Tick(i, true)) && ValidRun(cfg, tcp, Step(cfg, tcp, s, Tick(i, true)), rest)
    requires Exec(cfg, tcp, Step(cfg, tcp, s, Tick(i, true)), rest).shared.state.Connected?
    ensures CanConnect(cfg, tcp, s)
  {
    RunStep(cfg, tcp, s, Tick(i, true), rest);
  }

  lemma WillConnectCan(cfg: Config, tcp: bool, s: Sys, i: nat)
    requires ValidConfig(cfg) && i < |s.threads| && WillConnect(s.threads[i])
    ensures CanConnect(cfg, tcp, s)
    decreases ToConnect(s.threads[i].place)
  {
    var s1 := Step(cfg, tcp, s, Tick(i, true));
    if s.threads[i].place.Install? {
      ValidEnd(cfg, tcp, s1);
      Arrives(cfg, tcp, s, i, []);
    } else {
      WillConnectCan(cfg, tcp, s1, i);
      var rest :| ValidRun(cfg, tcp, s1, rest) && Exec(cfg, tcp, s1, rest).shared.state.Connected?;
      Arrives(cfg, tcp, s, i, rest);
    }
  }

  lemma {:induction false} LeftIsZeroIff(threads: seq<Thread>)
    ensures Left(threads) == 0 <==> forall t | t in threads :: !WillConnect(t)
  {
    if threads != [] {
      var n := |threads| - 1;
      LeftIsZeroIff(threads[..n]);
      assert threads == threads[..n] + [threads[n]];
      assert threads[n] in threads;
    }
  }

  // Close does not keep a client from becoming connected again: it does so exactly when some
  // Connect had passed its check of closed and not reached setConn, and was not cancelled
  // before its dial was done.
  lemma ConnectsAfterCloseIff(cfg: Config, tcp: bool, s: Sys)
    requires ValidConfig(cfg)
    ensures CanConnect(cfg, tcp, Step(cfg, tcp, s, CloseCall)) <==> exists t | t in s.threads :: WillConnect(t)
  {
    var s' := Step(cfg, tcp, s, CloseCall);
    LeftIsZeroIff(s'.threads);
    if t :| t in s.threads && WillConnect(t) {
      var i: nat :| i < |s.threads| && s.threads[i] == t;
      WillConnectCan(cfg, tcp, s', i);
    } else if CanConnect(cfg, tcp, s') {
      var actions :| ValidRun(cfg, tcp, s', actions) && Exec(cfg, tcp, s', actions).shared.state.Connected?;
      CloseBoundsConnects(cfg, tcp, s', actions);
      assert false;
    }
  }

  // ---- limits ----

  ghost predicate Limited(cfg: Config, t: Thread) {
    && (cfg.maxRetries > 0 ==>
          t.attempt <= cfg.maxRetries + if t.place.Failed? || t.place.Decide? || t.place.Returned? then 1 else 0)
    && t.backoff <= if cfg.initial > cfg.max then cfg.initial else cfg.max
  }

  ghost predicate AllLimited(cfg: Config, s: Sys) {
    && (forall t | t in s.threads :: Limited(cfg, t))
    && (forall d | d in s.sleeps :: d <= if cfg.initial > cfg.max then cfg.initial else cfg.max)
  }

  lemma StepKeepsLimits(cfg: Config, tcp: bool, s: Sys, a: Action)
    requires ValidConfig(cfg) && Enabled(s, a) && AllLimited(cfg, s)
    ensures AllLimited(cfg, Step(cfg, tcp, s, a))
  {
    if a.Tick? {
      var t := s.threads[a.i];
      assert Limited(cfg, t);
      assert Limited(cfg, Next(cfg, tcp, s, t, a.ok));
    } else if a.Cancel? {
      assert Limited(cfg, s.threads[a.i]);
    }
  }

  // In every run of any number of Connects, the attempts at the head of the loop are within
  // the limit, and no sleep exceeds the larger of the two delay limits.
  lemma {:induction false} RunKeepsLimits(cfg: Config, tcp: bool, s: Sys, actions: seq<Action>)
    requires ValidConfig(cfg) && ValidRun(cfg, tcp, s, actions) && AllLimited(cfg, s)
    ensures AllLimited(cfg, Exec(cfg, tcp, s, actions))
    decreases |actions|
  {
    hide AllLimited, Enabled, Step;
    if actions != [] {
      StepKeepsLimits(cfg, tcp, s, actions[0]);
      RunKeepsLimits(cfg, tcp, Step(cfg, tcp, s, actions[0]), actions[1..]);
    }
  }
}
