// The client's fields under its mutex, and Connect run on its own.
module Reconnecting {
  import opened Bytes
  import opened Backoffs

  type ConnRef = nat

  datatype ConnectionState = Disconnected | Connecting | Connected

  datatype Shared = Shared(conn: Option<ConnRef>, state: ConnectionState, closed: bool)

  // The state says Connected exactly when there is a connection.
  predicate Coherent(s: Shared) {
    s.state.Connected? <==> s.conn.Some?
  }

  function WithConn(s: Shared, c: ConnRef): Shared {
    s.(conn := Some(c), state := Connected)
  }

  // TCP: clearConn, which leaves another connection alone.
  function WithoutConn(s: Shared, c: ConnRef): Shared {
    if s.conn == Some(c) then s.(conn := None, state := Disconnected) else s
  }

  // WebSocket: the state is set whosever connection it is.
  function Dropped(s: Shared, c: ConnRef): Shared {
    s.(conn := if s.conn == Some(c) then None else s.conn, state := Disconnected)
  }

  function Closed(s: Shared): Shared {
    Shared(None, Disconnected, true)
  }

  // Both clients end a session alike, once TCP has also called setState.
  lemma SessionsEndAlike(s: Shared, c: ConnRef)
    ensures WithoutConn(s, c).(state := Disconnected) == Dropped(s, c)
    ensures Coherent(Dropped(s, c)) <==> s.conn == None || s.conn == Some(c)
  {}

  // ---- what the world does to a Connect ----

  // Whether the sleep after a failure ran its time (it fails only when cancelled).
  datatype Event =
    | DialFails(slept: bool)
    | HandshakeFails(slept: bool)
    | Session(conn: ConnRef, closes: bool, cancels: bool, slept: bool)

  // One round of the loop: what happened before its check, and in it.
  datatype Round = Round(closes: bool, cancels: bool, event: Event)

  datatype Outcome = Pending | StoppedOk | GaveUp | SleepCancelled

  // What Connect reports: its result, the arguments of OnReconnect, the sleeps it starts,
  // and the connections it installs.
  datatype Trace = Trace(outcome: Outcome, reconnects: seq<nat>, sleeps: seq<int>, connects: seq<ConnRef>)

  function Then(first: Trace, rest: Trace): Trace {
    Trace(rest.outcome, first.reconnects + rest.reconnects, first.sleeps + rest.sleeps, first.connects + rest.connects)
  }

  const NOTHING: Trace := Trace(Pending, [], [], [])

  function Retries(cfg: Config, attempt: nat): bool {
    !(cfg.maxRetries > 0 && attempt > cfg.maxRetries)
  }

  function Attempt(attempt: nat, event: Event): nat {
    if event.Session? then 1 else attempt + 1
  }

  // The trace of one round, given the attempts and delay so far. readLoop only ever returns a
  // failure, so a session that ends counts as one failed attempt.
  function RoundTrace(cfg: Config, attempt: nat, backoff: int, r: Round): Trace {
    var e := r.event;
    var connects := if e.Session? then [e.conn] else [];
    if r.closes || r.cancels then NOTHING.(outcome := StoppedOk)
    else if e.Session? && (e.closes || e.cancels) then Trace(StoppedOk, [], [], connects)
    else if !Retries(cfg, Attempt(attempt, e)) then Trace(GaveUp, [], [], connects)
    else
      var delay := if e.Session? then cfg.initial else backoff;
      Trace(if delay > 0 && !e.slept then SleepCancelled else Pending, [Attempt(attempt, e)], [delay], connects)
  }

  function Backoff(cfg: Config, backoff: int, e: Event): int
    requires ValidConfig(cfg)
  {
    Next(if e.Session? then cfg.initial else backoff, cfg.multiplier, cfg.max)
  }

  function RunFrom(cfg: Config, attempt: nat, backoff: int, rounds: seq<Round>): Trace
    requires ValidConfig(cfg)
    decreases |rounds|
  {
    if rounds == [] then NOTHING
    else
      var first := RoundTrace(cfg, attempt, backoff, rounds[0]);
      if !first.outcome.Pending? then first
      else
        var e := rounds[0].event;
        Then(first, RunFrom(cfg, Attempt(attempt, e), Backoff(cfg, backoff, e), rounds[1..]))
  }

  // One more round, after a trace.
  lemma Unroll(cfg: Config, trace: Trace, attempt: nat, backoff: int, rounds: seq<Round>)
    requires ValidConfig(cfg) && rounds != []
    ensures var step := RoundTrace(cfg, attempt, backoff, rounds[0]);
      var e := rounds[0].event;
      Then(trace, RunFrom(cfg, attempt, backoff, rounds)) ==
      if step.outcome.Pending?
      then Then(Then(trace, step), RunFrom(cfg, Attempt(attempt, e), Backoff(cfg, backoff, e), rounds[1..]))
      else Then(trace, step)
  {
    hide Attempt, Backoff, RoundTrace;
  }

  // ---- the client ----

  class Client {
    const tcp: bool
    const config: Config
    var conn: Option<ConnRef>
    var state: ConnectionState
    var closed: bool

    ghost function State(): (s: Shared)
      reads this
    {
      Shared(conn, state, closed)
    }

    constructor (tcp: bool, config: Config)
      ensures this.tcp == tcp && this.config == config && State() == Shared(None, Disconnected, false)
    {
      this.tcp, this.config := tcp, config;
      conn, state, closed := None, Disconnected, false;
    }

    method SetConn(c: ConnRef)
      modifies this
      ensures State() == WithConn(old(State()), c)
      ensures conn == Some(c) && state == Connected && closed == old(closed)
    {
      conn := Some(c);
      state := Connected;
    }

    method ClearConn(c: ConnRef)
      modifies this
      ensures State() == if tcp then WithoutConn(old(State()), c) else Dropped(old(State()), c)
      ensures conn == (if old(conn) == Some(c) then None else old(conn)) && closed == old(closed)
      ensures state == if tcp && old(conn) != Some(c) then old(state) else Disconnected
    {
      if conn == Some(c) {
        conn := None;
        if tcp {
          state := Disconnected;
        }
      }
      if !tcp {
        state := Disconnected;
      }
    }

    method SetState(state: ConnectionState)
      modifies this`state
      ensures State() == old(State()).(state := state)
    {
      this.state := state;
    }

    // The connection to close, if any.
    method Close() returns (c: Option<ConnRef>)
      modifies this
      ensures State() == Closed(old(State())) && c == old(conn)
      ensures closed && conn == None && state == Disconnected
    {
      closed := true;
      c := conn;
      conn := None;
      state := Disconnected;
    }

    // Dial, handshake and read, up to the decision to retry. Another goroutine may close the
    // client during the session.
    method Attempted(attempt: nat, e: Event) returns (failures: nat)
      requires State() == Shared(None, Disconnected, false)
      modifies this
      ensures State() == Shared(None, Disconnected, e.Session? && e.closes)
      ensures failures == Attempt(attempt, e)
    {
      SetState(Connecting);
      if e.Session? {
        SetConn(e.conn);
        failures := 0;
        if e.closes {
          var _ := Close();
        }
        ClearConn(e.conn);
        SetState(Disconnected);
        failures := failures + 1;
      } else {
        failures := attempt + 1;
        SetState(Disconnected);
      }
    }

    // One turn of the loop: the trace it adds, and the attempts and delay after it.
    method Turn(attempt: nat, backoff: int, r: Round) returns (step: Trace, failures: nat, delay: int)
      requires ValidConfig(config) && State() == Shared(None, Disconnected, false)
      modifies this
      ensures step == RoundTrace(config, attempt, backoff, r)
      ensures step.outcome.Pending? ==>
        failures == Attempt(attempt, r.event) && delay == Backoff(config, backoff, r.event)
      ensures conn == None && state == Disconnected
      ensures step.outcome.Pending? ==> !closed
    {
      step, failures, delay := NOTHING, attempt, backoff;
      if r.closes {
        var _ := Close();
      }
      if closed || r.cancels {
        step := step.(outcome := StoppedOk);
        return;
      }
      failures := Attempted(attempt, r.event);
      if r.event.Session? {
        delay := config.initial;
        step := step.(connects := [r.event.conn]);
      }
      if closed || (r.event.Session? && r.event.cancels) {
        step := step.(outcome := StoppedOk);
      } else if config.maxRetries > 0 && failures > config.maxRetries {
        step := step.(outcome := GaveUp);
      } else {
        step := step.(reconnects := [failures], sleeps := [delay]);
        if delay > 0 && !r.event.slept {
          step := step.(outcome := SleepCancelled);
        } else {
          delay := Next(delay, config.multiplier, config.max);
        }
      }
    }

    // Connect, in a world given round by round; Pending when the rounds run out.
    method Connect(rounds: seq<Round>) returns (trace: Trace)
      requires ValidConfig(config) && conn == None && state == Disconnected
      modifies this
      ensures trace == if old(closed) then NOTHING.(outcome := StoppedOk) else RunFrom(config, 0, config.initial, rounds)
      ensures conn == None && state == Disconnected
    {
      trace := NOTHING;
      if closed {
        trace := trace.(outcome := StoppedOk);
        return;
      }
      var attempt: nat, backoff, i := 0, config.initial, 0;
      ghost var all := RunFrom(config, 0, config.initial, rounds);
      assert rounds[0..] == rounds && all == Then(trace, all);
      while i < |rounds| && trace.outcome.Pending?
        invariant 0 <= i <= |rounds| && conn == None && state == Disconnected
        invariant trace.outcome.Pending? ==> !closed
        invariant trace.outcome.Pending? ==> all == Then(trace, RunFrom(config, attempt, backoff, rounds[i..]))
        invariant !trace.outcome.Pending? ==> all == trace
      {
        hide RunFrom, RoundTrace, Attempt, Backoff;
        assert rounds[i..][0] == rounds[i] && rounds[i..][1..] == rounds[i + 1..];
        Unroll(config, trace, attempt, backoff, rounds[i..]);
        var step;
        step, attempt, backoff := Turn(attempt, backoff, rounds[i]);
        trace := Then(trace, step);
        i := i + 1;
      }
    }
  }

  // ---- what Connect does over any rounds ----

  // The attempts counted after some rounds.
  function Attempts(attempt: nat, rounds: seq<Round>): nat
    decreases |rounds|
  {
    if rounds == [] then attempt else Attempts(Attempt(attempt, rounds[0].event), rounds[1..])
  }

  // Nothing stops or cancels the client in these rounds.
  predicate Undisturbed(rounds: seq<Round>) {
    forall r | r in rounds :: !r.closes && !r.cancels && r.event.slept && (r.event.Session? ==> !r.event.closes && !r.event.cancels)
  }

  predicate AllFail(rounds: seq<Round>) {
    forall r | r in rounds :: !r.event.Session?
  }

  // While it has not returned, the attempts stay within the limit.
  lemma {:induction false} AttemptsWithinLimit(cfg: Config, attempt: nat, backoff: int, rounds: seq<Round>)
    requires ValidConfig(cfg) && cfg.maxRetries > 0 && attempt <= cfg.maxRetries
    requires RunFrom(cfg, attempt, backoff, rounds).outcome.Pending?
    ensures Attempts(attempt, rounds) <= cfg.maxRetries
    ensures forall k | k in RunFrom(cfg, attempt, backoff, rounds).reconnects :: 1 <= k <= cfg.maxRetries
    decreases |rounds|
  {
    if rounds != [] {
      var e := rounds[0].event;
      AttemptsWithinLimit(cfg, Attempt(attempt, e), Backoff(cfg, backoff, e), rounds[1..]);
    }
  }

  // Failures alone count up by one.
  lemma {:induction false} FailuresCount(attempt: nat, rounds: seq<Round>)
    requires AllFail(rounds)
    ensures Attempts(attempt, rounds) == attempt + |rounds|
    decreases |rounds|
  {
    if rounds != [] {
      assert rounds[0] in rounds;
      assert forall r | r in rounds[1..] :: r in rounds;
      FailuresCount(attempt + 1, rounds[1..]);
    }
  }

  // So it cannot fail for long: a Connect that has not returned has had a session among any
  // n + 1 rounds in a row, and one that runs forever connects again and again.
  lemma NoLongFailure(cfg: Config, attempt: nat, backoff: int, rounds: seq<Round>)
    requires ValidConfig(cfg) && cfg.maxRetries > 0 && attempt <= cfg.maxRetries && AllFail(rounds)
    requires RunFrom(cfg, attempt, backoff, rounds).outcome.Pending?
    ensures |rounds| <= cfg.maxRetries - attempt
  {
    AttemptsWithinLimit(cfg, attempt, backoff, rounds);
    FailuresCount(attempt, rounds);
  }

  function DelayAfter(cfg: Config, backoff: int, rounds: seq<Round>): int
    requires ValidConfig(cfg)
    decreases |rounds|
  {
    if rounds == [] then backoff else DelayAfter(cfg, Backoff(cfg, backoff, rounds[0].event), rounds[1..])
  }

  // A run splits at any point.
  lemma {:induction false} RunSplits(cfg: Config, attempt: nat, backoff: int, xs: seq<Round>, ys: seq<Round>)
    requires ValidConfig(cfg)
    ensures var first := RunFrom(cfg, attempt, backoff, xs);
      RunFrom(cfg, attempt, backoff, xs + ys) ==
      if first.outcome.Pending?
      then Then(first, RunFrom(cfg, Attempts(attempt, xs), DelayAfter(cfg, backoff, xs), ys))
      else first
    decreases |xs|
  {
    hide RoundTrace, Attempt, Backoff;
    if xs == [] {
      assert xs + ys == ys;
    } else {
      assert (xs + ys)[1..] == xs[1..] + ys && (xs + ys)[0] == xs[0];
      var e := xs[0].event;
      RunSplits(cfg, Attempt(attempt, e), Backoff(cfg, backoff, e), xs[1..], ys);
    }
  }

  lemma {:induction false} DelayNext(cfg: Config, backoff: int, rounds: seq<Round>, k: nat)
    requires ValidConfig(cfg) && k < |rounds|
    ensures DelayAfter(cfg, backoff, rounds[..k + 1]) == Backoff(cfg, DelayAfter(cfg, backoff, rounds[..k]), rounds[k].event)
    decreases k
  {
    hide Backoff;
    if k > 0 {
      DelayNext(cfg, Backoff(cfg, backoff, rounds[0].event), rounds[1..], k - 1);
      assert rounds[..k + 1][1..] == rounds[1..][..k] && rounds[..k][1..] == rounds[1..][..k - 1];
    } else {
      assert rounds[..1][1..] == [];
    }
  }

  // A session starts both the attempts and the delays over: whatever came before it, after so
  // many failures in a row since it, this many attempts count and this delay is next.
  lemma {:induction false} SessionStartsOver(cfg: Config, attempt: nat, backoff: int, rounds: seq<Round>, k: nat)
    requires ValidConfig(cfg) && k < |rounds| && rounds[k].event.Session? && AllFail(rounds[k + 1..])
    ensures Attempts(attempt, rounds) == |rounds| - k
    ensures DelayAfter(cfg, backoff, rounds) == Delay(cfg, |rounds| - k)
    decreases |rounds|
  {
    var last := |rounds| - 1;
    assert rounds[..last + 1] == rounds;
    AttemptsNext(attempt, rounds, last);
    DelayNext(cfg, backoff, rounds, last);
    hide Attempts, DelayAfter, Next;
    if k < last {
      assert rounds[last] in rounds[k + 1..];
      assert rounds[..last][k + 1..] == rounds[k + 1..][..last - k - 1];
      SessionStartsOver(cfg, attempt, backoff, rounds[..last], k);
    } else {
      assert Delay(cfg, 1) == Next(Delay(cfg, 0), cfg.multiplier, cfg.max);
    }
  }

  // ---- how a run ends ----

  // Connect has not returned before round k.
  ghost predicate Comes(cfg: Config, attempt: nat, backoff: int, rounds: seq<Round>, k: nat)
    requires ValidConfig(cfg)
  {
    k < |rounds| && RunFrom(cfg, attempt, backoff, rounds[..k]).outcome.Pending?
  }

  // The client is closed or its context cancelled, by the check before the attempt or by the
  // one after a session.
  predicate Stops(r: Round) {
    r.closes || r.cancels || (r.event.Session? && (r.event.closes || r.event.cancels))
  }

  // Not stopped, it has failed too often.
  predicate Exceeds(cfg: Config, attempt: nat, rounds: seq<Round>, k: nat)
    requires k < |rounds|
  {
    !Stops(rounds[k]) && cfg.maxRetries > 0 && Attempts(attempt, rounds[..k + 1]) > cfg.maxRetries
  }

  // The delay it would sleep in round k.
  function SleepAt(cfg: Config, backoff: int, rounds: seq<Round>, k: nat): int
    requires ValidConfig(cfg) && k < |rounds|
  {
    if rounds[k].event.Session? then cfg.initial else DelayAfter(cfg, backoff, rounds[..k])
  }

  // It retries, and is cancelled while it sleeps.
  predicate Wakes(cfg: Config, attempt: nat, backoff: int, rounds: seq<Round>, k: nat)
    requires ValidConfig(cfg) && k < |rounds|
  {
    && !Stops(rounds[k]) && !Exceeds(cfg, attempt, rounds, k)
    && SleepAt(cfg, backoff, rounds, k) > 0 && !rounds[k].event.slept
  }

  lemma {:induction false} AttemptsNext(attempt: nat, rounds: seq<Round>, k: nat)
    requires k < |rounds|
    ensures Attempts(attempt, rounds[..k + 1]) == Attempt(Attempts(attempt, rounds[..k]), rounds[k].event)
    decreases k
  {
    hide Attempt;
    if k > 0 {
      AttemptsNext(Attempt(attempt, rounds[0].event), rounds[1..], k - 1);
      assert rounds[..k + 1][1..] == rounds[1..][..k] && rounds[..k][1..] == rounds[1..][..k - 1];
    } else {
      assert rounds[..1][1..] == [];
    }
  }

  // What round k adds, if it comes: nothing but its connection when it stops or gives up, and
  // else OnReconnect with the attempts so far and a sleep. It ends the run in these ways only.
  lemma RoundReports(cfg: Config, attempt: nat, backoff: int, rounds: seq<Round>, k: nat)
    requires ValidConfig(cfg) && Comes(cfg, attempt, backoff, rounds, k)
    ensures var before, upTo := RunFrom(cfg, attempt, backoff, rounds[..k]), RunFrom(cfg, attempt, backoff, rounds[..k + 1]);
      var connects := if rounds[k].event.Session? && !rounds[k].closes && !rounds[k].cancels then [rounds[k].event.conn] else [];
      && upTo.connects == before.connects + connects
      && if Stops(rounds[k]) || Exceeds(cfg, attempt, rounds, k) then
           && upTo.outcome == (if Stops(rounds[k]) then StoppedOk else GaveUp)
           && upTo.reconnects == before.reconnects && upTo.sleeps == before.sleeps
         else
           && upTo.outcome == (if Wakes(cfg, attempt, backoff, rounds, k) then SleepCancelled else Pending)
           && upTo.reconnects == before.reconnects + [Attempts(attempt, rounds[..k + 1])]
           && upTo.sleeps == before.sleeps + [SleepAt(cfg, backoff, rounds, k)]
  {
    var r := rounds[k];
    var (failures, delay) := (Attempts(attempt, rounds[..k]), DelayAfter(cfg, backoff, rounds[..k]));
    RunSplits(cfg, attempt, backoff, rounds[..k], [r]);
    assert rounds[..k] + [r] == rounds[..k + 1];
    AttemptsNext(attempt, rounds, k);
    OneRound(cfg, failures, delay, r);
    hide RunFrom, Attempts, DelayAfter, Attempt;
  }

  lemma OneRound(cfg: Config, attempt: nat, backoff: int, r: Round)
    requires ValidConfig(cfg)
    ensures RunFrom(cfg, attempt, backoff, [r]) == RoundTrace(cfg, attempt, backoff, r)
  {
    hide Attempt, Backoff, RoundTrace;
    assert [r][1..] == [];
  }

  // A run that has ended did so at a round that came, and reports what it had by then.
  lemma {:induction false} LastRound(cfg: Config, attempt: nat, backoff: int, rounds: seq<Round>) returns (k: nat)
    requires ValidConfig(cfg) && !RunFrom(cfg, attempt, backoff, rounds).outcome.Pending?
    ensures Comes(cfg, attempt, backoff, rounds, k)
    ensures RunFrom(cfg, attempt, backoff, rounds) == RunFrom(cfg, attempt, backoff, rounds[..k + 1])
    decreases |rounds|
  {
    var last := |rounds| - 1;
    hide RunFrom;
    EmptyRun(cfg, attempt, backoff);
    assert rounds[..|rounds|] == rounds && rounds != [];
    if RunFrom(cfg, attempt, backoff, rounds[..last]).outcome.Pending? {
      k := last;
    } else {
      k := LastRound(cfg, attempt, backoff, rounds[..last]);
      RunSplits(cfg, attempt, backoff, rounds[..last], rounds[last..]);
      assert rounds[..last] + rounds[last..] == rounds;
      assert rounds[..last][..k] == rounds[..k] && rounds[..last][..k + 1] == rounds[..k + 1];
    }
  }

  lemma EmptyRun(cfg: Config, attempt: nat, backoff: int)
    requires ValidConfig(cfg)
    ensures RunFrom(cfg, attempt, backoff, []) == NOTHING
  {}

  // A round that ends a run ends every longer one alike.
  lemma EndIsFinal(cfg: Config, attempt: nat, backoff: int, rounds: seq<Round>, k: nat)
    requires ValidConfig(cfg) && k < |rounds| && !RunFrom(cfg, attempt, backoff, rounds[..k + 1]).outcome.Pending?
    ensures RunFrom(cfg, attempt, backoff, rounds) == RunFrom(cfg, attempt, backoff, rounds[..k + 1])
  {
    RunSplits(cfg, attempt, backoff, rounds[..k + 1], rounds[k + 1..]);
    assert rounds[..k + 1] + rounds[k + 1..] == rounds;
  }

  // Connect returns nil exactly if it comes to a round in which the client is closed or the
  // context cancelled at a check; it gives up exactly if it comes to one with too many
  // attempts; and it is cancelled in its sleep exactly if it comes to one that retries then.
  lemma EndsIff(cfg: Config, attempt: nat, backoff: int, rounds: seq<Round>)
    requires ValidConfig(cfg)
    ensures var outcome := RunFrom(cfg, attempt, backoff, rounds).outcome;
      && (outcome.StoppedOk? <==> exists k: nat :: Comes(cfg, attempt, backoff, rounds, k) && Stops(rounds[k]))
      && (outcome.GaveUp? <==> exists k: nat :: Comes(cfg, attempt, backoff, rounds, k) && Exceeds(cfg, attempt, rounds, k))
      && (outcome.SleepCancelled? <==>
            exists k: nat :: Comes(cfg, attempt, backoff, rounds, k) && Wakes(cfg, attempt, backoff, rounds, k))
  {
    var all := RunFrom(cfg, attempt, backoff, rounds);
    assert forall k: nat | Comes(cfg, attempt, backoff, rounds, k) :: k < |rounds|;
    hide *;
    if !all.outcome.Pending? {
      var k := LastRound(cfg, attempt, backoff, rounds);
      LastRoundReports(cfg, attempt, backoff, rounds, k);
    }
    forall k: nat | Comes(cfg, attempt, backoff, rounds, k)
      ensures Stops(rounds[k]) ==> all.outcome.StoppedOk?
      ensures Exceeds(cfg, attempt, rounds, k) ==> all.outcome.GaveUp?
      ensures Wakes(cfg, attempt, backoff, rounds, k) ==> all.outcome.SleepCancelled?
    {
      RoundEnds(cfg, attempt, backoff, rounds, k);
    }
  }

  lemma LastRoundReports(cfg: Config, attempt: nat, backoff: int, rounds: seq<Round>, k: nat)
    requires ValidConfig(cfg) && Comes(cfg, attempt, backoff, rounds, k)
    ensures var outcome := RunFrom(cfg, attempt, backoff, rounds[..k + 1]).outcome;
      && (outcome.StoppedOk? ==> Stops(rounds[k]))
      && (outcome.GaveUp? ==> Exceeds(cfg, attempt, rounds, k))
      && (outcome.SleepCancelled? ==> Wakes(cfg, attempt, backoff, rounds, k))
  {
    RoundReports(cfg, attempt, backoff, rounds, k);
    hide RunFrom, Stops, Exceeds, Wakes;
  }

  lemma RoundEnds(cfg: Config, attempt: nat, backoff: int, rounds: seq<Round>, k: nat)
    requires ValidConfig(cfg) && Comes(cfg, attempt, backoff, rounds, k)
    ensures var outcome := RunFrom(cfg, attempt, backoff, rounds).outcome;
      && (Stops(rounds[k]) ==> outcome.StoppedOk?)
      && (Exceeds(cfg, attempt, rounds, k) ==> outcome.GaveUp?)
      && (Wakes(cfg, attempt, backoff, rounds, k) ==> outcome.SleepCancelled?)
  {
    RoundReports(cfg, attempt, backoff, rounds, k);
    assert Exceeds(cfg, attempt, rounds, k) ==> !Stops(rounds[k]);
    assert Wakes(cfg, attempt, backoff, rounds, k) ==> !Stops(rounds[k]) && !Exceeds(cfg, attempt, rounds, k);
    hide RunFrom, Stops, Exceeds, Wakes;
    if !RunFrom(cfg, attempt, backoff, rounds[..k + 1]).outcome.Pending? {
      EndIsFinal(cfg, attempt, backoff, rounds, k);
    }
  }

  // At any point of a run that goes on, so many rounds in a row have failed.
  lemma {:induction false} SessionsRecur(cfg: Config, before: seq<Round>, failures: seq<Round>)
    requires ValidConfig(cfg) && cfg.maxRetries > 0 && AllFail(failures)
    requires RunFrom(cfg, 0, cfg.initial, before + failures).outcome.Pending?
    ensures Attempts(0, before) + |failures| <= cfg.maxRetries
    ensures before != [] && before[|before| - 1].event.Session? ==> |failures| < cfg.maxRetries
  {
    hide RunFrom;
    RunSplits(cfg, 0, cfg.initial, before, failures);
    AttemptsWithinLimit(cfg, 0, cfg.initial, before);
    NoLongFailure(cfg, Attempts(0, before), DelayAfter(cfg, cfg.initial, before), failures);
    if before != [] && before[|before| - 1].event.Session? {
      AttemptsAfterLast(0, before);
    }
  }

  lemma {:induction false} AttemptsAfterLast(attempt: nat, rounds: seq<Round>)
    requires rounds != [] && rounds[|rounds| - 1].event.Session?
    ensures Attempts(attempt, rounds) == 1
    decreases |rounds|
  {
    if |rounds| > 1 {
      AttemptsAfterLast(Attempt(attempt, rounds[0].event), rounds[1..]);
    }
  }

  // ---- giving up ----

  function UpFrom(k: nat, n: int): seq<nat>
    decreases n - k
  {
    if k > n then [] else [k] + UpFrom(k + 1, n)
  }

  function Delays(cfg: Config, j: nat, count: nat): seq<int>
    requires ValidConfig(cfg)
    decreases count
  {
    if count == 0 then [] else [Delay(cfg, j)] + Delays(cfg, j + 1, count - 1)
  }

  // Failures alone, with some already counted: OnReconnect runs for each attempt up to the
  // limit, the delays follow the schedule, and the next failure is returned.
  lemma {:induction false} FailuresGiveUp(cfg: Config, attempt: nat, j: nat, rounds: seq<Round>)
    requires ValidConfig(cfg) && cfg.maxRetries > 0 && attempt <= cfg.maxRetries
    requires AllFail(rounds) && Undisturbed(rounds) && |rounds| == cfg.maxRetries + 1 - attempt
    ensures RunFrom(cfg, attempt, Delay(cfg, j), rounds) ==
      Trace(GaveUp, UpFrom(attempt + 1, cfg.maxRetries), Delays(cfg, j, cfg.maxRetries - attempt), [])
    decreases |rounds|
  {
    assert rounds[0] in rounds;
    if attempt < cfg.maxRetries {
      assert forall r | r in rounds[1..] :: r in rounds;
      FailuresGiveUp(cfg, attempt + 1, j + 1, rounds[1..]);
    }
  }

  // With a limit of n, the first n + 1 attempts failing returns the failure, after
  // OnReconnect(1), ..., OnReconnect(n); after a session it takes n failures only, since its
  // end has counted as the first.
  lemma GivesUp(cfg: Config, failures: seq<Round>, session: Round)
    requires ValidConfig(cfg) && cfg.maxRetries > 0 && AllFail(failures) && Undisturbed(failures)
    requires session.event.Session? && Undisturbed([session])
    ensures |failures| == cfg.maxRetries + 1 ==>
      RunFrom(cfg, 0, cfg.initial, failures) == Trace(GaveUp, UpFrom(1, cfg.maxRetries), Delays(cfg, 0, cfg.maxRetries), [])
    ensures |failures| == cfg.maxRetries ==>
      RunFrom(cfg, 0, cfg.initial, [session] + failures) ==
        Trace(GaveUp, UpFrom(1, cfg.maxRetries), Delays(cfg, 0, cfg.maxRetries), [session.event.conn])
  {
    if |failures| == cfg.maxRetries + 1 {
      FailuresGiveUp(cfg, 0, 0, failures);
    } else if |failures| == cfg.maxRetries {
      assert session in [session];
      assert ([session] + failures)[1..] == failures;
      FailuresGiveUp(cfg, 1, 1, failures);
      assert Backoff(cfg, cfg.initial, session.event) == Delay(cfg, 1);
    }
  }

  // Undisturbed, it gives up exactly when the attempts pass the limit at some round, and never
  // without a limit.
  lemma {:induction false} GivesUpIff(cfg: Config, attempt: nat, backoff: int, rounds: seq<Round>)
    requires ValidConfig(cfg) && Undisturbed(rounds) && (cfg.maxRetries > 0 ==> attempt <= cfg.maxRetries)
    ensures var outcome := RunFrom(cfg, attempt, backoff, rounds).outcome;
      (outcome.GaveUp? || outcome.Pending?) &&
      (outcome.GaveUp? <==> cfg.maxRetries > 0 && exists k | 0 <= k <= |rounds| :: Attempts(attempt, rounds[..k]) > cfg.maxRetries)
    decreases |rounds|
  {
    if rounds != [] {
      var e := rounds[0].event;
      assert rounds[0] in rounds;
      assert forall r | r in rounds[1..] :: r in rounds;
      var next := Attempt(attempt, e);
      PrefixAttempts(attempt, rounds);
      if Retries(cfg, next) {
        GivesUpIff(cfg, next, Backoff(cfg, backoff, e), rounds[1..]);
        if exists k | 0 <= k <= |rounds| :: Attempts(attempt, rounds[..k]) > cfg.maxRetries && cfg.maxRetries > 0 {
          var k :| 0 <= k <= |rounds| && Attempts(attempt, rounds[..k]) > cfg.maxRetries && cfg.maxRetries > 0;
          assert k > 0;
          assert Attempts(next, rounds[1..][..k - 1]) > cfg.maxRetries;
        }
        if exists k | 0 <= k <= |rounds| - 1 :: Attempts(next, rounds[1..][..k]) > cfg.maxRetries && cfg.maxRetries > 0 {
          var k :| 0 <= k <= |rounds| - 1 && Attempts(next, rounds[1..][..k]) > cfg.maxRetries && cfg.maxRetries > 0;
          assert Attempts(attempt, rounds[..k + 1]) > cfg.maxRetries;
        }
      } else {
        assert Attempts(attempt, rounds[..1]) == next;
      }
    }
  }

  lemma PrefixAttempts(attempt: nat, rounds: seq<Round>)
    requires rounds != []
    ensures forall k | 1 <= k <= |rounds| ::
      Attempts(attempt, rounds[..k]) == Attempts(Attempt(attempt, rounds[0].event), rounds[1..][..k - 1])
  {
    forall k | 1 <= k <= |rounds|
      ensures Attempts(attempt, rounds[..k]) == Attempts(Attempt(attempt, rounds[0].event), rounds[1..][..k - 1])
    {
      assert rounds[..k][1..] == rounds[1..][..k - 1];
    }
  }

  // No sleep exceeds the larger of the two limits, whatever the multiplier.
  lemma {:induction false} SleepsAreBounded(cfg: Config, attempt: nat, backoff: int, rounds: seq<Round>)
    requires ValidConfig(cfg)
    requires backoff <= if cfg.initial > cfg.max then cfg.initial else cfg.max
    ensures forall d | d in RunFrom(cfg, attempt, backoff, rounds).sleeps ::
      d <= if cfg.initial > cfg.max then cfg.initial else cfg.max
    decreases |rounds|
  {
    if rounds != [] {
      var e := rounds[0].event;
      SleepsAreBounded(cfg, Attempt(attempt, e), Backoff(cfg, backoff, e), rounds[1..]);
    }
  }
}
