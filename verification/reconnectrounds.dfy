// The two views of Connect agree: the steps of reconnectruns.dfy, taken by one Connect in a
// world given round by round, are what the method of reconnect.dfy does.
module ReconnectRounds {
  import opened Bytes
  import opened Backoffs
  import opened Reconnecting
  import opened ReconnectRuns

  // The only Connect so far is this one, and the client has come to this.
  ghost predicate Lone(s: Sys, t: Thread, closed: bool, connects: nat, sleeps: seq<int>) {
    s.threads == [t] && s.shared.closed == closed && s.connects == connects && s.sleeps == sleeps
  }

  ghost predicate Leads(cfg: Config, tcp: bool, s: Sys, run: seq<Action>, s': Sys)
    requires ValidConfig(cfg)
  {
    ValidRun(cfg, tcp, s, run) && Exec(cfg, tcp, s, run) == s'
  }

  lemma StepLeads(cfg: Config, tcp: bool, s: Sys, a: Action)
    requires ValidConfig(cfg) && Enabled(s, a)
    ensures Leads(cfg, tcp, s, [a], Step(cfg, tcp, s, a))
  {
    ValidEnd(cfg, tcp, Step(cfg, tcp, s, a));
    RunStep(cfg, tcp, s, a, []);
    assert [a] + [] == [a];
  }

  lemma StayLeads(cfg: Config, tcp: bool, s: Sys)
    requires ValidConfig(cfg)
    ensures Leads(cfg, tcp, s, [], s)
  {
    ValidEnd(cfg, tcp, s);
  }

  lemma LeadsOn(cfg: Config, tcp: bool, s: Sys, xs: seq<Action>, m: Sys, ys: seq<Action>, s': Sys)
    requires ValidConfig(cfg) && Leads(cfg, tcp, s, xs, m) && Leads(cfg, tcp, m, ys, s')
    ensures Leads(cfg, tcp, s, xs + ys, s')
  {
    hide Enabled, Step;
    RunsCompose(cfg, tcp, s, xs, ys);
  }

  // The thread takes a step by itself.
  lemma TickLeads(cfg: Config, tcp: bool, s: Sys, t: Thread, closed: bool, connects: nat, sleeps: seq<int>, ok: bool)
    returns (s': Sys)
    requires ValidConfig(cfg) && Lone(s, t, closed, connects, sleeps) && Enabled(s, Tick(0, ok))
    ensures Leads(cfg, tcp, s, [Tick(0, ok)], s')
    ensures Lone(s', ReconnectRuns.Next(cfg, tcp, s, t, ok), closed,
                 connects + if t.place.Install? then 1 else 0,
                 sleeps + if t.place.Decide? && Retries(cfg, t.attempt) then [t.backoff] else [])
  {
    s' := Step(cfg, tcp, s, Tick(0, ok));
    StepLeads(cfg, tcp, s, Tick(0, ok));
    hide Leads, ReconnectRuns.Next, Backoffs.Next;
  }

  // From the head of the loop to the dial.
  lemma HeadLeads(cfg: Config, tcp: bool, s: Sys, t: Thread, connects: nat, sleeps: seq<int>)
    returns (run: seq<Action>, s': Sys)
    requires ValidConfig(cfg) && Lone(s, t, false, connects, sleeps) && t.place.Head? && !t.cancelled
    ensures Leads(cfg, tcp, s, run, s') && Lone(s', t.(place := Dial), false, connects, sleeps)
  {
    hide Leads;
    var m := TickLeads(cfg, tcp, s, t, false, connects, sleeps, true);
    s' := TickLeads(cfg, tcp, m, t.(place := Announce), false, connects, sleeps, true);
    LeadsOn(cfg, tcp, s, [Tick(0, true)], m, [Tick(0, true)], s');
    run := [Tick(0, true)] + [Tick(0, true)];
  }

  // The dial or the handshake fails.
  lemma FailLeads(cfg: Config, tcp: bool, s: Sys, t: Thread, connects: nat, sleeps: seq<int>, handshake: bool)
    returns (run: seq<Action>, s': Sys)
    requires ValidConfig(cfg) && Lone(s, t, false, connects, sleeps) && t.place.Dial? && !t.cancelled
    ensures Leads(cfg, tcp, s, run, s')
    ensures Lone(s', t.(place := Decide, attempt := t.attempt + 1), false, connects, sleeps)
  {
    hide Leads;
    var m, c := s, s.nextConn;
    run := [];
    StayLeads(cfg, tcp, s);
    if tcp && handshake {
      m := TickLeads(cfg, tcp, s, t, false, connects, sleeps, true);
      run := [Tick(0, true)];
    }
    var at := if tcp && handshake then t.(place := Handshake(c)) else t;
    var m' := TickLeads(cfg, tcp, m, at, false, connects, sleeps, false);
    LeadsOn(cfg, tcp, s, run, m, [Tick(0, false)], m');
    var failed := t.(place := Failed, attempt := t.attempt + 1);
    s' := TickLeads(cfg, tcp, m', failed, false, connects, sleeps, true);
    LeadsOn(cfg, tcp, s, run + [Tick(0, false)], m', [Tick(0, true)], s');
    run := run + [Tick(0, false)] + [Tick(0, true)];
  }

  // It connects.
  lemma ConnectLeads(cfg: Config, tcp: bool, s: Sys, t: Thread, connects: nat, sleeps: seq<int>)
    returns (run: seq<Action>, s': Sys, c: ConnRef)
    requires ValidConfig(cfg) && Lone(s, t, false, connects, sleeps) && t.place.Dial? && !t.cancelled
    ensures Leads(cfg, tcp, s, run, s')
    ensures Lone(s', t.(place := Reading(c), attempt := 0, backoff := cfg.initial), false, connects + 1, sleeps)
  {
    hide Leads;
    c := s.nextConn;
    var m := TickLeads(cfg, tcp, s, t, false, connects, sleeps, true);
    run := [Tick(0, true)];
    if tcp {
      var m' := TickLeads(cfg, tcp, m, t.(place := Handshake(c)), false, connects, sleeps, true);
      LeadsOn(cfg, tcp, s, run, m, [Tick(0, true)], m');
      run, m := run + [Tick(0, true)], m';
    }
    s' := TickLeads(cfg, tcp, m, t.(place := Install(c)), false, connects, sleeps, true);
    LeadsOn(cfg, tcp, s, run, m, [Tick(0, true)], s');
    run := run + [Tick(0, true)];
  }

  // During the session the client may be closed and the context cancelled.
  lemma DisturbLeads(cfg: Config, tcp: bool, s: Sys, t: Thread, connects: nat, sleeps: seq<int>, closes: bool, cancels: bool)
    returns (run: seq<Action>, s': Sys)
    requires ValidConfig(cfg) && Lone(s, t, false, connects, sleeps) && !t.cancelled
    ensures Leads(cfg, tcp, s, run, s') && Lone(s', t.(cancelled := cancels), closes, connects, sleeps)
  {
    run, s' := [], s;
    StayLeads(cfg, tcp, s);
    hide Leads;
    if closes {
      StepLeads(cfg, tcp, s, CloseCall);
      run, s' := [CloseCall], Step(cfg, tcp, s, CloseCall);
    }
    if cancels {
      StepLeads(cfg, tcp, s', Cancel(0));
      LeadsOn(cfg, tcp, s, run, s', [Cancel(0)], Step(cfg, tcp, s', Cancel(0)));
      run, s' := run + [Cancel(0)], Step(cfg, tcp, s', Cancel(0));
    }
  }

  // The session ends, and the check after it is reached.
  lemma EndLeads(cfg: Config, tcp: bool, s: Sys, t: Thread, closed: bool, connects: nat, sleeps: seq<int>)
    returns (run: seq<Action>, s': Sys)
    requires ValidConfig(cfg) && Lone(s, t, closed, connects, sleeps) && t.place.Reading?
    ensures Leads(cfg, tcp, s, run, s')
    ensures Lone(s', if closed || t.cancelled then t.(place := Returned(true))
                     else t.(place := Decide, attempt := t.attempt + 1), closed, connects, sleeps)
  {
    hide Leads;
    var m := TickLeads(cfg, tcp, s, t, closed, connects, sleeps, true);
    var m' := TickLeads(cfg, tcp, m, t.(place := Clear(t.place.c)), closed, connects, sleeps, true);
    LeadsOn(cfg, tcp, s, [Tick(0, true)], m, [Tick(0, true)], m');
    run := [Tick(0, true)] + [Tick(0, true)];
    if tcp {
      m := TickLeads(cfg, tcp, m', t.(place := ClearState), closed, connects, sleeps, true);
      LeadsOn(cfg, tcp, s, run, m', [Tick(0, true)], m);
      run, m' := run + [Tick(0, true)], m;
    }
    s' := TickLeads(cfg, tcp, m', t.(place := Check), closed, connects, sleeps, true);
    LeadsOn(cfg, tcp, s, run, m', [Tick(0, true)], s');
    run := run + [Tick(0, true)];
  }

  // Whether to retry, and the sleep.
  lemma DecideLeads(cfg: Config, tcp: bool, s: Sys, t: Thread, connects: nat, sleeps: seq<int>, slept: bool)
    returns (run: seq<Action>, s': Sys)
    requires ValidConfig(cfg) && Lone(s, t, false, connects, sleeps) && t.place.Decide? && !t.cancelled
    ensures Leads(cfg, tcp, s, run, s')
    ensures !Retries(cfg, t.attempt) ==> Lone(s', t.(place := Returned(false)), false, connects, sleeps)
    ensures Retries(cfg, t.attempt) && (slept || t.backoff <= 0) ==>
      Lone(s', t.(place := Head, backoff := Backoffs.Next(t.backoff, cfg.multiplier, cfg.max)), false, connects, sleeps + [t.backoff])
    ensures Retries(cfg, t.attempt) && !slept && t.backoff > 0 ==>
      Lone(s', t.(place := Returned(false), cancelled := true), false, connects, sleeps + [t.backoff])
  {
    hide Leads, Backoffs.Next;
    s' := TickLeads(cfg, tcp, s, t, false, connects, sleeps, true);
    run := [Tick(0, true)];
    if Retries(cfg, t.attempt) {
      var asleep, more := t.(place := Sleep), sleeps + [t.backoff];
      var wakes := !slept && t.backoff > 0;
      var cancel, m := DisturbLeads(cfg, tcp, s', asleep, connects, more, false, wakes);
      LeadsOn(cfg, tcp, s, run, s', cancel, m);
      run := run + cancel;
      s' := TickLeads(cfg, tcp, m, asleep.(cancelled := wakes), false, connects, more, !wakes);
      LeadsOn(cfg, tcp, s, run, m, [Tick(0, !wakes)], s');
      run := run + [Tick(0, !wakes)];
    }
  }

  // The machine has come to where this trace ends; if it goes on, with these attempts and delay.
  ghost predicate Agrees(s: Sys, trace: Trace, attempt: nat, backoff: int, connects: nat, sleeps: seq<int>) {
    && |s.threads| == 1
    && s.connects == connects + |trace.connects|
    && s.sleeps == sleeps + trace.sleeps
    && match trace.outcome
       case Pending => s.threads[0] == Thread(Head, attempt, backoff, false) && !s.shared.closed
       case StoppedOk => s.threads[0].place == Returned(true)
       case GaveUp => s.threads[0].place == Returned(false)
       case SleepCancelled => s.threads[0].place == Returned(false)
  }

  // A round that is stopped at its check.
  lemma StopLeads(cfg: Config, tcp: bool, s: Sys, t: Thread, connects: nat, sleeps: seq<int>, r: Round)
    returns (run: seq<Action>, s': Sys)
    requires ValidConfig(cfg) && Lone(s, t, false, connects, sleeps) && t.place.Head? && !t.cancelled && (r.closes || r.cancels)
    ensures Leads(cfg, tcp, s, run, s') && Lone(s', t.(place := Returned(true), cancelled := r.cancels), r.closes, connects, sleeps)
  {
    hide Leads;
    var m;
    run, m := DisturbLeads(cfg, tcp, s, t, connects, sleeps, r.closes, r.cancels);
    s' := TickLeads(cfg, tcp, m, t.(cancelled := r.cancels), r.closes, connects, sleeps, true);
    LeadsOn(cfg, tcp, s, run, m, [Tick(0, true)], s');
    run := run + [Tick(0, true)];
  }

  // A round up to the decision to retry, if it gets there.
  lemma AttemptLeads(cfg: Config, tcp: bool, s: Sys, t: Thread, connects: nat, sleeps: seq<int>, e: Event)
    returns (run: seq<Action>, s': Sys, t': Thread)
    requires ValidConfig(cfg) && Lone(s, t, false, connects, sleeps) && t.place.Head? && !t.cancelled
    ensures Leads(cfg, tcp, s, run, s')
    ensures var stopped := e.Session? && (e.closes || e.cancels);
      && Lone(s', t', stopped && e.closes, connects + if e.Session? then 1 else 0, sleeps)
      && if stopped then t'.place == Returned(true)
         else t' == Thread(Decide, Attempt(t.attempt, e), if e.Session? then cfg.initial else t.backoff, false)
  {
    hide Leads;
    var m;
    run, m := HeadLeads(cfg, tcp, s, t, connects, sleeps);
    t' := t.(place := Dial);
    if e.Session? {
      var up, u, c := ConnectLeads(cfg, tcp, m, t', connects, sleeps);
      LeadsOn(cfg, tcp, s, run, m, up, u);
      t' := t.(place := Reading(c), attempt := 0, backoff := cfg.initial);
      var during, v := DisturbLeads(cfg, tcp, u, t', connects + 1, sleeps, e.closes, e.cancels);
      LeadsOn(cfg, tcp, s, run + up, u, during, v);
      t' := t'.(cancelled := e.cancels);
      var end;
      end, s' := EndLeads(cfg, tcp, v, t', e.closes, connects + 1, sleeps);
      LeadsOn(cfg, tcp, s, run + up + during, v, end, s');
      run := run + up + during + end;
      t' := if e.closes || e.cancels then t'.(place := Returned(true)) else t'.(place := Decide, attempt := 1);
    } else {
      var fail;
      fail, s' := FailLeads(cfg, tcp, m, t', connects, sleeps, e.HandshakeFails?);
      LeadsOn(cfg, tcp, s, run, m, fail, s');
      run := run + fail;
      t' := t.(place := Decide, attempt := t.attempt + 1);
    }
  }

  lemma RoundLeads(cfg: Config, tcp: bool, s: Sys, attempt: nat, backoff: int, connects: nat, sleeps: seq<int>, r: Round)
    returns (run: seq<Action>, s': Sys)
    requires ValidConfig(cfg) && Lone(s, Thread(Head, attempt, backoff, false), false, connects, sleeps)
    ensures Leads(cfg, tcp, s, run, s')
    ensures Agrees(s', RoundTrace(cfg, attempt, backoff, r), Attempt(attempt, r.event), Backoff(cfg, backoff, r.event), connects, sleeps)
  {
    hide Leads, Backoffs.Next;
    var t := Thread(Head, attempt, backoff, false);
    if r.closes || r.cancels {
      run, s' := StopLeads(cfg, tcp, s, t, connects, sleeps, r);
    } else {
      var t', m;
      run, m, t' := AttemptLeads(cfg, tcp, s, t, connects, sleeps, r.event);
      if t'.place.Decide? {
        var decide;
        decide, s' := DecideLeads(cfg, tcp, m, t', m.connects, sleeps, r.event.slept);
        LeadsOn(cfg, tcp, s, run, m, decide, s');
        run := run + decide;
      } else {
        s' := m;
      }
    }
  }

  lemma {:induction false} RoundsLead(cfg: Config, tcp: bool, s: Sys, attempt: nat, backoff: int, connects: nat, sleeps: seq<int>,
                                      rounds: seq<Round>)
    returns (run: seq<Action>, s': Sys)
    requires ValidConfig(cfg) && Lone(s, Thread(Head, attempt, backoff, false), false, connects, sleeps)
    ensures Leads(cfg, tcp, s, run, s')
    ensures Agrees(s', RunFrom(cfg, attempt, backoff, rounds), Attempts(attempt, rounds), DelayAfter(cfg, backoff, rounds),
                   connects, sleeps)
    decreases |rounds|
  {
    hide Leads, RoundTrace, Attempt, Backoff;
    if rounds == [] {
      StayLeads(cfg, tcp, s);
      run, s' := [], s;
    } else {
      var step, e := RoundTrace(cfg, attempt, backoff, rounds[0]), rounds[0].event;
      run, s' := RoundLeads(cfg, tcp, s, attempt, backoff, connects, sleeps, rounds[0]);
      if step.outcome.Pending? {
        var m := s';
        var more;
        more, s' := RoundsLead(cfg, tcp, m, Attempt(attempt, e), Backoff(cfg, backoff, e), connects + |step.connects|,
                               sleeps + step.sleeps, rounds[1..]);
        LeadsOn(cfg, tcp, s, run, m, more, s');
        run := run + more;
      }
    }
  }

  // Whatever the world does to a Connect round by round, the machine has a run that does it: it
  // returns nil, or an error, just if the method does, and starts the same sleeps and as many
  // connections.
  lemma ConnectIsARun(cfg: Config, tcp: bool, rounds: seq<Round>) returns (actions: seq<Action>)
    requires ValidConfig(cfg)
    ensures ValidRun(cfg, tcp, NewClient(), actions)
    ensures var s, trace := Exec(cfg, tcp, NewClient(), actions), RunFrom(cfg, 0, cfg.initial, rounds);
      && |s.threads| == 1 && s.sleeps == trace.sleeps && s.connects == |trace.connects|
      && match trace.outcome
         case Pending => s.threads[0] == Thread(Head, Attempts(0, rounds), DelayAfter(cfg, cfg.initial, rounds), false)
         case StoppedOk => s.threads[0].place == Returned(true)
         case GaveUp => s.threads[0].place == Returned(false)
         case SleepCancelled => s.threads[0].place == Returned(false)
  {
    var s := Step(cfg, tcp, NewClient(), BeginConnect);
    StepLeads(cfg, tcp, NewClient(), BeginConnect);
    var run, s' := RoundsLead(cfg, tcp, s, 0, cfg.initial, 0, [], rounds);
    LeadsOn(cfg, tcp, NewClient(), [BeginConnect], s, run, s');
    actions := [BeginConnect] + run;
    hide RunFrom, Attempts, DelayAfter, Step, Enabled, NewClient;
  }
}
