// The reconnect window: how much delay it may hand out, on which runs.
module ReconnectBudget {
  import opened Prelude
  import opened GatewayStatus
  import opened ReconnectPolicy
  import opened CloseDecision
  import opened GatewaySpec
  import opened GatewayInvariant
  import opened GatewayRuns

  /** A reconnect timer that outlived its window, because a public connect succeeded meanwhile, does
      not fire so late that its delay counts as sleep. */
  predicate Punctual(c: Client, e: Event)
    requires Possible(c, e)
  {
    e.EvReconnectTimer? && c.sh.life.status.Ready? ==> c.now - c.sh.timer.value.fireAt <= SLEEP_DRIFT_THRESHOLD_MS
  }

  /** Punctuality is exactly what keeps the accounts: a leftover timer that fires on a ready, unaborted client,
      whose policy has granted nothing, leaves it with no time on account if and only if it is punctual. */
  lemma LeftoverTimerExactly(c: Client, preparation: Preparation)
    requires Inv(c) && Possible(c, EvReconnectTimer(preparation))
    requires c.sh.life.status.Ready? && !c.aborted && NothingGranted(c.sh.policy, c.now)
    ensures NothingGranted(Step(c, EvReconnectTimer(preparation)).sh.policy, c.now) <==>
            Punctual(c, EvReconnectTimer(preparation))
  {
    FreshWindowNotExhausted(c.config.policy, Credited(c.sh.policy, c.sh.timer.value, c.now), c.now);
  }

  predicate IsPunctualRun(c: Client, events: seq<Event>)
    requires IsRun(c, events)
    decreases |events|
  {
    events == [] || (Punctual(c, events[0]) && IsPunctualRun(Step(c, events[0]), events[1..]))
  }

  // ---- Invariant ----

  // A further delay may still be granted in the current window.
  predicate WindowLive(c: Client) {
    || c.sh.timer.Some?
    || c.sh.signals > 0
    || (c.sh.active.Some? && c.sh.active.value in c.attempts && c.attempts[c.sh.active.value].reconnectAttempt)
  }

  // Time the window has consumed at `t`, sleep credit deducted.
  function Consumed(policy: Policy, t: int): int
    requires policy.windowStartedAt.Some?
  {
    t - policy.windowStartedAt.value - policy.suspendedMs
  }

  predicate GrantsOk(config: PolicyConfig, granted: seq<nat>) {
    && Sum(granted) < config.maxElapsedMs
    && (forall i :: 0 <= i < |granted| ==> granted[i] <= Cap(config, i + 1))
    && (!config.fullJitter ==> forall i :: 0 <= i < |granted| ==> granted[i] == Cap(config, i + 1))
  }

  predicate WindowOk(policy: Policy, paidUpTo: int) {
    && policy.windowStartedAt.Some?
    && policy.attempt == |policy.granted|
    && Consumed(policy, paidUpTo) >= Sum(policy.granted)
  }

  // No window, or one that a leftover timer opened without granting anything.
  predicate NothingGranted(policy: Policy, now: int) {
    && policy.attempt == 0 && policy.granted == [] && policy.suspendedMs == 0
    && (policy.windowStartedAt.Some? ==> policy.windowStartedAt.value <= now)
  }

  predicate BudgetOk(c: Client) {
    && GrantsOk(c.config.policy, c.sh.policy.granted)
    && (c.sh.life.status.Ready? ==> NothingGranted(c.sh.policy, c.now))
    && (WindowLive(c) && !c.sh.life.status.Ready? ==>
          WindowOk(c.sh.policy, if c.sh.timer.Some? then c.sh.timer.value.fireAt else c.now))
  }

  lemma GrantAppend(config: PolicyConfig, policy: Policy, delay: nat)
    requires GrantsOk(config, policy.granted) && policy.attempt == |policy.granted|
    requires Sum(policy.granted) + delay < config.maxElapsedMs
    requires delay <= Cap(config, policy.attempt + 1)
    requires !config.fullJitter ==> delay == Cap(config, policy.attempt + 1)
    ensures GrantsOk(config, policy.granted + [delay])
  {
    SumAppend(policy.granted, delay);
  }

  // One scheduling decision: either a delay that still fits, paid up to its fire time, or none.
  lemma DecisionKeepsBudget(config: PolicyConfig, policy: Policy, now: int, draw: Draw)
    requires GrantsOk(config, policy.granted)
    requires NothingGranted(policy, now) || WindowOk(policy, now)
    ensures var decision, after := policy.DecideNext(config, now, draw), policy.AfterNext(config, now, draw);
      && GrantsOk(config, after.granted)
      && (decision.Scheduled? ==> WindowOk(after, now + decision.delayMs))
  {
    var decision := policy.DecideNext(config, now, draw);
    if decision.Scheduled? {
      assert NothingGranted(policy, now) ==> Sum(policy.granted) == 0;
      assert decision.elapsedMs >= Sum(policy.granted);
      GrantAppend(config, policy, decision.delayMs);
      SumAppend(policy.granted, decision.delayMs);
    }
  }

  lemma ScheduleKeepsBudget(env: Env, sh: Shared, draw: Draw)
    requires !env.aborted && env.config.reconnectEnabled
    requires sh.timer.None? && GrantsOk(env.config.policy, sh.policy.granted)
    requires NothingGranted(sh.policy, env.now) || WindowOk(sh.policy, env.now)
    ensures var after := ScheduleReconnect(env, sh, draw);
      && GrantsOk(env.config.policy, after.policy.granted)
      && (after.timer.Some? ==> WindowOk(after.policy, after.timer.value.fireAt))
      && (after.life.status.Ready? ==> sh.life.status.Ready? && sh.life.manuallyDisconnected)
      && after.active == sh.active && after.signals == sh.signals
  {
    DecisionKeepsBudget(env.config.policy, sh.policy, env.now, draw);
  }

  lemma StartWindowKeepsBudget(c: Client, s: nat, draw: Draw)
    requires Inv(c) && BudgetOk(c) && Concerned(c, s) && !c.aborted && c.config.reconnectEnabled
    requires c.attempts[s].phase.PhaseReady? && c.sh.life.IsCurrent(c.attempts[s].token)
    ensures BudgetOk(c.With(s, HandleStartReconnectWindow(c.Context(), c.At(s), draw)))
  {
    Localize(c, s);
    var p := c.At(s);
    var a := CommitTerminalError(p.a,
               ResolveTransportTerminalError(p.a, GatewayError(TransportError, RuntimeFailure, true)));
    var left := EnterTerminal(Pair(p.sh.(life := p.sh.life.MarkReconnectingIfCurrent(a.token)), a));
    ScheduleKeepsBudget(c.Context(), left.sh, draw);
  }

  // Failing, for whatever reason, ends the window.
  lemma FailKeepsBudget(c: Client, s: nat, error: GatewayError, closeTransport: bool)
    requires Inv(c) && BudgetOk(c) && Concerned(c, s) && ClosedAccepts(error) && !c.attempts[s].cleaned
    requires c.attempts[s].terminalError.None?
    ensures BudgetOk(c.With(s, FailBeforeReady(c.At(s), error, closeTransport)))
    ensures c.attempts[s].phase.PhaseReady? ==> BudgetOk(c.With(s, FailAtRuntime(c.At(s), error)))
  {
    Localize(c, s);
  }

  lemma StopCloseKeepsBudget(c: Client, s: nat, code: CloseCode)
    requires Inv(c) && BudgetOk(c) && Concerned(c, s)
    requires !IsTerminal(c.sh, c.attempts[s])
    ensures BudgetOk(c.With(s, HandleStopClose(c.Context(), c.At(s), code)))
  {
    assert AttemptOk(c.sh, s, c.attempts[s]);
    if !c.attempts[s].phase.PhaseReady? {
      StopIsFailure(c.Context(), c.At(s), code);
      FailKeepsBudget(c, s, StopError(c.Context(), c.At(s), code), false);
    } else {
      forall error | ClosedAccepts(error) ensures BudgetOk(c.With(s, FailAtRuntime(c.At(s), error))) {
        FailKeepsBudget(c, s, error, false);
      }
    }
  }

  lemma CloseKeepsBudget(c: Client, s: nat, code: CloseCode, draw: Draw)
    requires Inv(c) && BudgetOk(c) && Delivered(c, EvClose(s, code, draw))
    ensures BudgetOk(Step(c, EvClose(s, code, draw)))
  {
    if IsTerminal(c.sh, c.attempts[s]) {
      Unmoved(c, s);
    } else {
      Localize(c, s);
      var p := c.At(s);
      match EvaluateReconnectOnClose(code, p.sh.life.manuallyDisconnected, c.aborted,
                                     c.config.reconnectEnabled, p.a.reconnectAttempt, p.a.phase) {
        case ContinueWindow =>
        case StartWindow => StartWindowKeepsBudget(c, s, draw);
        case Stop => StopCloseKeepsBudget(c, s, code);
      }
    }
  }

  lemma MessageKeepsBudget(c: Client, s: nat, frame: InFrame)
    requires Inv(c) && BudgetOk(c) && Delivered(c, EvMessage(s, frame))
    ensures BudgetOk(Step(c, EvMessage(s, frame)))
  {
    if IsTerminal(c.sh, c.attempts[s]) {
      Unmoved(c, s);
    } else {
      Localize(c, s);
      if frame.HandshakeControl? || frame.InvalidHandshake? {
        var result := ProcessHandshake(frame);
        if result.HandshakeFailed? {
          FailKeepsBudget(c, s, result.error, true);
        } else {
          assert Sum([]) == 0;
        }
      }
    }
  }

  lemma FailOnOpenKeepsBudget(c: Client, s: nat, error: GatewayError)
    requires Inv(c) && BudgetOk(c) && Concerned(c, s) && !IsTerminal(c.sh, c.attempts[s]) && ClosedAccepts(error)
    ensures BudgetOk(c.With(s, FailBeforeReady(Pair(c.sh, c.attempts[s].(didOpen := true)), error, true)))
  {
    Localize(c, s);
    FailKeepsBudget(c, s, error, true);
  }

  lemma OpenKeepsBudget(c: Client, s: nat, sendable: bool)
    requires Inv(c) && BudgetOk(c) && Delivered(c, EvOpen(s, sendable))
    ensures BudgetOk(Step(c, EvOpen(s, sendable)))
  {
    if IsTerminal(c.sh, c.attempts[s]) {
      Unmoved(c, s);
    } else {
      FailOnOpenKeepsBudget(c, s, GatewayError(ConnectParameterInvalid, StartupFailure, false));
    }
  }

  // Connecting touches neither the policy nor the timer.
  lemma ConnectEffect(c: Client, reconnectAttempt: bool, preparation: Preparation)
    ensures var after := Connect(c, reconnectAttempt, preparation);
      && after == c.(sh := after.sh, attempts := after.attempts)
      && after.sh.policy == c.sh.policy && after.sh.timer == c.sh.timer && after.sh.signals == c.sh.signals
      && (after.sh.life.status.Ready? ==> c.sh.life.status.Ready?)
      && (after == c || after.sh.active == c.sh.active == None
          || (c.sh.active == None && after.sh.active.Some? && after.sh.active.value in after.attempts
              && after.attempts[after.sh.active.value].reconnectAttempt == reconnectAttempt))
  {
  }

  lemma ConnectKeepsBudget(c: Client, preparation: Preparation)
    requires Inv(c) && BudgetOk(c) && c.sh.signals == 0 && Possible(c, EvConnect(preparation))
    ensures BudgetOk(Connect(c, false, preparation))
  {
    ConnectEffect(c, false, preparation);
  }

  // Sleep beyond the threshold is credited back, so firing late never makes the window look longer
  // than its delays, and firing on time never makes it look shorter.
  lemma {:induction false} CreditKeepsWindow(c: Client)
    requires Inv(c) && BudgetOk(c) && c.sh.timer.Some? && c.now >= c.sh.timer.value.fireAt
    requires c.sh.life.status.Ready? ==> c.now - c.sh.timer.value.fireAt <= SLEEP_DRIFT_THRESHOLD_MS
    ensures var policy := Credited(c.sh.policy, c.sh.timer.value, c.now).StartWindow(c.now);
      && policy.granted == c.sh.policy.granted
      && (c.sh.life.status.Ready? ==> NothingGranted(policy, c.now))
      && (!c.sh.life.status.Ready? ==> WindowOk(policy, c.now))
  {
  }

  lemma TimerKeepsBudget(c: Client, preparation: Preparation)
    requires Inv(c) && BudgetOk(c) && Delivered(c, EvReconnectTimer(preparation))
    requires Punctual(c, EvReconnectTimer(preparation))
    ensures BudgetOk(Step(c, EvReconnectTimer(preparation)))
  {
    var after := Step(c, EvReconnectTimer(preparation));
    var fired := c.(sh := c.sh.(timer := None));
    CreditKeepsWindow(c);
    var policy := Credited(c.sh.policy, c.sh.timer.value, c.now).StartWindow(c.now);
    if c.sh.life.manuallyDisconnected || c.aborted {
      assert after == fired;
      if c.sh.active.Some? {
        assert AttemptOk(c.sh, c.sh.active.value, c.attempts[c.sh.active.value]);
      }
    } else if Credited(c.sh.policy, c.sh.timer.value, c.now).IsExhausted(c.config.policy, c.now) {
      if c.sh.active.Some? {
        assert AttemptOk(c.sh, c.sh.active.value, c.attempts[c.sh.active.value]);
      }
    } else {
      var next := fired.(sh := fired.sh.(policy := policy));
      assert after == Connect(next, true, preparation);
      ConnectEffect(next, true, preparation);
    }
  }

  lemma ContinueSignalKeepsBudget(c: Client, draw: Draw)
    requires Inv(c) && BudgetOk(c) && Delivered(c, EvContinueSignal(draw))
    ensures BudgetOk(Step(c, EvContinueSignal(draw)))
  {
    if !c.aborted {
      ScheduleKeepsBudget(c.Context(), c.sh.(signals := c.sh.signals - 1), draw);
    }
  }

  lemma DisconnectKeepsBudget(c: Client)
    requires Inv(c) && BudgetOk(c)
    ensures BudgetOk(Disconnect(c))
  {
    DisconnectEffect(c);
  }

  lemma TimeoutKeepsBudget(c: Client, s: nat)
    requires Inv(c) && BudgetOk(c) && Delivered(c, EvHandshakeTimeout(s))
    ensures BudgetOk(Step(c, EvHandshakeTimeout(s)))
  {
    assert AttemptOk(c.sh, s, c.attempts[s]);
    FailKeepsBudget(c, s, GatewayError(HandshakeTimeout, StartupFailure, true), true);
  }

  // Errors, sends, heartbeats, aborts and time passing grant nothing and settle nothing.
  lemma QuietKeepsBudget(c: Client, e: Event)
    requires Inv(c) && BudgetOk(c) && Delivered(c, e)
    requires e.EvAbort? || e.EvHeartbeat? || e.EvSend? || e.EvAdvance?
    ensures BudgetOk(Step(c, e))
  {
  }

  lemma ErrorKeepsBudget(c: Client, s: nat)
    requires Inv(c) && BudgetOk(c) && Delivered(c, EvError(s))
    ensures BudgetOk(Step(c, EvError(s)))
  {
  }

  lemma {:induction false} StepKeepsBudget(c: Client, e: Event)
    requires Inv(c) && BudgetOk(c) && Delivered(c, e) && Punctual(c, e)
    ensures BudgetOk(Step(c, e))
  {
    match e {
      case EvConnect(preparation) => ConnectKeepsBudget(c, preparation);
      case EvDisconnect => DisconnectKeepsBudget(c);
      case EvOpen(s, sendable) => OpenKeepsBudget(c, s, sendable);
      case EvError(s) => ErrorKeepsBudget(c, s);
      case EvClose(s, code, draw) => CloseKeepsBudget(c, s, code, draw);
      case EvMessage(s, frame) => MessageKeepsBudget(c, s, frame);
      case EvHandshakeTimeout(s) => TimeoutKeepsBudget(c, s);
      case EvAbort => QuietKeepsBudget(c, e);
      case EvAbortListener(s) => AbortListenerKeepsBudget(c, s);
      case EvReconnectTimer(preparation) => TimerKeepsBudget(c, preparation);
      case EvContinueSignal(draw) => ContinueSignalKeepsBudget(c, draw);
      case EvHeartbeat(_) => QuietKeepsBudget(c, e);
      case EvSend(_) => QuietKeepsBudget(c, e);
      case EvAdvance(_) => QuietKeepsBudget(c, e);
    }
  }

  lemma AbortListenerKeepsBudget(c: Client, s: nat)
    requires Inv(c) && BudgetOk(c) && Delivered(c, EvAbortListener(s))
    ensures BudgetOk(Step(c, EvAbortListener(s)))
  {
    assert AttemptOk(c.sh, s, c.attempts[s]);
  }

  // The first event of a punctual run, and the rest of it.
  lemma PunctualStep(c: Client, events: seq<Event>) returns (next: Client)
    requires events != [] && Inv(c) && BudgetOk(c) && IsRun(c, events) && IsPunctualRun(c, events)
    ensures Inv(next) && BudgetOk(next) && next.config == c.config
    ensures IsRun(next, events[1..]) && IsPunctualRun(next, events[1..])
    ensures Exec(c, events) == Exec(next, events[1..])
  {
    StepKeepsInv(c, events[0]);
    StepKeepsBudget(c, events[0]);
    next := Step(c, events[0]);
  }

  lemma {:induction false} RunKeepsBudget(c: Client, events: seq<Event>)
    requires Inv(c) && BudgetOk(c) && IsRun(c, events) && IsPunctualRun(c, events)
    ensures Inv(Exec(c, events)) && BudgetOk(Exec(c, events)) && Exec(c, events).config == c.config
    decreases |events|
  {
    if events != [] {
      var next := PunctualStep(c, events);
      RunKeepsBudget(next, events[1..]);
    }
  }

  /** On every punctual run, within one reconnect window: the delays granted sum to less than the
      budget although sleep is credited back; the n-th is at most the n-th backoff cap (exactly the
      cap without jitter); and without jitter the number of retries times the smaller of base and
      cap stays below the budget. */
  lemma WindowStaysInBudget(config: Config, events: seq<Event>)
    requires config.policy.maxElapsedMs > 0
    requires IsRun(InitialClient(config), events) && IsPunctualRun(InitialClient(config), events)
    ensures var granted := Exec(InitialClient(config), events).sh.policy.granted;
      && Sum(granted) < config.policy.maxElapsedMs
      && (forall i :: 0 <= i < |granted| ==> granted[i] <= Cap(config.policy, i + 1))
      && (!config.policy.fullJitter ==> forall i :: 0 <= i < |granted| ==> granted[i] == Cap(config.policy, i + 1))
      && (!config.policy.fullJitter ==>
            |granted| * Min(config.policy.baseMs, config.policy.maxMs) < config.policy.maxElapsedMs)
  {
    InitialInv(config);
    assert Sum([]) == 0;
    RunKeepsBudget(InitialClient(config), events);
    var granted := Exec(InitialClient(config), events).sh.policy.granted;
    var least := Min(config.policy.baseMs, config.policy.maxMs);
    if !config.policy.fullJitter {
      forall i | 0 <= i < |granted| ensures granted[i] >= least {
        CapAtLeast(config.policy, i + 1);
      }
      CountTimesLeast(granted, least);
    }
  }

  // ---- What the caller can do about it ----

  /** The caller does not ask for a public connect while the client is reconnecting, and a continue
      signal is caught before anything else happens. */
  predicate Orderly(c: Client, e: Event) {
    && (e.EvConnect? ==> !c.sh.life.status.Reconnecting?)
    && (c.sh.signals > 0 ==> e.EvContinueSignal?)
  }

  predicate IsOrderlyRun(c: Client, events: seq<Event>)
    requires IsRun(c, events)
    decreases |events|
  {
    events == [] || (Orderly(c, events[0]) && IsOrderlyRun(Step(c, events[0]), events[1..]))
  }

  predicate OrderOk(c: Client) {
    && (c.sh.timer.Some? ==> c.sh.life.status.Reconnecting? && c.sh.active.None?)
    && (c.sh.signals > 0 ==> c.sh.life.status.Reconnecting?)
    && (c.sh.active.Some? && c.sh.active.value in c.attempts ==>
          c.sh.life.IsCurrent(c.attempts[c.sh.active.value].token))
  }

  lemma OpenKeepsOrder(c: Client, s: nat, sendable: bool)
    requires Inv(c) && OrderOk(c) && Delivered(c, EvOpen(s, sendable)) && c.sh.signals == 0
    ensures OrderOk(Step(c, EvOpen(s, sendable)))
  {
    if IsTerminal(c.sh, c.attempts[s]) {
      Unmoved(c, s);
    } else {
      Localize(c, s);
    }
  }

  lemma ErrorKeepsOrder(c: Client, s: nat)
    requires OrderOk(c) && Delivered(c, EvError(s))
    ensures OrderOk(Step(c, EvError(s)))
  {
  }

  lemma TimeoutKeepsOrder(c: Client, s: nat)
    requires Inv(c) && OrderOk(c) && Delivered(c, EvHandshakeTimeout(s)) && c.sh.signals == 0
    ensures OrderOk(Step(c, EvHandshakeTimeout(s)))
  {
    assert AttemptOk(c.sh, s, c.attempts[s]);
  }

  lemma AbortListenerKeepsOrder(c: Client, s: nat)
    requires Inv(c) && OrderOk(c) && Delivered(c, EvAbortListener(s)) && c.sh.signals == 0
    ensures OrderOk(Step(c, EvAbortListener(s)))
  {
    assert AttemptOk(c.sh, s, c.attempts[s]);
  }

  lemma ConnectKeepsOrder(c: Client, preparation: Preparation)
    requires Inv(c) && OrderOk(c) && !c.sh.life.status.Reconnecting? && c.sh.signals == 0
    requires preparation.PrepareFailed? ==> ClosedAccepts(preparation.error)
    ensures OrderOk(Connect(c, false, preparation))
  {
    ConnectEffect(c, false, preparation);
  }

  lemma DisconnectKeepsOrder(c: Client)
    requires Inv(c) && c.sh.signals == 0
    ensures OrderOk(Disconnect(c))
  {
    DisconnectEffect(c);
  }

  lemma SharedEventKeepsOrder(c: Client, e: Event)
    requires Inv(c) && OrderOk(c) && Delivered(c, e) && Orderly(c, e)
    requires e.EvAbort? || e.EvContinueSignal? || e.EvHeartbeat? || e.EvSend? || e.EvAdvance?
    ensures OrderOk(Step(c, e))
  {
  }

  lemma StepKeepsOrder(c: Client, e: Event)
    requires Inv(c) && OrderOk(c) && Delivered(c, e) && CleanPreparation(e) && Orderly(c, e)
    ensures OrderOk(Step(c, e)) && Punctual(c, e)
  {
    match e {
      case EvConnect(preparation) => ConnectKeepsOrder(c, preparation);
      case EvOpen(s, sendable) => OpenKeepsOrder(c, s, sendable);
      case EvError(s) => ErrorKeepsOrder(c, s);
      case EvClose(s, code, draw) => CloseKeepsOrder(c, s, code, draw);
      case EvMessage(s, frame) => MessageKeepsOrder(c, s, frame);
      case EvHandshakeTimeout(s) => TimeoutKeepsOrder(c, s);
      case EvAbortListener(s) => AbortListenerKeepsOrder(c, s);
      case EvReconnectTimer(preparation) => TimerKeepsOrder(c, preparation);
      case EvDisconnect => DisconnectKeepsOrder(c);
      case EvAbort => SharedEventKeepsOrder(c, e);
      case EvContinueSignal(_) => SharedEventKeepsOrder(c, e);
      case EvHeartbeat(_) => SharedEventKeepsOrder(c, e);
      case EvSend(_) => SharedEventKeepsOrder(c, e);
      case EvAdvance(_) => SharedEventKeepsOrder(c, e);
    }
  }

  lemma TimerKeepsOrder(c: Client, preparation: Preparation)
    requires Inv(c) && OrderOk(c) && Delivered(c, EvReconnectTimer(preparation))
    ensures OrderOk(Step(c, EvReconnectTimer(preparation)))
  {
  }

  lemma HandshakeKeepsOrder(c: Client, s: nat, result: HandshakeResult)
    requires Inv(c) && OrderOk(c) && Concerned(c, s) && !IsTerminal(c.sh, c.attempts[s]) && c.sh.signals == 0
    ensures OrderOk(c.With(s, HandleHandshakeResult(c.At(s), result)))
  {
    Localize(c, s);
    match result
    case HandshakeReady =>
    case HandshakeFailed(_) =>
  }

  lemma MessageKeepsOrder(c: Client, s: nat, frame: InFrame)
    requires Inv(c) && OrderOk(c) && Delivered(c, EvMessage(s, frame)) && c.sh.signals == 0
    ensures OrderOk(Step(c, EvMessage(s, frame)))
  {
    if IsTerminal(c.sh, c.attempts[s]) {
      Unmoved(c, s);
    } else if frame.HandshakeControl? || frame.InvalidHandshake? {
      HandshakeKeepsOrder(c, s, ProcessHandshake(frame));
    }
  }

  lemma CloseKeepsOrder(c: Client, s: nat, code: CloseCode, draw: Draw)
    requires Inv(c) && OrderOk(c) && Delivered(c, EvClose(s, code, draw)) && c.sh.signals == 0
    ensures OrderOk(Step(c, EvClose(s, code, draw)))
  {
    if IsTerminal(c.sh, c.attempts[s]) {
      Unmoved(c, s);
    } else {
      Localize(c, s);
      forall error, closeTransport | !c.attempts[s].cleaned
        ensures OrderOk(c.With(s, FailBeforeReady(c.At(s), error, closeTransport)))
        ensures OrderOk(c.With(s, FailAtRuntime(c.At(s), error))) {}
    }
  }

  lemma {:induction false} OrderlyRunIsPunctual(c: Client, events: seq<Event>)
    requires Inv(c) && OrderOk(c) && IsRun(c, events) && IsOrderlyRun(c, events)
    ensures IsPunctualRun(c, events)
    ensures Inv(Exec(c, events)) && OrderOk(Exec(c, events))
    decreases |events|
  {
    if events != [] {
      StepKeepsInv(c, events[0]);
      StepKeepsOrder(c, events[0]);
      OrderlyRunIsPunctual(Step(c, events[0]), events[1..]);
    }
  }

  /** A caller who does not connect while reconnecting keeps every window in budget. */
  lemma OrderlyCallerStaysInBudget(config: Config, events: seq<Event>)
    requires config.policy.maxElapsedMs > 0
    requires IsRun(InitialClient(config), events) && IsOrderlyRun(InitialClient(config), events)
    ensures Sum(Exec(InitialClient(config), events).sh.policy.granted) < config.policy.maxElapsedMs
  {
    InitialInv(config);
    OrderlyRunIsPunctual(InitialClient(config), events);
    WindowStaysInBudget(config, events);
  }

  /** On every orderly run a failed pre-ready attempt rejects connect() with the error the closed
      status carries: the active attempt always holds the current token. */
  lemma ConnectRejectsWithStatusError(config: Config, events: seq<Event>, e: Event, s: nat)
    requires config.policy.maxElapsedMs > 0
    requires IsRun(InitialClient(config), events) && IsOrderlyRun(InitialClient(config), events)
    requires Exec(InitialClient(config), events).sh.active == Some(s)
    requires Delivered(Exec(InitialClient(config), events), e) && CleanPreparation(e) && !e.EvDisconnect?
    ensures var after := Step(Exec(InitialClient(config), events), e);
      && s in after.attempts
      && (after.attempts[s].promise.Rejected? ==>
            after.sh.life.status == Closed(Some(after.attempts[s].promise.error)))
  {
    InitialInv(config);
    OrderlyRunIsPunctual(InitialClient(config), events);
    var c := Exec(InitialClient(config), events);
    assert AttemptOk(c.sh, s, c.attempts[s]);
    SettledOnce(c, e, s);
    if Step(c, e).attempts[s].promise.Rejected? {
      RejectionMatchesStatus(c, e, s);
    }
  }
}
