// When a continue signal caught after disconnect() changes the error of the closed status.
module LateSignal {
  import opened Prelude
  import opened GatewayStatus
  import opened ReconnectPolicy
  import opened CloseDecision
  import opened GatewaySpec
  import opened GatewayInvariant
  import opened GatewayRuns
  import opened ReconnectOverspend

  // Reconnect is enabled, and a first delay can be granted.
  predicate CanRetry(config: Config) {
    && config.reconnectEnabled
    && (if config.policy.fullJitter then config.policy.maxElapsedMs > 0
        else Cap(config.policy, 1) < config.policy.maxElapsedMs)
  }

  // Closed by the caller, with a continue signal still to be caught that will turn the error into another one.
  ghost predicate ManualThenExhausted(c: Client, draw: Draw) {
    && ShutDown(c) && c.sh.life.status == Closed(Some(MANUAL_ERROR)) && Delivered(c, EvContinueSignal(draw))
    && Step(c, EvContinueSignal(draw)).sh.life.status == Closed(Some(EXHAUSTED_ERROR))
  }

  ghost predicate LateSignalOn(config: Config, events: seq<Event>, draw: Draw) {
    && IsRun(InitialClient(config), events)
    && ManualThenExhausted(Exec(InitialClient(config), events), draw)
  }

  // The budget is used up, and a failed retry's continue signal is still to be caught.
  predicate SpentInTheGap(c: Client) {
    && c.config.reconnectEnabled && !c.aborted && c.sh.signals > 0 && c.sh.active.None?
    && c.sh.policy.IsExhausted(c.config.policy, c.now)
  }

  lemma DisconnectInTheGap(c: Client, draw: Draw)
    requires SpentInTheGap(c)
    ensures ManualThenExhausted(Disconnect(c), draw)
  {
    LateSignalChangesTheCode(Disconnect(c), draw);
  }

  lemma SpentRetry(config: Config) returns (run: seq<Event>)
    requires config.policy.maxElapsedMs > 0 && CanRetry(config)
    ensures IsRun(InitialClient(config), run) && SpentInTheGap(Exec(InitialClient(config), run))
  {
    var start := InitialClient(config);
    var delay := if config.policy.fullJitter then 0 else Cap(config.policy, 1);
    run := FirstDrop(config, delay);
    var next := FailedRetry(Exec(start, run), 1, config.policy.maxElapsedMs);
    RunConcat(start, run, next);
    run := run + next;
  }

  /** Connect, lose the connection, let the retry take until the budget is used up and fail, and disconnect
      before its continue signal is caught. */
  lemma LateSignalIsReached(config: Config, draw: Draw) returns (run: seq<Event>)
    requires config.policy.maxElapsedMs > 0 && CanRetry(config)
    ensures LateSignalOn(config, run, draw)
  {
    run := SpentRetry(config);
    DisconnectInTheGap(Exec(InitialClient(config), run), draw);
    run := Then(InitialClient(config), run, EvDisconnect);
  }

  // ---- Where no delay is ever granted ----

  predicate Untried(p: Pair) {
    p.sh.timer.None? && p.sh.signals == 0 && !p.a.reconnectAttempt
  }

  ghost predicate NeverRetried(c: Client) {
    && !CanRetry(c.config) && c.sh.timer.None? && c.sh.signals == 0
    && forall s :: s in c.attempts ==> !c.attempts[s].reconnectAttempt
  }

  lemma NoDelayFits(config: Config, policy: Policy, now: int, draw: Draw)
    requires config.reconnectEnabled && !CanRetry(config)
    ensures policy.DecideNext(config.policy, now, draw).Exhausted?
  {
    CapIsMonotone(config.policy, 1, policy.attempt + 1);
  }

  lemma FailStaysUntried(p: Pair, error: GatewayError, closeTransport: bool)
    requires Untried(p)
    ensures Untried(FailBeforeReady(p, error, closeTransport)) && Untried(FailAtRuntime(p, error))
  {
  }

  lemma StartWindowStaysUntried(env: Env, p: Pair, draw: Draw)
    requires Untried(p) && !CanRetry(env.config)
    ensures Untried(HandleStartReconnectWindow(env, p, draw))
  {
    var a := CommitTerminalError(p.a,
               ResolveTransportTerminalError(p.a, GatewayError(TransportError, RuntimeFailure, true)));
    var left := EnterTerminal(Pair(p.sh.(life := p.sh.life.MarkReconnectingIfCurrent(a.token)), a));
    if env.config.reconnectEnabled {
      NoDelayFits(env.config, left.sh.policy, env.now, draw);
    }
  }

  lemma CloseStaysUntried(env: Env, p: Pair, code: CloseCode, draw: Draw)
    requires Untried(p) && !CanRetry(env.config)
    ensures Untried(HandleClose(env, p, code, draw))
  {
    forall error
      ensures Untried(FailBeforeReady(p, error, false)) && Untried(FailAtRuntime(p, error))
    {
      FailStaysUntried(p, error, false);
    }
    assert Untried(HandleStopClose(env, p, code));
    StartWindowStaysUntried(env, p, draw);
  }

  lemma MessageStaysUntried(p: Pair, frame: InFrame)
    requires Untried(p)
    ensures Untried(HandleMessage(p, frame))
  {
    if frame.HandshakeControl? || frame.InvalidHandshake? {
      var result := ProcessHandshake(frame);
      if result.HandshakeFailed? {
        FailStaysUntried(p, result.error, true);
      }
    }
  }

  // Open, error, handshake timeout and abort of one attempt.
  lemma AttemptEventStaysUntried(env: Env, p: Pair, sendable: bool)
    requires Untried(p)
    ensures Untried(HandleOpen(env, p, sendable)) && Untried(HandleError(p))
    ensures Untried(HandleHandshakeTimeout(p)) && Untried(HandleAbort(p))
  {
    FailStaysUntried(Pair(p.sh, p.a.(didOpen := true)),
                     GatewayError(ConnectParameterInvalid, StartupFailure, false), true);
    FailStaysUntried(p, GatewayError(HandshakeTimeout, StartupFailure, true), true);
    AbortStaysUntried(p);
  }

  lemma AbortStaysUntried(p: Pair)
    requires Untried(p)
    ensures Untried(HandleAbort(p))
  {
  }

  lemma DisconnectNeverRetries(c: Client)
    requires NeverRetried(c)
    ensures NeverRetried(Disconnect(c)) && Disconnect(c).config == c.config
  {
  }

  lemma StepNeverRetries(c: Client, e: Event)
    requires NeverRetried(c) && Possible(c, e)
    ensures NeverRetried(Step(c, e)) && Step(c, e).config == c.config
  {
    StepKeepsConfig(c, e);
    match e {
      case EvOpen(s, sendable) => AttemptEventStaysUntried(c.Context(), c.At(s), sendable);
      case EvError(s) => AttemptEventStaysUntried(c.Context(), c.At(s), true);
      case EvHandshakeTimeout(s) => AttemptEventStaysUntried(c.Context(), c.At(s), true);
      case EvAbortListener(s) => AttemptEventStaysUntried(c.Context(), c.At(s), true);
      case EvClose(s, code, draw) => CloseStaysUntried(c.Context(), c.At(s), code, draw);
      case EvMessage(s, frame) => MessageStaysUntried(c.At(s), frame);
      case EvDisconnect => DisconnectNeverRetries(c);
      case EvReconnectTimer(_) =>
      case EvContinueSignal(_) =>
      case EvConnect(_) =>
      case EvAbort =>
      case EvHeartbeat(_) =>
      case EvSend(_) =>
      case EvAdvance(_) =>
    }
  }

  lemma {:induction false} RunNeverRetries(c: Client, events: seq<Event>)
    requires NeverRetried(c) && IsRun(c, events)
    ensures NeverRetried(Exec(c, events))
    decreases |events|
  {
    if events != [] {
      StepNeverRetries(c, events[0]);
      RunNeverRetries(Step(c, events[0]), events[1..]);
    }
  }

  /** Some run ends closed by the caller with a late signal that replaces the error, if and only if reconnect is
      enabled and a first delay fits the budget. */
  lemma {:induction false} LateSignalHappensExactly(config: Config)
    requires config.policy.maxElapsedMs > 0
    ensures CanRetry(config) <==> exists events, draw :: LateSignalOn(config, events, draw)
  {
    if CanRetry(config) {
      var run := LateSignalIsReached(config, 0.0);
      assert LateSignalOn(config, run, 0.0);
    } else {
      forall events, draw ensures !LateSignalOn(config, events, draw) {
        if IsRun(InitialClient(config), events) {
          RunNeverRetries(InitialClient(config), events);
        }
      }
    }
  }
}
