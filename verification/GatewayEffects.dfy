// What single events leave of a gateway client, where no result about whole runs says it: the transport, the
// timers, the policy and the errors kept for later.
module GatewayEffects {
  import opened Prelude
  import opened GatewayStatus
  import opened ReconnectPolicy
  import opened CloseDecision
  import opened GatewaySpec
  import opened GatewayInvariant
  import opened GatewayRuns

  // The attempt that opens, fails, times out or is aborted still counts: it is current and not over.
  predicate Counts(c: Client, s: nat) {
    s in c.attempts && !IsTerminal(c.sh, c.attempts[s])
  }

  // The frame ends an attempt's handshake badly.
  predicate Refuses(frame: InFrame) {
    frame.InvalidHandshake? || (frame.HandshakeControl? && !frame.kind.RegisterOk?)
  }

  // A started connect() opens the transport for its new session.
  predicate Opens(c: Client, preparation: Preparation) {
    !c.sh.life.status.Ready? && c.sh.active.None? && !c.aborted && preparation.Prepared?
  }

  // ---- The transport ----

  function OwnerAfter(c: Client, e: Event): Option<nat>
    requires !e.EvReconnectTimer?
  {
    match e
    case EvConnect(preparation) =>
      if Opens(c, preparation) then Some(c.sh.life.nextSessionId + 1) else c.sh.wire.owner
    case EvDisconnect => None
    case EvOpen(s, sendable) => if Counts(c, s) && !sendable then None else c.sh.wire.owner
    case EvMessage(s, frame) => if Counts(c, s) && Refuses(frame) then None else c.sh.wire.owner
    case EvHandshakeTimeout(_) => None
    case EvAbortListener(s) => if Counts(c, s) then None else c.sh.wire.owner
    case _ => c.sh.wire.owner
  }

  /** Who the transport is open for after an event: a started connect opens it; what the client itself gives up on
      (register cannot be sent, handshake refused or timed out, abort, disconnect) closes it; and a socket that
      closes, or any other event, leaves it to its owner. */
  lemma EventsMoveTheTransport(c: Client, e: Event)
    requires Inv(c) && Delivered(c, e) && !e.EvReconnectTimer?
    ensures Step(c, e).sh.wire.owner == OwnerAfter(c, e)
  {
    if e.EvOpen? || e.EvMessage? || e.EvClose? || e.EvHandshakeTimeout? || e.EvAbortListener? {
      AttemptMovesTheTransport(c, e);
    }
  }

  lemma AttemptMovesTheTransport(c: Client, e: Event)
    requires Inv(c) && Delivered(c, e)
    requires e.EvOpen? || e.EvMessage? || e.EvClose? || e.EvHandshakeTimeout? || e.EvAbortListener?
    ensures Step(c, e).sh.wire.owner == OwnerAfter(c, e)
  {
    match e
    case EvOpen(s, sendable) => OpenMovesOwner(c, s, sendable);
    case EvMessage(s, frame) => MessageMovesOwner(c.At(s), frame);
    case EvClose(s, code, draw) => CloseLeavesOwner(c.Context(), c.At(s), code, draw);
    case EvHandshakeTimeout(s) => GivingUpClosesOwner(c.At(s));
    case EvAbortListener(s) => GivingUpClosesOwner(c.At(s));
  }

  lemma GivingUpClosesOwner(p: Pair)
    ensures HandleHandshakeTimeout(p).sh.wire.owner.None?
    ensures HandleAbort(p).sh.wire.owner == if IsTerminal(p.sh, p.a) then p.sh.wire.owner else None
  {
  }

  lemma OpenMovesOwner(c: Client, s: nat, sendable: bool)
    requires Inv(c) && Delivered(c, EvOpen(s, sendable))
    ensures HandleOpen(c.Context(), c.At(s), sendable).sh.wire.owner ==
            if Counts(c, s) && !sendable then None else c.sh.wire.owner
  {
  }

  lemma MessageMovesOwner(p: Pair, frame: InFrame)
    ensures HandleMessage(p, frame).sh.wire.owner ==
            if !IsTerminal(p.sh, p.a) && Refuses(frame) then None else p.sh.wire.owner
  {
  }

  lemma CloseLeavesOwner(env: Env, p: Pair, code: CloseCode, draw: Draw)
    ensures HandleClose(env, p, code, draw).sh.wire.owner == p.sh.wire.owner
  {
    forall error
      ensures FailBeforeReady(p, error, false).sh.wire.owner == p.sh.wire.owner
      ensures FailAtRuntime(p, error).sh.wire.owner == p.sh.wire.owner {}
    assert HandleStopClose(env, p, code).sh.wire.owner == p.sh.wire.owner;
    WindowLeavesOwner(env, p, draw);
  }

  lemma WindowLeavesOwner(env: Env, p: Pair, draw: Draw)
    ensures HandleStartReconnectWindow(env, p, draw).sh.wire.owner == p.sh.wire.owner
  {
  }

  // ---- The abort signal ----

  /** On every run the client counts as aborted exactly once its signal has fired. */
  lemma {:induction false} AbortedExactly(c: Client, events: seq<Event>)
    requires IsRun(c, events)
    ensures Exec(c, events).aborted <==> c.aborted || EvAbort in events
    decreases |events|
  {
    if events != [] {
      AbortedExactly(Step(c, events[0]), events[1..]);
    }
  }

  // ---- The handshake timer and the socket's error ----

  predicate TimerOk(config: Config, a: Attempt) {
    a.handshakeTimer <==> a.phase.RegisterSent? && config.handshakeTimeoutMs > 0
  }

  predicate TimersOk(c: Client) {
    forall s :: s in c.attempts ==> TimerOk(c.config, c.attempts[s])
  }

  /** On every run the handshake timer of an attempt is armed exactly while the attempt has registered and waits for
      the answer, if a timeout is configured. */
  lemma TimerRunsWhileRegistered(config: Config, events: seq<Event>)
    requires config.policy.maxElapsedMs > 0 && IsRun(InitialClient(config), events)
    ensures var c := Exec(InitialClient(config), events);
            forall s :: s in c.attempts ==>
              (c.attempts[s].handshakeTimer <==> c.attempts[s].phase.RegisterSent? && config.handshakeTimeoutMs > 0)
  {
    InitialInv(config);
    RunKeepsTimers(InitialClient(config), events);
  }

  lemma {:induction false} RunKeepsTimers(c: Client, events: seq<Event>)
    requires Inv(c) && TimersOk(c) && IsRun(c, events)
    ensures TimersOk(Exec(c, events)) && Exec(c, events).config == c.config
    decreases |events|
  {
    if events != [] {
      StepKeepsInv(c, events[0]);
      StepKeepsTimers(c, events[0]);
      RunKeepsTimers(Step(c, events[0]), events[1..]);
    }
  }

  lemma StepKeepsTimers(c: Client, e: Event)
    requires Inv(c) && TimersOk(c) && Delivered(c, e)
    ensures TimersOk(Step(c, e)) && Step(c, e).config == c.config
  {
    match e
    case EvConnect(preparation) => ConnectKeepsTimers(c, false, preparation);
    case EvDisconnect => DisconnectKeepsTimers(c);
    case EvOpen(s, sendable) => OpenKeepsTimer(c, s, sendable);
    case EvError(s) => WithKeepsTimers(c, s, HandleError(c.At(s)));
    case EvMessage(s, frame) => MessageKeepsTimer(c, s, frame);
    case EvClose(s, code, draw) => CloseKeepsTimer(c, s, code, draw);
    case EvHandshakeTimeout(s) => TimeoutKeepsTimer(c, s);
    case EvAbortListener(s) => AbortKeepsTimer(c, s);
    case EvReconnectTimer(preparation) => RetryKeepsTimers(c, preparation);
    case _ => assert Step(c, e).attempts == c.attempts;
  }

  lemma ConnectKeepsTimers(c: Client, reconnectAttempt: bool, preparation: Preparation)
    requires TimersOk(c)
    ensures TimersOk(Connect(c, reconnectAttempt, preparation))
    ensures Connect(c, reconnectAttempt, preparation).config == c.config
  {
  }

  lemma RetryKeepsTimers(c: Client, preparation: Preparation)
    requires TimersOk(c) && c.sh.timer.Some?
    ensures TimersOk(FireReconnectTimer(c, preparation)) && FireReconnectTimer(c, preparation).config == c.config
  {
    var timer, fired := c.sh.timer.value, c.(sh := c.sh.(timer := None));
    var credited := Credited(fired.sh.policy, timer, fired.now);
    ConnectKeepsTimers(fired.(sh := fired.sh.(policy := credited.StartWindow(fired.now))), true, preparation);
  }

  lemma OpenKeepsTimer(c: Client, s: nat, sendable: bool)
    requires Inv(c) && TimersOk(c) && Delivered(c, EvOpen(s, sendable))
    ensures TimersOk(c.With(s, HandleOpen(c.Context(), c.At(s), sendable)))
  {
    assert TimerOk(c.config, HandleOpen(c.Context(), c.At(s), sendable).a);
  }

  lemma TimeoutKeepsTimer(c: Client, s: nat)
    requires Inv(c) && TimersOk(c) && Delivered(c, EvHandshakeTimeout(s))
    ensures TimersOk(c.With(s, HandleHandshakeTimeout(c.At(s))))
  {
    assert AttemptOk(c.sh, s, c.attempts[s]);
    assert TimerOk(c.config, HandleHandshakeTimeout(c.At(s)).a);
  }

  lemma AbortKeepsTimer(c: Client, s: nat)
    requires Inv(c) && TimersOk(c) && Delivered(c, EvAbortListener(s))
    ensures TimersOk(c.With(s, HandleAbort(c.At(s))))
  {
    assert AttemptOk(c.sh, s, c.attempts[s]);
    assert TimerOk(c.config, HandleAbort(c.At(s)).a);
  }

  lemma WithKeepsTimers(c: Client, s: nat, p: Pair)
    requires TimersOk(c) && s in c.attempts && TimerOk(c.config, p.a)
    ensures TimersOk(c.With(s, p))
  {
  }

  lemma DisconnectKeepsTimers(c: Client)
    requires Inv(c) && TimersOk(c)
    ensures TimersOk(Disconnect(c))
  {
    if c.sh.active.Some? && c.sh.active.value in c.attempts {
      assert AttemptOk(c.sh, c.sh.active.value, c.attempts[c.sh.active.value]);
    }
  }

  lemma MessageKeepsTimer(c: Client, s: nat, frame: InFrame)
    requires Inv(c) && TimersOk(c) && Delivered(c, EvMessage(s, frame))
    ensures TimersOk(c.With(s, HandleMessage(c.At(s), frame)))
  {
    assert AttemptOk(c.sh, s, c.attempts[s]);
    MessageKeepsItsTimer(c.config, c.At(s), frame);
    WithKeepsTimers(c, s, HandleMessage(c.At(s), frame));
  }

  lemma MessageKeepsItsTimer(config: Config, p: Pair, frame: InFrame)
    requires PhaseOk(p.a) && TimerOk(config, p.a)
    ensures TimerOk(config, HandleMessage(p, frame).a)
  {
  }

  lemma CloseKeepsTimer(c: Client, s: nat, code: CloseCode, draw: Draw)
    requires Inv(c) && TimersOk(c) && Delivered(c, EvClose(s, code, draw))
    ensures TimersOk(c.With(s, HandleClose(c.Context(), c.At(s), code, draw)))
  {
    assert AttemptOk(c.sh, s, c.attempts[s]);
    CloseKeepsItsTimer(c.config, c.Context(), c.At(s), code, draw);
    WithKeepsTimers(c, s, HandleClose(c.Context(), c.At(s), code, draw));
  }

  lemma CloseKeepsItsTimer(config: Config, env: Env, p: Pair, code: CloseCode, draw: Draw)
    requires PhaseOk(p.a) && TimerOk(config, p.a)
    ensures TimerOk(config, HandleClose(env, p, code, draw).a)
  {
    forall error
      ensures TimerOk(config, FailBeforeReady(p, error, false).a)
      ensures TimerOk(config, FailAtRuntime(p, error).a)
    {
      FailingEndsTheTimer(config, p, error);
    }
    assert TimerOk(config, HandleStopClose(env, p, code).a);
    assert TimerOk(config, HandleStartReconnectWindow(env, p, draw).a);
  }

  lemma FailingEndsTheTimer(config: Config, p: Pair, error: GatewayError)
    requires PhaseOk(p.a) && TimerOk(config, p.a)
    ensures TimerOk(config, FailBeforeReady(p, error, false).a) && TimerOk(config, FailAtRuntime(p, error).a)
  {
  }

  /** An error of the socket is kept, with the attempt's phase at that time, for the close that follows; the first
      one counts. */
  lemma SocketErrorIsKept(c: Client, s: nat)
    requires Inv(c) && Delivered(c, EvError(s))
    ensures var before, after := c.attempts[s], Step(c, EvError(s)).attempts[s];
            after == if !Counts(c, s) || before.pendingTransportError.Some? then before
                     else before.(pendingTransportError := Some(GatewayError(
                       TransportError, if before.phase.PhaseReady? then RuntimeFailure else StartupFailure, true)))
    ensures Step(c, EvError(s)).sh == c.sh
  {
    assert AttemptOk(c.sh, s, c.attempts[s]);
  }

  // ---- Planning a retry ----

  // The timer a granted delay sets, under the generation of the client.
  function Planned(c: Client, draw: Draw): Option<Timer> {
    var decision := c.sh.policy.DecideNext(c.config.policy, c.now, draw);
    if decision.Scheduled? then Some(Timer(c.sh.life.generation, c.now + decision.delayMs)) else None
  }

  /** A transient close of the ready attempt: the attempt is over with a transport error, the policy is asked for the
      next attempt, its delay sets the timer, and the listeners hear of reconnecting, and of exhaustion if there
      is no delay. */
  lemma TransientCloseStartsAWindow(c: Client, s: nat, code: int, draw: Draw)
    requires Inv(c) && Delivered(c, EvClose(s, Some(code), draw)) && IsReadyAttempt(c, s)
    requires !c.aborted && c.config.reconnectEnabled && code in {1006, 1012, 1013, 4408}
    ensures var after := Step(c, EvClose(s, Some(code), draw));
            var a, earlier := after.attempts[s], c.attempts[s].pendingTransportError;
            && after.sh.policy == c.sh.policy.AfterNext(c.config.policy, c.now, draw)
            && after.sh.timer == Planned(c, draw) && after.sh.signals == c.sh.signals && !after.sh.heartbeat
            && after.sh.life.emitted == c.sh.life.emitted + [Reconnecting, Reconnecting] +
                 (if Planned(c, draw).Some? then [] else [Closed(Some(EXHAUSTED_ERROR))])
            && a.phase.Terminal? && a.promise == c.attempts[s].promise
            && a.terminalError ==
               Some(GatewayError(TransportError, RuntimeFailure, earlier.None? || earlier.value.retryable))
  {
    assert AttemptOk(c.sh, s, c.attempts[s]);
  }

  /** A caught continue signal: the policy is asked for the next attempt and its delay sets the timer, also after a
      disconnect; the listeners hear of reconnecting unless the caller has disconnected, and of exhaustion. */
  lemma CaughtSignalPlansTheNext(c: Client, draw: Draw)
    requires Inv(c) && Delivered(c, EvContinueSignal(draw)) && !c.aborted
    ensures var after := Step(c, EvContinueSignal(draw));
            && after.sh.policy == c.sh.policy.AfterNext(c.config.policy, c.now, draw)
            && after.sh.timer == Planned(c, draw) && after.sh.signals == c.sh.signals - 1
            && after.attempts == c.attempts && after.sh.wire == c.sh.wire
            && after.sh.life.emitted == c.sh.life.emitted
                 + (if c.sh.life.manuallyDisconnected then [] else [Reconnecting])
                 + (if Planned(c, draw).Some? then [] else [Closed(Some(EXHAUSTED_ERROR))])
  {
  }

  // How much of a timer's lateness is taken for sleep.
  function Slept(c: Client, timer: Timer): int {
    if c.now - timer.fireAt > 60_000 then c.now - timer.fireAt else 0
  }

  // The window a firing timer goes on with, and whether its budget is used up.
  function Start(c: Client): int {
    if c.sh.policy.windowStartedAt.Some? then c.sh.policy.windowStartedAt.value else c.now
  }

  predicate Spent(c: Client, timer: Timer) {
    Used(Start(c), c.sh.policy.suspendedMs + Slept(c, timer), c.now) >= c.config.policy.maxElapsedMs
  }

  // Making the retry: nothing if the client is ready or connecting anyway.
  lemma RetryConnects(c: Client, preparation: Preparation)
    requires !c.aborted && CleanPreparation(EvReconnectTimer(preparation))
    ensures var after := Connect(c, true, preparation);
            var busy := c.sh.life.status.Ready? || c.sh.active.Some?;
            var next := c.sh.life.nextSessionId + 1;
            && after.sh.timer == c.sh.timer && after.sh.signals == c.sh.signals && after.sh.policy == c.sh.policy
            && after.sh.life.emitted == c.sh.life.emitted
                 + (if busy then []
                    else if preparation.PrepareFailed? then [Reconnecting, Closed(Some(preparation.error))]
                    else [Reconnecting])
            && (if busy || preparation.PrepareFailed? then
                  after.attempts == c.attempts && after.sh.wire == c.sh.wire
                else
                  && after.sh.wire.owner == Some(next) && after.sh.active == Some(next)
                  && after.sh.wire.opens == c.sh.wire.opens + 1
                  && next in after.attempts && after.attempts[next].reconnectAttempt
                  && after.attempts[next].promise.Pending? && after.sh.life.IsCurrent(after.attempts[next].token))
  {
  }

  /** A timer that fires on an unaborted client: sleep is credited to its window, and if the budget is used up by
      then, the client is closed as exhausted; else, unless the client is ready or connecting anyway, a retry
      is made, which opens the transport under the next session id if its preparation succeeds. */
  lemma FiredTimerRetries(c: Client, preparation: Preparation)
    requires Inv(c) && Delivered(c, EvReconnectTimer(preparation)) && !c.aborted && !c.sh.life.manuallyDisconnected
    requires CleanPreparation(EvReconnectTimer(preparation))
    ensures var timer, after := c.sh.timer.value, Step(c, EvReconnectTimer(preparation));
            var busy := c.sh.life.status.Ready? || c.sh.active.Some?;
            var next := c.sh.life.nextSessionId + 1;
            && after.sh.timer.None? && after.sh.signals == c.sh.signals
            && after.sh.policy == c.sh.policy.(windowStartedAt := Some(Start(c)),
                                               suspendedMs := c.sh.policy.suspendedMs + Slept(c, timer))
            && after.sh.life.emitted == c.sh.life.emitted
                 + (if Spent(c, timer) then [Closed(Some(EXHAUSTED_ERROR))]
                    else if busy then []
                    else if preparation.PrepareFailed? then [Reconnecting, Closed(Some(preparation.error))]
                    else [Reconnecting])
            && (if Spent(c, timer) || busy || preparation.PrepareFailed? then
                  after.attempts == c.attempts && after.sh.wire == c.sh.wire
                else
                  && after.sh.wire.owner == Some(next) && after.sh.active == Some(next)
                  && after.sh.wire.opens == c.sh.wire.opens + 1
                  && next in after.attempts && after.attempts[next].reconnectAttempt
                  && after.attempts[next].promise.Pending? && after.sh.life.IsCurrent(after.attempts[next].token))
  {
    var timer, fired := c.sh.timer.value, c.(sh := c.sh.(timer := None));
    var credited := Credited(c.sh.policy, timer, c.now);
    var checked := fired.(sh := fired.sh.(policy := credited.StartWindow(c.now)));
    assert credited.IsExhausted(c.config.policy, c.now) == Spent(c, timer);
    if !Spent(c, timer) {
      RetryConnects(checked, preparation);
      assert Step(c, EvReconnectTimer(preparation)) == Connect(checked, true, preparation);
    }
  }

  /** A public connect of a client that is neither ready nor connecting: aborted, or with a failing preparation, it
      ends closed; else it makes an attempt that is no retry and opens the transport for it. */
  lemma ConnectStartsOrCloses(c: Client, preparation: Preparation)
    requires Inv(c) && Delivered(c, EvConnect(preparation)) && CleanPreparation(EvConnect(preparation))
    ensures var after := Step(c, EvConnect(preparation));
            var next := c.sh.life.nextSessionId + 1;
            if c.sh.life.status.Ready? || c.sh.active.Some? then after == c
            else
              && after.sh.life.nextSessionId == next && !after.sh.life.manuallyDisconnected
              && after.sh.policy == c.sh.policy && after.sh.timer == c.sh.timer
              && after.sh.life.emitted == c.sh.life.emitted
                   + (if c.aborted then [Connecting, Closed(Some(ABORT_ERROR))]
                      else if preparation.PrepareFailed? then [Connecting, Closed(Some(preparation.error))]
                      else [Connecting])
              && (if Opens(c, preparation) then
                    && after.sh.wire.owner == Some(next) && after.sh.active == Some(next)
                    && after.sh.wire.opens == c.sh.wire.opens + 1
                    && next in after.attempts && !after.attempts[next].reconnectAttempt
                    && after.attempts[next].promise.Pending? && after.attempts[next].abortListening
                    && after.sh.life.IsCurrent(after.attempts[next].token)
                  else after.attempts == c.attempts && after.sh.wire == c.sh.wire && after.sh.active.None?)
  {
  }
}
