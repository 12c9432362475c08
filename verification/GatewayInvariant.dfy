// What every reachable client state satisfies, over all interleavings of API calls, transport
// callbacks, timers, aborts and continue signals.
module GatewayInvariant {
  import opened Prelude
  import opened GatewayStatus
  import opened ReconnectPolicy
  import opened CloseDecision
  import opened GatewaySpec

  /** Delivery assumptions: a socket opens once and before its messages, and a rejected continue
      signal is caught before the caller can start another public connect. */
  predicate Delivered(c: Client, e: Event) {
    && Possible(c, e)
    && match e
       case EvOpen(s, _) => !c.attempts[s].didOpen
       case EvMessage(s, _) => IsTerminal(c.sh, c.attempts[s]) || c.attempts[s].didOpen
       case EvConnect(_) => c.sh.signals == 0
       case _ => true
  }

  // The URL parser and the auth callback raise no diagnostic error.
  predicate CleanPreparation(e: Event) {
    && (e.EvConnect? && e.preparation.PrepareFailed? ==> ClosedAccepts(e.preparation.error))
    && (e.EvReconnectTimer? && e.preparation.PrepareFailed? ==> ClosedAccepts(e.preparation.error))
  }

  // ---- The invariant ----

  // register (business | heartbeat)*
  predicate RegisterFirst(frames: seq<OutFrame>) {
    && (frames != [] ==> frames[0] == Register)
    && (forall i :: 1 <= i < |frames| ==> frames[i] != Register)
  }

  predicate FramesOk(a: Attempt, frames: seq<OutFrame>) {
    && RegisterFirst(frames)
    && (a.phase.TransportOpening? ==> frames == [])
    && (a.phase.RegisterSent? ==> frames == [Register])
    && (a.phase.PhaseReady? ==> frames != [])
    && (|frames| > 1 ==> a.promise.Resolved?)
  }

  predicate ErrorsOk(a: Attempt) {
    && (a.terminalError.Some? ==> ClosedAccepts(a.terminalError.value))
    && (a.pendingTransportError.Some? ==>
          a.pendingTransportError.value.code == TransportError && ClosedAccepts(a.pendingTransportError.value))
    && (a.promise.Rejected? ==> ClosedAccepts(a.promise.error))
  }

  predicate PhaseOk(a: Attempt) {
    && (a.connectSettled <==> a.promise.Resolved? || a.promise.Rejected?)
    && (a.cleaned <==> a.phase.Terminal?)
    && (a.promise.Pending? ==> (a.phase.TransportOpening? || a.phase.RegisterSent?) && a.terminalError.None?)
    && (!a.promise.Pending? ==> a.phase.PhaseReady? || a.phase.Terminal?)
    && (a.phase.PhaseReady? ==> a.promise.Resolved? && a.terminalError.None?)
    && (a.handshakeTimer || a.abortListening ==> a.promise.Pending?)
    && (a.phase.TransportOpening? ==> !a.didOpen)
    && (a.phase.RegisterSent? || a.phase.PhaseReady? ==> a.didOpen)
  }

  predicate StandingOk(sh: Shared, s: nat, a: Attempt) {
    && a.token.sessionId == s && 1 <= s <= sh.life.nextSessionId
    && a.token.generation <= sh.life.generation
    && (a.promise.Pending? <==> sh.active == Some(s))
    && (a.promise.Pending? ==> sh.life.IsCurrent(a.token) || sh.life.status.Closed?)
    && (a.promise.Pending? && a.reconnectAttempt ==>
          sh.timer.None? && sh.signals == 0 && (sh.life.IsCurrent(a.token) ==> sh.life.status.Reconnecting?))
    && (sh.life.IsCurrent(a.token) && a.phase.PhaseReady? ==> sh.life.status.Ready?)
    && (sh.life.IsCurrent(a.token) && a.phase.Terminal? ==> sh.life.status.Reconnecting?)
  }

  predicate AttemptOk(sh: Shared, s: nat, a: Attempt) {
    && PhaseOk(a) && ErrorsOk(a) && StandingOk(sh, s, a)
    && s in sh.wire.sent && FramesOk(a, sh.wire.sent[s])
  }

  predicate AttemptsOk(c: Client) {
    forall s :: s in c.attempts ==> AttemptOk(c.sh, s, c.attempts[s])
  }

  predicate SessionOk(c: Client) {
    var life := c.sh.life;
    && !life.threw
    && (life.activeSessionId.None? <==> life.status.Closed?)
    && (life.manuallyDisconnected ==> life.status.Closed?)
    && (life.activeSessionId.Some? ==>
          var x := life.activeSessionId.value;
          && x == life.nextSessionId && x in c.attempts && life.IsCurrent(c.attempts[x].token)
          && (life.status.Ready? ==> c.attempts[x].phase.PhaseReady?)
          && (life.status.Connecting? ==> c.sh.active == Some(x))
          && (c.sh.wire.owner.Some? ==> c.sh.wire.owner == Some(x)))
  }

  predicate SharedOk(c: Client) {
    && (c.sh.active.Some? ==> c.sh.active.value in c.attempts)
    && (c.sh.wire.owner.Some? ==> c.sh.wire.owner.value in c.attempts)
    && (c.sh.heartbeat <==> c.sh.life.status.Ready?)
    && c.sh.policy.suspendedMs >= 0
    && c.config.policy.maxElapsedMs > 0
  }

  predicate ReconnectOk(c: Client) {
    && (c.sh.timer.Some? ==> c.sh.timer.value.generation == c.sh.life.generation && c.config.reconnectEnabled)
    && (c.sh.timer.Some? && c.sh.life.status.Ready? ==> c.sh.policy.windowStartedAt.None?)
    && c.sh.signals <= 1
    && (c.sh.signals > 0 ==>
          && c.sh.timer.None? && c.sh.active.None? && c.config.reconnectEnabled
          && (c.sh.life.status.Reconnecting? || c.sh.life.manuallyDisconnected))
    && (c.sh.life.status.Reconnecting? && !c.aborted ==>
          c.sh.timer.Some? || c.sh.active.Some? || c.sh.signals > 0)
  }

  predicate Inv(c: Client) {
    SessionOk(c) && SharedOk(c) && ReconnectOk(c) && AttemptsOk(c)
  }

  lemma InitialInv(config: Config)
    requires config.policy.maxElapsedMs > 0
    ensures Inv(InitialClient(config))
  {
  }

  // ---- Preservation ----

  /** The part of the invariant that concerns attempt `p.a` while it is, or has just ceased to be,
      the current one. */
  predicate Local(config: Config, aborted: bool, p: Pair) {
    var s, life := p.a.token.sessionId, p.sh.life;
    && AttemptOk(p.sh, s, p.a)
    && !life.threw
    && (life.activeSessionId.None? <==> life.status.Closed?)
    && (life.manuallyDisconnected ==> life.status.Closed?)
    && (life.activeSessionId.Some? ==> LocalSession(p))
    && (p.sh.active == None || p.sh.active == Some(s))
    && (p.sh.heartbeat <==> life.status.Ready?)
    && p.sh.policy.suspendedMs >= 0
    && LocalReconnect(config, aborted, p.sh)
  }

  predicate LocalSession(p: Pair) {
    var s, life := p.a.token.sessionId, p.sh.life;
    && s == life.nextSessionId && life.IsCurrent(p.a.token)
    && (life.status.Ready? ==> p.a.phase.PhaseReady?)
    && (life.status.Connecting? ==> p.sh.active == Some(s))
    && (p.sh.wire.owner.Some? ==> p.sh.wire.owner == Some(s))
  }

  predicate LocalReconnect(config: Config, aborted: bool, sh: Shared) {
    && (sh.timer.Some? ==> sh.timer.value.generation == sh.life.generation && config.reconnectEnabled)
    && (sh.timer.Some? && sh.life.status.Ready? ==> sh.policy.windowStartedAt.None?)
    && sh.signals <= 1
    && (sh.signals > 0 ==>
          && sh.timer.None? && sh.active.None? && config.reconnectEnabled
          && (sh.life.status.Reconnecting? || sh.life.manuallyDisconnected))
    && (sh.life.status.Reconnecting? && !aborted ==> sh.timer.Some? || sh.active.Some? || sh.signals > 0)
  }

  // What an event on session `s` leaves alone for every other attempt.
  predicate Framed(before: Shared, after: Shared, s: nat) {
    && after.life.nextSessionId == before.life.nextSessionId
    && after.life.generation == before.life.generation
    && after.wire.sent.Keys == before.wire.sent.Keys
    && (forall t :: t in before.wire.sent && t != s ==> after.wire.sent[t] == before.wire.sent[t])
    && (after.wire.owner == before.wire.owner || after.wire.owner == None)
  }

  // The attempts whose events still have an effect.
  predicate Concerned(c: Client, s: nat) {
    s in c.attempts && (c.sh.life.IsCurrent(c.attempts[s].token) || c.sh.active == Some(s))
  }

  // The invariant with attempt `s` singled out, and back.
  lemma Localize(c: Client, s: nat)
    requires Inv(c) && Concerned(c, s)
    ensures Local(c.config, c.aborted, c.At(s))
  {
    assert AttemptOk(c.sh, s, c.attempts[s]);
    if c.sh.active.Some? {
      assert AttemptOk(c.sh, c.sh.active.value, c.attempts[c.sh.active.value]);
    }
  }

  lemma Lift(c: Client, s: nat, p: Pair)
    requires Inv(c) && Concerned(c, s)
    requires p.a.token == c.attempts[s].token
    requires Local(c.config, c.aborted, p) && Framed(c.sh, p.sh, s)
    ensures Inv(c.With(s, p))
  {
    Localize(c, s);
    var after := c.With(s, p);
    forall t | t in after.attempts ensures AttemptOk(after.sh, t, after.attempts[t]) {
      if t != s {
        assert AttemptOk(c.sh, t, c.attempts[t]);
      }
    }
  }

  // A stale or finished attempt ignores its callbacks.
  lemma Unmoved(c: Client, s: nat)
    requires s in c.attempts
    ensures c.With(s, c.At(s)) == c
  {
    assert c.attempts[s := c.attempts[s]] == c.attempts;
  }

  lemma FailKeepsLocal(config: Config, aborted: bool, p: Pair, error: GatewayError, closeTransport: bool)
    requires Local(config, aborted, p) && ClosedAccepts(error)
    requires !p.a.cleaned && p.a.terminalError.None?
    requires p.sh.life.IsCurrent(p.a.token) || p.sh.life.status.Closed?
    ensures var q := FailBeforeReady(p, error, closeTransport);
      && Local(config, aborted, q) && Framed(p.sh, q.sh, p.a.token.sessionId) && q.a.token == p.a.token
  {
  }

  lemma FailAtRuntimeKeepsLocal(config: Config, aborted: bool, p: Pair, error: GatewayError)
    requires Local(config, aborted, p) && ClosedAccepts(error)
    requires p.sh.life.IsCurrent(p.a.token) && p.a.phase.PhaseReady?
    ensures var q := FailAtRuntime(p, error);
      && Local(config, aborted, q) && Framed(p.sh, q.sh, p.a.token.sessionId) && q.a.token == p.a.token
  {
  }

  lemma OpenKeepsLocal(c: Client, s: nat, sendable: bool)
    requires Inv(c) && Concerned(c, s) && Delivered(c, EvOpen(s, sendable)) && !IsTerminal(c.sh, c.attempts[s])
    ensures var q := HandleOpen(c.Context(), c.At(s), sendable);
            Local(c.config, c.aborted, q) && Framed(c.sh, q.sh, s) && q.a.token == c.attempts[s].token
  {
    Localize(c, s);
    if !(sendable && c.sh.wire.owner.Some?) {
      FailKeepsLocal(c.config, c.aborted, c.At(s), GatewayError(ConnectParameterInvalid, StartupFailure, false), true);
    }
  }

  lemma {:induction false} OpenKeepsInv(c: Client, s: nat, sendable: bool)
    requires Inv(c) && Delivered(c, EvOpen(s, sendable))
    ensures Inv(Step(c, EvOpen(s, sendable)))
  {
    if IsTerminal(c.sh, c.attempts[s]) {
      Unmoved(c, s);
    } else {
      OpenKeepsLocal(c, s, sendable);
      Lift(c, s, HandleOpen(c.Context(), c.At(s), sendable));
    }
  }

  lemma ErrorKeepsInv(c: Client, s: nat)
    requires Inv(c) && Delivered(c, EvError(s))
    ensures Inv(Step(c, EvError(s)))
  {
    if IsTerminal(c.sh, c.attempts[s]) {
      Unmoved(c, s);
    } else {
      Localize(c, s);
      Lift(c, s, HandleError(c.At(s)));
    }
  }

  lemma ScheduleKeepsLocal(config: Config, aborted: bool, now: int, p: Pair, draw: Draw)
    requires AttemptOk(p.sh, p.a.token.sessionId, p.a) && p.a.phase.Terminal?
    requires p.sh.life.status.Reconnecting? && p.sh.life.IsCurrent(p.a.token) && !p.sh.life.threw
    requires LocalSession(p) && !p.sh.life.manuallyDisconnected
    requires p.sh.active == None && !p.sh.heartbeat && p.sh.timer.None? && p.sh.signals == 0
    requires p.sh.policy.suspendedMs >= 0 && !aborted && config.reconnectEnabled
    ensures var q := Pair(ScheduleReconnect(Env(config, now, aborted), p.sh, draw), p.a);
      Local(config, aborted, q) && Framed(p.sh, q.sh, p.a.token.sessionId)
  {
  }

  lemma StartWindowKeepsLocal(config: Config, aborted: bool, now: int, p: Pair, draw: Draw)
    requires Local(config, aborted, p) && p.sh.life.IsCurrent(p.a.token) && p.a.phase.PhaseReady?
    requires !aborted && config.reconnectEnabled
    ensures var q := HandleStartReconnectWindow(Env(config, now, aborted), p, draw);
      && Local(config, aborted, q) && Framed(p.sh, q.sh, p.a.token.sessionId) && q.a.token == p.a.token
  {
    var a := CommitTerminalError(p.a,
               ResolveTransportTerminalError(p.a, GatewayError(TransportError, RuntimeFailure, true)));
    var left := EnterTerminal(Pair(p.sh.(life := p.sh.life.MarkReconnectingIfCurrent(a.token)), a));
    ScheduleKeepsLocal(config, aborted, now, left, draw);
  }

  // The error a stopping close gives an attempt that is not ready.
  function StopError(env: Env, p: Pair, code: CloseCode): GatewayError {
    if p.sh.life.manuallyDisconnected || env.aborted then ABORT_ERROR
    else if !p.a.didOpen && IsRejectedCloseCode(code) then GatewayError(AuthRejected, StartupFailure, false)
    else ResolveTransportTerminalError(
        p.a, GatewayError(TransportError, StartupFailure, !p.a.didOpen || !IsRejectedCloseCode(code)))
  }

  lemma StopIsFailure(env: Env, p: Pair, code: CloseCode)
    requires !p.a.phase.PhaseReady?
    ensures HandleStopClose(env, p, code) == FailBeforeReady(p, StopError(env, p, code), false)
  {
  }

  lemma StopBeforeReadyKeepsLocal(env: Env, p: Pair, code: CloseCode)
    requires Local(env.config, env.aborted, p) && !IsTerminal(p.sh, p.a) && !p.a.phase.PhaseReady?
    ensures var q := HandleStopClose(env, p, code);
      && Local(env.config, env.aborted, q) && Framed(p.sh, q.sh, p.a.token.sessionId) && q.a.token == p.a.token
  {
    var error := StopError(env, p, code);
    StopIsFailure(env, p, code);
    FailKeepsLocal(env.config, env.aborted, p, error, false);
  }

  lemma StopAtRuntimeKeepsLocal(env: Env, p: Pair, code: CloseCode)
    requires Local(env.config, env.aborted, p) && !IsTerminal(p.sh, p.a) && p.a.phase.PhaseReady?
    ensures var q := HandleStopClose(env, p, code);
      && Local(env.config, env.aborted, q) && Framed(p.sh, q.sh, p.a.token.sessionId) && q.a.token == p.a.token
  {
    forall error | ClosedAccepts(error)
      ensures var q := FailAtRuntime(p, error);
        Local(env.config, env.aborted, q) && Framed(p.sh, q.sh, p.a.token.sessionId) && q.a.token == p.a.token
    {
      FailAtRuntimeKeepsLocal(env.config, env.aborted, p, error);
    }
  }

  lemma {:induction false} CloseKeepsInv(c: Client, s: nat, code: CloseCode, draw: Draw)
    requires Inv(c) && Delivered(c, EvClose(s, code, draw))
    ensures Inv(Step(c, EvClose(s, code, draw)))
  {
    if IsTerminal(c.sh, c.attempts[s]) {
      Unmoved(c, s);
    } else {
      Localize(c, s);
      var p, env := c.At(s), c.Context();
      match EvaluateReconnectOnClose(code, p.sh.life.manuallyDisconnected, env.aborted,
                                     env.config.reconnectEnabled, p.a.reconnectAttempt, p.a.phase) {
        case ContinueWindow =>
        case StartWindow => StartWindowKeepsLocal(c.config, c.aborted, c.now, p, draw);
        case Stop =>
          if p.a.phase.PhaseReady? {
            StopAtRuntimeKeepsLocal(env, p, code);
          } else {
            StopBeforeReadyKeepsLocal(env, p, code);
          }
      }
      Lift(c, s, HandleClose(env, p, code, draw));
    }
  }

  lemma HandshakeKeepsLocal(config: Config, aborted: bool, p: Pair, frame: InFrame)
    requires Local(config, aborted, p) && !IsTerminal(p.sh, p.a) && p.a.didOpen
    requires frame.HandshakeControl? || frame.InvalidHandshake?
    ensures var q := HandleHandshakeResult(p, ProcessHandshake(frame));
      && Local(config, aborted, q) && Framed(p.sh, q.sh, p.a.token.sessionId) && q.a.token == p.a.token
  {
    var result := ProcessHandshake(frame);
    if result.HandshakeFailed? {
      FailKeepsLocal(config, aborted, p, result.error, true);
    }
  }

  lemma OtherFrameKeepsLocal(config: Config, aborted: bool, p: Pair, frame: InFrame)
    requires Local(config, aborted, p) && !frame.HandshakeControl? && !frame.InvalidHandshake?
    ensures var q := HandleMessage(p, frame);
      && Local(config, aborted, q) && Framed(p.sh, q.sh, p.a.token.sessionId) && q.a.token == p.a.token
  {
  }

  lemma {:induction false} MessageKeepsInv(c: Client, s: nat, frame: InFrame)
    requires Inv(c) && Delivered(c, EvMessage(s, frame))
    ensures Inv(Step(c, EvMessage(s, frame)))
  {
    if IsTerminal(c.sh, c.attempts[s]) {
      Unmoved(c, s);
    } else {
      Localize(c, s);
      var p := c.At(s);
      if frame.HandshakeControl? || frame.InvalidHandshake? {
        HandshakeKeepsLocal(c.config, c.aborted, p, frame);
        Lift(c, s, HandleHandshakeResult(p, ProcessHandshake(frame)));
      } else {
        OtherFrameKeepsLocal(c.config, c.aborted, p, frame);
        Lift(c, s, HandleMessage(p, frame));
      }
    }
  }

  lemma {:induction false} HandshakeTimeoutKeepsInv(c: Client, s: nat)
    requires Inv(c) && Delivered(c, EvHandshakeTimeout(s))
    ensures Inv(Step(c, EvHandshakeTimeout(s)))
  {
    assert AttemptOk(c.sh, s, c.attempts[s]);
    Localize(c, s);
    FailKeepsLocal(c.config, c.aborted, c.At(s), GatewayError(HandshakeTimeout, StartupFailure, true), true);
    Lift(c, s, HandleHandshakeTimeout(c.At(s)));
  }

  lemma {:induction false} AbortListenerKeepsInv(c: Client, s: nat)
    requires Inv(c) && Delivered(c, EvAbortListener(s))
    ensures Inv(Step(c, EvAbortListener(s)))
  {
    assert AttemptOk(c.sh, s, c.attempts[s]);
    Localize(c, s);
    Lift(c, s, HandleAbort(c.At(s)));
  }

  lemma {:induction false} ConnectKeepsInv(c: Client, preparation: Preparation)
    requires Inv(c) && c.sh.signals == 0
    requires preparation.PrepareFailed? ==> ClosedAccepts(preparation.error)
    ensures Inv(Connect(c, false, preparation))
  {
    var after := Connect(c, false, preparation);
    forall t | t in after.attempts ensures AttemptOk(after.sh, t, after.attempts[t]) {
      if t in c.attempts {
        assert AttemptOk(c.sh, t, c.attempts[t]);
      }
    }
  }

  lemma {:induction false} ReconnectTimerKeepsInv(c: Client, preparation: Preparation)
    requires Inv(c) && Delivered(c, EvReconnectTimer(preparation))
    requires preparation.PrepareFailed? ==> ClosedAccepts(preparation.error)
    ensures Inv(Step(c, EvReconnectTimer(preparation)))
  {
    if c.sh.life.manuallyDisconnected || c.aborted {
      UnwantedTimerKeepsInv(c);
    } else {
      ReconnectTaskKeepsInv(c, preparation);
    }
  }

  lemma UnwantedTimerKeepsInv(c: Client)
    requires Inv(c) && c.sh.timer.Some? && (c.sh.life.manuallyDisconnected || c.aborted)
    ensures Inv(c.(sh := c.sh.(timer := None)))
  {
    var fired := c.(sh := c.sh.(timer := None));
    forall t | t in c.attempts ensures AttemptOk(fired.sh, t, c.attempts[t]) {
      assert AttemptOk(c.sh, t, c.attempts[t]);
    }
  }

  // A window that has not started cannot be exhausted.
  lemma FreshWindowNotExhausted(config: PolicyConfig, policy: Policy, now: int)
    requires config.maxElapsedMs > 0 && policy.windowStartedAt.None? && policy.suspendedMs >= 0
    ensures !policy.IsExhausted(config, now)
  {
  }

  lemma ReconnectTaskKeepsInv(c: Client, preparation: Preparation)
    requires Inv(c) && c.sh.timer.Some? && !c.aborted
    requires preparation.PrepareFailed? ==> ClosedAccepts(preparation.error)
    ensures Inv(RunReconnectTask(c.(sh := c.sh.(timer := None)), c.sh.timer.value, preparation))
  {
    var fired, timer := c.(sh := c.sh.(timer := None)), c.sh.timer.value;
    var credited := Credited(c.sh.policy, timer, c.now);
    var checked := fired.(sh := fired.sh.(policy := credited.StartWindow(c.now)));
    if credited.IsExhausted(c.config.policy, c.now) {
      if c.sh.life.status.Ready? {
        FreshWindowNotExhausted(c.config.policy, credited, c.now);
      }
      ExhaustedKeepsInv(c, checked);
      assert RunReconnectTask(fired, timer, preparation)
          == checked.(sh := checked.sh.(life := checked.sh.life.CloseReconnectExhaustedIfCurrent(timer.generation)));
    } else {
      ConnectFiredKeepsInv(c, checked, preparation);
      assert RunReconnectTask(fired, timer, preparation) == Connect(checked, true, preparation);
    }
  }

  lemma ExhaustedKeepsInv(c: Client, checked: Client)
    requires Inv(c) && c.sh.timer.Some? && !c.sh.life.status.Ready?
    requires checked == c.(sh := c.sh.(timer := None, policy := checked.sh.policy)) &&
        checked.sh.policy.suspendedMs >= 0
    ensures Inv(checked.(sh :=
        checked.sh.(life := checked.sh.life.CloseReconnectExhaustedIfCurrent(c.sh.life.generation))))
  {
    var after := checked.(sh :=
        checked.sh.(life := checked.sh.life.CloseReconnectExhaustedIfCurrent(c.sh.life.generation)));
    forall t | t in c.attempts ensures AttemptOk(after.sh, t, c.attempts[t]) {
      assert AttemptOk(c.sh, t, c.attempts[t]);
    }
  }

  // While the scheduled retry runs there is neither a timer nor, possibly, anything else behind `reconnecting`.
  lemma ConnectFiredKeepsInv(c: Client, next: Client, preparation: Preparation)
    requires Inv(c) && c.sh.timer.Some? && !c.aborted
    requires next == c.(sh := c.sh.(timer := None, policy := next.sh.policy)) && next.sh.policy.suspendedMs >= 0
    requires preparation.PrepareFailed? ==> ClosedAccepts(preparation.error)
    ensures Inv(Connect(next, true, preparation))
  {
    FiredAttemptsOk(c, next, preparation);
  }

  lemma FiredAttemptsOk(c: Client, next: Client, preparation: Preparation)
    requires Inv(c) && c.sh.timer.Some? && !c.aborted
    requires next == c.(sh := c.sh.(timer := None, policy := next.sh.policy))
    ensures var after := Connect(next, true, preparation);
            forall t :: t in after.attempts ==> AttemptOk(after.sh, t, after.attempts[t])
  {
    var after := Connect(next, true, preparation);
    forall t | t in after.attempts ensures AttemptOk(after.sh, t, after.attempts[t]) {
      if t in c.attempts {
        assert AttemptOk(c.sh, t, c.attempts[t]);
      }
    }
  }

  lemma {:induction false} ContinueSignalKeepsInv(c: Client, draw: Draw)
    requires Inv(c) && Delivered(c, EvContinueSignal(draw))
    ensures Inv(Step(c, EvContinueSignal(draw)))
  {
    var after := Step(c, EvContinueSignal(draw));
    forall t | t in after.attempts ensures AttemptOk(after.sh, t, after.attempts[t]) {
      assert AttemptOk(c.sh, t, c.attempts[t]);
    }
  }

  // Whatever was running, disconnect leaves the shared state in this shape.
  function DisconnectedShared(sh: Shared): Shared {
    sh.(life := sh.life.CloseManual(), active := None, heartbeat := false, timer := None,
    wire := sh.wire.(owner := None))
  }

  lemma {:induction false} DisconnectEffect(c: Client)
    requires Inv(c)
    ensures var after := Disconnect(c);
      && after == c.(sh := DisconnectedShared(c.sh), attempts := after.attempts)
      && after.attempts.Keys == c.attempts.Keys
      && (forall t :: t in c.attempts && c.sh.active != Some(t) ==> after.attempts[t] == c.attempts[t])
      && (forall t :: t in c.attempts && c.sh.active == Some(t) ==>
            after.attempts[t] == CleanUp(c.attempts[t]).(connectSettled := true, promise := Rejected(ABORT_ERROR)))
  {
    if c.sh.active.Some? {
      assert AttemptOk(c.sh, c.sh.active.value, c.attempts[c.sh.active.value]);
    }
  }

  lemma {:induction false} DisconnectKeepsInv(c: Client)
    requires Inv(c)
    ensures Inv(Disconnect(c))
  {
    DisconnectEffect(c);
    var after := Disconnect(c);
    var sh := DisconnectedShared(c.sh);
    forall t | t in after.attempts ensures AttemptOk(sh, t, after.attempts[t]) {
      assert AttemptOk(c.sh, t, c.attempts[t]);
    }
  }

  lemma SendKeepsInv(c: Client, e: Event)
    requires Inv(c) && Delivered(c, e) && (e.EvHeartbeat? || e.EvSend?)
    ensures Inv(Step(c, e))
  {
    var after := Step(c, e);
    forall t | t in after.attempts ensures AttemptOk(after.sh, t, after.attempts[t]) {
      assert AttemptOk(c.sh, t, c.attempts[t]);
    }
  }

  lemma {:induction false} StepKeepsInv(c: Client, e: Event)
    requires Inv(c) && Delivered(c, e) && CleanPreparation(e)
    ensures Inv(Step(c, e))
  {
    match e {
      case EvConnect(preparation) => ConnectKeepsInv(c, preparation);
      case EvDisconnect => DisconnectKeepsInv(c);
      case EvOpen(s, sendable) => OpenKeepsInv(c, s, sendable);
      case EvError(s) => ErrorKeepsInv(c, s);
      case EvClose(s, code, draw) => CloseKeepsInv(c, s, code, draw);
      case EvMessage(s, frame) => MessageKeepsInv(c, s, frame);
      case EvHandshakeTimeout(s) => HandshakeTimeoutKeepsInv(c, s);
      case EvAbort =>
      case EvAbortListener(s) => AbortListenerKeepsInv(c, s);
      case EvReconnectTimer(preparation) => ReconnectTimerKeepsInv(c, preparation);
      case EvContinueSignal(draw) => ContinueSignalKeepsInv(c, draw);
      case EvHeartbeat(_) => SendKeepsInv(c, e);
      case EvSend(_) => SendKeepsInv(c, e);
      case EvAdvance(_) =>
    }
  }
}
