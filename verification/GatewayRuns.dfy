// Main results about whole runs of a gateway client.
module GatewayRuns {
  import opened Prelude
  import opened GatewayStatus
  import opened ReconnectPolicy
  import opened CloseDecision
  import opened GatewaySpec
  import opened GatewayInvariant

  // Each event of the run is deliverable in the state it meets.
  predicate IsRun(c: Client, events: seq<Event>)
    decreases |events|
  {
    events == [] ||
    (Delivered(c, events[0]) && CleanPreparation(events[0]) && IsRun(Step(c, events[0]), events[1..]))
  }

  function Exec(c: Client, events: seq<Event>): Client
    requires IsRun(c, events)
    decreases |events|
  {
    if events == [] then c else Exec(Step(c, events[0]), events[1..])
  }

  lemma {:induction false} RunKeepsInv(c: Client, events: seq<Event>)
    requires Inv(c) && IsRun(c, events)
    ensures Inv(Exec(c, events))
    decreases |events|
  {
    if events != [] {
      StepKeepsInv(c, events[0]);
      RunKeepsInv(Step(c, events[0]), events[1..]);
    }
  }

  // ---- Readiness ----

  predicate IsReadyAttempt(c: Client, s: nat) {
    s in c.attempts && c.attempts[s].phase.PhaseReady? && c.sh.life.IsCurrent(c.attempts[s].token)
  }

  /** In every reachable state: the client is ready exactly when some attempt holds the current token
      in phase ready, exactly when the heartbeat runs; and there is never a second such attempt. */
  lemma ReadyMeansOneLiveAttempt(config: Config, events: seq<Event>)
    requires config.policy.maxElapsedMs > 0 && IsRun(InitialClient(config), events)
    ensures var c := Exec(InitialClient(config), events);
      && (c.sh.life.status.Ready? <==> exists s :: IsReadyAttempt(c, s))
      && (c.sh.life.status.Ready? <==> c.sh.heartbeat)
      && (forall s, t :: IsReadyAttempt(c, s) && IsReadyAttempt(c, t) ==> s == t)
  {
    InitialInv(config);
    RunKeepsInv(InitialClient(config), events);
    var c := Exec(InitialClient(config), events);
    if c.sh.life.status.Ready? {
      assert IsReadyAttempt(c, c.sh.life.activeSessionId.value);
    }
    forall s | IsReadyAttempt(c, s) ensures c.sh.life.status.Ready? && c.sh.life.activeSessionId == Some(s) {
      assert AttemptOk(c.sh, s, c.attempts[s]);
    }
  }

  // ---- Frames ----

  /** On every attempt the frames written are register (business | heartbeat)*, and nothing follows
      register unless that attempt's handshake was accepted. */
  lemma RegisterComesFirst(config: Config, events: seq<Event>, s: nat)
    requires config.policy.maxElapsedMs > 0 && IsRun(InitialClient(config), events)
    requires s in Exec(InitialClient(config), events).attempts
    ensures var c := Exec(InitialClient(config), events);
      && s in c.sh.wire.sent && RegisterFirst(c.sh.wire.sent[s])
      && (|c.sh.wire.sent[s]| > 1 ==> c.attempts[s].promise.Resolved?)
  {
    InitialInv(config);
    RunKeepsInv(InitialClient(config), events);
    var c := Exec(InitialClient(config), events);
    assert AttemptOk(c.sh, s, c.attempts[s]);
  }

  // What handling a close never touches, and when it can plan a retry.
  predicate Aside(before: Shared, after: Shared) {
    after.emitted == before.emitted && after.wire.sent == before.wire.sent
  }

  predicate NoRetryPlanned(before: Shared, after: Shared) {
    (after.timer.None? || after.timer == before.timer) && after.signals == before.signals
  }

  lemma FailAside(p: Pair, error: GatewayError, closeTransport: bool)
    ensures var q := FailBeforeReady(p, error, closeTransport); Aside(p.sh, q.sh) && NoRetryPlanned(p.sh, q.sh)
  {
  }

  lemma FailAtRuntimeAside(p: Pair, error: GatewayError)
    ensures var q := FailAtRuntime(p, error); Aside(p.sh, q.sh) && NoRetryPlanned(p.sh, q.sh)
  {
  }

  lemma StopCloseAside(env: Env, p: Pair, code: CloseCode)
    ensures var q := HandleStopClose(env, p, code); Aside(p.sh, q.sh) && NoRetryPlanned(p.sh, q.sh)
  {
    forall error
      ensures var q := FailBeforeReady(p, error, false); Aside(p.sh, q.sh) && NoRetryPlanned(p.sh, q.sh)
    {
      FailAside(p, error, false);
    }
    forall error
      ensures var q := FailAtRuntime(p, error); Aside(p.sh, q.sh) && NoRetryPlanned(p.sh, q.sh)
    {
      FailAtRuntimeAside(p, error);
    }
  }

  lemma StartWindowAside(env: Env, p: Pair, draw: Draw)
    ensures Aside(p.sh, HandleStartReconnectWindow(env, p, draw).sh)
  {
  }

  lemma CloseAside(env: Env, p: Pair, code: CloseCode, draw: Draw)
    ensures Aside(p.sh, HandleClose(env, p, code, draw).sh)
    ensures !p.a.phase.PhaseReady? && !p.a.reconnectAttempt ==>
              NoRetryPlanned(p.sh, HandleClose(env, p, code, draw).sh)
  {
    StopCloseAside(env, p, code);
    StartWindowAside(env, p, draw);
  }

  lemma MessageAside(p: Pair, frame: InFrame)
    ensures var q := HandleMessage(p, frame);
      && q.sh.wire.sent == p.sh.wire.sent && NoRetryPlanned(p.sh, q.sh)
      && (q.sh.emitted == p.sh.emitted
          || (frame.BusinessFrame? && p.sh.life.status.Ready? && !IsTerminal(p.sh, p.a)
              && q.sh.emitted == p.sh.emitted + [p.a.token.sessionId]))
  {
    if frame.HandshakeControl? || frame.InvalidHandshake? {
      var result := ProcessHandshake(frame);
      if result.HandshakeFailed? {
        FailAside(p, result.error, true);
      }
    }
  }

  // No event but a close or a message touches what goes up.
  lemma OpenWritesRegister(env: Env, p: Pair, sendable: bool)
    ensures var sh := HandleOpen(env, p, sendable).sh;
            sh.emitted == p.sh.emitted && (sh.wire.sent == p.sh.wire.sent || sh.wire == Send(p.sh.wire, Register))
  {
    FailAside(Pair(p.sh, p.a.(didOpen := true)), GatewayError(ConnectParameterInvalid, StartupFailure, false), true);
  }

  lemma OthersStayAside(p: Pair)
    ensures Aside(p.sh, HandleError(p).sh)
    ensures Aside(p.sh, HandleHandshakeTimeout(p).sh)
    ensures Aside(p.sh, HandleAbort(p).sh)
  {
    FailAside(p, GatewayError(HandshakeTimeout, StartupFailure, true), true);
  }

  lemma OthersEmitNothing(c: Client, e: Event)
    requires Possible(c, e) && !e.EvClose? && !e.EvMessage?
    ensures Step(c, e).sh.emitted == c.sh.emitted
  {
    match e {
      case EvOpen(s, sendable) => OpenWritesRegister(c.Context(), c.At(s), sendable);
      case EvError(s) => OthersStayAside(c.At(s));
      case EvHandshakeTimeout(s) => OthersStayAside(c.At(s));
      case EvAbortListener(s) => OthersStayAside(c.At(s));
      case _ =>
    }
  }

  /** A business message goes up only from the attempt that makes the client ready. */
  lemma {:induction false} MessagesNeedReady(c: Client, e: Event)
    requires Inv(c) && Delivered(c, e)
    ensures Step(c, e).sh.emitted == c.sh.emitted
         || (e.EvMessage? && e.frame.BusinessFrame? && IsReadyAttempt(c, e.session) && c.sh.life.status.Ready?
             && Step(c, e).sh.emitted == c.sh.emitted + [e.session])
  {
    if e.EvClose? {
      CloseAside(c.Context(), c.At(e.session), e.code, e.draw);
    } else if e.EvMessage? {
      assert AttemptOk(c.sh, e.session, c.attempts[e.session]);
      MessageAside(c.At(e.session), e.frame);
    } else {
      OthersEmitNothing(c, e);
    }
  }

  /** A business frame is written only on the socket of the attempt that makes the client ready. */
  lemma BusinessFramesNeedReady(c: Client, e: Event, s: nat)
    requires Inv(c) && Delivered(c, e)
    requires s in c.sh.wire.sent && s in Step(c, e).sh.wire.sent
    requires Step(c, e).sh.wire.sent[s] == c.sh.wire.sent[s] + [Business]
    ensures e.EvSend? && IsReadyAttempt(c, s)
  {
    var frames, grown := c.sh.wire.sent[s], Step(c, e).sh.wire.sent[s];
    assert |grown| == |frames| + 1 && grown[|frames|] == Business;
    if e.EvSend? {
      assert IsReadyAttempt(c, c.sh.life.activeSessionId.value);
    } else {
      OnlySendWritesBusiness(c, e, s);
    }
  }

  // What may be written to a socket other than a business frame.
  predicate QuietFrames(before: seq<OutFrame>, after: seq<OutFrame>) {
    after == before || after == [] || after == before + [Register] || after == before + [Heartbeat]
  }

  lemma HandlersWriteNoBusiness(c: Client, e: Event, s: nat)
    requires Possible(c, e) && s in c.sh.wire.sent && s in Step(c, e).sh.wire.sent
    requires e.EvOpen? || e.EvError? || e.EvHandshakeTimeout? || e.EvAbortListener?
    ensures QuietFrames(c.sh.wire.sent[s], Step(c, e).sh.wire.sent[s])
  {
    if e.EvOpen? {
      OpenWritesRegister(c.Context(), c.At(e.session), e.sendable);
    } else {
      OthersStayAside(c.At(e.session));
    }
  }

  lemma OnlySendWritesBusiness(c: Client, e: Event, s: nat)
    requires Inv(c) && Delivered(c, e) && !e.EvSend? && s in c.sh.wire.sent && s in Step(c, e).sh.wire.sent
    ensures QuietFrames(c.sh.wire.sent[s], Step(c, e).sh.wire.sent[s])
  {
    if e.EvOpen? || e.EvError? || e.EvHandshakeTimeout? || e.EvAbortListener? {
      HandlersWriteNoBusiness(c, e, s);
    } else if e.EvClose? {
      CloseAside(c.Context(), c.At(e.session), e.code, e.draw);
    } else if e.EvMessage? {
      MessageAside(c.At(e.session), e.frame);
    } else if e.EvDisconnect? {
      DisconnectEffect(c);
    }
  }

  /** On every run, whatever the next event: a business message goes up only from the ready attempt, and a
      business frame is written only to it. */
  lemma BusinessNeedsReady(config: Config, events: seq<Event>, e: Event)
    requires config.policy.maxElapsedMs > 0 && IsRun(InitialClient(config), events)
    requires Delivered(Exec(InitialClient(config), events), e)
    ensures var c := Exec(InitialClient(config), events);
      && (Step(c, e).sh.emitted == c.sh.emitted
          || (e.EvMessage? && IsReadyAttempt(c, e.session) && Step(c, e).sh.emitted == c.sh.emitted + [e.session]))
      && (forall s | s in c.sh.wire.sent && s in Step(c, e).sh.wire.sent
                     && Step(c, e).sh.wire.sent[s] == c.sh.wire.sent[s] + [Business] ::
            e.EvSend? && IsReadyAttempt(c, s))
  {
    InitialInv(config);
    RunKeepsInv(InitialClient(config), events);
    var c := Exec(InitialClient(config), events);
    MessagesNeedReady(c, e);
    forall s | s in c.sh.wire.sent && s in Step(c, e).sh.wire.sent
               && Step(c, e).sh.wire.sent[s] == c.sh.wire.sent[s] + [Business]
      ensures e.EvSend? && IsReadyAttempt(c, s)
    {
      BusinessFramesNeedReady(c, e, s);
    }
  }

  // ---- Promise settlement ----

  /** The active attempt is exactly the unsettled one, it has not reached ready, and every attempt
      that was cleaned up is settled. */
  lemma ActiveMeansUnsettled(config: Config, events: seq<Event>, s: nat)
    requires config.policy.maxElapsedMs > 0 && IsRun(InitialClient(config), events)
    requires s in Exec(InitialClient(config), events).attempts
    ensures var c := Exec(InitialClient(config), events);
      var a := c.attempts[s];
      && (a.promise.Pending? <==> c.sh.active == Some(s))
      && (c.sh.active == Some(s) ==> !a.cleaned && !a.phase.PhaseReady? && !a.phase.Terminal?)
      && (a.cleaned ==> !a.promise.Pending?)
  {
    InitialInv(config);
    RunKeepsInv(InitialClient(config), events);
    var c := Exec(InitialClient(config), events);
    assert AttemptOk(c.sh, s, c.attempts[s]);
  }

  // The settlement, token and kind of an attempt survive a handler.
  predicate SettlesOnce(before: Attempt, after: Attempt) {
    && (!before.promise.Pending? ==> after.promise == before.promise)
    && after.token == before.token && after.reconnectAttempt == before.reconnectAttempt
  }

  lemma FailSettlesOnce(p: Pair, error: GatewayError, closeTransport: bool)
    ensures SettlesOnce(p.a, FailBeforeReady(p, error, closeTransport).a)
    ensures SettlesOnce(p.a, FailAtRuntime(p, error).a)
  {
  }

  lemma CloseSettlesOnce(env: Env, p: Pair, code: CloseCode, draw: Draw)
    ensures SettlesOnce(p.a, HandleClose(env, p, code, draw).a)
  {
    StopSettlesOnce(env, p, code);
    StartWindowSettlesOnce(env, p, draw);
  }

  lemma StartWindowSettlesOnce(env: Env, p: Pair, draw: Draw)
    ensures SettlesOnce(p.a, HandleStartReconnectWindow(env, p, draw).a)
  {
  }

  lemma StopSettlesOnce(env: Env, p: Pair, code: CloseCode)
    ensures SettlesOnce(p.a, HandleStopClose(env, p, code).a)
  {
    forall error, closeTransport
      ensures SettlesOnce(p.a, FailBeforeReady(p, error, closeTransport).a)
      ensures SettlesOnce(p.a, FailAtRuntime(p, error).a)
    {
      FailSettlesOnce(p, error, closeTransport);
    }
  }

  lemma MessageSettlesOnce(p: Pair, frame: InFrame)
    ensures SettlesOnce(p.a, HandleMessage(p, frame).a)
  {
    if frame.HandshakeControl? || frame.InvalidHandshake? {
      var result := ProcessHandshake(frame);
      if result.HandshakeFailed? {
        FailSettlesOnce(p, result.error, true);
      }
    }
  }

  lemma OpenSettlesOnce(env: Env, p: Pair, sendable: bool)
    ensures SettlesOnce(p.a, HandleOpen(env, p, sendable).a)
  {
    FailSettlesOnce(Pair(p.sh, p.a.(didOpen := true)), GatewayError(ConnectParameterInvalid, StartupFailure, false),
        true);
  }

  lemma AbortSettlesOnce(p: Pair)
    ensures SettlesOnce(p.a, HandleAbort(p).a)
  {
    var a := p.a.(abortListening := false);
    FailSettlesOnce(Pair(p.sh.(life := p.sh.life.CloseIfCurrent(a.token, ABORT_ERROR)), a), ABORT_ERROR, true);
  }

  // A new attempt has a new session id.
  lemma ConnectsSettleNothing(c: Client, e: Event, s: nat)
    requires Inv(c) && Possible(c, e) && (e.EvConnect? || e.EvReconnectTimer?) && s in c.attempts
    ensures s in Step(c, e).attempts && Step(c, e).attempts[s] == c.attempts[s]
  {
    assert AttemptOk(c.sh, s, c.attempts[s]);
  }

  lemma HandlersSettleOnce(c: Client, e: Event, s: nat)
    requires Possible(c, e) && !e.EvDisconnect? && !e.EvConnect? && !e.EvReconnectTimer? && s in c.attempts
    ensures s in Step(c, e).attempts && SettlesOnce(c.attempts[s], Step(c, e).attempts[s])
  {
    match e {
      case EvOpen(t, sendable) => OpenSettlesOnce(c.Context(), c.At(t), sendable);
      case EvClose(t, code, draw) => CloseSettlesOnce(c.Context(), c.At(t), code, draw);
      case EvMessage(t, frame) => MessageSettlesOnce(c.At(t), frame);
      case EvHandshakeTimeout(t) =>
        FailSettlesOnce(c.At(t), GatewayError(HandshakeTimeout, StartupFailure, true), true);
      case EvAbortListener(t) => AbortSettlesOnce(c.At(t));
      case _ =>
    }
  }

  /** A settled promise keeps its outcome, and an attempt never disappears. */
  lemma {:induction false} SettledOnce(c: Client, e: Event, s: nat)
    requires Inv(c) && Delivered(c, e) && s in c.attempts
    ensures s in Step(c, e).attempts
    ensures !c.attempts[s].promise.Pending? ==> Step(c, e).attempts[s].promise == c.attempts[s].promise
    ensures Step(c, e).attempts[s].token == c.attempts[s].token
    ensures Step(c, e).attempts[s].reconnectAttempt == c.attempts[s].reconnectAttempt
  {
    assert AttemptOk(c.sh, s, c.attempts[s]);
    if e.EvDisconnect? {
      DisconnectEffect(c);
    } else if e.EvConnect? || e.EvReconnectTimer? {
      ConnectsSettleNothing(c, e, s);
    } else {
      HandlersSettleOnce(c, e, s);
    }
  }

  /** When the current attempt's promise is rejected by anything but a disconnect, the closed status
      carries that very error. */
  lemma {:induction false} RejectionMatchesStatus(c: Client, e: Event, s: nat)
    requires Inv(c) && Delivered(c, e) && CleanPreparation(e) && !e.EvDisconnect?
    requires s in c.attempts && c.sh.life.IsCurrent(c.attempts[s].token) && c.attempts[s].promise.Pending?
    requires Step(c, e).attempts[s].promise.Rejected?
    ensures Step(c, e).sh.life.status == Closed(Some(Step(c, e).attempts[s].promise.error))
  {
    assert AttemptOk(c.sh, s, c.attempts[s]);
    RejectedByOwnEvent(c, e, s);
    match e {
      case EvClose(_, code, draw) => CloseRejects(c.Context(), c.At(s), code, draw);
      case EvMessage(_, frame) => MessageRejects(c.At(s), frame);
      case EvOpen(_, sendable) => OpenRejects(c.Context(), c.At(s), sendable);
      case _ =>
    }
  }

  lemma OpenRejects(env: Env, p: Pair, sendable: bool)
    requires PhaseOk(p.a) && p.a.promise.Pending? && p.sh.life.IsCurrent(p.a.token)
    ensures var q := HandleOpen(env, p, sendable);
      q.a.promise.Rejected? ==> q.sh.life.status == Closed(Some(q.a.promise.error))
  {
  }

  lemma RejectedByOwnEvent(c: Client, e: Event, s: nat)
    requires Inv(c) && Delivered(c, e) && !e.EvDisconnect? && s in c.attempts && c.attempts[s].promise.Pending?
    requires Step(c, e).attempts[s].promise.Rejected?
    ensures (e.EvOpen? || e.EvError? || e.EvClose? || e.EvMessage? || e.EvHandshakeTimeout? || e.EvAbortListener?)
         && e.session == s
  {
    assert AttemptOk(c.sh, s, c.attempts[s]);
  }

  lemma MessageRejects(p: Pair, frame: InFrame)
    requires PhaseOk(p.a) && p.a.promise.Pending? && p.sh.life.IsCurrent(p.a.token)
    ensures var q := HandleMessage(p, frame);
      q.a.promise.Rejected? ==> q.sh.life.status == Closed(Some(q.a.promise.error))
  {
    if !IsTerminal(p.sh, p.a) && (frame.HandshakeControl? || frame.InvalidHandshake?) {
      ResultRejects(p, ProcessHandshake(frame));
    }
  }

  lemma ResultRejects(p: Pair, result: HandshakeResult)
    requires PhaseOk(p.a) && p.a.promise.Pending? && p.sh.life.IsCurrent(p.a.token) && !IsTerminal(p.sh, p.a)
    requires result.HandshakeFailed? ==> ClosedAccepts(result.error)
    ensures var q := HandleHandshakeResult(p, result);
      q.a.promise.Rejected? ==> q.sh.life.status == Closed(Some(q.a.promise.error))
  {
  }

  lemma CloseRejects(env: Env, p: Pair, code: CloseCode, draw: Draw)
    requires PhaseOk(p.a) && ErrorsOk(p.a) && p.a.promise.Pending? && p.sh.life.IsCurrent(p.a.token)
    ensures var q := HandleClose(env, p, code, draw);
      q.a.promise.Rejected? ==> q.sh.life.status == Closed(Some(q.a.promise.error))
  {
    StopRejects(env, p, code);
    StartWindowRejectsNothing(env, p, draw);
  }

  lemma StartWindowRejectsNothing(env: Env, p: Pair, draw: Draw)
    ensures HandleStartReconnectWindow(env, p, draw).a.promise == p.a.promise
  {
  }

  lemma StopRejects(env: Env, p: Pair, code: CloseCode)
    requires PhaseOk(p.a) && ErrorsOk(p.a) && p.a.promise.Pending? && p.sh.life.IsCurrent(p.a.token)
    ensures var q := HandleStopClose(env, p, code);
      q.a.promise.Rejected? ==> q.sh.life.status == Closed(Some(q.a.promise.error))
  {
    forall error, closeTransport | ClosedAccepts(error)
      ensures var q := FailBeforeReady(p, error, closeTransport);
        q.a.promise == Rejected(error) && q.sh.life.status == Closed(Some(error)) {}
  }

  /** What closing the ready attempt's socket makes of the status: an abort and an auth rejection (4403, 4409) close
      the client with their own error, a transient code starts a reconnect window where reconnect is enabled, and
      any other close is a transport error, retryable unless an earlier error of the socket said otherwise. */
  lemma CloseOfReadyNamesTheCause(c: Client, s: nat, code: CloseCode, draw: Draw)
    requires Inv(c) && Delivered(c, EvClose(s, code, draw)) && IsReadyAttempt(c, s)
    ensures var now := Step(c, EvClose(s, code, draw)).sh.life.status;
            var earlier := c.attempts[s].pendingTransportError;
            if c.aborted then now == Closed(Some(ABORT_ERROR))
            else if code == Some(4403) || code == Some(4409) then
              now == Closed(Some(GatewayError(AuthRejected, RuntimeFailure, false)))
            else if c.config.reconnectEnabled && code.Some? && code.value in {1006, 1012, 1013, 4408} then
              now == (if c.sh.policy.DecideNext(c.config.policy, c.now, draw).Exhausted?
                      then Closed(Some(EXHAUSTED_ERROR)) else Reconnecting)
            else
              now == Closed(Some(GatewayError(
                TransportError, RuntimeFailure, earlier.None? || earlier.value.retryable)))
  {
    assert AttemptOk(c.sh, s, c.attempts[s]);
  }

  // How the promise of a pre-ready attempt settles on an event of its own; None: it stays pending.
  function Verdict(c: Client, e: Event, s: nat): Option<Settlement>
    requires s in c.attempts
  {
    var a := c.attempts[s];
    match e
    case EvOpen(_, sendable) =>
      if sendable && c.sh.wire.owner.Some? then None
      else Some(Rejected(GatewayError(ConnectParameterInvalid, StartupFailure, false)))
    case EvHandshakeTimeout(_) => Some(Rejected(GatewayError(HandshakeTimeout, StartupFailure, true)))
    case EvMessage(_, HandshakeControl(RegisterOk)) => Some(Resolved)
    case EvMessage(_, HandshakeControl(RegisterRejected)) =>
      Some(Rejected(GatewayError(HandshakeRejected, StartupFailure, false)))
    case EvMessage(_, HandshakeControl(OtherControl)) =>
      Some(Rejected(GatewayError(HandshakeInvalid, StartupFailure, false)))
    case EvMessage(_, InvalidHandshake) => Some(Rejected(GatewayError(HandshakeInvalid, StartupFailure, false)))
    case EvAbortListener(_) => Some(Rejected(ABORT_ERROR))
    case EvClose(_, code, _) =>
      if c.aborted then Some(Rejected(ABORT_ERROR))
      else if a.reconnectAttempt && c.config.reconnectEnabled && ShouldRetryOnClose(code, false, false) then
        Some(ContinueSignalled)
      else if IsRejectedCloseCode(code) && !a.didOpen then
        Some(Rejected(GatewayError(AuthRejected, StartupFailure, false)))
      else
        var retryable := if a.pendingTransportError.Some? then a.pendingTransportError.value.retryable
          else !IsRejectedCloseCode(code);
        Some(Rejected(GatewayError(TransportError, StartupFailure, retryable)))
    case _ => None
  }

  /** The cause decides how connect() settles: each event of the current attempt before it is ready settles
      the promise with the outcome that names the cause, or leaves it pending. */
  lemma {:induction false} CauseDecidesTheSettlement(c: Client, e: Event, s: nat)
    requires Inv(c) && Delivered(c, e) && s in c.attempts
    requires c.sh.life.IsCurrent(c.attempts[s].token) && c.attempts[s].promise.Pending?
    requires e.EvOpen? || e.EvHandshakeTimeout? || e.EvMessage? || e.EvAbortListener? || e.EvClose? || e.EvError?
    requires e.session == s
    ensures Step(c, e).attempts[s].promise ==
            if Verdict(c, e, s).Some? then Verdict(c, e, s).value else Pending
  {
    assert AttemptOk(c.sh, s, c.attempts[s]);
    if e.EvClose? {
      CloseVerdict(c, s, e.code, e.draw);
    } else if e.EvMessage? {
      MessageVerdict(c, s, e.frame);
    }
  }

  // Failing a pre-ready attempt rejects its promise with the given error.
  lemma FailRejects(p: Pair, error: GatewayError, closeTransport: bool)
    requires p.a.promise.Pending? && !p.a.connectSettled && p.a.terminalError.None?
    ensures FailBeforeReady(p, error, closeTransport).a.promise == Rejected(error)
  {
  }

  lemma MessageVerdict(c: Client, s: nat, frame: InFrame)
    requires Inv(c) && s in c.attempts && c.sh.life.IsCurrent(c.attempts[s].token) && c.attempts[s].promise.Pending?
    ensures HandleMessage(c.At(s), frame).a.promise ==
            if Verdict(c, EvMessage(s, frame), s).Some? then Verdict(c, EvMessage(s, frame), s).value else Pending
  {
    assert AttemptOk(c.sh, s, c.attempts[s]);
    var p := c.At(s);
    if frame.HandshakeControl? || frame.InvalidHandshake? {
      var result := ProcessHandshake(frame);
      assert HandleMessage(p, frame) == HandleHandshakeResult(p, result);
      if result.HandshakeFailed? {
        FailRejects(p, result.error, true);
      } else {
        ReadyResolves(p);
      }
    } else {
      assert HandleMessage(p, frame).a == p.a;
    }
  }

  lemma ReadyResolves(p: Pair)
    requires PhaseOk(p.a) && p.a.promise.Pending? && p.sh.life.IsCurrent(p.a.token)
    ensures HandleHandshakeResult(p, HandshakeReady).a.promise == Resolved
  {
  }

  lemma CloseVerdict(c: Client, s: nat, code: CloseCode, draw: Draw)
    requires Inv(c) && s in c.attempts && c.sh.life.IsCurrent(c.attempts[s].token) && c.attempts[s].promise.Pending?
    ensures HandleClose(c.Context(), c.At(s), code, draw).a.promise == Verdict(c, EvClose(s, code, draw), s).value
  {
    assert AttemptOk(c.sh, s, c.attempts[s]);
    var p, env := c.At(s), c.Context();
    RetriesExactly(code, false, c.aborted, c.config.reconnectEnabled, p.a.reconnectAttempt, p.a.phase);
    var action := EvaluateReconnectOnClose(code, p.sh.life.manuallyDisconnected, c.aborted,
                                           c.config.reconnectEnabled, p.a.reconnectAttempt, p.a.phase);
    assert !p.sh.life.manuallyDisconnected && !action.StartWindow?;
    if action.ContinueWindow? {
      assert HandleClose(env, p, code, draw) == ContinueReconnectWindow(p);
    } else {
      assert HandleClose(env, p, code, draw) == HandleStopClose(env, p, code);
      StopIsFailure(env, p, code);
      FailRejects(p, StopError(env, p, code), false);
      StopErrorIsTheVerdict(c, s, code, draw);
    }
  }

  lemma StopErrorIsTheVerdict(c: Client, s: nat, code: CloseCode, draw: Draw)
    requires s in c.attempts && PhaseOk(c.attempts[s]) && ErrorsOk(c.attempts[s]) && c.attempts[s].promise.Pending?
    requires !c.sh.life.manuallyDisconnected
    requires EvaluateReconnectOnClose(code, false, c.aborted, c.config.reconnectEnabled,
                                      c.attempts[s].reconnectAttempt, c.attempts[s].phase).Stop?
    ensures Verdict(c, EvClose(s, code, draw), s) == Some(Rejected(StopError(c.Context(), c.At(s), code)))
  {
  }

  // ---- Diagnostic errors never close the client ----

  // The only way to the throw: a connection that is really started fails its preparation with a
  // diagnostic error from the auth callback.
  predicate DiagnosticPreparation(c: Client, e: Event)
    requires Possible(c, e)
  {
    match e
    case EvConnect(PrepareFailed(error)) =>
      !ClosedAccepts(error) && !c.aborted && !c.sh.life.status.Ready? && c.sh.active.None?
    case EvReconnectTimer(PrepareFailed(error)) =>
      && !ClosedAccepts(error) && !c.aborted && !c.sh.life.status.Ready? && c.sh.active.None?
      && !c.sh.life.manuallyDisconnected
      && !Credited(c.sh.policy, c.sh.timer.value, c.now).IsExhausted(c.config.policy, c.now)
    case _ => false
  }

  /** `GatewayClientStatus.closed` throws on a step exactly in that case; so it never does on a run
      whose auth callback raises no diagnostic error. */
  lemma {:induction false} ThrowsOnlyOnDiagnosticPreparation(c: Client, e: Event)
    requires Inv(c) && Delivered(c, e)
    ensures Step(c, e).sh.life.threw <==> DiagnosticPreparation(c, e)
  {
    if CleanPreparation(e) {
      StepKeepsInv(c, e);
    }
  }

  lemma NeverThrows(config: Config, events: seq<Event>)
    requires config.policy.maxElapsedMs > 0 && IsRun(InitialClient(config), events)
    ensures !Exec(InitialClient(config), events).sh.life.threw
  {
    InitialInv(config);
    RunKeepsInv(InitialClient(config), events);
  }

  // ---- After disconnect ----

  // Every event the platform can deliver, in any order, except a new public connect.
  predicate IsQuietRun(c: Client, events: seq<Event>)
    decreases |events|
  {
    events == [] ||
    (!events[0].EvConnect? && Possible(c, events[0]) && IsQuietRun(Step(c, events[0]), events[1..]))
  }

  function ExecQuiet(c: Client, events: seq<Event>): Client
    requires IsQuietRun(c, events)
    decreases |events|
  {
    if events == [] then c else ExecQuiet(Step(c, events[0]), events[1..])
  }

  predicate ShutDown(c: Client) {
    && c.sh.life.manuallyDisconnected && c.sh.life.status.Closed? && c.sh.life.activeSessionId.None?
    && c.sh.active.None? && !c.sh.heartbeat && c.sh.wire.owner.None?
  }

  lemma QuietStep(c: Client, e: Event)
    requires ShutDown(c) && Possible(c, e) && !e.EvConnect?
    ensures ShutDown(Step(c, e))
    ensures Step(c, e).sh.wire == c.sh.wire && Step(c, e).sh.emitted == c.sh.emitted
    ensures Step(c, e).attempts.Keys == c.attempts.Keys
  {
  }

  /** From any state whatever: after disconnect and until the next public connect, the status stays
      closed, no transport is opened, no attempt is made, no frame is written and no message goes up,
      whatever late callbacks, timers, aborts or continue signals arrive. */
  lemma {:induction false} DisconnectIsFinal(c: Client, events: seq<Event>)
    requires IsQuietRun(Disconnect(c), events)
    ensures var after := ExecQuiet(Disconnect(c), events);
      && after.sh.life.status.Closed? && !after.sh.heartbeat
      && after.sh.wire == Disconnect(c).sh.wire && after.sh.emitted == Disconnect(c).sh.emitted
      && after.attempts.Keys == Disconnect(c).attempts.Keys
  {
    QuietRun(Disconnect(c), events);
  }

  lemma {:induction false} QuietRun(c: Client, events: seq<Event>)
    requires ShutDown(c) && IsQuietRun(c, events)
    ensures var after := ExecQuiet(c, events);
      ShutDown(after) && after.sh.wire == c.sh.wire && after.sh.emitted == c.sh.emitted
      && after.attempts.Keys == c.attempts.Keys
    decreases |events|
  {
    if events != [] {
      QuietStep(c, events[0]);
      QuietRun(Step(c, events[0]), events[1..]);
    }
  }

  /** The code of the closed status is not final: a continue signal caught after the disconnect can
      turn the manual error into an exhausted one. */
  lemma {:induction false} LateSignalChangesTheCode(c: Client, draw: Draw)
    requires ShutDown(c) && c.sh.signals > 0 && !c.aborted && c.config.reconnectEnabled
    ensures Step(c, EvContinueSignal(draw)).sh.life.status ==
            if c.sh.policy.DecideNext(c.config.policy, c.now, draw).Exhausted?
            then Closed(Some(EXHAUSTED_ERROR)) else c.sh.life.status
  {
  }

  // ---- Reconnecting ----

  predicate WasReady(c: Client) {
    exists s :: s in c.attempts && c.attempts[s].promise.Resolved?
  }

  // A retry is pending or was made.
  predicate Retrying(c: Client) {
    c.sh.timer.Some? || c.sh.signals > 0 || exists s :: s in c.attempts && c.attempts[s].reconnectAttempt
  }

  // Only a close or a continue signal plans a retry, and only a timer makes one.
  lemma OthersPlanNoRetry(c: Client, e: Event)
    requires Inv(c) && Delivered(c, e) && !e.EvClose? && !e.EvContinueSignal? && !e.EvReconnectTimer?
    ensures NoRetryPlanned(c.sh, Step(c, e).sh)
    ensures forall s :: s in Step(c, e).attempts && s !in c.attempts ==> !Step(c, e).attempts[s].reconnectAttempt
  {
    match e {
      case EvOpen(s, sendable) =>
        FailAside(Pair(c.sh, c.attempts[s].(didOpen := true)),
            GatewayError(ConnectParameterInvalid, StartupFailure, false), true);
      case EvHandshakeTimeout(s) => FailAside(c.At(s), GatewayError(HandshakeTimeout, StartupFailure, true), true);
      case EvMessage(s, frame) => MessageAside(c.At(s), frame);
      case EvAbortListener(s) =>
        var a := c.attempts[s].(abortListening := false);
        FailAside(Pair(c.sh.(life := c.sh.life.CloseIfCurrent(a.token, ABORT_ERROR)), a), ABORT_ERROR, true);
      case EvDisconnect => DisconnectEffect(c);
      case _ =>
    }
  }

  lemma {:induction false} FirstRetryIsAClose(c: Client, e: Event)
    requires Inv(c) && Delivered(c, e) && !Retrying(c) && Retrying(Step(c, e))
    ensures e.EvClose? && c.attempts[e.session].phase.PhaseReady?
  {
    forall s | s in c.attempts ensures !c.attempts[s].reconnectAttempt {}
    forall s | s in c.attempts ensures s in Step(c, e).attempts && !Step(c, e).attempts[s].reconnectAttempt {
      SettledOnce(c, e, s);
    }
    if e.EvClose? {
      CloseAside(c.Context(), c.At(e.session), e.code, e.draw);
    } else if !e.EvContinueSignal? && !e.EvReconnectTimer? {
      OthersPlanNoRetry(c, e);
    }
  }

  lemma RetryStep(c: Client, e: Event)
    requires Inv(c) && Delivered(c, e) && (Retrying(c) ==> WasReady(c))
    ensures Retrying(Step(c, e)) ==> WasReady(Step(c, e))
  {
    var after := Step(c, e);
    forall s | s in c.attempts
      ensures s in after.attempts && after.attempts[s].reconnectAttempt == c.attempts[s].reconnectAttempt
      ensures c.attempts[s].promise.Resolved? ==> after.attempts[s].promise.Resolved?
    {
      SettledOnce(c, e, s);
    }
    if Retrying(after) && !Retrying(c) {
      FirstRetryIsAClose(c, e);
      assert AttemptOk(c.sh, e.session, c.attempts[e.session]);
      assert after.attempts[e.session].promise.Resolved?;
    }
  }

  lemma {:induction false} RetryRun(c: Client, events: seq<Event>)
    requires Inv(c) && IsRun(c, events) && (Retrying(c) ==> WasReady(c))
    ensures Retrying(Exec(c, events)) ==> WasReady(Exec(c, events))
    decreases |events|
  {
    if events != [] {
      StepKeepsInv(c, events[0]);
      RetryStep(c, events[0]);
      RetryRun(Step(c, events[0]), events[1..]);
    }
  }

  /** While not aborted, `reconnecting` always has a timer, an attempt or an uncaught continue signal
      behind it; and a timer, a signal or a retry exists only if some attempt reached ready. */
  lemma ReconnectingIsBacked(config: Config, events: seq<Event>)
    requires config.policy.maxElapsedMs > 0 && IsRun(InitialClient(config), events)
    ensures var c := Exec(InitialClient(config), events);
      && (c.sh.life.status.Reconnecting? && !c.aborted ==>
            c.sh.timer.Some? || c.sh.active.Some? || c.sh.signals > 0)
      && (Retrying(c) ==> WasReady(c))
  {
    InitialInv(config);
    RunKeepsInv(InitialClient(config), events);
    RetryRun(InitialClient(config), events);
  }
}
