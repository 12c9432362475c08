// The gateway client as the objects it is made of. Every method is proved to do to the object graph
// what the corresponding function of GatewaySpec does to its value; Drive takes them through whole runs.
module GatewayRuntime {
  import opened Prelude
  import opened GatewayStatus
  import opened GatewayLifecycle
  import opened ReconnectPolicy
  import opened CloseDecision
  import opened GatewaySpec
  import opened GatewayInvariant
  import opened GatewayRuns
  import opened GatewayTraffic

  /** Clock, abort signal and options. */
  class RuntimeContext {
    const config: Config
    var now: int
    var aborted: bool

    constructor (config: Config)
      ensures this.config == config && now == 0 && !aborted
    {
      this.config := config;
      now := 0;
      aborted := false;
    }
  }

  /** The transport port: only who opened it last and what was written. */
  class GatewayTransport {
    var owner: Option<nat>
    var opens: nat
    var sent: map<nat, seq<OutFrame>>

    constructor ()
      ensures View() == Wire(None, 0, map[])
    {
      owner, opens, sent := None, 0, map[];
    }

    function View(): Wire
      reads this
    {
      Wire(owner, opens, sent)
    }

    method Open(session: nat)
      modifies this
      ensures View() == OpenWire(old(View()), session)
    {
      owner, opens, sent := Some(session), opens + 1, sent[session := []];
    }

    method Close()
      modifies this
      ensures View() == old(View()).(owner := None)
    {
      owner := None;
    }

    method Write(frame: OutFrame)
      modifies this
      ensures View() == Send(old(View()), frame)
    {
      if owner.Some? && owner.value in sent {
        sent := sent[owner.value := sent[owner.value] + [frame]];
      }
    }
  }

  class TimeoutReconnectScheduler {
    var timer: Option<Timer>

    constructor ()
      ensures timer == None
    {
      timer := None;
    }

    method Schedule(task: Timer)
      modifies this
      ensures timer == Some(task)
    {
      Cancel();
      timer := Some(task);
    }

    method Cancel()
      modifies this
      ensures timer == None
    {
      if timer.Some? {
        timer := None;
      }
    }
  }

  class HeartbeatLoop {
    var running: bool

    constructor ()
      ensures !running
    {
      running := false;
    }

    method Start()
      modifies this
      ensures running
    {
      running := true;
    }

    method Stop()
      modifies this
      ensures !running
    {
      running := false;
    }
  }

  class MessageSink {
    var emitted: seq<nat>

    constructor ()
      ensures emitted == []
    {
      emitted := [];
    }
  }

  class ActiveSlot {
    var activeAttempt: ConnectAttempt?

    constructor ()
      ensures activeAttempt == null
    {
      activeAttempt := null;
    }
  }

  class ReconnectOrchestrator {
    const scheduler: TimeoutReconnectScheduler
    const policy: DefaultReconnectPolicy
    const context: RuntimeContext
    const state: GatewayLifecycleState
    // Continue signals rejected by an attempt and not yet caught here.
    var pendingSignals: nat

    constructor (
      scheduler: TimeoutReconnectScheduler,
      policy: DefaultReconnectPolicy,
      context: RuntimeContext,
      state: GatewayLifecycleState)
      ensures this.scheduler == scheduler && this.policy == policy && this.context == context && this.state == state
      ensures pendingSignals == 0
    {
      this.scheduler, this.policy, this.context, this.state := scheduler, policy, context, state;
      pendingSignals := 0;
    }
  }

  /** The collaborators that GatewayClientRuntime wires together and every attempt shares. */
  class RuntimeParts {
    const context: RuntimeContext
    const state: GatewayLifecycleState
    const policy: DefaultReconnectPolicy
    const scheduler: TimeoutReconnectScheduler
    const heartbeat: HeartbeatLoop
    const transport: GatewayTransport
    const orchestrator: ReconnectOrchestrator
    const sink: MessageSink
    const session: ActiveSlot

    constructor (config: Config)
      ensures Wired() && View() == INITIAL_SHARED && context.config == config && context.now == 0 && !context.aborted
      ensures fresh(Objects()) && fresh(context) && session.activeAttempt == null
    {
      var theContext := new RuntimeContext(config);
      var theState := new GatewayLifecycleState();
      var thePolicy := new DefaultReconnectPolicy(config.policy);
      var theScheduler := new TimeoutReconnectScheduler();
      context, state, policy, scheduler := theContext, theState, thePolicy, theScheduler;
      orchestrator := new ReconnectOrchestrator(theScheduler, thePolicy, theContext, theState);
      heartbeat := new HeartbeatLoop();
      transport := new GatewayTransport();
      sink := new MessageSink();
      session := new ActiveSlot();
    }

    ghost predicate Wired() {
      && orchestrator.scheduler == scheduler && orchestrator.policy == policy
      && orchestrator.context == context && orchestrator.state == state
      && policy.config == context.config.policy
    }

    ghost function Objects(): set<object> {
      {state, policy, scheduler, heartbeat, transport, orchestrator, sink, session}
    }

    ghost function View(): Shared
      reads Objects()
    {
      Shared(
        state.View(), policy.View(), scheduler.timer, heartbeat.running, transport.View(),
        if session.activeAttempt == null then None else Some(session.activeAttempt.token.sessionId),
        orchestrator.pendingSignals, sink.emitted)
    }

    ghost function Env(): Env
      reads context
    {
      GatewaySpec.Env(context.config, context.now, context.aborted)
    }

    // ReconnectOrchestrator.scheduleReconnect.
    method ScheduleReconnect(draw: Draw)
      requires Wired()
      modifies Objects()
      ensures View() == GatewaySpec.ScheduleReconnect(Env(), old(View()), draw)
      ensures session.activeAttempt == old(session.activeAttempt)
    {
      if context.aborted || !context.config.reconnectEnabled {
        return;
      }
      var generation := state.BeginReconnectWindow();
      var decision := policy.ScheduleNextAttempt(context.now, draw);
      if decision.Exhausted? {
        var _ := state.CloseReconnectExhaustedIfCurrent(generation);
        return;
      }
      scheduler.Schedule(Timer(generation, context.now + decision.delayMs));
    }
  }

  /** One connection attempt (ConnectSession.ts, class ConnectAttempt). */
  class ConnectAttempt {
    const parts: RuntimeParts
    const token: Token
    const reconnectAttempt: bool
    var phase: Phase
    var didOpen: bool
    var connectSettled: bool
    var pendingTransportError: Option<GatewayError>
    var terminalError: Option<GatewayError>
    var handshakeTimer: bool
    var terminalCleanupCompleted: bool
    var abortListening: bool
    var promise: Settlement

    constructor (parts: RuntimeParts, reconnectAttempt: bool, token: Token)
      ensures this.parts == parts && View() == NewAttempt(token, reconnectAttempt)
    {
      this.parts, this.token, this.reconnectAttempt := parts, token, reconnectAttempt;
      phase, didOpen, connectSettled := TransportOpening, false, false;
      pendingTransportError, terminalError := None, None;
      handshakeTimer, terminalCleanupCompleted, abortListening := false, false, true;
      promise := Pending;
    }

    ghost function View(): Attempt
      reads this
    {
      Attempt(token, reconnectAttempt, phase, didOpen, connectSettled, pendingTransportError, terminalError,
              handshakeTimer, terminalCleanupCompleted, abortListening, promise)
    }

    ghost function Both(): Pair
      reads this, parts.Objects()
    {
      Pair(parts.View(), View())
    }

    // Only this attempt can sit in the active slot under its session id.
    ghost predicate SlotOk()
      reads parts.session
    {
      && parts.Wired()
      && (parts.session.activeAttempt != null && parts.session.activeAttempt.token.sessionId == token.sessionId ==>
            parts.session.activeAttempt == this)
    }

    // What every handler leaves of the slot: the attempt in it, or nothing.
    twostate predicate SlotKept()
      reads parts.session
    {
      parts.session.activeAttempt == old(parts.session.activeAttempt) || parts.session.activeAttempt == null
    }

    predicate IsTerminal()
      reads this, parts.state
    {
      phase.Terminal? || !parts.state.IsCurrentSession(token)
    }

    method ReleaseHandshakeOwnership()
      requires SlotOk()
      modifies parts.session
      ensures SlotOk() && SlotKept()
      ensures parts.View() == ReleaseOwnership(old(parts.View()), View())
    {
      if parts.session.activeAttempt == this {
        parts.session.activeAttempt := null;
      }
    }

    method CommitTerminalError(error: GatewayError) returns (committed: GatewayError)
      modifies this
      ensures View() == GatewaySpec.CommitTerminalError(old(View()), error)
      ensures terminalError == Some(committed)
    {
      if terminalError.Some? {
        return terminalError.value;
      }
      terminalError := Some(error);
      committed := error;
    }

    method RejectHandshake(error: GatewayError)
      requires SlotOk()
      modifies this, parts.Objects()
      ensures SlotOk() && SlotKept()
      ensures Both() == GatewaySpec.RejectHandshake(old(Both()), error)
    {
      if connectSettled {
        return;
      }
      connectSettled := true;
      abortListening := false;
      ReleaseHandshakeOwnership();
      promise := Settle(promise, Rejected(error));
    }

    method ResolveHandshake()
      requires SlotOk()
      modifies this, parts.Objects()
      ensures SlotOk() && SlotKept()
      ensures Both() == GatewaySpec.ResolveHandshake(old(Both()))
    {
      if connectSettled {
        return;
      }
      connectSettled := true;
      abortListening := false;
      ReleaseHandshakeOwnership();
      promise := Settle(promise, Resolved);
    }

    method EnterTerminal()
      requires SlotOk()
      modifies this, parts.Objects()
      ensures SlotOk() && SlotKept()
      ensures Both() == GatewaySpec.EnterTerminal(old(Both()))
    {
      if terminalCleanupCompleted {
        return;
      }
      CompleteCleanup();
      parts.heartbeat.Stop();
      parts.scheduler.Cancel();
      ReleaseHandshakeOwnership();
    }

    method FailBeforeReady(error: GatewayError, closeTransport: bool)
      requires SlotOk()
      modifies this, parts.Objects()
      ensures SlotOk() && SlotKept()
      ensures Both() == GatewaySpec.FailBeforeReady(old(Both()), error, closeTransport)
    {
      ghost var before := Both();
      var committed := CommitTerminalError(error);
      var _ := parts.state.CloseIfCurrent(token, committed);
      ghost var closed := Pair(before.sh.(life := before.sh.life.CloseIfCurrent(token, committed)), View());
      assert Both() == closed;
      RejectHandshake(committed);
      EnterTerminal();
      assert Both() == GatewaySpec.EnterTerminal(GatewaySpec.RejectHandshake(closed, committed));
      if closeTransport {
        parts.transport.Close();
      }
    }

    method FailAtRuntime(error: GatewayError)
      requires SlotOk()
      modifies this, parts.Objects()
      ensures SlotOk() && SlotKept()
      ensures Both() == GatewaySpec.FailAtRuntime(old(Both()), error)
    {
      var committed := CommitTerminalError(error);
      var _ := parts.state.CloseIfCurrent(token, committed);
      EnterTerminal();
    }

    method ContinueReconnectWindow()
      requires SlotOk()
      modifies this, parts.Objects()
      ensures SlotOk() && SlotKept()
      ensures Both() == GatewaySpec.ContinueReconnectWindow(old(Both()))
    {
      if terminalCleanupCompleted {
        return;
      }
      CompleteCleanup();
      parts.heartbeat.Stop();
      parts.orchestrator.pendingSignals := parts.orchestrator.pendingSignals + 1;
      ghost var sh, a := parts.View(), View();
      assert sh == old(parts.View()).(heartbeat := false, signals := old(parts.View()).signals + 1);
      ReleaseHandshakeOwnership();
      assert Both() == Pair(ReleaseOwnership(sh, a), a);
      promise := Settle(promise, ContinueSignalled);
    }

    // The bookkeeping both terminal paths share.
    method CompleteCleanup()
      modifies this
      ensures View() == CleanUp(old(View()))
    {
      phase := Terminal;
      terminalCleanupCompleted := true;
      pendingTransportError := None;
      handshakeTimer := false;
      abortListening := false;
    }

    method HandleAbort()
      requires SlotOk()
      modifies this, parts.Objects()
      ensures SlotOk() && SlotKept()
      ensures Both() == GatewaySpec.HandleAbort(old(Both()))
    {
      abortListening := false;
      if IsTerminal() {
        return;
      }
      var _ := parts.state.CloseIfCurrent(token, ABORT_ERROR);
      FailBeforeReady(ABORT_ERROR, true);
    }

    method HandleOpen(sendable: bool)
      requires SlotOk()
      modifies this, parts.Objects()
      ensures SlotOk() && SlotKept()
      ensures Both() == GatewaySpec.HandleOpen(parts.Env(), old(Both()), sendable)
    {
      if IsTerminal() {
        return;
      }
      didOpen := true;
      if sendable && parts.transport.owner.Some? {
        parts.transport.Write(Register);
        phase := RegisterSent;
        if parts.context.config.handshakeTimeoutMs > 0 {
          handshakeTimer := true;
        }
      } else {
        FailBeforeReady(GatewayError(ConnectParameterInvalid, StartupFailure, false), true);
      }
    }

    method HandleHandshakeTimeout()
      requires SlotOk()
      modifies this, parts.Objects()
      ensures SlotOk() && SlotKept()
      ensures Both() == GatewaySpec.HandleHandshakeTimeout(old(Both()))
    {
      FailBeforeReady(GatewayError(HandshakeTimeout, StartupFailure, true), true);
    }

    method HandleHandshakeResult(result: HandshakeResult)
      requires SlotOk()
      modifies this, parts.Objects()
      ensures SlotOk() && SlotKept()
      ensures Both() == GatewaySpec.HandleHandshakeResult(old(Both()), result)
    {
      match result
      case HandshakeReady =>
        if phase.PhaseReady? {
          return;
        }
        handshakeTimer := false;
        parts.policy.Reset();
        var applied := parts.state.FinishConnectIfCurrent(token);
        if !applied {
          return;
        }
        phase := PhaseReady;
        parts.heartbeat.Start();
        ResolveHandshake();
      case HandshakeFailed(error) =>
        FailBeforeReady(error, true);
    }

    method HandleMessage(frame: InFrame)
      requires SlotOk()
      modifies this, parts.Objects()
      ensures SlotOk() && SlotKept()
      ensures Both() == GatewaySpec.HandleMessage(old(Both()), frame)
    {
      if IsTerminal() {
        return;
      }
      if frame.HandshakeControl? || frame.InvalidHandshake? {
        HandleHandshakeResult(ProcessHandshake(frame));
      } else if frame.BusinessFrame? && parts.state.status.Ready? {
        parts.sink.emitted := parts.sink.emitted + [token.sessionId];
      }
    }

    method HandleError()
      requires SlotOk()
      modifies this
      ensures Both() == GatewaySpec.HandleError(old(Both()))
    {
      if IsTerminal() {
        return;
      }
      if terminalError.Some? || pendingTransportError.Some? {
        return;
      }
      pendingTransportError := Some(GatewayError(
        TransportError, if phase.PhaseReady? then RuntimeFailure else StartupFailure, true));
    }

    method HandleStartReconnectWindow(draw: Draw)
      requires SlotOk()
      modifies this, parts.Objects()
      ensures SlotOk() && SlotKept()
      ensures Both() == GatewaySpec.HandleStartReconnectWindow(parts.Env(), old(Both()), draw)
    {
      CommitTransportError();
      var applied := LeaveReconnecting();
      if !applied {
        return;
      }
      parts.ScheduleReconnect(draw);
    }

    method LeaveReconnecting() returns (applied: bool)
      requires SlotOk()
      modifies this, parts.Objects()
      ensures SlotOk() && SlotKept() && applied == old(parts.state.View().IsCurrent(token))
      ensures var p := old(Both());
              Both() == if !applied then p
                        else GatewaySpec.EnterTerminal(
                               p.(sh := p.sh.(life := p.sh.life.MarkReconnectingIfCurrent(token))))
    {
      applied := parts.state.MarkReconnectingIfCurrent(token);
      if applied {
        EnterTerminal();
      }
    }

    method CommitTransportError()
      modifies this
      ensures View() == GatewaySpec.CommitTerminalError(
                          old(View()),
                          ResolveTransportTerminalError(
                            old(View()), GatewayError(TransportError, RuntimeFailure, true)))
    {
      var error := ResolveTransportError(GatewayError(TransportError, RuntimeFailure, true));
      var _ := CommitTerminalError(error);
    }

    method HandleStopClose(code: CloseCode)
      requires SlotOk()
      modifies this, parts.Objects()
      ensures SlotOk() && SlotKept()
      ensures Both() == GatewaySpec.HandleStopClose(parts.Env(), old(Both()), code)
    {
      var rejected := IsRejectedCloseCode(code);
      if parts.state.manuallyDisconnected || parts.context.aborted {
        if phase.PhaseReady? {
          FailAtRuntime(ABORT_ERROR);
        } else {
          FailBeforeReady(ABORT_ERROR, false);
        }
        return;
      }
      if !didOpen {
        var error := GatewayError(AuthRejected, StartupFailure, false);
        if !rejected {
          error := ResolveTransportError(GatewayError(TransportError, StartupFailure, true));
        }
        FailBeforeReady(error, false);
        return;
      }
      if !phase.PhaseReady? {
        var error := ResolveTransportError(GatewayError(TransportError, StartupFailure, !rejected));
        FailBeforeReady(error, false);
        return;
      }
      var error := GatewayError(AuthRejected, RuntimeFailure, false);
      if !rejected {
        error := ResolveTransportError(GatewayError(TransportError, RuntimeFailure, true));
      }
      FailAtRuntime(error);
    }

    method ResolveTransportError(fallback: GatewayError) returns (error: GatewayError)
      ensures error == ResolveTransportTerminalError(View(), fallback)
    {
      if terminalError.Some? {
        return terminalError.value;
      }
      if pendingTransportError.None? {
        return fallback;
      }
      error := GatewayError(TransportError, fallback.disposition, pendingTransportError.value.retryable);
    }

    method HandleClose(code: CloseCode, draw: Draw)
      requires SlotOk()
      modifies this, parts.Objects()
      ensures SlotOk() && SlotKept()
      ensures Both() == GatewaySpec.HandleClose(parts.Env(), old(Both()), code, draw)
    {
      if IsTerminal() {
        return;
      }
      var decision := EvaluateReconnectOnClose(code, parts.state.manuallyDisconnected, parts.context.aborted,
                                               parts.context.config.reconnectEnabled, reconnectAttempt, phase);
      match decision
      case ContinueWindow => ContinueReconnectWindow();
      case StartWindow => HandleStartReconnectWindow(draw);
      case Stop => HandleStopClose(code);
    }

    method CancelManualDisconnect()
      requires SlotOk()
      modifies this, parts.Objects()
      ensures SlotOk() && SlotKept()
      ensures Both() == GatewaySpec.CancelManualDisconnect(old(Both()))
    {
      if terminalCleanupCompleted {
        return;
      }
      RejectHandshake(ABORT_ERROR);
      EnterTerminal();
    }
  }

  /** GatewayClientRuntime with its ConnectSession. `attempts` are the attempts whose callbacks the
      transport, the timers and the abort signal may still hold. */
  class GatewayClientRuntime {
    const parts: RuntimeParts
    var attempts: map<nat, ConnectAttempt>

    constructor (config: Config)
      ensures Valid() && View() == InitialClient(config)
      ensures fresh(parts) && fresh(parts.Objects()) && fresh(parts.context)
    {
      parts := new RuntimeParts(config);
      attempts := map[];
    }

    ghost predicate Valid()
      reads this, parts.session
    {
      && parts.Wired()
      && (forall s :: s in attempts ==> attempts[s].parts == parts && attempts[s].token.sessionId == s)
      && (parts.session.activeAttempt != null ==>
            var a := parts.session.activeAttempt;
            a.token.sessionId in attempts && attempts[a.token.sessionId] == a)
    }

    ghost function Objects(): set<object>
      reads this
    {
      {this, parts.context} + parts.Objects() + (set s | s in attempts :: attempts[s])
    }

    ghost function View(): Client
      reads Objects()
    {
      Client(parts.context.config, parts.View(), map s | s in attempts :: attempts[s].View(),
             parts.context.now, parts.context.aborted)
    }

    // A handler of one attempt changes that attempt and the shared parts only.
    twostate lemma OneAttempt(s: nat)
      requires old(Valid()) && s in attempts && attempts == old(attempts)
      requires forall t :: t in attempts && t != s ==> unchanged(attempts[t])
      requires unchanged(parts.context)
      requires attempts[s].SlotKept()
      ensures Valid() && View() == old(View()).With(s, attempts[s].Both())
    {
      assert attempts[s].parts == parts;
    }

    // So does anything that touches only the shared parts.
    twostate lemma SharedOnly()
      requires old(Valid()) && attempts == old(attempts)
      requires forall t :: t in attempts ==> unchanged(attempts[t])
      requires unchanged(parts.context)
      requires parts.session.activeAttempt == old(parts.session.activeAttempt) || parts.session.activeAttempt == null
      ensures Valid() && View() == old(View()).(sh := parts.View())
    {
    }

    lemma Distinct(s: nat)
      requires Valid() && s in attempts
      ensures attempts[s] in Objects() && attempts[s].parts == parts && attempts[s].SlotOk()
      ensures forall t :: t in attempts && t != s ==> attempts[t] != attempts[s]
      ensures forall t :: t in attempts ==> attempts[t] !in parts.Objects()
    {
    }

    // The open callback of one attempt.
    method OpenAttempt(s: nat, sendable: bool)
      requires Valid() && s in attempts
      modifies Objects()
      ensures Valid() && attempts == old(attempts)
      ensures View() == old(View()).With(
                          s, GatewaySpec.HandleOpen(old(parts.Env()), old(attempts[s].Both()), sendable))
    {
      Distinct(s);
      attempts[s].HandleOpen(sendable);
      OneAttempt(s);
    }

    method OnOpen(s: nat, sendable: bool)
      requires Valid() && s in attempts
      modifies Objects()
      ensures Valid() && View() == Step(old(View()), EvOpen(s, sendable))
    {
      OpenAttempt(s, sendable);
    }

    // Its close callback.
    method CloseAttempt(s: nat, code: CloseCode, draw: Draw)
      requires Valid() && s in attempts
      modifies Objects()
      ensures Valid() && attempts == old(attempts)
      ensures View() == old(View()).With(
                          s, GatewaySpec.HandleClose(old(parts.Env()), old(attempts[s].Both()), code, draw))
    {
      Distinct(s);
      attempts[s].HandleClose(code, draw);
      OneAttempt(s);
    }

    method OnClose(s: nat, code: CloseCode, draw: Draw)
      requires Valid() && s in attempts
      modifies Objects()
      ensures Valid() && View() == Step(old(View()), EvClose(s, code, draw))
    {
      CloseAttempt(s, code, draw);
    }

    method OnError(s: nat)
      requires Valid() && s in attempts
      modifies Objects()
      ensures Valid() && View() == Step(old(View()), EvError(s))
    {
      Distinct(s);
      attempts[s].HandleError();
      OneAttempt(s);
    }

    // A frame for it.
    method TakeFrame(s: nat, frame: InFrame)
      requires Valid() && s in attempts
      modifies Objects()
      ensures Valid() && attempts == old(attempts)
      ensures View() == old(View()).With(s, GatewaySpec.HandleMessage(old(attempts[s].Both()), frame))
    {
      Distinct(s);
      attempts[s].HandleMessage(frame);
      OneAttempt(s);
    }

    method OnMessage(s: nat, frame: InFrame)
      requires Valid() && s in attempts
      modifies Objects()
      ensures Valid() && View() == Step(old(View()), EvMessage(s, frame))
    {
      TakeFrame(s, frame);
    }

    // Its handshake timer.
    method TimeOutAttempt(s: nat)
      requires Valid() && s in attempts
      modifies Objects()
      ensures Valid() && attempts == old(attempts)
      ensures View() == old(View()).With(s, GatewaySpec.HandleHandshakeTimeout(old(attempts[s].Both())))
    {
      Distinct(s);
      attempts[s].HandleHandshakeTimeout();
      OneAttempt(s);
    }

    method OnHandshakeTimeout(s: nat)
      requires Valid() && s in attempts && attempts[s].handshakeTimer
      modifies Objects()
      ensures Valid() && View() == Step(old(View()), EvHandshakeTimeout(s))
    {
      TimeOutAttempt(s);
    }

    // Its abort listener.
    method AbortAttempt(s: nat)
      requires Valid() && s in attempts
      modifies Objects()
      ensures Valid() && attempts == old(attempts)
      ensures View() == old(View()).With(s, GatewaySpec.HandleAbort(old(attempts[s].Both())))
    {
      Distinct(s);
      attempts[s].HandleAbort();
      OneAttempt(s);
    }

    method OnAbortListener(s: nat)
      requires Valid() && s in attempts && attempts[s].abortListening && parts.context.aborted
      modifies Objects()
      ensures Valid() && View() == Step(old(View()), EvAbortListener(s))
    {
      AbortAttempt(s);
    }

    // A new attempt object, and no other change.
    twostate predicate AttemptAdded(s: nat)
      reads this
    {
      s in attempts && fresh(attempts[s]) && attempts == old(attempts)[s := attempts[s]]
    }

    // ConnectSession.connect.
    method ConnectInternal(reconnectAttempt: bool, preparation: Preparation)
      requires Valid()
      modifies Objects()
      ensures Valid() && View() == GatewaySpec.Connect(old(View()), reconnectAttempt, preparation)
      ensures attempts == old(attempts) || AttemptAdded(parts.state.nextSessionId)
    {
      if parts.state.status.Ready? || parts.session.activeAttempt != null {
        return;
      }
      ghost var before := View();
      var token := parts.state.BeginConnect(reconnectAttempt);
      SharedOnly();
      ghost var begun := before.(sh := before.sh.(life := before.sh.life.BeginConnect(reconnectAttempt)));
      assert View() == begun;
      if parts.context.aborted {
        var _ := parts.state.CloseIfCurrent(token, ABORT_ERROR);
        SharedOnly();
        return;
      }
      if preparation.PrepareFailed? {
        var _ := parts.state.CloseIfCurrent(token, preparation.error);
        SharedOnly();
        return;
      }
      StartAttempt(token, reconnectAttempt);
    }

    method StartAttempt(token: Token, reconnectAttempt: bool)
      requires Valid() && parts.session.activeAttempt == null
      modifies this, parts.session, parts.transport
      ensures Valid() && AttemptAdded(token.sessionId)
      ensures View() == old(View()).(
                        sh := old(View()).sh.(wire := OpenWire(old(View()).sh.wire, token.sessionId),
                                              active := Some(token.sessionId)),
                        attempts := old(View()).attempts[token.sessionId := NewAttempt(token, reconnectAttempt)])
    {
      var attempt := new ConnectAttempt(parts, reconnectAttempt, token);
      parts.session.activeAttempt := attempt;
      parts.transport.Open(token.sessionId);
      attempts := attempts[token.sessionId := attempt];
      AddedAttempt(attempt);
    }

    twostate lemma AddedAttempt(new attempt: ConnectAttempt)
      requires old(Valid()) && attempts == old(attempts)[attempt.token.sessionId := attempt]
      requires forall t :: t in old(attempts) ==> unchanged(old(attempts)[t])
      requires unchanged(parts.context) && attempt.parts == parts && parts.session.activeAttempt == attempt
      ensures Valid()
      ensures View() == old(View()).(
                        sh := parts.View(),
                        attempts := old(View()).attempts[attempt.token.sessionId := attempt.View()])
    {
    }

    // GatewayClientRuntime.disconnect.
    method Disconnect()
      requires Valid()
      modifies Objects()
      ensures Valid() && View() == GatewaySpec.Disconnect(old(View()))
    {
      ghost var before := View();
      parts.state.CloseManual();
      SharedOnly();
      if parts.session.activeAttempt != null {
        CancelActive();
      }
      assert View() == DisconnectActive(before);
      ReleaseResources();
    }

    method ReleaseResources()
      requires Valid()
      modifies parts.session, parts.heartbeat, parts.scheduler, parts.transport
      ensures Valid()
      ensures View() == old(View()).(sh := CloseWire(
                                       old(View()).sh.(active := None, heartbeat := false, timer := None)))
    {
      parts.session.activeAttempt := null;
      parts.heartbeat.Stop();
      parts.scheduler.Cancel();
      parts.transport.Close();
      SharedOnly();
    }

    // ConnectSession.cancelManualDisconnect.
    method CancelActive()
      requires Valid() && parts.session.activeAttempt != null
      modifies Objects()
      ensures Valid()
      ensures var s := old(parts.session.activeAttempt.token.sessionId);
        View() == old(View()).With(s, GatewaySpec.CancelManualDisconnect(old(View()).At(s)))
    {
      var s := parts.session.activeAttempt.token.sessionId;
      Distinct(s);
      attempts[s].CancelManualDisconnect();
      OneAttempt(s);
    }

    // What TimeoutReconnectScheduler runs.
    method OnReconnectTimer(preparation: Preparation)
      requires Valid() && parts.scheduler.timer.Some?
      requires parts.context.now >= parts.scheduler.timer.value.fireAt
      modifies Objects()
      ensures Valid() && View() == Step(old(View()), EvReconnectTimer(preparation))
    {
      FireTimer(preparation);
    }

    method FireTimer(preparation: Preparation)
      requires Valid() && parts.scheduler.timer.Some?
      modifies Objects()
      ensures Valid() && View() == FireReconnectTimer(old(View()), preparation)
    {
      var timer := parts.scheduler.timer.value;
      parts.scheduler.timer := None;
      SharedOnly();
      if parts.state.lifecycleGeneration != timer.generation || parts.state.manuallyDisconnected
         || parts.context.aborted {
        return;
      }
      RunReconnectTask(timer, preparation);
    }

    method RunReconnectTask(timer: Timer, preparation: Preparation)
      requires Valid()
      modifies Objects()
      ensures Valid() && View() == GatewaySpec.RunReconnectTask(old(View()), timer, preparation)
    {
      ghost var before := View();
      var exhausted := CreditAndCheck(timer);
      SharedOnly();
      assert View() == before.(sh := before.sh.(policy := parts.policy.View()));
      if exhausted {
        var _ := parts.state.CloseReconnectExhaustedIfCurrent(timer.generation);
        SharedOnly();
      } else {
        ConnectInternal(true, preparation);
      }
    }

    // Credits sleep drift, then asks the policy whether the window is used up.
    method CreditAndCheck(timer: Timer) returns (exhausted: bool)
      requires parts.Wired()
      modifies parts.policy
      ensures var credited := Credited(old(parts.policy.View()), timer, parts.context.now);
        && parts.policy.View() == credited.StartWindow(parts.context.now)
        && exhausted == credited.IsExhausted(parts.context.config.policy, parts.context.now)
    {
      var driftMs := parts.context.now - timer.fireAt;
      if driftMs > SLEEP_DRIFT_THRESHOLD_MS {
        var _ := parts.policy.RecordSuspendedDuration(driftMs);
      }
      var decision := parts.policy.GetExhaustedDecision(parts.context.now);
      exhausted := decision.Some?;
    }

    method OnContinueSignal(draw: Draw)
      requires Valid() && parts.orchestrator.pendingSignals > 0
      modifies Objects()
      ensures Valid() && View() == Step(old(View()), EvContinueSignal(draw))
    {
      CatchSignal(draw);
    }

    method CatchSignal(draw: Draw)
      requires Valid() && parts.orchestrator.pendingSignals > 0
      modifies Objects()
      ensures Valid()
      ensures View() == old(View()).(
                        sh := GatewaySpec.ScheduleReconnect(
                          old(View()).Context(), old(View()).sh.(signals := old(View()).sh.signals - 1), draw))
    {
      parts.orchestrator.pendingSignals := parts.orchestrator.pendingSignals - 1;
      ghost var sh := parts.View();
      parts.ScheduleReconnect(draw);
      assert parts.View() == GatewaySpec.ScheduleReconnect(parts.Env(), sh, draw);
      SharedOnly();
    }

    method WriteFrame(frame: OutFrame)
      requires Valid()
      modifies Objects()
      ensures Valid() && View() == old(View()).(sh := old(View()).sh.(wire := Send(old(View()).sh.wire, frame)))
    {
      parts.transport.Write(frame);
      SharedOnly();
    }

    // OutboundSender.send for a business message.
    method SendBusiness(sendable: bool)
      requires Valid()
      modifies Objects()
      ensures Valid() && View() == Step(old(View()), EvSend(sendable))
    {
      if sendable && parts.state.status.Ready? {
        WriteFrame(Business);
      }
    }

    method OnHeartbeat(sendable: bool)
      requires Valid() && parts.heartbeat.running
      modifies Objects()
      ensures Valid() && View() == Step(old(View()), EvHeartbeat(sendable))
    {
      if sendable {
        WriteFrame(Heartbeat);
      }
    }

    // The clock and the caller's abort signal.
    method Advance(ms: nat)
      requires Valid()
      modifies parts.context
      ensures Valid() && View() == Step(old(View()), EvAdvance(ms))
    {
      parts.context.now := parts.context.now + ms;
    }

    method Abort()
      requires Valid()
      modifies parts.context
      ensures Valid() && View() == Step(old(View()), EvAbort)
    {
      parts.context.aborted := true;
    }

    // Whatever comes next, if it can.
    method Handle(e: Event)
      requires Valid() && Possible(View(), e)
      modifies Objects()
      ensures Valid() && View() == Step(old(View()), e)
    {
      match e
      case EvConnect(preparation) => ConnectInternal(false, preparation);
      case EvDisconnect => Disconnect();
      case EvOpen(s, sendable) => OnOpen(s, sendable);
      case EvError(s) => OnError(s);
      case EvClose(s, code, draw) => OnClose(s, code, draw);
      case EvMessage(s, frame) => OnMessage(s, frame);
      case EvHandshakeTimeout(s) => OnHandshakeTimeout(s);
      case EvAbort => Abort();
      case EvAbortListener(s) => OnAbortListener(s);
      case EvReconnectTimer(preparation) => OnReconnectTimer(preparation);
      case EvContinueSignal(draw) => OnContinueSignal(draw);
      case EvHeartbeat(sendable) => OnHeartbeat(sendable);
      case EvSend(sendable) => SendBusiness(sendable);
      case EvAdvance(ms) => Advance(ms);
    }
  }

  /** The objects, driven through any run, are where the run of the client is. So they are ready exactly
      while their heartbeat runs, the active attempt object is exactly the unsettled one, every socket
      was written register (business | heartbeat)*, namely the traffic of the run, and the sink was given
      exactly the business messages that met a ready attempt. */
  method Drive(config: Config, events: seq<Event>) returns (rt: GatewayClientRuntime)
    requires IsRun(InitialClient(config), events)
    ensures fresh(rt) && rt.Valid() && rt.View() == Exec(InitialClient(config), events)
    ensures config.policy.maxElapsedMs > 0 ==>
              && (rt.parts.state.status.Ready? <==> rt.parts.heartbeat.running)
              && !rt.parts.state.threw
              && (forall s :: s in rt.attempts ==>
                    && (rt.attempts[s].promise.Pending? <==> rt.parts.session.activeAttempt == rt.attempts[s])
                    && s in rt.parts.transport.sent && RegisterFirst(rt.parts.transport.sent[s])
                    && rt.parts.transport.sent[s] == Traffic(InitialClient(config), events, s))
              && rt.parts.sink.emitted == Messages(InitialClient(config), events)
  {
    rt := Replay(config, events, |events|);
    AfterAll(InitialClient(config), events);
    if config.policy.maxElapsedMs > 0 {
      InitialInv(config);
      RunKeepsInv(InitialClient(config), events);
      DrivenObjects(rt);
      DrivenTraffic(rt, config, events);
    }
  }

  // What the sink and the sockets got.
  lemma DrivenTraffic(rt: GatewayClientRuntime, config: Config, events: seq<Event>)
    requires config.policy.maxElapsedMs > 0 && IsRun(InitialClient(config), events)
    requires rt.View() == Exec(InitialClient(config), events)
    ensures rt.parts.sink.emitted == Messages(InitialClient(config), events)
    ensures forall s :: s in rt.attempts && s in rt.parts.transport.sent ==>
              rt.parts.transport.sent[s] == Traffic(InitialClient(config), events, s)
  {
    var c := Exec(InitialClient(config), events);
    RunTellsTheTraffic(config, events, 0);
    forall s | s in rt.attempts && s in rt.parts.transport.sent
      ensures rt.parts.transport.sent[s] == Traffic(InitialClient(config), events, s)
    {
      RunTellsTheTraffic(config, events, s);
      assert s in c.attempts;
    }
  }

  // The objects after the first `k` events.
  method Replay(config: Config, events: seq<Event>, k: nat) returns (rt: GatewayClientRuntime)
    requires IsRun(InitialClient(config), events) && k <= |events|
    ensures fresh(rt) && fresh(rt.parts) && fresh(rt.Objects()) && rt.Valid()
    ensures rt.View() == After(InitialClient(config), events, k)
    decreases k
  {
    if k == 0 {
      rt := new GatewayClientRuntime(config);
    } else {
      rt := Replay(config, events, k - 1);
      HandleNext(rt, InitialClient(config), events, k);
      OwnAttemptsAreNew(rt);
    }
  }

  // An attempt of new parts is itself new.
  twostate lemma OwnAttemptsAreNew(new rt: GatewayClientRuntime)
    requires fresh(rt) && fresh(rt.parts) && fresh(rt.parts.Objects()) && fresh(rt.parts.context) && rt.Valid()
    ensures fresh(rt.Objects())
  {
    forall s | s in rt.attempts ensures fresh(rt.attempts[s]) {
      assert rt.attempts[s].parts == rt.parts;
    }
  }

  method HandleNext(rt: GatewayClientRuntime, ghost start: Client, events: seq<Event>, k: nat)
    requires rt.Valid() && 1 <= k <= |events| && IsRun(start, events) && rt.View() == After(start, events, k - 1)
    modifies rt.Objects()
    ensures rt.Valid() && rt.View() == After(start, events, k)
  {
    NextOf(start, events, k - 1);
    rt.Handle(events[k - 1]);
  }

  // The client after the first `k` events.
  ghost function After(start: Client, events: seq<Event>, k: nat): Client
    requires IsRun(start, events) && k <= |events|
    decreases k
  {
    if k == 0 then start else After(Step(start, events[0]), events[1..], k - 1)
  }

  lemma {:induction false} NextOf(start: Client, events: seq<Event>, k: nat)
    requires IsRun(start, events) && k < |events|
    ensures Delivered(After(start, events, k), events[k])
    ensures After(start, events, k + 1) == Step(After(start, events, k), events[k])
    decreases k
  {
    if k > 0 {
      NextOf(Step(start, events[0]), events[1..], k - 1);
    }
  }

  lemma {:induction false} AfterAll(start: Client, events: seq<Event>)
    requires IsRun(start, events)
    ensures After(start, events, |events|) == Exec(start, events)
    decreases |events|
  {
    if events != [] {
      AfterAll(Step(start, events[0]), events[1..]);
    }
  }

  // The invariant, read off the objects.
  lemma DrivenObjects(rt: GatewayClientRuntime)
    requires rt.Valid() && Inv(rt.View())
    ensures rt.parts.state.status.Ready? <==> rt.parts.heartbeat.running
    ensures !rt.parts.state.threw
    ensures forall s :: s in rt.attempts ==>
              && (rt.attempts[s].promise.Pending? <==> rt.parts.session.activeAttempt == rt.attempts[s])
              && s in rt.parts.transport.sent && RegisterFirst(rt.parts.transport.sent[s])
  {
    var c := rt.View();
    forall s | s in rt.attempts
      ensures rt.attempts[s].promise.Pending? <==> rt.parts.session.activeAttempt == rt.attempts[s]
      ensures s in rt.parts.transport.sent && RegisterFirst(rt.parts.transport.sent[s])
    {
      assert AttemptOk(c.sh, s, c.attempts[s]);
    }
  }
}
