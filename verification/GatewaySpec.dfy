// What one event does to a gateway client: the connection attempts made so far and everything
// they share. Each function follows the branches of the method it specifies
// (ConnectSession.ts, ReconnectOrchestrator.ts, GatewayClientRuntime.ts, OutboundSender.ts,
// HeartbeatLoop.ts, InboundFrameRouter.ts).
module GatewaySpec {
  import opened Prelude
  import opened GatewayStatus
  import opened GatewayLifecycle
  import opened ReconnectPolicy
  import opened CloseDecision

  const SLEEP_DRIFT_THRESHOLD_MS: nat := 60_000

  datatype Config = Config(reconnectEnabled: bool, handshakeTimeoutMs: int, policy: PolicyConfig)

  // The promise handed out by one connection attempt; the first settlement wins.
  datatype Settlement =
    | Pending
    | Resolved
    | Rejected(error: GatewayError)
    | ContinueSignalled

  datatype Attempt = Attempt(
    token: Token,
    reconnectAttempt: bool,
    phase: Phase,
    didOpen: bool,
    connectSettled: bool,
    pendingTransportError: Option<GatewayError>,
    terminalError: Option<GatewayError>,
    handshakeTimer: bool,
    cleaned: bool,
    abortListening: bool,
    promise: Settlement)

  datatype OutFrame = Register | Heartbeat | Business

  /** The abstract transport: the session that opened it last (None after close), how often it was
      opened, and the frames written to each session's socket. */
  datatype Wire = Wire(owner: Option<nat>, opens: nat, sent: map<nat, seq<OutFrame>>)

  datatype Timer = Timer(generation: nat, fireAt: int)

  /** Everything the attempts share. `signals` counts continue signals rejected but not yet caught
      by the orchestrator; `emitted` is the sessions whose business messages went up. */
  datatype Shared = Shared(
    life: Lifecycle,
    policy: Policy,
    timer: Option<Timer>,
    heartbeat: bool,
    wire: Wire,
    active: Option<nat>,
    signals: nat,
    emitted: seq<nat>)

  datatype Env = Env(config: Config, now: int, aborted: bool)

  // The shared state together with the attempt an event is about.
  datatype Pair = Pair(sh: Shared, a: Attempt)

  // ---- Inbound frames ----

  datatype ControlKind = RegisterOk | RegisterRejected | OtherControl

  datatype InFrame =
    | NonParsed
    | HandshakeControl(kind: ControlKind)
    | InvalidHandshake
    | BusinessFrame
    | InvalidBusiness

  datatype HandshakeResult = HandshakeReady | HandshakeFailed(error: GatewayError)

  // HandshakeFrameProcessor.process.
  function ProcessHandshake(frame: InFrame): HandshakeResult
    requires frame.HandshakeControl? || frame.InvalidHandshake?
  {
    match frame
    case InvalidHandshake => HandshakeFailed(GatewayError(HandshakeInvalid, StartupFailure, false))
    case HandshakeControl(RegisterOk) => HandshakeReady
    case HandshakeControl(RegisterRejected) => HandshakeFailed(GatewayError(HandshakeRejected, StartupFailure, false))
    case HandshakeControl(OtherControl) => HandshakeFailed(GatewayError(HandshakeInvalid, StartupFailure, false))
  }

  // ---- Terminal paths of one attempt ----

  function Settle(promise: Settlement, outcome: Settlement): Settlement {
    if promise.Pending? then outcome else promise
  }

  function ReleaseOwnership(sh: Shared, a: Attempt): Shared {
    if sh.active == Some(a.token.sessionId) then sh.(active := None) else sh
  }

  function CommitTerminalError(a: Attempt, error: GatewayError): Attempt {
    if a.terminalError.Some? then a else a.(terminalError := Some(error))
  }

  function RejectHandshake(p: Pair, error: GatewayError): Pair {
    if p.a.connectSettled then p
    else Pair(
        ReleaseOwnership(p.sh, p.a),
        p.a.(connectSettled := true, abortListening := false, promise := Settle(p.a.promise, Rejected(error))))
  }

  function ResolveHandshake(p: Pair): Pair {
    if p.a.connectSettled then p
    else Pair(
        ReleaseOwnership(p.sh, p.a),
        p.a.(connectSettled := true, abortListening := false, promise := Settle(p.a.promise, Resolved)))
  }

  function CleanUp(a: Attempt): Attempt {
    a.(phase := Terminal, cleaned := true, pendingTransportError := None, handshakeTimer := false,
    abortListening := false)
  }

  function EnterTerminal(p: Pair): Pair {
    if p.a.cleaned then p
    else Pair(ReleaseOwnership(p.sh.(heartbeat := false, timer := None), p.a), CleanUp(p.a))
  }

  function CloseWire(sh: Shared): Shared {
    sh.(wire := sh.wire.(owner := None))
  }

  function FailBeforeReady(p: Pair, error: GatewayError, closeTransport: bool): Pair {
    var a := CommitTerminalError(p.a, error);
    var sh := p.sh.(life := p.sh.life.CloseIfCurrent(a.token, a.terminalError.value));
    var done := EnterTerminal(RejectHandshake(Pair(sh, a), a.terminalError.value));
    if closeTransport then done.(sh := CloseWire(done.sh)) else done
  }

  function FailAtRuntime(p: Pair, error: GatewayError): Pair {
    var a := CommitTerminalError(p.a, error);
    EnterTerminal(Pair(p.sh.(life := p.sh.life.CloseIfCurrent(a.token, a.terminalError.value)), a))
  }

  // continueReconnectWindow: the attempt is over but its session keeps its token, and the retry is
  // left to whoever awaits the promise.
  function ContinueReconnectWindow(p: Pair): Pair {
    if p.a.cleaned then p
    else Pair(
        ReleaseOwnership(p.sh.(heartbeat := false, signals := p.sh.signals + 1), p.a),
        CleanUp(p.a).(promise := Settle(p.a.promise, ContinueSignalled)))
  }

  function ResolveTransportTerminalError(a: Attempt, fallback: GatewayError): GatewayError {
    if a.terminalError.Some? then a.terminalError.value
    else if a.pendingTransportError.None? then fallback
    else GatewayError(TransportError, fallback.disposition, a.pendingTransportError.value.retryable)
  }

  // ---- ReconnectOrchestrator ----

  function ScheduleReconnect(env: Env, sh: Shared, draw: Draw): Shared {
    if env.aborted || !env.config.reconnectEnabled then sh
    else
      var generation := sh.life.generation;
      var life := sh.life.BeginReconnectWindow();
      var decision := sh.policy.DecideNext(env.config.policy, env.now, draw);
      var policy := sh.policy.AfterNext(env.config.policy, env.now, draw);
      if decision.Exhausted? then
        sh.(life := life.CloseReconnectExhaustedIfCurrent(generation), policy := policy)
      else
        sh.(life := life, policy := policy, timer := Some(Timer(generation, env.now + decision.delayMs)))
  }

  // ---- Events of one attempt ----

  predicate IsTerminal(sh: Shared, a: Attempt) {
    a.phase.Terminal? || !sh.life.IsCurrent(a.token)
  }

  function HandleAbort(p: Pair): Pair {
    var a := p.a.(abortListening := false); // registered with { once: true }
    if IsTerminal(p.sh, a) then Pair(p.sh, a)
    else FailBeforeReady(Pair(p.sh.(life := p.sh.life.CloseIfCurrent(a.token, ABORT_ERROR)), a), ABORT_ERROR, true)
  }

  function Send(wire: Wire, frame: OutFrame): Wire {
    if wire.owner.None? || wire.owner.value !in wire.sent then wire
    else wire.(sent := wire.sent[wire.owner.value := wire.sent[wire.owner.value] + [frame]])
  }

  // `sendable` says whether the transport reports itself open and the frame passes the protocol gate.
  function HandleOpen(env: Env, p: Pair, sendable: bool): Pair {
    if IsTerminal(p.sh, p.a) then p
    else
      var a := p.a.(didOpen := true);
      if sendable && p.sh.wire.owner.Some? then
        Pair(p.sh.(wire := Send(p.sh.wire, Register)),
             a.(phase := RegisterSent, handshakeTimer := a.handshakeTimer || env.config.handshakeTimeoutMs > 0))
      else
        FailBeforeReady(Pair(p.sh, a), GatewayError(ConnectParameterInvalid, StartupFailure, false), true)
  }

  function HandleHandshakeTimeout(p: Pair): Pair {
    FailBeforeReady(p, GatewayError(HandshakeTimeout, StartupFailure, true), true)
  }

  function HandleHandshakeResult(p: Pair, result: HandshakeResult): Pair {
    match result
    case HandshakeReady =>
      if p.a.phase.PhaseReady? then p
      else
        var sh := p.sh.(policy := FRESH_POLICY);
        var a := p.a.(handshakeTimer := false);
        if !sh.life.IsCurrent(a.token) then Pair(sh, a)
        else ResolveHandshake(Pair(
            sh.(life := sh.life.FinishConnectIfCurrent(a.token), heartbeat := true),
            a.(phase := PhaseReady)))
    case HandshakeFailed(error) => FailBeforeReady(p, error, true)
  }

  function HandleMessage(p: Pair, frame: InFrame): Pair {
    if IsTerminal(p.sh, p.a) then p
    else match frame
      case NonParsed => p
      case InvalidBusiness => p
      case BusinessFrame =>
        // InboundFrameRouter: a business frame goes up only while the client is ready.
        if p.sh.life.status.Ready? then p.(sh := p.sh.(emitted := p.sh.emitted + [p.a.token.sessionId])) else p
      case HandshakeControl(_) => HandleHandshakeResult(p, ProcessHandshake(frame))
      case InvalidHandshake => HandleHandshakeResult(p, ProcessHandshake(frame))
  }

  function HandleError(p: Pair): Pair {
    if IsTerminal(p.sh, p.a) || p.a.terminalError.Some? || p.a.pendingTransportError.Some? then p
    else p.(a := p.a.(pendingTransportError := Some(GatewayError(
                TransportError, if p.a.phase.PhaseReady? then RuntimeFailure else StartupFailure, true))))
  }

  function HandleStartReconnectWindow(env: Env, p: Pair, draw: Draw): Pair {
    var a := CommitTerminalError(p.a,
               ResolveTransportTerminalError(p.a, GatewayError(TransportError, RuntimeFailure, true)));
    if !p.sh.life.IsCurrent(a.token) then p.(a := a)
    else
      var left := EnterTerminal(Pair(p.sh.(life := p.sh.life.MarkReconnectingIfCurrent(a.token)), a));
      left.(sh := ScheduleReconnect(env, left.sh, draw))
  }

  function HandleStopClose(env: Env, p: Pair, code: CloseCode): Pair {
    var rejected := IsRejectedCloseCode(code);
    if p.sh.life.manuallyDisconnected || env.aborted then
      if p.a.phase.PhaseReady? then FailAtRuntime(p, ABORT_ERROR)
      else FailBeforeReady(p, ABORT_ERROR, false)
    else if !p.a.didOpen then
      FailBeforeReady(p,
        if rejected then GatewayError(AuthRejected, StartupFailure, false)
        else ResolveTransportTerminalError(p.a, GatewayError(TransportError, StartupFailure, true)), false)
    else if !p.a.phase.PhaseReady? then
      FailBeforeReady(p,
        ResolveTransportTerminalError(p.a, GatewayError(TransportError, StartupFailure, !rejected)), false)
    else
      FailAtRuntime(p,
        if rejected then GatewayError(AuthRejected, RuntimeFailure, false)
        else ResolveTransportTerminalError(p.a, GatewayError(TransportError, RuntimeFailure, true)))
  }

  function HandleClose(env: Env, p: Pair, code: CloseCode, draw: Draw): Pair {
    if IsTerminal(p.sh, p.a) then p
    else match EvaluateReconnectOnClose(code, p.sh.life.manuallyDisconnected, env.aborted,
                                        env.config.reconnectEnabled, p.a.reconnectAttempt, p.a.phase)
      case ContinueWindow => ContinueReconnectWindow(p)
      case StartWindow => HandleStartReconnectWindow(env, p, draw)
      case Stop => HandleStopClose(env, p, code)
  }

  function CancelManualDisconnect(p: Pair): Pair {
    if p.a.cleaned then p else EnterTerminal(RejectHandshake(p, ABORT_ERROR))
  }

  // ---- The client ----

  datatype Client = Client(config: Config, sh: Shared, attempts: map<nat, Attempt>, now: int, aborted: bool)
  {
    function Context(): Env {
      Env(config, now, aborted)
    }

    function At(session: nat): Pair
      requires session in attempts
    {
      Pair(sh, attempts[session])
    }

    function With(session: nat, p: Pair): Client {
      this.(sh := p.sh, attempts := attempts[session := p.a])
    }
  }

  const INITIAL_SHARED := Shared(INITIAL_LIFECYCLE, FRESH_POLICY, None, false, Wire(None, 0, map[]), None, 0, [])

  function InitialClient(config: Config): Client {
    Client(config, INITIAL_SHARED, map[], 0, false)
  }

  // Parsing the URL and building the auth subprotocol, before the transport is opened.
  datatype Preparation = Prepared | PrepareFailed(error: GatewayError)

  function NewAttempt(token: Token, reconnectAttempt: bool): Attempt {
    Attempt(token, reconnectAttempt, TransportOpening, false, false, None, None, false, false, true, Pending)
  }

  function OpenWire(wire: Wire, session: nat): Wire {
    Wire(Some(session), wire.opens + 1, wire.sent[session := []])
  }

  // ConnectSession.connect.
  function Connect(c: Client, reconnectAttempt: bool, preparation: Preparation): Client {
    if c.sh.life.status.Ready? || c.sh.active.Some? then c
    else
      var token := c.sh.life.NextToken();
      var life := c.sh.life.BeginConnect(reconnectAttempt);
      if c.aborted then c.(sh := c.sh.(life := life.CloseIfCurrent(token, ABORT_ERROR)))
      else match preparation
        case PrepareFailed(error) => c.(sh := c.sh.(life := life.CloseIfCurrent(token, error)))
        case Prepared =>
          c.(sh := c.sh.(life := life, wire := OpenWire(c.sh.wire, token.sessionId), active := Some(token.sessionId)),
          attempts := c.attempts[token.sessionId := NewAttempt(token, reconnectAttempt)])
  }

  function DisconnectActive(c: Client): Client {
    var closed := c.(sh := c.sh.(life := c.sh.life.CloseManual()));
    if c.sh.active.Some? && c.sh.active.value in c.attempts then
      closed.With(c.sh.active.value, CancelManualDisconnect(closed.At(c.sh.active.value)))
    else closed
  }

  // GatewayClientRuntime.disconnect.
  function Disconnect(c: Client): Client {
    var cancelled := DisconnectActive(c);
    cancelled.(sh := CloseWire(cancelled.sh.(active := None, heartbeat := false, timer := None)))
  }

  // A timer later than the threshold is taken for sleep, and its whole lateness credited back.
  function Credited(policy: Policy, timer: Timer, now: int): Policy {
    if now - timer.fireAt > SLEEP_DRIFT_THRESHOLD_MS then policy.RecordSuspended(now - timer.fireAt) else policy
  }

  // The body of the scheduled retry, once it is known to be still wanted.
  function RunReconnectTask(c: Client, timer: Timer, preparation: Preparation): Client {
    var credited := Credited(c.sh.policy, timer, c.now);
    var checked := c.(sh := c.sh.(policy := credited.StartWindow(c.now)));
    if credited.IsExhausted(c.config.policy, c.now) then
      checked.(sh := checked.sh.(life := checked.sh.life.CloseReconnectExhaustedIfCurrent(timer.generation)))
    else Connect(checked, true, preparation)
  }

  function FireReconnectTimer(c: Client, preparation: Preparation): Client
    requires c.sh.timer.Some?
  {
    var timer := c.sh.timer.value;
    var fired := c.(sh := c.sh.(timer := None));
    if c.sh.life.generation != timer.generation || c.sh.life.manuallyDisconnected || c.aborted then fired
    else RunReconnectTask(fired, timer, preparation)
  }

  datatype Event =
    | EvConnect(preparation: Preparation)
    | EvDisconnect
    | EvOpen(session: nat, sendable: bool)
    | EvError(session: nat)
    | EvClose(session: nat, code: CloseCode, draw: Draw)
    | EvMessage(session: nat, frame: InFrame)
    | EvHandshakeTimeout(session: nat)
    | EvAbort
    | EvAbortListener(session: nat)
    | EvReconnectTimer(preparation: Preparation)
    | EvContinueSignal(draw: Draw)
    | EvHeartbeat(sendable: bool)
    | EvSend(sendable: bool)
    | EvAdvance(ms: nat)

  /** What the platform can deliver at all: callbacks only on attempts that exist, timers only when
      armed and never early, a listener only while bound. */
  predicate Possible(c: Client, e: Event) {
    match e
    case EvOpen(s, _) => s in c.attempts
    case EvError(s) => s in c.attempts
    case EvClose(s, _, _) => s in c.attempts
    case EvMessage(s, _) => s in c.attempts
    case EvHandshakeTimeout(s) => s in c.attempts && c.attempts[s].handshakeTimer
    case EvAbortListener(s) => s in c.attempts && c.attempts[s].abortListening && c.aborted
    case EvReconnectTimer(_) => c.sh.timer.Some? && c.now >= c.sh.timer.value.fireAt
    case EvContinueSignal(_) => c.sh.signals > 0
    case EvHeartbeat(_) => c.sh.heartbeat
    case _ => true
  }

  function Step(c: Client, e: Event): Client
    requires Possible(c, e)
  {
    match e
    case EvConnect(preparation) => Connect(c, false, preparation)
    case EvDisconnect => Disconnect(c)
    case EvOpen(s, sendable) => c.With(s, HandleOpen(c.Context(), c.At(s), sendable))
    case EvError(s) => c.With(s, HandleError(c.At(s)))
    case EvClose(s, code, draw) => c.With(s, HandleClose(c.Context(), c.At(s), code, draw))
    case EvMessage(s, frame) => c.With(s, HandleMessage(c.At(s), frame))
    case EvHandshakeTimeout(s) => c.With(s, HandleHandshakeTimeout(c.At(s)))
    case EvAbort => c.(aborted := true)
    case EvAbortListener(s) => c.With(s, HandleAbort(c.At(s)))
    case EvReconnectTimer(preparation) => FireReconnectTimer(c, preparation)
    case EvContinueSignal(draw) => c.(sh := ScheduleReconnect(c.Context(), c.sh.(signals := c.sh.signals - 1), draw))
    case EvHeartbeat(sendable) => if sendable then c.(sh := c.sh.(wire := Send(c.sh.wire, Heartbeat))) else c
    case EvSend(sendable) =>
      if sendable && c.sh.life.status.Ready? then c.(sh := c.sh.(wire := Send(c.sh.wire, Business))) else c
    case EvAdvance(ms) => c.(now := c.now + ms)
  }
}
