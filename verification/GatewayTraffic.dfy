// What goes over the wire of a gateway client, and what is handed up, against the events of its run.
module GatewayTraffic {
  import opened Prelude
  import opened GatewayStatus
  import opened ReconnectPolicy
  import opened CloseDecision
  import opened GatewaySpec
  import opened GatewayInvariant
  import opened GatewayRuns

  // ---- Messages handed up ----

  // The session whose business message an event hands up, if it does.
  function HandedUp(c: Client, e: Event): seq<nat> {
    if e.EvMessage? && e.frame.BusinessFrame? && IsReadyAttempt(c, e.session) then [e.session] else []
  }

  // The business frames of the run that met a ready attempt, by session.
  function Messages(c: Client, events: seq<Event>): seq<nat>
    requires IsRun(c, events)
    decreases |events|
  {
    if events == [] then [] else HandedUp(c, events[0]) + Messages(Step(c, events[0]), events[1..])
  }

  lemma Regroup<T>(a: seq<T>, b: seq<T>, c: seq<T>)
    ensures a + b + c == a + (b + c)
  {
  }

  lemma StepHandsUp(c: Client, e: Event)
    requires Inv(c) && Delivered(c, e)
    ensures Step(c, e).sh.emitted == c.sh.emitted + HandedUp(c, e)
  {
    MessagesNeedReady(c, e);
    if HandedUp(c, e) != [] {
      assert AttemptOk(c.sh, e.session, c.attempts[e.session]);
    }
  }

  lemma FirstHandsUp(c: Client, events: seq<Event>) returns (next: Client)
    requires events != [] && Inv(c) && IsRun(c, events)
    ensures Inv(next) && IsRun(next, events[1..]) && Exec(c, events) == Exec(next, events[1..])
    ensures next.sh.emitted == c.sh.emitted + HandedUp(c, events[0])
    ensures Messages(c, events) == HandedUp(c, events[0]) + Messages(next, events[1..])
  {
    StepKeepsInv(c, events[0]);
    StepHandsUp(c, events[0]);
    next := Step(c, events[0]);
  }

  /** On every run, exactly the business frames that meet a ready attempt are handed up, in order, each once. */
  lemma {:induction false} EmittedAreTheMessages(c: Client, events: seq<Event>)
    requires Inv(c) && IsRun(c, events)
    ensures Exec(c, events).sh.emitted == c.sh.emitted + Messages(c, events)
    decreases |events|
  {
    if events != [] {
      var next := FirstHandsUp(c, events);
      EmittedAreTheMessages(next, events[1..]);
      Regroup(c.sh.emitted, HandedUp(c, events[0]), Messages(next, events[1..]));
    }
  }

  // ---- Who owns the transport ----

  predicate Registered(a: Attempt) {
    a.phase.RegisterSent? || a.phase.PhaseReady?
  }

  // Once the current attempt has registered, the transport stays open while it is current and not over.
  ghost predicate OwnsWire(c: Client) {
    forall s :: s in c.attempts && c.sh.life.IsCurrent(c.attempts[s].token) && Registered(c.attempts[s]) ==>
                  c.sh.wire.owner.Some?
  }

  predicate LocalOwns(p: Pair) {
    p.sh.life.IsCurrent(p.a.token) && Registered(p.a) ==> p.sh.wire.owner.Some?
  }

  // A handler leaves the attempt's token alone, takes no other session up, and closes no one else's transport.
  predicate KeepsOwner(p: Pair, q: Pair) {
    && LocalOwns(q) && q.a.token == p.a.token && q.sh.life.generation == p.sh.life.generation
    && (q.sh.life.activeSessionId == p.sh.life.activeSessionId || q.sh.life.activeSessionId.None?)
    && (q.sh.wire.owner == p.sh.wire.owner || p.sh.life.IsCurrent(p.a.token) || p.sh.life.activeSessionId.None?)
  }

  // An attempt whose timer or abort signal may still fire is the current one, or nothing is current.
  predicate MayEnd(p: Pair) {
    PhaseOk(p.a) && LocalOwns(p) && (p.sh.life.IsCurrent(p.a.token) || p.sh.life.activeSessionId.None?)
  }

  lemma FailKeepsOwner(p: Pair, error: GatewayError, closeTransport: bool)
    requires MayEnd(p)
    ensures KeepsOwner(p, FailBeforeReady(p, error, closeTransport))
  {
    var a := CommitTerminalError(p.a, error);
    var life := p.sh.life.CloseIfCurrent(a.token, a.terminalError.value);
    assert life.generation == p.sh.life.generation && life.activeSessionId.None?;
    var done := EnterTerminal(RejectHandshake(Pair(p.sh.(life := life), a), a.terminalError.value));
    assert done.sh.life == life && done.sh.wire == p.sh.wire && done.a.token == p.a.token && done.a.cleaned;
  }

  lemma RuntimeFailKeepsOwner(p: Pair, error: GatewayError)
    requires MayEnd(p)
    ensures KeepsOwner(p, FailAtRuntime(p, error))
  {
  }

  lemma StopKeepsOwner(env: Env, p: Pair, code: CloseCode)
    requires MayEnd(p)
    ensures KeepsOwner(p, HandleStopClose(env, p, code))
  {
    forall error
      ensures KeepsOwner(p, FailBeforeReady(p, error, false)) && KeepsOwner(p, FailAtRuntime(p, error))
    {
      FailKeepsOwner(p, error, false);
      RuntimeFailKeepsOwner(p, error);
    }
  }

  lemma StartWindowKeepsOwner(env: Env, p: Pair, draw: Draw)
    requires MayEnd(p)
    ensures KeepsOwner(p, HandleStartReconnectWindow(env, p, draw))
  {
  }

  lemma CloseKeepsOwner(env: Env, p: Pair, code: CloseCode, draw: Draw)
    requires PhaseOk(p.a) && LocalOwns(p)
    ensures KeepsOwner(p, HandleClose(env, p, code, draw))
  {
    if !IsTerminal(p.sh, p.a) {
      StopKeepsOwner(env, p, code);
      StartWindowKeepsOwner(env, p, draw);
    }
  }

  lemma MessageKeepsOwner(p: Pair, frame: InFrame)
    requires PhaseOk(p.a) && LocalOwns(p) && (IsTerminal(p.sh, p.a) || p.a.didOpen)
    ensures KeepsOwner(p, HandleMessage(p, frame))
  {
    if !IsTerminal(p.sh, p.a) && (frame.HandshakeControl? || frame.InvalidHandshake?) {
      var result := ProcessHandshake(frame);
      if result.HandshakeFailed? {
        FailKeepsOwner(p, result.error, true);
      }
    }
  }

  lemma OpenKeepsOwner(env: Env, p: Pair, sendable: bool)
    requires PhaseOk(p.a) && LocalOwns(p)
    ensures KeepsOwner(p, HandleOpen(env, p, sendable))
  {
  }

  lemma AbortKeepsOwner(p: Pair)
    requires MayEnd(p)
    ensures KeepsOwner(p, HandleAbort(p))
  {
  }

  // Back to all attempts.
  lemma LiftOwner(c: Client, s: nat, q: Pair)
    requires Inv(c) && OwnsWire(c) && s in c.attempts && KeepsOwner(c.At(s), q)
    ensures OwnsWire(c.With(s, q))
  {
    var after := c.With(s, q);
    forall t | t in after.attempts && after.sh.life.IsCurrent(after.attempts[t].token) && Registered(after.attempts[t])
      ensures after.sh.wire.owner.Some?
    {
      assert AttemptOk(c.sh, t, c.attempts[t]) && AttemptOk(c.sh, s, c.attempts[s]);
    }
  }

  lemma LocalOwner(c: Client, s: nat)
    requires Inv(c) && OwnsWire(c) && s in c.attempts
    ensures PhaseOk(c.attempts[s]) && LocalOwns(c.At(s))
    ensures c.attempts[s].promise.Pending? ==> MayEnd(c.At(s))
  {
    assert AttemptOk(c.sh, s, c.attempts[s]);
  }

  // Connecting, disconnecting and everything else that is not about one attempt.
  lemma SharedEventKeepsOwner(c: Client, e: Event)
    requires Inv(c) && OwnsWire(c) && Delivered(c, e)
    requires e.EvAbort? || e.EvContinueSignal? || e.EvHeartbeat? || e.EvSend? || e.EvAdvance?
    ensures OwnsWire(Step(c, e))
  {
  }

  lemma ConnectKeepsOwner(c: Client, next: Client, reconnectAttempt: bool, preparation: Preparation)
    requires Inv(c) && OwnsWire(c) && next == c.(sh := c.sh.(timer := next.sh.timer, policy := next.sh.policy))
    ensures OwnsWire(Connect(next, reconnectAttempt, preparation))
  {
    var after := Connect(next, reconnectAttempt, preparation);
    forall t | t in after.attempts && after.sh.life.IsCurrent(after.attempts[t].token) && Registered(after.attempts[t])
      ensures after.sh.wire.owner.Some?
    {
      if t in c.attempts {
        assert AttemptOk(c.sh, t, c.attempts[t]);
      }
    }
  }

  lemma DisconnectKeepsOwner(c: Client)
    requires Inv(c) && OwnsWire(c)
    ensures OwnsWire(Disconnect(c))
  {
    DisconnectEffect(c);
  }

  lemma TimerKeepsOwner(c: Client, preparation: Preparation)
    requires Inv(c) && OwnsWire(c) && Possible(c, EvReconnectTimer(preparation))
    ensures OwnsWire(FireReconnectTimer(c, preparation))
  {
    var timer := c.sh.timer.value;
    var credited := Credited(c.sh.policy, timer, c.now);
    ConnectKeepsOwner(c, c.(sh := c.sh.(timer := None, policy := credited.StartWindow(c.now))), true, preparation);
  }

  lemma StepKeepsOwner(c: Client, e: Event)
    requires Inv(c) && OwnsWire(c) && Delivered(c, e)
    ensures OwnsWire(Step(c, e))
  {
    match e
    case EvConnect(preparation) => ConnectKeepsOwner(c, c, false, preparation);
    case EvDisconnect => DisconnectKeepsOwner(c);
    case EvReconnectTimer(preparation) => TimerKeepsOwner(c, preparation);
    case EvContinueSignal(_) => SharedEventKeepsOwner(c, e);
    case EvAbort => SharedEventKeepsOwner(c, e);
    case EvHeartbeat(_) => SharedEventKeepsOwner(c, e);
    case EvSend(_) => SharedEventKeepsOwner(c, e);
    case EvAdvance(_) => SharedEventKeepsOwner(c, e);
    case _ => AttemptEventKeepsOwner(c, e);
  }

  lemma AttemptEventKeepsOwner(c: Client, e: Event)
    requires Inv(c) && OwnsWire(c) && Delivered(c, e)
    requires e.EvOpen? || e.EvError? || e.EvClose? || e.EvMessage? || e.EvHandshakeTimeout? || e.EvAbortListener?
    ensures OwnsWire(Step(c, e))
  {
    LocalOwner(c, e.session);
    match e
    case EvOpen(s, sendable) =>
      OpenKeepsOwner(c.Context(), c.At(s), sendable);
      LiftOwner(c, s, HandleOpen(c.Context(), c.At(s), sendable));
    case EvError(s) =>
      LiftOwner(c, s, HandleError(c.At(s)));
    case EvClose(s, code, draw) =>
      CloseKeepsOwner(c.Context(), c.At(s), code, draw);
      LiftOwner(c, s, HandleClose(c.Context(), c.At(s), code, draw));
    case EvMessage(s, frame) =>
      MessageKeepsOwner(c.At(s), frame);
      LiftOwner(c, s, HandleMessage(c.At(s), frame));
    case EvHandshakeTimeout(s) =>
      FailKeepsOwner(c.At(s), GatewayError(HandshakeTimeout, StartupFailure, true), true);
      LiftOwner(c, s, HandleHandshakeTimeout(c.At(s)));
    case EvAbortListener(s) =>
      AbortKeepsOwner(c.At(s));
      LiftOwner(c, s, HandleAbort(c.At(s)));
  }

  // ---- Frames written ----

  // What an event writes to the socket of attempt `s`: register when it opens as the current one, heartbeats and
  // business frames while it makes the client ready.
  function Written(c: Client, e: Event, s: nat): seq<OutFrame> {
    match e
    case EvOpen(t, sendable) =>
      if t == s && s in c.attempts && sendable && c.sh.wire.owner.Some? && !IsTerminal(c.sh, c.attempts[s])
      then [Register] else []
    case EvHeartbeat(sendable) => if sendable && IsReadyAttempt(c, s) then [Heartbeat] else []
    case EvSend(sendable) => if sendable && IsReadyAttempt(c, s) then [Business] else []
    case _ => []
  }

  // The frames the run writes to that socket, in order.
  function Traffic(c: Client, events: seq<Event>, s: nat): seq<OutFrame>
    requires IsRun(c, events)
    decreases |events|
  {
    if events == [] then [] else Written(c, events[0], s) + Traffic(Step(c, events[0]), events[1..], s)
  }

  // What was written before; an attempt still to be made starts with nothing.
  function Frames(c: Client, s: nat): seq<OutFrame> {
    if s in c.attempts && s in c.sh.wire.sent then c.sh.wire.sent[s] else []
  }

  lemma SendWrites(c: Client, frame: OutFrame, s: nat)
    requires Inv(c) && OwnsWire(c) && s in c.attempts && c.sh.life.status.Ready?
    ensures var sent := Send(c.sh.wire, frame).sent;
            s in sent && sent[s] == Frames(c, s) + if IsReadyAttempt(c, s) then [frame] else []
  {
    var x := c.sh.life.activeSessionId.value;
    assert AttemptOk(c.sh, s, c.attempts[s]) && AttemptOk(c.sh, x, c.attempts[x]);
  }

  lemma NoneIsReady(c: Client, s: nat)
    requires Inv(c) && !c.sh.life.status.Ready?
    ensures !IsReadyAttempt(c, s)
  {
    if s in c.attempts {
      assert AttemptOk(c.sh, s, c.attempts[s]);
    }
  }

  lemma OpenWrites(c: Client, t: nat, sendable: bool, s: nat)
    requires Inv(c) && Delivered(c, EvOpen(t, sendable)) && s in c.attempts
    ensures Frames(Step(c, EvOpen(t, sendable)), s) == Frames(c, s) + Written(c, EvOpen(t, sendable), s)
  {
    assert AttemptOk(c.sh, t, c.attempts[t]) && AttemptOk(c.sh, s, c.attempts[s]);
    FailAside(Pair(c.sh, c.attempts[t].(didOpen := true)),
              GatewayError(ConnectParameterInvalid, StartupFailure, false), true);
  }

  lemma QuietEventWrites(c: Client, e: Event, s: nat)
    requires Possible(c, e) && (e.EvAbort? || e.EvContinueSignal? || e.EvAdvance?)
    ensures Frames(Step(c, e), s) == Frames(c, s)
  {
  }

  lemma SenderWrites(c: Client, e: Event, s: nat)
    requires Inv(c) && OwnsWire(c) && Delivered(c, e) && s in c.attempts && (e.EvHeartbeat? || e.EvSend?)
    ensures Frames(Step(c, e), s) == Frames(c, s) + Written(c, e, s)
  {
    if c.sh.life.status.Ready? {
      SendWrites(c, if e.EvHeartbeat? then Heartbeat else Business, s);
    } else {
      NoneIsReady(c, s);
    }
    assert AttemptOk(c.sh, s, c.attempts[s]);
  }

  // A connect makes at most one attempt, with a new session id and nothing written.
  lemma ConnectWrites(c: Client, next: Client, reconnectAttempt: bool, preparation: Preparation, s: nat)
    requires Inv(c) && next == c.(sh := c.sh.(timer := next.sh.timer, policy := next.sh.policy))
    ensures Frames(Connect(next, reconnectAttempt, preparation), s) == Frames(c, s)
    ensures s in c.attempts ==> s in Connect(next, reconnectAttempt, preparation).attempts
  {
    if s in c.attempts {
      assert AttemptOk(c.sh, s, c.attempts[s]);
    }
  }

  lemma TimerWrites(c: Client, preparation: Preparation, s: nat)
    requires Inv(c) && Possible(c, EvReconnectTimer(preparation))
    ensures Frames(FireReconnectTimer(c, preparation), s) == Frames(c, s)
    ensures s in c.attempts ==> s in FireReconnectTimer(c, preparation).attempts
  {
    var timer := c.sh.timer.value;
    var credited := Credited(c.sh.policy, timer, c.now);
    ConnectWrites(c, c.(sh := c.sh.(timer := None, policy := credited.StartWindow(c.now))), true, preparation, s);
  }

  // Closing, failing and messages write nothing.
  lemma AttemptEventWrites(c: Client, e: Event, s: nat)
    requires Possible(c, e)
    requires e.EvError? || e.EvClose? || e.EvMessage? || e.EvHandshakeTimeout? || e.EvAbortListener?
    ensures Frames(Step(c, e), s) == Frames(c, s)
  {
    if e.EvClose? {
      CloseAside(c.Context(), c.At(e.session), e.code, e.draw);
    } else if e.EvMessage? {
      MessageAside(c.At(e.session), e.frame);
    } else {
      OthersStayAside(c.At(e.session));
    }
  }

  lemma StepWrites(c: Client, e: Event, s: nat)
    requires Inv(c) && OwnsWire(c) && Delivered(c, e)
    ensures Frames(Step(c, e), s) == Frames(c, s) + Written(c, e, s)
  {
    match e {
      case EvConnect(preparation) => ConnectWrites(c, c, false, preparation, s);
      case EvReconnectTimer(preparation) => TimerWrites(c, preparation, s);
      case EvDisconnect => DisconnectEffect(c);
      case EvOpen(t, sendable) => if s in c.attempts { OpenWrites(c, t, sendable, s); }
      case EvHeartbeat(_) => if s in c.attempts { SenderWrites(c, e, s); }
      case EvSend(_) => if s in c.attempts { SenderWrites(c, e, s); }
      case EvAbort => QuietEventWrites(c, e, s);
      case EvContinueSignal(_) => QuietEventWrites(c, e, s);
      case EvAdvance(_) => QuietEventWrites(c, e, s);
      case _ => AttemptEventWrites(c, e, s);
    }
  }

  // The first event of a run, and the rest of it.
  lemma FirstWrites(c: Client, events: seq<Event>, s: nat) returns (next: Client)
    requires events != [] && Inv(c) && OwnsWire(c) && IsRun(c, events)
    ensures Inv(next) && OwnsWire(next) && IsRun(next, events[1..])
    ensures Exec(c, events) == Exec(next, events[1..])
    ensures Frames(next, s) == Frames(c, s) + Written(c, events[0], s)
    ensures Traffic(c, events, s) == Written(c, events[0], s) + Traffic(next, events[1..], s)
  {
    StepKeepsInv(c, events[0]);
    StepKeepsOwner(c, events[0]);
    StepWrites(c, events[0], s);
    next := Step(c, events[0]);
  }

  /** On every run, the frames on an attempt's socket are exactly these: register if it opened as the current
      attempt, and every heartbeat and business message that could be sent while it made the client ready. */
  lemma {:induction false} FramesAreTheTraffic(c: Client, events: seq<Event>, s: nat)
    requires Inv(c) && OwnsWire(c) && IsRun(c, events)
    ensures Frames(Exec(c, events), s) == Frames(c, s) + Traffic(c, events, s)
    decreases |events|
  {
    if events != [] {
      var next := FirstWrites(c, events, s);
      FramesAreTheTraffic(next, events[1..], s);
      Regroup(Frames(c, s), Written(c, events[0], s), Traffic(next, events[1..], s));
    }
  }

  /** So every run of a client from its construction hands up and writes exactly that. */
  lemma RunTellsTheTraffic(config: Config, events: seq<Event>, s: nat)
    requires config.policy.maxElapsedMs > 0 && IsRun(InitialClient(config), events)
    ensures var c := Exec(InitialClient(config), events);
            && c.sh.emitted == Messages(InitialClient(config), events)
            && (s in c.attempts ==>
                  s in c.sh.wire.sent && c.sh.wire.sent[s] == Traffic(InitialClient(config), events, s))
  {
    InitialInv(config);
    EmittedAreTheMessages(InitialClient(config), events);
    FramesAreTheTraffic(InitialClient(config), events, s);
    if s in Exec(InitialClient(config), events).attempts {
      RegisterComesFirst(config, events, s);
    }
  }
}
