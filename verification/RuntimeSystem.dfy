// Concurrent start() and stop() of the runtime over the provider core and the gateway driver
// (bridge-runtime-sdk/src/application/lifecycle/RuntimeLifecycleService.ts,
// application/runtime/RuntimeCoreService.ts, adapters/gateway/GatewayRuntimeDriver.ts).
module RuntimeSystem {
  import opened Prelude
  import opened RuntimeLifecycle

  type Client = nat

  // Where the start coroutine waits: core.start(), driver.connect(), or the disconnect after a failed connect.
  datatype StartPoint =
    | CoreStarting(initializing: bool)
    | Connecting(client: Client)
    | CleaningUp

  datatype StartRun = StartRun(token: Token, at: StartPoint)

  // Where the stop coroutine waits: the first disconnect, the start in flight, the second disconnect, core.stop().
  datatype StopPoint =
    | FirstDisconnect
    | AwaitingStart
    | LastDisconnect
    | CoreStopping(disposing: bool)

  datatype StopRun = StopRun(token: Token, at: StopPoint, primaryError: bool)

  /** `connected` are the clients told to connect, not since told to disconnect and not known to be closed;
      `closed` those seen closed, which stay so: a client is connected once. `waiters` counts the start()
      calls waiting for the stop in progress. */
  datatype System = System(
    life: Life,
    initialized: bool,
    client: Option<Client>,
    nextClient: Client,
    connected: set<Client>,
    closed: set<Client>,
    start: Option<StartRun>,
    stop: Option<StopRun>,
    waiters: nat)

  // `failure`: the error of the closed status is a startup or runtime failure, not a cancellation.
  datatype GatewayStatus = ReadyStatus | ReconnectingStatus | ConnectingStatus | ClosedStatus(failure: bool)

  datatype Event =
    | StartCalled
    | StopCalled
    | WaiterResumes
    | CoreStartSettles(ok: bool, factoryThrows: bool)
    | ConnectSettles(ok: bool)
    | CleanupSettles
    | DisconnectSettles(failed: bool)
    | CoreStopSettles(ok: bool)
    | Gateway(status: GatewayStatus)

  const INITIAL_SYSTEM := System(INITIAL_LIFE, false, None, 0, {}, {}, None, None, 0)

  // ---- Steps ----

  function BeginStart(s: System): System {
    var life := s.life.BeginStart();
    s.(life := life, start := Some(StartRun(life.nextToken, CoreStarting(!s.initialized))))
  }

  // start(), once no stop is awaited.
  function EnterStart(s: System): System {
    if s.life.status.Ready? || s.start.Some? then s else BeginStart(s)
  }

  // driver.disconnect() up to its await: the client it addresses is told to disconnect.
  function Disconnecting(s: System): set<Client> {
    if s.client.Some? then s.connected - {s.client.value} else s.connected
  }

  function BeginStop(s: System): System {
    var life := s.life.BeginStop();
    s.(life := life, connected := Disconnecting(s),
    stop := Some(StopRun(life.nextToken, if s.start.Some? then FirstDisconnect else LastDisconnect, false)))
  }

  // stop() after the start in flight is over, or at once: a second disconnect if a ready client is attached.
  function AfterStart(s: System, ready: bool): System
    requires s.stop.Some?
  {
    if !s.stop.value.primaryError && ready then
      s.(connected := Disconnecting(s), stop := Some(s.stop.value.(at := LastDisconnect)))
    else s.(stop := Some(s.stop.value.(at := CoreStopping(s.initialized))))
  }

  // The start coroutine is over; a stop awaiting it goes on.
  function EndStart(s: System, ready: bool): System {
    var s1 := s.(start := None);
    if s.stop.Some? && s.stop.value.at.AwaitingStart? then AfterStart(s1, ready) else s1
  }

  function CoreStartStep(s: System, ok: bool, factoryThrows: bool): System
    requires s.start.Some? && s.start.value.at.CoreStarting?
  {
    var run := s.start.value;
    // A stop that awaits this start has already let go of the client: none is ready.
    if !ok then EndStart(s.(life := s.life.FailStartIfCurrent(run.token)), false)
    else
      var s1 := s.(initialized := s.initialized || run.at.initializing);
      if factoryThrows then s1.(connected := Disconnecting(s1), start := Some(run.(at := CleaningUp)))
      else
        s1.(client := Some(s.nextClient), nextClient := s.nextClient + 1, connected := s.connected + {s.nextClient},
        start := Some(run.(at := Connecting(s.nextClient))))
  }

  // A client whose connect() has just resolved is ready; the driver sees it only while it is attached.
  // One whose connect() was rejected is closed.
  function ConnectStep(s: System, ok: bool): System
    requires s.start.Some? && s.start.value.at.Connecting?
  {
    var run := s.start.value;
    if ok then EndStart(s.(life := s.life.FinishStartIfCurrent(run.token)), s.client == Some(run.at.client))
    else
      var s1 := Lost(s, run.at.client);
      s1.(connected := Disconnecting(s1), start := Some(run.(at := CleaningUp)))
  }

  function Lost(s: System, client: Client): System {
    s.(connected := s.connected - {client}, closed := s.closed + {client})
  }

  function CleanupStep(s: System): System
    requires s.start.Some?
  {
    EndStart(s.(client := None, life := s.life.FailStartIfCurrent(s.start.value.token)), false)
  }

  // Whatever the outcome, the driver lets go of the client it holds by then.
  function DisconnectStep(s: System, failed: bool): System
    requires s.stop.Some?
  {
    var run := s.stop.value.(primaryError := failed);
    var s1 := s.(client := None, stop := Some(run));
    if run.at.FirstDisconnect? && s.start.Some? then s1.(stop := Some(run.(at := AwaitingStart)))
    else s1.(stop := Some(run.(at := CoreStopping(s.initialized))))
  }

  function CoreStopStep(s: System, ok: bool): System
    requires s.stop.Some? && s.stop.value.at.CoreStopping?
  {
    var run := s.stop.value;
    var s1 := s.(initialized := if ok && run.at.disposing then false else s.initialized, stop := None);
    if run.primaryError || !ok then s1.(life := s.life.MarkFailed(), waiters := 0)
    else s1.(life := s.life.FinishStopIfCurrent(run.token))
  }

  function GatewayLife(life: Life, status: GatewayStatus): Life {
    if life.IgnoresGateway() then life
    else match status
      case ReadyStatus => if life.status.Starting? then life else life.MarkReady()
      case ReconnectingStatus => if life.status.Starting? then life else life.MarkReconnecting()
      case ConnectingStatus => life
      case ClosedStatus(failure) => if failure then life.MarkFailed() else life
  }

  function GatewayStep(s: System, status: GatewayStatus): System
    requires s.client.Some?
  {
    var s1 := s.(life := GatewayLife(s.life, status));
    if status.ClosedStatus? then Lost(s1, s.client.value) else s1
  }

  // What can happen next. A start() that waited resumes before anything else does; provider and core
  // settle only what was asked of them; only the attached client is observed, and not after it closed.
  predicate Possible(s: System, e: Event) {
    if s.stop.None? && s.waiters > 0 then e.WaiterResumes?
    else match e
      case StartCalled => true
      case StopCalled => true
      case WaiterResumes => false
      case CoreStartSettles(ok, _) =>
        s.start.Some? && s.start.value.at.CoreStarting? && (ok || s.start.value.at.initializing)
      case ConnectSettles(ok) =>
        s.start.Some? && s.start.value.at.Connecting? && (ok ==> s.start.value.at.client !in s.closed)
      case CleanupSettles => s.start.Some? && s.start.value.at.CleaningUp?
      case DisconnectSettles(_) => s.stop.Some? && (s.stop.value.at.FirstDisconnect? || s.stop.value.at.LastDisconnect?)
      case CoreStopSettles(ok) =>
        s.stop.Some? && s.stop.value.at.CoreStopping? && (ok || s.stop.value.at.disposing)
      case Gateway(_) => s.client.Some? && s.client.value !in s.closed
  }

  function Step(s: System, e: Event): System
    requires Possible(s, e)
  {
    match e
    case StartCalled => if s.stop.Some? then s.(waiters := s.waiters + 1) else EnterStart(s)
    case StopCalled => if s.life.status.Idle? || s.stop.Some? then s else BeginStop(s)
    case WaiterResumes => EnterStart(s.(waiters := s.waiters - 1))
    case CoreStartSettles(ok, throws) => CoreStartStep(s, ok, throws)
    case ConnectSettles(ok) => ConnectStep(s, ok)
    case CleanupSettles => CleanupStep(s)
    case DisconnectSettles(failed) => DisconnectStep(s, failed)
    case CoreStopSettles(ok) => CoreStopStep(s, ok)
    case Gateway(status) => GatewayStep(s, status)
  }

  ghost predicate IsRun(events: seq<Event>) {
    events == [] ||
    (IsRun(events[..|events| - 1]) && Possible(Exec(events[..|events| - 1]), events[|events| - 1]))
  }

  // The state a run reaches; impossible events are ignored.
  function Exec(events: seq<Event>): System {
    if events == [] then INITIAL_SYSTEM
    else
      var s := Exec(events[..|events| - 1]);
      if Possible(s, events[|events| - 1]) then Step(s, events[|events| - 1]) else s
  }

  // ---- The invariant ----

  // What is current, and what the status says about the coroutines.
  predicate TokensInv(s: System) {
    && (s.stop.Some? <==> s.life.status.Stopping?)
    && (s.stop.Some? ==> s.life.stopToken == Some(s.stop.value.token) && s.life.startToken.None?)
    && (s.life.status.Starting? ==> s.start.Some? && s.life.startToken == Some(s.start.value.token))
    && (s.start.Some? ==> s.life.status.Starting? || s.life.status.Failed? || s.life.status.Stopping?)
    && (s.life.status.Failed? ==> s.life.startToken.None?)
  }

  // What the coroutines hold.
  predicate PointsInv(s: System) {
    && (s.start.Some? && s.start.value.at.CoreStarting? ==> s.start.value.at.initializing == !s.initialized)
    && (s.start.Some? && s.start.value.at.Connecting? ==>
          s.client == Some(s.start.value.at.client) || (s.client.None? && s.stop.Some?))
    && (s.stop.Some? && s.stop.value.at.FirstDisconnect? ==> !s.stop.value.primaryError)
    && (s.stop.Some? && s.stop.value.at.AwaitingStart? ==>
          s.start.Some? && (s.start.value.at.CoreStarting? ==> s.client.None?))
    && (s.stop.Some? && s.stop.value.at.LastDisconnect? ==> s.start.None? && !s.stop.value.primaryError)
    && (s.stop.Some? && s.stop.value.at.CoreStopping? ==>
          && s.start.None? && s.stop.value.at.disposing == s.initialized
          && (s.stop.value.primaryError || s.client.None?))
  }

  predicate IdleIsClean(s: System) {
    s.life.status.Idle? ==> s.start.None? && s.stop.None? && !s.initialized && s.client.None?
  }

  predicate Inv(s: System) {
    TokensInv(s) && PointsInv(s) && IdleIsClean(s)
  }

  lemma {:induction false} StepKeepsInv(s: System, e: Event)
    requires Inv(s) && Possible(s, e)
    ensures Inv(Step(s, e))
  {
  }

  lemma {:induction false} RunKeepsInv(events: seq<Event>)
    ensures Inv(Exec(events))
    decreases |events|
  {
    if events != [] {
      var s, e := Exec(events[..|events| - 1]), events[|events| - 1];
      RunKeepsInv(events[..|events| - 1]);
      if Possible(s, e) {
        StepKeepsInv(s, e);
      }
    }
  }

  /** Whenever the runtime is idle, in any interleaving of start, stop, provider and gateway outcomes, no
      start or stop is in flight, the provider is not initialized and the driver holds no client. */
  lemma IdleMeansNothingRuns(events: seq<Event>)
    ensures var s := Exec(events);
            s.life.status.Idle? ==> s.start.None? && s.stop.None? && !s.initialized && s.client.None?
  {
    RunKeepsInv(events);
  }

  /** The runtime is stopping exactly while a stop is in flight, and then no gateway status and no
      completion or failure of the superseded start changes the lifecycle state. */
  lemma StoppingIsUndisturbed(events: seq<Event>, e: Event)
    requires Possible(Exec(events), e)
    ensures Exec(events).life.status.Stopping? <==> Exec(events).stop.Some?
    ensures Exec(events).life.status.Stopping? && !e.CoreStopSettles? ==>
        Step(Exec(events), e).life == Exec(events).life
  {
    RunKeepsInv(events);
  }

  /** A stop that ends leaves the runtime idle, or failed if something it did failed. */
  lemma StopEndsIdleOrFailed(events: seq<Event>, ok: bool)
    requires Possible(Exec(events), CoreStopSettles(ok))
    ensures var s := Exec(events);
            Step(s, CoreStopSettles(ok)).life.status ==
            if ok && !s.stop.value.primaryError then Idle else Failed
  {
    RunKeepsInv(events);
  }

  // ---- The status, event by event ----

  // What the attached client's status makes of the runtime's.
  function StatusAfterGateway(was: Status, status: GatewayStatus): Status {
    match was
    case Idle => Idle
    case Stopping => Stopping
    case Failed => Failed
    case Starting => if status == ClosedStatus(true) then Failed else Starting
    case _ =>
      match status
      case ReadyStatus => Ready
      case ReconnectingStatus => Reconnecting
      case ConnectingStatus => was
      case ClosedStatus(failure) => if failure then Failed else was
  }

  /** On every run, what the next event makes of the status. A start ends ready when its connect() succeeds
      before anything superseded it, and failed when the core, the connect() or the gateway fails first; a ready
      runtime follows its gateway into reconnecting, back, and into failure; nothing disturbs a stop. */
  lemma {:induction false} EveryEventMovesTheStatus(events: seq<Event>, e: Event)
    requires Possible(Exec(events), e)
    ensures var s := Exec(events);
            var was, now := s.life.status, Step(s, e).life.status;
            match e
            case StartCalled => now == if was.Stopping? || was.Ready? || s.start.Some? then was else Starting
            case WaiterResumes => now == if was.Ready? || s.start.Some? then was else Starting
            case StopCalled => now == if was.Idle? then Idle else Stopping
            case CoreStartSettles(ok, _) => now == if was.Starting? && !ok then Failed else was
            case ConnectSettles(ok) => now == if was.Starting? && ok then Ready else was
            case CleanupSettles => now == if was.Starting? then Failed else was
            case DisconnectSettles(_) => now == was
            case CoreStopSettles(ok) => now == if ok && !s.stop.value.primaryError then Idle else Failed
            case Gateway(status) => now == StatusAfterGateway(was, status)
  {
    RunKeepsInv(events);
  }

  predicate IsLive(status: GatewayStatus) {
    !status.ClosedStatus?
  }

  // The last word of a live gateway on whether it is ready.
  function LastWord(statuses: seq<GatewayStatus>, otherwise: Status): (word: Status)
    ensures word == otherwise || word.Ready? || word.Reconnecting?
  {
    if statuses == [] then otherwise
    else
      match statuses[|statuses| - 1]
      case ReadyStatus => Ready
      case ReconnectingStatus => Reconnecting
      case _ => LastWord(statuses[..|statuses| - 1], otherwise)
  }

  function Told(statuses: seq<GatewayStatus>): seq<Event> {
    seq(|statuses|, i requires 0 <= i < |statuses| => Gateway(statuses[i]))
  }

  /** However often a live gateway loses and regains its connection, a runtime that was ready or reconnecting ends
      ready or reconnecting as the gateway said last. */
  lemma {:induction false} GatewayHasTheLastWord(events: seq<Event>, statuses: seq<GatewayStatus>)
    requires Exec(events).life.status.Ready? || Exec(events).life.status.Reconnecting?
    requires Possible(Exec(events), Gateway(ConnectingStatus))
    requires forall i :: 0 <= i < |statuses| ==> IsLive(statuses[i])
    ensures var after := Exec(events + Told(statuses));
            && after.life.status == LastWord(statuses, Exec(events).life.status)
            && after.client == Exec(events).client && Possible(after, Gateway(ConnectingStatus))
    decreases |statuses|
  {
    if statuses == [] {
      assert events + Told(statuses) == events;
    } else {
      var front, last := statuses[..|statuses| - 1], statuses[|statuses| - 1];
      GatewayHasTheLastWord(events, front);
      assert events + Told(statuses) == events + Told(front) + [Gateway(last)];
      ExecStep(events + Told(front), Gateway(last));
      LiveStatusStep(events + Told(front), last);
    }
  }

  lemma LiveStatusStep(events: seq<Event>, status: GatewayStatus)
    requires Exec(events).life.status.Ready? || Exec(events).life.status.Reconnecting?
    requires Possible(Exec(events), Gateway(ConnectingStatus)) && IsLive(status)
    ensures Possible(Exec(events), Gateway(status))
    ensures var after := Step(Exec(events), Gateway(status));
            && after.life.status == LastWord([status], Exec(events).life.status)
            && after.client == Exec(events).client && Possible(after, Gateway(ConnectingStatus))
  {
    EveryEventMovesTheStatus(events, Gateway(status));
    assert LastWord([], Exec(events).life.status) == Exec(events).life.status;
  }

  /** A runtime that is ready or reconnecting has its provider core running and holds a client. */
  lemma ReadyMeansAllRuns(events: seq<Event>)
    ensures var s := Exec(events);
            s.life.status.Ready? || s.life.status.Reconnecting? ==> s.initialized && s.client.Some?
  {
    RunKeepsReady(events);
  }

  predicate RunningInv(s: System) {
    && (s.life.status.Ready? || s.life.status.Reconnecting? ==> s.initialized && s.client.Some?)
    && (s.start.Some? && !s.start.value.at.CoreStarting? ==> s.initialized)
  }

  lemma StepKeepsRunning(s: System, e: Event)
    requires Inv(s) && RunningInv(s) && Possible(s, e)
    ensures RunningInv(Step(s, e))
  {
  }

  lemma {:induction false} RunKeepsReady(events: seq<Event>)
    ensures RunningInv(Exec(events))
    decreases |events|
  {
    if events != [] {
      var s, e := Exec(events[..|events| - 1]), events[|events| - 1];
      RunKeepsReady(events[..|events| - 1]);
      RunKeepsInv(events[..|events| - 1]);
      if Possible(s, e) {
        StepKeepsRunning(s, e);
      }
    }
  }

  // ---- Which stops fail ----

  // Since the k-th event no disconnect of the driver has failed.
  predicate DisconnectsWell(events: seq<Event>, k: nat) {
    forall i :: k <= i < |events| ==> events[i] != DisconnectSettles(true)
  }

  // The stop that the k-th event began is still in flight.
  ghost predicate StoppingSince(events: seq<Event>, k: nat) {
    && k < |events| && BeginsStop(Exec(events[..k]), events[k])
    && forall i :: k < i <= |events| ==> Exec(events[..i]).stop.Some?
  }

  lemma {:induction false} PrimaryErrorIsAFailedDisconnect(events: seq<Event>, k: nat)
    requires IsRun(events) && StoppingSince(events, k)
    ensures Exec(events).stop.Some? && (Exec(events).stop.value.primaryError <==> !DisconnectsWell(events, k))
    decreases |events|
  {
    assert events[..|events|] == events;
    var front, last := events[..|events| - 1], events[|events| - 1];
    RunKeepsInv(front);
    if k == |events| - 1 {
      assert front == events[..k];
    } else {
      assert forall i :: 0 <= i <= |front| ==> front[..i] == events[..i];
      assert forall i :: 0 <= i < |front| ==> front[i] == events[i];
      PrimaryErrorIsAFailedDisconnect(front, k);
      StepKeepsPrimaryError(Exec(front), last);
      assert DisconnectsWell(events, k) <==> DisconnectsWell(front, k) && last != DisconnectSettles(true);
    }
  }

  lemma StepKeepsPrimaryError(s: System, e: Event)
    requires Inv(s) && s.stop.Some? && Possible(s, e) && Step(s, e).stop.Some?
    ensures Step(s, e).stop.value.primaryError == (s.stop.value.primaryError || e == DisconnectSettles(true))
  {
  }

  /** The stop that the k-th event began ends idle if and only if the core stopped well and no disconnect asked
      for since then failed; otherwise it ends failed. */
  lemma {:induction false} StopEndsIdleExactly(events: seq<Event>, k: nat, ok: bool)
    requires IsRun(events) && StoppingSince(events, k) && Possible(Exec(events), CoreStopSettles(ok))
    ensures Step(Exec(events), CoreStopSettles(ok)).life.status ==
            if ok && DisconnectsWell(events, k) then Idle else Failed
  {
    PrimaryErrorIsAFailedDisconnect(events, k);
    StopEndsIdleOrFailed(events, ok);
  }

  // ---- What a stop asks for ----

  /** When the start a stop was waiting for ends, the driver is asked for a second disconnect exactly if that start
      connected the client that is attached and the first disconnect went well; otherwise the core is stopped. */
  lemma {:induction false} AfterTheStart(events: seq<Event>, e: Event)
    requires Possible(Exec(events), e)
    requires Exec(events).stop.Some? && Exec(events).stop.value.at.AwaitingStart?
    requires Step(Exec(events), e).start.None?
    ensures var s, t := Exec(events), Step(Exec(events), e);
            var ready := e == ConnectSettles(true) && s.client == Some(s.start.value.at.client);
            && t.stop.Some?
            && t.stop.value.at == (if ready && !s.stop.value.primaryError then LastDisconnect
                                   else CoreStopping(t.initialized))
  {
    RunKeepsInv(events);
  }

  // A client the driver is disconnecting has been told so.
  predicate DisconnectsAreTold(s: System) {
    && (s.start.Some? && s.start.value.at.CleaningUp? && s.client.Some? ==> s.client.value !in s.connected)
    && (s.stop.Some? && s.stop.value.at.LastDisconnect? && s.client.Some? ==> s.client.value !in s.connected)
  }

  lemma StepTellsClients(s: System, e: Event)
    requires Inv(s) && DisconnectsAreTold(s) && Possible(s, e)
    ensures DisconnectsAreTold(Step(s, e))
  {
  }

  /** On every run: while a failed start cleans up, and while a stop waits for its last disconnect, the attached
      client has been told to disconnect. */
  lemma {:induction false} ClientsAreTold(events: seq<Event>)
    ensures DisconnectsAreTold(Exec(events))
    decreases |events|
  {
    if events != [] {
      var s, e := Exec(events[..|events| - 1]), events[|events| - 1];
      ClientsAreTold(events[..|events| - 1]);
      RunKeepsInv(events[..|events| - 1]);
      if Possible(s, e) {
        StepTellsClients(s, e);
      }
    }
  }

  /** A client that reported a closed status, or whose connect() was rejected, is connected no more, and is not
      heard of again while it stays attached. */
  lemma ClosedClientIsSilent(events: seq<Event>, e: Event, status: GatewayStatus)
    requires Possible(Exec(events), e)
    requires (e.Gateway? && e.status.ClosedStatus?) || e == ConnectSettles(false)
    ensures var s, t := Exec(events), Step(Exec(events), e);
            var client := if e.Gateway? then s.client.value else s.start.value.at.client;
            && client !in t.connected
            && (t.client == Some(client) ==> !Possible(t, Gateway(status)))
  {
  }

  // ---- Starts that wait for a stop ----

  function Starts(events: seq<Event>): nat {
    if events == [] then 0
    else Starts(events[..|events| - 1]) + (if events[|events| - 1].StartCalled? then 1 else 0)
  }

  lemma StepCountsStarts(s: System, e: Event)
    requires Inv(s) && s.stop.Some? && Possible(s, e) && Step(s, e).stop.Some?
    ensures Step(s, e).waiters == s.waiters + if e.StartCalled? then 1 else 0
  {
  }

  /** Every start() called during a stop waits for its end. */
  lemma {:induction false} StartsWaitForTheStop(events: seq<Event>, k: nat)
    requires IsRun(events) && StoppingSince(events, k)
    ensures Exec(events).waiters == Starts(events[k + 1..])
    decreases |events|
  {
    assert events[..|events|] == events;
    var front, last := events[..|events| - 1], events[|events| - 1];
    RunKeepsInv(front);
    if k == |events| - 1 {
      assert front == events[..k] && events[k + 1..] == [];
    } else {
      assert forall i :: 0 <= i <= |front| ==> front[..i] == events[..i];
      StartsWaitForTheStop(front, k);
      StepCountsStarts(Exec(front), last);
      assert events[k + 1..] == front[k + 1..] + [last];
    }
  }

  /** If the stop ends well they resume before anything else happens, one by one, and the first of them starts the
      runtime again; if it fails, they fail with it. */
  lemma {:induction false} WaitingStartsResume(events: seq<Event>, ok: bool)
    requires Possible(Exec(events), CoreStopSettles(ok))
    ensures var s, t := Exec(events), Step(Exec(events), CoreStopSettles(ok));
            && (t.life.status.Failed? ==> t.waiters == 0)
            && (t.life.status.Idle? && s.waiters > 0 ==>
                  && t.waiters == s.waiters && (forall e :: Possible(t, e) <==> e.WaiterResumes?)
                  && Step(t, WaiterResumes).waiters == s.waiters - 1 && Step(t, WaiterResumes).life.status.Starting?)
  {
    RunKeepsInv(events);
  }

  lemma OneStartResumes(events: seq<Event>)
    requires Possible(Exec(events), WaiterResumes)
    ensures Step(Exec(events), WaiterResumes).waiters == Exec(events).waiters - 1
    ensures Step(Exec(events), WaiterResumes).start.Some?
  {
    RunKeepsWaiters(events);
  }

  predicate WaitersInv(s: System) {
    s.stop.None? && s.waiters > 0 ==> s.life.status.Idle? || s.start.Some?
  }

  lemma {:induction false} RunKeepsWaiters(events: seq<Event>)
    ensures WaitersInv(Exec(events))
    decreases |events|
  {
    if events != [] {
      var s, e := Exec(events[..|events| - 1]), events[|events| - 1];
      RunKeepsWaiters(events[..|events| - 1]);
      RunKeepsInv(events[..|events| - 1]);
      if Possible(s, e) {
        StepKeepsWaiters(s, e);
      }
    }
  }

  lemma StepKeepsWaiters(s: System, e: Event)
    requires Inv(s) && WaitersInv(s) && Possible(s, e)
    ensures WaitersInv(Step(s, e))
  {
  }

  // ---- Progress ----

  function StartWork(start: Option<StartRun>): nat {
    if start.None? then 0
    else match start.value.at
      case CoreStarting(_) => 3
      case Connecting(_) => 2
      case CleaningUp => 1
  }

  function StopWork(stop: Option<StopRun>): nat {
    if stop.None? then 0
    else match stop.value.at
      case FirstDisconnect => 4
      case AwaitingStart => 3
      case LastDisconnect => 2
      case CoreStopping(_) => 1
  }

  predicate Settles(e: Event) {
    e.CoreStartSettles? || e.ConnectSettles? || e.CleanupSettles? || e.DisconnectSettles? || e.CoreStopSettles?
  }

  /** A stop never waits for itself: while it is in flight something it depends on is still to settle, each
      settlement brings it nearer its end, at most seven are left, and nothing else sets it back. */
  lemma {:induction false} StopMakesProgress(events: seq<Event>, e: Event)
    requires Exec(events).stop.Some? && Possible(Exec(events), e)
    ensures var s := Exec(events);
            var left := StartWork(s.start) + StopWork(s.stop);
            var after := StartWork(Step(s, e).start) + StopWork(Step(s, e).stop);
            && left <= 7
            && (if Settles(e) then after < left else after == left)
    ensures var s := Exec(events);
            || Possible(s, CoreStartSettles(true, false)) || Possible(s, ConnectSettles(false))
            || Possible(s, CleanupSettles)
            || Possible(s, DisconnectSettles(false)) || Possible(s, CoreStopSettles(true))
  {
    RunKeepsInv(events);
  }

  // ---- Clients left connected ----

  // A start() that begins an attempt.
  predicate BeginsStart(s: System, e: Event) {
    e.StartCalled? && s.stop.None? && !s.life.status.Ready? && s.start.None?
  }

  // A stop() that begins one.
  predicate BeginsStop(s: System, e: Event) {
    e.StopCalled? && s.stop.None? && !s.life.status.Idle?
  }

  // start() finds no client that is still connected, and stop() no core that is still starting.
  predicate Tidy(s: System, e: Event) {
    && (BeginsStart(s, e) ==> s.client.None? || s.client.value !in s.connected)
    && (BeginsStop(s, e) ==> s.start.None? || !s.start.value.at.CoreStarting?)
  }

  ghost predicate IsTidyRun(events: seq<Event>) {
    events == [] ||
    (IsTidyRun(events[..|events| - 1]) && Tidy(Exec(events[..|events| - 1]), events[|events| - 1]))
  }

  // Some client is connected, and nobody holds it.
  ghost predicate Leaks(s: System) {
    exists c :: c in s.connected && s.client != Some(c)
  }

  predicate TidyInv(s: System) {
    && (s.connected == {} || (s.client.Some? && s.connected == {s.client.value}))
    && (s.client.Some? ==> s.client.value < s.nextClient)
    && (forall c :: c in s.closed ==> c < s.nextClient && c !in s.connected)
    && (s.start.Some? && s.start.value.at.CoreStarting? ==> s.connected == {} && s.stop.None?)
    && (s.start.Some? && s.start.value.at.Connecting? ==>
          s.start.value.at.client < s.nextClient && s.connected <= {s.start.value.at.client})
    && (s.start.Some? && s.start.value.at.CleaningUp? ==> s.connected == {})
    && (s.stop.Some? ==> s.connected == {})
    && (s.stop.None? && s.waiters > 0 ==> s.life.status.Idle? || s.start.Some?)
  }

  lemma StepKeepsTidy(s: System, e: Event)
    requires Inv(s) && TidyInv(s) && Possible(s, e) && Tidy(s, e)
    ensures TidyInv(Step(s, e))
  {
  }

  lemma {:induction false} TidyRunKeepsTidy(events: seq<Event>)
    requires IsTidyRun(events)
    ensures TidyInv(Exec(events))
    decreases |events|
  {
    if events != [] {
      var s, e := Exec(events[..|events| - 1]), events[|events| - 1];
      TidyRunKeepsTidy(events[..|events| - 1]);
      RunKeepsInv(events[..|events| - 1]);
      if Possible(s, e) {
        StepKeepsTidy(s, e);
      }
    }
  }

  /** If start() never finds a client still connected and stop() never a core still starting, every connected
      client is the attached one; idle then means that none is connected. */
  lemma {:induction false} TidyRunsLeaveNoClient(events: seq<Event>)
    requires IsTidyRun(events)
    ensures !Leaks(Exec(events))
    ensures Exec(events).life.status.Idle? ==> Exec(events).connected == {}
  {
    TidyRunKeepsTidy(events);
    RunKeepsInv(events);
  }

  ghost predicate AllSettle(events: seq<Event>) {
    forall i :: 0 <= i < |events| ==> Settles(events[i])
  }

  lemma ExecStep(events: seq<Event>, e: Event)
    ensures Exec(events + [e]) == if Possible(Exec(events), e) then Step(Exec(events), e) else Exec(events)
    ensures IsRun(events) && Possible(Exec(events), e) ==> IsRun(events + [e])
    ensures IsTidyRun(events) && Tidy(Exec(events), e) ==> IsTidyRun(events + [e])
  {
    assert (events + [e])[..|events|] == events;
  }

  lemma SettlementIsTidy(events: seq<Event>, e: Event)
    requires IsTidyRun(events) && Settles(e)
    ensures IsTidyRun(events + [e])
  {
    ExecStep(events, e);
  }

  lemma {:induction false} SettlingStaysTidy(events: seq<Event>, more: seq<Event>, all: seq<Event>)
    requires IsTidyRun(events) && AllSettle(more) && all == events + more
    ensures IsTidyRun(all)
    decreases |more|
  {
    if more == [] {
      assert all == events;
    } else {
      SettlementIsTidy(events, more[0]);
      SettlingStaysTidy(events + [more[0]], more[1..], all);
    }
  }

  // The new client is attached over one that is still connected.
  lemma UntidyStartLeaks(events: seq<Event>, e: Event) returns (more: seq<Event>)
    requires IsTidyRun(events) && Possible(Exec(events), e) && BeginsStart(Exec(events), e) && !Tidy(Exec(events), e)
    ensures AllSettle(more) && Leaks(Exec(events + [e] + more))
  {
    TidyRunKeepsTidy(events);
    var s := Exec(events);
    var settle := CoreStartSettles(true, false);
    ExecStep(events, e);
    ExecStep(events + [e], settle);
    more := [settle];
    assert s.client.value in Exec(events + [e] + [settle]).connected;
  }

  // The first disconnect, asked for before the new client is attached, settles after it.
  lemma UntidyStopLeaks(events: seq<Event>, e: Event) returns (more: seq<Event>)
    requires IsTidyRun(events) && Possible(Exec(events), e) && BeginsStop(Exec(events), e) && !Tidy(Exec(events), e)
    ensures AllSettle(more) && Leaks(Exec(events + [e] + more))
  {
    TidyRunKeepsTidy(events);
    var s := Exec(events);
    var first, second := CoreStartSettles(true, false), DisconnectSettles(false);
    ExecStep(events, e);
    ExecStep(events + [e], first);
    ExecStep(events + [e] + [first], second);
    more := [first, second];
    assert events + [e] + more == events + [e] + [first] + [second];
    assert s.nextClient in Exec(events + [e] + [first]).connected;
    assert s.nextClient in Exec(events + [e] + more).connected;
  }

  /** The condition is exact: as long as calls have been tidy, the next event can be followed by settlements
      that leave a connected client unattached if and only if it is an untidy start() or stop(). */
  lemma {:induction false} LeaksExactlyWhenUntidy(events: seq<Event>, e: Event)
    requires IsTidyRun(events) && Possible(Exec(events), e)
    ensures Tidy(Exec(events), e) <==>
            forall more: seq<Event> | AllSettle(more) :: !Leaks(Exec(events + [e] + more))
  {
    if Tidy(Exec(events), e) {
      ExecStep(events, e);
      forall more: seq<Event> | AllSettle(more) ensures !Leaks(Exec(events + [e] + more)) {
        SettlingStaysTidy(events + [e], more, events + [e] + more);
        TidyRunsLeaveNoClient(events + [e] + more);
      }
    } else if BeginsStart(Exec(events), e) {
      var more := UntidyStartLeaks(events, e);
      assert AllSettle(more);
    } else {
      var more := UntidyStopLeaks(events, e);
      assert AllSettle(more);
    }
  }

  // ---- Two leaking runs that end idle ----

  // One possible event more.
  lemma Next(events: seq<Event>, e: Event, after: System) returns (longer: seq<Event>)
    requires IsRun(events) && Possible(Exec(events), e) && Step(Exec(events), e) == after
    ensures IsRun(longer) && Exec(longer) == after
  {
    ExecStep(events, e);
    longer := events + [e];
  }

  lemma ReadyRun() returns (run: seq<Event>)
    ensures IsRun(run) && Exec(run) == System(Life(Ready, 1, None, None), true, Some(0), 1, {0}, {}, None, None, 0)
  {
    run := Next([], StartCalled, System(
      Life(Starting, 1, Some(1), None), false, None, 0, {}, {}, Some(StartRun(1, CoreStarting(true))), None, 0));
    run := Next(run, CoreStartSettles(true, false), System(
      Life(Starting, 1, Some(1), None), true, Some(0), 1, {0}, {}, Some(StartRun(1, Connecting(0))), None, 0));
    run := Next(run, ConnectSettles(true), System(
      Life(Ready, 1, None, None), true, Some(0), 1, {0}, {}, None, None, 0));
  }

  // start() again while reconnecting: the second client is attached over the first.
  lemma RestartedRun() returns (run: seq<Event>)
    ensures IsRun(run)
    ensures Exec(run) == System(Life(Ready, 2, None, None), true, Some(1), 2, {0, 1}, {}, None, None, 0)
  {
    run := ReadyRun();
    run := Next(run, Gateway(ReconnectingStatus), System(
      Life(Reconnecting, 1, None, None), true, Some(0), 1, {0}, {}, None, None, 0));
    run := Next(run, StartCalled, System(
      Life(Starting, 2, Some(2), None), true, Some(0), 1, {0}, {}, Some(StartRun(2, CoreStarting(false))), None, 0));
    run := Next(run, CoreStartSettles(true, false), System(
      Life(Starting, 2, Some(2), None), true, Some(1), 2, {0, 1}, {}, Some(StartRun(2, Connecting(1))), None, 0));
    run := Next(run, ConnectSettles(true), System(
      Life(Ready, 2, None, None), true, Some(1), 2, {0, 1}, {}, None, None, 0));
  }

  /** Starting again while the gateway reconnects attaches a second client over the first; stopping then ends
      idle with the first still connected. */
  lemma StartWhileReconnectingLeaks() returns (run: seq<Event>)
    ensures IsRun(run) && Exec(run).life.status.Idle? && Exec(run).connected == {0}
  {
    run := RestartedRun();
    run := Next(run, StopCalled, System(
      Life(Stopping, 3, None, Some(3)), true, Some(1), 2, {0}, {}, None,
      Some(StopRun(3, LastDisconnect, false)), 0));
    run := Next(run, DisconnectSettles(false), System(
      Life(Stopping, 3, None, Some(3)), true, None, 2, {0}, {}, None,
      Some(StopRun(3, CoreStopping(true), false)), 0));
    run := Next(run, CoreStopSettles(true), System(
      Life(Idle, 3, None, None), false, None, 2, {0}, {}, None, None, 0));
  }

  lemma StopFindsCoreStarting() returns (run: seq<Event>)
    ensures IsRun(run)
    ensures Exec(run) == System(Life(Stopping, 2, None, Some(2)), false, None, 0, {}, {},
        Some(StartRun(1, CoreStarting(true))), Some(StopRun(2, FirstDisconnect, false)), 0)
  {
    run := Next([], StartCalled, System(
      Life(Starting, 1, Some(1), None), false, None, 0, {}, {}, Some(StartRun(1, CoreStarting(true))), None, 0));
    run := Next(run, StopCalled, System(
      Life(Stopping, 2, None, Some(2)), false, None, 0, {}, {}, Some(StartRun(1, CoreStarting(true))),
      Some(StopRun(2, FirstDisconnect, false)), 0));
  }

  lemma StoppedWhileStarting() returns (run: seq<Event>)
    ensures IsRun(run)
    ensures Exec(run) == System(Life(Stopping, 2, None, Some(2)), true, Some(0), 1, {0}, {},
        Some(StartRun(1, Connecting(0))), Some(StopRun(2, FirstDisconnect, false)), 0)
  {
    run := StopFindsCoreStarting();
    run := Next(run, CoreStartSettles(true, false), System(
      Life(Stopping, 2, None, Some(2)), true, Some(0), 1, {0}, {}, Some(StartRun(1, Connecting(0))),
      Some(StopRun(2, FirstDisconnect, false)), 0));
  }

  /** Stopping while the core starts: the first disconnect, asked for before the new client is attached,
      ends after it, and lets go of a client that was never told to disconnect. */
  lemma StopWhileCoreStartsLeaks() returns (run: seq<Event>)
    ensures IsRun(run) && Exec(run).life.status.Idle? && Exec(run).connected == {0}
  {
    var stopping := Life(Stopping, 2, None, Some(2));
    run := StoppedWhileStarting();
    run := Next(run, DisconnectSettles(false), System(
      stopping, true, None, 1, {0}, {}, Some(StartRun(1, Connecting(0))),
      Some(StopRun(2, AwaitingStart, false)), 0));
    run := Next(run, ConnectSettles(true), System(
      stopping, true, None, 1, {0}, {}, None, Some(StopRun(2, CoreStopping(true), false)), 0));
    run := Next(run, CoreStopSettles(true), System(
      Life(Idle, 2, None, None), false, None, 1, {0}, {}, None, None, 0));
  }

  /** The ordinary recovery, start() again after the gateway closed with a failure, is tidy and leaves nothing. */
  lemma RecoveryIsTidy(events: seq<Event>)
    requires IsTidyRun(events) && Possible(Exec(events), Gateway(ClosedStatus(true)))
    ensures IsTidyRun(events + [Gateway(ClosedStatus(true)), StartCalled])
  {
    TidyRunKeepsTidy(events);
    ExecStep(events, Gateway(ClosedStatus(true)));
    ExecStep(events + [Gateway(ClosedStatus(true))], StartCalled);
    assert events + [Gateway(ClosedStatus(true)), StartCalled] ==
        events + [Gateway(ClosedStatus(true))] + [StartCalled];
  }
}
