# Verified model of the agent-plugin runtime protocols

This project models, in Dafny, the parts of the repository where callbacks, timers and promises can
arrive in any order, and proves what holds over whole runs. Three kinds of file work together:

* value-level steps (`GatewaySpec`, `OpenClawRun`, `SessionRuns`, `RunPipeline`, `RuntimeSystem`, ...):
  the state as a datatype and one function per callback or call, with the code's branches;
* classes with the source's fields and methods (`GatewayLifecycleState`, `ConnectAttempt`,
  `GatewayClientRuntime`, `AsyncQueueController`, `ActiveRunState`, `RuntimeLifecycleService`, ...), each
  method proved to change its object exactly as the step function changes the value;
* lemmas about every sequence of events the environment may choose. A method `Drive` per object graph
  (`GatewayRuntime`, `RuntimeService`, `OpenClawRuntime`, `AsyncQueue`, `PendingInteractions`) builds the
  objects, feeds them any such sequence and restates results about runs on the objects themselves.

`dafny verify dfyconfig.toml` checks the whole project.

## The components

**Gateway client.** `GatewayLifecycle` is the generation/session token machine, `ReconnectPolicy` the
backoff with its time budget and sleep credit, `CloseDecision` the close-code decision, `GatewaySpec` one
step per API call, transport callback, timer, abort or continue signal, `GatewayInvariant` the invariant
of every reachable state, `GatewayRuns` and `ReconnectBudget` the results about runs, `GatewayTraffic` the
frames written and the messages handed up on a run, `GatewayEffects` what single events leave behind,
`ReconnectOverspend` exactly when the reconnect budget fails, `LateSignal` exactly when a closed status
changes its error, `GatewayRuntime` the object graph. A run is a sequence of events each of which
`Delivered` allows: a socket opens once and before its messages, timers do not fire early, and a rejected
continue signal is caught before the next public `connect()`. `CleanPreparation` says that the URL parser
and the auth callback raise no diagnostic error. The rejection of a continue signal and its catch are two
events.

**Run pipeline.** `FactSequence` is the fact table and the per-run ordering automaton,
`PendingInteractions` and `PermissionPresentation` the two shared maps, `SessionRuns` and `OutboundSlot`
the session registry under concurrent chats, closes and emissions, `RunPipeline` the fact loop, the run
terminal and the reports of failed commands, `ChatAdmission` which interleaved chats are turned away and
what is sent for them, `PipelineReplies` what a permission reply is sent upward with. The loop of
`RunPipeline` runs the enricher and the interaction coordinator on the shared maps; each delivery says
what state other runs have left the maps in when its fact is pulled.

**Runtime lifecycle.** `RuntimeLifecycle` is the attempt-token state, `RuntimeSystem` the start and stop
coroutines over provider core and gateway driver, one event per settled await, `RuntimeService` the
service, core and driver objects. A gateway client that reported a closed status, or whose `connect()`
was rejected, is no longer connected and cannot become so again. The chain from a settled `connect()` to
the `isReady` check, and from the end of a stop to the resumption of a `start()` that waited for it, is
one step.

**OpenClaw provider.** `AsyncQueue` is the fact queue, `OpenClawRun` one run's handlers, `OpenClawStream`
what its facts and texts guarantee (with `OpenClawThinking`), `OpenClawText`, `OpenClawTools` and
`OpenClawEndings` what they say of the texts, tool calls and endings the host reported, `OpenClawRuntime`
the run object over the real queue, `OpenClawEndToEnd` what becomes of its facts when `RunPipeline` reads
them.

**QR authorisation.** `QrCodeAuth` is the polling loop with its bounded refresh and de-duplication.

## What turned out false, and the exact condition

* The validator rejects an OpenClaw run exactly when a host tool event carrying an input is handled while
  the run is live (`AcceptedUnlessToolInput`): the input is sent as text, the validator wants an object.
* The flat permission map keeps two sessions apart exactly when neither id, followed by a colon, begins the
  other (`SeparableExactly`).
* A chat that fails sends no terminal exactly when the error passes the run and is suppressed, has no
  text or no session to report to (`OneTerminalPerChat`); a start that throws an error without a text is
  such a case (`SilentStartSendsNothing`).
* The reconnect budget can be overspent. Some run of a configuration overspends it exactly when the delays
  that fit the budget one by one add up to it (`OverspendsExactly`; `CanOverspendInNumbers` says which
  configurations these are). The way there is to connect while reconnecting, which leaves a timer over that
  then fires late (`ConnectWhileReconnectingOverspends`). Never connecting while reconnecting is not enough:
  a `disconnect()` between a failed retry's continue signal and its catch leaves a timer over as well
  (`DisconnectBeforeTheCatchOverspends`), and such a caller can overspend exactly when, besides, a second
  delay fits on top of the first (`PatientOverspendsExactly`). Every run on which leftover timers are
  punctual stays in budget (`WindowStaysInBudget`), an unpunctual one puts time on account where nothing was
  granted and a punctual one does not (`LeftoverTimerExactly`); punctual are the runs of a caller who never
  connects while reconnecting and whose continue signals are all caught before any other event
  (`OrderlyCallerStaysInBudget`).
* After `disconnect()` the status stays closed but its error code can still change: at the catch of a late
  continue signal, exactly when the policy is exhausted (`LateSignalChangesTheCode`). Runs that get there
  exist exactly for the configurations with reconnect enabled and a first delay that fits the budget
  (`LateSignalIsReached`, `LateSignalHappensExactly`).
* Policy `reject` does not always keep a session to one run in flight (`CloseAdmitsASecondRun`): it does
  exactly as long as no chat is admitted beside a run that a close has orphaned (`OneInFlightExactly`).
* An outbound emission can lose its slot to an orphan of the same message id, and then two emissions hold it
  together (`OrphanFreesForeignSlot`, `TwoEmissionsAtOnce`); orphans stay harmless exactly as long as no
  emission that gets the slot reuses the message id of one (`HarmlessExactlyWhenCareful`).
* The runtime can be idle with a gateway client still connected: after `start()` while reconnecting, or
  `stop()` while the core starts (`StartWhileReconnectingLeaks`, `StopWhileCoreStartsLeaks`). A client can
  be left over exactly after a `start()` that finds one still connected or a `stop()` that finds the core
  still starting (`LeaksExactlyWhenUntidy`); starting again after the gateway closed with a failure is
  neither (`RecoveryIsTidy`).
* The streamed deltas of an OpenClaw run need not add up to its text. At every moment while the queue is
  open they are the accumulated text exactly if every event handled meanwhile is `Exact`: a block is
  streamed, and an assistant snapshot extends the accumulated text by just what it brings or, streaming
  being off, leaves it as it is (`DeltasAddUp`). A snapshot that starts anew breaks it
  (`RestartedSnapshotLosesText`). After exact events text.done says what was streamed exactly if the host
  gave no final text or an equal one (`DoneTextCompletesDeltas`, `FinalTextReplacesDeltas`).

## Model

| member | source | states |
|---|---|---|
| `GatewayLifecycle.StaleTokenStaysStale` | packages/gateway-client/src/application/runtime/GatewayLifecycleState.ts:50-128 | a token that is no longer current stays so through every later sequence of calls, and every conditional call made with it (ready, reconnecting, closed) changes nothing and emits nothing |
| `GatewayLifecycle.PastGenerationStaysPast` | packages/gateway-client/src/application/runtime/GatewayLifecycleState.ts:85-118 | a generation that is past never returns, and closing as exhausted with it changes nothing and emits nothing |
| `GatewayLifecycle.ManualCloseEndsTheGeneration` | packages/gateway-client/src/application/runtime/GatewayLifecycleState.ts:108-118 | after a manual close no token handed out before is current again and nothing scheduled under the old generation closes the client as exhausted, whatever is called afterwards |
| `GatewayLifecycle.EveryChangeIsTold` | packages/gateway-client/src/application/runtime/GatewayLifecycleState.ts:50-128 | every call that takes effect sets its status and tells the listeners of it once, a close leaves no session, a diagnostic close clears the session, throws and tells nobody, and any other call changes nothing |
| `GatewayLifecycle.LastToldIsTheStatus` | packages/gateway-client/src/application/runtime/GatewayLifecycleState.ts:125-128 | over every sequence of calls the listeners have heard the present status last |
| `GatewayLifecycle.GatewayLifecycleState.BeginConnect` | packages/gateway-client/src/application/runtime/GatewayLifecycleState.ts:50-59 | hands out a new session id under the current generation, makes it current and clears the manual flag |
| `GatewayLifecycle.GatewayLifecycleState.FinishConnectIfCurrent` | packages/gateway-client/src/application/runtime/GatewayLifecycleState.ts:61-67 | ready exactly for the current token |
| `GatewayLifecycle.GatewayLifecycleState.MarkReconnectingIfCurrent` | packages/gateway-client/src/application/runtime/GatewayLifecycleState.ts:69-75 | reconnecting exactly for the current token |
| `GatewayLifecycle.GatewayLifecycleState.BeginReconnectWindow` | packages/gateway-client/src/application/runtime/GatewayLifecycleState.ts:77-83 | reconnecting unless manually disconnected; yields the generation |
| `GatewayLifecycle.GatewayLifecycleState.CloseReconnectExhaustedIfCurrent` | packages/gateway-client/src/application/runtime/GatewayLifecycleState.ts:85-97 | closes as exhausted exactly for the current generation |
| `GatewayLifecycle.GatewayLifecycleState.CloseIfCurrent` | packages/gateway-client/src/application/runtime/GatewayLifecycleState.ts:99-106 | closes with the given error for the current token, and throws for a diagnostic error after the session was cleared |
| `GatewayLifecycle.GatewayLifecycleState.CloseManual` | packages/gateway-client/src/application/runtime/GatewayLifecycleState.ts:108-118 | invalidates every token by a new generation and closes |
| `ReconnectPolicy.Delay` | packages/gateway-client/src/adapters/DefaultReconnectPolicy.ts:53-74 | a delay never exceeds the n-th backoff cap, and equals it without jitter |
| `ReconnectPolicy.CapAtLeast` | packages/gateway-client/src/adapters/DefaultReconnectPolicy.ts:53-74 | no backoff cap is below the smaller of base and maximum |
| `ReconnectPolicy.JitterDelay` | packages/gateway-client/src/adapters/DefaultReconnectPolicy.ts:53-74 | a jittered delay is the largest whole number not above the random draw times cap plus one, hence within the cap |
| `ReconnectPolicy.NextAttemptExactly` | packages/gateway-client/src/adapters/DefaultReconnectPolicy.ts:53-86 | asking for the next attempt begins the window now if none is open, counts a try exactly if budget is left, and grants its delay exactly if it still fits |
| `ReconnectPolicy.DefaultReconnectPolicy.ScheduleNextAttempt` | packages/gateway-client/src/adapters/DefaultReconnectPolicy.ts:53-74 | grants a delay exactly when elapsed time plus delay stays below the budget; the counter moves even when it does not |
| `ReconnectPolicy.DefaultReconnectPolicy.RecordSuspendedDuration` | packages/gateway-client/src/adapters/DefaultReconnectPolicy.ts:48-51 | adds non-negative suspended time |
| `ReconnectPolicy.DefaultReconnectPolicy.GetExhaustedDecision` | packages/gateway-client/src/adapters/DefaultReconnectPolicy.ts:76-82 | exhausted exactly when the window, started now at the latest, has used up the budget |
| `CloseDecision.RetriesExactly` | packages/gateway-client/src/application/runtime/evaluateReconnectOnClose.ts:26-52 | a close leads to a retry exactly for the four transient codes on an enabled, live client, for a ready or reconnecting attempt; rejected codes are never retried |
| `GatewayInvariant.StepKeepsInv` | packages/gateway-client/src/application/runtime/ConnectSession.ts:52-613 | every deliverable event keeps the invariant of tokens, phases, settlements, frames, timers, heartbeat and errors |
| `GatewayInvariant.OpenKeepsInv` | packages/gateway-client/src/application/runtime/ConnectSession.ts:168-195 | opening a socket keeps it, whether or not register can be sent |
| `GatewayInvariant.MessageKeepsInv` | packages/gateway-client/src/application/runtime/ConnectSession.ts:220-281 | so does every inbound frame |
| `GatewayInvariant.CloseKeepsInv` | packages/gateway-client/src/application/runtime/ConnectSession.ts:298-441 | so does every close, with stop, start-window and continue-window |
| `GatewayInvariant.HandshakeTimeoutKeepsInv` | packages/gateway-client/src/application/runtime/ConnectSession.ts:197-218 | so does a handshake timeout |
| `GatewayInvariant.AbortListenerKeepsInv` | packages/gateway-client/src/application/runtime/ConnectSession.ts:142-166 | so does the abort listener |
| `GatewayInvariant.ConnectKeepsInv` | packages/gateway-client/src/application/runtime/ConnectSession.ts:696-762 | so does a public connect, started, aborted or failing its preparation |
| `GatewayInvariant.ReconnectTimerKeepsInv` | packages/gateway-client/src/application/runtime/ReconnectOrchestrator.ts:68-108 | so does the scheduled retry, stale, exhausted or connecting |
| `GatewayInvariant.ContinueSignalKeepsInv` | packages/gateway-client/src/application/runtime/ReconnectOrchestrator.ts:44-111 | so does a caught continue signal |
| `GatewayInvariant.DisconnectKeepsInv` | packages/gateway-client/src/application/GatewayClientRuntime.ts:165-180 | so does disconnect |
| `GatewayInvariant.DisconnectEffect` | packages/gateway-client/src/application/GatewayClientRuntime.ts:165-180 | disconnect leaves nothing running, rejects the active attempt with the abort error and touches no other attempt |
| `GatewayRuns.ReadyMeansOneLiveAttempt` | packages/gateway-client/src/application/runtime/ConnectSession.ts:251-268 | on every run: ready exactly when one attempt holds the current token in phase ready, exactly when the heartbeat runs, and never two such attempts |
| `GatewayRuns.RegisterComesFirst` | packages/gateway-client/src/application/runtime/ConnectSession.ts:168-195 | on every run: the frames of each attempt are register (business or heartbeat)*, nothing after register without an accepted handshake |
| `GatewayRuns.MessagesNeedReady` | packages/gateway-client/src/application/runtime/InboundFrameRouter.ts:37-62 | a step sends a business message upward only for a business frame of the attempt that makes the client ready |
| `GatewayRuns.BusinessFramesNeedReady` | packages/gateway-client/src/application/runtime/OutboundSender.ts:50-91 | a business frame is written only by a send, on the socket of the ready attempt |
| `GatewayRuns.BusinessNeedsReady` | packages/gateway-client/src/application/runtime/OutboundSender.ts:50-91 | both, on every run and for whatever event comes next |
| `GatewayTraffic.EmittedAreTheMessages` | packages/gateway-client/src/application/runtime/InboundFrameRouter.ts:37-62 | on every run exactly the business frames that meet the ready attempt are handed up, in order, each once |
| `GatewayTraffic.FramesAreTheTraffic` | packages/gateway-client/src/application/runtime/OutboundSender.ts:50-91 | on every run the frames on an attempt's socket are exactly register, if it opened as the current attempt, and every heartbeat and business message that could be sent while it made the client ready |
| `GatewayTraffic.RunTellsTheTraffic` | packages/gateway-client/src/application/runtime/InboundFrameRouter.ts:37-62 | both, for every run of a client from its construction |
| `GatewayRuns.ActiveMeansUnsettled` | packages/gateway-client/src/application/runtime/ConnectSession.ts:477-550 | on every run: the active attempt is exactly the unsettled one, it is pre-ready, and a cleaned-up attempt is settled |
| `GatewayRuns.SettledOnce` | packages/gateway-client/src/application/runtime/ConnectSession.ts:517-535 | no event changes a settled promise, a token or the kind of an attempt |
| `GatewayRuns.RejectionMatchesStatus` | packages/gateway-client/src/application/runtime/ConnectSession.ts:492-503 | a rejection of the current attempt carries the error of the closed status, except by disconnect |
| `GatewayRuns.CauseDecidesTheSettlement` | packages/gateway-client/src/application/runtime/ConnectSession.ts:168-441 | every event of the current attempt before it is ready settles connect() with the outcome that names the cause (parameter, timeout, rejection, invalid handshake, abort, auth, transport, continue), or leaves it pending |
| `GatewayRuns.CloseOfReadyNamesTheCause` | packages/gateway-client/src/application/runtime/ConnectSession.ts:298-441 | closing the ready socket: abort and auth rejection close with their own error, a transient code starts a window or exhausts it, any other close is a transport error, retryable unless an earlier error of the socket said otherwise |
| `GatewayEffects.EventsMoveTheTransport` | packages/gateway-client/src/application/runtime/ConnectSession.ts:142-218 | a started connect opens the transport, what the client gives up on (register, handshake, timeout, abort, disconnect) closes it, and nothing else touches it |
| `GatewayEffects.AbortedExactly` | packages/gateway-client/src/application/runtime/ConnectSession.ts:142-166 | on every run the client counts as aborted exactly once its signal has fired |
| `GatewayEffects.TimerRunsWhileRegistered` | packages/gateway-client/src/application/runtime/ConnectSession.ts:168-218 | on every run the handshake timer of an attempt is armed exactly while the attempt has registered and waits for the answer, if a timeout is configured |
| `GatewayEffects.SocketErrorIsKept` | packages/gateway-client/src/application/runtime/ConnectSession.ts:283-296 | the first error of a live socket is kept, with the attempt's phase, for the close that follows |
| `GatewayEffects.TransientCloseStartsAWindow` | packages/gateway-client/src/application/runtime/ConnectSession.ts:362-374 | a transient close of the ready attempt ends it with a transport error, asks the policy, sets the timer to the granted delay, and tells the listeners |
| `GatewayEffects.CaughtSignalPlansTheNext` | packages/gateway-client/src/application/runtime/ReconnectOrchestrator.ts:44-71 | a caught continue signal asks the policy and sets the timer likewise, also after a disconnect, and is then used up |
| `GatewayEffects.FiredTimerRetries` | packages/gateway-client/src/application/runtime/ReconnectOrchestrator.ts:68-108 | a firing timer credits sleep, closes as exhausted if the budget is used up by then, and otherwise, unless ready or connecting, makes a retry under the next session id |
| `GatewayEffects.ConnectStartsOrCloses` | packages/gateway-client/src/application/runtime/ConnectSession.ts:696-762 | a public connect of an idle client makes an attempt and opens the transport, or ends closed when aborted or badly prepared |
| `GatewayRuns.ThrowsOnlyOnDiagnosticPreparation` | packages/gateway-client/src/domain/state.ts:19-24 | a step reaches the throw exactly when a really started connection fails its preparation with a diagnostic error |
| `GatewayRuns.NeverThrows` | packages/gateway-client/src/domain/state.ts:19-24 | on every run without such a preparation the throw is never reached |
| `GatewayRuns.DisconnectIsFinal` | packages/gateway-client/src/application/GatewayClientRuntime.ts:165-180 | from any state, after disconnect and until the next public connect the status stays closed, no transport is opened, nothing is written or emitted, whatever late events arrive |
| `GatewayRuns.LateSignalChangesTheCode` | packages/gateway-client/src/application/runtime/ReconnectOrchestrator.ts:44-71 | a late continue signal replaces the manual error by the exhausted one exactly when the policy is exhausted |
| `LateSignal.LateSignalIsReached` | packages/gateway-client/src/application/runtime/ReconnectOrchestrator.ts:98-102 | for every configuration with reconnect enabled and a first delay that fits, a deliverable run ends manually closed with such a signal to be caught, which turns the error into the exhausted one |
| `LateSignal.LateSignalHappensExactly` | packages/gateway-client/src/application/runtime/ReconnectOrchestrator.ts:44-102 | and only for those: for any other configuration no run of any caller gets there |
| `GatewayRuns.FirstRetryIsAClose` | packages/gateway-client/src/application/runtime/evaluateReconnectOnClose.ts:26-52 | the first retry of a client is planned by a close of a ready attempt |
| `GatewayRuns.ReconnectingIsBacked` | packages/gateway-client/src/application/runtime/ReconnectOrchestrator.ts:44-111 | on every run: unaborted, reconnecting has a timer, an attempt or an uncaught signal behind it, and any retry implies that some attempt was ready |
| `ReconnectBudget.WindowStaysInBudget` | packages/gateway-client/src/adapters/DefaultReconnectPolicy.ts:48-86 | on every punctual run the delays of a window sum to less than the budget, each is within its cap, and without jitter their number times the smaller of base and maximum is below the budget |
| `ReconnectBudget.LeftoverTimerExactly` | packages/gateway-client/src/application/runtime/ReconnectOrchestrator.ts:72-92 | a leftover timer that fires on a ready, unaborted client with nothing granted leaves no time on account if and only if it is punctual, that is, at most the drift threshold late |
| `ReconnectBudget.CreditKeepsWindow` | packages/gateway-client/src/application/runtime/ReconnectOrchestrator.ts:72-92 | crediting sleep never makes the window look shorter than the delays it granted |
| `ReconnectBudget.StepKeepsBudget` | packages/gateway-client/src/application/runtime/ReconnectOrchestrator.ts:44-111 | every punctual event keeps consumed time at or above the sum of past delays |
| `ReconnectBudget.OrderlyCallerStaysInBudget` | packages/gateway-client/src/application/runtime/ReconnectOrchestrator.ts:44-111 | a caller who never connects while reconnecting keeps every window in budget, provided every continue signal is caught before any other event |
| `ReconnectBudget.ConnectRejectsWithStatusError` | packages/gateway-client/src/application/runtime/ConnectSession.ts:696-767 | on the same runs (no connect while reconnecting, continue signals caught at once) a failing attempt rejects connect() with the error of the closed status |
| `ReconnectOverspend.CanOverspendInNumbers` | packages/gateway-client/src/adapters/DefaultReconnectPolicy.ts:53-74 | the overspending configurations in numbers: with jitter any positive delay and a budget above 1 ms, without it a positive constant delay below the budget, doubling up to a maximum below the budget, or doubling past it when the k doublings of the base that stay below it add up to it, base * (2^k - 1) |
| `ReconnectOverspend.IncapableStaysInBudget` | packages/gateway-client/src/adapters/DefaultReconnectPolicy.ts:48-86 | where the delays that fit do not add up to the budget, no run of any caller overspends it |
| `ReconnectOverspend.ConnectWhileReconnectingOverspends` | packages/gateway-client/src/application/runtime/ReconnectOrchestrator.ts:72-92 | in every other configuration with reconnect enabled, connecting while reconnecting leads to a window that is granted the whole budget or more |
| `ReconnectOverspend.OverspendsExactly` | packages/gateway-client/src/application/runtime/ReconnectOrchestrator.ts:44-111 | some run overspends the budget if and only if reconnect is enabled and the delays that fit one by one add up to it |
| `ReconnectOverspend.DisconnectBeforeTheCatchOverspends` | packages/gateway-client/src/application/runtime/ReconnectOrchestrator.ts:98-102 | so can a caller who never connects while reconnecting, by disconnecting between a failed retry's continue signal and its catch, if a second delay fits on top of the first |
| `ReconnectOverspend.PatientCallerStaysInBudget` | packages/gateway-client/src/application/runtime/ReconnectOrchestrator.ts:44-111 | if none fits, a caller who never connects while reconnecting stays in budget however late signals are caught |
| `ReconnectOverspend.PatientOverspendsExactly` | packages/gateway-client/src/application/runtime/ReconnectOrchestrator.ts:44-111 | some run of such a caller overspends if and only if the configuration can overspend and a second delay fits on top of the first |
| `GatewayRuntime.RuntimeParts.ScheduleReconnect` | packages/gateway-client/src/application/runtime/ReconnectOrchestrator.ts:44-71 | the objects do what the step function says: begin the window, ask the policy, schedule or close |
| `GatewayRuntime.ConnectAttempt.HandleOpen` | packages/gateway-client/src/application/runtime/ConnectSession.ts:168-195 | attempt and shared objects after open are those of the step function |
| `GatewayRuntime.ConnectAttempt.HandleHandshakeResult` | packages/gateway-client/src/application/runtime/ConnectSession.ts:251-281 | likewise for a handshake result |
| `GatewayRuntime.ConnectAttempt.HandleClose` | packages/gateway-client/src/application/runtime/ConnectSession.ts:298-319 | likewise for a close |
| `GatewayRuntime.ConnectAttempt.FailBeforeReady` | packages/gateway-client/src/application/runtime/ConnectSession.ts:492-503 | the ordered effects: commit, close status, reject, clean up, close transport |
| `GatewayRuntime.ConnectAttempt.EnterTerminal` | packages/gateway-client/src/application/runtime/ConnectSession.ts:537-550 | cleans up once, stops heartbeat and timer, releases the active slot |
| `GatewayRuntime.GatewayClientRuntime.ConnectInternal` | packages/gateway-client/src/application/runtime/ConnectSession.ts:696-762 | the object graph after connect is the step function's; at most one attempt object is added, a new one, under the next session id |
| `GatewayRuntime.GatewayClientRuntime.Disconnect` | packages/gateway-client/src/application/GatewayClientRuntime.ts:165-180 | the object graph after disconnect is the step function's |
| `GatewayRuntime.GatewayClientRuntime.OnClose` | packages/gateway-client/src/application/runtime/ConnectSession.ts:298-319 | a close callback on one attempt changes that attempt and the shared parts as the step function says, and no other attempt |
| `GatewayRuntime.GatewayClientRuntime.OnMessage` | packages/gateway-client/src/application/runtime/ConnectSession.ts:220-249 | likewise for a message callback |
| `GatewayRuntime.GatewayClientRuntime.OnReconnectTimer` | packages/gateway-client/src/application/runtime/ReconnectOrchestrator.ts:68-108 | likewise for the scheduled retry |
| `GatewayRuntime.TimeoutReconnectScheduler.Schedule` | packages/gateway-client/src/adapters/TimeoutReconnectScheduler.ts:9-22 | at most one timer is pending, the last one scheduled |
| `GatewayRuntime.Drive` | packages/gateway-client/src/application/GatewayClientRuntime.ts:48-189 | the objects, built and driven through any deliverable run, are where the run of the step function is: ready exactly while the heartbeat runs, the active attempt object exactly the unsettled one, every socket written exactly the traffic of the run, the sink given exactly its messages |
| `FactSequence.AcceptsExactlyOrderedHistories` | packages/bridge-runtime-sdk/src/application/fact-sequence-validator.ts:40-157 | the set-based validator accepts a sequence exactly when the declarative history rules and the payload rule hold, in every profile, and remembers which messages are open and done |
| `FactSequence.AdvanceFollowsRules` | packages/bridge-runtime-sdk/src/application/fact-sequence-validator.ts:40-157 | one fact is accepted exactly when the rules let it follow the history |
| `FactSequence.RejectsAtFirstOffence` | packages/bridge-runtime-sdk/src/application/fact-sequence-validator.ts:40-60 | every prefix of an accepted sequence is accepted |
| `FactSequence.PartsAreNoted` | packages/bridge-runtime-sdk/src/application/fact-sequence-validator.ts:121-157 | an accepted history leaves noted exactly the text and thinking parts whose last fact is a delta, and the tool calls it updated |
| `FactSequence.ValidationSessionState.Consume` | packages/bridge-runtime-sdk/src/application/fact-sequence-validator.ts:40-157 | the mutable state moves as the automaton does, and stays as it was when the fact is rejected |
| `PendingInteractions.KeyIsInjective` | packages/bridge-runtime-sdk/src/infrastructure/registries/InMemoryPendingInteractionRegistry.ts:37-39 | the string key is equal exactly for equal kind and token |
| `PendingInteractions.PendingBalance` | packages/bridge-runtime-sdk/src/infrastructure/registries/InMemoryPendingInteractionRegistry.ts:12-35 | over every history, successful registers minus successful consumes of a token is 0 or 1, and 1 exactly while it is pending |
| `PendingInteractions.ReplyReachesTheAsker` | packages/bridge-runtime-sdk/src/application/coordinators/InteractionCoordinator.ts:18-92 | a reply finds the record of the first ask since the token was last replied to, and misses exactly when there is none |
| `PendingInteractions.ConflictMeansForeignOpenAsk` | packages/bridge-runtime-sdk/src/application/coordinators/InteractionCoordinator.ts:26-45 | an ask conflicts exactly when another session's ask of the token is open, which keeps the token |
| `PendingInteractions.PendingFactIsTheFirstAsk` | packages/bridge-runtime-sdk/src/application/coordinators/InteractionCoordinator.ts:18-92 | over every sequence of facts and replies, what is pending for a question or a permission is session and message of the first question.ask, respectively permission.ask, of its id since its last reply |
| `PendingInteractions.FactConflictsExactly` | packages/bridge-runtime-sdk/src/application/coordinators/InteractionCoordinator.ts:18-79 | a fact conflicts exactly when it asks for a token another session's open ask holds |
| `PendingInteractions.Drive` | packages/bridge-runtime-sdk/src/application/coordinators/InteractionCoordinator.ts:18-92 | any facts and replies driven through the coordinator, a reply is delivered to the session whose fact asked first since the last reply, and to none exactly if no ask is open |
| `PendingInteractions.Offer` | packages/bridge-runtime-sdk/src/application/coordinators/InteractionCoordinator.ts:18-79 | one more fact offered to the driven coordinator conflicts exactly if another session's open ask holds its token |
| `PendingInteractions.InMemoryPendingInteractionRegistry.Register` | packages/bridge-runtime-sdk/src/infrastructure/registries/InMemoryPendingInteractionRegistry.ts:12-23 | registers a free token, and reports a duplicate or a conflict without a change |
| `PendingInteractions.InMemoryPendingInteractionRegistry.Consume` | packages/bridge-runtime-sdk/src/infrastructure/registries/InMemoryPendingInteractionRegistry.ts:25-35 | returns and removes the record of the token, and no other |
| `PendingInteractions.InteractionCoordinator.RegisterFromFact` | packages/bridge-runtime-sdk/src/application/coordinators/InteractionCoordinator.ts:18-79 | a question.ask or permission.ask registers its token under its own kind, other facts nothing; a foreign token throws |
| `PermissionPresentation.FlatRefinesNested` | packages/bridge-runtime-sdk/src/infrastructure/registries/InMemoryPermissionPresentationRegistry.ts:13-39 | over every history the flat map answers for a separable session as a map of maps would; a clear removes exactly that session |
| `PermissionPresentation.ColonFreeSessionsRefine` | packages/bridge-runtime-sdk/src/infrastructure/registries/InMemoryPermissionPresentationRegistry.ts:28-39 | in particular if no session id holds a colon |
| `PermissionPresentation.SeparableExactly` | packages/bridge-runtime-sdk/src/infrastructure/registries/InMemoryPermissionPresentationRegistry.ts:28-39 | two sessions are kept apart in every history exactly when neither id followed by a colon begins the other |
| `PermissionPresentation.ContextIsTheFirstAsk` | packages/bridge-runtime-sdk/src/infrastructure/registries/InMemoryPermissionPresentationRegistry.ts:13-22 | the context of a permission is that of the first ask since the last clear of its session |
| `PermissionPresentation.AsksAreRecorded` | packages/bridge-runtime-sdk/src/application/ProviderFactEnricher.ts:26-60 | a permission.ask not known yet is recorded with its own part and type and, unless empty, its message; a known one stays; no other fact records anything |
| `PermissionPresentation.ReplyIsShownWithItsAsk` | packages/bridge-runtime-sdk/src/application/ProviderFactEnricher.ts:40-92 | a reply passes exactly when such an ask exists, and carries its part, message and type |
| `PermissionPresentation.InMemoryPermissionPresentationRegistry.ClearSession` | packages/bridge-runtime-sdk/src/infrastructure/registries/InMemoryPermissionPresentationRegistry.ts:28-35 | the deleting walk leaves exactly the entries without the prefix |
| `PermissionPresentation.ProviderFactEnricher.EnrichFact` | packages/bridge-runtime-sdk/src/application/ProviderFactEnricher.ts:26-92 | asks are recorded and pass, replies are looked up or dropped, other facts pass unchanged |
| `SessionRuns.RegisteredIdsAreLiveRuns` | packages/bridge-runtime-sdk/src/infrastructure/registries/InMemorySessionRuntimeRegistry.ts:54-81 | in every interleaving a session's registered ids are, in start order and without duplicates, its runs in flight that no close has orphaned |
| `SessionRuns.IdleClosesKeepAllRunsRegistered` | packages/bridge-runtime-sdk/src/application/usecases/StartRequestRunUseCase.ts:36-96 | if the session was only ever closed while idle, all its runs in flight |
| `SessionRuns.RejectMeansOneInFlight` | packages/bridge-runtime-sdk/src/application/usecases/StartRequestRunUseCase.ts:51-60 | policy reject and no close but while idle: at most one run in flight |
| `SessionRuns.OneInFlightExactly` | packages/bridge-runtime-sdk/src/application/usecases/StartRequestRunUseCase.ts:51-60 | under policy reject, closes or not, at most one run of the session is ever in flight if and only if no chat is admitted beside a run that a close has orphaned |
| `SessionRuns.CloseAdmitsASecondRun` | packages/bridge-runtime-sdk/src/application/usecases/CloseSessionUseCase.ts:26-42 | a concrete run with a close in which two runs are in flight under policy reject |
| `SessionRuns.RejectedExactlyWhenRunning` | packages/bridge-runtime-sdk/src/application/usecases/StartRequestRunUseCase.ts:51-60 | a chat is rejected exactly when the policy rejects and an unorphaned run of the session is in flight |
| `SessionRuns.ReleaseTakesOnlyItsOwn` | packages/bridge-runtime-sdk/src/infrastructure/registries/InMemorySessionRuntimeRegistry.ts:66-77 | one run's release never removes another's id |
| `SessionRuns.WelinkIsKept` | packages/bridge-runtime-sdk/src/infrastructure/registries/InMemorySessionRuntimeRegistry.ts:26-43 | the first welink session id of a session is kept until it is closed |
| `SessionRuns.StartRequestRunUseCase.Begin` | packages/bridge-runtime-sdk/src/application/usecases/StartRequestRunUseCase.ts:36-66 | the synchronous check, registration and record are one step of the system, and the reporting id is the command's or the recorded one |
| `SessionRuns.StartRequestRunUseCase.End` | packages/bridge-runtime-sdk/src/application/usecases/StartRequestRunUseCase.ts:93-95 | so is the release |
| `SessionRuns.InMemorySessionRuntimeRegistry.ReleaseRequestRun` | packages/bridge-runtime-sdk/src/infrastructure/registries/InMemorySessionRuntimeRegistry.ts:66-77 | filters the id out of its session's list in order |
| `OutboundSlot.OneEmissionAtATime` | packages/bridge-runtime-sdk/src/infrastructure/registries/InMemorySessionRuntimeRegistry.ts:83-97 | the slot is taken exactly while one unorphaned emission is in flight, provided no emission that gets the slot reuses the message id of an orphan in flight |
| `OutboundSlot.NoCloseIsCareful` | packages/bridge-runtime-sdk/src/infrastructure/registries/InMemorySessionRuntimeRegistry.ts:83-97 | without a close the proviso always holds |
| `OutboundSlot.HarmlessExactlyWhenCareful` | packages/bridge-runtime-sdk/src/infrastructure/registries/InMemorySessionRuntimeRegistry.ts:83-97 | the proviso is exact: after careful steps, the next event leaves every orphan unable to free the slot if and only if it is careful too |
| `OutboundSlot.OrphanFreesForeignSlot` | packages/bridge-runtime-sdk/src/infrastructure/registries/InMemorySessionRuntimeRegistry.ts:92-97 | after a careless start (a free slot taken with the message id of an orphan) the orphan's end lets a third emission in beside the second |
| `OutboundSlot.TwoEmissionsAtOnce` | packages/bridge-runtime-sdk/src/application/usecases/CloseSessionUseCase.ts:26-42 | such a run from the start: emission, close, the same message id again, the orphan's end, a third emission; two of them hold the slot |
| `RunPipeline.ConsumeFacts` | packages/bridge-runtime-sdk/src/application/coordinators/RequestRunCoordinator.ts:93-128 | the loop over the real enricher and interaction coordinator sends and fails as specified, whatever other runs do to the shared maps between facts, and leaves in the maps what its last fact recorded and registered |
| `RunPipeline.LoopEndsWell` | packages/bridge-runtime-sdk/src/application/coordinators/RequestRunCoordinator.ts:93-128 | no failure exactly when the facts let through are accepted and no ask conflicts; then one event per such fact, in order |
| `RunPipeline.SentBeforeTheOffence` | packages/bridge-runtime-sdk/src/application/coordinators/RequestRunCoordinator.ts:99-126 | failing or not, what was sent is the events of the facts before the offence |
| `RunPipeline.OffenceIsNamed` | packages/bridge-runtime-sdk/src/application/coordinators/RequestRunCoordinator.ts:112-113 | the error is an invalid sequence exactly when the kept facts up to the offending one are not accepted, else that ask conflicts |
| `PipelineReplies.ReplyShowsTheFirstAsk` | packages/bridge-runtime-sdk/src/application/ProviderFactEnricher.ts:40-92 | whichever runs interleave, a reply of the run is shown exactly when its permission was asked since the session's last clear, and with part, message and type of the first such ask |
| `PipelineReplies.ReplyCarriesItsOwnAsk` | packages/bridge-runtime-sdk/src/application/coordinators/RequestRunCoordinator.ts:99-115 | a reply in the stream that asked, with no clear in between, is shown with what that ask said, unless an earlier ask of the permission was still known |
| `PipelineReplies.HandledReplyIsSent` | packages/bridge-runtime-sdk/src/application/coordinators/RequestRunCoordinator.ts:99-126 | and the loop, if it gets past the reply, sends it upward like that |
| `RunPipeline.TerminalUplink` | packages/bridge-runtime-sdk/src/application/projectors/DefaultRunTerminalSignalProjector.ts:15-32 | one terminal per result, tool_done exactly for completed and aborted |
| `RunPipeline.OneTerminalPerChat` | packages/bridge-runtime-sdk/src/application/projectors/CommandFailureToolErrorProjector.ts:38-77 | every finished chat sends events, then at most one terminal, and exactly one unless the error passes the run and cannot be reported |
| `RunPipeline.SilentStartSendsNothing` | packages/bridge-runtime-sdk/src/application/projectors/CommandFailureToolErrorProjector.ts:38-77 | a chat whose provider fails to start sends nothing exactly when that error cannot be reported, as one without a text |
| `RunPipeline.ReportNamesTheFailure` | packages/bridge-runtime-sdk/src/application/projectors/CommandFailureToolErrorProjector.ts:38-77 | the last uplink of a chat that fails past its run is the fixed text for an active run or an unknown interaction, else the thrown message |
| `RunPipeline.WellBehavedChatHasOneTerminal` | packages/bridge-runtime-sdk/src/application/runtime-assembly/downstream.ts:27-61 | whichever part fails, exactly one terminal goes out last, if thrown messages are non-empty, the session is named and the provider throws no contract error |
| `RunPipeline.GoodChatDeliversEverything` | packages/bridge-runtime-sdk/src/application/coordinators/RequestRunCoordinator.ts:42-86 | a chat that goes well sends all kept events and its own terminal |
| `RunPipeline.RejectedStreamIsCut` | packages/bridge-runtime-sdk/src/application/coordinators/RequestRunCoordinator.ts:60-71 | a rejected stream is cut before the offence and ends in the fixed failure text, once |
| `RunPipeline.ProcessChat` | packages/bridge-runtime-sdk/src/application/runtime-assembly/downstream.ts:27-61 | the command handler with its catch sends exactly these uplinks |
| `ChatAdmission.TurnedAwayByHistory` | packages/bridge-runtime-sdk/src/application/usecases/StartRequestRunUseCase.ts:51-60 | a chat is turned away exactly when the policy rejects and some earlier chat of the session was admitted, its run has not finished and the session has not been closed since |
| `ChatAdmission.AnsweredActiveExactly` | packages/bridge-runtime-sdk/src/application/projectors/CommandFailureToolErrorProjector.ts:38-77 | over every interleaving, a chat is answered with the fixed text for an active run exactly when it names a session and was turned away like that, or its provider throws that very error; turned away, nothing else is sent for it |
| `ChatAdmission.HandleChat` | packages/bridge-runtime-sdk/src/application/usecases/StartRequestRunUseCase.ts:36-96 | the use case object and the pipeline, one after the other: check and registration, the run's uplinks, release |
| `RunPipeline.OutboundRunHasOneTerminal` | packages/bridge-runtime-sdk/src/application/coordinators/OutboundCoordinator.ts:66-92 | an outbound run that got the slot sends one terminal last, tool_done exactly when nothing failed |
| `RunPipeline.OutboundCoordinator.EmitOutboundRun` | packages/bridge-runtime-sdk/src/application/coordinators/OutboundCoordinator.ts:66-92 | refused without an uplink when the slot is taken; otherwise sends these uplinks, rethrows the failure and leaves the slot free of itself |
| `RunPipeline.OutboundCoordinator.EmitOutbound` | packages/bridge-runtime-sdk/src/application/coordinators/OutboundCoordinator.ts:44-64 | a single message sends events only and always releases the slot |
| `RuntimeLifecycle.StaleAttemptsStayStale` | packages/bridge-runtime-sdk/src/application/lifecycle/RuntimeLifecycleState.ts:46-113 | a superseded attempt id never becomes current again and conditional calls with it change nothing |
| `RuntimeLifecycle.OneAttemptIsCurrent` | packages/bridge-runtime-sdk/src/application/lifecycle/RuntimeLifecycleState.ts:50-72 | a start and a stop are never current together |
| `RuntimeLifecycle.FailureSupersedesAll` | packages/bridge-runtime-sdk/src/application/lifecycle/RuntimeLifecycleState.ts:46-113 | after a failure nothing begun before can complete |
| `RuntimeLifecycle.RuntimeLifecycleState.FinishStartIfCurrent` | packages/bridge-runtime-sdk/src/application/lifecycle/RuntimeLifecycleState.ts:85-92 | ready exactly for the current attempt while not stopping or failed |
| `RuntimeLifecycle.RuntimeLifecycleState.FailStartIfCurrent` | packages/bridge-runtime-sdk/src/application/lifecycle/RuntimeLifecycleState.ts:94-100 | failed exactly for the current attempt |
| `RuntimeLifecycle.RuntimeLifecycleState.FinishStopIfCurrent` | packages/bridge-runtime-sdk/src/application/lifecycle/RuntimeLifecycleState.ts:102-108 | idle exactly for the current stop |
| `RuntimeSystem.IdleMeansNothingRuns` | packages/bridge-runtime-sdk/src/application/lifecycle/RuntimeLifecycleService.ts:62-184 | in every interleaving, idle means no start or stop in flight, provider not initialized, no client held |
| `RuntimeSystem.StoppingIsUndisturbed` | packages/bridge-runtime-sdk/src/application/lifecycle/RuntimeLifecycleService.ts:44-60 | stopping exactly while a stop is in flight, and nothing but its own end changes the lifecycle state |
| `RuntimeSystem.StopEndsIdleOrFailed` | packages/bridge-runtime-sdk/src/application/lifecycle/RuntimeLifecycleService.ts:85-135 | a stop ends idle exactly when nothing it did failed |
| `RuntimeSystem.StopEndsIdleExactly` | packages/bridge-runtime-sdk/src/application/lifecycle/RuntimeLifecycleService.ts:85-135 | the stop a given call began ends idle if and only if the core stopped well and no disconnect asked for since then failed |
| `RuntimeSystem.EveryEventMovesTheStatus` | packages/bridge-runtime-sdk/src/application/lifecycle/RuntimeLifecycleService.ts:44-184 | on every run what each event makes of the status: a start ends ready when its connect succeeds first, failed when core, connect or gateway fail first; a ready runtime follows its gateway; nothing disturbs a stop |
| `RuntimeSystem.GatewayHasTheLastWord` | packages/bridge-runtime-sdk/src/application/lifecycle/RuntimeLifecycleService.ts:44-60 | however often a live gateway loses and regains its connection, a ready or reconnecting runtime ends as the gateway said last |
| `RuntimeSystem.ReadyMeansAllRuns` | packages/bridge-runtime-sdk/src/application/lifecycle/RuntimeLifecycleService.ts:137-184 | a ready or reconnecting runtime has its core running and holds a client |
| `RuntimeSystem.AfterTheStart` | packages/bridge-runtime-sdk/src/application/lifecycle/RuntimeLifecycleService.ts:97-108 | when the start a stop waited for ends, a second disconnect is asked for exactly if that start connected the attached client and the first disconnect went well |
| `RuntimeSystem.ClientsAreTold` | packages/bridge-runtime-sdk/src/adapters/gateway/GatewayRuntimeDriver.ts:62-68 | while a failed start cleans up and while a stop waits for its last disconnect, the attached client has been told to disconnect |
| `RuntimeSystem.ClosedClientIsSilent` | packages/bridge-runtime-sdk/src/adapters/gateway/GatewayRuntimeDriver.ts:85-100 | a client that closed or whose connect was rejected is connected no more and not heard of again while attached |
| `RuntimeSystem.StartsWaitForTheStop` | packages/bridge-runtime-sdk/src/application/lifecycle/RuntimeLifecycleService.ts:62-66 | every start called during a stop waits for its end |
| `RuntimeSystem.WaitingStartsResume` | packages/bridge-runtime-sdk/src/application/lifecycle/RuntimeLifecycleService.ts:62-83 | if the stop ends well they resume before anything else and the first starts the runtime again; if it fails they fail with it |
| `RuntimeSystem.OneStartResumes` | packages/bridge-runtime-sdk/src/application/lifecycle/RuntimeLifecycleService.ts:62-83 | whenever a waiting start gets its turn, one fewer waits and a start is in flight, the one that resumed or the one it joins |
| `RuntimeSystem.StopMakesProgress` | packages/bridge-runtime-sdk/src/application/lifecycle/RuntimeLifecycleService.ts:85-135 | a stop never waits for itself, and each of at most seven settlements brings it nearer its end |
| `RuntimeSystem.StepKeepsInv` | packages/bridge-runtime-sdk/src/application/lifecycle/RuntimeLifecycleService.ts:62-184 | every event keeps the invariant of tokens, coroutines, client and core |
| `RuntimeSystem.TidyRunsLeaveNoClient` | packages/bridge-runtime-sdk/src/adapters/gateway/GatewayRuntimeDriver.ts:54-70 | as long as start() finds no client still connected and stop() no core still starting, every connected client is the attached one, and idle means none is |
| `RuntimeSystem.LeaksExactlyWhenUntidy` | packages/bridge-runtime-sdk/src/adapters/gateway/GatewayRuntimeDriver.ts:54-91 | the condition is exact: after tidy calls, the next event can be followed by settlements that leave a connected client unattached if and only if it is a start() or stop() that is not tidy |
| `RuntimeSystem.RecoveryIsTidy` | packages/bridge-runtime-sdk/src/application/lifecycle/RuntimeLifecycleService.ts:62-83 | start() after the gateway closed with a failure is tidy |
| `RuntimeSystem.StartWhileReconnectingLeaks` | packages/bridge-runtime-sdk/src/adapters/gateway/GatewayRuntimeDriver.ts:85-91 | a concrete run that ends idle with the replaced client still connected |
| `RuntimeSystem.StopWhileCoreStartsLeaks` | packages/bridge-runtime-sdk/src/adapters/gateway/GatewayRuntimeDriver.ts:62-68 | a concrete run that ends idle with a client never told to disconnect |
| `RuntimeService.RuntimeLifecycleService.Start` | packages/bridge-runtime-sdk/src/application/lifecycle/RuntimeLifecycleService.ts:62-83 | the service object's start is the system's step |
| `RuntimeService.RuntimeLifecycleService.Stop` | packages/bridge-runtime-sdk/src/application/lifecycle/RuntimeLifecycleService.ts:85-108 | so is its stop |
| `RuntimeService.RuntimeLifecycleService.OnCoreStart` | packages/bridge-runtime-sdk/src/application/lifecycle/RuntimeLifecycleService.ts:151-165 | so is what follows the core's start |
| `RuntimeService.RuntimeLifecycleService.OnConnect` | packages/bridge-runtime-sdk/src/application/lifecycle/RuntimeLifecycleService.ts:141-184 | so is what follows the driver's connect |
| `RuntimeService.RuntimeLifecycleService.OnCoreStop` | packages/bridge-runtime-sdk/src/application/lifecycle/RuntimeLifecycleService.ts:108-131 | so is what follows the core's stop |
| `RuntimeService.RuntimeLifecycleService.HandleGatewayStatusChanged` | packages/bridge-runtime-sdk/src/application/lifecycle/RuntimeLifecycleService.ts:44-60 | a gateway status is ignored while idle, stopping or failed, and otherwise moves the state |
| `RuntimeService.RuntimeLifecycleService.OnStatusChange` | packages/bridge-runtime-sdk/src/adapters/gateway/GatewayRuntimeDriver.ts:85-100 | the driver's observer passes the attached client's status on, and a closed one means that client is connected no more |
| `RuntimeService.GatewayRuntimeDriver.Connect` | packages/bridge-runtime-sdk/src/adapters/gateway/GatewayRuntimeDriver.ts:54-60 | a new client takes the place of the attached one |
| `RuntimeService.Drive` | packages/bridge-runtime-sdk/src/application/lifecycle/RuntimeLifecycleService.ts:44-184 | service, core and driver, driven through any sequence of events, are where the system is; idle, they have no core initialized, no client held and no coroutine in flight, and after tidy calls no client connected |
| `AsyncQueue.Drive` | plugins/message-bridge-openclaw/src/sdk/async-queue.ts:8-83 | any interleaving of push, next, close and fail through the queue answers every read as the plain FIFO does |
| `AsyncQueue.TakesInPushesBeforeTheEnd` | plugins/message-bridge-openclaw/src/sdk/async-queue.ts:61-81 | exactly the pushes before the first close or effective fail are taken in, and that call decides the ending |
| `AsyncQueue.InterleavingDoesNotMatter` | plugins/message-bridge-openclaw/src/sdk/async-queue.ts:44-59 | what a read gets does not depend on how reads interleave with the producer |
| `AsyncQueue.AnswersAreFinal` | plugins/message-bridge-openclaw/src/sdk/async-queue.ts:17-38 | a settled read keeps its answer |
| `AsyncQueue.EndedStreamAnswersEveryRead` | plugins/message-bridge-openclaw/src/sdk/async-queue.ts:44-59 | after the end every read is settled, values first, then done or failure |
| `AsyncQueue.AsyncQueueController.Flush` | plugins/message-bridge-openclaw/src/sdk/async-queue.ts:17-38 | pairs oldest waiters with oldest values, then settles the rest with the ending, each promise once |
| `AsyncQueue.AsyncQueueController.Next` | plugins/message-bridge-openclaw/src/sdk/async-queue.ts:44-57 | the queue keeps standing for the FIFO with one more read |
| `AsyncQueue.AsyncQueueController.Push` | plugins/message-bridge-openclaw/src/sdk/async-queue.ts:61-67 | likewise for a push |
| `AsyncQueue.AsyncQueueController.Close` | plugins/message-bridge-openclaw/src/sdk/async-queue.ts:68-74 | likewise for a close |
| `AsyncQueue.AsyncQueueController.Fail` | plugins/message-bridge-openclaw/src/sdk/async-queue.ts:75-81 | likewise for a fail, which does nothing without an error |
| `AsyncQueue.AsyncQueueController.DeliveredThenQueued` | plugins/message-bridge-openclaw/src/sdk/async-queue.ts:8-83 | delivered values followed by queued ones are what was taken in; values and waiters are never both non-empty |
| `OpenClawRun.StepKeepsInv` | plugins/message-bridge-openclaw/src/sdk/OpenClawProviderAdapter.ts:550-699 | every callback, completion, failure, abort or close keeps the fact stream of the shape title, start, content*, end, every content fact on the run's own message and part |
| `OpenClawStream.FactsAreOrdered` | plugins/message-bridge-openclaw/src/sdk/OpenClawProviderAdapter.ts:550-699 | over every interleaving the facts obey the validator's ordering rules, and nothing follows message.done |
| `OpenClawStream.OneMessagePerRun` | plugins/message-bridge-openclaw/src/sdk/OpenClawProviderAdapter.ts:683-699 | message.start at most once, right after the title, for the run's message; all but the last fact are its content |
| `OpenClawStream.ResolvedOnlyAfterClose` | plugins/message-bridge-openclaw/src/sdk/OpenClawProviderAdapter.ts:323-357 | the result is never resolved before the queue is closed, then no fact enters and the result stays |
| `OpenClawStream.OutcomeMatchesFacts` | plugins/message-bridge-openclaw/src/sdk/OpenClawProviderAdapter.ts:538-547 | completed means a finished message, failed an error or a finished message whose observer threw, aborted an abort or close; finished background work has an outcome |
| `OpenClawEndings.TheFirstEndingDecides` | plugins/message-bridge-openclaw/src/sdk/OpenClawProviderAdapter.ts:323-357 | on every run the result is that of the first ending, aborted if the session was closed before it; completed exactly when there is one; told to stop exactly by a close or by an abort before any result |
| `OpenClawEndings.EndingsResolve` | plugins/message-bridge-openclaw/src/sdk/OpenClawProviderAdapter.ts:538-547 | each ending closes the stream and resolves as it should, except that a throwing observer leaves the background to fail |
| `OpenClawEndings.BackgroundEndsOnce` | plugins/message-bridge-openclaw/src/sdk/OpenClawProviderAdapter.ts:323-357 | the background work completes, or fails, or fails after a throwing observer, and ends only once |
| `OpenClawStream.AcceptedUnlessToolInput` | plugins/message-bridge-openclaw/src/session/facts.ts:141-155 | the validator accepts the run exactly when no live tool event carried an input |
| `OpenClawStream.ToolInputIsRejected` | plugins/message-bridge-openclaw/src/session/facts.ts:150 | a concrete rejected run |
| `OpenClawStream.DeltasAddUp` | plugins/message-bridge-openclaw/src/sdk/OpenClawProviderAdapter.ts:933-972 | on every run, streaming or not: at every moment with the queue open the deltas concatenate to the accumulated text, if and only if every event handled with the queue open is exact |
| `OpenClawStream.ContentText` | plugins/message-bridge-openclaw/src/sdk/OpenClawProviderAdapter.ts:942-971 | one content event keeps that equality exactly when it is exact: its block is streamed, or its snapshot extends the text by just what is new |
| `OpenClawStream.DoneTextCompletesDeltas` | plugins/message-bridge-openclaw/src/sdk/OpenClawProviderAdapter.ts:665-681 | for every run still open and either completion: text.done carries the host's final text if there is one, else the accumulated text; it equals the deltas if and only if the final text does, or there is none and the equality above holds; after exact events, if and only if there is no final text or an equal one |
| `OpenClawStream.RestartedSnapshotLosesText` | plugins/message-bridge-openclaw/src/sdk/OpenClawProviderAdapter.ts:942-957 | a concrete run: two assistant messages, the second snapshot starting anew, stream HelloWorld and end in World |
| `OpenClawStream.FinalTextReplacesDeltas` | plugins/message-bridge-openclaw/src/sdk/OpenClawProviderAdapter.ts:665-681 | a concrete run of exact events that streams ab and ends in the host's final text xy |
| `OpenClawThinking.ThinkingAddsUp` | plugins/message-bridge-openclaw/src/sdk/OpenClawProviderAdapter.ts:974-1005 | over every interleaving each thinking.done carries exactly the thinking deltas before it |
| `OpenClawText.BlocksAreTaken` | plugins/message-bridge-openclaw/src/sdk/OpenClawProviderAdapter.ts:587-613 | a block the run hears is accumulated as it is, and streamed as a delta if streaming is on |
| `OpenClawText.AssistantTextIsTaken` | plugins/message-bridge-openclaw/src/sdk/OpenClawProviderAdapter.ts:933-972 | an assistant event adds the rest of a snapshot that goes on from the accumulated text, else its delta, unless a snapshot without news ends in it; nothing while the dispatcher owns the text |
| `OpenClawText.ReasoningIsTaken` | plugins/message-bridge-openclaw/src/sdk/OpenClawProviderAdapter.ts:974-1005 | reasoning adds up and is sent as deltas; a finishing event brings its own text only if none came before, and sends all of it as done |
| `OpenClawText.ModesFollowTheHistory` | plugins/message-bridge-openclaw/src/sdk/OpenClawProviderAdapter.ts:442-613 | streaming is on as last resolved within the account, the dispatcher owns the text once it took it, and the final text is the last non-empty one the run heard |
| `OpenClawText.SilencedRunTakesNothing` | plugins/message-bridge-openclaw/src/sdk/OpenClawProviderAdapter.ts:550-557 | a run that is completed or told to stop takes nothing more from the host |
| `OpenClawTools.ToolEventTellsTheHistory` | plugins/message-bridge-openclaw/src/sdk/OpenClawProviderAdapter.ts:875-930 | a tool event puts a tool.update of its call last, with the last input and the last output the event history gives that call; an error result gives none and leaves an earlier one |
| `OpenClawTools.ToolTextGoesToTheLastResult` | plugins/message-bridge-openclaw/src/sdk/OpenClawProviderAdapter.ts:559-585 | the dispatcher's tool text goes to the call whose result came last, as its output; before any result, or empty, nothing is sent |
| `OpenClawRuntime.ActiveRunState.HandleReplyText` | plugins/message-bridge-openclaw/src/sdk/OpenClawProviderAdapter.ts:587-613 | the run object over the real queue moves as the step function |
| `OpenClawRuntime.ActiveRunState.HandleReplyTool` | plugins/message-bridge-openclaw/src/sdk/OpenClawProviderAdapter.ts:559-585 | likewise |
| `OpenClawRuntime.ActiveRunState.HandleToolAgentEvent` | plugins/message-bridge-openclaw/src/sdk/OpenClawProviderAdapter.ts:875-930 | likewise, merging the state of one tool call |
| `OpenClawRuntime.ActiveRunState.HandleAssistantAgentEvent` | plugins/message-bridge-openclaw/src/sdk/OpenClawProviderAdapter.ts:933-972 | likewise |
| `OpenClawRuntime.ActiveRunState.HandleReasoningAgentEvent` | plugins/message-bridge-openclaw/src/sdk/OpenClawProviderAdapter.ts:974-1005 | likewise |
| `OpenClawRuntime.ActiveRunState.CompleteReply` | plugins/message-bridge-openclaw/src/sdk/OpenClawProviderAdapter.ts:538-547 | likewise, with an observer that may throw before the result is resolved |
| `OpenClawRuntime.ActiveRunState.CompleteSubagent` | plugins/message-bridge-openclaw/src/sdk/OpenClawProviderAdapter.ts:647-662 | likewise |
| `OpenClawRuntime.ActiveRunState.FailInBackground` | plugins/message-bridge-openclaw/src/sdk/OpenClawProviderAdapter.ts:335-356 | likewise |
| `OpenClawRuntime.ActiveRunState.AbortActiveRun` | plugins/message-bridge-openclaw/src/sdk/OpenClawProviderAdapter.ts:1018-1026 | likewise |
| `OpenClawRuntime.Drive` | plugins/message-bridge-openclaw/src/sdk/OpenClawProviderAdapter.ts:550-699 | the run object over its queue, driven through any interleaving of host events and reads: facts ordered, the result that of the first ending and not there before the queue is closed, the i-th read gets the i-th fact, the end once closed, or waits |
| `OpenClawEndToEnd.RunReachesTheGateway` | packages/bridge-runtime-sdk/src/application/coordinators/RequestRunCoordinator.ts:42-128 | a settled OpenClaw run without live tool input reaches the gateway whole: one event per fact, then one terminal, tool_error exactly if it failed |
| `OpenClawEndToEnd.ToolInputCutsTheRun` | packages/bridge-runtime-sdk/src/application/coordinators/RequestRunCoordinator.ts:60-71 | with one it is cut and ends in the fixed failure text |
| `QrCodeAuth.KeyIdentifiesTheReport` | packages/skill-qrcode-auth/src/internal/buildSnapshotKey.ts:6-23 | two snapshots share a key exactly when they are the same report |
| `QrCodeAuth.TerminalIsEmitted` | packages/skill-qrcode-auth/src/internal/QrCodeAuthSessionController.ts:146-154 | de-duplication never swallows the terminal snapshot |
| `QrCodeAuth.BoundedSessionsAndNoRepeats` | packages/skill-qrcode-auth/src/internal/QrCodeAuthSessionController.ts:39-97 | for every stream of answers at most maxRefreshCount + 1 sessions, and no report twice |
| `QrCodeAuth.ReturnsWithOneTerminal` | packages/skill-qrcode-auth/src/internal/QrCodeAuthSessionController.ts:39-77 | a snapshot is terminal exactly when it is the last one of a run that returned |
| `QrCodeAuth.ReturnedRunReported` | packages/skill-qrcode-auth/src/internal/QrCodeAuthSessionController.ts:39-77 | a run that returned did emit a terminal snapshot, and does nothing more |
| `QrCodeAuth.ReturnedRunTellsTheEnd` | packages/skill-qrcode-auth/src/internal/QrCodeAuthSessionController.ts:39-135 | the last snapshot of a returned run names the answer that ended it and its code: confirmed, cancelled, failed with its reason, a failed creation, or the unrefreshed expiry as timed out |
| `QrCodeAuth.EveryAnswerIsReported` | packages/skill-qrcode-auth/src/internal/QrCodeAuthSessionController.ts:79-154 | at every moment exactly the codes created, scanned or expired so far are reported as that, and reports are only added at the end |
| `QrCodeAuth.ExpiriesAreRefreshed` | packages/skill-qrcode-auth/src/internal/QrCodeAuthSessionController.ts:58-75 | every expiry but a last one is refreshed, and one more than the policy allows ends the run |
| `QrCodeAuth.ExpiryRefreshesOrTimesOut` | packages/skill-qrcode-auth/src/internal/QrCodeAuthSessionController.ts:62-75 | an expiry asks for a new session while the policy allows, and otherwise ends the run with that code timed out |
| `QrCodeAuth.QrCodeAuthSessionController.Start` | packages/skill-qrcode-auth/src/internal/QrCodeAuthSessionController.ts:39-77 | the loop, followed for any number of answers, does what the answer-by-answer run says |
| `QrCodeAuth.QrCodeAuthSessionController.HandleQueryResult` | packages/skill-qrcode-auth/src/internal/QrCodeAuthSessionController.ts:99-135 | reports the answer and says whether it is final |

## Left out

- WebSocket, HTTP, signatures, process and file handling: the transport is only who opened it and what was written.
- Loggers, telemetry, traces and presenters: output only.
- Wire schema validation and field-by-field projection: total and pure here; what matters is one event per accepted fact.
- Listeners and loggers that call back synchronously, and a `transport.open` that throws synchronously.
- `Math.pow` overflow in the backoff and the clock going backwards: delays are unbounded naturals, time only advances.
- After the throw in `GatewayClientStatus.closed` the model goes on with the state as it is, where the code leaves its caller.
- A sink whose `send` throws, a `result()` that throws instead of returning a promise, and a run whose result never settles.
- Failures of the telemetry callbacks of the lifecycle service; failure texts and diagnostic codes.
- The single microtask between the end of a start coroutine and the clearing of `startPromise`, and the one in which a waiting `start()` resumes: each pair is one step.
- The adapter's `activeRunsBySessionKey` index and its approval registry: one run's state only.
- Tool names, titles, states, error texts and part ids of `tool.update` facts, and raw host payloads: they do not affect order or acceptance.
- `plugins/message-bridge/src/runtime/singleton.ts`, configuration resolution and the onboarding wizards.
- SessionRuns.InMemorySessionRuntimeRegistry.ReleaseRequestRun: records are values reassigned in the map; the registry only hands out copies, so no aliasing is lost.
