// The lifecycle service over its core, driver and state, one method per stretch between two awaits.
module RuntimeService {
  import opened Prelude
  import opened RuntimeLifecycle
  import opened RuntimeSystem

  class RuntimeCoreService {
    var initialized: bool

    constructor ()
      ensures !initialized
    {
      initialized := false;
    }

    // start() up to its await; false when there is nothing to initialize.
    method BeginStart() returns (initializing: bool)
      ensures initializing == !initialized
    {
      initializing := !initialized;
    }

    method Initialized(initializing: bool)
      modifies this
      ensures initialized == (old(initialized) || initializing)
    {
      if initializing {
        initialized := true;
      }
    }

    // stop() up to its await; false when there is nothing to dispose.
    method BeginStop() returns (disposing: bool)
      ensures disposing == initialized
    {
      disposing := initialized;
    }

    method Disposed(disposing: bool, ok: bool)
      modifies this
      ensures initialized == if ok && disposing then false else old(initialized)
    {
      if disposing && ok {
        initialized := false;
      }
    }
  }

  class GatewayRuntimeDriver {
    var currentClient: Option<Client>
    var nextClient: Client
    // How the clients it created stand: told to connect and still up, or seen closed.
    var connected: set<Client>
    var closed: set<Client>

    constructor ()
      ensures currentClient.None? && nextClient == 0 && connected == {} && closed == {}
    {
      currentClient, nextClient, connected, closed := None, 0, {}, {};
    }

    method ClientClosed(client: Client)
      modifies this`connected, this`closed
      ensures connected == old(connected) - {client} && closed == old(closed) + {client}
    {
      connected, closed := connected - {client}, closed + {client};
    }

    // A new client takes the place of the attached one.
    method Connect() returns (client: Client)
      modifies this`currentClient, this`nextClient, this`connected
      ensures client == old(nextClient) && currentClient == Some(client)
      ensures nextClient == old(nextClient) + 1 && connected == old(connected) + {client}
    {
      client := nextClient;
      nextClient := nextClient + 1;
      currentClient := Some(client);
      connected := connected + {client};
    }

    method BeginDisconnect()
      modifies this`connected
      ensures connected == if currentClient.Some? then old(connected) - {currentClient.value} else old(connected)
    {
      if currentClient.Some? {
        connected := connected - {currentClient.value};
      }
    }

    method DetachClient()
      modifies this`currentClient
      ensures currentClient.None?
    {
      currentClient := None;
    }
  }

  class RuntimeLifecycleService {
    const core: RuntimeCoreService
    const driver: GatewayRuntimeDriver
    const state: RuntimeLifecycleState
    // startPromise and stopPromise, with where their coroutines wait.
    var startRun: Option<StartRun>
    var stopRun: Option<StopRun>
    var waiters: nat

    constructor (core: RuntimeCoreService, driver: GatewayRuntimeDriver)
      ensures this.core == core && this.driver == driver && fresh(state)
      ensures state.View() == INITIAL_LIFE && startRun.None? && stopRun.None? && waiters == 0
    {
      this.core, this.driver := core, driver;
      state := new RuntimeLifecycleState();
      startRun, stopRun, waiters := None, None, 0;
    }

    function View(): System
      reads this, core, driver, state
    {
      System(state.View(), core.initialized, driver.currentClient, driver.nextClient, driver.connected,
             driver.closed, startRun, stopRun, waiters)
    }

    method Start()
      requires Possible(View(), StartCalled)
      modifies this, state
      ensures View() == Step(old(View()), StartCalled)
    {
      if stopRun.Some? {
        waiters := waiters + 1;
        return;
      }
      StartNow();
    }

    method ResumeStart()
      requires Possible(View(), WaiterResumes)
      modifies this, state
      ensures View() == Step(old(View()), WaiterResumes)
    {
      waiters := waiters - 1;
      StartNow();
    }

    method StartNow()
      modifies this`startRun, state
      ensures View() == EnterStart(old(View()))
    {
      if state.current.Ready? || startRun.Some? {
        return;
      }
      var token := state.Start();
      var initializing := core.BeginStart();
      startRun := Some(StartRun(token, CoreStarting(initializing)));
    }

    method Stop()
      requires Possible(View(), StopCalled)
      modifies this, state, driver
      ensures View() == Step(old(View()), StopCalled)
    {
      if state.current.Idle? || stopRun.Some? {
        return;
      }
      var token := state.Stop();
      driver.BeginDisconnect();
      stopRun := Some(StopRun(token, if startRun.Some? then FirstDisconnect else LastDisconnect, false));
    }

    // The rest of the start coroutine after core.start().
    method OnCoreStart(ok: bool, factoryThrows: bool)
      requires Possible(View(), CoreStartSettles(ok, factoryThrows))
      modifies this, state, driver, core
      ensures View() == Step(old(View()), CoreStartSettles(ok, factoryThrows))
    {
      var run := startRun.value;
      if !ok {
        var _ := state.FailStartIfCurrent(run.token);
        FinishStartRun(false);
        return;
      }
      core.Initialized(run.at.initializing);
      if factoryThrows {
        driver.BeginDisconnect();
        startRun := Some(run.(at := CleaningUp));
      } else {
        var client := driver.Connect();
        startRun := Some(run.(at := Connecting(client)));
      }
    }

    method OnConnect(ok: bool)
      requires Possible(View(), ConnectSettles(ok))
      modifies this, state, driver
      ensures View() == Step(old(View()), ConnectSettles(ok))
    {
      var run := startRun.value;
      if ok {
        var _ := state.FinishStartIfCurrent(run.token);
        FinishStartRun(driver.currentClient == Some(run.at.client));
      } else {
        driver.ClientClosed(run.at.client);
        driver.BeginDisconnect();
        startRun := Some(run.(at := CleaningUp));
      }
    }

    method OnCleanup()
      requires Possible(View(), CleanupSettles)
      modifies this, state, driver
      ensures View() == Step(old(View()), CleanupSettles)
    {
      var run := startRun.value;
      driver.DetachClient();
      var _ := state.FailStartIfCurrent(run.token);
      FinishStartRun(false);
    }

    method FinishStartRun(ready: bool)
      modifies this`startRun, this`stopRun, driver`connected
      ensures View() == EndStart(old(View()), ready)
    {
      startRun := None;
      if stopRun.Some? && stopRun.value.at.AwaitingStart? {
        if !stopRun.value.primaryError && ready {
          driver.BeginDisconnect();
          stopRun := Some(stopRun.value.(at := LastDisconnect));
        } else {
          var disposing := core.BeginStop();
          stopRun := Some(stopRun.value.(at := CoreStopping(disposing)));
        }
      }
    }

    method OnDisconnect(failed: bool)
      requires Possible(View(), DisconnectSettles(failed))
      modifies this, driver
      ensures View() == Step(old(View()), DisconnectSettles(failed))
    {
      driver.DetachClient();
      var run := stopRun.value.(primaryError := failed);
      if run.at.FirstDisconnect? && startRun.Some? {
        stopRun := Some(run.(at := AwaitingStart));
      } else {
        var disposing := core.BeginStop();
        stopRun := Some(run.(at := CoreStopping(disposing)));
      }
    }

    method OnCoreStop(ok: bool)
      requires Possible(View(), CoreStopSettles(ok))
      modifies this, state, core
      ensures View() == Step(old(View()), CoreStopSettles(ok))
    {
      var run := stopRun.value;
      core.Disposed(run.at.disposing, ok);
      stopRun := None;
      if run.primaryError || !ok {
        state.SetFailed();
        waiters := 0;
      } else {
        var _ := state.FinishStopIfCurrent(run.token);
      }
    }

    method HandleGatewayStatusChanged(status: GatewayStatus)
      modifies state
      ensures state.View() == GatewayLife(old(state.View()), status)
    {
      if state.ShouldIgnoreGatewayStatus() {
        return;
      }
      match status
      case ReadyStatus =>
        if !state.current.Starting? {
          state.SetReady();
        }
      case ReconnectingStatus =>
        if !state.current.Starting? {
          state.SetReconnecting();
        }
      case ConnectingStatus =>
      case ClosedStatus(failure) =>
        if failure {
          state.SetFailed();
        }
    }

    // The driver's observer of the attached client.
    method OnStatusChange(status: GatewayStatus)
      requires Possible(View(), Gateway(status))
      modifies state, driver
      ensures View() == Step(old(View()), Gateway(status))
    {
      if status.ClosedStatus? {
        driver.ClientClosed(driver.currentClient.value);
      }
      HandleGatewayStatusChanged(status);
    }

    // Whatever comes next, if it can.
    method Handle(e: Event)
      requires Possible(View(), e)
      modifies this, state, driver, core
      ensures View() == Step(old(View()), e)
    {
      match e
      case StartCalled => Start();
      case StopCalled => Stop();
      case WaiterResumes => ResumeStart();
      case CoreStartSettles(ok, factoryThrows) => OnCoreStart(ok, factoryThrows);
      case ConnectSettles(ok) => OnConnect(ok);
      case CleanupSettles => OnCleanup();
      case DisconnectSettles(failed) => OnDisconnect(failed);
      case CoreStopSettles(ok) => OnCoreStop(ok);
      case Gateway(status) => OnStatusChange(status);
    }
  }

  /** The objects, driven through any sequence of events, are where the run of the system is; so whenever
      they are idle the core is not initialized, the driver holds no client and no coroutine is in flight. */
  method Drive(events: seq<Event>) returns (service: RuntimeLifecycleService)
    ensures fresh(service) && service.View() == Exec(events)
    ensures service.state.current.Idle? ==>
              && !service.core.initialized && service.driver.currentClient.None?
              && service.startRun.None? && service.stopRun.None?
    ensures service.state.current.Stopping? <==> service.stopRun.Some?
    ensures service.state.current.Idle? && IsTidyRun(events) ==> service.driver.connected == {}
  {
    var core := new RuntimeCoreService();
    var driver := new GatewayRuntimeDriver();
    service := new RuntimeLifecycleService(core, driver);
    var k := 0;
    while k < |events|
      invariant 0 <= k <= |events|
      invariant fresh(service) && fresh(service.state) && fresh(service.driver) && fresh(service.core)
      invariant service.View() == Exec(events[..k])
    {
      assert events[..k + 1][..k] == events[..k];
      if Possible(service.View(), events[k]) {
        service.Handle(events[k]);
      }
      k := k + 1;
    }
    assert events[..k] == events;
    RunKeepsInv(events);
    if service.state.current.Idle? && IsTidyRun(events) {
      TidyRunsLeaveNoClient(events);
    }
  }
}
