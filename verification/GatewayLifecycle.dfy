// GatewayLifecycleState.ts: the only writer of the connection status. A token is a
// (generation, sessionId) pair; the `*IfCurrent` operations ignore a stale one.
module GatewayLifecycle {
  import opened Prelude
  import opened GatewayStatus

  datatype Token = Token(generation: nat, sessionId: nat)

  /** The fields of the state machine, the status changes it has emitted, and whether it ever
      reached the throw in `GatewayClientStatus.closed`. */
  datatype Lifecycle = Lifecycle(
    status: Status,
    generation: nat,
    nextSessionId: nat,
    activeSessionId: Option<nat>,
    manuallyDisconnected: bool,
    emitted: seq<Status>,
    threw: bool)
  {
    predicate IsCurrent(token: Token) {
      generation == token.generation && activeSessionId == Some(token.sessionId)
    }

    // Session ids are handed out in increasing order.
    predicate WellFormed() {
      activeSessionId.Some? ==> activeSessionId.value <= nextSessionId
    }

    // `token` came out of an earlier BeginConnect.
    predicate Issued(token: Token) {
      token.sessionId <= nextSessionId
    }

    function Transition(next: Status): Lifecycle {
      this.(status := next, emitted := emitted + [next])
    }

    function NextToken(): Token {
      Token(generation, nextSessionId + 1)
    }

    function BeginConnect(reconnectAttempt: bool): Lifecycle {
      this.(manuallyDisconnected := false,
      nextSessionId := nextSessionId + 1,
      activeSessionId := Some(nextSessionId + 1))
      .Transition(if reconnectAttempt then Reconnecting else Connecting)
    }

    function FinishConnectIfCurrent(token: Token): Lifecycle {
      if IsCurrent(token) then Transition(Ready) else this
    }

    function MarkReconnectingIfCurrent(token: Token): Lifecycle {
      if IsCurrent(token) then Transition(Reconnecting) else this
    }

    function BeginReconnectWindow(): Lifecycle {
      if manuallyDisconnected then this else Transition(Reconnecting)
    }

    function CloseReconnectExhaustedIfCurrent(forGeneration: nat): Lifecycle {
      if generation != forGeneration then this
      else this.(activeSessionId := None).Transition(Closed(Some(EXHAUSTED_ERROR)))
    }

    // The session id is cleared before the status value is built, so a refused (diagnostic)
    // error leaves the old status behind.
    function CloseIfCurrent(token: Token, error: GatewayError): Lifecycle {
      if !IsCurrent(token) then this
      else if !ClosedAccepts(error) then this.(activeSessionId := None, threw := true)
      else this.(activeSessionId := None).Transition(Closed(Some(error)))
    }

    function CloseManual(): Lifecycle {
      this.(manuallyDisconnected := true, generation := generation + 1, activeSessionId := None)
      .Transition(Closed(Some(MANUAL_ERROR)))
    }
  }

  const INITIAL_LIFECYCLE := Lifecycle(Closed(None), 0, 0, None, false, [], false)

  /** Every call a collaborator can make. */
  datatype LifecycleCall =
    | CallBeginConnect(reconnectAttempt: bool)
    | CallFinishConnect(token: Token)
    | CallMarkReconnecting(token: Token)
    | CallBeginReconnectWindow
    | CallCloseExhausted(forGeneration: nat)
    | CallClose(token: Token, error: GatewayError)
    | CallCloseManual

  function Apply(life: Lifecycle, call: LifecycleCall): Lifecycle {
    match call
    case CallBeginConnect(reconnectAttempt) => life.BeginConnect(reconnectAttempt)
    case CallFinishConnect(token) => life.FinishConnectIfCurrent(token)
    case CallMarkReconnecting(token) => life.MarkReconnectingIfCurrent(token)
    case CallBeginReconnectWindow => life.BeginReconnectWindow()
    case CallCloseExhausted(forGeneration) => life.CloseReconnectExhaustedIfCurrent(forGeneration)
    case CallClose(token, error) => life.CloseIfCurrent(token, error)
    case CallCloseManual => life.CloseManual()
  }

  function ApplyAll(life: Lifecycle, calls: seq<LifecycleCall>): Lifecycle
    decreases |calls|
  {
    if calls == [] then life else ApplyAll(Apply(life, calls[0]), calls[1..])
  }

  /** A token that has stopped being current stays stale through every later call sequence, and no
      call made with it changes the state or emits a status. */
  lemma {:induction false} StaleTokenStaysStale(life: Lifecycle, token: Token, calls: seq<LifecycleCall>)
    requires life.WellFormed() && life.Issued(token) && !life.IsCurrent(token)
    ensures ApplyAll(life, calls).WellFormed() && ApplyAll(life, calls).Issued(token)
    ensures !ApplyAll(life, calls).IsCurrent(token)
    ensures ApplyAll(life, calls).FinishConnectIfCurrent(token) == ApplyAll(life, calls)
    ensures ApplyAll(life, calls).MarkReconnectingIfCurrent(token) == ApplyAll(life, calls)
    ensures forall error :: ApplyAll(life, calls).CloseIfCurrent(token, error) == ApplyAll(life, calls)
    decreases |calls|
  {
    if calls != [] {
      StaleTokenStaysStale(Apply(life, calls[0]), token, calls[1..]);
    }
  }

  /** Generations only grow: one that is past never returns, and closing as exhausted for it, whatever was
      called in between, changes nothing and emits nothing. */
  lemma {:induction false} PastGenerationStaysPast(life: Lifecycle, generation: nat, calls: seq<LifecycleCall>)
    requires generation < life.generation
    ensures life.generation <= ApplyAll(life, calls).generation
    ensures ApplyAll(life, calls).CloseReconnectExhaustedIfCurrent(generation) == ApplyAll(life, calls)
    decreases |calls|
  {
    if calls != [] {
      PastGenerationStaysPast(Apply(life, calls[0]), generation, calls[1..]);
    }
  }

  /** A manual close ends its generation for good: no token handed out before is current again, and nothing
      scheduled under it can close the client as exhausted, whatever is called afterwards. */
  lemma ManualCloseEndsTheGeneration(life: Lifecycle, token: Token, calls: seq<LifecycleCall>)
    requires life.WellFormed() && life.Issued(token)
    ensures var later := ApplyAll(life.CloseManual(), calls);
            && !later.IsCurrent(token)
            && later.CloseReconnectExhaustedIfCurrent(life.generation) == later
  {
    StaleTokenStaysStale(life.CloseManual(), token, calls);
    PastGenerationStaysPast(life.CloseManual(), life.generation, calls);
  }

  // The status a call sets, if it takes effect.
  function Sets(life: Lifecycle, call: LifecycleCall): Option<Status> {
    match call
    case CallBeginConnect(reconnectAttempt) => Some(if reconnectAttempt then Reconnecting else Connecting)
    case CallFinishConnect(token) => if life.IsCurrent(token) then Some(Ready) else None
    case CallMarkReconnecting(token) => if life.IsCurrent(token) then Some(Reconnecting) else None
    case CallBeginReconnectWindow => if life.manuallyDisconnected then None else Some(Reconnecting)
    case CallCloseExhausted(generation) =>
      if generation == life.generation then Some(Closed(Some(EXHAUSTED_ERROR))) else None
    case CallClose(token, error) =>
      if life.IsCurrent(token) && ClosedAccepts(error) then Some(Closed(Some(error))) else None
    case CallCloseManual => Some(Closed(Some(MANUAL_ERROR)))
  }

  /** Every call that takes effect sets its status and tells the listeners of it, once; every close leaves no
      session behind; a close with a diagnostic error clears the session, throws, and tells nobody; and a call
      that takes no effect changes nothing at all. */
  lemma EveryChangeIsTold(life: Lifecycle, call: LifecycleCall)
    ensures var after, sets := Apply(life, call), Sets(life, call);
            && (sets.Some? ==>
                  && after.status == sets.value && after.emitted == life.emitted + [sets.value]
                  && after.threw == life.threw && (sets.value.Closed? ==> after.activeSessionId.None?))
            && (sets.None? ==>
                  if call.CallClose? && life.IsCurrent(call.token)
                  then after == life.(activeSessionId := None, threw := true)
                  else after == life)
  {
  }

  /** So the listeners have always heard the present status last. */
  lemma {:induction false} LastToldIsTheStatus(life: Lifecycle, calls: seq<LifecycleCall>)
    requires life.emitted != [] ==> life.emitted[|life.emitted| - 1] == life.status
    requires life.emitted == [] ==> life.status == Closed(None)
    ensures var later := ApplyAll(life, calls);
            && life.emitted <= later.emitted
            && (if later.emitted == [] then later.status == Closed(None)
                else later.emitted[|later.emitted| - 1] == later.status)
    decreases |calls|
  {
    if calls != [] {
      EveryChangeIsTold(life, calls[0]);
      LastToldIsTheStatus(Apply(life, calls[0]), calls[1..]);
    }
  }

  class GatewayLifecycleState {
    var status: Status
    var lifecycleGeneration: nat
    var nextSessionId: nat
    var activeSessionId: Option<nat>
    var manuallyDisconnected: bool
    // What `emitStatusChange` has been called with.
    var emitted: seq<Status>
    // The exception raised by `GatewayClientStatus.closed`.
    var threw: bool

    constructor ()
      ensures View() == INITIAL_LIFECYCLE
    {
      status := Closed(None);
      lifecycleGeneration := 0;
      nextSessionId := 0;
      activeSessionId := None;
      manuallyDisconnected := false;
      emitted := [];
      threw := false;
    }

    function View(): Lifecycle
      reads this
    {
      Lifecycle(status, lifecycleGeneration, nextSessionId, activeSessionId, manuallyDisconnected, emitted, threw)
    }

    predicate IsCurrentSession(token: Token)
      reads this
    {
      lifecycleGeneration == token.generation && activeSessionId == Some(token.sessionId)
    }

    method TransitionStatus(next: Status)
      modifies this
      ensures View() == old(View()).Transition(next)
    {
      status := next;
      emitted := emitted + [next];
    }

    method BeginConnect(reconnectAttempt: bool) returns (token: Token)
      modifies this
      ensures View() == old(View()).BeginConnect(reconnectAttempt)
      ensures token == old(View()).NextToken() && IsCurrentSession(token)
    {
      manuallyDisconnected := false;
      nextSessionId := nextSessionId + 1;
      token := Token(lifecycleGeneration, nextSessionId);
      activeSessionId := Some(token.sessionId);
      TransitionStatus(if reconnectAttempt then Reconnecting else Connecting);
    }

    method FinishConnectIfCurrent(token: Token) returns (applied: bool)
      modifies this
      ensures applied == old(IsCurrentSession(token))
      ensures View() == old(View()).FinishConnectIfCurrent(token)
    {
      if !IsCurrentSession(token) {
        return false;
      }
      TransitionStatus(Ready);
      applied := true;
    }

    method MarkReconnectingIfCurrent(token: Token) returns (applied: bool)
      modifies this
      ensures applied == old(IsCurrentSession(token))
      ensures View() == old(View()).MarkReconnectingIfCurrent(token)
    {
      if !IsCurrentSession(token) {
        return false;
      }
      TransitionStatus(Reconnecting);
      applied := true;
    }

    method BeginReconnectWindow() returns (generation: nat)
      modifies this
      ensures generation == old(lifecycleGeneration)
      ensures View() == old(View()).BeginReconnectWindow()
    {
      generation := lifecycleGeneration;
      if !manuallyDisconnected {
        TransitionStatus(Reconnecting);
      }
    }

    method CloseReconnectExhaustedIfCurrent(generation: nat) returns (applied: bool)
      modifies this
      ensures applied == (old(lifecycleGeneration) == generation)
      ensures View() == old(View()).CloseReconnectExhaustedIfCurrent(generation)
    {
      if lifecycleGeneration != generation {
        return false;
      }
      activeSessionId := None;
      TransitionStatus(Closed(Some(EXHAUSTED_ERROR)));
      applied := true;
    }

    method CloseIfCurrent(token: Token, error: GatewayError) returns (applied: bool)
      modifies this
      ensures applied == old(IsCurrentSession(token))
      ensures View() == old(View()).CloseIfCurrent(token, error)
    {
      if !IsCurrentSession(token) {
        return false;
      }
      activeSessionId := None;
      if ClosedAccepts(error) {
        TransitionStatus(Closed(Some(error)));
      } else {
        threw := true;
      }
      applied := true;
    }

    method CloseManual()
      modifies this
      ensures View() == old(View()).CloseManual()
    {
      manuallyDisconnected := true;
      lifecycleGeneration := lifecycleGeneration + 1;
      activeSessionId := None;
      TransitionStatus(Closed(Some(MANUAL_ERROR)));
    }
  }
}
