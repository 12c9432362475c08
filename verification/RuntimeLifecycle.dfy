// The attempt tokens of the runtime lifecycle
// (bridge-runtime-sdk/src/application/lifecycle/RuntimeLifecycleState.ts).
module RuntimeLifecycle {
  import opened Prelude

  datatype Status = Idle | Starting | Ready | Reconnecting | Stopping | Failed

  type Token = nat

  /** The fields of RuntimeLifecycleState; failure texts are left out. */
  datatype Life = Life(status: Status, nextToken: nat, startToken: Option<Token>, stopToken: Option<Token>)
  {
    predicate IgnoresGateway() {
      status.Idle? || status.Stopping? || status.Failed?
    }

    function BeginStart(): Life {
      Life(Starting, nextToken + 1, Some(nextToken + 1), None)
    }

    function BeginStop(): Life {
      Life(Stopping, nextToken + 1, None, Some(nextToken + 1))
    }

    function MarkReady(): Life {
      this.(status := Ready)
    }

    function MarkReconnecting(): Life {
      this.(status := Reconnecting)
    }

    function MarkFailed(): Life {
      this.(status := Failed, startToken := None, stopToken := None)
    }

    predicate FinishesStart(token: Token) {
      startToken == Some(token) && !status.Stopping? && !status.Failed?
    }

    function FinishStartIfCurrent(token: Token): Life {
      if FinishesStart(token) then this.(startToken := None).MarkReady() else this
    }

    function FailStartIfCurrent(token: Token): Life {
      if startToken == Some(token) then MarkFailed() else this
    }

    function FinishStopIfCurrent(token: Token): Life {
      if stopToken == Some(token) && status.Stopping? then this.(status := Idle, stopToken := None) else this
    }
  }

  const INITIAL_LIFE := Life(Idle, 0, None, None)

  datatype Call =
    | BeginStart
    | BeginStop
    | MarkReady
    | MarkReconnecting
    | MarkFailed
    | FinishStart(token: Token)
    | FailStart(token: Token)
    | FinishStop(token: Token)

  function Apply(life: Life, call: Call): Life {
    match call
    case BeginStart => life.BeginStart()
    case BeginStop => life.BeginStop()
    case MarkReady => life.MarkReady()
    case MarkReconnecting => life.MarkReconnecting()
    case MarkFailed => life.MarkFailed()
    case FinishStart(token) => life.FinishStartIfCurrent(token)
    case FailStart(token) => life.FailStartIfCurrent(token)
    case FinishStop(token) => life.FinishStopIfCurrent(token)
  }

  function ApplyAll(life: Life, calls: seq<Call>): Life {
    if calls == [] then life else Apply(ApplyAll(life, calls[..|calls| - 1]), calls[|calls| - 1])
  }

  // An attempt that was begun and is no longer current.
  predicate Stale(life: Life, token: Token) {
    token <= life.nextToken && life.startToken != Some(token) && life.stopToken != Some(token)
  }

  /** A token that stops being current never becomes current again, and every conditional call made with it
      changes nothing, whatever was called in between. */
  lemma {:induction false} StaleAttemptsStayStale(life: Life, calls: seq<Call>, token: Token)
    requires Stale(life, token)
    ensures var later := ApplyAll(life, calls);
            && Stale(later, token)
            && later.FinishStartIfCurrent(token) == later
            && later.FailStartIfCurrent(token) == later
            && later.FinishStopIfCurrent(token) == later
    decreases |calls|
  {
    if calls != [] {
      StaleAttemptsStayStale(life, calls[..|calls| - 1], token);
    }
  }

  /** Starting supersedes a stop and stopping supersedes a start: the two are never current together. */
  lemma {:induction false} OneAttemptIsCurrent(calls: seq<Call>)
    ensures var life := ApplyAll(INITIAL_LIFE, calls);
            && (life.startToken.None? || life.stopToken.None?)
            && (life.startToken.Some? ==> life.startToken.value <= life.nextToken)
            && (life.stopToken.Some? ==> life.stopToken.value <= life.nextToken)
    decreases |calls|
  {
    if calls != [] {
      OneAttemptIsCurrent(calls[..|calls| - 1]);
    }
  }

  /** A failure supersedes both: afterwards nothing that was begun before can complete. */
  lemma FailureSupersedesAll(calls: seq<Call>, token: Token)
    ensures var life := ApplyAll(INITIAL_LIFE, calls + [MarkFailed]);
            && life.status.Failed? && life.startToken.None? && life.stopToken.None?
            && life.FinishStartIfCurrent(token) == life && life.FinishStopIfCurrent(token) == life
  {
    assert (calls + [MarkFailed])[..|calls|] == calls;
  }

  class RuntimeLifecycleState {
    var current: Status
    var nextToken: nat
    var activeStartToken: Option<Token>
    var activeStopToken: Option<Token>

    constructor ()
      ensures View() == INITIAL_LIFE
    {
      current, nextToken, activeStartToken, activeStopToken := Idle, 0, None, None;
    }

    function View(): Life
      reads this
    {
      Life(current, nextToken, activeStartToken, activeStopToken)
    }

    predicate ShouldIgnoreGatewayStatus()
      reads this
    {
      current.Idle? || current.Stopping? || current.Failed?
    }

    method CreateAttemptId() returns (token: Token)
      modifies this`nextToken
      ensures token == nextToken == old(nextToken) + 1
    {
      nextToken := nextToken + 1;
      token := nextToken;
    }

    method Start() returns (token: Token)
      modifies this
      ensures View() == old(View()).BeginStart() && activeStartToken == Some(token)
    {
      token := CreateAttemptId();
      activeStartToken, activeStopToken := Some(token), None;
      current := Starting;
    }

    method Stop() returns (token: Token)
      modifies this
      ensures View() == old(View()).BeginStop() && activeStopToken == Some(token)
    {
      token := CreateAttemptId();
      activeStopToken, activeStartToken := Some(token), None;
      current := Stopping;
    }

    method SetReady()
      modifies this
      ensures View() == old(View()).MarkReady()
    {
      current := Ready;
    }

    method SetReconnecting()
      modifies this
      ensures View() == old(View()).MarkReconnecting()
    {
      current := Reconnecting;
    }

    method SetIdle()
      modifies this
      ensures View() == old(View()).(status := Idle, stopToken := None)
    {
      activeStopToken := None;
      current := Idle;
    }

    method SetFailed()
      modifies this
      ensures View() == old(View()).MarkFailed()
    {
      activeStartToken, activeStopToken := None, None;
      current := Failed;
    }

    method FinishStartIfCurrent(token: Token) returns (done: bool)
      modifies this
      ensures View() == old(View()).FinishStartIfCurrent(token)
      ensures done <==> old(View()).FinishesStart(token)
    {
      if activeStartToken != Some(token) || current.Stopping? || current.Failed? {
        return false;
      }
      activeStartToken := None;
      SetReady();
      done := true;
    }

    method FailStartIfCurrent(token: Token) returns (done: bool)
      modifies this
      ensures View() == old(View()).FailStartIfCurrent(token)
      ensures done <==> old(activeStartToken) == Some(token)
    {
      if activeStartToken != Some(token) {
        return false;
      }
      SetFailed();
      done := true;
    }

    method FinishStopIfCurrent(token: Token) returns (done: bool)
      modifies this
      ensures View() == old(View()).FinishStopIfCurrent(token)
      ensures done <==> old(activeStopToken) == Some(token) && old(current).Stopping?
    {
      if activeStopToken != Some(token) || !current.Stopping? {
        return false;
      }
      SetIdle();
      done := true;
    }
  }
}
