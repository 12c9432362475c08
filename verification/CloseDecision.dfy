// evaluateReconnectOnClose.ts and shouldRetryOnClose.ts: what a transport close leads to.
module CloseDecision {
  import opened Prelude

  datatype Phase = TransportOpening | RegisterSent | PhaseReady | Terminal

  datatype CloseAction = Stop | StartWindow | ContinueWindow

  // None stands for a close code that is not a finite number.
  type CloseCode = Option<int>

  predicate IsRejectedCloseCode(code: CloseCode) {
    code.Some? && code.value in {4403, 4409}
  }

  predicate ShouldRetryOnClose(code: CloseCode, manuallyDisconnected: bool, aborted: bool) {
    !manuallyDisconnected && !aborted && code.Some? && code.value in {1006, 1012, 1013, 4408}
  }

  function EvaluateReconnectOnClose(
    code: CloseCode,
    manuallyDisconnected: bool,
    aborted: bool,
    reconnectEnabled: bool,
    reconnectAttempt: bool,
    phase: Phase): CloseAction
  {
    if manuallyDisconnected || aborted || !reconnectEnabled || IsRejectedCloseCode(code) then Stop
    else if !ShouldRetryOnClose(code, false, false) then Stop
    else if phase.PhaseReady? then StartWindow
    else if reconnectAttempt then ContinueWindow
    else Stop
  }

  /** A close leads to a retry exactly for the four transient codes, on an enabled, live client, when the
      attempt was ready or is itself a retry; rejected codes are not among them. */
  lemma RetriesExactly(
    code: CloseCode,
    manuallyDisconnected: bool,
    aborted: bool,
    reconnectEnabled: bool,
    reconnectAttempt: bool,
    phase: Phase)
    ensures var action := EvaluateReconnectOnClose(code, manuallyDisconnected, aborted, reconnectEnabled,
        reconnectAttempt, phase);
            && (!action.Stop? <==>
                && code in {Some(1006), Some(1012), Some(1013), Some(4408)}
                && reconnectEnabled && !manuallyDisconnected && !aborted
                && (phase.PhaseReady? || reconnectAttempt))
            && (action.StartWindow? ==> phase.PhaseReady?)
            && (action.ContinueWindow? ==> !phase.PhaseReady? && reconnectAttempt)
    ensures IsRejectedCloseCode(code) ==> !ShouldRetryOnClose(code, manuallyDisconnected, aborted)
  {
  }
}
