// Connection status snapshot and the error shape it carries
// (gateway-client/src/domain/state.ts, domain/error-contract.ts).
module GatewayStatus {
  import opened Prelude

  datatype Disposition = StartupFailure | RuntimeFailure | Diagnostic | Cancelled

  datatype ErrorCode =
    | ClosedManual
    | ConnectAborted
    | ConnectParameterInvalid
    | AuthRejected
    | HandshakeTimeout
    | HandshakeRejected
    | HandshakeInvalid
    | TransportError
    | InboundProtocolInvalid
    | OutboundProtocolInvalid
    | NotConnected
    | NotReady
    | ReconnectExhausted
    | UnknownError

  // Message text and details are observation only and are not modelled.
  datatype GatewayError = GatewayError(code: ErrorCode, disposition: Disposition, retryable: bool)

  datatype Status =
    | Closed(error: Option<GatewayError>)
    | Connecting
    | Ready
    | Reconnecting

  // `GatewayClientStatus.closed` throws for a diagnostic error.
  predicate ClosedAccepts(error: GatewayError) {
    !error.disposition.Diagnostic?
  }

  const MANUAL_ERROR := GatewayError(ClosedManual, Cancelled, false)
  const ABORT_ERROR := GatewayError(ConnectAborted, Cancelled, false)
  const EXHAUSTED_ERROR := GatewayError(ReconnectExhausted, RuntimeFailure, false)
}
