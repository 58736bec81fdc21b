/** Values shared by every protocol of the payout sidecar: optional columns, error codes and
    the failure a worker sees, with the rule that decides whether an execution may be retried. */
module Options {
  datatype Option<+T> = None | Some(value: T)
}

module Failures {
  import opened Options

  /** The error codes the protocols branch on.  `Unlisted` stands for any other text, so an
      arbitrary `Code` covers every string a provider may send. */
  datatype Code =
    | LockUnavailable | ProfeexEstimateUnavailable | ResourceEstimateUnavailable
    | ResourceReadFailed | ProviderFailed | ResourceRecheckFailed
    | ActivationPending | ActivationUnavailable | ActivationDuplicate | ActivationTimeout
    | ActivationQuoteUnavailable | ActivationInvalidResponse | ActivationFailed
    | CasConflict | NoExecutionCreated | InsufficientUsdt | BalanceUnavailable
    | BroadcastTxidMissing | BroadcastTxidMismatch
    | ProviderUnavailable | DestinationNotActivated
    | NetworkError | RequestTimeout | DnsError | ConnectError | ReadError
    | ServiceUnavailable | Http(status: int) | RateLimitExceeded | InsufficientBalance
    | MalformedPreAcceptResponse | OrderTimeout | OrderFailed | OrderCancelled
    | ProcessingFailed | FixedBandwidthBelowRequired
    | InvalidAddress | InvalidParameters | AuthorizationError | IpNotWhitelisted
    | ConfigurationError | AcceptedOrderWithoutTaskId
    | AcceptedOrderWithoutId | AcceptedMalformedResponse | OrderNotDelegated
    | PollTemporaryError | PollMalformedResponse
    | DuplicateRequest | UnknownError | SchemaError
    | Unlisted(text: string)

  /** An exception as the failure handler reads it: its `code`, its `temporary` attribute (absent
      on a plain exception), its `provider_order_accepted` attribute, and whether it is the store's
      own exception type. */
  datatype Failure = Failure(
    code: Option<Code>,
    temporary: Option<bool>,
    orderAccepted: bool,
    fromStore: bool)

  /** A plain exception, with none of the attributes above. */
  const RAW_EXCEPTION := Failure(None, None, false, false)

  const CAS_CONFLICT := Failure(Some(CasConflict), None, false, true)

  const RETRYABLE_CODES: set<Code> := {
    ProfeexEstimateUnavailable, ResourceEstimateUnavailable, ResourceReadFailed,
    ProviderFailed, ResourceRecheckFailed, ActivationPending, ActivationUnavailable,
    ActivationDuplicate, ActivationTimeout, ActivationQuoteUnavailable }

  predicate IsCasConflict(exc: Failure) {
    exc.fromStore && exc.code == Some(CasConflict)
  }

  predicate IsRetryable(exc: Failure) {
    if exc.orderAccepted then false
    else if exc.code == Some(LockUnavailable) then exc.temporary != Some(false)
    else exc.code.Some? && exc.code.value in RETRYABLE_CODES && exc.temporary == Some(true)
  }
}
