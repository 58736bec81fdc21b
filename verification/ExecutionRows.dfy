/** The stored payout execution and the column assignments every write makes to it. */
module ExecutionRows {
  import opened Options
  import opened Failures

  datatype State =
    | Received | Validated | Signing | Signed | Broadcasting | Broadcasted | Confirming | Confirmed
    | FailedPreBroadcast | FailedChainTerminal | ReconciliationRequired

  type AttemptId = nat
  type TxId = nat

  /** A signed transfer: the hash of its JSON form and its transaction id, both non-empty texts. */
  datatype SignedTx = SignedTx(hash: nat, txid: TxId)

  /** The columns that decide transitions.  `None` is SQL NULL.  `txidVerified` is the
      `broadcast_txid_verified` entry of the chain metadata. */
  datatype Row = Row(
    state: State,
    stateVersion: nat,
    leaseExpiresAt: Option<int>,
    attemptId: Option<AttemptId>,
    reservation: Option<Option<AttemptId>>,
    signedRef: Option<nat>,
    signedHash: Option<nat>,
    txid: Option<TxId>,
    broadcastAttemptedAt: Option<int>,
    txidVerified: bool,
    reconciliationRequired: bool,
    txids: seq<TxId>)

  /** A freshly inserted execution. */
  const NEW_ROW := Row(Received, 1, None, None, None, None, None, None, None, false, false, [])

  predicate IsUnsafeState(state: State) {
    state.Signing? || state.Signed? || state.Broadcasting?
  }

  predicate IsNoDowngrade(state: State) {
    || state.Broadcasted? || state.Confirming? || state.Confirmed?
    || state.FailedPreBroadcast? || state.FailedChainTerminal? || state.ReconciliationRequired?
  }

  /** The transfer is on chain, or was once believed to be. */
  predicate IsOnChain(state: State) {
    state.Broadcasted? || state.Confirming? || state.Confirmed? || state.FailedChainTerminal?
  }

  predicate HasUnsafeSideEffect(row: Row) {
    row.signedRef.Some? || row.signedHash.Some? || row.txid.Some? || row.broadcastAttemptedAt.Some?
  }

  predicate LeaseExpired(row: Row, now: int) {
    row.leaseExpiresAt.None? || row.leaseExpiresAt.value <= now
  }

  /** The column assignments of one versioned UPDATE. */
  datatype Update =
    | Validate
    | StartSigning(attempt: AttemptId, leaseUntil: int)
    | Reserve(holder: Option<AttemptId>)
    | Sign(tx: SignedTx)
    | StartBroadcast(at: int)
    | VerifyBroadcast(state: State)
    | FinishBroadcast(txid: TxId, verified: bool)
    | Requeue(dropReservation: bool)
    | Reconcile
    | FailPreBroadcast
    | Chain(result: State, confirmedTxid: Option<TxId>, verified: bool)

  /** The row after an UPDATE: the assignments are made to the row that is stored, not to the
      caller's snapshot, and the version always grows by one. */
  function Apply(u: Update, row: Row): (r: Row)
    ensures r.stateVersion == row.stateVersion + 1
  {
    var next := row.(stateVersion := row.stateVersion + 1);
    match u
    case Validate => next.(state := Validated)
    case StartSigning(attempt, leaseUntil) =>
      next.(state := Signing, attemptId := Some(attempt), leaseExpiresAt := Some(leaseUntil))
    case Reserve(holder) => next.(state := Signing, reservation := Some(holder))
    case Sign(tx) =>
      next.(state := Signed, signedRef := Some(tx.hash), signedHash := Some(tx.hash),
            txid := Some(tx.txid), txidVerified := false)
    case StartBroadcast(at) => next.(state := Broadcasting, broadcastAttemptedAt := Some(at))
    case VerifyBroadcast(state) => next.(state := state, txidVerified := true)
    case FinishBroadcast(txid, verified) =>
      next.(state := Broadcasted, txid := Some(txid), txids := [txid], txidVerified := verified,
            reconciliationRequired := false)
    case Requeue(dropReservation) =>
      next.(state := Received, leaseExpiresAt := None, attemptId := None,
            reconciliationRequired := false,
            reservation := if dropReservation then None else row.reservation)
    case Reconcile => next.(state := ReconciliationRequired, reconciliationRequired := true)
    case FailPreBroadcast => next.(state := FailedPreBroadcast, reconciliationRequired := false)
    case Chain(result, confirmedTxid, verified) =>
      var checked := next.(state := result, txidVerified := verified);
      if result.Confirmed? then
        checked.(txids := if confirmedTxid.Some? then [confirmedTxid.value] else [], reconciliationRequired := false)
      else if result.FailedChainTerminal? then checked.(reconciliationRequired := false)
      else checked
  }

  /** What stale recovery writes over the row it read. */
  function RecoveryUpdate(row: Row): Update {
    if row.state.Signed? || row.state.Broadcasting? || HasUnsafeSideEffect(row)
    then Reconcile else Requeue(false)
  }

  /** What the failure handler writes over the row it read. */
  function FailureUpdate(row: Row, exc: Failure): Update {
    if IsRetryable(exc) && !HasUnsafeSideEffect(row) then Requeue(true)
    else if HasUnsafeSideEffect(row) then Reconcile
    else FailPreBroadcast
  }

  /** Whether the chain refresh writes at all, given the state the chain check came back with. */
  predicate RefreshWrites(row: Row, result: State) {
    && (row.state.Broadcasted? || row.state.Confirming?)
    && (result.Confirming? || result.Confirmed? || result.FailedChainTerminal?)
    && !(row.state.Confirming? && result.Confirming?)
  }

  /** The statement `UPDATE … WHERE execution_id = ? AND state_version = ?`: it takes effect exactly
      when the stored version is the one the caller read. */
  predicate Swaps(stored: Option<Row>, snapshot: Row) {
    stored.Some? && stored.value.stateVersion == snapshot.stateVersion
  }
}
