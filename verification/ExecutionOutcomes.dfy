/** What single calls come to, column by column: the failure handler, stale recovery and the chain refresh in
    every reachable state, and a whole `execute` that no other process disturbs. */
module ExecutionOutcomes {
  import opened Options
  import opened Failures
  import opened Resources
  import opened ExecutionRows
  import opened ExecutionProtocol
  import opened ExecutionSafety
  import opened ExecutionTheorems

  /** Something of a signed transfer is on record. */
  predicate Evident(row: Row) {
    row.signedRef != None || row.signedHash != None || row.txid != None || row.broadcastAttemptedAt != None
  }

  /** The failure handler turned `row` into `next`: evidence goes to reconciliation; without it the error asks
      for a retry if no provider order was accepted and it is either a lock that was not to be had, unless
      marked as permanent, or one of ten temporary errors of the resource step. */
  predicate HandledAs(row: Row, exc: Failure, next: Row) {
    var retry :=
      && !Evident(row) && !exc.orderAccepted && exc.code.Some?
      && (|| (exc.code.value == LockUnavailable && exc.temporary != Some(false))
          || (exc.temporary == Some(true)
              && (|| exc.code.value == ProfeexEstimateUnavailable
                  || exc.code.value == ResourceEstimateUnavailable
                  || exc.code.value == ResourceReadFailed
                  || exc.code.value == ProviderFailed
                  || exc.code.value == ResourceRecheckFailed
                  || exc.code.value == ActivationPending
                  || exc.code.value == ActivationUnavailable
                  || exc.code.value == ActivationDuplicate
                  || exc.code.value == ActivationTimeout
                  || exc.code.value == ActivationQuoteUnavailable)));
    && next.stateVersion == row.stateVersion + 1
    && next == row.(
         stateVersion := next.stateVersion,
         state :=
           if retry then Received else if Evident(row) then ReconciliationRequired else FailedPreBroadcast,
         leaseExpiresAt := if retry then None else row.leaseExpiresAt,
         attemptId := if retry then None else row.attemptId,
         reservation := if retry then None else row.reservation,
         reconciliationRequired := !retry && Evident(row))
  }

  /** Stale recovery turned `row` into `next`: a row without evidence that was not yet marked as signed starts
      over and keeps its reservation; any other goes to reconciliation. */
  predicate RecoveredAs(row: Row, next: Row) {
    var restart := row.state == Signing && !Evident(row);
    && next.stateVersion == row.stateVersion + 1
    && next == row.(
         stateVersion := next.stateVersion,
         state := if restart then Received else ReconciliationRequired,
         leaseExpiresAt := if restart then None else row.leaseExpiresAt,
         attemptId := if restart then None else row.attemptId,
         reconciliationRequired := !restart)
  }

  /** The refresh turned `row` into `next` on the chain check's `result`. */
  predicate RefreshedAs(row: Row, result: State, next: Row) {
    && (row.state == Broadcasted || row.state == Confirming)
    && (result == Confirming || result == Confirmed || result == FailedChainTerminal)
    && !(row.state == Confirming && result == Confirming)
    && next.stateVersion == row.stateVersion + 1
    && next == row.(
         stateVersion := next.stateVersion,
         state := result,
         txids := if result != Confirmed then row.txids else if row.txid.Some? then [row.txid.value] else [],
         reconciliationRequired := result == Confirming && row.reconciliationRequired)
  }

  /** A smooth execution with the lease of `e` turned `row` into `next`, having broadcast `tx` at `at`. */
  predicate BroadcastAs(row: Row, e: Env, tx: SignedTx, at: int, next: Row) {
    && next.stateVersion
       == row.stateVersion + (if row.state == Received then 6 else 5) + (if row.reservation == None then 1 else 0)
    && next == row.(
         state := Broadcasted,
         stateVersion := next.stateVersion,
         leaseExpiresAt := Some(e.leaseUntil), attemptId := Some(e.attempt),
         reservation := if row.reservation == None then Some(Some(e.attempt)) else row.reservation,
         signedRef := Some(tx.hash), signedHash := Some(tx.hash), txid := Some(tx.txid),
         broadcastAttemptedAt := Some(at), txidVerified := true,
         reconciliationRequired := false, txids := [tx.txid])
  }

  /** A write of the failure handler that takes effect. */
  lemma HandlerDecides(actions: seq<Action>, w: WorkerId, e: Env)
    requires
      var s := Run(INIT, actions);
      w in s.workers && s.workers[w].HandleWrite? && Step(s, w, e).row != s.row
    ensures
      var s := Run(INIT, actions);
      && s.row == Some(s.workers[w].snapshot)
      && (s.row.value.state in {Received, Validated, Signing, Signed, Broadcasting})
      && Step(s, w, e).row.Some? && HandledAs(s.row.value, s.workers[w].exc, Step(s, w, e).row.value)
  {
    ReachableInv(actions);
    var s := Run(INIT, actions);
    assert WorkerInv(s, w, s.workers[w]);
    hide Inv, AllDelivered;
    HandlerWrites(s.workers[w].snapshot, s.workers[w].exc);
  }

  lemma HandlerWrites(row: Row, exc: Failure)
    ensures HandledAs(row, exc, Apply(FailureUpdate(row, exc), row))
  {
  }

  lemma RecoveryWrites(row: Row)
    requires IsUnsafeState(row.state)
    ensures RecoveredAs(row, Apply(RecoveryUpdate(row), row))
  {
  }

  lemma RefreshWritesResult(row: Row, result: State)
    requires RefreshWrites(row, result)
    ensures RefreshedAs(row, result, Apply(Chain(result, row.txid, row.txidVerified), row))
  {
  }

  /** Worker `w` makes a step for each of `envs` and nobody else makes any. */
  function Alone(s: System, w: WorkerId, envs: seq<Env>): System {
    if envs == [] then s else Do(Alone(s, w, envs[..|envs| - 1]), Go(w, envs[|envs| - 1]))
  }

  /** After `k` of these steps the row is `row`, worker `w` is at `pc`, and `sent` has been broadcast. */
  predicate Stands(s: System, w: WorkerId, envs: seq<Env>, k: nat, row: Row, pc: Pc, sent: seq<Sent>)
    requires k <= |envs|
  {
    var t := Alone(s, w, envs[..k]);
    t.workers == s.workers[w := pc] && t.row == Some(row) && t.broadcasts == sent
  }

  lemma NextAlone(s: System, w: WorkerId, envs: seq<Env>, k: nat)
    requires k < |envs|
    ensures Alone(s, w, envs[..k + 1]) == Do(Alone(s, w, envs[..k]), Go(w, envs[k]))
  {
    assert envs[..k + 1][..k] == envs[..k];
  }

  lemma Moves(s: System, w: WorkerId, envs: seq<Env>, k: nat, row: Row, pc: Pc, sent: seq<Sent>)
    requires k < |envs| && Stands(s, w, envs, k, row, pc, sent)
    requires PendingUpdate(pc, envs[k]).None? && !pc.SubmitInsert? && !pc.Broadcast?
    requires pc.EnsureResources? ==> ResourceContract(envs[k].outcome)
    ensures Stands(s, w, envs, k + 1, row, NextPc(Some(row), pc, envs[k]), sent)
  {
    NextAlone(s, w, envs, k);
  }

  lemma Writes(s: System, w: WorkerId, envs: seq<Env>, k: nat, row: Row, pc: Pc, sent: seq<Sent>, p: Pending)
    requires k < |envs| && Stands(s, w, envs, k, row, pc, sent)
    requires PendingUpdate(pc, envs[k]) == Some(p) && p.snapshot == row
    ensures Stands(s, w, envs, k + 1, Apply(p.u, row), Select(p.resume), sent)
  {
    NextAlone(s, w, envs, k);
  }

  lemma Sends(s: System, w: WorkerId, envs: seq<Env>, k: nat, row: Row, job: Job, sent: seq<Sent>)
    requires k < |envs| && Stands(s, w, envs, k, row, Broadcast(row, job), sent)
    ensures Stands(s, w, envs, k + 1, row, AwaitResult(row, job), sent + [Sent(w, job)])
  {
    NextAlone(s, w, envs, k);
  }

  /** A call that is over stays over. */
  lemma {:induction false} Rests(s: System, w: WorkerId, envs: seq<Env>, k: nat, n: nat, row: Row, sent: seq<Sent>)
    requires k <= n <= |envs| && Stands(s, w, envs, k, row, Done, sent)
    ensures Stands(s, w, envs, n, row, Done, sent)
  {
    if k < n {
      Rests(s, w, envs, k, n - 1, row, sent);
      Moves(s, w, envs, n - 1, row, Done, sent);
    }
  }

  /** The handler alone: final states and version conflicts stay as they are, anything else is handled. */
  lemma HandlesAlone(
    s: System, w: WorkerId, envs: seq<Env>, k: nat, row: Row, exc: Failure, log: Log, sent: seq<Sent>)
    returns (next: Row)
    requires k + 3 <= |envs| && Stands(s, w, envs, k, row, HandleRead(exc, log), sent)
    ensures Stands(s, w, envs, |envs|, next, Done, sent)
    ensures
      if row.state in {Received, Validated, Signing, Signed, Broadcasting}
         && !(exc.fromStore && exc.code == Some(CasConflict))
      then HandledAs(row, exc, next) else next == row
  {
    hide Stands, HandledAs, Apply;
    next := row;
    Moves(s, w, envs, k, row, HandleRead(exc, log), sent);
    if IsNoDowngrade(row.state) || IsCasConflict(exc) {
      Rests(s, w, envs, k + 1, |envs|, row, sent);
    } else {
      var u := FailureUpdate(row, exc);
      next := Apply(u, row);
      HandlerWrites(row, exc);
      Writes(s, w, envs, k + 1, row, HandleWrite(row, exc, log), sent, Pending(row, u, Finish, Done));
      Moves(s, w, envs, k + 2, next, Select(Finish), sent);
      Rests(s, w, envs, k + 3, |envs|, next, sent);
    }
  }

  /** Where in a run the validation of `row` stands, or would stand if it were not validated already. */
  function Base(row: Row): int {
    if row.state.Received? then 1 else -1
  }

  /** The row with the lease taken. */
  function Leased(row: Row, e: Env): Row {
    row.(state := Signing, stateVersion := row.stateVersion + if row.state.Received? then 2 else 1,
         attemptId := Some(e.attempt), leaseExpiresAt := Some(e.leaseUntil))
  }

  /** The row with its resources reserved for this attempt, unless they are for an earlier one. */
  function Reserved(row: Row, e: Env): Row {
    if row.reservation.Some? then Leased(row, e)
    else Leased(row, e).(stateVersion := Leased(row, e).stateVersion + 1, reservation := Some(Some(e.attempt)))
  }

  /** From a validated execution to the lock. */
  lemma TakesTheLease(s: System, w: WorkerId, envs: seq<Env>, k: nat, row: Row, sent: seq<Sent>)
    requires k + 2 <= |envs| && Stands(s, w, envs, k, row, SigningWrite(row), sent) && row.state.Validated?
    ensures Stands(s, w, envs, k + 2, Leased(row, envs[k]), LockedRead(Some(envs[k].attempt)), sent)
  {
    hide Stands;
    var leased, e := Leased(row, envs[k]), envs[k];
    Writes(s, w, envs, k, row, SigningWrite(row), sent,
           Pending(row, StartSigning(e.attempt, e.leaseUntil), AfterSigning, Done));
    Moves(s, w, envs, k + 1, leased, Select(AfterSigning), sent);
  }

  /** Where in a run the resource step stands. */
  function ResourceStep(row: Row): nat {
    Base(row) + if row.reservation.None? then 7 else 5
  }

  /** From the lock to the resource step, if neither the lock nor the wallet objects. */
  lemma Reserves(s: System, w: WorkerId, envs: seq<Env>, row: Row, sent: seq<Sent>)
    requires (row.state.Received? || row.state.Validated?) && row.signedHash.None? && ResourceStep(row) <= |envs|
    requires
      var k := Base(row) + 4;
      && Stands(s, w, envs, k, Leased(row, envs[k - 2]), LockedRead(Some(envs[k - 2].attempt)), sent)
      && envs[k].lockFault.None? && envs[k].fault.None?
    ensures
      var reserved := Reserved(row, envs[Base(row) + 2]);
      Stands(s, w, envs, ResourceStep(row), reserved, EnsureResources(reserved), sent)
  {
    hide Stands;
    var k := Base(row) + 4;
    var leased, reserved := Leased(row, envs[k - 2]), Reserved(row, envs[k - 2]);
    Moves(s, w, envs, k, leased, LockedRead(leased.attemptId), sent);
    if row.reservation.None? {
      Writes(s, w, envs, k + 1, leased, ReserveWrite(leased), sent,
             Pending(leased, Reserve(leased.attemptId), AfterReserve, ON_CONFLICT));
      Moves(s, w, envs, k + 2, reserved, Select(AfterReserve), sent);
    }
  }

  /** The row once the transfer is signed and marked as being broadcast. */
  function Marked(row: Row, tx: SignedTx, at: int): Row {
    row.(state := Broadcasting, stateVersion := row.stateVersion + 2,
         signedRef := Some(tx.hash), signedHash := Some(tx.hash), txid := Some(tx.txid),
         txidVerified := false, broadcastAttemptedAt := Some(at))
  }

  /** From a built transfer to the answer of the network. */
  lemma SignsAndSends(
    s: System, w: WorkerId, envs: seq<Env>, g: nat, row: Row, job: Job, sent: seq<Sent>)
    requires g + 5 <= |envs| && Stands(s, w, envs, g, row, SignedWrite(row, job), sent)
    ensures
      var marked := Marked(row, job.tx, envs[g + 2].now);
      Stands(s, w, envs, g + 5, marked, AwaitResult(marked, job), sent + [Sent(w, job)])
  {
    hide Stands;
    var signed, marked := Apply(Sign(job.tx), row), Marked(row, job.tx, envs[g + 2].now);
    Writes(s, w, envs, g, row, SignedWrite(row, job), sent, Pending(row, Sign(job.tx), AfterSigned(job), ON_CONFLICT));
    Moves(s, w, envs, g + 1, signed, Select(AfterSigned(job)), sent);
    Writes(s, w, envs, g + 2, signed, BroadcastingWrite(signed, job), sent,
           Pending(signed, StartBroadcast(envs[g + 2].now), AfterBroadcasting(job), ON_CONFLICT));
    Moves(s, w, envs, g + 3, marked, Select(AfterBroadcasting(job)), sent);
    Sends(s, w, envs, g + 4, marked, job, sent);
  }

  /** From a network answer that names the transfer to the end. */
  lemma RecordsResult(
    s: System, w: WorkerId, envs: seq<Env>, g: nat, row: Row, job: Job, sent: seq<Sent>)
    requires g + 5 <= |envs| && Stands(s, w, envs, g, row, AwaitResult(row, job), sent)
    requires envs[g].fault.None? && job.tx.txid in envs[g].reported
    ensures
      Stands(s, w, envs, |envs|, Recorded(row, job), Done, sent)
  {
    hide Stands;
    var verified := row.(stateVersion := row.stateVersion + 1, txidVerified := true);
    Moves(s, w, envs, g, row, AwaitResult(row, job), sent);
    Writes(s, w, envs, g + 1, row, VerifyWrite(row, job), sent,
           Pending(row, VerifyBroadcast(row.state), AfterVerified(job), ON_CONFLICT));
    Moves(s, w, envs, g + 2, verified, Select(AfterVerified(job)), sent);
    StoresResult(s, w, envs, g + 3, verified, job, sent);
  }

  lemma StoresResult(s: System, w: WorkerId, envs: seq<Env>, g: nat, row: Row, job: Job, sent: seq<Sent>)
    requires g + 2 <= |envs| && Stands(s, w, envs, g, row, BroadcastedWrite(row, job), sent) && row.txidVerified
    ensures
      Stands(s, w, envs, |envs|,
             row.(state := Broadcasted, stateVersion := row.stateVersion + 1, txid := Some(job.tx.txid),
                  txids := [job.tx.txid], txidVerified := true, reconciliationRequired := false),
             Done, sent)
  {
    hide Stands;
    var done := Apply(FinishBroadcast(job.tx.txid, true), row);
    Writes(s, w, envs, g, row, BroadcastedWrite(row, job), sent,
           Pending(row, FinishBroadcast(job.tx.txid, true), Finish, ON_CONFLICT));
    Moves(s, w, envs, g + 1, done, Select(Finish), sent);
    Rests(s, w, envs, g + 2, |envs|, done, sent);
  }

  lemma EndsAlone(s: System, w: WorkerId, envs: seq<Env>, row: Row, pc: Pc, sent: seq<Sent>)
    requires Stands(s, w, envs, |envs|, row, pc, sent)
    ensures
      var t := Alone(s, w, envs);
      t.workers == s.workers[w := pc] && t.row == Some(row) && t.broadcasts == sent
  {
    assert envs[..|envs|] == envs;
  }

  /** An execution that waits to be executed, worker `w` about to look at it. */
  predicate Waiting(s: System, w: WorkerId) {
    && w in s.workers && (s.workers[w] == ExecuteRead || s.workers[w] == ExecuteReread)
    && s.row.Some? && (s.row.value.state == Received || s.row.value.state == Validated)
    && !Evident(s.row.value)
  }

  lemma StartsAlone(s: System, w: WorkerId, envs: seq<Env>)
    requires Waiting(s, w) && |envs| >= Base(s.row.value) + 4
    ensures
      var row, k := s.row.value, Base(s.row.value) + 2;
      Stands(s, w, envs, k + 2, Leased(row, envs[k]), LockedRead(Some(envs[k].attempt)), s.broadcasts)
  {
    var row, sent := s.row.value, s.broadcasts;
    assert Stands(s, w, envs, 0, row, s.workers[w], sent);
    hide Stands;
    Moves(s, w, envs, 0, row, s.workers[w], sent);
    if row.state.Received? {
      var validated := row.(state := Validated, stateVersion := row.stateVersion + 1);
      Writes(s, w, envs, 1, row, ValidateWrite(row), sent, Pending(row, Validate, AfterValidate, Done));
      Moves(s, w, envs, 2, validated, Select(AfterValidate), sent);
      TakesTheLease(s, w, envs, 3, validated, sent);
    } else {
      TakesTheLease(s, w, envs, 1, row, sent);
    }
  }

  /** Nothing fails before the broadcast: neither the lock, the balance, the resources nor the wallet. */
  predicate Prepares(row: Row, envs: seq<Env>)
    requires ResourceStep(row) + 2 <= |envs|
  {
    var g := ResourceStep(row);
    && envs[Base(row) + 4].lockFault.None? && envs[Base(row) + 4].fault.None?
    && envs[g].outcome.Prepared? && ResourceContract(envs[g].outcome)
    && envs[g + 1].fault.None?
  }

  /** The transfer a run of `execute` that prepares comes to send. */
  function JobOf(row: Row, envs: seq<Env>): Job
    requires ResourceStep(row) + 2 <= |envs| && Prepares(row, envs)
  {
    var g := ResourceStep(row);
    Job(envs[g + 1].tx, envs[g].outcome.quote, envs[g].outcome.log)
  }

  lemma PreparesAlone(s: System, w: WorkerId, envs: seq<Env>)
    requires Waiting(s, w) && ResourceStep(s.row.value) + 2 <= |envs| && Prepares(s.row.value, envs)
    ensures
      var row, g := s.row.value, ResourceStep(s.row.value);
      var reserved := Reserved(row, envs[Base(row) + 2]);
      Stands(s, w, envs, g + 2, reserved, SignedWrite(reserved, JobOf(row, envs)), s.broadcasts)
  {
    var row, g := s.row.value, ResourceStep(s.row.value);
    var reserved, job := Reserved(row, envs[Base(row) + 2]), JobOf(row, envs);
    hide Stands, ResourceContract;
    StartsAlone(s, w, envs);
    Reserves(s, w, envs, row, s.broadcasts);
    Moves(s, w, envs, g, reserved, EnsureResources(reserved), s.broadcasts);
    Moves(s, w, envs, g + 1, reserved, BuildTransfer(reserved, job.quote, job.log), s.broadcasts);
  }

  /** An `execute` that nobody disturbs and nothing fails: the transfer that was built is broadcast, once, and
      the row ends BROADCASTED with the evidence of that very transfer. */
  lemma UndisturbedExecute(s: System, w: WorkerId, envs: seq<Env>)
    requires Waiting(s, w)
    requires
      var g := ResourceStep(s.row.value);
      && g + 12 <= |envs| && Prepares(s.row.value, envs)
      && envs[g + 7].fault.None? && envs[g + 1].tx.txid in envs[g + 7].reported
    ensures
      var row, t := s.row.value, Alone(s, w, envs);
      var b := if row.state == Received then 1 else -1;
      var g := b + if row.reservation == None then 7 else 5;
      var tx := envs[g + 1].tx;
      && t.workers == s.workers[w := Done]
      && t.broadcasts == s.broadcasts + [Sent(w, Job(tx, envs[g].outcome.quote, envs[g].outcome.log))]
      && t.row.Some? && BroadcastAs(row, envs[b + 2], tx, envs[g + 4].now, t.row.value)
  {
    var row, g := s.row.value, ResourceStep(s.row.value);
    var job := JobOf(row, envs);
    var e, at := envs[Base(row) + 2], envs[g + 4].now;
    assert job == Job(envs[g + 1].tx, envs[g].outcome.quote, envs[g].outcome.log);
    hide Stands, ResourceContract, Alone, Recorded, Reserved, Marked, Evident, JobOf, Prepares,
      BroadcastAs;
    BroadcastsAlone(s, w, envs);
    RecordedIs(row, e, job, at);
    EndsAlone(
      s, w, envs, Recorded(Marked(Reserved(row, e), job.tx, at), job), Done, s.broadcasts + [Sent(w, job)]);
  }

  /** The row once the result of the broadcast is recorded. */
  function Recorded(marked: Row, job: Job): Row {
    marked.(state := Broadcasted, stateVersion := marked.stateVersion + 2, txid := Some(job.tx.txid),
            txids := [job.tx.txid], txidVerified := true, reconciliationRequired := false)
  }

  /** Where the row, the transfer and the broadcasts stand when the network's answer is awaited. */
  predicate Awaits(s: System, w: WorkerId, envs: seq<Env>, marked: Row, job: Job)
    requires s.row.Some? && ResourceStep(s.row.value) + 7 <= |envs|
  {
    Stands(
      s, w, envs, ResourceStep(s.row.value) + 7, marked, AwaitResult(marked, job), s.broadcasts + [Sent(w, job)])
  }

  lemma AwaitsAlone(s: System, w: WorkerId, envs: seq<Env>)
    requires Waiting(s, w) && ResourceStep(s.row.value) + 7 <= |envs| && Prepares(s.row.value, envs)
    ensures
      var row, job := s.row.value, JobOf(s.row.value, envs);
      Awaits(
        s, w, envs, Marked(Reserved(row, envs[Base(row) + 2]), job.tx, envs[ResourceStep(row) + 4].now), job)
  {
    var row, g := s.row.value, ResourceStep(s.row.value);
    PreparesAlone(s, w, envs);
    hide Stands, ResourceContract, Alone, Marked, Reserved;
    SignsAndSends(s, w, envs, g + 2, Reserved(row, envs[Base(row) + 2]), JobOf(row, envs), s.broadcasts);
  }

  lemma BroadcastsAlone(s: System, w: WorkerId, envs: seq<Env>)
    requires Waiting(s, w)
    requires
      var g := ResourceStep(s.row.value);
      && g + 12 <= |envs| && Prepares(s.row.value, envs)
      && envs[g + 7].fault.None? && envs[g + 1].tx.txid in envs[g + 7].reported
    ensures
      var row, g := s.row.value, ResourceStep(s.row.value);
      var reserved, job := Reserved(row, envs[Base(row) + 2]), JobOf(row, envs);
      Stands(
        s, w, envs, |envs|, Recorded(Marked(reserved, job.tx, envs[g + 4].now), job), Done,
        s.broadcasts + [Sent(w, job)])
  {
    var row, g := s.row.value, ResourceStep(s.row.value);
    var job := JobOf(row, envs);
    AwaitsAlone(s, w, envs);
    hide Stands, ResourceContract, Marked, Reserved;
    RecordsResult(
      s, w, envs, g + 7, Marked(Reserved(row, envs[Base(row) + 2]), job.tx, envs[g + 4].now), job,
      s.broadcasts + [Sent(w, job)]);
  }

  lemma RecordedIs(row: Row, e: Env, job: Job, at: int)
    requires row.state.Received? || row.state.Validated?
    ensures BroadcastAs(row, e, job.tx, at, Recorded(Marked(Reserved(row, e), job.tx, at), job))
  {
  }

  /** Where the one thing that goes wrong before the broadcast goes wrong, and what is raised by it. */
  predicate FailsBefore(row: Row, envs: seq<Env>, exc: Failure)
    requires ResourceStep(row) + 2 <= |envs|
  {
    var g := ResourceStep(row);
    var lock := envs[Base(row) + 4];
    if lock.lockFault.Some? then exc == lock.lockFault.value
    else if lock.fault.Some? then exc == lock.fault.value
    else if envs[g].outcome.Unprepared? then ResourceContract(envs[g].outcome) && exc == envs[g].outcome.failure
    else ResourceContract(envs[g].outcome) && envs[g + 1].fault == Some(exc)
  }

  /** An undisturbed `execute` that cannot have the lock, the balance, the resources or the signed transfer
      broadcasts nothing, and its row goes back to RECEIVED or ends FAILED_PRE_BROADCAST as the error says. */
  lemma FailedExecute(s: System, w: WorkerId, envs: seq<Env>, exc: Failure)
    requires Waiting(s, w)
    requires ResourceStep(s.row.value) + 5 <= |envs| && FailsBefore(s.row.value, envs, exc)
    requires !IsCasConflict(exc)
    ensures
      var row, t := s.row.value, Alone(s, w, envs);
      && t.workers == s.workers[w := Done] && t.broadcasts == s.broadcasts
      && t.row.Some?
      && var e := envs[if row.state == Received then 3 else 1];
      exists attempted: Row ::
           && HandledAs(attempted, exc, t.row.value)
           && attempted == row.(
                state := Signing, stateVersion := attempted.stateVersion,
                attemptId := Some(e.attempt), leaseExpiresAt := Some(e.leaseUntil),
                reservation := attempted.reservation)
  {
    var row, e := s.row.value, envs[Base(s.row.value) + 2];
    var next: Row;
    hide Stands, ResourceContract, HandledAs, Alone;
    var lock := envs[Base(row) + 4];
    if lock.lockFault.Some? || lock.fault.Some? {
      next := RefusedAtLock(s, w, envs, exc);
    } else {
      next := FailsAfterLock(s, w, envs, exc);
    }
    hide Waiting, FailsBefore;
    EndsAlone(s, w, envs, next, Done, s.broadcasts);
  }

  lemma RefusedAtLock(s: System, w: WorkerId, envs: seq<Env>, exc: Failure) returns (next: Row)
    requires Waiting(s, w) && !IsCasConflict(exc)
    requires ResourceStep(s.row.value) + 5 <= |envs| && FailsBefore(s.row.value, envs, exc)
    requires envs[Base(s.row.value) + 4].lockFault.Some? || envs[Base(s.row.value) + 4].fault.Some?
    ensures Stands(s, w, envs, |envs|, next, Done, s.broadcasts)
    ensures HandledAs(Leased(s.row.value, envs[Base(s.row.value) + 2]), exc, next)
  {
    hide Stands, ResourceContract, HandledAs, Alone;
    var k := Base(s.row.value) + 4;
    var leased := Leased(s.row.value, envs[k - 2]);
    StartsAlone(s, w, envs);
    Moves(s, w, envs, k, leased, LockedRead(leased.attemptId), s.broadcasts);
    next := HandlesAlone(s, w, envs, k + 1, leased, exc, [], s.broadcasts);
  }

  lemma FailsAfterLock(s: System, w: WorkerId, envs: seq<Env>, exc: Failure) returns (next: Row)
    requires Waiting(s, w) && !IsCasConflict(exc)
    requires ResourceStep(s.row.value) + 5 <= |envs| && FailsBefore(s.row.value, envs, exc)
    requires envs[Base(s.row.value) + 4].lockFault.None? && envs[Base(s.row.value) + 4].fault.None?
    ensures Stands(s, w, envs, |envs|, next, Done, s.broadcasts)
    ensures HandledAs(Reserved(s.row.value, envs[Base(s.row.value) + 2]), exc, next)
  {
    hide Stands, ResourceContract, HandledAs, Alone;
    var row, g := s.row.value, ResourceStep(s.row.value);
    var reserved, log := Reserved(row, envs[Base(row) + 2]), envs[g].outcome.log;
    StartsAlone(s, w, envs);
    Reserves(s, w, envs, row, s.broadcasts);
    Moves(s, w, envs, g, reserved, EnsureResources(reserved), s.broadcasts);
    if envs[g].outcome.Prepared? {
      Moves(s, w, envs, g + 1, reserved, BuildTransfer(reserved, envs[g].outcome.quote, log), s.broadcasts);
      next := HandlesAlone(s, w, envs, g + 2, reserved, exc, log, s.broadcasts);
    } else {
      next := HandlesAlone(s, w, envs, g + 1, reserved, exc, log, s.broadcasts);
    }
  }

  /** An undisturbed `execute` whose broadcast comes back with an error, without an id or with another id
      has broadcast once, and its row waits for reconciliation with its evidence on record. */
  lemma UnclearExecute(s: System, w: WorkerId, envs: seq<Env>)
    requires Waiting(s, w)
    requires
      var g := ResourceStep(s.row.value);
      && g + 11 <= |envs| && Prepares(s.row.value, envs)
      && (if envs[g + 7].fault.Some? then !IsCasConflict(envs[g + 7].fault.value)
          else envs[g + 1].tx.txid !in envs[g + 7].reported)
    ensures
      var row, t := s.row.value, Alone(s, w, envs);
      var b := if row.state == Received then 1 else -1;
      var g := b + if row.reservation == None then 7 else 5;
      var tx := envs[g + 1].tx;
      && t.workers == s.workers[w := Done]
      && t.broadcasts == s.broadcasts + [Sent(w, Job(tx, envs[g].outcome.quote, envs[g].outcome.log))]
      && t.row.Some? && t.row.value.state.ReconciliationRequired? && t.row.value.reconciliationRequired
      && t.row.value.signedRef == Some(tx.hash) && t.row.value.signedHash == Some(tx.hash)
      && t.row.value.txid == Some(tx.txid) && t.row.value.broadcastAttemptedAt == Some(envs[g + 4].now)
  {
    var row, g := s.row.value, ResourceStep(s.row.value);
    var job, sent := JobOf(row, envs), s.broadcasts + [Sent(w, JobOf(row, envs))];
    var marked := Marked(Reserved(row, envs[Base(row) + 2]), job.tx, envs[g + 4].now);
    AwaitsAlone(s, w, envs);
    hide Stands, ResourceContract, Alone, Reserved, Waiting;
    var next := ReconcilesAlone(s, w, envs, g + 7, marked, job, sent);
    EndsAlone(s, w, envs, next, Done, sent);
  }

  lemma ReconcilesAlone(s: System, w: WorkerId, envs: seq<Env>, k: nat, marked: Row, job: Job, sent: seq<Sent>)
    returns (next: Row)
    requires k + 4 <= |envs| && Stands(s, w, envs, k, marked, AwaitResult(marked, job), sent)
    requires marked.state.Broadcasting? && marked.signedHash.Some?
    requires
      if envs[k].fault.Some? then !IsCasConflict(envs[k].fault.value) else job.tx.txid !in envs[k].reported
    ensures Stands(s, w, envs, |envs|, next, Done, sent)
    ensures next.state.ReconciliationRequired? && next.reconciliationRequired
    ensures next.signedRef == marked.signedRef && next.signedHash == marked.signedHash
    ensures next.txid == marked.txid && next.broadcastAttemptedAt == marked.broadcastAttemptedAt
  {
    hide Stands;
    Moves(s, w, envs, k, marked, AwaitResult(marked, job), sent);
    var exc :=
      if envs[k].fault.Some? then envs[k].fault.value
      else if envs[k].reported == {} then Failure(Some(BroadcastTxidMissing), None, false, true)
      else Failure(Some(BroadcastTxidMismatch), None, false, true);
    next := HandlesAlone(s, w, envs, k + 1, marked, exc, job.log, sent);
  }

  /** The lease of a mid-signing row is over. */
  predicate Stale(row: Row, now: int) {
    && (row.state == Signing || row.state == Signed || row.state == Broadcasting)
    && (row.leaseExpiresAt == None || row.leaseExpiresAt.value <= now)
  }

  /** An `execute` that finds a final execution, or one that another attempt still holds, changes nothing. */
  lemma ExecuteElsewhere(s: System, w: WorkerId, envs: seq<Env>)
    requires w in s.workers && s.workers[w].ExecuteRead? && s.row.Some? && |envs| >= 3
    requires s.row.value.state != Received && s.row.value.state != Validated && !Stale(s.row.value, envs[1].now)
    ensures
      var t := Alone(s, w, envs);
      t.workers == s.workers[w := Done] && t.row == s.row && t.broadcasts == s.broadcasts
  {
    var row, sent := s.row.value, s.broadcasts;
    assert Stands(s, w, envs, 0, row, ExecuteRead, sent);
    hide Stands;
    Moves(s, w, envs, 0, row, ExecuteRead, sent);
    if IsUnsafeState(row.state) {
      Moves(s, w, envs, 1, row, RecoverRead(ByExecute), sent);
      Moves(s, w, envs, 2, row, ExecuteReread, sent);
      Rests(s, w, envs, 3, |envs|, row, sent);
    } else {
      Rests(s, w, envs, 1, |envs|, row, sent);
    }
    EndsAlone(s, w, envs, row, Done, sent);
  }

  lemma RecoversAlone(s: System, w: WorkerId, envs: seq<Env>, row: Row, caller: Caller, sent: seq<Sent>)
    returns (next: Row)
    requires |envs| >= 4 && Stands(s, w, envs, 1, row, RecoverRead(caller), sent) && Stale(row, envs[1].now)
    ensures Stands(s, w, envs, 4, next, AfterRecover(caller), sent) && RecoveredAs(row, next)
  {
    hide Stands;
    var u := RecoveryUpdate(row);
    next := Apply(u, row);
    RecoveryWrites(row);
    Moves(s, w, envs, 1, row, RecoverRead(caller), sent);
    hide Apply, RecoveryUpdate, RecoveredAs;
    Writes(s, w, envs, 2, row, RecoverWrite(caller, row), sent,
           Pending(row, u, AfterRecovery(caller), if caller.ByExecute? then Done else AfterRecover(caller)));
    Moves(s, w, envs, 3, next, Select(AfterRecovery(caller)), sent);
  }

  /** One that finds a stale attempt recovers the row and looks again: if the row is back in RECEIVED, it goes on
      like any other. */
  lemma ExecuteRecovers(s: System, w: WorkerId, envs: seq<Env>)
    requires w in s.workers && s.workers[w].ExecuteRead? && s.row.Some? && |envs| == 4
    requires Stale(s.row.value, envs[1].now)
    ensures
      var t := Alone(s, w, envs);
      && t.workers == s.workers[w := ExecuteReread] && t.broadcasts == s.broadcasts
      && t.row.Some? && RecoveredAs(s.row.value, t.row.value)
      && (Waiting(t, w) <==> s.row.value.state == Signing && !Evident(s.row.value))
  {
    var row, sent := s.row.value, s.broadcasts;
    assert Stands(s, w, envs, 0, row, ExecuteRead, sent);
    hide Stands;
    Moves(s, w, envs, 0, row, ExecuteRead, sent);
    var next := RecoversAlone(s, w, envs, row, ByExecute, sent);
    EndsAlone(s, w, envs, next, ExecuteReread, sent);
  }

  /** The row `status` leaves behind `row`, told the state of the transfer on chain. */
  predicate StatusLeaves(row: Row, now: int, chain: State, next: Row) {
    if Stale(row, now) then RecoveredAs(row, next)
    else if (row.state == Broadcasted && chain in {Confirming, Confirmed, FailedChainTerminal})
            || (row.state == Confirming && chain in {Confirmed, FailedChainTerminal})
    then RefreshedAs(row, chain, next)
    else next == row
  }

  /** An undisturbed `status` recovers a stale attempt, refreshes a transfer on its way, and changes nothing
      else. */
  lemma UndisturbedStatus(s: System, w: WorkerId, envs: seq<Env>)
    requires w in s.workers && s.workers[w].StatusRead? && s.row.Some? && |envs| >= 6
    ensures
      var t := Alone(s, w, envs);
      && t.workers == s.workers[w := Done] && t.broadcasts == s.broadcasts
      && t.row.Some? && StatusLeaves(s.row.value, envs[1].now, envs[1].chain, t.row.value)
  {
    var row, sent := s.row.value, s.broadcasts;
    assert Stands(s, w, envs, 0, row, StatusRead, sent);
    hide Stands, StatusLeaves;
    Moves(s, w, envs, 0, row, StatusRead, sent);
    var next: Row;
    if IsUnsafeState(row.state) {
      next := StatusRecovers(s, w, envs, row, sent);
    } else {
      next := StatusRefreshes(s, w, envs, row, sent);
    }
    EndsAlone(s, w, envs, next, Done, sent);
  }

  lemma StatusRecovers(s: System, w: WorkerId, envs: seq<Env>, row: Row, sent: seq<Sent>) returns (next: Row)
    requires |envs| >= 6 && Stands(s, w, envs, 1, row, RecoverRead(ByStatus), sent) && IsUnsafeState(row.state)
    ensures Stands(s, w, envs, |envs|, next, Done, sent) && StatusLeaves(row, envs[1].now, envs[1].chain, next)
  {
    hide Stands;
    if Stale(row, envs[1].now) {
      next := RecoversAlone(s, w, envs, row, ByStatus, sent);
      Moves(s, w, envs, 4, next, StatusReread, sent);
      Moves(s, w, envs, 5, next, RefreshRead(next), sent);
      Rests(s, w, envs, 6, |envs|, next, sent);
    } else {
      next := row;
      Moves(s, w, envs, 1, row, RecoverRead(ByStatus), sent);
      Moves(s, w, envs, 2, row, StatusReread, sent);
      Moves(s, w, envs, 3, row, RefreshRead(row), sent);
      Rests(s, w, envs, 4, |envs|, row, sent);
    }
  }

  lemma StatusRefreshes(s: System, w: WorkerId, envs: seq<Env>, row: Row, sent: seq<Sent>) returns (next: Row)
    requires |envs| >= 6 && Stands(s, w, envs, 1, row, RefreshRead(row), sent) && !IsUnsafeState(row.state)
    ensures Stands(s, w, envs, |envs|, next, Done, sent) && StatusLeaves(row, envs[1].now, envs[1].chain, next)
  {
    hide Stands;
    var chain := envs[1].chain;
    Moves(s, w, envs, 1, row, RefreshRead(row), sent);
    if RefreshWrites(row, chain) {
      var u := Chain(chain, row.txid, row.txidVerified);
      next := Apply(u, row);
      RefreshWritesResult(row, chain);
      hide Apply;
      Writes(s, w, envs, 2, row, RefreshWrite(row, chain), sent, Pending(row, u, Finish, Done));
      Moves(s, w, envs, 3, next, Select(Finish), sent);
      Rests(s, w, envs, 4, |envs|, next, sent);
    } else {
      next := row;
      Rests(s, w, envs, 2, |envs|, row, sent);
    }
  }

  /** The lock lets a worker go on exactly with the attempt it holds. */
  lemma LockAdmits(s: System, w: WorkerId, e: Env)
    requires w in s.workers && s.workers[w].LockedRead? && s.row.Some?
    ensures
      var row, pc := s.row.value, Step(s, w, e).workers[w];
      pc.ReserveWrite? || pc.EnsureResources? <==>
        && e.lockFault.None? && e.fault.None?
        && (row.state == Signing || row.state == Signed || row.state == Broadcasting)
        && row.attemptId == s.workers[w].attemptId
        && (row.reservation == None || row.signedHash == None)
  {
  }
}
