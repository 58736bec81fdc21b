/** Runs in which an execution is broadcast after it had failed before broadcast, and after it had been
    handed to reconciliation.  Both need the SELECT after an UPDATE to return another worker's row: the first
    twice, with two workers in the lock, the second only once, behind a single status poll. */
module ExecutionWitness {
  import opened Options
  import opened Failures
  import opened Resources
  import opened ExecutionRows
  import opened ExecutionProtocol
  import Providers

  const READY := Quote(Readiness(None, 0, 0, 0), Readiness(None, 0, 0, 0), false, None, true, None)

  const READINGS: Log := [Read(Energy, 0), Read(Bandwidth, 0), Told(ProfeeX, 0, false)]

  const TX := SignedTx(1, 2)

  const JOB := Job(TX, READY, READINGS)

  const SMOOTH := Env(0, None, None, 7, 300, Prepared(READY, READINGS), TX, {2}, Confirmed)

  const NO_FUNDS := SMOOTH.(fault := Some(Failure(Some(InsufficientUsdt), None, false, true)))

  const VALIDATED_ROW := Apply(Validate, NEW_ROW)
  const SIGNING_ROW := Apply(StartSigning(7, 300), VALIDATED_ROW)
  const RESERVED_ROW := Apply(Reserve(Some(7)), SIGNING_ROW)
  const FAILED_ROW := Apply(FailPreBroadcast, RESERVED_ROW)
  const SIGNED_ROW := Apply(Sign(TX), FAILED_ROW)
  const BROADCASTING_ROW := Apply(StartBroadcast(0), SIGNED_ROW)

  /** A worker that looks when the lease is over. */
  const LATE := SMOOTH.(now := 300)

  const EVIDENT_ROW := Apply(Sign(TX), RESERVED_ROW)
  const RECONCILED_ROW := Apply(Reconcile, EVIDENT_ROW)
  const RESUMED_ROW := Apply(StartBroadcast(0), RECONCILED_ROW)

  /** The run reaches `row` with worker 1 about to do `one` and worker 2 about to do `two`. */
  ghost predicate Reaches(actions: seq<Action>, row: Row, one: Pc, two: Pc, broadcasts: seq<Sent>) {
    var s := Run(INIT, actions);
    && s.row == Some(row) && s.broadcasts == broadcasts
    && s.workers.Keys == {0, 1, 2}
    && s.workers[1] == one && s.workers[2] == two
  }

  lemma SmoothIsAllowed()
    ensures ResourceContract(SMOOTH.outcome)
  {
    assert BackedAt(READINGS, 0, READY);
    Providers.NothingAcceptedCounts(READINGS, Energy);
    Providers.NothingAcceptedCounts(READINGS, Bandwidth);
  }

  /** What the steps below look at in the rows they pass through. */
  lemma RowFacts()
    ensures VALIDATED_ROW.state.Validated?
    ensures SIGNING_ROW.state.Signing? && SIGNING_ROW.attemptId == Some(7) && SIGNING_ROW.reservation.None?
    ensures RESERVED_ROW.state.Signing? && RESERVED_ROW.attemptId == Some(7) && RESERVED_ROW.reservation.Some?
    ensures RESERVED_ROW.signedHash.None? && !HasUnsafeSideEffect(RESERVED_ROW)
    ensures FAILED_ROW.signedHash.None?
    ensures EVIDENT_ROW.state.Signed? && EVIDENT_ROW.leaseExpiresAt == Some(300)
    ensures RECONCILED_ROW.state.ReconciliationRequired? && RECONCILED_ROW.reconciliationRequired
    ensures RESUMED_ROW.state.Broadcasting? && RESUMED_ROW.reconciliationRequired
  {
  }

  lemma Then(actions: seq<Action>, a: Action) returns (next: seq<Action>)
    ensures next == actions + [a]
    ensures Run(INIT, next) == Do(Run(INIT, actions), a)
  {
    next := actions + [a];
    assert next[..|next| - 1] == actions;
  }

  /** Worker 1 makes a step that writes nothing. */
  lemma OneMoves(actions: seq<Action>, e: Env, row: Row, one: Pc, two: Pc, sent: seq<Sent>) returns (next: seq<Action>)
    requires Reaches(actions, row, one, two, sent)
    requires PendingUpdate(one, e).None? && !one.SubmitInsert? && !one.Broadcast?
    requires one.EnsureResources? ==> ResourceContract(e.outcome)
    ensures actions <= next && Reaches(next, row, NextPc(Some(row), one, e), two, sent)
  {
    next := Then(actions, Go(1, e));
  }

  lemma TwoMoves(actions: seq<Action>, e: Env, row: Row, one: Pc, two: Pc, sent: seq<Sent>) returns (next: seq<Action>)
    requires Reaches(actions, row, one, two, sent)
    requires PendingUpdate(two, e).None? && !two.SubmitInsert? && !two.Broadcast? && !two.EnsureResources?
    ensures actions <= next && Reaches(next, row, one, NextPc(Some(row), two, e), sent)
  {
    next := Then(actions, Go(2, e));
  }

  /** Worker 1 makes a write on a fresh snapshot. */
  lemma OneWrites(actions: seq<Action>, e: Env, p: Pending, row: Row, one: Pc, two: Pc, sent: seq<Sent>)
    returns (next: seq<Action>)
    requires Reaches(actions, row, one, two, sent)
    requires PendingUpdate(one, e) == Some(p) && p.snapshot == row
    ensures actions <= next && Reaches(next, Apply(p.u, row), Select(p.resume), two, sent)
  {
    next := Then(actions, Go(1, e));
  }

  lemma TwoWrites(actions: seq<Action>, e: Env, p: Pending, row: Row, one: Pc, two: Pc, sent: seq<Sent>)
    returns (next: seq<Action>)
    requires Reaches(actions, row, one, two, sent)
    requires PendingUpdate(two, e) == Some(p) && p.snapshot == row
    ensures actions <= next && Reaches(next, Apply(p.u, row), one, Select(p.resume), sent)
  {
    next := Then(actions, Go(2, e));
  }

  lemma OneBroadcasts(actions: seq<Action>, row: Row, job: Job, two: Pc) returns (next: seq<Action>)
    requires Reaches(actions, row, Broadcast(row, job), two, [])
    ensures actions <= next && Reaches(next, row, AwaitResult(row, job), two, [Sent(1, job)])
  {
    next := Then(actions, Go(1, SMOOTH));
  }

  lemma OneSubmits() returns (actions: seq<Action>)
    ensures Run(INIT, actions) == System(Some(NEW_ROW), map[0 := SubmitRead], None, [])
  {
    actions := Then([], Start(0, Submit));
    assert Run(INIT, actions) == System(None, map[0 := SubmitRead], None, []);
    actions := Then(actions, Go(0, SMOOTH));
    assert Run(INIT, actions) == System(None, map[0 := SubmitInsert], None, []);
    actions := Then(actions, Go(0, SMOOTH));
  }

  lemma BothExecute() returns (actions: seq<Action>)
    ensures Reaches(actions, NEW_ROW, ExecuteRead, ExecuteRead, [])
  {
    actions := OneSubmits();
    actions := Then(actions, Start(1, Execute));
    actions := Then(actions, Start(2, Execute));
  }

  /** Worker 1 validates; worker 2 starts signing before worker 1 reads its row back. */
  lemma BothHoldTheAttempt() returns (actions: seq<Action>)
    ensures Reaches(actions, SIGNING_ROW, LockedRead(Some(7)), LockedRead(Some(7)), [])
  {
    RowFacts();
    hide Do, Reaches, Apply;
    actions := BothExecute();
    actions := OneMoves(actions, SMOOTH, NEW_ROW, ExecuteRead, ExecuteRead, []);
    actions := OneWrites(actions, SMOOTH, Pending(NEW_ROW, Validate, AfterValidate, Done),
                         NEW_ROW, ValidateWrite(NEW_ROW), ExecuteRead, []);
    actions := TwoMoves(actions, SMOOTH, VALIDATED_ROW, Select(AfterValidate), ExecuteRead, []);
    actions := TwoWrites(actions, SMOOTH, Pending(VALIDATED_ROW, StartSigning(7, 300), AfterSigning, Done),
                         VALIDATED_ROW, Select(AfterValidate), SigningWrite(VALIDATED_ROW), []);
    actions := OneMoves(actions, SMOOTH, SIGNING_ROW, Select(AfterValidate), Select(AfterSigning), []);
    actions := TwoMoves(actions, SMOOTH, SIGNING_ROW, LockedRead(Some(7)), Select(AfterSigning), []);
  }

  /** Worker 1 reserves; worker 2 fails the balance check before worker 1 reads its row back. */
  lemma FailsBehindWorkerOne() returns (actions: seq<Action>)
    ensures Reaches(actions, FAILED_ROW, Select(AfterReserve), Select(Finish), [])
  {
    RowFacts();
    hide Do, Reaches, Apply;
    var locked := LockedRead(Some(7));
    var exc := NO_FUNDS.fault.value;
    actions := BothHoldTheAttempt();
    actions := OneMoves(actions, SMOOTH, SIGNING_ROW, locked, locked, []);
    actions := OneWrites(actions, SMOOTH, Pending(SIGNING_ROW, Reserve(Some(7)), AfterReserve, ON_CONFLICT),
                         SIGNING_ROW, ReserveWrite(SIGNING_ROW), locked, []);
    actions := TwoMoves(actions, NO_FUNDS, RESERVED_ROW, Select(AfterReserve), locked, []);
    actions := TwoMoves(actions, SMOOTH, RESERVED_ROW, Select(AfterReserve), HandleRead(exc, []), []);
    actions := TwoWrites(actions, SMOOTH, Pending(RESERVED_ROW, FailPreBroadcast, Finish, Done),
                         RESERVED_ROW, Select(AfterReserve), HandleWrite(RESERVED_ROW, exc, []), []);
  }

  lemma PreparesTheFailedRow(actions: seq<Action>) returns (next: seq<Action>)
    requires Reaches(actions, FAILED_ROW, Select(AfterReserve), Select(Finish), [])
    ensures actions <= next
    ensures Reaches(next, FAILED_ROW, SignedWrite(FAILED_ROW, JOB), Select(Finish), [])
  {
    SmoothIsAllowed();
    RowFacts();
    hide Do, Reaches, ResourceContract, Apply, FAILED_ROW;
    var two := Select(Finish);
    next := OneMoves(actions, SMOOTH, FAILED_ROW, Select(AfterReserve), two, []);
    next := OneMoves(next, SMOOTH, FAILED_ROW, EnsureResources(FAILED_ROW), two, []);
    next := OneMoves(next, SMOOTH, FAILED_ROW, BuildTransfer(FAILED_ROW, READY, READINGS), two, []);
  }

  lemma SignsTheFailedRow(actions: seq<Action>) returns (next: seq<Action>)
    requires Reaches(actions, FAILED_ROW, Select(AfterReserve), Select(Finish), [])
    ensures actions <= next
    ensures Reaches(next, SIGNED_ROW, Select(AfterSigned(JOB)), Select(Finish), [])
  {
    hide Do, Reaches, Apply;
    var two := Select(Finish);
    next := PreparesTheFailedRow(actions);
    next := OneWrites(next, SMOOTH, Pending(FAILED_ROW, Sign(TX), AfterSigned(JOB), ON_CONFLICT),
                      FAILED_ROW, SignedWrite(FAILED_ROW, JOB), two, []);
  }

  lemma BroadcastsTheSignedRow(actions: seq<Action>) returns (next: seq<Action>)
    requires Reaches(actions, SIGNED_ROW, Select(AfterSigned(JOB)), Select(Finish), [])
    ensures actions <= next
    ensures
      var job := JOB;
      Reaches(next, BROADCASTING_ROW, AwaitResult(BROADCASTING_ROW, job), Select(Finish), [Sent(1, job)])
  {
    hide Do, Reaches, Apply;
    var job, two := JOB, Select(Finish);
    next := OneMoves(actions, SMOOTH, SIGNED_ROW, Select(AfterSigned(job)), two, []);
    next := OneWrites(next, SMOOTH, Pending(SIGNED_ROW, StartBroadcast(0), AfterBroadcasting(job), ON_CONFLICT),
                      SIGNED_ROW, BroadcastingWrite(SIGNED_ROW, job), two, []);
    next := OneMoves(next, SMOOTH, BROADCASTING_ROW, Select(AfterBroadcasting(job)), two, []);
    next := OneBroadcasts(next, BROADCASTING_ROW, job, two);
  }

  /** FAILED_PRE_BROADCAST is not final when the SELECT after an UPDATE is a step of its own. */
  lemma FailedExecutionCanBroadcast() returns (before: seq<Action>, after: seq<Action>)
    ensures
      var s := Run(INIT, before);
      s.row.Some? && s.row.value.state.FailedPreBroadcast? && s.broadcasts == []
    ensures |Run(INIT, before + after).broadcasts| == 1
  {
    hide Do;
    before := FailsBehindWorkerOne();
    var signed := SignsTheFailedRow(before);
    var sent := BroadcastsTheSignedRow(signed);
    after := sent[|before|..];
    assert before + after == sent;
  }

  /** Worker 1 executes while worker 2 answers a status request. */
  lemma OneExecutesTwoPolls() returns (actions: seq<Action>)
    ensures Reaches(actions, NEW_ROW, ExecuteRead, StatusRead, [])
  {
    actions := OneSubmits();
    actions := Then(actions, Start(1, Execute));
    actions := Then(actions, Start(2, Status));
  }

  lemma OneTakesTheLease() returns (actions: seq<Action>)
    ensures Reaches(actions, SIGNING_ROW, LockedRead(Some(7)), StatusRead, [])
  {
    RowFacts();
    hide Do, Reaches, Apply;
    var two := StatusRead;
    actions := OneExecutesTwoPolls();
    actions := OneMoves(actions, SMOOTH, NEW_ROW, ExecuteRead, two, []);
    actions := OneWrites(actions, SMOOTH, Pending(NEW_ROW, Validate, AfterValidate, Done),
                         NEW_ROW, ValidateWrite(NEW_ROW), two, []);
    actions := OneMoves(actions, SMOOTH, VALIDATED_ROW, Select(AfterValidate), two, []);
    actions := OneWrites(actions, SMOOTH, Pending(VALIDATED_ROW, StartSigning(7, 300), AfterSigning, Done),
                         VALIDATED_ROW, SigningWrite(VALIDATED_ROW), two, []);
    actions := OneMoves(actions, SMOOTH, SIGNING_ROW, Select(AfterSigning), two, []);
  }

  /** Worker 1 stores its evidence and has yet to read its row back. */
  lemma OneSigns() returns (actions: seq<Action>)
    ensures Reaches(actions, EVIDENT_ROW, Select(AfterSigned(JOB)), StatusRead, [])
  {
    SmoothIsAllowed();
    RowFacts();
    hide Do, Reaches, ResourceContract, Apply;
    var two := StatusRead;
    actions := OneTakesTheLease();
    actions := OneMoves(actions, SMOOTH, SIGNING_ROW, LockedRead(Some(7)), two, []);
    actions := OneWrites(actions, SMOOTH, Pending(SIGNING_ROW, Reserve(Some(7)), AfterReserve, ON_CONFLICT),
                         SIGNING_ROW, ReserveWrite(SIGNING_ROW), two, []);
    actions := OneMoves(actions, SMOOTH, RESERVED_ROW, Select(AfterReserve), two, []);
    actions := OneMoves(actions, SMOOTH, RESERVED_ROW, EnsureResources(RESERVED_ROW), two, []);
    actions := OneMoves(actions, SMOOTH, RESERVED_ROW, BuildTransfer(RESERVED_ROW, READY, READINGS), two, []);
    actions := OneWrites(actions, SMOOTH, Pending(RESERVED_ROW, Sign(TX), AfterSigned(JOB), ON_CONFLICT),
                         RESERVED_ROW, SignedWrite(RESERVED_ROW, JOB), two, []);
  }

  /** The status poll finds the lease over and hands the signed row to reconciliation. */
  lemma TwoReconciles() returns (actions: seq<Action>)
    ensures Reaches(actions, RECONCILED_ROW, Select(AfterSigned(JOB)), Select(AfterRecovery(ByStatus)), [])
  {
    RowFacts();
    hide Do, Reaches, Apply;
    var one := Select(AfterSigned(JOB));
    actions := OneSigns();
    actions := TwoMoves(actions, LATE, EVIDENT_ROW, one, StatusRead, []);
    actions := TwoMoves(actions, LATE, EVIDENT_ROW, one, RecoverRead(ByStatus), []);
    actions := TwoWrites(actions, LATE, Pending(EVIDENT_ROW, Reconcile, AfterRecovery(ByStatus), StatusReread),
                         EVIDENT_ROW, one, RecoverWrite(ByStatus, EVIDENT_ROW), []);
  }

  lemma OneBroadcastsTheReconciledRow(actions: seq<Action>) returns (next: seq<Action>)
    requires Reaches(actions, RECONCILED_ROW, Select(AfterSigned(JOB)), Select(AfterRecovery(ByStatus)), [])
    ensures actions <= next
    ensures Reaches(next, RESUMED_ROW, AwaitResult(RESUMED_ROW, JOB), Select(AfterRecovery(ByStatus)), [Sent(1, JOB)])
  {
    hide Do, Reaches, Apply;
    var two := Select(AfterRecovery(ByStatus));
    next := OneMoves(actions, SMOOTH, RECONCILED_ROW, Select(AfterSigned(JOB)), two, []);
    next := OneWrites(next, SMOOTH, Pending(RECONCILED_ROW, StartBroadcast(0), AfterBroadcasting(JOB), ON_CONFLICT),
                      RECONCILED_ROW, BroadcastingWrite(RECONCILED_ROW, JOB), two, []);
    next := OneMoves(next, SMOOTH, RESUMED_ROW, Select(AfterBroadcasting(JOB)), two, []);
    next := OneBroadcasts(next, RESUMED_ROW, JOB, two);
  }

  /** Nor is RECONCILIATION_REQUIRED, and then the flag is up outside it: one status poll after the lease is
      over, between a signer's UPDATE and its SELECT, is enough. */
  lemma ReconciledExecutionCanBroadcast() returns (before: seq<Action>, after: seq<Action>)
    ensures
      var s := Run(INIT, before);
      s.row.Some? && s.row.value.state.ReconciliationRequired? && s.broadcasts == []
    ensures
      var s := Run(INIT, before + after);
      && |s.broadcasts| == 1
      && s.row.Some? && s.row.value.state.Broadcasting? && s.row.value.reconciliationRequired
  {
    RowFacts();
    hide Do, Apply;
    before := TwoReconciles();
    var sent := OneBroadcastsTheReconciledRow(before);
    after := sent[|before|..];
    assert before + after == sent;
  }
}
