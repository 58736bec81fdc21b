/** The same system when each UPDATE and the SELECT after it are one step, as they are under a
    database that lets no other writer in between; and what is lost when they are not. */
module ExecutionCoarse {
  import opened Options
  import opened Failures
  import opened Resources
  import opened ExecutionRows
  import opened ExecutionProtocol
  import opened ExecutionSafety
  import opened ExecutionTheorems

  /** A step of the fine-grained system, followed at once by the SELECT it may have left pending. */
  ghost function CoarseDo(s: System, a: Action): System {
    var s' := Do(s, a);
    if Allowed(s, a) && a.Go? && s'.workers[a.worker].Select? then Step(s', a.worker, a.env) else s'
  }

  ghost function CoarseRun(s: System, actions: seq<Action>): System {
    if actions == [] then s else CoarseDo(CoarseRun(s, actions[..|actions| - 1]), actions[|actions| - 1])
  }

  /** Every coarse run is a fine one, so all the fine-grained theorems hold of it too. */
  lemma {:induction false} CoarseRunIsRun(actions: seq<Action>) returns (fine: seq<Action>)
    ensures CoarseRun(INIT, actions) == Run(INIT, fine)
  {
    if actions == [] {
      fine := [];
    } else {
      var prefix := CoarseRunIsRun(actions[..|actions| - 1]);
      var a := actions[|actions| - 1];
      var s := Run(INIT, prefix);
      fine := prefix + [a];
      assert fine[..|fine| - 1] == prefix;
      if Allowed(s, a) && a.Go? && Do(s, a).workers[a.worker].Select? {
        var both := fine + [a];
        assert both[..|both| - 1] == fine;
        fine := both;
      }
    }
  }

  predicate SettledRow(row: Row) {
    && (row.reconciliationRequired <==> row.state.ReconciliationRequired?)
    && (row.state.Signed? || row.state.Broadcasting? ==> row.reservation.Some?)
    && (row.signedHash.Some? ==> !row.state.Received? && !row.state.Validated? && !row.state.Signing?)
    && (row.state.Signed? ==> !row.txidVerified)
  }

  predicate SettledWorker(pc: Pc) {
    match pc
    case Select(_) => false
    case ReserveWrite(snapshot) => snapshot.state.Signing?
    case EnsureResources(snapshot) => snapshot.state.Signing? && snapshot.reservation.Some?
    case BuildTransfer(snapshot, _, _) => snapshot.state.Signing? && snapshot.reservation.Some?
    case SignedWrite(snapshot, _) => snapshot.state.Signing? && snapshot.reservation.Some?
    case BroadcastingWrite(snapshot, _) => snapshot.state.Signed?
    case Broadcast(snapshot, _) => snapshot.state.Broadcasting? && !snapshot.txidVerified
    case AwaitResult(snapshot, _) => snapshot.state.Broadcasting? && !snapshot.txidVerified
    case VerifyWrite(snapshot, _) => snapshot.state.Broadcasting? && !snapshot.txidVerified
    case BroadcastedWrite(snapshot, _) => snapshot.state.Broadcasting? && snapshot.txidVerified
    case _ => true
  }

  ghost predicate CoarseInv(s: System) {
    && Inv(s)
    && (s.row.Some? ==> SettledRow(s.row.value))
    && forall w :: w in s.workers ==> SettledWorker(s.workers[w])
  }

  lemma CoarseDoKeepsInv(s: System, a: Action)
    requires Inv(s)
    ensures Inv(CoarseDo(s, a))
  {
    DoKeepsInv(s, a);
    if CoarseDo(s, a) != Do(s, a) {
      StepKeepsInv(Do(s, a), a.worker, a.env);
    }
  }

  /** What one successful UPDATE does to a settled row. */
  lemma SettledUpdate(s: System, w: WorkerId, e: Env, pending: Pending)
    requires CoarseInv(s) && w in s.workers
    requires PendingUpdate(s.workers[w], e) == Some(pending) && Swaps(s.row, pending.snapshot)
    ensures SettledRow(Apply(pending.u, s.row.value))
    ensures Advances(s.row.value, Apply(pending.u, s.row.value))
  {
    UpdatesFit(s, w, e, pending);
    SettledWrites(s.workers[w], e, pending);
    assert SettledRow(s.row.value) && RowInv(s);
    hide Inv, CoarseInv, PendingUpdate, SettledRow, Apply;
    FittingAdvances(pending.u, s.row.value);
  }

  /** What a settled worker's UPDATE adds to what every UPDATE meets. */
  predicate FitsSettled(u: Update, row: Row) {
    && (u.Sign? ==> row.state.Signing? && row.reservation.Some?)
    && (u.StartBroadcast? ==> row.state.Signed?)
    && (u.VerifyBroadcast? ==> row.state.Broadcasting? && !row.txidVerified)
    && (u.FinishBroadcast? ==> row.state.Broadcasting? && row.txidVerified)
  }

  lemma SettledWrites(pc: Pc, e: Env, p: Pending)
    requires SettledWorker(pc) && PendingUpdate(pc, e) == Some(p)
    ensures FitsSettled(p.u, p.snapshot)
  {
  }

  lemma FittingAdvances(u: Update, row: Row)
    requires SettledRow(row) && Fits(u, row) && FitsSettled(u, row)
    requires row.signedRef == row.signedHash
    requires row.state.Signed? || row.state.Broadcasting? || row.state.ReconciliationRequired? ==> row.signedHash.Some?
    ensures SettledRow(Apply(u, row)) && Advances(row, Apply(u, row))
  {
  }

  /** How many transitions a row with signing evidence can still make. */
  function Remaining(row: Row): nat {
    match row.state
    case Signed => 5
    case Broadcasting => if row.txidVerified then 3 else 4
    case Broadcasted => 2
    case Confirming => 1
    case _ => 0
  }

  /** The moves an UPDATE makes: the two failure states are never left, and a signed row comes
      nearer its end. */
  ghost predicate Advances(row: Row, next: Row) {
    && !row.state.FailedPreBroadcast?
    && !row.state.ReconciliationRequired?
    && Follows(row.state, next.state)
    && (row.signedHash.Some? ==> next.signedHash.Some? && Remaining(next) < Remaining(row))
    && next.stateVersion == row.stateVersion + 1
  }

  lemma WriteResumes(pc: Pc, e: Env, pending: Pending, row: Row)
    requires SettledWorker(pc) && PendingUpdate(pc, e) == Some(pending) && pending.snapshot == row && SettledRow(row)
    ensures SettledWorker(Resumed(pending.resume, Apply(pending.u, row)))
  {
  }

  lemma SelectResumes(row: Row, resume: Resume, e: Env)
    ensures PendingUpdate(Select(resume), e).None?
    ensures NextPc(Some(row), Select(resume), e) == Resumed(resume, row)
  {
  }

  lemma CoarseWriteSettles(s: System, w: WorkerId, e: Env, pending: Pending)
    requires CoarseInv(s) && w in s.workers
    requires PendingUpdate(s.workers[w], e) == Some(pending) && Swaps(s.row, pending.snapshot)
    ensures
      var s' := Step(s, w, e);
      s'.workers[w].Select? && SettledWorker(Step(s', w, e).workers[w])
  {
    assert WorkerInv(s, w, s.workers[w]) && SettledWorker(s.workers[w]);
    assert pending.snapshot == s.row.value;
    WriteResumes(s.workers[w], e, pending, s.row.value);
    SelectResumes(Apply(pending.u, s.row.value), pending.resume, e);
    hide Inv, CoarseInv, SettledWorker, Resumed, Apply, NextPc, PendingUpdate;
  }

  lemma ConflictSettles(pc: Pc, e: Env)
    requires PendingUpdate(pc, e).Some?
    ensures SettledWorker(PendingUpdate(pc, e).value.conflict)
  {
  }

  lemma NextSettles(row: Option<Row>, pc: Pc, e: Env)
    requires SettledWorker(pc) && PendingUpdate(pc, e).None? && (row.Some? ==> SettledRow(row.value))
    requires row.Some? && (row.value.state.Signed? || row.value.state.Broadcasting?) ==> row.value.signedHash.Some?
    ensures SettledWorker(NextPc(row, pc, e))
  {
  }

  lemma CoarseMoveSettles(s: System, w: WorkerId, e: Env)
    requires CoarseInv(s) && w in s.workers
    requires
      var pending := PendingUpdate(s.workers[w], e);
      pending.None? || !Swaps(s.row, pending.value.snapshot)
    ensures SettledWorker(Step(s, w, e).workers[w])
  {
    assert RowInv(s);
    hide PendingUpdate, NextPc, SettledWorker, SettledRow, Inv;
    if PendingUpdate(s.workers[w], e).Some? {
      ConflictSettles(s.workers[w], e);
    } else {
      NextSettles(s.row, s.workers[w], e);
    }
  }

  /** One worker's step, UPDATE and SELECT together. */
  lemma CoarseGoSettles(s: System, w: WorkerId, e: Env)
    requires CoarseInv(s) && w in s.workers
    ensures
      var s1 := Step(s, w, e);
      var s' := if s1.workers[w].Select? then Step(s1, w, e) else s1;
      && SettledWorker(s'.workers[w])
      && s'.workers == s.workers[w := s'.workers[w]]
      && (s'.row == s.row
          || (s.row.None? && s'.row == Some(NEW_ROW))
          || (s.row.Some? && s'.row.Some? && SettledRow(s'.row.value) && Advances(s.row.value, s'.row.value)))
  {
    hide NextPc, Apply, SettledRow, Advances, CoarseInv;
    var pending := PendingUpdate(s.workers[w], e);
    if pending.Some? && Swaps(s.row, pending.value.snapshot) {
      SettledUpdate(s, w, e, pending.value);
      CoarseWriteSettles(s, w, e, pending.value);
    } else {
      CoarseMoveSettles(s, w, e);
    }
  }

  /** Any action but a worker's own step leaves the row and puts the worker somewhere settled. */
  lemma OtherActionsSettle(s: System, a: Action)
    requires CoarseInv(s) && !a.Go?
    ensures CoarseDo(s, a) == Do(s, a) && Do(s, a).row == s.row
    ensures forall w :: w in Do(s, a).workers ==> SettledWorker(Do(s, a).workers[w])
  {
    hide Inv, SettledRow, LogOf, ResourceContract;
  }

  lemma GoSettles(s: System, w: WorkerId, e: Env)
    requires CoarseInv(s) && Allowed(s, Go(w, e))
    ensures
      var s' := CoarseDo(s, Go(w, e));
      && (forall v :: v in s'.workers ==> SettledWorker(s'.workers[v]))
      && (s'.row == s.row
          || (s.row.None? && s'.row == Some(NEW_ROW))
          || (s.row.Some? && s'.row.Some? && SettledRow(s'.row.value) && Advances(s.row.value, s'.row.value)))
  {
    CoarseGoSettles(s, w, e);
    hide Inv, Step, SettledRow, SettledWorker, Advances, ResourceContract;
  }

  lemma CoarseDoSettles(s: System, a: Action)
    requires CoarseInv(s)
    ensures CoarseInv(CoarseDo(s, a))
    ensures CoarseDo(s, a).row == s.row
            || (s.row.None? && CoarseDo(s, a).row == Some(NEW_ROW))
            || (s.row.Some? && CoarseDo(s, a).row.Some? && Advances(s.row.value, CoarseDo(s, a).row.value))
  {
    CoarseDoKeepsInv(s, a);
    if !Allowed(s, a) {
      assert CoarseDo(s, a) == s;
    } else if a.Go? {
      GoSettles(s, a.worker, a.env);
    } else {
      OtherActionsSettle(s, a);
    }
    NewRowIsSettled();
    hide Inv, CoarseDo, Do, SettledRow, SettledWorker, Advances, Allowed;
  }

  lemma NewRowIsSettled()
    ensures SettledRow(NEW_ROW)
  {
  }

  lemma {:induction false} CoarseReachable(actions: seq<Action>)
    ensures CoarseInv(CoarseRun(INIT, actions))
  {
    hide CoarseDo;
    if actions != [] {
      CoarseReachable(actions[..|actions| - 1]);
      CoarseDoSettles(CoarseRun(INIT, actions[..|actions| - 1]), actions[|actions| - 1]);
    }
  }

  /** FAILED_PRE_BROADCAST and RECONCILIATION_REQUIRED are final. */
  lemma {:induction false} FailureStatesAbsorb(before: seq<Action>, after: seq<Action>)
    ensures
      var s, s' := CoarseRun(INIT, before), CoarseRun(INIT, before + after);
      s.row.Some? && (s.row.value.state.FailedPreBroadcast? || s.row.value.state.ReconciliationRequired?)
      ==> s'.row == s.row
  {
    hide CoarseDo, CoarseInv;
    if after == [] {
      assert before + after == before;
    } else {
      var earlier := after[..|after| - 1];
      FailureStatesAbsorb(before, earlier);
      CoarseReachable(before + earlier);
      CoarseDoSettles(CoarseRun(INIT, before + earlier), after[|after| - 1]);
      assert (before + after)[..|before + after| - 1] == before + earlier;
    }
  }

  /** The reconciliation flag is up in RECONCILIATION_REQUIRED and nowhere else. */
  lemma ReconciliationFlagIsExact(actions: seq<Action>)
    ensures
      var s := CoarseRun(INIT, actions);
      s.row.Some? ==> (s.row.value.reconciliationRequired <==> s.row.value.state.ReconciliationRequired?)
  {
    CoarseReachable(actions);
  }

  /** Version and remaining transitions together never grow once a row is signed. */
  ghost predicate NearsEnd(s: System, s': System) {
    s.row.Some? && s.row.value.signedHash.Some? ==>
      && s'.row.Some? && s'.row.value.signedHash.Some?
      && s'.row.value.stateVersion + Remaining(s'.row.value) <= s.row.value.stateVersion + Remaining(s.row.value)
  }

  lemma CoarseDoNearsEnd(s: System, a: Action)
    requires CoarseInv(s)
    ensures NearsEnd(s, CoarseDo(s, a))
  {
    CoarseDoSettles(s, a);
  }

  lemma {:induction false} SignedRowNearsEnd(before: seq<Action>, after: seq<Action>)
    ensures NearsEnd(CoarseRun(INIT, before), CoarseRun(INIT, before + after))
  {
    hide CoarseDo, CoarseInv;
    if after == [] {
      assert before + after == before;
    } else {
      var earlier := after[..|after| - 1];
      SignedRowNearsEnd(before, earlier);
      CoarseReachable(before + earlier);
      CoarseDoNearsEnd(CoarseRun(INIT, before + earlier), after[|after| - 1]);
      assert (before + after)[..|before + after| - 1] == before + earlier;
    }
  }

  /** At most five transitions follow the one into SIGNED. */
  lemma FewTransitionsAfterSigning(before: seq<Action>, after: seq<Action>)
    requires
      var s := CoarseRun(INIT, before);
      s.row.Some? && s.row.value.state.Signed?
    ensures
      var s, s' := CoarseRun(INIT, before), CoarseRun(INIT, before + after);
      s'.row.Some? && s.row.value.stateVersion <= s'.row.value.stateVersion <= s.row.value.stateVersion + 5
  {
    CoarseReachable(before);
    SignedRowNearsEnd(before, after);
    VersionsGrow(before, after);
  }

  ghost predicate GrowsVersion(s: System, s': System) {
    s.row.Some? ==> s'.row.Some? && s.row.value.stateVersion <= s'.row.value.stateVersion
  }

  lemma CoarseDoGrowsVersion(s: System, a: Action)
    requires CoarseInv(s)
    ensures GrowsVersion(s, CoarseDo(s, a))
  {
    CoarseDoSettles(s, a);
  }

  lemma {:induction false} VersionsGrow(before: seq<Action>, after: seq<Action>)
    ensures GrowsVersion(CoarseRun(INIT, before), CoarseRun(INIT, before + after))
  {
    hide CoarseDo, CoarseInv;
    if after == [] {
      assert before + after == before;
    } else {
      var earlier := after[..|after| - 1];
      VersionsGrow(before, earlier);
      CoarseReachable(before + earlier);
      CoarseDoGrowsVersion(CoarseRun(INIT, before + earlier), after[|after| - 1]);
      assert (before + after)[..|before + after| - 1] == before + earlier;
    }
  }

  /** With the SELECT on its own, exactly one kind of step moves a row out of FAILED_PRE_BROADCAST: a
      signing write by a worker whose SELECT after reserving returned that very row. */
  lemma FailedRowMoves(actions: seq<Action>, a: Action)
    requires
      var s := Run(INIT, actions);
      s.row.Some? && s.row.value.state.FailedPreBroadcast?
    ensures
      var s := Run(INIT, actions);
      Do(s, a).row != s.row <==>
        && a.Go? && a.worker in s.workers && s.workers[a.worker].SignedWrite?
        && s.workers[a.worker].snapshot == s.row.value
  {
    ReachableInv(actions);
    var s := Run(INIT, actions);
    if a.worker in s.workers {
      assert WorkerInv(s, a.worker, s.workers[a.worker]);
    }
  }

  /** And exactly one worker can write to a row in RECONCILIATION_REQUIRED: its signer, when the SELECT after
      one of its own writes returned that very row. */
  lemma ReconciledRowMoves(actions: seq<Action>, a: Action)
    requires
      var s := Run(INIT, actions);
      s.row.Some? && s.row.value.state.ReconciliationRequired?
    ensures
      var s := Run(INIT, actions);
      Do(s, a).row != s.row <==>
        && a.Go? && a.worker in s.workers && s.signer == Some(a.worker)
        && match s.workers[a.worker]
           case BroadcastingWrite(snapshot, _) => snapshot == s.row.value
           case VerifyWrite(snapshot, _) => snapshot == s.row.value
           case BroadcastedWrite(snapshot, _) => snapshot == s.row.value
           case _ => false
  {
    ReachableInv(actions);
    var s := Run(INIT, actions);
    if a.worker in s.workers {
      assert WorkerInv(s, a.worker, s.workers[a.worker]);
    }
  }

  /** The reconciliation flag says what the state says. */
  predicate FlagIsExact(s: System) {
    s.row.Some? ==> (s.row.value.reconciliationRequired <==> s.row.value.state.ReconciliationRequired?)
  }

  /** Worker `w` stands at a write on the very row that is stored. */
  predicate AtBroadcastingWrite(s: System, w: WorkerId) {
    && w in s.workers && s.workers[w].BroadcastingWrite?
    && s.row == Some(s.workers[w].snapshot)
  }

  predicate AtBroadcastedWrite(s: System, w: WorkerId) {
    && w in s.workers && s.workers[w].BroadcastedWrite?
    && s.row == Some(s.workers[w].snapshot)
  }

  /** What a successful UPDATE does to a row whose flag is exact. */
  lemma UpdateOnExactRow(s: System, w: WorkerId, e: Env, p: Pending)
    requires Inv(s) && w in s.workers && PendingUpdate(s.workers[w], e) == Some(p)
    requires Swaps(s.row, p.snapshot) && FlagIsExact(s)
    ensures
      var row, next := s.row.value, Apply(p.u, s.row.value);
      && p.snapshot == row
      && ((next.reconciliationRequired <==> next.state.ReconciliationRequired?)
          <==> !(row.state.ReconciliationRequired? && s.workers[w].BroadcastingWrite?))
  {
    UpdatesFit(s, w, e, p);
    UpdateNamesWriter(s.workers[w], e, p);
    assert RowInv(s);
    hide Inv, PendingUpdate;
  }

  lemma UpdateNamesWriter(pc: Pc, e: Env, p: Pending)
    requires PendingUpdate(pc, e) == Some(p)
    ensures p.u.StartBroadcast? <==> pc.BroadcastingWrite?
    ensures p.u.FinishBroadcast? <==> pc.BroadcastedWrite?
  {
  }

  /** With the SELECT on its own, an exact flag is broken by exactly one kind of step: the write that marks a
      broadcast attempt on a row in RECONCILIATION_REQUIRED which the writer has read back. */
  lemma FlagBreaks(actions: seq<Action>, a: Action)
    requires FlagIsExact(Run(INIT, actions))
    ensures
      var s := Run(INIT, actions);
      !FlagIsExact(Do(s, a)) <==>
        && s.row.Some? && s.row.value.state.ReconciliationRequired?
        && a.Go? && AtBroadcastingWrite(s, a.worker)
  {
    ReachableInv(actions);
    var s := Run(INIT, actions);
    if Allowed(s, a) && a.Go? {
      var p := PendingUpdate(s.workers[a.worker], a.env);
      if p.Some? && Swaps(s.row, p.value.snapshot) {
        UpdateOnExactRow(s, a.worker, a.env, p.value);
      }
    }
    hide Inv, NextPc, Apply, ResourceContract;
  }

  /** A row leaves RECONCILIATION_REQUIRED by exactly two kinds of step: that write, and the one that records
      the broadcast, each on the very row that is stored. */
  lemma ReconciledRowLeaves(actions: seq<Action>, a: Action)
    requires
      var s := Run(INIT, actions);
      s.row.Some? && s.row.value.state.ReconciliationRequired?
    ensures
      var s := Run(INIT, actions);
      && Do(s, a).row.Some?
      && (!Do(s, a).row.value.state.ReconciliationRequired? <==>
            a.Go? && (AtBroadcastingWrite(s, a.worker) || AtBroadcastedWrite(s, a.worker)))
  {
    ReachableInv(actions);
    var s := Run(INIT, actions);
    if Allowed(s, a) && a.Go? {
      var p := PendingUpdate(s.workers[a.worker], a.env);
      if p.Some? && Swaps(s.row, p.value.snapshot) {
        UpdateOnReconciledRow(s, a.worker, a.env, p.value);
      }
    }
    hide Inv, NextPc, Apply, ResourceContract;
  }

  lemma UpdateOnReconciledRow(s: System, w: WorkerId, e: Env, p: Pending)
    requires Inv(s) && w in s.workers && PendingUpdate(s.workers[w], e) == Some(p)
    requires Swaps(s.row, p.snapshot) && s.row.value.state.ReconciliationRequired?
    ensures p.snapshot == s.row.value
    ensures !Apply(p.u, s.row.value).state.ReconciliationRequired?
            <==> s.workers[w].BroadcastingWrite? || s.workers[w].BroadcastedWrite?
  {
    UpdatesFit(s, w, e, p);
    UpdateNamesWriter(s.workers[w], e, p);
    assert RowInv(s);
    hide Inv, PendingUpdate;
  }
}
