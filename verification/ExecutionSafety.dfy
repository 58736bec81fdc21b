/** What every interleaving keeps, with the SELECT after each UPDATE as a step of its own. */
module ExecutionSafety {
  import opened Options
  import opened Failures
  import opened Resources
  import opened ExecutionRows
  import opened ExecutionProtocol

  /** Between its signing write and the end of its call, how far a signer has got:
      1 signed, 2 marked as broadcasting, 3 broadcast issued; 0 for every other worker. */
  function SignerPhase(pc: Pc): nat {
    match pc
    case Select(AfterSigned(_)) => 1
    case BroadcastingWrite(_, _) => 1
    case Select(AfterBroadcasting(_)) => 2
    case Broadcast(_, _) => 2
    case AwaitResult(_, _) => 3
    case VerifyWrite(_, _) => 3
    case Select(AfterVerified(_)) => 3
    case BroadcastedWrite(_, _) => 3
    case _ => 0
  }

  function SignerJob(pc: Pc): Job
    requires SignerPhase(pc) > 0
  {
    match pc
    case Select(AfterSigned(job)) => job
    case BroadcastingWrite(_, job) => job
    case Select(AfterBroadcasting(job)) => job
    case Broadcast(_, job) => job
    case AwaitResult(_, job) => job
    case VerifyWrite(_, job) => job
    case Select(AfterVerified(job)) => job
    case BroadcastedWrite(_, job) => job
  }

  /** Only the failure handler, or nothing, is left to do. */
  predicate Ending(pc: Pc) {
    match pc
    case HandleRead(_, _) => true
    case HandleWrite(_, _, _) => true
    case Select(Finish) => true
    case Done => true
    case _ => false
  }

  /** A snapshot is a row that was stored at its version: it is never ahead of the stored row and
      equals it while the version has not moved. */
  predicate Faithful(s: System, snapshot: Row) {
    && s.row.Some?
    && snapshot.stateVersion <= s.row.value.stateVersion
    && (snapshot.stateVersion == s.row.value.stateVersion ==> snapshot == s.row.value)
  }

  ghost predicate SnapshotInv(s: System, pc: Pc) {
    match pc
    case RecoverWrite(_, snapshot) => Faithful(s, snapshot) && IsUnsafeState(snapshot.state)
    case ValidateWrite(snapshot) => Faithful(s, snapshot) && snapshot.state.Received?
    case SigningWrite(snapshot) => Faithful(s, snapshot) && snapshot.state.Validated?
    case ReserveWrite(snapshot) =>
      Faithful(s, snapshot) && IsUnsafeState(snapshot.state) && snapshot.reservation.None?
    case EnsureResources(snapshot) => Faithful(s, snapshot) && snapshot.signedHash.None?
    case BuildTransfer(snapshot, quote, log) =>
      Faithful(s, snapshot) && snapshot.signedHash.None? && Cleared(quote, log)
    case SignedWrite(snapshot, job) =>
      Faithful(s, snapshot) && snapshot.signedHash.None? && Cleared(job.quote, job.log)
    case BroadcastingWrite(snapshot, _) => Faithful(s, snapshot)
    case Broadcast(snapshot, _) => Faithful(s, snapshot)
    case AwaitResult(snapshot, _) => Faithful(s, snapshot)
    case VerifyWrite(snapshot, _) => Faithful(s, snapshot)
    case BroadcastedWrite(snapshot, _) => Faithful(s, snapshot)
    case HandleRead(exc, log) => IsRetryable(exc) ==> AllDelivered(log)
    case HandleWrite(snapshot, exc, log) =>
      Faithful(s, snapshot) && !IsNoDowngrade(snapshot.state) && (IsRetryable(exc) ==> AllDelivered(log))
    case RefreshRead(snapshot) => Faithful(s, snapshot)
    case RefreshWrite(snapshot, result) => Faithful(s, snapshot) && RefreshWrites(snapshot, result)
    case _ => true
  }

  /** States in which no evidence of a signed transfer may exist. */
  predicate IsClean(state: State) {
    state.Received? || state.Validated? || state.FailedPreBroadcast?
  }

  ghost predicate SignerInv(s: System, w: WorkerId, pc: Pc) {
    && (SignerPhase(pc) > 0 ==>
          && s.row.Some?
          && s.signer == Some(w)
          && s.row.value.signedHash == Some(SignerJob(pc).tx.hash)
          && s.row.value.txid == Some(SignerJob(pc).tx.txid)
          && Cleared(SignerJob(pc).quote, SignerJob(pc).log)
          && !IsOnChain(s.row.value.state)
          && (s.row.value.broadcastAttemptedAt.Some? <==> SignerPhase(pc) >= 2)
          && (s.broadcasts != [] <==> SignerPhase(pc) == 3))
    && (s.signer == Some(w) ==> SignerPhase(pc) > 0 || Ending(pc))
  }

  ghost predicate WorkerInv(s: System, w: WorkerId, pc: Pc) {
    SnapshotInv(s, pc) && SignerInv(s, w, pc)
  }

  ghost predicate RowInv(s: System) {
    match s.row
    case None => s.signer.None? && s.broadcasts == []
    case Some(r) =>
      && r.signedRef == r.signedHash
      && (r.signedHash.Some? <==> s.signer.Some?)
      && (r.txid.Some? <==> s.signer.Some?)
      && (r.broadcastAttemptedAt.Some? ==> s.signer.Some?)
      && (s.signer.Some? ==> s.signer.value in s.workers)
      && (IsClean(r.state) ==> s.signer.None?)
      && (IsOnChain(r.state) ==> s.broadcasts != [])
      && (r.state.Signed? || r.state.Broadcasting? || r.state.ReconciliationRequired? ==> s.signer.Some?)
      && |s.broadcasts| <= 1
      && (s.broadcasts != [] ==>
            && r.broadcastAttemptedAt.Some?
            && s.broadcasts[0].worker == s.signer.value
            && r.signedHash == Some(s.broadcasts[0].job.tx.hash)
            && r.txid == Some(s.broadcasts[0].job.tx.txid)
            && Cleared(s.broadcasts[0].job.quote, s.broadcasts[0].job.log))
  }

  ghost predicate Inv(s: System) {
    && RowInv(s)
    && forall w :: w in s.workers ==> WorkerInv(s, w, s.workers[w])
  }

  /** How a step of worker `w` may change what the other workers rely on. */
  ghost predicate Undisturbed(s: System, s': System, w: WorkerId) {
    && (s.row.Some? ==>
          && s'.row.Some?
          && (s'.row == s.row || s'.row.value.stateVersion > s.row.value.stateVersion))
    && (s'.signer == s.signer || (s.signer.None? && s'.signer == Some(w)))
    && (s.signer.Some? && s.row.Some? && s.signer != Some(w) ==>
          && s'.row.value.signedHash == s.row.value.signedHash
          && s'.row.value.txid == s.row.value.txid
          && s'.row.value.broadcastAttemptedAt == s.row.value.broadcastAttemptedAt
          && s'.broadcasts == s.broadcasts
          && (IsOnChain(s'.row.value.state) ==> IsOnChain(s.row.value.state)))
  }

  lemma OthersKeep(s: System, s': System, w: WorkerId, u: WorkerId, pc: Pc)
    requires Undisturbed(s, s', w) && u != w && WorkerInv(s, u, pc)
    ensures WorkerInv(s', u, pc)
  {
  }

  /** A step keeps the invariant when it keeps the row's part, its own worker's part, and does not
      disturb the others. */
  lemma KeptBy(s: System, s': System, w: WorkerId, pc: Pc)
    requires Inv(s) && Undisturbed(s, s', w)
    requires s'.workers == s.workers[w := pc]
    requires RowInv(s') && WorkerInv(s', w, pc)
    ensures Inv(s')
  {
    forall u | u in s'.workers
      ensures WorkerInv(s', u, s'.workers[u])
    {
      if u != w {
        OthersKeep(s, s', w, u, s.workers[u]);
      }
    }
  }

  /** `next` leaves the signing evidence of `row` alone and does not put it on chain if it was not. */
  predicate Benign(row: Row, next: Row) {
    && next.stateVersion > row.stateVersion
    && next.signedRef == row.signedRef && next.signedHash == row.signedHash && next.txid == row.txid
    && next.broadcastAttemptedAt == row.broadcastAttemptedAt
    && (IsClean(next.state) ==> IsClean(row.state) || row.signedHash.None?)
    && (IsOnChain(next.state) ==> IsOnChain(row.state))
    && (next.state.Signed? || next.state.Broadcasting? || next.state.ReconciliationRequired? ==>
          row.signedHash.Some?)
  }

  lemma BenignSwapKeepsInv(s: System, w: WorkerId, next: Row, resume: Resume)
    requires Inv(s) && w in s.workers && SignerPhase(s.workers[w]) == 0
    requires s.row.Some? && Benign(s.row.value, next)
    requires SignerPhase(Select(resume)) == 0
    requires s.signer == Some(w) ==> resume.Finish?
    ensures Inv(Goto(s, w, Select(resume)).(row := Some(next)))
  {
    var s' := Goto(s, w, Select(resume)).(row := Some(next));
    KeptBy(s, s', w, Select(resume));
  }

  /** Moving on without writing: only the worker's own part of the invariant is at stake. */
  lemma MoveKeepsInv(s: System, w: WorkerId, pc: Pc)
    requires Inv(s) && w in s.workers && WorkerInv(s, w, pc)
    ensures Inv(Goto(s, w, pc))
  {
    var s' := Goto(s, w, pc);
    assert WorkerInv(s', w, pc);
    KeptBy(s, s', w, pc);
  }

  lemma SignKeepsInv(s: System, w: WorkerId, next: Row, job: Job)
    requires Inv(s) && w in s.workers && s.row.Some? && s.signer.None?
    requires next == Apply(Sign(job.tx), s.row.value) && Cleared(job.quote, job.log)
    ensures Inv(Goto(s, w, Select(AfterSigned(job))).(row := Some(next), signer := Some(w)))
  {
    KeptBy(s, Goto(s, w, Select(AfterSigned(job))).(row := Some(next), signer := Some(w)), w,
           Select(AfterSigned(job)));
  }

  /** The signer's own later writes. */
  lemma SignerSwapKeepsInv(s: System, w: WorkerId, next: Row, resume: Resume)
    requires Inv(s) && w in s.workers && s.row.Some? && s.signer == Some(w)
    requires next.stateVersion > s.row.value.stateVersion && !IsClean(next.state)
    requires next.signedRef == s.row.value.signedRef && next.signedHash == s.row.value.signedHash
    requires next.txid == s.row.value.txid
    requires s.broadcasts != [] ==> next.broadcastAttemptedAt.Some?
    requires IsOnChain(next.state) ==> s.broadcasts != []
    requires
      var s' := Goto(s, w, Select(resume)).(row := Some(next));
      SignerInv(s', w, Select(resume))
    ensures Inv(Goto(s, w, Select(resume)).(row := Some(next)))
  {
    KeptBy(s, Goto(s, w, Select(resume)).(row := Some(next)), w, Select(resume));
  }

  predicate IsSignerWrite(pc: Pc) {
    pc.SignedWrite? || pc.BroadcastingWrite? || pc.VerifyWrite? || pc.BroadcastedWrite?
  }

  /** What the row is like that an UPDATE takes effect on. */
  predicate Fits(u: Update, row: Row) {
    match u
    case Validate => row.state.Received?
    case StartSigning(_, _) => row.state.Validated?
    case Reserve(_) => IsUnsafeState(row.state) && row.reservation.None?
    case Sign(_) => row.signedHash.None?
    case StartBroadcast(_) => row.signedHash.Some? && row.broadcastAttemptedAt.None? && !IsOnChain(row.state)
    case VerifyBroadcast(state) =>
      row.state == state && row.signedHash.Some? && row.broadcastAttemptedAt.Some? && !IsOnChain(row.state)
    case FinishBroadcast(txid, _) =>
      && row.txid == Some(txid) && row.signedHash.Some? && row.broadcastAttemptedAt.Some? && !IsOnChain(row.state)
    case Requeue(_) => !IsNoDowngrade(row.state) && !HasUnsafeSideEffect(row)
    case Reconcile => !IsNoDowngrade(row.state) && row.signedHash.Some?
    case FailPreBroadcast => !IsNoDowngrade(row.state) && !HasUnsafeSideEffect(row)
    case Chain(result, txid, _) => RefreshWrites(row, result) && txid == row.txid
  }

  /** Every UPDATE that takes effect meets the row its worker read, and that row fits it. */
  lemma UpdatesFit(s: System, w: WorkerId, e: Env, p: Pending)
    requires Inv(s) && w in s.workers && PendingUpdate(s.workers[w], e) == Some(p) && Swaps(s.row, p.snapshot)
    ensures p.snapshot == s.row.value && Fits(p.u, s.row.value)
  {
    if IsSignerWrite(s.workers[w]) {
      SignerUpdatesFit(s, w, e, p);
    } else {
      OtherUpdatesFit(s, w, e, p);
    }
  }

  lemma SignerUpdatesFit(s: System, w: WorkerId, e: Env, p: Pending)
    requires Inv(s) && w in s.workers && PendingUpdate(s.workers[w], e) == Some(p) && Swaps(s.row, p.snapshot)
    requires IsSignerWrite(s.workers[w])
    ensures p.snapshot == s.row.value && Fits(p.u, s.row.value)
  {
    assert WorkerInv(s, w, s.workers[w]);
    hide Inv, RowInv, Cleared, AllDelivered, ResourceContract, IsRetryable;
    assert p.snapshot == s.row.value;
  }

  lemma OtherUpdatesFit(s: System, w: WorkerId, e: Env, p: Pending)
    requires Inv(s) && w in s.workers && PendingUpdate(s.workers[w], e) == Some(p) && Swaps(s.row, p.snapshot)
    requires !IsSignerWrite(s.workers[w])
    ensures p.snapshot == s.row.value && Fits(p.u, s.row.value)
  {
    assert SnapshotInv(s, s.workers[w]) && RowInv(s) by {
      assert WorkerInv(s, w, s.workers[w]);
    }
    hide Inv, SignerInv, Cleared, AllDelivered, ResourceContract, IsRetryable;
    assert p.snapshot == s.row.value;
  }

  predicate IsSignerUpdate(u: Update) {
    u.Sign? || u.StartBroadcast? || u.VerifyBroadcast? || u.FinishBroadcast?
  }

  lemma FittingIsBenign(u: Update, row: Row)
    requires Fits(u, row) && !IsSignerUpdate(u)
    ensures Benign(row, Apply(u, row))
  {
  }

  lemma OtherUpdatesSignNothing(s: System, w: WorkerId, e: Env, p: Pending)
    requires Inv(s) && w in s.workers && PendingUpdate(s.workers[w], e) == Some(p)
    requires !IsSignerWrite(s.workers[w])
    ensures !IsSignerUpdate(p.u) && SignerPhase(Select(p.resume)) == 0 && (s.signer == Some(w) ==> p.resume.Finish?)
  {
    assert WorkerInv(s, w, s.workers[w]);
    hide Inv, SnapshotInv, RowInv;
  }

  lemma SignerWriteKeepsInv(s: System, w: WorkerId, e: Env, p: Pending)
    requires Inv(s) && w in s.workers && PendingUpdate(s.workers[w], e) == Some(p)
    requires Swaps(s.row, p.snapshot) && IsSignerWrite(s.workers[w])
    ensures Inv(Step(s, w, e))
  {
    hide Cleared, AllDelivered, IsRetryable, Fits;
    var pc := s.workers[w];
    var next := Apply(p.u, s.row.value);
    assert WorkerInv(s, w, pc);
    if pc.SignedWrite? {
      SignKeepsInv(s, w, next, pc.job);
    } else {
      SignerSwapKeepsInv(s, w, next, p.resume);
    }
  }

  lemma SwapKeepsInv(s: System, w: WorkerId, e: Env, p: Pending)
    requires Inv(s) && w in s.workers && PendingUpdate(s.workers[w], e) == Some(p)
    requires Swaps(s.row, p.snapshot)
    ensures Inv(Step(s, w, e))
  {
    hide Cleared, AllDelivered, IsRetryable, Fits;
    if IsSignerWrite(s.workers[w]) {
      SignerWriteKeepsInv(s, w, e, p);
    } else {
      hide Inv, SnapshotInv, SignerInv, RowInv, Apply;
      OtherUpdatesFit(s, w, e, p);
      OtherUpdatesSignNothing(s, w, e, p);
      FittingIsBenign(p.u, s.row.value);
      BenignSwapKeepsInv(s, w, Apply(p.u, s.row.value), p.resume);
    }
  }

  predicate IsPoller(pc: Pc) {
    pc.StatusRead? || pc.StatusReread? || pc.RefreshRead? || pc.SubmitRead? || pc.RecoverRead?
    || pc.ExecuteRead? || pc.ExecuteReread?
  }

  lemma PollerKeepsInv(s: System, w: WorkerId, e: Env)
    requires Inv(s) && w in s.workers && IsPoller(s.workers[w])
    ensures WorkerInv(s, w, NextPc(s.row, s.workers[w], e))
  {
    assert WorkerInv(s, w, s.workers[w]) && RowInv(s);
    hide Inv, Cleared, AllDelivered, IsRetryable;
  }

  lemma ResumeKeepsInv(s: System, w: WorkerId, e: Env)
    requires Inv(s) && w in s.workers && (s.workers[w].Select? || s.workers[w].LockedRead?)
    ensures WorkerInv(s, w, NextPc(s.row, s.workers[w], e))
  {
    assert WorkerInv(s, w, s.workers[w]) && RowInv(s);
    hide Inv, Cleared, AllDelivered, IsRetryable;
  }

  lemma WorkKeepsInv(s: System, w: WorkerId, e: Env)
    requires Inv(s) && w in s.workers
    requires s.workers[w].EnsureResources? ==> ResourceContract(e.outcome)
    requires
      var pc := s.workers[w];
      pc.EnsureResources? || pc.BuildTransfer? || pc.AwaitResult? || pc.HandleRead?
    ensures WorkerInv(s, w, NextPc(s.row, s.workers[w], e))
  {
    assert WorkerInv(s, w, s.workers[w]);
  }

  lemma NextPcKeepsInv(s: System, w: WorkerId, e: Env)
    requires Inv(s) && w in s.workers
    requires s.workers[w].EnsureResources? ==> ResourceContract(e.outcome)
    requires PendingUpdate(s.workers[w], e).None?
    requires !s.workers[w].Broadcast? && !s.workers[w].SubmitInsert?
    ensures WorkerInv(s, w, NextPc(s.row, s.workers[w], e))
  {
    var pc := s.workers[w];
    if IsPoller(pc) {
      PollerKeepsInv(s, w, e);
    } else if pc.Select? || pc.LockedRead? {
      ResumeKeepsInv(s, w, e);
    } else if !pc.Done? {
      WorkKeepsInv(s, w, e);
    } else {
      assert WorkerInv(s, w, pc);
    }
  }

  lemma InsertKeepsInv(s: System, w: WorkerId, e: Env)
    requires Inv(s) && w in s.workers && s.workers[w].SubmitInsert?
    ensures Inv(Step(s, w, e))
  {
    assert WorkerInv(s, w, s.workers[w]);
    var s' := Step(s, w, e);
    KeptBy(s, s', w, s'.workers[w]);
  }

  lemma BroadcastKeepsInv(s: System, w: WorkerId, e: Env)
    requires Inv(s) && w in s.workers && s.workers[w].Broadcast?
    ensures Inv(Step(s, w, e))
  {
    assert WorkerInv(s, w, s.workers[w]);
    var s' := Step(s, w, e);
    KeptBy(s, s', w, s'.workers[w]);
  }

  lemma StepKeepsInv(s: System, w: WorkerId, e: Env)
    requires Inv(s) && w in s.workers
    requires s.workers[w].EnsureResources? ==> ResourceContract(e.outcome)
    ensures Inv(Step(s, w, e))
  {
    hide Cleared, Fits, Apply;
    var pc := s.workers[w];
    assert WorkerInv(s, w, pc);
    var pending := PendingUpdate(pc, e);
    if pending.Some? {
      if Swaps(s.row, pending.value.snapshot) {
        SwapKeepsInv(s, w, e, pending.value);
      } else {
        MoveKeepsInv(s, w, pending.value.conflict);
      }
    } else if pc.SubmitInsert? {
      InsertKeepsInv(s, w, e);
    } else if pc.Broadcast? {
      BroadcastKeepsInv(s, w, e);
    } else {
      NextPcKeepsInv(s, w, e);
      MoveKeepsInv(s, w, NextPc(s.row, pc, e));
    }
  }

  /** Whatever a worker carries as its log was delivered, so an exception may hand it on. */
  lemma RaiseKeepsWorker(s: System, w: WorkerId, exc: Failure)
    requires Inv(s) && w in s.workers && InsideTry(s.workers[w])
    ensures WorkerInv(s, w, HandleRead(exc, LogOf(s.workers[w])))
  {
    assert WorkerInv(s, w, s.workers[w]);
    assert AllDelivered([]);
    hide Inv, RowInv, AllDelivered, IsRetryable;
  }

  lemma CrashKeepsWorker(s: System, w: WorkerId)
    requires Inv(s) && w in s.workers
    ensures WorkerInv(s, w, Done)
  {
    assert WorkerInv(s, w, s.workers[w]);
    hide Inv, RowInv, AllDelivered, IsRetryable, Cleared;
  }

  lemma DoKeepsInv(s: System, a: Action)
    requires Inv(s)
    ensures Inv(Do(s, a))
  {
    hide Cleared, AllDelivered, ResourceContract, Step, LogOf;
    if Allowed(s, a) {
      match a
      case Start(w, entry) =>
        KeptBy(s, Do(s, a), w, EntryPoint(entry));
      case Go(w, e) => StepKeepsInv(s, w, e);
      case Raise(w, exc) =>
        RaiseKeepsWorker(s, w, exc);
        MoveKeepsInv(s, w, HandleRead(exc, LogOf(s.workers[w])));
      case Crash(w) =>
        CrashKeepsWorker(s, w);
        MoveKeepsInv(s, w, Done);
    }
  }

  lemma {:induction false} RunKeepsInv(s: System, actions: seq<Action>)
    requires Inv(s)
    ensures Inv(Run(s, actions))
  {
    hide Do, Inv;
    if actions != [] {
      RunKeepsInv(s, actions[..|actions| - 1]);
      DoKeepsInv(Run(s, actions[..|actions| - 1]), actions[|actions| - 1]);
    }
  }
}
