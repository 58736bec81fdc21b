/** `execute` and `status` as code, statement by statement, amid other processes.  Every statement is shown
    to be the step the protocol machine has for it, so what is proved of all runs of the machine holds
    of the code. */
module ExecutionStore {
  import opened Options
  import opened Failures
  import opened Resources
  import opened ExecutionRows
  import opened ExecutionProtocol
  import opened ExecutionSafety
  import opened ExecutionTheorems
  import opened ExecutionOutcomes
  import Providers
  import Provisioning
  import PayoutResources

  datatype Outcome = Stored(row: Row) | Refused(failure: Failure)

  predicate Others(actions: seq<Action>, me: WorkerId) {
    forall a :: a in actions ==> a.worker != me
  }

  /** From `from` on, process `me` neither crashes nor skips: it takes the steps of its program. */
  predicate KeepsToProgram(trace: seq<Action>, from: nat, me: WorkerId) {
    forall i :: from <= i < |trace| && trace[i].worker == me ==> trace[i].Go?
  }

  lemma RunOn(trace: seq<Action>, a: Action)
    ensures Run(INIT, trace + [a]) == Do(Run(INIT, trace), a)
    ensures (trace + [a])[..|trace|] == trace
  {
    assert (trace + [a])[..|trace|] == trace;
  }

  /** Every transfer `me` has handed to the network is in `sent`. */
  predicate Knows(sent: seq<Job>, s: System, me: WorkerId) {
    forall b :: b in s.broadcasts && b.worker == me ==> b.job in sent
  }

  lemma OtherDoKeeps(s: System, a: Action, sent: seq<Job>, me: WorkerId)
    requires me in s.workers && a.worker != me
    ensures me in Do(s, a).workers && Do(s, a).workers[me] == s.workers[me]
    ensures s.row.Some? ==> Do(s, a).row.Some?
    ensures Knows(sent, s, me) ==> Knows(sent, Do(s, a), me)
  {
  }

  /** Steps of other processes leave `me` where it is and the row in the table. */
  lemma {:induction false} OthersLeave(trace: seq<Action>, others: seq<Action>, sent: seq<Job>, me: WorkerId)
    requires Others(others, me) && me in Run(INIT, trace).workers
    ensures
      var s, s' := Run(INIT, trace), Run(INIT, trace + others);
      && me in s'.workers && s'.workers[me] == s.workers[me]
      && (s.row.Some? ==> s'.row.Some?)
      && (Knows(sent, s, me) ==> Knows(sent, s', me))
      && s' == Run(s, others)
  {
    hide Do, Knows;
    if others == [] {
      assert trace + others == trace;
    } else {
      var earlier, a := others[..|others| - 1], others[|others| - 1];
      OthersLeave(trace, earlier, sent, me);
      assert trace + others == (trace + earlier) + [a];
      assert a in others;
      RunOn(trace + earlier, a);
      OtherDoKeeps(Run(INIT, trace + earlier), a, sent, me);
    }
  }

  /** A process that has not started yet has sent nothing. */
  lemma NewcomerSentNothing(trace: seq<Action>, me: WorkerId)
    requires me !in Run(INIT, trace).workers
    ensures forall b :: b in Run(INIT, trace).broadcasts ==> b.worker != me
  {
    ReachableInv(trace);
  }

  /** A version that still matches is a row that still matches. */
  lemma SwapFindsSnapshot(trace: seq<Action>, me: WorkerId, e: Env)
    requires
      var s := Run(INIT, trace);
      me in s.workers && PendingUpdate(s.workers[me], e).Some?
    ensures
      var s := Run(INIT, trace);
      var snapshot := PendingUpdate(s.workers[me], e).value.snapshot;
      Swaps(s.row, snapshot) ==> s.row == Some(snapshot)
  {
    ReachableInv(trace);
    var s := Run(INIT, trace);
    assert SnapshotInv(s, s.workers[me]) by {
      assert WorkerInv(s, me, s.workers[me]);
    }
    hide Inv, Run;
  }

  /** Process `me` turned the stored row `row` into `next`, at a step of `trace` from `from` on. */
  ghost predicate Wrote(trace: seq<Action>, from: nat, me: WorkerId, row: Row, next: Row) {
    exists i :: from <= i < |trace| && WroteAt(trace, i, me, row, next)
  }

  ghost predicate WroteAt(trace: seq<Action>, i: nat, me: WorkerId, row: Row, next: Row)
    requires i < |trace|
  {
    && trace[i].worker == me
    && Run(INIT, trace[..i]).row == Some(row) && Run(INIT, trace[..i + 1]).row == Some(next)
  }

  /** The write that ends `written` is one of every longer trace. */
  lemma WriteStays(
    written: seq<Action>, trace: seq<Action>, from: nat, me: WorkerId, row: Row, next: Row)
    requires from < |written| && written <= trace && written[|written| - 1].worker == me
    requires Run(INIT, written[..|written| - 1]).row == Some(row) && Run(INIT, written).row == Some(next)
    ensures Wrote(trace, from, me, row, next)
  {
    var i := |written| - 1;
    assert trace[..i] == written[..i] && trace[..i + 1] == written;
    assert WroteAt(trace, i, me, row, next);
  }

  lemma WroteLater(trace: seq<Action>, later: nat, from: nat, me: WorkerId, row: Row, next: Row)
    requires Wrote(trace, later, me, row, next) && from <= later
    ensures Wrote(trace, from, me, row, next)
  {
  }

  predicate IsRead(pc: Pc) {
    match pc
    case ExecuteRead => true
    case RecoverRead(_) => true
    case ExecuteReread => true
    case LockedRead(_) => true
    case HandleRead(_, _) => true
    case StatusRead => true
    case StatusReread => true
    case Select(_) => true
    case _ => false
  }

  lemma WritersOnlyWrite(pc: Pc, e: Env)
    requires PendingUpdate(pc, e).Some?
    ensures !pc.EnsureResources?
  {
  }

  /** One call by process `me`.  `system` is the stored row with the positions of all processes; the code
      reads only the row and keeps its own position for the record.  What the outside world answers, the
      clock included, is told anew at every statement. */
  class PayoutExecutionStore {
    const me: WorkerId
    const provisioner: Provisioning.Provisioner
    var system: System
    ghost var trace: seq<Action>
    ghost var sent: seq<Job>
    ghost const from: nat

    /** The system is where the machine is after `trace`, and this process has kept to its program. */
    ghost predicate Valid()
      reads this
    {
      && system == Run(INIT, trace) && me in system.workers
      && KeepsToProgram(trace, from, me)
      && Knows(sent, system, me)
      && Provisioning.ValidConfig(provisioner.config)
    }

    ghost function At(): Pc
      reads this
    {
      if me in system.workers then system.workers[me] else Done
    }

    /** A call starts on whatever the processes before it have left. */
    constructor (
      me: WorkerId, entry: Entry, provisioner: Provisioning.Provisioner,
      system: System, ghost before: seq<Action>)
      requires system == Run(INIT, before) && me !in system.workers
      requires Provisioning.ValidConfig(provisioner.config)
      ensures Valid() && At() == EntryPoint(entry) && this.system.row == system.row && sent == []
      ensures this.me == me && this.provisioner == provisioner
    {
      this.me, this.provisioner := me, provisioner;
      this.system := Goto(system, me, EntryPoint(entry));
      trace, from, sent := before + [Start(me, entry)], |before| + 1, [];
      new;
      NewcomerSentNothing(before, me);
      RunOn(before, Start(me, entry));
    }

    /** Any number of steps of other processes. */
    method Yield()
      requires Valid()
      modifies this`system, this`trace
      ensures Valid() && At() == old(At()) && (old(system.row).Some? ==> system.row.Some?)
      ensures old(trace) <= trace
    {
      hide Run, Do, Knows;
      var others: seq<Action> := *;
      if Others(others, me) {
        OthersLeave(trace, others, sent, me);
        system := Run(system, others);
        trace := trace + others;
      }
    }

    /** Record a step of this process that has just been made. */
    ghost method Record(e: Env, was: System)
      requires was == Run(INIT, trace) && me in was.workers && KeepsToProgram(trace, from, me)
      requires Provisioning.ValidConfig(provisioner.config)
      requires system == Do(was, Go(me, e)) && me in system.workers && Knows(sent, system, me)
      modifies this`trace
      ensures Valid() && trace == old(trace) + [Go(me, e)] && trace[..|trace| - 1] == old(trace)
    {
      RunOn(trace, Go(me, e));
      trace := trace + [Go(me, e)];
    }

    /** A SELECT of the row. */
    method SelectRow() returns (row: Option<Row>, e: Env)
      requires Valid() && IsRead(At())
      modifies this`system, this`trace
      ensures Valid() && row == system.row && old(trace) <= trace
      ensures At() == NextPc(row, old(At()), e)
      ensures old(system.row).Some? ==> row.Some?
    {
      hide Run, KeepsToProgram, NextPc;
      Yield();
      ghost var was := system;
      e := *;
      row := system.row;
      system := Goto(system, me, NextPc(row, system.workers[me], e));
      Record(e, was);
    }

    /** The answer of the wallet or of the network, without touching the table. */
    method Answer() returns (e: Env)
      requires Valid() && (At().BuildTransfer? || At().AwaitResult?)
      modifies this`system, this`trace
      ensures Valid() && old(trace) <= trace && system.row == old(system.row)
      ensures At() == NextPc(system.row, old(At()), e)
    {
      hide Run, KeepsToProgram, NextPc;
      ghost var was := system;
      e := *;
      system := Goto(system, me, NextPc(system.row, system.workers[me], e));
      Record(e, was);
    }

    /** The state the chain check comes back with; one that raises counts as CONFIRMING. */
    method CheckChain() returns (result: State)
      requires Valid() && At().RefreshRead?
      modifies this`system, this`trace
      ensures Valid() && old(trace) <= trace && system.row == old(system.row)
      ensures result.Confirming? || result.Confirmed? || result.FailedChainTerminal?
      ensures
        var row := old(At()).snapshot;
        At() == if RefreshWrites(row, result) then RefreshWrite(row, result) else Done
    {
      hide Run, KeepsToProgram;
      ghost var was := system;
      var e: Env := *;
      if !e.chain.Confirmed? && !e.chain.FailedChainTerminal? {
        e := e.(chain := Confirming);
      }
      result := e.chain;
      system := Goto(system, me, NextPc(system.row, system.workers[me], e));
      Record(e, was);
    }

    /** Take in the outcome of the resource step. */
    method TakeOutcome(outcome: ResourceOutcome)
      requires Valid() && At().EnsureResources? && ResourceContract(outcome)
      modifies this`system, this`trace
      ensures Valid() && old(trace) <= trace && system.row == old(system.row)
      ensures
        var row := old(At()).snapshot;
        At() == match outcome
                case Prepared(quote, log) => BuildTransfer(row, quote, log)
                case Unprepared(failure, log) => HandleRead(failure, log)
    {
      hide Run, KeepsToProgram, ResourceContract;
      ghost var was := system;
      var e: Env := *;
      e := e.(outcome := outcome);
      system := Goto(system, me, NextPc(system.row, system.workers[me], e));
      Record(e, was);
    }

    /** Hand a signed transfer to the network. */
    method Send(job: Job)
      requires Valid() && At().Broadcast? && At().job == job
      modifies this`system, this`trace, this`sent
      ensures Valid() && old(trace) <= trace && system.row == old(system.row)
      ensures At() == AwaitResult(old(At()).snapshot, job)
      ensures system.broadcasts == old(system.broadcasts) + [Sent(me, job)] && sent == old(sent) + [job]
    {
      hide Run, KeepsToProgram;
      ghost var was := system;
      var e: Env := *;
      system := system.(broadcasts := system.broadcasts + [Sent(me, job)]);
      system := Goto(system, me, AwaitResult(system.workers[me].snapshot, job));
      sent := sent + [job];
      Record(e, was);
    }

    /** UPDATE … WHERE state_version = ?, on whatever row is stored by then.  `found` is that row: the write
        takes effect exactly if its version is the snapshot's, in which case it is the snapshot, and is
        refused without effect otherwise. */
    method Update(snapshot: Row, u: Update, e: Env) returns (swapped: bool, ghost found: Row)
      requires Valid() && system.row.Some?
      requires PendingUpdate(At(), e).Some?
      requires PendingUpdate(At(), e).value.snapshot == snapshot && PendingUpdate(At(), e).value.u == u
      modifies this`system, this`trace
      ensures Valid() && old(trace) < trace
      ensures Run(INIT, trace[..|trace| - 1]).row == Some(found) && trace[|trace| - 1].worker == me
      ensures swapped <==> found.stateVersion == snapshot.stateVersion
      ensures swapped ==> found == snapshot
      ensures system.row == Some(if swapped then Apply(u, found) else found)
      ensures
        var pending := PendingUpdate(old(At()), e).value;
        At() == if swapped then Select(pending.resume) else pending.conflict
    {
      hide Run, KeepsToProgram, PendingUpdate, Apply;
      Yield();
      ghost var was := system;
      var pending := PendingUpdate(system.workers[me], e).value;
      WritersOnlyWrite(system.workers[me], e);
      SwapFindsSnapshot(trace, me, e);
      found := system.row.value;
      swapped := system.row.value.stateVersion == snapshot.stateVersion;
      if swapped {
        system := system.(
          row := Some(Apply(u, system.row.value)),
          signer := if u.Sign? then Some(me) else system.signer);
      }
      system := Goto(system, me, if swapped then Select(pending.resume) else pending.conflict);
      Record(e, was);
    }

    /** UPDATE and then SELECT, with room for other writers before either. */
    method Transition(snapshot: Row, u: Update, e: Env) returns (r: Outcome)
      requires Valid() && system.row.Some?
      requires PendingUpdate(At(), e).Some?
      requires PendingUpdate(At(), e).value.snapshot == snapshot && PendingUpdate(At(), e).value.u == u
      modifies this`system, this`trace
      ensures Valid() && old(trace) <= trace && system.row.Some?
      ensures
        var pending := PendingUpdate(old(At()), e).value;
        match r
        case Stored(row) => system.row == Some(row) && At() == Resumed(pending.resume, row)
        case Refused(failure) => failure == CAS_CONFLICT && At() == pending.conflict
      ensures r.Stored? ==> Wrote(trace, |old(trace)|, me, snapshot, Apply(u, snapshot))
    {
      hide PayoutExecutionStore.At, PendingUpdate, Apply, Run, KeepsToProgram, Knows, Wrote;
      var swapped, _ := Update(snapshot, u, e);
      if !swapped {
        return Refused(CAS_CONFLICT);
      }
      ghost var written := trace;
      var row, _ := SelectRow();
      WriteStays(written, trace, |old(trace)|, me, snapshot, Apply(u, snapshot));
      r := Stored(row.value);
    }

    /** Stale recovery of the row it reads at `now`: a mid-signing row with an expired lease goes back to
        RECEIVED, or to reconciliation once it is signed or carries evidence; any other stays as it is. */
    method RecoverStaleExecution(caller: Caller)
      returns (r: Outcome, ghost read: Row, ghost now: int, ghost wrote: Option<Row>)
      requires Valid() && At() == RecoverRead(caller) && system.row.Some?
      modifies this`system, this`trace
      ensures Valid() && old(trace) <= trace && system.row.Some?
      ensures At() == if r.Refused? && caller.ByExecute? then Done else AfterRecover(caller)
      ensures r.Refused? ==> r.failure == CAS_CONFLICT
      ensures
        if Stale(read, now) then wrote.Some? <==> r.Stored?
        else wrote.None? && r == Stored(read)
      ensures wrote.Some? ==> Wrote(trace, |old(trace)|, me, read, wrote.value) && RecoveredAs(read, wrote.value)
    {
      hide PayoutExecutionStore.Valid, PayoutExecutionStore.At, Apply, Wrote, RecoveredAs;
      var found, e := SelectRow();
      var row := found.value;
      read, now, wrote := row, e.now, None;
      if !IsUnsafeState(row.state) {
        return Stored(row), read, now, wrote;
      }
      if !LeaseExpired(row, e.now) {
        return Stored(row), read, now, wrote;
      }
      ghost var later := |trace|;
      if row.state.Signed? || row.state.Broadcasting? {
        r := Transition(row, Reconcile, e);
      } else if HasUnsafeSideEffect(row) {
        r := Transition(row, Reconcile, e);
      } else {
        r := Transition(row, Requeue(false), e);
      }
      if r.Stored? {
        wrote := Some(Apply(RecoveryUpdate(row), row));
        RecoveryWrites(row);
        WroteLater(trace, later, |old(trace)|, me, row, wrote.value);
      }
    }

    /** The failure handler on the row it reads: it leaves final states and version conflicts alone, and
        otherwise requeues, reconciles or fails by the error and the evidence it finds. */
    method MarkFailedOrReconciliation(exc: Failure)
      returns (r: Outcome, ghost read: Row, ghost wrote: Option<Row>)
      requires Valid() && At().HandleRead? && At().exc == exc && system.row.Some?
      modifies this`system, this`trace
      ensures Valid() && old(trace) <= trace && system.row.Some? && At() == Done
      ensures
        if read.state in {Received, Validated, Signing, Signed, Broadcasting}
           && !(exc.fromStore && exc.code == Some(CasConflict))
        then wrote.Some? <==> r.Stored?
        else wrote.None? && r == Stored(read)
      ensures wrote.Some? ==> Wrote(trace, |old(trace)|, me, read, wrote.value) && HandledAs(read, exc, wrote.value)
    {
      hide PayoutExecutionStore.Valid, PayoutExecutionStore.At, Apply, Wrote, HandledAs;
      var found, e := SelectRow();
      var row := found.value;
      read, wrote := row, None;
      if IsNoDowngrade(row.state) {
        return Stored(row), read, wrote;
      }
      if IsCasConflict(exc) {
        return Stored(row), read, wrote;
      }
      ghost var later := |trace|;
      if IsRetryable(exc) && !HasUnsafeSideEffect(row) {
        r := Transition(row, Requeue(true), e);
      } else if HasUnsafeSideEffect(row) {
        r := Transition(row, Reconcile, e);
      } else {
        r := Transition(row, FailPreBroadcast, e);
      }
      if r.Stored? {
        wrote := Some(Apply(FailureUpdate(row, exc), row));
        HandlerWrites(row, exc);
        WroteLater(trace, later, |old(trace)|, me, row, wrote.value);
      }
    }

    /** The chain refresh: what the chain check came back with is written over a transfer on its way, unless
        nothing has changed. */
    method RefreshChainStatus(row: Row) returns (r: Outcome, ghost result: State, ghost wrote: Option<Row>)
      requires Valid() && At() == RefreshRead(row) && system.row.Some?
      modifies this`system, this`trace
      ensures Valid() && old(trace) <= trace && system.row.Some? && At() == Done
      ensures result in {Confirming, Confirmed, FailedChainTerminal}
      ensures
        if row.state == Broadcasted || (row.state == Confirming && result != Confirming)
        then wrote.Some? <==> r.Stored?
        else wrote.None? && r == Stored(row)
      ensures wrote.Some? ==> Wrote(trace, |old(trace)|, me, row, wrote.value) && RefreshedAs(row, result, wrote.value)
    {
      hide PayoutExecutionStore.Valid, PayoutExecutionStore.At, Apply, Wrote, RefreshedAs;
      var checked := CheckChain();
      result, wrote := checked, None;
      if !row.state.Broadcasted? && !row.state.Confirming? {
        return Stored(row), result, wrote;
      }
      if checked.Confirming? && row.state.Confirming? {
        return Stored(row), result, wrote;
      }
      ghost var later := |trace|;
      var e: Env := *;
      r := Transition(row, Chain(checked, row.txid, row.txidVerified), e);
      if r.Stored? {
        wrote := Some(Apply(Chain(checked, row.txid, row.txidVerified), row));
        RefreshWritesResult(row, checked);
        WroteLater(trace, later, |old(trace)|, me, row, wrote.value);
      }
    }

    /** Up to the lock: recover a stale execution, validate, take the lease.  `Refused` ends the call. */
    method PrepareForLock(found: Row) returns (r: Outcome)
      requires Valid() && system.row.Some?
      requires At() == if IsUnsafeState(found.state) then RecoverRead(ByExecute) else Dispatch(found)
      modifies this`system, this`trace
      ensures Valid() && old(trace) <= trace && system.row.Some?
      ensures At() == if r.Stored? && IsUnsafeState(r.row.state) then LockedRead(r.row.attemptId) else Done
    {
      hide PayoutExecutionStore.Valid, PayoutExecutionStore.At, Apply, Wrote, RecoveredAs, Stale;
      var row := found;
      if IsUnsafeState(row.state) {
        var recovered, _, _, _ := RecoverStaleExecution(ByExecute);
        r := recovered;
        if r.Refused? {
          return;
        }
        var reread, _ := SelectRow();
        row := reread.value;
        if IsUnsafeState(row.state) {
          return Refused(CAS_CONFLICT);
        }
      }
      r := BeginAttempt(row);
    }

    /** Validate a received execution and take the lease on a validated one. */
    method BeginAttempt(found: Row) returns (r: Outcome)
      requires Valid() && system.row.Some? && !IsUnsafeState(found.state) && At() == Dispatch(found)
      modifies this`system, this`trace
      ensures Valid() && old(trace) <= trace && system.row.Some?
      ensures At() == if r.Stored? && IsUnsafeState(r.row.state) then LockedRead(r.row.attemptId) else Done
    {
      hide PayoutExecutionStore.Valid, PayoutExecutionStore.At, Apply, Wrote;
      var row := found;
      if row.state.Received? {
        var e: Env := *;
        r := Transition(row, Validate, e);
        if r.Refused? {
          return;
        }
        row := r.row;
      }
      if row.state.Validated? {
        var e: Env := *;
        r := Transition(row, StartSigning(e.attempt, e.leaseUntil), e);
        return;
      }
      r := Stored(row);
    }

    /** In the lock, up to the resource step.  `Refused` is an exception on its way to the handler. */
    method ReserveUnderLock(attempt: Option<AttemptId>) returns (r: Outcome, proceed: bool)
      requires Valid() && At() == LockedRead(attempt) && system.row.Some?
      modifies this`system, this`trace
      ensures Valid() && old(trace) <= trace && system.row.Some?
      ensures
        match r
        case Stored(row) => At() == if proceed then EnsureResources(row) else Done
        case Refused(failure) => At() == HandleRead(failure, []) && !proceed
    {
      hide PayoutExecutionStore.Valid, PayoutExecutionStore.At, Apply, Wrote;
      proceed := false;
      var found, e := SelectRow();
      var row := found.value;
      if e.lockFault.Some? {
        return Refused(e.lockFault.value), false;
      }
      if !IsUnsafeState(row.state) || row.attemptId != attempt {
        return Stored(row), false;
      }
      if e.fault.Some? {
        return Refused(e.fault.value), false;
      }
      if row.reservation.None? {
        r := Transition(row, Reserve(row.attemptId), e);
        if r.Refused? {
          return;
        }
        row := r.row;
      }
      if row.signedHash.Some? {
        return Refused(RAW_EXCEPTION), false;
      }
      return Stored(row), true;
    }

    /** Buy what is missing: the resource step itself, not a stand-in for it, with activation allowed. */
    method PrepareResources(found: Row, autoActivate: bool)
      returns (
        outcome: ResourceOutcome,
        ghost quoted: Option<Quote>, ghost active: Option<bool>, ghost activation: Option<PayoutResources.Activation>)
      requires Valid() && At() == EnsureResources(found)
      modifies this`system, this`trace, provisioner.world
      ensures Valid() && old(trace) <= trace && system.row == old(system.row)
      ensures ResourceContract(outcome)
      ensures outcome.Prepared? ==> outcome.quote.bandwidth.required == provisioner.config.bandwidthPerTransfer
      ensures quoted.None? ==> outcome.Unprepared? && activation.None?
      ensures quoted.Some? ==> PayoutResources.StepsRightly(
                PayoutResources.WithActivationCheck(quoted.value, active), autoActivate, activation, outcome)
      ensures old(provisioner.world.log) <= provisioner.world.log
      ensures outcome.log == Providers.Since(old(provisioner.world.log), provisioner.world.log)
      ensures
        match outcome
        case Prepared(quote, log) => At() == BuildTransfer(found, quote, log)
        case Unprepared(failure, log) => At() == HandleRead(failure, log)
    {
      assert Provisioning.ValidConfig(provisioner.config);
      hide PayoutExecutionStore.Valid, PayoutExecutionStore.At, ResourceContract, Providers.Since;
      outcome, quoted, active, activation :=
        PayoutResources.EnsureFeeDepositResources(provisioner, true, autoActivate);
      TakeOutcome(outcome);
    }

    /** Sign, store the evidence, and mark the attempt. */
    method SignAndMark(found: Row, quote: Quote, log: Log) returns (r: Outcome, job: Job)
      requires Valid() && At() == BuildTransfer(found, quote, log) && system.row.Some?
      modifies this`system, this`trace
      ensures Valid() && old(trace) <= trace && system.row.Some?
      ensures job.quote == quote && job.log == log
      ensures if r.Stored? then At() == Broadcast(r.row, job) else At().HandleRead? && At().exc == r.failure
    {
      hide PayoutExecutionStore.Valid, PayoutExecutionStore.At, Apply, Wrote;
      var e := Answer();
      job := Job(e.tx, quote, log);
      if e.fault.Some? {
        return Refused(e.fault.value), job;
      }
      r := Transition(found, Sign(e.tx), e);
      if r.Refused? {
        return;
      }
      e := *;
      r := Transition(r.row, StartBroadcast(e.now), e);
    }

    /** Only a transfer whose evidence and attempt are stored is handed to the network. */
    method SignAndSend(found: Row, quote: Quote, log: Log) returns (r: Outcome)
      requires Valid() && At() == BuildTransfer(found, quote, log) && system.row.Some?
      modifies this`system, this`trace, this`sent
      ensures Valid() && old(trace) <= trace && system.row.Some?
      ensures if r.Stored? then At() == Done else At().HandleRead? && At().exc == r.failure
      ensures sent == old(sent) || exists job :: sent == old(sent) + [job] && job.quote == quote && job.log == log
    {
      hide PayoutExecutionStore.Valid, PayoutExecutionStore.At;
      var job: Job;
      r, job := SignAndMark(found, quote, log);
      if r.Refused? {
        return;
      }
      Send(job);
      r := RecordSent(r.row, job);
    }

    /** After the broadcast came back: check the reported ids and record the result. */
    method RecordSent(found: Row, job: Job) returns (r: Outcome)
      requires Valid() && At() == AwaitResult(found, job) && system.row.Some?
      modifies this`system, this`trace
      ensures Valid() && old(trace) <= trace && system.row.Some?
      ensures if r.Stored? then At() == Done else At().HandleRead? && At().exc == r.failure
    {
      hide PayoutExecutionStore.Valid, PayoutExecutionStore.At, Apply, Wrote;
      var e := Answer();
      if e.fault.Some? {
        return Refused(e.fault.value);
      }
      if e.reported == {} {
        return Refused(Failure(Some(BroadcastTxidMissing), None, false, true));
      }
      if job.tx.txid !in e.reported {
        return Refused(Failure(Some(BroadcastTxidMismatch), None, false, true));
      }
      r := StoreResult(found, job);
    }

    method StoreResult(found: Row, job: Job) returns (r: Outcome)
      requires Valid() && At() == VerifyWrite(found, job) && system.row.Some?
      modifies this`system, this`trace
      ensures Valid() && old(trace) <= trace && system.row.Some?
      ensures if r.Stored? then At() == Done else At().HandleRead? && At().exc == r.failure
    {
      hide PayoutExecutionStore.Valid, PayoutExecutionStore.At, Apply, NextPc, Wrote;
      var e: Env := *;
      r := Transition(found, VerifyBroadcast(found.state), e);
      if r.Refused? {
        return;
      }
      e := *;
      r := Transition(r.row, FinishBroadcast(job.tx.txid, r.row.txidVerified), e);
    }

    /** The `with lock` block and the handler around it. */
    method ExecuteUnderLock(attempt: Option<AttemptId>, autoActivate: bool) returns (r: Outcome)
      requires Valid() && At() == LockedRead(attempt) && system.row.Some?
      modifies this`system, this`trace, this`sent, provisioner.world
      ensures Valid() && old(trace) <= trace && At() == Done
      ensures old(provisioner.world.log) <= provisioner.world.log
      ensures sent == old(sent) || exists job ::
                && sent == old(sent) + [job]
                && job.log == Providers.Since(old(provisioner.world.log), provisioner.world.log)
                && Cleared(job.quote, job.log)
                && job.quote.bandwidth.required == provisioner.config.bandwidthPerTransfer
    {
      hide PayoutExecutionStore.Valid, PayoutExecutionStore.At, NextPc, Cleared, Providers.Since, CountOrders,
        Wrote, HandledAs, PayoutResources.StepsRightly, PayoutResources.WithActivationCheck;
      var proceed: bool;
      r, proceed := ReserveUnderLock(attempt);
      if proceed {
        var reserved := r.row;
        var outcome, _, _, _ := PrepareResources(reserved, autoActivate);
        if outcome.Prepared? {
          r := SignAndSend(reserved, outcome.quote, outcome.log);
        } else {
          r := Refused(outcome.failure);
        }
      }
      if r.Refused? {
        var handled, _, _ := MarkFailedOrReconciliation(r.failure);
        r := handled;
      }
    }

    /** One call of `execute`: from its first read to its end every statement is the machine's next step, and
        it hands over at most one transfer, on a quote that rests on the last of the readings this very call
        made, after every order this call got accepted was seen delivered. */
    method Execute(autoActivate: bool) returns (r: Outcome)
      requires Valid() && At() == ExecuteRead
      modifies this`system, this`trace, this`sent, provisioner.world
      ensures Valid() && old(trace) <= trace && At() == Done
      ensures old(provisioner.world.log) <= provisioner.world.log
      ensures sent == old(sent) || exists job ::
                && sent == old(sent) + [job]
                && job.log == Providers.Since(old(provisioner.world.log), provisioner.world.log)
                && Cleared(job.quote, job.log)
                && job.quote.bandwidth.required == provisioner.config.bandwidthPerTransfer
    {
      hide PayoutExecutionStore.Valid, PayoutExecutionStore.At, Cleared, Providers.Since;
      var found, _ := SelectRow();
      if found.None? {
        return Refused(Failure(Some(NoExecutionCreated), None, false, true));
      }
      r := PrepareForLock(found.value);
      if r.Stored? && IsUnsafeState(r.row.state) {
        r := ExecuteUnderLock(r.row.attemptId, autoActivate);
      }
    }

    /** Wherever the code stands, the transfer has been broadcast at most once by all calls together, and
        what was broadcast is what the row records. */
    lemma CodeBroadcastsOnce()
      requires Valid()
      ensures |system.broadcasts| <= 1
      ensures forall i :: 0 <= i < |system.broadcasts| ==>
                && system.row.Some?
                && system.row.value.signedHash == Some(system.broadcasts[i].job.tx.hash)
                && system.row.value.txid == Some(system.broadcasts[i].job.tx.txid)
                && system.row.value.broadcastAttemptedAt.Some?
    {
      AtMostOneBroadcast(trace);
      BroadcastMatchesEvidence(trace);
      hide Run, KeepsToProgram, Knows, IsClean, HasUnsafeSideEffect;
      assert system.row.None? ==> system.broadcasts == [];
      forall i | 0 <= i < |system.broadcasts|
        ensures system.row.Some?
        ensures system.row.value.signedHash == Some(system.broadcasts[i].job.tx.hash)
        ensures system.row.value.txid == Some(system.broadcasts[i].job.tx.txid)
        ensures system.row.value.broadcastAttemptedAt.Some?
      {
      }
    }

    /** One call of `status`. */
    method Status() returns (r: Outcome)
      requires Valid() && At() == StatusRead
      modifies this`system, this`trace
      ensures Valid() && old(trace) <= trace && At() == Done
    {
      hide PayoutExecutionStore.Valid, PayoutExecutionStore.At, Apply, Wrote, RecoveredAs, RefreshedAs, Stale;
      var found, e := SelectRow();
      if found.None? {
        return Refused(Failure(Some(NoExecutionCreated), None, false, true));
      }
      if IsUnsafeState(found.value.state) {
        var _, _, _, _ := RecoverStaleExecution(ByStatus);
        found, e := SelectRow();
      }
      var refreshed, _, _ := RefreshChainStatus(found.value);
      r := refreshed;
    }
  }
}
