/** One stored execution and any number of workers running `execute`, `status` and `submit` on it,
    one database statement or outside call at a time.  Leases, crashes, the Redis lock, the wallet
    and the resource step are all left to the environment. */
module ExecutionProtocol {
  import opened Options
  import opened Failures
  import opened Resources
  import opened ExecutionRows

  type WorkerId = nat

  /** A signed transfer held in worker memory, with the quote it was signed on and the log of the resource
      step that gave it. */
  datatype Job = Job(tx: SignedTx, quote: Quote, log: Log)

  datatype Caller = ByExecute | ByStatus | BySubmit

  /** Where a worker goes once the SELECT after its UPDATE has returned. */
  datatype Resume =
    | AfterValidate | AfterSigning | AfterReserve
    | AfterSigned(job: Job) | AfterBroadcasting(job: Job) | AfterVerified(job: Job)
    | AfterRecovery(caller: Caller) | Finish

  /** The next thing a worker does.  `snapshot` is the row it last read. */
  datatype Pc =
    | ExecuteRead
    | RecoverRead(caller: Caller)
    | RecoverWrite(caller: Caller, snapshot: Row)
    | ExecuteReread
    | ValidateWrite(snapshot: Row)
    | SigningWrite(snapshot: Row)
    | LockedRead(attemptId: Option<AttemptId>)
    | ReserveWrite(snapshot: Row)
    | EnsureResources(snapshot: Row)
    | BuildTransfer(snapshot: Row, quote: Quote, log: Log)
    | SignedWrite(snapshot: Row, job: Job)
    | BroadcastingWrite(snapshot: Row, job: Job)
    | Broadcast(snapshot: Row, job: Job)
    | AwaitResult(snapshot: Row, job: Job)
    | VerifyWrite(snapshot: Row, job: Job)
    | BroadcastedWrite(snapshot: Row, job: Job)
    | HandleRead(exc: Failure, log: Log)
    | HandleWrite(snapshot: Row, exc: Failure, log: Log)
    | StatusRead
    | StatusReread
    | RefreshRead(snapshot: Row)
    | RefreshWrite(snapshot: Row, result: State)
    | SubmitRead
    | SubmitInsert
    | Select(resume: Resume)
    | Done

  datatype Sent = Sent(worker: WorkerId, job: Job)

  /** `signer` and `broadcasts` only record history; no step reads them. */
  datatype System = System(
    row: Option<Row>,
    workers: map<WorkerId, Pc>,
    signer: Option<WorkerId>,
    broadcasts: seq<Sent>)

  const INIT := System(None, map[], None, [])

  /** Everything the environment decides about one step. */
  datatype Env = Env(
    now: int,
    lockFault: Option<Failure>,
    fault: Option<Failure>,
    attempt: AttemptId,
    leaseUntil: int,
    outcome: ResourceOutcome,
    tx: SignedTx,
    reported: set<TxId>,
    chain: State)

  datatype Entry = Execute | Status | Submit

  datatype Action =
    | Start(worker: WorkerId, entry: Entry)
    | Go(worker: WorkerId, env: Env)
    | Raise(worker: WorkerId, exc: Failure)
    | Crash(worker: WorkerId)

  function Goto(s: System, w: WorkerId, pc: Pc): System {
    s.(workers := s.workers[w := pc])
  }

  /** A version conflict never sends an execution back, so it needs no log. */
  const ON_CONFLICT := HandleRead(CAS_CONFLICT, [])

  /** `execute` after its first read, or its second one when it recovered a stale lease. */
  function Dispatch(row: Row): Pc {
    match row.state
    case Received => ValidateWrite(row)
    case Validated => SigningWrite(row)
    case _ => Done
  }

  /** `execute` once its pre-lock transitions are over. */
  function EnterLock(row: Row): Pc {
    if IsUnsafeState(row.state) then LockedRead(row.attemptId) else Done
  }

  /** The check for evidence of an earlier signing, made before anything is bought or signed. */
  function CheckEvidence(row: Row): Pc {
    if row.signedHash.Some? then HandleRead(RAW_EXCEPTION, []) else EnsureResources(row)
  }

  /** `execute` inside the lock: taking the lock may fail, another attempt may own the row by now, the
      wallet balance may be short or unreadable, and a row that has no reservation gets one. */
  function UnderLock(row: Row, attemptId: Option<AttemptId>, e: Env): Pc {
    if e.lockFault.Some? then HandleRead(e.lockFault.value, [])
    else if !IsUnsafeState(row.state) || row.attemptId != attemptId then Done
    else if e.fault.Some? then HandleRead(e.fault.value, [])
    else if row.reservation.None? then ReserveWrite(row)
    else CheckEvidence(row)
  }

  function Resumed(resume: Resume, row: Row): Pc {
    match resume
    case AfterValidate => if row.state.Validated? then SigningWrite(row) else EnterLock(row)
    case AfterSigning => EnterLock(row)
    case AfterReserve => CheckEvidence(row)
    case AfterSigned(job) => BroadcastingWrite(row, job)
    case AfterBroadcasting(job) => Broadcast(row, job)
    case AfterVerified(job) => BroadcastedWrite(row, job)
    case AfterRecovery(caller) => AfterRecover(caller)
    case Finish => Done
  }

  function AfterRecover(caller: Caller): Pc {
    match caller
    case ByExecute => ExecuteReread
    case ByStatus => StatusReread
    case BySubmit => Done
  }

  /** The UPDATE a worker is about to issue on the strength of its snapshot, where it goes when the
      UPDATE takes effect and its SELECT has returned, and where it goes when it does not. */
  datatype Pending = Pending(snapshot: Row, u: Update, resume: Resume, conflict: Pc)

  function PendingUpdate(pc: Pc, e: Env): Option<Pending> {
    match pc
    case RecoverWrite(caller, snapshot) =>
      Some(Pending(snapshot, RecoveryUpdate(snapshot), AfterRecovery(caller),
                   if caller.ByExecute? then Done else AfterRecover(caller)))
    case ValidateWrite(snapshot) => Some(Pending(snapshot, Validate, AfterValidate, Done))
    case SigningWrite(snapshot) =>
      Some(Pending(snapshot, StartSigning(e.attempt, e.leaseUntil), AfterSigning, Done))
    case ReserveWrite(snapshot) =>
      Some(Pending(snapshot, Reserve(snapshot.attemptId), AfterReserve, ON_CONFLICT))
    case SignedWrite(snapshot, job) =>
      Some(Pending(snapshot, Sign(job.tx), AfterSigned(job), ON_CONFLICT))
    case BroadcastingWrite(snapshot, job) =>
      Some(Pending(snapshot, StartBroadcast(e.now), AfterBroadcasting(job), ON_CONFLICT))
    case VerifyWrite(snapshot, job) =>
      Some(Pending(snapshot, VerifyBroadcast(snapshot.state), AfterVerified(job), ON_CONFLICT))
    case BroadcastedWrite(snapshot, job) =>
      Some(Pending(snapshot, FinishBroadcast(job.tx.txid, snapshot.txidVerified), Finish, ON_CONFLICT))
    case HandleWrite(snapshot, exc, _) =>
      Some(Pending(snapshot, FailureUpdate(snapshot, exc), Finish, Done))
    case RefreshWrite(snapshot, result) =>
      Some(Pending(snapshot, Chain(result, snapshot.txid, snapshot.txidVerified), Finish, Done))
    case _ => None
  }

  /** Where a step that issues no UPDATE leads, given the row a read finds. */
  function NextPc(row: Option<Row>, pc: Pc, e: Env): Pc {
    match pc
    case ExecuteRead =>
      if row.None? then Done
      else if IsUnsafeState(row.value.state) then RecoverRead(ByExecute)
      else Dispatch(row.value)
    case RecoverRead(caller) =>
      if row.None? then Done
      else if !IsUnsafeState(row.value.state) || !LeaseExpired(row.value, e.now) then AfterRecover(caller)
      else RecoverWrite(caller, row.value)
    case ExecuteReread => if row.None? then Done else Dispatch(row.value)
    case LockedRead(attemptId) =>
      if row.None? then HandleRead(Failure(Some(NoExecutionCreated), None, false, true), [])
      else UnderLock(row.value, attemptId, e)
    case EnsureResources(snapshot) =>
      if e.outcome.Prepared? then BuildTransfer(snapshot, e.outcome.quote, e.outcome.log)
      else HandleRead(e.outcome.failure, e.outcome.log)
    case BuildTransfer(snapshot, quote, log) =>
      if e.fault.Some? then HandleRead(e.fault.value, log) else SignedWrite(snapshot, Job(e.tx, quote, log))
    case Broadcast(snapshot, job) => AwaitResult(snapshot, job)
    case AwaitResult(snapshot, job) =>
      if e.fault.Some? then HandleRead(e.fault.value, job.log)
      else if e.reported == {} then HandleRead(Failure(Some(BroadcastTxidMissing), None, false, true), job.log)
      else if job.tx.txid !in e.reported
      then HandleRead(Failure(Some(BroadcastTxidMismatch), None, false, true), job.log)
      else VerifyWrite(snapshot, job)
    case HandleRead(exc, log) =>
      if row.None? || IsNoDowngrade(row.value.state) || IsCasConflict(exc) then Done
      else HandleWrite(row.value, exc, log)
    case StatusRead =>
      if row.None? then Done
      else if IsUnsafeState(row.value.state) then RecoverRead(ByStatus)
      else RefreshRead(row.value)
    case StatusReread => if row.None? then Done else RefreshRead(row.value)
    case RefreshRead(snapshot) =>
      if RefreshWrites(snapshot, e.chain) then RefreshWrite(snapshot, e.chain) else Done
    case SubmitRead =>
      if row.None? then SubmitInsert
      else if IsUnsafeState(row.value.state) && LeaseExpired(row.value, e.now) then RecoverRead(BySubmit)
      else Done
    case SubmitInsert => if row.None? then SubmitRead else Done
    case Select(resume) => if row.None? then Done else Resumed(resume, row.value)
    case _ => Done
  }

  /** One statement or outside call of worker `w`. */
  function Step(s: System, w: WorkerId, e: Env): System
    requires w in s.workers
  {
    var pc := s.workers[w];
    match PendingUpdate(pc, e)
    case Some(p) =>
      if Swaps(s.row, p.snapshot) then
        Goto(s, w, Select(p.resume)).(
          row := Some(Apply(p.u, s.row.value)),
          signer := if p.u.Sign? then Some(w) else s.signer)
      else Goto(s, w, p.conflict)
    case None =>
      Goto(s, w, NextPc(s.row, pc, e)).(
        row := if pc.SubmitInsert? && s.row.None? then Some(NEW_ROW) else s.row,
        broadcasts := if pc.Broadcast? then s.broadcasts + [Sent(w, pc.job)] else s.broadcasts)
  }

  function EntryPoint(entry: Entry): Pc {
    match entry
    case Execute => ExecuteRead
    case Status => StatusRead
    case Submit => SubmitRead
  }

  /** Inside the `with lock` block of `execute`, where any exception ends in the failure handler.
      The resource step is left out: its failures arrive as its outcome. */
  predicate InsideTry(pc: Pc) {
    match pc
    case LockedRead(_) => true
    case ReserveWrite(_) => true
    case BuildTransfer(_, _, _) => true
    case SignedWrite(_, _) => true
    case BroadcastingWrite(_, _) => true
    case Broadcast(_, _) => true
    case AwaitResult(_, _) => true
    case VerifyWrite(_, _) => true
    case BroadcastedWrite(_, _) => true
    case Select(resume) =>
      resume.AfterReserve? || resume.AfterSigned? || resume.AfterBroadcasting? || resume.AfterVerified?
    case _ => false
  }

  /** What the attempt has ordered and read so far; nothing before the resource step. */
  function LogOf(pc: Pc): Log {
    match pc
    case BuildTransfer(_, _, log) => log
    case SignedWrite(_, job) => job.log
    case BroadcastingWrite(_, job) => job.log
    case Broadcast(_, job) => job.log
    case AwaitResult(_, job) => job.log
    case VerifyWrite(_, job) => job.log
    case BroadcastedWrite(_, job) => job.log
    case Select(AfterSigned(job)) => job.log
    case Select(AfterBroadcasting(job)) => job.log
    case Select(AfterVerified(job)) => job.log
    case _ => []
  }

  /** The environment keeps to the promise of the resource step; nothing else is asked of it. */
  predicate Allowed(s: System, a: Action) {
    match a
    case Start(w, _) => w !in s.workers
    case Go(w, e) =>
      w in s.workers && (s.workers[w].EnsureResources? ==> ResourceContract(e.outcome))
    case Raise(w, _) => w in s.workers && InsideTry(s.workers[w])
    case Crash(w) => w in s.workers
  }

  /** One step of the fine-grained system: a single statement or outside call of one worker. */
  function Do(s: System, a: Action): System {
    if !Allowed(s, a) then s
    else
      match a
      case Start(w, entry) => Goto(s, w, EntryPoint(entry))
      case Go(w, e) => Step(s, w, e)
      case Raise(w, exc) => Goto(s, w, HandleRead(exc, LogOf(s.workers[w])))
      case Crash(w) => Goto(s, w, Done)
  }

  function Run(s: System, actions: seq<Action>): System {
    if actions == [] then s else Do(Run(s, actions[..|actions| - 1]), actions[|actions| - 1])
  }
}
