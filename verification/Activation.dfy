/** Activating a payout destination: a durable record decides whether a call orders an activation, resumes
    one, replays its failure or reports it. */
module Activation {
  import opened Options
  import opened Failures
  import opened Resources
  import opened Providers
  import opened Texts
  import ProfeeX
  import Refee

  datatype Record = Record(taskId: Field, txnHash: Option<string>, status: Field, errorCode: Option<Code>)

  /** An answer to "is the destination active": None when it cannot be had. */
  datatype Answer = Active | New | NoAnswer

  datatype LockReply = Acquired | TimedOut | Down

  /** Where the worker dies, if it does. */
  datatype Death = BeforeFiling | BeforeWatching | BeforeNoting

  datatype Config = Config(profeexConfigured: bool, refeeConfigured: bool, fallback: bool)

  /** Everything one call is told: the answers to its activation checks, the lock, whether the record can be
      read, the replies to its orders and status requests, whether its writes succeed, and its death. */
  datatype Env = Env(
    atStart: Answer,
    lock: LockReply,
    underLock: Answer,
    readable: bool,
    onRecord: Answer,
    profeex: Reply,
    onDuplicate: Answer,
    refee: Reply,
    filed: bool,
    replies: seq<Reply>,
    noted: bool,
    afterwards: Answer,
    death: Option<Death>)

  /** `Asked`: an activation was ordered from a provider, which took the order or not.  `Filed`: a taken order
      was written to the record.  `Watched`: its status was polled.  `Noted`: the record was overwritten with
      what the poll brought. */
  datatype Event =
    | Asked(provider: Provider, taken: bool)
    | Filed(provider: Provider, id: string)
    | Watched(taskId: string)
    | Noted(record: Record)

  datatype Result =
    | AlreadyActive
    | Activated(id: Option<string>, status: Field)
    | Error(code: Code, temporary: bool)
    | Died

  datatype Call = Call(record: Option<Record>, events: seq<Event>, result: Result)

  const PENDING: set<string> := { "QUEUED", "PENDING", "PROCESSING" }
  const SUCCESS: set<string> := { "ACTIVE", "COMPLETED" }
  const FAILURE: set<string> := { "FAILED", "CANCELLED", "UNKNOWN" }

  /** The status as the record check reads it. */
  function ShownStatus(status: Field): string {
    if status.Text? then Upper(status.value) else ""
  }

  predicate Known(status: Field) {
    ShownStatus(status) in PENDING + SUCCESS + FAILURE
  }

  datatype Kind = FailedBefore | Succeeded | Resumable(taskId: string) | Unusable

  function KindOf(record: Option<Record>): Kind {
    if record.None? then Unusable
    else
      var status := ShownStatus(record.value.status);
      if status in FAILURE then FailedBefore
      else if status in SUCCESS then Succeeded
      else if record.value.taskId.Text? && record.value.taskId.value != "" && status in PENDING then
        Resumable(record.value.taskId.value)
      else Unusable
  }

  function OrNone(id: Field): Option<string> {
    if id.Text? then Some(id.value) else None
  }

  /** The error of ProfeeX in the terms of a payout. */
  function ProfeeXErrorCode(code: Code): (shown: Code)
    ensures code == DuplicateRequest ==> shown == ActivationDuplicate
    ensures code == RequestTimeout ==> shown == ActivationTimeout
    ensures code in {ServiceUnavailable, RateLimitExceeded, InsufficientBalance, EMPTY_CODE} ==>
              shown == ActivationUnavailable
    ensures shown == code
            || code in {DuplicateRequest, RequestTimeout, ServiceUnavailable, RateLimitExceeded, InsufficientBalance,
                        EMPTY_CODE}
  {
    if code == DuplicateRequest then ActivationDuplicate
    else if code == RequestTimeout then ActivationTimeout
    else if code in {ServiceUnavailable, RateLimitExceeded, InsufficientBalance} then ActivationUnavailable
    else if code == EMPTY_CODE then ActivationUnavailable
    else code
  }

  /** The error of re:Fee in the terms of a payout. */
  function RefeeErrorCode(code: Code): (shown: Code)
    ensures code in {ServiceUnavailable, InsufficientBalance, UnknownError} ==> shown == ActivationUnavailable
    ensures code == SchemaError ==> shown == ActivationInvalidResponse
    ensures shown == code || code in {ServiceUnavailable, InsufficientBalance, UnknownError, SchemaError}
  {
    if code in {ServiceUnavailable, InsufficientBalance, UnknownError} then ActivationUnavailable
    else if code == SchemaError then ActivationInvalidResponse
    else code
  }

  function FailedRecordCode(record: Record): Code {
    if record.errorCode.Some? && record.errorCode.value != EMPTY_CODE then record.errorCode.value else ActivationFailed
  }

  /** Whether a failed ProfeeX order may be followed by one from re:Fee. */
  predicate MayFallBack(error: ProfeeX.OrderError) {
    error.code != DuplicateRequest && error.failure.fallbackEligible
  }

  const QUOTE_ERROR := Error(ActivationQuoteUnavailable, true)
  const STORE_ERROR := Error(ActivationUnavailable, true)
  const PENDING_ERROR := Error(ActivationPending, true)

  /** The record of an order as ProfeeX returned it. */
  function RecordOf(order: Order): Record {
    Record(order.id, None, order.status, order.errorCode)
  }

  /** What polling from `order` on ends with: the first picture that decides, or the deadline. */
  function Watch(order: Order, taskId: string, replies: seq<Reply>): ProfeeX.WaitResult
    decreases |replies|
  {
    var decided :=
      ProfeeX.Decision(order, taskId, ProfeeX.ACTIVATION_SUCCESS_STATUSES, ProfeeX.ACTIVATION_FAILURE_STATUSES);
    if decided.Some? then decided.value
    else if replies == [] then ProfeeX.Failed(ProfeeX.TimeoutError(taskId))
    else Watch(if Readable(replies[0]) then replies[0].body.value else order, taskId, replies[1..])
  }

  /** The record a failed wait leaves: still to be resumed if the error is temporary. */
  function FailureRecord(taskId: string, error: ProfeeX.OrderError): Record {
    Record(Text(taskId), None, Text(if error.temporary then "PROCESSING" else "FAILED"), Some(error.code))
  }

  /** From a task that is on record (or just failed to get there) to the end of the call. */
  function WatchCall(c: Config, env: Env, record: Option<Record>, taskId: string, order: Order): Call {
    if !c.profeexConfigured then Call(record, [], Error(ConfigurationError, false))
    else if env.death == Some(BeforeWatching) then Call(record, [], Died)
    else
      var watched := Watched(taskId);
      if env.death == Some(BeforeNoting) then Call(record, [watched], Died)
      else match Watch(order, taskId, env.replies)
        case Failed(error) =>
          var result := Error(ProfeeXErrorCode(error.code), error.temporary);
          if env.noted then
            Call(Some(FailureRecord(taskId, error)), [watched, Noted(FailureRecord(taskId, error))], result)
          else Call(record, [watched], result)
        case Reached(last) =>
          if !env.noted then Call(record, [watched], STORE_ERROR)
          else Call(
            Some(RecordOf(last)), [watched, Noted(RecordOf(last))],
            match env.afterwards
            case Active => Activated(Some(taskId), last.status)
            case New => PENDING_ERROR
            case NoAnswer => QUOTE_ERROR)
  }

  function Before(event: Event, call: Call): Call {
    call.(events := [event] + call.events)
  }

  /** Order from re:Fee. */
  function AskRefee(c: Config, env: Env, record: Option<Record>): Call {
    match Refee.ReadActivation(c.refeeConfigured, env.refee)
    case AlreadyActive => Call(record, [Asked(ReFee, false)], Result.AlreadyActive)
    case NotPlaced(code, temporary) =>
      var taken := c.refeeConfigured && env.refee.Reply? && env.refee.status == 200;
      Call(record, if c.refeeConfigured then [Asked(ReFee, taken)] else [], Error(RefeeErrorCode(code), temporary))
    case Placed(hash) =>
      if env.death == Some(BeforeFiling) then Call(record, [Asked(ReFee, true)], Died)
      else if !env.filed then Call(record, [Asked(ReFee, true)], STORE_ERROR)
      else Call(
        Some(Record(Absent, Some(hash), Text("COMPLETED"), None)),
        [Asked(ReFee, true), Filed(ReFee, hash)],
        Activated(Some(hash), Text("COMPLETED")))
  }

  /** Order from ProfeeX, and from re:Fee if ProfeeX's failure allows it. */
  function Ask(c: Config, env: Env, record: Option<Record>): Call {
    match ProfeeX.ReadActivation(c.profeexConfigured, env.profeex)
    case Activating(taskId, order) =>
      Before(
        Asked(ProfeeX, true),
        if env.death == Some(BeforeFiling) then Call(record, [], Died)
        else if !env.filed then Call(record, [], STORE_ERROR)
        else Before(Filed(ProfeeX, taskId), WatchCall(c, env, Some(RecordOf(order)), taskId, order)))
    case NotActivating(error) =>
      var asked := if c.profeexConfigured then [Asked(ProfeeX, error.failure.orderAccepted)] else [];
      if error.code == DuplicateRequest && env.onDuplicate.Active? then Call(record, asked, AlreadyActive)
      else if error.code == DuplicateRequest && env.onDuplicate.NoAnswer? then Call(record, asked, QUOTE_ERROR)
      else if MayFallBack(error) && c.fallback then
        var refee := AskRefee(c, env, record);
        refee.(events := asked + refee.events)
      else Call(record, asked, Error(ProfeeXErrorCode(error.code), error.temporary))
  }

  /** The whole call, as a function of the record it finds and what it is told. */
  function Activate(c: Config, env: Env, record: Option<Record>): Call {
    if env.atStart.Active? then Call(record, [], AlreadyActive)
    else if env.atStart.NoAnswer? then Call(record, [], QUOTE_ERROR)
    else if env.lock.Down? then Call(record, [], STORE_ERROR)
    else if env.lock.TimedOut? then Call(record, [], PENDING_ERROR)
    else if env.underLock.Active? then Call(record, [], AlreadyActive)
    else if env.underLock.NoAnswer? then Call(record, [], QUOTE_ERROR)
    else if !env.readable then Call(record, [], STORE_ERROR)
    else match KindOf(record)
      case FailedBefore => Call(record, [], Error(FailedRecordCode(record.value), false))
      case Succeeded => Call(record, [],
        match env.onRecord
        case Active =>
          Activated(
            if OrNone(record.value.taskId).Some? then OrNone(record.value.taskId) else record.value.txnHash,
            Text(ShownStatus(record.value.status)))
        case New => PENDING_ERROR
        case NoAnswer => QUOTE_ERROR)
      case Resumable(taskId) =>
        var order := Order(Text(taskId), Text(ShownStatus(record.value.status)), None, None);
        WatchCall(c, env, record, taskId, order)
      case Unusable => Ask(c, env, record)
  }

  /** The record and the events after a sequence of calls that start with no record. */
  datatype Trace = Trace(record: Option<Record>, events: seq<Event>)

  function Calls(c: Config, envs: seq<Env>): Trace {
    if envs == [] then Trace(None, [])
    else
      var earlier := Calls(c, envs[..|envs| - 1]);
      var call := Activate(c, envs[|envs| - 1], earlier.record);
      Trace(call.record, earlier.events + call.events)
  }

  function Count(events: seq<Event>, p: Event -> bool): nat {
    if events == [] then 0
    else Count(events[..|events| - 1], p) + if p(events[|events| - 1]) then 1 else 0
  }

  const FILED := (e: Event) => e.Filed?
  const TAKEN := (e: Event) => e.Asked? && e.taken

  lemma {:induction false} CountConcat(a: seq<Event>, b: seq<Event>, p: Event -> bool)
    ensures Count(a + b, p) == Count(a, p) + Count(b, p)
  {
    if b == [] {
      assert a + b == a;
    } else {
      CountConcat(a, b[..|b| - 1], p);
      assert (a + b)[..|a + b| - 1] == a + b[..|b| - 1];
    }
  }

  lemma CountBefore(e: Event, events: seq<Event>, p: Event -> bool)
    ensures Count([e] + events, p) == Count(events, p) + if p(e) then 1 else 0
  {
    CountConcat([e], events, p);
    assert Count([e][..0], p) == 0;
  }

  /** Nothing is ordered and nothing new is recorded. */
  predicate OnlyResumes(events: seq<Event>) {
    forall i :: 0 <= i < |events| ==> events[i].Watched? || events[i].Noted?
  }

  lemma {:induction false} ResumingCounts(events: seq<Event>)
    requires OnlyResumes(events)
    ensures Count(events, FILED) == 0 && Count(events, TAKEN) == 0
  {
    if events != [] {
      ResumingCounts(events[..|events| - 1]);
    }
  }

  /** A status ProfeeX documents for a taken order; a missing one counts as pending. */
  predicate KnownReply(reply: Reply) {
    reply.Reply? && reply.status == ACCEPTED && reply.body.Some? ==>
      reply.body.value.status.Absent? || Known(reply.body.value.status)
  }

  /** The record a new task leaves can be read back: its status is a known one, or the call lives to overwrite
      it with what the poll brought. */
  predicate Settled(env: Env) {
    KnownReply(env.profeex) || (env.noted && env.death !in {Some(BeforeWatching), Some(BeforeNoting)})
  }

  /** What polling leaves on record can always be read back. */
  lemma {:induction false} WatchLeavesUsable(order: Order, taskId: string, replies: seq<Reply>)
    requires taskId != ""
    ensures
      match Watch(order, taskId, replies)
      case Reached(last) => KindOf(Some(RecordOf(last))) == Succeeded
      case Failed(error) => !KindOf(Some(FailureRecord(taskId, error))).Unusable?
    decreases |replies|
  {
    UpperKeeps();
    var decided :=
      ProfeeX.Decision(order, taskId, ProfeeX.ACTIVATION_SUCCESS_STATUSES, ProfeeX.ACTIVATION_FAILURE_STATUSES);
    if decided.None? && replies != [] {
      WatchLeavesUsable(if Readable(replies[0]) then replies[0].body.value else order, taskId, replies[1..]);
    }
  }

  lemma UpperKeeps()
    ensures Upper("ACTIVE") == "ACTIVE" && Upper("COMPLETED") == "COMPLETED"
    ensures Upper("PROCESSING") == "PROCESSING" && Upper("FAILED") == "FAILED" && Upper("PENDING") == "PENDING"
  {
  }

  lemma WatchCallOnlyResumes(c: Config, env: Env, record: Option<Record>, taskId: string, order: Order)
    requires taskId != ""
    ensures
      var call := WatchCall(c, env, record, taskId, order);
      && OnlyResumes(call.events)
      && (!KindOf(record).Unusable? ==> !KindOf(call.record).Unusable?)
      && (c.profeexConfigured && env.noted && env.death !in {Some(BeforeWatching), Some(BeforeNoting)} ==>
            !KindOf(call.record).Unusable?)
  {
    WatchLeavesUsable(order, taskId, env.replies);
  }

  /** Once an activation is on record nothing is ordered or recorded as new. */
  predicate FiledIsFinal(events: seq<Event>) {
    forall i, j :: 0 <= i < j < |events| && events[i].Filed? ==> events[j].Watched? || events[j].Noted?
  }

  /** re:Fee takes the order it is asked for. */
  predicate RefeeTakes(c: Config, env: Env) {
    && c.refeeConfigured && env.refee.Reply? && env.refee.status == 200
    && !Refee.ReadActivation(c.refeeConfigured, env.refee).AlreadyActive?
  }

  /** A call that asks for an activation gets one taken, by ProfeeX or by re:Fee. */
  predicate TakesOrder(c: Config, env: Env) {
    match ProfeeX.ReadActivation(c.profeexConfigured, env.profeex)
    case Activating(_, _) => true
    case NotActivating(error) =>
      error.failure.orderAccepted || (MayFallBack(error) && c.fallback && RefeeTakes(c, env))
  }

  /** An order it gets taken does not reach the record: no id came with it, or it could not be written. */
  predicate LosesOrder(c: Config, env: Env) {
    || env.death == Some(BeforeFiling)
    || !env.filed
    || match ProfeeX.ReadActivation(c.profeexConfigured, env.profeex)
       case Activating(_, _) => false
       case NotActivating(error) =>
         error.failure.orderAccepted || Refee.ReadActivation(c.refeeConfigured, env.refee).NotPlaced?
  }

  /** The record of an order it writes can be read back. */
  predicate SettlesOrder(c: Config, env: Env) {
    ProfeeX.ReadActivation(c.profeexConfigured, env.profeex).Activating? ==> Settled(env)
  }

  /** What an order attempt does: it gets an order taken or not, which reaches the record or not. */
  ghost predicate AskFacts(record: Option<Record>, call: Call, takes: bool, loses: bool, settles: bool) {
    var filed, taken := Count(call.events, FILED), Count(call.events, TAKEN);
    && FiledIsFinal(call.events)
    && taken == (if takes then 1 else 0)
    && filed == (if takes && !loses then 1 else 0)
    && (filed == 0 ==> call.record == record)
    && (filed == 1 && settles ==> !KindOf(call.record).Unusable?)
  }

  lemma CountFew(e: Event, f: Event, p: Event -> bool)
    ensures Count([], p) == 0
    ensures Count([e], p) == if p(e) then 1 else 0
    ensures Count([e, f], p) == (if p(e) then 1 else 0) + if p(f) then 1 else 0
  {
    CountBefore(e, [], p);
    CountBefore(f, [], p);
    assert [e] + [] == [e] && [f] + [] == [f] && [e] + [f] == [e, f];
    CountBefore(e, [f], p);
  }

  lemma AskRefeeFacts(c: Config, env: Env, record: Option<Record>)
    ensures
      var loses :=
        env.death == Some(BeforeFiling) || !env.filed || Refee.ReadActivation(c.refeeConfigured, env.refee).NotPlaced?;
      AskFacts(record, AskRefee(c, env, record), RefeeTakes(c, env), loses, true)
  {
    var call := AskRefee(c, env, record);
    UpperKeeps();
    var e := if call.events == [] then Asked(ReFee, true) else call.events[0];
    var f := if |call.events| < 2 then e else call.events[1];
    CountFew(e, f, FILED);
    CountFew(e, f, TAKEN);
    assert call.events == [] || call.events == [e] || call.events == [e, f];
  }

  lemma TakenReply(c: Config, env: Env)
    requires ProfeeX.ReadActivation(c.profeexConfigured, env.profeex).Activating?
    ensures
      var reply := ProfeeX.ReadActivation(c.profeexConfigured, env.profeex);
      && c.profeexConfigured && reply.taskId != "" && reply.order.id == Text(reply.taskId)
      && (KnownReply(env.profeex) <==> Known(reply.order.status))
  {
    UpperKeeps();
  }

  lemma KnownIsUsable(order: Order)
    requires UsableId(order).Some?
    ensures Known(order.status) <==> !KindOf(Some(RecordOf(order))).Unusable?
  {
  }

  lemma FiledIsUsable(c: Config, env: Env)
    requires ProfeeX.ReadActivation(c.profeexConfigured, env.profeex).Activating?
    ensures
      var reply := ProfeeX.ReadActivation(c.profeexConfigured, env.profeex);
      Settled(env) ==>
        !KindOf(WatchCall(c, env, Some(RecordOf(reply.order)), reply.taskId, reply.order).record).Unusable?
  {
    TakenReply(c, env);
    var reply := ProfeeX.ReadActivation(c.profeexConfigured, env.profeex);
    KnownIsUsable(reply.order);
    WatchCallOnlyResumes(c, env, Some(RecordOf(reply.order)), reply.taskId, reply.order);
    hide WatchCall, KindOf, ProfeeX.ReadActivation, Known;
  }

  lemma FiledFacts(record: Option<Record>, asked: Event, filed: Event, rest: Call, settles: bool)
    requires asked == Asked(ProfeeX, true) && filed.Filed? && OnlyResumes(rest.events)
    requires settles ==> !KindOf(rest.record).Unusable?
    ensures AskFacts(record, Before(asked, Before(filed, rest)), true, false, settles)
  {
    hide KindOf;
    ResumingCounts(rest.events);
    CountBefore(filed, rest.events, FILED);
    CountBefore(filed, rest.events, TAKEN);
    CountBefore(asked, [filed] + rest.events, FILED);
    CountBefore(asked, [filed] + rest.events, TAKEN);
  }

  /** An attempt that is asked for but not written: `asked` says whether it was taken. */
  lemma JustAsked(record: Option<Record>, asked: Event, result: Result, loses: bool, settles: bool)
    requires asked.Asked? && (asked.taken ==> loses)
    ensures AskFacts(record, Call(record, [asked], result), asked.taken, loses, settles)
    ensures AskFacts(record, Call(record, [], result), false, loses, settles)
  {
    CountFew(asked, asked, FILED);
    CountFew(asked, asked, TAKEN);
  }

  lemma AfterRejection(record: Option<Record>, asked: Event, call: Call, takes: bool, loses: bool, settles: bool)
    requires AskFacts(record, call, takes, loses, settles) && asked == Asked(ProfeeX, false)
    ensures AskFacts(record, call.(events := [asked] + call.events), takes, loses, settles)
  {
    hide KindOf;
    CountBefore(asked, call.events, FILED);
    CountBefore(asked, call.events, TAKEN);
  }

  lemma TakenByProfeeX(c: Config, env: Env, record: Option<Record>)
    requires ProfeeX.ReadActivation(c.profeexConfigured, env.profeex).Activating?
    ensures AskFacts(record, Ask(c, env, record), TakesOrder(c, env), LosesOrder(c, env), SettlesOrder(c, env))
  {
    TakenReply(c, env);
    FiledIsUsable(c, env);
    var reply := ProfeeX.ReadActivation(c.profeexConfigured, env.profeex);
    var asked, filed := Asked(ProfeeX, true), Filed(ProfeeX, reply.taskId);
    hide WatchCall, KindOf, ProfeeX.ReadActivation, Settled, KnownReply, AskFacts;
    if env.death != Some(BeforeFiling) && env.filed {
      WatchCallOnlyResumes(c, env, Some(RecordOf(reply.order)), reply.taskId, reply.order);
      FiledFacts(
        record, asked, filed, WatchCall(c, env, Some(RecordOf(reply.order)), reply.taskId, reply.order), Settled(env));
    } else {
      JustAsked(record, asked, Ask(c, env, record).result, true, Settled(env));
      assert Ask(c, env, record) == Call(record, [asked], Ask(c, env, record).result);
    }
  }

  lemma RejectionFacts(c: Config, env: Env)
    requires ProfeeX.ReadActivation(c.profeexConfigured, env.profeex).NotActivating?
    ensures
      var failure := ProfeeX.ReadActivation(c.profeexConfigured, env.profeex).error.failure;
      failure.orderAccepted ==> !failure.fallbackEligible && c.profeexConfigured
  {
  }

  lemma NotTakenByProfeeX(c: Config, env: Env, record: Option<Record>)
    requires ProfeeX.ReadActivation(c.profeexConfigured, env.profeex).NotActivating?
    ensures AskFacts(record, Ask(c, env, record), TakesOrder(c, env), LosesOrder(c, env), SettlesOrder(c, env))
  {
    RejectionFacts(c, env);
    hide AskFacts, ProfeeX.ReadActivation, Refee.ReadActivation, RefeeTakes;
    var error := ProfeeX.ReadActivation(c.profeexConfigured, env.profeex).error;
    var asked := Asked(ProfeeX, error.failure.orderAccepted);
    if MayFallBack(error) && c.fallback {
      AskRefeeFacts(c, env, record);
      var refee := AskRefee(c, env, record);
      AfterRejection(record, asked, refee, TakesOrder(c, env), LosesOrder(c, env), true);
      assert [] + refee.events == refee.events;
      assert refee.(events := refee.events) == refee;
    } else {
      JustAsked(record, asked, Ask(c, env, record).result, LosesOrder(c, env), true);
    }
  }

  /** What a sequence of calls keeps. */
  ghost predicate TraceInv(trace: Trace) {
    var filed := Count(trace.events, FILED);
    && FiledIsFinal(trace.events)
    && filed <= 1
    && if filed == 0 then trace.record.None? else !KindOf(trace.record).Unusable?
  }

  lemma {:induction false} CountZero(events: seq<Event>)
    requires Count(events, FILED) == 0
    ensures forall i :: 0 <= i < |events| ==> !events[i].Filed?
  {
    if events != [] {
      CountZero(events[..|events| - 1]);
    }
  }

  lemma FinalThenResumes(a: seq<Event>, b: seq<Event>)
    requires FiledIsFinal(a) && FiledIsFinal(b) && (OnlyResumes(b) || forall i :: 0 <= i < |a| ==> !a[i].Filed?)
    ensures FiledIsFinal(a + b)
  {
  }

  /** The call gets as far as reading the record. */
  predicate Reaches(env: Env) {
    env.atStart.New? && env.lock.Acquired? && env.underLock.New? && env.readable
  }

  lemma EarlyCall(c: Config, env: Env, record: Option<Record>)
    requires !Reaches(env)
    ensures Activate(c, env, record) == Call(record, [], Activate(c, env, record).result)
  {
    hide Ask, WatchCall, KindOf;
  }

  /** What a call that reaches the record does with each kind of it. */
  lemma ReachingCall(c: Config, env: Env, record: Option<Record>)
    requires Reaches(env)
    ensures
      var call := Activate(c, env, record);
      match KindOf(record)
      case FailedBefore => record.Some? && call == Call(record, [], Error(FailedRecordCode(record.value), false))
      case Succeeded => call == Call(record, [], call.result) && (env.onRecord.New? ==> call.result == PENDING_ERROR)
      case Resumable(taskId) => record.Some? && taskId != "" &&
        call == WatchCall(
          c, env, record, taskId, Order(Text(taskId), Text(ShownStatus(record.value.status)), None, None))
      case Unusable => call == Ask(c, env, record)
  {
    assert KindOf(record).Resumable? ==> record.Some? && KindOf(record).taskId != "";
    assert KindOf(record).FailedBefore? ==> record.Some?;
    hide Ask, WatchCall, KindOf;
  }

  /** A call either asks, on an unusable record, or only resumes and leaves a usable record usable. */
  lemma CallFacts(c: Config, env: Env, record: Option<Record>)
    ensures
      var call := Activate(c, env, record);
      if KindOf(record).Unusable? then
        AskFacts(record, call, Reaches(env) && TakesOrder(c, env), LosesOrder(c, env), SettlesOrder(c, env))
      else OnlyResumes(call.events) && !KindOf(call.record).Unusable?
  {
    if !Reaches(env) {
      EarlyCall(c, env, record);
    } else {
      ReachingCall(c, env, record);
      hide Activate, KindOf, WatchCall, Ask, AskFacts;
      match KindOf(record)
      case FailedBefore =>
      case Succeeded =>
      case Resumable(taskId) =>
        WatchCallOnlyResumes(
          c, env, record, taskId, Order(Text(taskId), Text(ShownStatus(record.value.status)), None, None));
      case Unusable =>
        if ProfeeX.ReadActivation(c.profeexConfigured, env.profeex).Activating? {
          TakenByProfeeX(c, env, record);
        } else {
          NotTakenByProfeeX(c, env, record);
        }
    }
  }

  lemma {:induction false} CallsKeepInv(c: Config, envs: seq<Env>)
    requires forall i :: 0 <= i < |envs| ==> SettlesOrder(c, envs[i])
    ensures TraceInv(Calls(c, envs))
  {
    if envs != [] {
      var earlier := envs[..|envs| - 1];
      CallsKeepInv(c, earlier);
      NextCallKeepsInv(c, Calls(c, earlier), envs[|envs| - 1]);
    }
  }

  lemma NextCallKeepsInv(c: Config, trace: Trace, env: Env)
    requires TraceInv(trace) && SettlesOrder(c, env)
    ensures
      var call := Activate(c, env, trace.record);
      TraceInv(Trace(call.record, trace.events + call.events))
  {
    hide Activate, SettlesOrder, LosesOrder, TakesOrder, KindOf;
    var call := Activate(c, env, trace.record);
    CallFacts(c, env, trace.record);
    CountConcat(trace.events, call.events, FILED);
    NoRecordIsUnusable();
    if KindOf(trace.record).Unusable? {
      CountZero(trace.events);
    } else {
      ResumingCounts(call.events);
    }
    FinalThenResumes(trace.events, call.events);
  }

  lemma NoRecordIsUnusable()
    ensures KindOf(None).Unusable?
  {
  }

  /** At most one activation is ever recorded, and once it is, later calls order nothing. */
  lemma PlacedOnce(c: Config, envs: seq<Env>)
    requires forall i :: 0 <= i < |envs| ==> SettlesOrder(c, envs[i])
    ensures Count(Calls(c, envs).events, FILED) <= 1
    ensures FiledIsFinal(Calls(c, envs).events)
  {
    CallsKeepInv(c, envs);
  }

  /** The call does not lose an order, if it gets one taken at all. */
  predicate KeepsOrder(c: Config, env: Env) {
    Reaches(env) && TakesOrder(c, env) ==> !LosesOrder(c, env)
  }

  /** If besides every order that is taken reaches the record, at most one is ever taken. */
  lemma {:induction false} TakenIsFiled(c: Config, envs: seq<Env>)
    requires forall i :: 0 <= i < |envs| ==> SettlesOrder(c, envs[i]) && KeepsOrder(c, envs[i])
    ensures Count(Calls(c, envs).events, TAKEN) == Count(Calls(c, envs).events, FILED) <= 1
  {
    hide Activate, SettlesOrder, LosesOrder, TakesOrder, Reaches, KindOf;
    CallsKeepInv(c, envs);
    if envs != [] {
      var earlier, env := envs[..|envs| - 1], envs[|envs| - 1];
      TakenIsFiled(c, earlier);
      var trace := Calls(c, earlier);
      var call := Activate(c, env, trace.record);
      CallFacts(c, env, trace.record);
      CountConcat(trace.events, call.events, FILED);
      CountConcat(trace.events, call.events, TAKEN);
      if !KindOf(trace.record).Unusable? {
        ResumingCounts(call.events);
      }
    }
  }

  /** A call that gets through, with an order taken under the given id and status. */
  function Ordering(id: Field, status: Field, death: Option<Death>): Env {
    Env(New, Acquired, New, true, New, Reply(ACCEPTED, Some(Order(id, status, None, None))), New,
        NoReply(OtherError), true, [], true, New, death)
  }

  /** A taken order without a task id leaves no record, so the next call orders again. */
  lemma LostOrderIsPlacedAgain(c: Config)
    requires c.profeexConfigured
    ensures
      var lost := Ordering(Absent, Absent, None);
      && Settled(lost)
      && Count(Calls(c, [lost, lost]).events, TAKEN) == 2
  {
    var lost := Ordering(Absent, Absent, None);
    var asked := Asked(ProfeeX, true);
    var call := Activate(c, lost, None);
    assert call == Call(None, [asked], Error(AcceptedOrderWithoutTaskId, true));
    assert [lost, lost][..1] == [lost] && [lost][..0] == [];
    assert Calls(c, []) == Trace(None, []);
    assert Calls(c, [lost]) == Trace(None, [] + [asked]);
    assert Calls(c, [lost, lost]).events == [asked, asked];
    CountFew(asked, asked, TAKEN);
  }

  lemma TwoCalls(c: Config, first: Env, second: Env)
    ensures
      var call := Activate(c, first, None);
      Calls(c, [first, second]).events == call.events + Activate(c, second, call.record).events
  {
    hide Activate;
    assert [first, second][..1] == [first] && [first][..0] == [];
    var call := Activate(c, first, None);
    assert Calls(c, [first]) == Trace(call.record, [] + call.events);
    assert [] + call.events == call.events;
  }

  /** After a call that leaves a usable record nothing is ordered or recorded as new. */
  lemma UsableEndsOrders(c: Config, first: Env, second: Env)
    requires !KindOf(Activate(c, first, None).record).Unusable?
    ensures
      var call, both := Activate(c, first, None), Calls(c, [first, second]);
      Count(both.events, TAKEN) == Count(call.events, TAKEN) && Count(both.events, FILED) == Count(call.events, FILED)
  {
    hide Activate, KindOf;
    var call := Activate(c, first, None);
    var later := Activate(c, second, call.record);
    CallFacts(c, second, call.record);
    ResumingCounts(later.events);
    TwoCalls(c, first, second);
    CountConcat(call.events, later.events, TAKEN);
    CountConcat(call.events, later.events, FILED);
  }

  /** The answer that orders again: a task with a fresh id and no status. */
  function Again(): Env {
    Ordering(Text("again"), Absent, None)
  }

  lemma AgainIsTaken(c: Config)
    requires c.profeexConfigured
    ensures ProfeeX.ReadActivation(c.profeexConfigured, Again().profeex).Activating? && Reaches(Again())
    ensures TakesOrder(c, Again()) && !LosesOrder(c, Again())
  {
  }

  /** After a call that leaves an unusable record the same can happen once more. */
  lemma UnusableRepeatsOrder(c: Config, first: Env)
    requires c.profeexConfigured && KindOf(Activate(c, first, None).record).Unusable?
    ensures
      var call, both := Activate(c, first, None), Calls(c, [first, Again()]);
      && Count(both.events, TAKEN) == Count(call.events, TAKEN) + 1
      && Count(both.events, FILED) == Count(call.events, FILED) + 1
  {
    AgainIsTaken(c);
    hide Activate, KindOf, TakesOrder, LosesOrder, SettlesOrder, Again;
    var call := Activate(c, first, None);
    var later := Activate(c, Again(), call.record);
    CallFacts(c, Again(), call.record);
    TwoCalls(c, first, Again());
    CountConcat(call.events, later.events, TAKEN);
    CountConcat(call.events, later.events, FILED);
  }

  lemma UnsettledLeavesUnusable(c: Config, first: Env)
    requires Reaches(first) && ProfeeX.ReadActivation(c.profeexConfigured, first.profeex).Activating?
    requires first.filed && first.death != Some(BeforeFiling) && !Settled(first)
    ensures KindOf(Activate(c, first, None).record).Unusable?
  {
    NoRecordIsUnusable();
    TakenReply(c, first);
    ReachingCall(c, first, None);
    var reply := ProfeeX.ReadActivation(c.profeexConfigured, first.profeex);
    KnownIsUsable(reply.order);
    hide Activate, KindOf, ProfeeX.ReadActivation, Known, KnownReply, Watch;
    assert Ask(c, first, None).record
        == WatchCall(c, first, Some(RecordOf(reply.order)), reply.taskId, reply.order).record;
  }

  /** A first call that gets an order taken leaves an unusable record exactly if it loses the order or does
      not settle it. */
  lemma FirstOrderLeaves(c: Config, first: Env)
    requires Reaches(first) && TakesOrder(c, first)
    ensures KindOf(Activate(c, first, None).record).Unusable? <==> LosesOrder(c, first) || !SettlesOrder(c, first)
  {
    NoRecordIsUnusable();
    CallFacts(c, first, None);
    if !LosesOrder(c, first) && !SettlesOrder(c, first) {
      UnsettledLeavesUnusable(c, first);
    }
    hide Activate, KindOf, ProfeeX.ReadActivation, Refee.ReadActivation, Settled;
  }

  /** After a first call has got an order taken, a later one can get a second taken if and only if the first
      lost its order or did not settle it. */
  lemma SecondOrderNeedsLostFirst(c: Config, first: Env)
    requires Reaches(first) && TakesOrder(c, first)
    ensures (exists second :: Count(Calls(c, [first, second]).events, TAKEN) == 2)
            <==> LosesOrder(c, first) || !SettlesOrder(c, first)
  {
    SecondAfterFirst(c, first);
    NoRecordIsUnusable();
    CallFacts(c, first, None);
    hide Activate, KindOf, TakesOrder, LosesOrder, SettlesOrder, Reaches, Again;
    if KindOf(Activate(c, first, None).record).Unusable? {
      assert Count(Calls(c, [first, Again()]).events, TAKEN) == 2;
    }
  }

  /** After a first call has recorded an activation, a later one can record a second if and only if the first
      did not settle it. */
  lemma SecondTaskNeedsUnsettledFirst(c: Config, first: Env)
    requires Reaches(first) && TakesOrder(c, first) && !LosesOrder(c, first)
    ensures (exists second :: Count(Calls(c, [first, second]).events, FILED) == 2) <==> !SettlesOrder(c, first)
  {
    SecondAfterFirst(c, first);
    NoRecordIsUnusable();
    CallFacts(c, first, None);
    hide Activate, KindOf, TakesOrder, LosesOrder, SettlesOrder, Reaches, Again;
    if KindOf(Activate(c, first, None).record).Unusable? {
      assert Count(Calls(c, [first, Again()]).events, FILED) == 2;
    }
  }

  lemma TakerIsConfigured(c: Config, env: Env)
    requires TakesOrder(c, env)
    ensures c.profeexConfigured
  {
  }

  lemma SecondAfterFirst(c: Config, first: Env)
    requires Reaches(first) && TakesOrder(c, first)
    ensures
      var call := Activate(c, first, None);
      && (KindOf(call.record).Unusable? <==> LosesOrder(c, first) || !SettlesOrder(c, first))
      && (if KindOf(call.record).Unusable? then
            && Count(Calls(c, [first, Again()]).events, TAKEN) == Count(call.events, TAKEN) + 1
            && Count(Calls(c, [first, Again()]).events, FILED) == Count(call.events, FILED) + 1
          else
            forall second ::
              && Count(Calls(c, [first, second]).events, TAKEN) == Count(call.events, TAKEN)
              && Count(Calls(c, [first, second]).events, FILED) == Count(call.events, FILED))
  {
    FirstOrderLeaves(c, first);
    TakerIsConfigured(c, first);
    hide Activate, KindOf, TakesOrder, LosesOrder, SettlesOrder, Reaches, Again;
    var call := Activate(c, first, None);
    if KindOf(call.record).Unusable? {
      UnusableRepeatsOrder(c, first);
    } else {
      forall second
        ensures Count(Calls(c, [first, second]).events, TAKEN) == Count(call.events, TAKEN)
        ensures Count(Calls(c, [first, second]).events, FILED) == Count(call.events, FILED)
      {
        UsableEndsOrders(c, first, second);
      }
    }
  }

  /** With some reply a call can get an order taken exactly when the record is unusable. */
  lemma OrdersOnlyOnUnusableRecord(c: Config, record: Option<Record>)
    requires c.profeexConfigured
    ensures (exists env :: Count(Activate(c, env, record).events, TAKEN) > 0) <==> KindOf(record).Unusable?
  {
    hide Activate, KindOf, Ask, Again;
    if KindOf(record).Unusable? {
      AgainIsTaken(c);
      CallFacts(c, Again(), record);
      assert Count(Activate(c, Again(), record).events, TAKEN) > 0;
    } else {
      forall env
        ensures Count(Activate(c, env, record).events, TAKEN) == 0
      {
        CallFacts(c, env, record);
        ResumingCounts(Activate(c, env, record).events);
      }
    }
  }

  function Next(order: Order, reply: Reply): Order {
    if Readable(reply) then reply.body.value else order
  }

  lemma {:induction false} LastOrderFromFront(initial: Order, replies: seq<Reply>)
    requires replies != []
    ensures LastOrder(initial, replies) == LastOrder(Next(initial, replies[0]), replies[1..])
  {
    var earlier, last := replies[..|replies| - 1], replies[|replies| - 1];
    if earlier != [] {
      LastOrderFromFront(initial, earlier);
      assert earlier[1..] == replies[1..][..|replies| - 2];
    }
  }

  /** The provider's polling loop ends with exactly what `Watch` says. */
  lemma {:induction false} WaitIsWatch(
    initial: Order, taskId: string, replies: seq<Reply>, result: ProfeeX.WaitResult,
    successes: set<string>, failures: set<string>)
    requires
      successes == ProfeeX.ACTIVATION_SUCCESS_STATUSES && failures == ProfeeX.ACTIVATION_FAILURE_STATUSES
    requires result == ProfeeX.WaitOutcome(LastOrder(initial, replies), taskId, successes, failures)
    requires ProfeeX.UndecidedBefore(initial, replies, taskId, successes, failures)
    ensures result == Watch(initial, taskId, replies)
    decreases |replies|
  {
    hide ProfeeX.Decision;
    if replies != [] {
      assert replies[..0] == [];
      assert LastOrder(initial, replies[..0]) == initial;
      assert ProfeeX.Decision(initial, taskId, successes, failures).None?;
      var next, rest := Next(initial, replies[0]), replies[1..];
      LastOrderFromFront(initial, replies);
      forall k | 0 <= k < |rest|
        ensures ProfeeX.Decision(LastOrder(next, rest[..k]), taskId, successes, failures).None?
      {
        LastOrderFromFront(initial, replies[..k + 1]);
        assert replies[..k + 1][1..] == rest[..k];
      }
      WaitIsWatch(next, taskId, rest, result, successes, failures);
    }
  }

  /** The record of one destination, with what happened to it. */
  class Desk {
    var record: Option<Record>
    var events: seq<Event>

    constructor ()
      ensures record.None? && events == []
    {
      record, events := None, [];
    }

    /** Write the record; the write can fail. */
    method Store(next: Record, succeeds: bool)
      modifies this`record
      ensures record == if succeeds then Some(next) else old(record)
    {
      if succeeds {
        record := Some(next);
      }
    }

    /** Poll the task on record, note what came of it, and look at the destination again. */
    method WaitForTask(c: Config, env: Env, taskId: string, order: Order) returns (result: Result)
      modifies this
      ensures
        var call := WatchCall(c, env, old(record), taskId, order);
        record == call.record && events == old(events) + call.events && result == call.result
    {
      hide Watch, RecordOf, FailureRecord, ProfeeXErrorCode;
      if !c.profeexConfigured {
        return Error(ConfigurationError, false);
      }
      if env.death == Some(BeforeWatching) {
        return Died;
      }
      events := events + [Watched(taskId)];
      if env.death == Some(BeforeNoting) {
        return Died;
      }
      match Watch(order, taskId, env.replies)
      case Failed(error) =>
        var failed := FailureRecord(taskId, error);
        Store(failed, env.noted);
        if env.noted {
          events := events + [Noted(failed)];
        }
        result := Error(ProfeeXErrorCode(error.code), error.temporary);
      case Reached(last) =>
        Store(RecordOf(last), env.noted);
        if !env.noted {
          return STORE_ERROR;
        }
        events := events + [Noted(RecordOf(last))];
        match env.afterwards
        case Active => result := Activated(Some(taskId), last.status);
        case New => result := PENDING_ERROR;
        case NoAnswer => result := QUOTE_ERROR;
    }

    /** Go down the provider chain without a task on record. */
    method OrderActivation(c: Config, env: Env) returns (result: Result)
      modifies this
      ensures
        var call := Ask(c, env, old(record));
        record == call.record && events == old(events) + call.events && result == call.result
    {
      hide ProfeeX.ReadActivation, Refee.ReadActivation, MayFallBack, ProfeeXErrorCode, RefeeErrorCode, RecordOf,
        WatchCall;
      var chain := [ProfeeX] + if c.fallback then [ReFee] else [];
      var lastError := Error(ActivationUnavailable, false);
      ghost var asked: seq<Event> := [];
      for i := 0 to |chain|
        invariant record == old(record) && events == old(events) + asked
        invariant i == 0 ==> asked == []
        invariant i >= 1 && |chain| >= 2 ==>
                    var refee := AskRefee(c, env, record);
                    i == 1 && Ask(c, env, record) == refee.(events := asked + refee.events)
        invariant i == |chain| ==> Ask(c, env, record) == Call(record, asked, lastError)
      {
        if chain[i] == ReFee {
          result := OrderFromRefee(c, env);
          return;
        }
        match ProfeeX.ReadActivation(c.profeexConfigured, env.profeex)
        case Activating(taskId, order) =>
          events := events + [Asked(ProfeeX, true)];
          if env.death == Some(BeforeFiling) {
            return Died;
          }
          Store(RecordOf(order), env.filed);
          if !env.filed {
            return STORE_ERROR;
          }
          events := events + [Filed(ProfeeX, taskId)];
          result := WaitForTask(c, env, taskId, order);
          return;
        case NotActivating(error) =>
          if c.profeexConfigured {
            events := events + [Asked(ProfeeX, error.failure.orderAccepted)];
            asked := [Asked(ProfeeX, error.failure.orderAccepted)];
          }
          if error.code == DuplicateRequest && env.onDuplicate != New {
            return if env.onDuplicate.Active? then AlreadyActive else QUOTE_ERROR;
          }
          lastError := Error(ProfeeXErrorCode(error.code), error.temporary);
          if !MayFallBack(error) {
            return lastError;
          }
      }
      result := lastError;
    }

    method OrderFromRefee(c: Config, env: Env) returns (result: Result)
      modifies this
      ensures
        var call := AskRefee(c, env, old(record));
        record == call.record && events == old(events) + call.events && result == call.result
    {
      hide Refee.ReadActivation, RefeeErrorCode;
      match Refee.ReadActivation(c.refeeConfigured, env.refee)
      case AlreadyActive =>
        events := events + [Asked(ReFee, false)];
        result := AlreadyActive;
      case NotPlaced(code, temporary) =>
        if c.refeeConfigured {
          events := events + [Asked(ReFee, env.refee.Reply? && env.refee.status == 200)];
        }
        result := Error(RefeeErrorCode(code), temporary);
      case Placed(hash) =>
        events := events + [Asked(ReFee, true)];
        if env.death == Some(BeforeFiling) {
          return Died;
        }
        Store(Record(Absent, Some(hash), Text("COMPLETED"), None), env.filed);
        if !env.filed {
          return STORE_ERROR;
        }
        events := events + [Filed(ReFee, hash)];
        result := Activated(Some(hash), Text("COMPLETED"));
    }

    /** One call, from the first look at the destination to the result. */
    method EnsureActivated(c: Config, env: Env) returns (result: Result)
      modifies this
      ensures
        var call := Activate(c, env, old(record));
        record == call.record && events == old(events) + call.events && result == call.result
    {
      hide Ask, WatchCall, ShownStatus;
      match env.atStart {
        case Active => return AlreadyActive;
        case NoAnswer => return QUOTE_ERROR;
        case New =>
      }
      match env.lock {
        case Down => return STORE_ERROR;
        case TimedOut => return PENDING_ERROR;
        case Acquired =>
      }
      match env.underLock {
        case Active => return AlreadyActive;
        case NoAnswer => return QUOTE_ERROR;
        case New =>
      }
      if !env.readable {
        return STORE_ERROR;
      }
      match KindOf(record)
      case FailedBefore => result := Error(FailedRecordCode(record.value), false);
      case Succeeded =>
        match env.onRecord {
          case Active =>
            var taskId := OrNone(record.value.taskId);
            result := Activated(
              if taskId.Some? then taskId else record.value.txnHash, Text(ShownStatus(record.value.status)));
          case New => result := PENDING_ERROR;
          case NoAnswer => result := QUOTE_ERROR;
        }
      case Resumable(taskId) =>
        result := WaitForTask(
          c, env, taskId, Order(Text(taskId), Text(ShownStatus(record.value.status)), None, None));
      case Unusable => result := OrderActivation(c, env);
    }
  }
}
