/** What a call to activate a destination answers, by what it is told alone: by the looks at the destination, the
    record, the replies of the providers and the writes that succeed. */
module ActivationResults {
  import opened Options
  import opened Failures
  import opened Providers
  import opened Texts
  import opened Activation
  import ProfeeX
  import Refee

  /** The destination is not active at first nor under the lock, and the record can be read. */
  predicate GetsToRecord(env: Env) {
    env.atStart == New && env.lock == Acquired && env.underLock == New && env.readable
  }

  /** A call that does not get to the record leaves it alone and asks nobody: it reports an active destination, or
      an error to be tried again. */
  lemma EndsBeforeRecord(c: Config, env: Env, record: Option<Record>)
    requires !GetsToRecord(env)
    ensures
      var call := Activate(c, env, record);
      && call.record == record && call.events == []
      && call.result
         == if env.atStart == Active then AlreadyActive
            else if env.atStart == NoAnswer then Error(ActivationQuoteUnavailable, true)
            else if env.lock == Down then Error(ActivationUnavailable, true)
            else if env.lock == TimedOut then Error(ActivationPending, true)
            else if env.underLock == Active then AlreadyActive
            else if env.underLock == NoAnswer then Error(ActivationQuoteUnavailable, true)
            else Error(ActivationUnavailable, true)
  {
  }

  /** What the look at the destination makes of an activation that is through. */
  predicate ConfirmedBy(answer: Answer, result: Result, activated: Result) {
    match answer
    case Active => result == activated
    case New => result == Error(ActivationPending, true)
    case NoAnswer => result == Error(ActivationQuoteUnavailable, true)
  }

  predicate Says(record: Option<Record>, statuses: set<string>) {
    record.Some? && record.value.status.Text? && Upper(record.value.status.value) in statuses
  }

  /** A record that neither ended nor names a task to go on with. */
  predicate Useless(record: Option<Record>) {
    && !Says(record, {"FAILED", "CANCELLED", "UNKNOWN"}) && !Says(record, {"ACTIVE", "COMPLETED"})
    && (Says(record, {"QUEUED", "PENDING", "PROCESSING"}) ==>
          !record.value.taskId.Text? || record.value.taskId.value == "")
  }

  /** A failed record is replayed as a lasting error, and one that succeeded stands if the destination is active
      by now. */
  lemma RecordDecides(c: Config, env: Env, record: Option<Record>)
    requires GetsToRecord(env)
    requires Says(record, {"FAILED", "CANCELLED", "UNKNOWN", "ACTIVE", "COMPLETED"})
    ensures
      var call, r := Activate(c, env, record), record.value;
      && call.record == record && call.events == []
      && (Says(record, {"FAILED", "CANCELLED", "UNKNOWN"}) ==>
            call.result
            == Error(
                 if r.errorCode.None? || r.errorCode.value == Unlisted("") then ActivationFailed
                 else r.errorCode.value,
                 false))
      && (Says(record, {"ACTIVE", "COMPLETED"}) ==>
            ConfirmedBy(
              env.onRecord, call.result,
              Activated(
                if r.taskId.Text? then Some(r.taskId.value) else r.txnHash, Text(Upper(r.status.value)))))
  {
  }

  /** What is known of a task after each reply: a 200 with a JSON object replaces the picture. */
  predicate Pictures(order: Order, replies: seq<Reply>, pictures: seq<Order>) {
    && 1 <= |pictures| <= |replies| + 1
    && pictures[0] == order
    && forall i :: 0 <= i < |pictures| - 1 ==>
         pictures[i + 1]
         == if replies[i].Reply? && replies[i].status == 200 && replies[i].body.Some? then replies[i].body.value
            else pictures[i]
  }

  predicate Waits(order: Order) {
    order.status == Text("QUEUED") || order.status == Text("PENDING") || order.status == Text("PROCESSING")
  }

  /** Polling stops at the last of these pictures: it is the first that does not wait, or time is up. */
  predicate StopsAt(replies: seq<Reply>, pictures: seq<Order>)
    requires pictures != []
  {
    && (forall i :: 0 <= i < |pictures| - 1 ==> Waits(pictures[i]))
    && (Waits(pictures[|pictures| - 1]) ==> |pictures| == |replies| + 1)
  }

  /** The code of a wait that did not succeed, by the last picture of the task. */
  function WaitCode(last: Order): Code {
    if Waits(last) then OrderTimeout
    else if last.status != Text("FAILED") && last.status != Text("CANCELLED") && last.status != Text("unknown") then
      UnknownError
    else if last.errorCode.Some? && last.errorCode.value != Unlisted("") then last.errorCode.value
    else if last.status == Text("FAILED") then OrderFailed
    else if last.status == Text("CANCELLED") then OrderCancelled
    else UnknownError
  }

  /** Nothing decided in time is temporary, a status nobody knows is not, and a failed task is unless its code
      names the request itself. */
  predicate WaitIsTemporary(last: Order) {
    var code := WaitCode(last);
    || Waits(last)
    || ((last.status == Text("FAILED") || last.status == Text("CANCELLED") || last.status == Text("unknown"))
        && code != InvalidAddress && code != InvalidParameters && code != AuthorizationError
        && code != IpNotWhitelisted && code != ConfigurationError)
  }

  predicate WaitFails(last: Order, code: Code, temporary: bool) {
    code == WaitCode(last) && temporary == WaitIsTemporary(last)
  }

  predicate Succeeds(order: Order) {
    order.status == Text("ACTIVE") || order.status == Text("COMPLETED")
  }

  lemma PictureDecides(order: Order, taskId: string)
    ensures
      match ProfeeX.Decision(
        order, taskId, ProfeeX.ACTIVATION_SUCCESS_STATUSES, ProfeeX.ACTIVATION_FAILURE_STATUSES)
      case None => Waits(order)
      case Some(Reached(end)) => !Waits(order) && end == order && Succeeds(order)
      case Some(Failed(error)) =>
        !Waits(order) && !Succeeds(order) && WaitFails(order, error.code, error.temporary)
  {
  }

  lemma TimeIsUp(order: Order, taskId: string)
    requires Waits(order)
    ensures
      var error := ProfeeX.TimeoutError(taskId);
      WaitFails(order, error.code, error.temporary) && !Succeeds(order)
  {
  }

  lemma {:induction false} WatchReads(order: Order, taskId: string, replies: seq<Reply>, pictures: seq<Order>)
    requires Pictures(order, replies, pictures) && StopsAt(replies, pictures)
    ensures
      var last := pictures[|pictures| - 1];
      match Watch(order, taskId, replies)
      case Reached(end) => end == last && Succeeds(last)
      case Failed(error) => !Succeeds(last) && WaitFails(last, error.code, error.temporary)
    decreases |replies|
  {
    hide ProfeeX.Decision, ProfeeX.TimeoutError, WaitFails, Waits, Succeeds;
    PictureDecides(order, taskId);
    if |pictures| > 1 {
      assert Waits(pictures[0]);
      assert Pictures(pictures[1], replies[1..], pictures[1..]);
      forall i | 0 <= i < |pictures[1..]| - 1
        ensures Waits(pictures[1..][i])
      {
        assert pictures[1..][i] == pictures[i + 1];
      }
      WatchReads(pictures[1], taskId, replies[1..], pictures[1..]);
    } else if Waits(order) {
      TimeIsUp(order, taskId);
    }
  }

  /** The call comes to follow a task: one on record, or one that ProfeeX just took and that was recorded. */
  predicate Follows(c: Config, env: Env, record: Option<Record>, taskId: string, order: Order) {
    && GetsToRecord(env) && c.profeexConfigured && taskId != ""
    && (|| (Says(record, {"QUEUED", "PENDING", "PROCESSING"}) && record.value.taskId == Text(taskId)
            && order == Order(Text(taskId), Text(Upper(record.value.status.value)), None, None))
        || (Useless(record) && env.filed && env.death != Some(BeforeFiling)
            && env.profeex.Reply? && env.profeex.status == 202 && env.profeex.body.Some?
            && env.profeex.body.value.id == Text(taskId)
            && order == env.profeex.body.value.(
                 status :=
                   if env.profeex.body.value.status == Absent then Text("PENDING")
                   else env.profeex.body.value.status)))
  }

  /** How following a task ends whose last picture is `last`. */
  predicate FollowedTo(env: Env, call: Call, taskId: string, last: Order) {
    if Succeeds(last) then
      if env.noted then
        && ConfirmedBy(env.afterwards, call.result, Activated(Some(taskId), last.status))
        && call.record == Some(Record(last.id, None, last.status, last.errorCode))
      else call.result == Error(ActivationUnavailable, true)
    else
      && call.result == Error(ProfeeXErrorCode(WaitCode(last)), WaitIsTemporary(last))
      && (env.noted ==>
            call.record
            == Some(Record(
                 Text(taskId), None, Text(if WaitIsTemporary(last) then "PROCESSING" else "FAILED"),
                 Some(WaitCode(last)))))
  }

  lemma WatchCallEnds(c: Config, env: Env, from: Option<Record>, taskId: string, order: Order, last: Order)
    requires c.profeexConfigured && env.death != Some(BeforeWatching) && env.death != Some(BeforeNoting)
    requires
      match Watch(order, taskId, env.replies)
      case Reached(end) => end == last && Succeeds(last)
      case Failed(error) => !Succeeds(last) && WaitFails(last, error.code, error.temporary)
    ensures FollowedTo(env, WatchCall(c, env, from, taskId, order), taskId, last)
  {
    hide Watch, Succeeds, WaitCode, WaitIsTemporary;
  }

  /** A followed task that becomes ACTIVE or COMPLETED activates the destination if that is noted and a last look
      finds it active; every other end is the error of the write, the look or the wait, and what the wait
      came to is what the next call finds on record. */
  lemma FollowedTask(
    c: Config, env: Env, record: Option<Record>, taskId: string, order: Order, pictures: seq<Order>)
    requires Follows(c, env, record, taskId, order)
    requires env.death != Some(BeforeWatching) && env.death != Some(BeforeNoting)
    requires Pictures(order, env.replies, pictures) && StopsAt(env.replies, pictures)
    ensures FollowedTo(env, Activate(c, env, record), taskId, pictures[|pictures| - 1])
  {
    hide WatchCall, Watch, Activate, Follows, FollowedTo, WaitFails, Succeeds;
    WatchReads(order, taskId, env.replies, pictures);
    var from := FollowsIsWatchCall(c, env, record, taskId, order);
    WatchCallEnds(c, env, from, taskId, order, pictures[|pictures| - 1]);
    SameEnd(env, WatchCall(c, env, from, taskId, order), Activate(c, env, record), taskId, pictures[|pictures| - 1]);
  }

  lemma SameEnd(env: Env, watched: Call, call: Call, taskId: string, last: Order)
    requires FollowedTo(env, watched, taskId, last) && call.result == watched.result && call.record == watched.record
    ensures FollowedTo(env, call, taskId, last)
  {
  }

  lemma FollowsIsWatchCall(c: Config, env: Env, record: Option<Record>, taskId: string, order: Order)
    returns (from: Option<Record>)
    requires Follows(c, env, record, taskId, order)
    ensures c.profeexConfigured
    ensures
      var call, watched := Activate(c, env, record), WatchCall(c, env, from, taskId, order);
      call.result == watched.result && call.record == watched.record
  {
    hide WatchCall;
    if Says(record, {"QUEUED", "PENDING", "PROCESSING"}) && record.value.taskId == Text(taskId) {
      from := record;
    } else {
      assert ProfeeX.ReadActivation(true, env.profeex) == ProfeeX.Activating(taskId, order);
      from := Some(RecordOf(order));
    }
  }

  /** The task id of an accepted order, if it can be used. */
  predicate NamesTask(reply: Reply) {
    reply.Reply? && reply.body.Some? && reply.body.value.id.Text? && reply.body.value.id.value != ""
  }

  /** The error code ProfeeX put into its reply, if any. */
  function CodeIn(reply: Reply): Option<Code> {
    if reply.NoReply? || reply.body.None? then None
    else if reply.body.value.errorCode.Some? then reply.body.value.errorCode
    else reply.body.value.detailCode
  }

  /** ProfeeX did not take an activation in a way that can be followed: the code it is reported under, whether the
      call may be repeated, and whether re:Fee may be asked instead. */
  datatype Refusal = Refusal(code: Code, temporary: bool, fallback: bool)

  function RefusalByStatus(status: int): Refusal {
    if status == 408 || status == 429 then Refusal(Http(status), true, true)
    else if status == 401 then Refusal(AuthorizationError, false, false)
    else if status == 403 then Refusal(IpNotWhitelisted, false, false)
    else if status == 400 || status == 422 then Refusal(InvalidParameters, false, false)
    else if status == 500 then Refusal(UnknownError, true, true)
    else if status == 502 || status == 504 then Refusal(Http(status), true, true)
    else if 500 <= status <= 599 then Refusal(ActivationUnavailable, true, true)
    else Refusal(UnknownError, false, true)
  }

  function RefusalByCode(status: int, code: Code): Refusal {
    Refusal(
      ProfeeXErrorCode(code),
      || code == DuplicateRequest || code == RateLimitExceeded || code == ServiceUnavailable
      || code == RequestTimeout
      || (code != InvalidAddress && code != InvalidParameters && code != ConfigurationError
          && code != InsufficientBalance && code != UnknownError
          && (status == 408 || status == 429 || 500 <= status <= 599)),
      && code != DuplicateRequest && code != ResourceReadFailed
      && code != InvalidAddress && code != InvalidParameters && code != AuthorizationError
      && code != IpNotWhitelisted && code != ConfigurationError && code != AcceptedOrderWithoutTaskId)
  }

  /** How ProfeeX refuses, by its configuration and its reply. */
  function RefusalOf(configured: bool, reply: Reply): Refusal {
    if !configured then Refusal(ConfigurationError, false, false)
    else if reply.NoReply? then Refusal(ActivationUnavailable, true, true)
    else if reply.status == 202 then Refusal(AcceptedOrderWithoutTaskId, true, false)
    else if reply.status == 409 then Refusal(ActivationDuplicate, true, false)
    else if reply.status == 503 then Refusal(ActivationUnavailable, true, true)
    else if CodeIn(reply).Some? then RefusalByCode(reply.status, CodeIn(reply).value)
    else RefusalByStatus(reply.status)
  }

  predicate Refuses(configured: bool, reply: Reply) {
    !configured || reply.NoReply? || reply.status != 202 || !NamesTask(reply)
  }

  /** ProfeeX says that the activation was already asked for. */
  predicate Repeats(configured: bool, reply: Reply) {
    && configured && reply.Reply?
    && (reply.status == 409 || (reply.status != 202 && reply.status != 503 && CodeIn(reply) == Some(DuplicateRequest)))
  }

  predicate Matches(read: ProfeeX.ActivationReply, refusal: Refusal, repeats: bool) {
    && read.NotActivating?
    && ProfeeXErrorCode(read.error.code) == refusal.code && read.error.temporary == refusal.temporary
    && (MayFallBack(read.error) <==> refusal.fallback)
    && (read.error.code == DuplicateRequest <==> repeats)
  }

  lemma CodeIsTemporary(status: int, code: Code)
    ensures ProfeeX.ActivationErrorIsTemporary(status, code) == RefusalByCode(status, code).temporary
  {
    hide ProfeeXErrorCode;
  }

  lemma CodeFallsBack(status: int, code: Code, temporary: bool)
    ensures
      MayFallBack(ProfeeX.OrderError(code, temporary, ProfeeX.Classify(code, None, false)))
      <==> RefusalByCode(status, code).fallback
  {
    hide ProfeeXErrorCode;
  }

  lemma StatusIsRead(status: int, body: Option<Order>)
    requires CodeIn(Reply.Reply(status, body)).None? && status !in {202, 409, 503}
    ensures Matches(ProfeeX.NotActivating(ProfeeX.ActivationRejected(status, body)), RefusalByStatus(status), false)
  {
    assert ProfeeX.PayloadErrorCode(body).None?;
  }

  lemma CodeIsRead(status: int, body: Option<Order>, code: Code)
    requires CodeIn(Reply.Reply(status, body)) == Some(code)
    ensures
      Matches(
        ProfeeX.NotActivating(ProfeeX.ActivationRejected(status, body)), RefusalByCode(status, code),
        code == DuplicateRequest)
  {
    assert ProfeeX.PayloadErrorCode(body) == Some(code);
    CodeIsTemporary(status, code);
    CodeFallsBack(status, code, RefusalByCode(status, code).temporary);
    hide ProfeeX.ActivationErrorIsTemporary, ProfeeX.Classify, ProfeeXErrorCode, MayFallBack, CodeIn;
  }

  lemma RefusalIsRead(configured: bool, reply: Reply)
    requires Refuses(configured, reply)
    ensures
      Matches(ProfeeX.ReadActivation(configured, reply), RefusalOf(configured, reply), Repeats(configured, reply))
  {
    if configured && reply.Reply? && reply.status !in {202, 409, 503} {
      hide Matches, CodeIn, RefusalByCode, RefusalByStatus, ProfeeX.ActivationRejected;
      if CodeIn(reply).Some? {
        CodeIsRead(reply.status, reply.body, CodeIn(reply).value);
      } else {
        StatusIsRead(reply.status, reply.body);
      }
    } else {
      hide ProfeeX.ActivationRejected, CodeIn, RefusalByCode, RefusalByStatus;
    }
  }

  /** How a call ends that asks re:Fee: a bad request means that the destination is active, and a 200 with a hash
      that was recorded means that it has been activated. */
  predicate RefeeAnswers(c: Config, env: Env, record: Option<Record>, call: Call) {
    var reply := env.refee;
    if !c.refeeConfigured then call.result == Error(ConfigurationError, false) && call.record == record
    else if reply.NoReply? then call.result == Error(ActivationUnavailable, true) && call.record == record
    else if reply.status == 400 then call.result == AlreadyActive && call.record == record
    else if reply.status == 401 || reply.status == 403 || reply.status == 422 then
      call.result == Error(ConfigurationError, false) && call.record == record
    else if reply.status != 200 then call.result == Error(ActivationUnavailable, true) && call.record == record
    else if !NamesTask(reply) then call.result == Error(ActivationInvalidResponse, false) && call.record == record
    else if reply.body.value.status == Text("already_active") then
      call.result == AlreadyActive && call.record == record
    else if env.death == Some(BeforeFiling) then call.result == Died && call.record == record
    else if !env.filed then call.result == Error(ActivationUnavailable, true) && call.record == record
    else
      var hash := Some(reply.body.value.id.value);
      && call.result == Activated(hash, Text("COMPLETED"))
      && call.record == Some(Record(Absent, hash, Text("COMPLETED"), None))
  }

  lemma RefeeIsRead(c: Config, env: Env, record: Option<Record>)
    ensures RefeeAnswers(c, env, record, AskRefee(c, env, record))
  {
  }

  /** A call on a useless record whose order ProfeeX refuses: a repeated order is looked into, re:Fee is asked if it
      is the fallback and the refusal allows it, and otherwise the refusal is the error. */
  lemma OrderRefused(c: Config, env: Env, record: Option<Record>)
    requires GetsToRecord(env) && Useless(record) && Refuses(c.profeexConfigured, env.profeex)
    ensures
      var call, refusal := Activate(c, env, record), RefusalOf(c.profeexConfigured, env.profeex);
      var repeats := Repeats(c.profeexConfigured, env.profeex);
      if repeats && env.onDuplicate == Active then call.result == AlreadyActive && call.record == record
      else if repeats && env.onDuplicate == NoAnswer then
        call.result == Error(ActivationQuoteUnavailable, true) && call.record == record
      else if refusal.fallback && c.fallback then RefeeAnswers(c, env, record, call)
      else call.result == Error(refusal.code, refusal.temporary) && call.record == record
  {
    UselessIsUnusable(record);
    hide Ask, KindOf, Useless, RefeeAnswers, RefusalOf, Repeats;
    AskRefused(c, env, record);
    assert Activate(c, env, record) == Ask(c, env, record);
  }

  lemma AskRefused(c: Config, env: Env, record: Option<Record>)
    requires Refuses(c.profeexConfigured, env.profeex)
    ensures
      var call, refusal := Ask(c, env, record), RefusalOf(c.profeexConfigured, env.profeex);
      var repeats := Repeats(c.profeexConfigured, env.profeex);
      if repeats && env.onDuplicate == Active then call.result == AlreadyActive && call.record == record
      else if repeats && env.onDuplicate == NoAnswer then
        call.result == Error(ActivationQuoteUnavailable, true) && call.record == record
      else if refusal.fallback && c.fallback then RefeeAnswers(c, env, record, call)
      else call.result == Error(refusal.code, refusal.temporary) && call.record == record
  {
    RefusalIsRead(c.profeexConfigured, env.profeex);
    RefeeIsRead(c, env, record);
    RefeeAnswerIs(c, env, record, AskRefee(c, env, record), Ask(c, env, record));
    hide RefusalOf, Repeats, ProfeeX.ReadActivation, ProfeeXErrorCode, MayFallBack, AskRefee, WatchCall, RefeeAnswers,
      Refuses;
  }

  lemma UselessIsUnusable(record: Option<Record>)
    requires Useless(record)
    ensures KindOf(record).Unusable?
  {
  }

  lemma RefeeAnswerIs(c: Config, env: Env, record: Option<Record>, refee: Call, call: Call)
    requires RefeeAnswers(c, env, record, refee)
    ensures call.result == refee.result && call.record == refee.record ==> RefeeAnswers(c, env, record, call)
  {
  }

  /** An order ProfeeX took that does not reach the record is an error to be tried again. */
  lemma OrderNotRecorded(c: Config, env: Env, record: Option<Record>)
    requires GetsToRecord(env) && Useless(record) && !Refuses(c.profeexConfigured, env.profeex)
    requires !env.filed || env.death == Some(BeforeFiling)
    ensures
      var call := Activate(c, env, record);
      && call.record == record
      && call.result == if env.death == Some(BeforeFiling) then Died else Error(ActivationUnavailable, true)
  {
    UselessIsUnusable(record);
    TakenIsRead(c.profeexConfigured, env.profeex);
    hide KindOf, WatchCall, ProfeeX.ReadActivation;
  }

  /** A task on record cannot be followed without ProfeeX's settings. */
  lemma TaskNotFollowed(c: Config, env: Env, record: Option<Record>)
    requires GetsToRecord(env) && !c.profeexConfigured
    requires Says(record, {"QUEUED", "PENDING", "PROCESSING"}) && !Useless(record)
    ensures
      var call := Activate(c, env, record);
      call.record == record && call.events == [] && call.result == Error(ConfigurationError, false)
  {
  }

  /** A destination is reported as activated only on a look that found it active after the activation, or on a
      hash of re:Fee that was recorded. */
  lemma ActivatedIsSeen(c: Config, env: Env, record: Option<Record>)
    requires Activate(c, env, record).result.Activated?
    ensures GetsToRecord(env)
    ensures
      || (Says(record, {"ACTIVE", "COMPLETED"}) && env.onRecord == Active)
      || (c.profeexConfigured && env.noted && env.afterwards == Active)
      || (c.fallback && c.refeeConfigured && env.filed && NamesTask(env.refee) && env.refee.status == 200
          && Activate(c, env, record).result == Activated(Some(env.refee.body.value.id.value), Text("COMPLETED")))
  {
    hide ProfeeX.ReadActivation, ProfeeXErrorCode, RefeeErrorCode, MayFallBack, Watch, RecordOf, FailureRecord;
  }

  /** A destination is reported as active already only if a look found it so, or re:Fee said it. */
  lemma AlreadyActiveIsSeen(c: Config, env: Env, record: Option<Record>)
    requires Activate(c, env, record).result.AlreadyActive?
    ensures
      || env.atStart == Active
      || (env.atStart == New && env.lock == Acquired && env.underLock == Active)
      || (GetsToRecord(env) && Repeats(c.profeexConfigured, env.profeex) && env.onDuplicate == Active)
      || (GetsToRecord(env) && c.fallback && c.refeeConfigured && env.refee.Reply?
          && (env.refee.status == 400
              || (env.refee.status == 200 && NamesTask(env.refee)
                  && env.refee.body.value.status == Text("already_active"))))
  {
    hide ProfeeX.ReadActivation, ProfeeXErrorCode, RefeeErrorCode, MayFallBack, Watch, RecordOf, FailureRecord,
      ShownStatus;
    if Refuses(c.profeexConfigured, env.profeex) {
      RefusalIsRead(c.profeexConfigured, env.profeex);
    } else {
      TakenIsRead(c.profeexConfigured, env.profeex);
    }
  }

  lemma TakenIsRead(configured: bool, reply: Reply)
    requires !Refuses(configured, reply)
    ensures ProfeeX.ReadActivation(configured, reply).Activating?
  {
  }
}
