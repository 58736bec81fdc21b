/** The ProfeeX provider: what it orders, how long it polls, and what a failure says about the order. */
module ProfeeX {
  import opened Options
  import opened Failures
  import opened Resources
  import opened Providers

  datatype Settings = Settings(
    fixedEnergy: int,
    fixedBandwidth: int,
    pollInterval: real,
    timeout: real,
    recheckAttempts: int,
    recheckSleep: real)

  predicate ValidSettings(s: Settings) {
    s.pollInterval > 0.0 && s.timeout > 0.0 && s.recheckAttempts >= 1 && s.recheckSleep >= 0.0
  }

  const FIXED_ENERGY_ORDER_TOLERANCE := 500

  const NON_FALLBACK_CODES: set<Code> := {
    InvalidAddress, InvalidParameters, AuthorizationError, IpNotWhitelisted, ConfigurationError,
    AcceptedOrderWithoutTaskId }

  const FALLBACK_ELIGIBLE_CODES: set<Code> := {
    NetworkError, RequestTimeout, DnsError, ConnectError, ReadError, ServiceUnavailable,
    Http(408), Http(429), Http(500), Http(502), Http(503), Http(504),
    RateLimitExceeded, InsufficientBalance, MalformedPreAcceptResponse,
    OrderTimeout, OrderFailed, OrderCancelled, ProcessingFailed, ResourceRecheckFailed,
    FixedBandwidthBelowRequired }

  const ACCEPTED_ORDER_TERMINAL_CODES: set<Code> := {
    InvalidAddress, InvalidParameters, AuthorizationError, IpNotWhitelisted, ConfigurationError }

  const PENDING_STATUSES: set<string> := { "QUEUED", "PENDING", "PROCESSING" }
  const SUCCESS_STATUSES: set<string> := { "ACTIVE" }
  const FAILURE_STATUSES: set<string> := { "FAILED", "CANCELLED", "COMPLETED", "unknown" }
  const ACTIVATION_SUCCESS_STATUSES: set<string> := { "ACTIVE", "COMPLETED" }
  const ACTIVATION_FAILURE_STATUSES: set<string> := { "FAILED", "CANCELLED", "unknown" }

  /** A fallback is allowed for every code, known or not, but the listed exceptions, and never once an
      order was accepted. */
  function Classify(code: Code, taskId: Option<string>, orderAccepted: bool): (failure: ProviderFailure)
    ensures failure.code == code && failure.taskId == taskId && failure.orderAccepted == orderAccepted
    ensures failure.fallbackEligible <==>
            !orderAccepted
            && code !in {
                 ResourceReadFailed, InvalidAddress, InvalidParameters, AuthorizationError, IpNotWhitelisted,
                 ConfigurationError, AcceptedOrderWithoutTaskId}
    ensures failure.temporary <==>
            && code !in {InvalidAddress, InvalidParameters, AuthorizationError, IpNotWhitelisted, ConfigurationError}
            && (orderAccepted || code != AcceptedOrderWithoutTaskId)
  {
    if orderAccepted then
      ProviderFailure(code, code !in ACCEPTED_ORDER_TERMINAL_CODES, false, true, taskId)
    else if code in FALLBACK_ELIGIBLE_CODES then
      ProviderFailure(code, true, true, orderAccepted, taskId)
    else if code == ResourceReadFailed then
      ProviderFailure(code, true, false, orderAccepted, taskId)
    else if code in NON_FALLBACK_CODES then
      ProviderFailure(code, false, false, orderAccepted, taskId)
    else
      ProviderFailure(code, true, !orderAccepted, orderAccepted, taskId)
  }

  function RequestErrorCode(error: RequestError): Code {
    match error
    case ReadTimeout => ReadError
    case ConnectTimeout => ConnectError
    case Timeout => RequestTimeout
    case ConnectionError => ConnectError
    case OtherError => NetworkError
  }

  function StatusFailureCode(status: int): Code {
    if status == 408 then Http(408)
    else if status == 429 then Http(429)
    else if status == 401 then AuthorizationError
    else if status == 403 then IpNotWhitelisted
    else if status == 400 || status == 422 then InvalidParameters
    else if status in {500, 502, 503, 504} then Http(status)
    else if 500 <= status <= 599 then ServiceUnavailable
    else UnknownError
  }

  function PayloadErrorCode(body: Option<Order>): Option<Code> {
    match body
    case None => None
    case Some(order) => if order.errorCode.Some? then order.errorCode else order.detailCode
  }

  function ResponseFailureCode(status: int, body: Option<Order>): Code {
    var code := PayloadErrorCode(body);
    if code.Some? && code.value != EMPTY_CODE then code.value else StatusFailureCode(status)
  }

  function TerminalStatusErrorCode(status: Field): Code {
    if status == Text("CANCELLED") then OrderCancelled
    else if status == Text("FAILED") then OrderFailed
    else UnknownError
  }

  /** The code a POST that got no 202 leaves behind. */
  function RejectionCode(reply: Reply): Code {
    match reply
    case NoReply(error) => RequestErrorCode(error)
    case Reply(status, body) => ResponseFailureCode(status, body)
  }

  /** What a refused request is called: by its exception, by the code the reply carries, or by its status; without
      a code, re:Fee may be asked unless the status says that the request itself is at fault. */
  lemma RefusalsAreNamed(reply: Reply)
    ensures
      match reply
      case NoReply(error) =>
        RejectionCode(reply)
        == (if error == ReadTimeout then ReadError
            else if error == ConnectTimeout || error == ConnectionError then ConnectError
            else if error == Timeout then RequestTimeout
            else NetworkError)
      case Reply(status, body) =>
        var said :=
          if body.None? then None
          else if body.value.errorCode.Some? then body.value.errorCode else body.value.detailCode;
        if said.Some? && said != Some(Unlisted("")) then RejectionCode(reply) == said.value
        else
          && RejectionCode(reply)
             == (if status in {408, 429, 500, 502, 503, 504} then Http(status)
                 else if status == 401 then AuthorizationError
                 else if status == 403 then IpNotWhitelisted
                 else if status in {400, 422} then InvalidParameters
                 else if 500 <= status <= 599 then ServiceUnavailable
                 else UnknownError)
          && (Classify(RejectionCode(reply), None, false).fallbackEligible <==> status !in {400, 401, 403, 422})
  {
  }

  /** The error raised by a failed wait or activation. */
  datatype OrderError = OrderError(code: Code, temporary: bool, failure: ProviderFailure)

  /** An accepted order without a status counts as pending. */
  function WithStatus(order: Order): Order {
    if order.status.Absent? then order.(status := Text("PENDING")) else order
  }

  function TerminalError(order: Order, taskId: string): OrderError {
    var code :=
      if order.errorCode.Some? && order.errorCode.value != EMPTY_CODE then order.errorCode.value
      else TerminalStatusErrorCode(order.status);
    var failure := Classify(code, Some(taskId), true);
    OrderError(code, failure.temporary, failure)
  }

  function UnexpectedStatusError(taskId: string): OrderError {
    OrderError(UnknownError, false, Classify(UnknownError, Some(taskId), true))
  }

  function TimeoutError(taskId: string): OrderError {
    OrderError(OrderTimeout, true, Classify(OrderTimeout, Some(taskId), true))
  }

  datatype WaitResult = Reached(order: Order) | Failed(error: OrderError)

  /** What the order's status decides, if anything. */
  function Decision(
    order: Order, taskId: string, successes: set<string>, failures: set<string>): Option<WaitResult>
  {
    if In(order.status, successes) then Some(Reached(order))
    else if In(order.status, failures) then Some(Failed(TerminalError(order, taskId)))
    else if !In(order.status, PENDING_STATUSES) then Some(Failed(UnexpectedStatusError(taskId)))
    else None
  }

  /** A wait ends with what the last order seen decides, or, while that is undecided, at the deadline. */
  function WaitOutcome(last: Order, taskId: string, successes: set<string>, failures: set<string>): WaitResult {
    match Decision(last, taskId, successes, failures)
    case Some(decided) => decided
    case None => Failed(TimeoutError(taskId))
  }

  /** No reply but the last may have decided anything. */
  predicate UndecidedBefore(
    initial: Order, replies: seq<Reply>, taskId: string, successes: set<string>, failures: set<string>)
  {
    forall k :: 0 <= k < |replies| ==>
      Decision(LastOrder(initial, replies[..k]), taskId, successes, failures).None?
  }

  lemma StillUndecided(
    initial: Order, replies: seq<Reply>, reply: Reply, taskId: string, successes: set<string>, failures: set<string>)
    requires UndecidedBefore(initial, replies, taskId, successes, failures)
    requires Decision(LastOrder(initial, replies), taskId, successes, failures).None?
    ensures UndecidedBefore(initial, replies + [reply], taskId, successes, failures)
  {
    hide Decision, LastOrder;
    forall k | 0 <= k <= |replies|
      ensures Decision(LastOrder(initial, (replies + [reply])[..k]), taskId, successes, failures).None?
    {
      assert (replies + [reply])[..k] == if k < |replies| then replies[..k] else replies;
    }
  }

  /** A failed wait always reports its task as accepted, and so bars a fallback. */
  lemma FailedWaitKeepsTheTask(last: Order, taskId: string, successes: set<string>, failures: set<string>)
    ensures
      match WaitOutcome(last, taskId, successes, failures)
      case Reached(order) => In(last.status, successes) && order == last
      case Failed(error) =>
        && !In(last.status, successes)
        && error.failure.orderAccepted
        && !error.failure.fallbackEligible
        && error.failure.taskId == Some(taskId)
  {
  }

  /** The wait for rented energy or bandwidth, by the status last seen: ACTIVE ends it well; at a status that waits
      it times out; any other is the failure of an accepted order. */
  lemma OrderWaitEnds(last: Order, taskId: string)
    ensures
      match WaitOutcome(last, taskId, SUCCESS_STATUSES, FAILURE_STATUSES)
      case Reached(order) => order == last && last.status == Text("ACTIVE")
      case Failed(error) =>
        && last.status != Text("ACTIVE") && error.failure == Classify(error.code, Some(taskId), true)
        && (if last.status in {Text("QUEUED"), Text("PENDING"), Text("PROCESSING")} then error.code == OrderTimeout
            else if last.status in {Text("FAILED"), Text("CANCELLED"), Text("COMPLETED"), Text("unknown")} then
              error.code == (
                if last.errorCode.Some? && last.errorCode != Some(Unlisted("")) then last.errorCode.value
                else if last.status == Text("FAILED") then OrderFailed
                else if last.status == Text("CANCELLED") then OrderCancelled
                else UnknownError)
            else error.code == UnknownError)
  {
  }

  /** How the reply to an order is read: only a 202 with a task id gives an order to wait for, and any
      other 202 is an accepted order that nobody can follow. */
  datatype OrderReply = Taken(taskId: string, order: Order) | NotTaken(failure: ProviderFailure)

  function ReadOrder(reply: Reply): (read: OrderReply)
    ensures read.Taken? <==>
            && reply.Reply? && reply.status == 202
            && reply.body.Some? && reply.body.value.id.Text? && reply.body.value.id.value != ""
    ensures read.Taken? ==>
              && reply.body.value.id == Text(read.taskId)
              && read.order == reply.body.value.(
                   status := if reply.body.value.status.Absent? then Text("PENDING") else reply.body.value.status)
    ensures read.NotTaken? ==> (read.failure.orderAccepted <==> reply.Reply? && reply.status == 202)
    ensures read.NotTaken? && read.failure.orderAccepted ==>
              !read.failure.fallbackEligible && read.failure.code == AcceptedOrderWithoutTaskId
    ensures read.NotTaken? && !read.failure.orderAccepted ==> read.failure.code == RejectionCode(reply)
  {
    if reply.NoReply? || reply.status != ACCEPTED then NotTaken(Classify(RejectionCode(reply), None, false))
    else if reply.body.None? || UsableId(reply.body.value).None? then
      NotTaken(Classify(AcceptedOrderWithoutTaskId, None, true))
    else Taken(UsableId(reply.body.value).value, WithStatus(reply.body.value))
  }

  /** How an acquisition that got its order answered by `reply`, and its polls by `polls`, ends. */
  predicate OrderEnds(
    s: Settings, added: Log, reply: Reply, polls: seq<Reply>, ok: bool, failure: Option<ProviderFailure>)
  {
    match ReadOrder(reply)
    case NotTaken(rejection) => failure == Some(rejection) && |added| == 2 && polls == []
    case Taken(taskId, order) =>
      match WaitOutcome(LastOrder(order, polls), taskId, SUCCESS_STATUSES, FAILURE_STATUSES)
      case Failed(error) => failure == Some(error.failure) && |added| == 2
      case Reached(_) => ok || failure == Unseen(taskId, |added| - 2 < Max(s.recheckAttempts, 1))
  }

  /** The failure of an order that became active but was not seen on chain: some reading failed, or all were low. */
  function Unseen(taskId: string, unread: bool): Option<ProviderFailure> {
    Some(Classify(if unread then ResourceReadFailed else ResourceRecheckFailed, Some(taskId), true))
  }

  /** The level an acquisition has to see on chain: the fixed order less 500, but neither negative nor below a
      strict minimum. */
  function EnergyThreshold(s: Settings, minimum: Option<int>, strict: bool): (threshold: int)
    ensures threshold >= 0 && threshold >= s.fixedEnergy - 500
    ensures strict && minimum.Some? ==> threshold >= minimum.value
    ensures threshold == 0 || threshold == s.fixedEnergy - 500 || (strict && minimum == Some(threshold))
  {
    var fixed := Max(s.fixedEnergy - FIXED_ENERGY_ORDER_TOLERANCE, 0);
    if strict && minimum.Some? then Max(fixed, minimum.value) else fixed
  }

  /** The fixed order, or what is missing if that is more. */
  function EnergyOrder(s: Settings, toProvision: int): (amount: int)
    ensures amount >= s.fixedEnergy && amount >= toProvision && (amount == s.fixedEnergy || amount == toProvision)
  {
    Max(s.fixedEnergy, toProvision)
  }

  /** A strict order sized by an earlier deficit brings a later reading to the threshold exactly when
      the reading has not fallen since, or the fixed size covers the gap on its own. */
  lemma EnergyOrderSuffices(s: Settings, required: int, earlier: nat, later: nat)
    requires earlier < required
    ensures
      (later + EnergyOrder(s, required - earlier) >= EnergyThreshold(s, Some(required), true))
      <==> (later >= earlier || later + s.fixedEnergy >= required)
  {
  }

  /** The most status requests that start before `timeout` when all but the first wait `interval`. */
  function MaxPolls(s: Settings): (n: int)
    requires ValidSettings(s)
    ensures n >= 1
  {
    assert s.timeout / s.pollInterval > 0.0;
    Ceiling(s.timeout / s.pollInterval)
  }

  /** MaxPolls counts exactly the requests whose preceding intervals end before the deadline. */
  lemma PollFits(s: Settings, n: nat)
    requires ValidSettings(s)
    ensures n < MaxPolls(s) <==> Intervals(s.pollInterval, n) < s.timeout
  {
    QuotientCompares(n as real, s.timeout, s.pollInterval);
  }

  datatype Fee = Fee(energyRequired: int, isNew: bool) | NoFee(failure: ProviderFailure)

  /** A fee is only taken, as it is told, from a complete 200 reply with a non-negative amount. */
  function EstimateFee(configured: bool, reply: FeeReply): (fee: Fee)
    ensures fee.Fee? <==>
            && configured && reply.FeeReply? && reply.status == 200 && reply.body.Some?
            && reply.energy.Some? && reply.energy.value >= 0 && reply.isNew.Some? && reply.burned
    ensures fee.Fee? ==> fee.energyRequired == reply.energy.value && fee.isNew == reply.isNew.value
    ensures fee.NoFee? ==> !fee.failure.orderAccepted
    ensures fee.NoFee? ==>
              fee.failure
              == Classify(
                   if !configured then ConfigurationError
                   else if reply.NoFeeReply? then RejectionCode(NoReply(reply.error))
                   else if reply.status != 200 then RejectionCode(Reply.Reply(reply.status, reply.body))
                   else MalformedPreAcceptResponse,
                   None, false)
  {
    if !configured then NoFee(Classify(ConfigurationError, None, false))
    else match reply
      case NoFeeReply(error) => NoFee(Classify(RequestErrorCode(error), None, false))
      case FeeReply(status, body, energy, isNew, burned) =>
        if status != 200 then NoFee(Classify(ResponseFailureCode(status, body), None, false))
        else if body.None? || energy.None? || energy.value < 0 || isNew.None? || !burned then
          NoFee(Classify(MalformedPreAcceptResponse, None, false))
        else Fee(energy.value, isNew.value)
  }

  const TEMPORARY_CODES: set<Code> := {DuplicateRequest, RateLimitExceeded, ServiceUnavailable, RequestTimeout}

  const ACTIVATION_TERMINAL_CODES: set<Code> := {
    InvalidAddress, InvalidParameters, ConfigurationError, InsufficientBalance, UnknownError }

  predicate ActivationErrorIsTemporary(status: int, code: Code) {
    if code in TEMPORARY_CODES then true
    else if code in ACTIVATION_TERMINAL_CODES then false
    else status in {408, 429} || 500 <= status <= 599
  }

  datatype ActivationReply = Activating(taskId: string, order: Order) | NotActivating(error: OrderError)

  function ActivationRejected(status: int, body: Option<Order>): OrderError {
    var payload := PayloadErrorCode(body);
    var code := if payload.Some? then payload.value else StatusFailureCode(status);
    var shown := if payload.None? && status == 500 then UnknownError else code;
    OrderError(shown, ActivationErrorIsTemporary(status, code), Classify(code, None, false))
  }

  /** How the provider reads the reply to an activation request. */
  function ReadActivation(configured: bool, reply: Reply): ActivationReply {
    if !configured then
      NotActivating(OrderError(ConfigurationError, false, Classify(ConfigurationError, None, false)))
    else match reply
      case NoReply(error) =>
        NotActivating(OrderError(ServiceUnavailable, true, Classify(RequestErrorCode(error), None, false)))
      case Reply(status, body) =>
        if status == ACCEPTED then
          if body.Some? && UsableId(body.value).Some? then
            Activating(UsableId(body.value).value, WithStatus(body.value))
          else
            var failure := Classify(AcceptedOrderWithoutTaskId, None, true);
            NotActivating(OrderError(AcceptedOrderWithoutTaskId, true, failure))
        else if status == 409 then
          NotActivating(OrderError(DuplicateRequest, true, Classify(DuplicateRequest, None, false)))
        else if status == 503 then
          NotActivating(OrderError(ServiceUnavailable, true, Classify(ServiceUnavailable, None, false)))
        else NotActivating(ActivationRejected(status, body))
  }

  class ProfeeXProvider {
    const world: World
    const settings: Option<Settings>
    var lastFailure: Option<ProviderFailure>

    constructor (world: World, settings: Option<Settings>)
      ensures this.world == world && this.settings == settings && lastFailure.None?
    {
      this.world, this.settings, lastFailure := world, settings, None;
    }

    /** POST an order. */
    method CreateOrder(resource: Resource, amount: int, need: int) returns (order: Option<Order>)
      modifies this`lastFailure, world`log, world`posts
      ensures |world.posts| == |old(world.posts)| + 1 && old(world.posts) <= world.posts
      ensures
        var reply := world.posts[|old(world.posts)|];
        && world.log == old(world.log) + [
             if reply.Reply? && reply.status == 202 then Accepted(resource, ProfeeX, amount, need)
             else Declined(resource, ProfeeX, amount)]
        && match ReadOrder(reply)
           case Taken(taskId, accepted) =>
             order == Some(accepted) && UsableId(accepted) == Some(taskId) && lastFailure == old(lastFailure)
           case NotTaken(failure) => order.None? && lastFailure == Some(failure)
    {
      var reply := world.PostOrder(resource, ProfeeX, amount, need);
      if reply.NoReply? || reply.status != ACCEPTED {
        lastFailure := Some(Classify(RejectionCode(reply), None, false));
        return None;
      }
      if reply.body.None? || UsableId(reply.body.value).None? {
        lastFailure := Some(Classify(AcceptedOrderWithoutTaskId, None, true));
        return None;
      }
      order := Some(WithStatus(reply.body.value));
    }

    /** The time left for a request once the pause before it is over, or nothing if the deadline came first. */
    method SleepBeforePoll(s: Settings, deadline: real, sleepFirst: bool) returns (remaining: real)
      requires ValidSettings(s)
      modifies world`clock
      ensures if remaining <= 0.0 then world.clock >= deadline else world.clock < deadline
      ensures world.clock >= old(world.clock)
      ensures remaining > 0.0 && sleepFirst ==> world.clock >= old(world.clock) + s.pollInterval
    {
      var now := world.Now();
      remaining := deadline - now;
      if remaining <= 0.0 || !sleepFirst {
        return;
      }
      var nap := if s.pollInterval < remaining then s.pollInterval else remaining;
      if nap > 0.0 {
        world.Sleep(nap);
      }
      now := world.Now();
      remaining := deadline - now;
    }

    /** One status request; an unreadable reply is a temporary failure and changes nothing else. */
    method Poll(taskId: string, order: Order) returns (next: Order)
      modifies this`lastFailure, world`clock, world`polls
      ensures world.clock >= old(world.clock)
      ensures |world.polls| == |old(world.polls)| + 1
      ensures
        var reply := world.polls[|old(world.polls)|];
        world.polls == old(world.polls) + [reply] && next == if Readable(reply) then reply.body.value else order
    {
      var reply := world.GetStatus();
      next := order;
      if Readable(reply) {
        next := reply.body.value;
      } else {
        lastFailure := Some(Classify(PollTemporaryError, Some(taskId), true));
      }
    }

    /** Poll a task until its status decides or the deadline passes.  The first request is sent at once,
        the last sleep is cut to the time that remains. */
    method WaitForStatus(
      s: Settings, taskId: string, initial: Order, successes: set<string>, failures: set<string>)
      returns (result: WaitResult)
      requires ValidSettings(s)
      modifies this`lastFailure, world`clock, world`polls
      ensures old(world.polls) <= world.polls
      ensures
        var replies := world.polls[|old(world.polls)|..];
        && |replies| <= MaxPolls(s)
        && result == WaitOutcome(LastOrder(initial, replies), taskId, successes, failures)
        && UndecidedBefore(initial, replies, taskId, successes, failures)
        && (Decision(LastOrder(initial, replies), taskId, successes, failures).None? ==>
              world.clock >= old(world.clock) + s.timeout)
      ensures result.Reached? ==> lastFailure.None?
    {
      assert Intervals(s.pollInterval, 0) == 0.0;
      hide Intervals, MaxPolls, Decision, LastOrder, Readable, UndecidedBefore;
      var start := world.Now();
      var deadline := start + s.timeout;
      var order := initial;
      var sleepFirst := false;
      ghost var replies: seq<Reply> := [];
      LastOrderOfNone(initial);
      while true
        invariant world.polls == old(world.polls) + replies
        invariant |replies| <= MaxPolls(s)
        invariant sleepFirst == (replies != [])
        invariant replies != [] ==> world.clock >= start + Intervals(s.pollInterval, |replies| - 1)
        invariant world.clock >= start
        invariant order == LastOrder(initial, replies)
        invariant UndecidedBefore(initial, replies, taskId, successes, failures)
        decreases MaxPolls(s) - |replies|
      {
        assert world.polls[|old(world.polls)|..] == replies;
        var decided := Decision(order, taskId, successes, failures);
        if decided.Some? {
          if decided.value.Reached? {
            lastFailure := None;
          }
          return decided.value;
        }
        var remaining := SleepBeforePoll(s, deadline, sleepFirst);
        if remaining <= 0.0 {
          break;
        }
        PollFits(s, |replies|);
        if replies != [] {
          OneMoreInterval(s.pollInterval, |replies| - 1);
        }
        order := Poll(taskId, order);
        ghost var reply := world.polls[|world.polls| - 1];
        LastOrderNext(initial, replies, reply);
        StillUndecided(initial, replies, reply, taskId, successes, failures);
        replies := replies + [reply];
        sleepFirst := true;
      }
      result := Failed(TimeoutError(taskId));
    }

    method SleepBeforeRecheck(s: Settings, attempt: int)
      modifies world`clock
    {
      if attempt + 1 < Max(s.recheckAttempts, 1) && s.recheckSleep > 0.0 {
        world.Sleep(s.recheckSleep);
      }
    }

    /** Reread the energy up to the configured number of times. */
    method WaitForEnergy(s: Settings, threshold: int) returns (ok: bool)
      modifies this`lastFailure, world`log, world`clock
      ensures old(world.log) <= world.log
      ensures OnlyReads(world.log[|old(world.log)|..], Energy)
      ensures |world.log| <= |old(world.log)| + Max(s.recheckAttempts, 1)
      ensures ok ==> world.log != old(world.log) && Shows(world.log[|world.log| - 1], Energy, threshold)
      ensures !ok ==> forall i :: |old(world.log)| <= i < |world.log| ==> world.log[i].available < threshold
      ensures !ok && |world.log| == |old(world.log)| + Max(s.recheckAttempts, 1) ==> lastFailure == old(lastFailure)
      ensures !ok && |world.log| != |old(world.log)| + Max(s.recheckAttempts, 1) ==>
                lastFailure == Some(Classify(ResourceReadFailed, None, false))
    {
      var attempts := Max(s.recheckAttempts, 1);
      for attempt := 0 to attempts
        invariant old(world.log) <= world.log && |world.log| <= |old(world.log)| + attempt
        invariant lastFailure
                  == if |world.log| == |old(world.log)| + attempt then old(lastFailure)
                     else Some(Classify(ResourceReadFailed, None, false))
        invariant OnlyReads(world.log[|old(world.log)|..], Energy)
        invariant forall i :: |old(world.log)| <= i < |world.log| ==>
                    world.log[i].Read? && world.log[i].available < threshold
      {
        var available := world.ReadEnergy();
        if available.None? {
          lastFailure := Some(Classify(ResourceReadFailed, None, false));
        } else if available.value >= threshold {
          return true;
        }
        SleepBeforeRecheck(s, attempt);
      }
      ok := false;
    }

    /** The same for bandwidth. */
    method WaitForBandwidth(s: Settings, required: int) returns (ok: bool)
      modifies this`lastFailure, world`log, world`clock
      ensures old(world.log) <= world.log
      ensures OnlyReads(world.log[|old(world.log)|..], Bandwidth)
      ensures |world.log| <= |old(world.log)| + Max(s.recheckAttempts, 1)
      ensures ok ==> world.log != old(world.log) && Shows(world.log[|world.log| - 1], Bandwidth, required)
      ensures !ok ==> forall i :: |old(world.log)| <= i < |world.log| ==> world.log[i].available < required
      ensures !ok && |world.log| == |old(world.log)| + Max(s.recheckAttempts, 1) ==> lastFailure == old(lastFailure)
      ensures !ok && |world.log| != |old(world.log)| + Max(s.recheckAttempts, 1) ==>
                lastFailure == Some(Classify(ResourceReadFailed, None, false))
    {
      var attempts := Max(s.recheckAttempts, 1);
      for attempt := 0 to attempts
        invariant old(world.log) <= world.log && |world.log| <= |old(world.log)| + attempt
        invariant lastFailure
                  == if |world.log| == |old(world.log)| + attempt then old(lastFailure)
                     else Some(Classify(ResourceReadFailed, None, false))
        invariant OnlyReads(world.log[|old(world.log)|..], Bandwidth)
        invariant forall i :: |old(world.log)| <= i < |world.log| ==>
                    world.log[i].Read? && world.log[i].available < required
      {
        var ready := world.CheckBandwidth(required);
        if ready.None? {
          lastFailure := Some(Classify(ResourceReadFailed, None, false));
        } else if ready.value {
          return true;
        }
        SleepBeforeRecheck(s, attempt);
      }
      ok := false;
    }

    /** Wait for a taken order and then for its effect on chain; a failed read is told apart from a low one. */
    method AwaitDelivery(s: Settings, resource: Resource, taskId: string, order: Order, need: int) returns (ok: bool)
      requires ValidSettings(s)
      modifies this`lastFailure, world`log, world`clock, world`polls
      ensures old(world.log) <= world.log && old(world.polls) <= world.polls
      ensures OnlyReads(world.log[|old(world.log)|..], resource)
      ensures ok ==> world.log != old(world.log) && Shows(world.log[|world.log| - 1], resource, need)
      ensures !ok ==> forall i :: |old(world.log)| <= i < |world.log| ==> world.log[i].available < need
      ensures ok <==> lastFailure.None?
      ensures !ok ==> lastFailure.value.orderAccepted && !lastFailure.value.fallbackEligible
      ensures
        var last := LastOrder(order, world.polls[|old(world.polls)|..]);
        match WaitOutcome(last, taskId, SUCCESS_STATUSES, FAILURE_STATUSES)
        case Failed(error) => lastFailure == Some(error.failure) && world.log == old(world.log)
        case Reached(_) =>
          ok || lastFailure == Unseen(taskId, |world.log| - |old(world.log)| < Max(s.recheckAttempts, 1))
    {
      hide WaitOutcome, LastOrder, UndecidedBefore, SUCCESS_STATUSES, FAILURE_STATUSES;
      var waited := WaitForStatus(s, taskId, order, SUCCESS_STATUSES, FAILURE_STATUSES);
      FailedWaitKeepsTheTask(
        LastOrder(order, world.polls[|old(world.polls)|..]), taskId, SUCCESS_STATUSES, FAILURE_STATUSES);
      if waited.Failed? {
        lastFailure := Some(waited.error.failure);
        return false;
      }
      if resource.Energy? {
        ok := WaitForEnergy(s, need);
      } else {
        ok := WaitForBandwidth(s, need);
      }
      if ok {
        lastFailure := None;
      } else if lastFailure.Some? && lastFailure.value.code == ResourceReadFailed {
        lastFailure := Some(Classify(ResourceReadFailed, Some(taskId), true));
      } else {
        lastFailure := Some(Classify(ResourceRecheckFailed, Some(taskId), true));
      }
    }

    /** After a low reading: place one order and follow it to its end. */
    method OrderAndAwait(s: Settings, resource: Resource, amount: int, need: int, ghost before: Log) returns (ok: bool)
      requires ValidSettings(s)
      requires before < world.log && |world.log| == |before| + 1
      requires world.log[|before|].Read? && world.log[|before|].resource == resource
      modifies this`lastFailure, world
      ensures old(world.log) <= world.log && old(world.posts) <= world.posts && old(world.polls) <= world.polls
      ensures before <= world.log && |world.posts| == |old(world.posts)| + 1
      ensures
        var added := Since(before, world.log);
        && AcquisitionContract(added, resource, ProfeeX, need, ok, lastFailure)
        && |added| >= 2 && added[0] == old(world.log)[|before|] && added[1].amount == amount
        && OrderEnds(s, added, world.posts[|old(world.posts)|], world.polls[|old(world.polls)|..], ok, lastFailure)
    {
      hide WaitOutcome, LastOrder, Unseen, ReadOrder, SUCCESS_STATUSES, FAILURE_STATUSES, Trail, Since, Ordered, Max;
      var order := CreateOrder(resource, amount, need);
      ghost var read, posted := world.log[|before|], world.log[|before| + 1];
      MakesTrail(before, read, posted, world.log, resource, ProfeeX, need);
      if order.None? {
        return false;
      }
      ok := AwaitDelivery(s, resource, UsableId(order.value).value, order.value, need);
      MakesTrail(before, read, posted, world.log, resource, ProfeeX, need);
    }

    /** Rent energy.  A threshold already met orders nothing; a lower reading is followed by exactly one order
        of `EnergyOrder`, which ends as the replies to it say. */
    method AcquireEnergy(toProvision: int, minimum: Option<int>, strict: bool) returns (ok: bool)
      requires settings.Some? ==> ValidSettings(settings.value)
      modifies this`lastFailure, world
      ensures old(world.log) <= world.log && old(world.posts) <= world.posts && old(world.polls) <= world.polls
      ensures settings.None? ==> !ok && world.log == old(world.log)
                                 && lastFailure == Some(Classify(ConfigurationError, None, false))
      ensures settings.Some? ==>
                var added := Since(old(world.log), world.log);
                var need := EnergyThreshold(settings.value, minimum, strict);
                && AcquisitionContract(added, Energy, ProfeeX, need, ok, lastFailure)
                && (|added| >= 2 <==> added != [] && added[0].available < need)
                && (|added| >= 2 ==>
                      && 0 <= added[0].available
                      && added[1].amount == EnergyOrder(settings.value, toProvision)
                      && |world.posts| == |old(world.posts)| + 1
                      && OrderEnds(
                           settings.value, added, world.posts[|old(world.posts)|], world.polls[|old(world.polls)|..],
                           ok, lastFailure))
                && (added == [] ==> lastFailure == Some(Classify(ResourceReadFailed, None, false)))
    {
      hide OrderEnds, Trail, Since, Ordered, Max, EnergyThreshold, EnergyOrder;
      lastFailure := None;
      if settings.None? {
        lastFailure := Some(Classify(ConfigurationError, None, false));
        return false;
      }
      var s := settings.value;
      var threshold := EnergyThreshold(s, minimum, strict);
      ghost var before := world.log;
      var available := world.ReadEnergy();
      ReadIsTrail(before, world.log, Energy, ProfeeX, threshold);
      if available.None? {
        lastFailure := Some(Classify(ResourceReadFailed, None, false));
        return false;
      }
      if available.value >= threshold {
        return true;
      }
      ok := OrderAndAwait(s, Energy, EnergyOrder(s, toProvision), threshold, before);
    }

    /** Rent bandwidth.  A failed reading before the order escapes as an exception (`ok` is None). */
    method AcquireBandwidth(required: int) returns (ok: Option<bool>)
      requires settings.Some? ==> ValidSettings(settings.value)
      modifies this`lastFailure, world
      ensures old(world.log) <= world.log && old(world.posts) <= world.posts && old(world.polls) <= world.polls
      ensures ok.None? ==> world.log == old(world.log)
      ensures settings.None? ==> ok == Some(false) && world.log == old(world.log)
                                 && lastFailure == Some(Classify(ConfigurationError, None, false))
      ensures ok.Some? ==>
                AcquisitionContract(
                  Since(old(world.log), world.log), Bandwidth, ProfeeX, required, ok.value, lastFailure)
      ensures ok.Some? && settings.Some? ==>
                var added := Since(old(world.log), world.log);
                && (|added| == 1 && added[0].available < required ==>
                      lastFailure == Some(Classify(FixedBandwidthBelowRequired, None, false)))
                && (|added| >= 2 <==>
                      added != [] && added[0].available < required <= settings.value.fixedBandwidth)
                && (|added| >= 2 ==>
                      && added[1].amount == settings.value.fixedBandwidth
                      && |world.posts| == |old(world.posts)| + 1
                      && OrderEnds(
                           settings.value, added, world.posts[|old(world.posts)|], world.polls[|old(world.polls)|..],
                           ok.value, lastFailure))
    {
      hide OrderEnds, Trail, Since, Ordered, Max;
      lastFailure := None;
      if settings.None? {
        lastFailure := Some(Classify(ConfigurationError, None, false));
        ReadIsTrail(world.log, world.log, Bandwidth, ProfeeX, required);
        return Some(false);
      }
      var s := settings.value;
      ghost var before := world.log;
      var ready := world.CheckBandwidth(required);
      ReadIsTrail(before, world.log, Bandwidth, ProfeeX, required);
      if ready.None? {
        return None;
      }
      if ready.value {
        return Some(true);
      }
      if s.fixedBandwidth < required {
        lastFailure := Some(Classify(FixedBandwidthBelowRequired, None, false));
        return Some(false);
      }
      var seen := OrderAndAwait(s, Bandwidth, s.fixedBandwidth, required, before);
      ok := Some(seen);
    }
  }
}
