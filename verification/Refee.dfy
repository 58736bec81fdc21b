/** The re:Fee provider: what it orders, how long it polls, and what a failure says about the order. */
module Refee {
  import opened Options
  import opened Failures
  import opened Resources
  import opened Providers

  datatype Settings = Settings(
    overprovision: real,
    minEnergyOrder: int,
    minBandwidthOrder: int,
    pollInterval: real,
    timeout: real)

  predicate ValidSettings(s: Settings) {
    && s.overprovision > 0.0 && s.minEnergyOrder > 0 && s.minBandwidthOrder > 0
    && s.pollInterval > 0.0 && s.timeout > 0.0
  }

  const FIXED_ENERGY_ORDER_TOLERANCE := 500

  const SUCCESS_STATUSES: set<string> := { "delegated" }
  const FAILURE_STATUSES: set<string> := { "failed", "insufficient_funds", "canceled", "completed" }

  /** The failure of a POST that got no 202. */
  function RejectionFailure(reply: Reply): (failure: ProviderFailure)
    ensures !failure.orderAccepted && failure.taskId.None?
    ensures failure.fallbackEligible <==>
            reply.NoReply? || reply.status in {408, 429} || 500 <= reply.status <= 599
    ensures failure.temporary <==> reply.NoReply? || reply.status !in {400, 401, 403, 422}
    ensures failure.code
            == if reply.NoReply? || reply.status in {408, 429} || 500 <= reply.status <= 599 then ServiceUnavailable
               else if reply.status == 400 then InvalidParameters
               else if reply.status == 402 then InsufficientBalance
               else if reply.status in {401, 403, 422} then ConfigurationError
               else UnknownError
  {
    if reply.NoReply? then ProviderFailure(ServiceUnavailable, true, true, false, None)
    else if reply.status == 400 then ProviderFailure(InvalidParameters, false, false, false, None)
    else if reply.status == 402 then ProviderFailure(InsufficientBalance, true, false, false, None)
    else if reply.status in {401, 403, 422} then ProviderFailure(ConfigurationError, false, false, false, None)
    else if reply.status in {408, 429} || 500 <= reply.status <= 599 then
      ProviderFailure(ServiceUnavailable, true, true, false, None)
    else ProviderFailure(UnknownError, true, false, false, None)
  }

  /** A failure after the order was accepted. */
  function AcceptedFailure(code: Code, orderId: Option<string>): ProviderFailure {
    ProviderFailure(code, true, false, true, orderId)
  }

  /** A failure before any order. */
  function EarlyFailure(code: Code, temporary: bool): ProviderFailure {
    ProviderFailure(code, temporary, false, false, None)
  }

  /** The level an acquisition has to see on chain: with a fixed order (`fixed` is 0 for none) that less 500, but
      neither negative nor below a strict minimum; else the minimum, or what is to be provisioned. */
  function EnergyThreshold(fixed: nat, toProvision: int, minimum: Option<int>, strict: bool): (threshold: int)
    ensures fixed == 0 ==> threshold == if minimum.Some? then minimum.value else toProvision
    ensures fixed > 0 ==> threshold >= 0 && threshold >= fixed - 500
    ensures fixed > 0 && strict && minimum.Some? ==> threshold >= minimum.value
    ensures fixed > 0 ==>
              threshold == 0 || threshold == fixed - 500 || (strict && minimum == Some(threshold))
  {
    if fixed > 0 then
      var tolerated := Max(fixed - FIXED_ENERGY_ORDER_TOLERANCE, 0);
      if strict && minimum.Some? then Max(tolerated, minimum.value) else tolerated
    else if minimum.Some? then minimum.value else toProvision
  }

  /** The size of an order: at least the smallest the provider takes; with a fixed order that, or what a strict
      minimum lacks if that is more; else what the level lacks times the configured factor, rounded up. */
  function EnergyOrder(
    s: Settings, fixed: nat, toProvision: int, minimum: Option<int>, strict: bool, available: int): (amount: int)
    ensures amount >= s.minEnergyOrder
    ensures fixed > 0 ==>
              && amount >= fixed && (strict && minimum.Some? ==> amount >= minimum.value - available)
              && (|| amount == s.minEnergyOrder || amount == fixed
                  || (strict && minimum == Some(amount + available)))
  {
    var requested :=
      if fixed > 0 then
        if strict && minimum.Some? then Max(fixed, Max(minimum.value - available, 0)) else fixed
      else
        Ceiling((EnergyThreshold(fixed, toProvision, minimum, strict) - available) as real * s.overprovision);
    Max(requested, s.minEnergyOrder)
  }

  /** In dynamic mode the order is what the level lacks times the factor, rounded up, or the smallest taken. */
  lemma DynamicEnergyOrderIsRoundedUp(
    s: Settings, toProvision: int, minimum: Option<int>, strict: bool, available: nat)
    ensures
      var amount := EnergyOrder(s, 0, toProvision, minimum, strict, available);
      var level := if minimum.Some? then minimum.value else toProvision;
      var wanted := (level - available) as real * s.overprovision;
      wanted <= amount as real && (amount == s.minEnergyOrder || (amount - 1) as real < wanted)
  {
  }

  /** In fixed mode the order always brings the reading it was sized by to the threshold. */
  lemma FixedEnergyOrderSuffices(
    s: Settings, fixed: nat, toProvision: int, minimum: Option<int>, strict: bool, available: nat)
    requires fixed > 0
    ensures available + EnergyOrder(s, fixed, toProvision, minimum, strict, available)
            >= EnergyThreshold(fixed, toProvision, minimum, strict)
  {
  }

  /** In dynamic mode the order suffices for every requirement and reading exactly when the overprovision
      factor is at least 1. */
  lemma DynamicEnergyOrderSuffices(s: Settings)
    requires ValidSettings(s)
    ensures
      (forall required: int, available: nat {:trigger EnergyOrder(s, 0, required, Some(required), true, available)} ::
         available < required ==>
           available + EnergyOrder(s, 0, required, Some(required), true, available) >= required)
      <==> s.overprovision >= 1.0
  {
    if s.overprovision >= 1.0 {
      forall required: int, available: nat | available < required
        ensures available + EnergyOrder(s, 0, required, Some(required), true, available) >= required
      {
        assert (required - available) as real * (s.overprovision - 1.0) >= 0.0;
      }
    } else {
      var gap := LargeDeficit(s);
      assert EnergyOrder(s, 0, gap, Some(gap), true, 0) < gap;
    }
  }

  /** A deficit an underprovisioning factor leaves short by more than a whole unit. */
  lemma LargeDeficit(s: Settings) returns (gap: int)
    requires ValidSettings(s) && s.overprovision < 1.0
    ensures gap > 0 && gap > s.minEnergyOrder && EnergyOrder(s, 0, gap, Some(gap), true, 0) < gap
  {
    var slack := 1.0 - s.overprovision;
    gap := Max((1.0 / slack).Floor + 1, s.minEnergyOrder + 1);
    QuotientCompares(gap as real, 1.0, slack);
    assert gap as real * s.overprovision == gap as real - gap as real * slack;
  }

  /** The energy a transfer costs, or nothing unless the reply is a 200 with a positive cost. */
  function EstimateCost(configured: bool, reply: CostReply): (energy: Option<int>)
    ensures energy.Some? <==>
            configured && reply.CostReply? && reply.status == 200 && reply.cost.Some? && reply.cost.value > 0
    ensures energy.Some? ==> energy == reply.cost
  {
    if configured && reply.CostReply? && reply.status == 200 && reply.cost.Some? && reply.cost.value > 0 then
      reply.cost
    else None
  }

  function BandwidthOrder(s: Settings, required: int): (amount: int)
    ensures amount >= required && amount >= s.minBandwidthOrder
    ensures amount == required || amount == s.minBandwidthOrder
  {
    Max(required, s.minBandwidthOrder)
  }

  /** The most status requests that start within `timeout` when each waits `interval` first. */
  function MaxPolls(s: Settings): (n: int)
    requires ValidSettings(s)
    ensures n >= 1
  {
    assert s.timeout / s.pollInterval > 0.0;
    (s.timeout / s.pollInterval).Floor + 1
  }

  /** MaxPolls counts exactly the requests whose preceding intervals start by the deadline. */
  lemma PollFits(s: Settings, n: nat)
    requires ValidSettings(s)
    ensures n < MaxPolls(s) <==> Intervals(s.pollInterval, n) <= s.timeout
  {
    QuotientCompares(n as real, s.timeout, s.pollInterval);
  }

  /** A 200 reply that is not a JSON object ends the wait. */
  predicate Malformed(reply: Reply) {
    reply.Reply? && reply.status == 200 && reply.body.None?
  }

  /** Polling goes on while the last reply was not malformed and the order is neither delegated nor failed. */
  predicate Undecided(initial: Order, replies: seq<Reply>) {
    && (replies != [] ==> !Malformed(replies[|replies| - 1]))
    && !In(LastOrder(initial, replies).status, SUCCESS_STATUSES + FAILURE_STATUSES)
  }

  lemma DecidesNothing(initial: Order, replies: seq<Reply>)
    requires replies != [] ==> !Malformed(replies[|replies| - 1])
    requires !In(LastOrder(initial, replies).status, SUCCESS_STATUSES)
    requires !In(LastOrder(initial, replies).status, FAILURE_STATUSES)
    ensures Undecided(initial, replies)
  {
  }

  /** How an activation request is read; the transaction hash is the reply's id. */
  datatype ActivationReply = AlreadyActive | Placed(hash: string) | NotPlaced(code: Code, temporary: bool)

  function ReadActivation(configured: bool, reply: Reply): ActivationReply {
    if !configured then NotPlaced(ConfigurationError, false)
    else if reply.NoReply? then NotPlaced(ServiceUnavailable, true)
    else if reply.status == 400 then AlreadyActive
    else if reply.status == 402 then NotPlaced(InsufficientBalance, true)
    else if reply.status in {401, 403, 422} then NotPlaced(ConfigurationError, false)
    else if reply.status in {408, 429} || 500 <= reply.status <= 599 then NotPlaced(ServiceUnavailable, true)
    else if reply.status != 200 then NotPlaced(UnknownError, true)
    else if reply.body.None? || UsableId(reply.body.value).None? then NotPlaced(SchemaError, false)
    else if reply.body.value.status == Text("already_active") then AlreadyActive
    else Placed(UsableId(reply.body.value).value)
  }

  /** No reply but the last may have decided anything. */
  predicate UndecidedBefore(initial: Order, replies: seq<Reply>) {
    forall k :: 0 <= k < |replies| ==> Undecided(initial, replies[..k])
  }

  lemma StillUndecided(initial: Order, replies: seq<Reply>, reply: Reply)
    requires UndecidedBefore(initial, replies) && Undecided(initial, replies)
    ensures UndecidedBefore(initial, replies + [reply])
  {
    hide Undecided;
    forall k | 0 <= k <= |replies|
      ensures Undecided(initial, (replies + [reply])[..k])
    {
      assert (replies + [reply])[..k] == if k < |replies| then replies[..k] else replies;
    }
  }

  /** How the reply to an order is read. */
  datatype OrderReply = Taken(orderId: string, order: Order) | NotTaken(failure: ProviderFailure)

  function ReadOrder(reply: Reply): (read: OrderReply)
    ensures read.Taken? <==>
            && reply.Reply? && reply.status == 202
            && reply.body.Some? && reply.body.value.id.Text? && reply.body.value.id.value != ""
    ensures read.Taken? ==> reply.body == Some(read.order) && read.order.id == Text(read.orderId)
    ensures read.NotTaken? ==> (read.failure.orderAccepted <==> reply.Reply? && reply.status == 202)
    ensures read.NotTaken? && read.failure.orderAccepted ==>
              && !read.failure.fallbackEligible
              && read.failure.code
                 == if reply.body.None? then AcceptedMalformedResponse else AcceptedOrderWithoutId
    ensures read.NotTaken? && !read.failure.orderAccepted ==> read.failure == RejectionFailure(reply)
  {
    if reply.NoReply? || reply.status != ACCEPTED then NotTaken(RejectionFailure(reply))
    else if reply.body.None? then NotTaken(AcceptedFailure(AcceptedMalformedResponse, None))
    else if UsableId(reply.body.value).None? then NotTaken(AcceptedFailure(AcceptedOrderWithoutId, None))
    else Taken(UsableId(reply.body.value).value, reply.body.value)
  }

  /** Polling goes on exactly at a status that is neither the good nor one of the four bad ones. */
  lemma UndecidedMeans(initial: Order, replies: seq<Reply>)
    requires Undecided(initial, replies)
    ensures LastOrder(initial, replies).status !in {
              Text("delegated"), Text("failed"), Text("insufficient_funds"), Text("canceled"), Text("completed")}
    ensures replies != [] ==>
              var last := replies[|replies| - 1];
              !(last.Reply? && last.status == 200 && last.body == None)
  {
  }

  lemma StatusDecides(status: Field)
    ensures In(status, SUCCESS_STATUSES) <==> status == Text("delegated")
    ensures In(status, FAILURE_STATUSES) <==>
            status in {Text("failed"), Text("insufficient_funds"), Text("canceled"), Text("completed")}
  {
  }

  /** How an acquisition that got its order answered by `reply`, and its polls by `polls`, ends: success
      needs a delegated order, and every failure of a taken order keeps its id. */
  predicate OrderEnds(
    added: Log, reply: Reply, polls: seq<Reply>, ok: bool, failure: Option<ProviderFailure>)
  {
    match ReadOrder(reply)
    case NotTaken(rejection) => failure == Some(rejection) && |added| == 2 && polls == []
    case Taken(orderId, order) =>
      && (|added| > 2 ==> LastOrder(order, polls).status == Text("delegated"))
      && (!ok ==> failure.Some? && failure.value == AcceptedFailure(failure.value.code, Some(orderId)))
      && (|added| > 2 && !ok ==> failure.value.code == ResourceRecheckFailed)
  }

  class RefeeProvider {
    const world: World
    const settings: Option<Settings>
    const fixedEnergy: nat
    var lastFailure: Option<ProviderFailure>

    constructor (world: World, settings: Option<Settings>, fixedEnergy: nat)
      ensures this.world == world && this.settings == settings && this.fixedEnergy == fixedEnergy
      ensures lastFailure.None?
    {
      this.world, this.settings, this.fixedEnergy, lastFailure := world, settings, fixedEnergy, None;
    }

    /** POST an order and find its id. */
    method CreateOrder(resource: Resource, amount: int, need: int) returns (order: Option<Order>)
      modifies this`lastFailure, world`log, world`posts
      ensures |world.posts| == |old(world.posts)| + 1 && old(world.posts) <= world.posts
      ensures
        var reply := world.posts[|old(world.posts)|];
        && world.log == old(world.log) + [
             if reply.Reply? && reply.status == 202 then Accepted(resource, ReFee, amount, need)
             else Declined(resource, ReFee, amount)]
        && match ReadOrder(reply)
           case Taken(orderId, accepted) =>
             order == Some(accepted) && UsableId(accepted) == Some(orderId) && lastFailure == old(lastFailure)
           case NotTaken(failure) => order.None? && lastFailure == Some(failure)
    {
      var reply := world.PostOrder(resource, ReFee, amount, need);
      if reply.NoReply? || reply.status != ACCEPTED {
        lastFailure := Some(RejectionFailure(reply));
        return None;
      }
      if reply.body.None? {
        lastFailure := Some(AcceptedFailure(AcceptedMalformedResponse, None));
        return None;
      }
      if UsableId(reply.body.value).None? {
        lastFailure := Some(AcceptedFailure(AcceptedOrderWithoutId, None));
        return None;
      }
      order := reply.body;
    }

    /** Poll an order until its status decides, a reply is malformed or the deadline passes.  A full
        interval is slept before each request, and a status that arrives after the deadline is not read. */
    method WaitUntilDelegated(s: Settings, orderId: string, initial: Order) returns (delegated: bool)
      requires ValidSettings(s)
      modifies this`lastFailure, world`clock, world`polls
      ensures old(world.polls) <= world.polls
      ensures
        var replies := world.polls[|old(world.polls)|..];
        && |replies| <= MaxPolls(s)
        && UndecidedBefore(initial, replies)
        && (delegated ==> In(LastOrder(initial, replies).status, SUCCESS_STATUSES) && lastFailure == old(lastFailure))
        && (!delegated ==>
              && lastFailure.Some?
              && lastFailure.value == AcceptedFailure(lastFailure.value.code, Some(orderId))
              && match lastFailure.value.code {
                   case PollMalformedResponse => replies != [] && Malformed(replies[|replies| - 1])
                   case OrderFailed => In(LastOrder(initial, replies).status, FAILURE_STATUSES)
                   case OrderTimeout => world.clock > old(world.clock) + s.timeout
                   case _ => false
                 })
        && (delegated ==> LastOrder(initial, replies).status == Text("delegated"))
        && (!delegated && lastFailure.value.code == OrderFailed ==>
              LastOrder(initial, replies).status in {
                Text("failed"), Text("insufficient_funds"), Text("canceled"), Text("completed")})
    {
      assert Intervals(s.pollInterval, 0) == 0.0;
      hide Intervals, MaxPolls, In, LastOrder, UndecidedBefore, Undecided, Malformed, Readable;
      var start := world.Now();
      var deadline := start + s.timeout;
      var order := initial;
      LastOrderOfNone(initial);
      ghost var replies: seq<Reply> := [];
      var now := world.Now();
      while now <= deadline
        invariant world.polls == old(world.polls) + replies
        invariant |replies| <= MaxPolls(s)
        invariant world.clock >= now >= start + Intervals(s.pollInterval, |replies|)
        invariant lastFailure == old(lastFailure)
        invariant order == LastOrder(initial, replies)
        invariant UndecidedBefore(initial, replies)
        invariant replies != [] ==> !Malformed(replies[|replies| - 1])
        decreases MaxPolls(s) - |replies|
      {
        assert world.polls[|old(world.polls)|..] == replies;
        StatusDecides(order.status);
        if In(order.status, SUCCESS_STATUSES) {
          return true;
        }
        if In(order.status, FAILURE_STATUSES) {
          lastFailure := Some(AcceptedFailure(OrderFailed, Some(orderId)));
          return false;
        }
        PollFits(s, |replies|);
        OneMoreInterval(s.pollInterval, |replies|);
        world.Sleep(s.pollInterval);
        var reply := world.GetStatus();
        LastOrderNext(initial, replies, reply);
        DecidesNothing(initial, replies);
        StillUndecided(initial, replies, reply);
        replies := replies + [reply];
        assert world.polls[|old(world.polls)|..] == replies;
        if Malformed(reply) {
          lastFailure := Some(AcceptedFailure(PollMalformedResponse, Some(orderId)));
          return false;
        }
        if Readable(reply) {
          order := reply.body.value;
        }
        now := world.Now();
      }
      assert world.polls[|old(world.polls)|..] == replies;
      lastFailure := Some(AcceptedFailure(OrderTimeout, Some(orderId)));
      delegated := false;
    }

    /** Whether the chain shows the level, unless it cannot be read. */
    method LookOnce(resource: Resource, need: int) returns (level: Option<bool>)
      modifies world`log
      ensures level.None? ==> world.log == old(world.log)
      ensures level.Some? ==>
                && old(world.log) <= world.log && |world.log| == |old(world.log)| + 1
                && world.log[|old(world.log)|].Read? && world.log[|old(world.log)|].resource == resource
                && (level.value <==> Shows(world.log[|old(world.log)|], resource, need))
    {
      if resource.Energy? {
        var available := world.ReadEnergy();
        level := if available.None? then None else Some(available.value >= need);
      } else {
        level := world.CheckBandwidth(need);
      }
    }

    /** After a low reading: place one order, follow it to its end, and look once more. */
    method OrderAndAwait(s: Settings, resource: Resource, amount: int, need: int, ghost before: Log) returns (ok: bool)
      requires ValidSettings(s)
      requires before < world.log && |world.log| == |before| + 1
      requires world.log[|before|].Read? && world.log[|before|].resource == resource
      modifies this`lastFailure, world
      ensures before <= world.log && old(world.posts) <= world.posts && old(world.polls) <= world.polls
      ensures |world.posts| == |old(world.posts)| + 1
      ensures
        var added := Since(before, world.log);
        && AcquisitionContract(added, resource, ReFee, need, ok, lastFailure)
        && |added| >= 2 && added[0] == old(world.log)[|before|] && added[1].amount == amount
        && OrderEnds(added, world.posts[|old(world.posts)|], world.polls[|old(world.polls)|..], ok, lastFailure)
    {
      hide In, LastOrder, SUCCESS_STATUSES, FAILURE_STATUSES, Trail, Since, Ordered, ReadOrder, UndecidedBefore, Max,
        MaxPolls, Malformed;
      lastFailure := None;
      var order := CreateOrder(resource, amount, need);
      ghost var read, posted := world.log[|before|], world.log[|before| + 1];
      MakesTrail(before, read, posted, world.log, resource, ReFee, need);
      if order.None? {
        return false;
      }
      var orderId := UsableId(order.value).value;
      var delegated := WaitUntilDelegated(s, orderId, order.value);
      if !delegated {
        return false;
      }
      var level := LookOnce(resource, need);
      MakesTrail(before, read, posted, world.log, resource, ReFee, need);
      if level.None? {
        lastFailure := Some(AcceptedFailure(ResourceReadFailed, Some(orderId)));
        return false;
      }
      if !level.value {
        lastFailure := Some(AcceptedFailure(ResourceRecheckFailed, Some(orderId)));
        return false;
      }
      lastFailure := None;
      ok := true;
    }

    /** Rent energy.  A threshold already met orders nothing; a lower reading is followed by exactly one order,
        sized by that reading, which ends as the replies to it say. */
    method AcquireEnergy(toProvision: int, minimum: Option<int>, strict: bool) returns (ok: bool)
      requires settings.Some? ==> ValidSettings(settings.value)
      modifies this`lastFailure, world
      ensures old(world.log) <= world.log && old(world.posts) <= world.posts && old(world.polls) <= world.polls
      ensures
        var added := Since(old(world.log), world.log);
        var need := EnergyThreshold(fixedEnergy, toProvision, minimum, strict);
        && AcquisitionContract(added, Energy, ReFee, need, ok, lastFailure)
        && (settings.None? ==> added == [] && lastFailure == Some(EarlyFailure(ConfigurationError, false)))
        && (settings.Some? && added == [] ==> lastFailure == Some(EarlyFailure(ResourceReadFailed, true)))
        && (|added| >= 2 <==> added != [] && added[0].available < need)
        && (|added| >= 2 ==>
              && settings.Some? && 0 <= added[0].available
              && added[1].amount
                 == EnergyOrder(settings.value, fixedEnergy, toProvision, minimum, strict, added[0].available)
              && |world.posts| == |old(world.posts)| + 1
              && OrderEnds(added, world.posts[|old(world.posts)|], world.polls[|old(world.polls)|..], ok, lastFailure))
    {
      hide OrderEnds, Trail, Since, Ordered, Max, EnergyThreshold, EnergyOrder;
      lastFailure := None;
      ghost var before := world.log;
      ghost var need := EnergyThreshold(fixedEnergy, toProvision, minimum, strict);
      ReadIsTrail(before, before, Energy, ReFee, need);
      if settings.None? {
        lastFailure := Some(EarlyFailure(ConfigurationError, false));
        return false;
      }
      var s := settings.value;
      var required := EnergyThreshold(fixedEnergy, toProvision, minimum, strict);
      var available := world.ReadEnergy();
      ReadIsTrail(before, world.log, Energy, ReFee, need);
      if available.None? {
        lastFailure := Some(EarlyFailure(ResourceReadFailed, true));
        return false;
      }
      if available.value >= required {
        return true;
      }
      ok := OrderAndAwait(
        s, Energy, EnergyOrder(s, fixedEnergy, toProvision, minimum, strict, available.value), required, before);
    }

    /** Rent bandwidth.  A failed reading before the order escapes as an exception (`ok` is None). */
    method AcquireBandwidth(required: int) returns (ok: Option<bool>)
      requires settings.Some? ==> ValidSettings(settings.value)
      modifies this`lastFailure, world
      ensures old(world.log) <= world.log && old(world.posts) <= world.posts && old(world.polls) <= world.polls
      ensures ok.None? ==> world.log == old(world.log)
      ensures settings.None? ==> ok == Some(false) && world.log == old(world.log)
                                 && lastFailure == Some(EarlyFailure(ConfigurationError, false))
      ensures ok.Some? ==>
        var added := Since(old(world.log), world.log);
        && AcquisitionContract(added, Bandwidth, ReFee, required, ok.value, lastFailure)
        && (|added| >= 2 <==> added != [] && added[0].available < required)
        && (|added| >= 2 ==>
              && settings.Some? && added[1].amount == BandwidthOrder(settings.value, required)
              && |world.posts| == |old(world.posts)| + 1
              && OrderEnds(
                   added, world.posts[|old(world.posts)|], world.polls[|old(world.polls)|..], ok.value, lastFailure))
    {
      hide OrderEnds, Trail, Since, Ordered, Max;
      lastFailure := None;
      ghost var before := world.log;
      ReadIsTrail(before, before, Bandwidth, ReFee, required);
      if settings.None? {
        lastFailure := Some(EarlyFailure(ConfigurationError, false));
        return Some(false);
      }
      var s := settings.value;
      var ready := world.CheckBandwidth(required);
      ReadIsTrail(before, world.log, Bandwidth, ReFee, required);
      if ready.None? {
        return None;
      }
      if ready.value {
        return Some(true);
      }
      var seen := OrderAndAwait(s, Bandwidth, BandwidthOrder(s, required), required, before);
      ok := Some(seen);
    }
  }
}
