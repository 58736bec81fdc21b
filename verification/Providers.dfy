/** What ProfeeX and re:Fee share: their replies, the failure they leave behind, the shape of the traffic
    of one acquisition, and the accounting of account resources. */
module Providers {
  import opened Options
  import opened Failures
  import opened Resources

  datatype ProviderFailure = ProviderFailure(
    code: Code,
    temporary: bool,
    fallbackEligible: bool,
    orderAccepted: bool,
    taskId: Option<string>)

  datatype RequestError = ReadTimeout | ConnectTimeout | Timeout | ConnectionError | OtherError

  /** A value of a JSON object that the code expects to be a string. */
  datatype Field = Absent | Text(value: string) | NotText

  /** The parts of a reply's JSON object that decide anything: `id` is ProfeeX's `task_id` or re:Fee's `id`
      (there `Text` stands for any truthy value, `NotText` for a falsy one); `errorCode` and `detailCode`
      are `error_code` and `detail.error_code` when they are strings. */
  datatype Order = Order(id: Field, status: Field, errorCode: Option<Code>, detailCode: Option<Code>)

  /** `body` is None when the body is not a JSON object. */
  datatype Reply = NoReply(error: RequestError) | Reply(status: int, body: Option<Order>)

  /** A reply to a fee request; each field is None when it is missing or has another type. */
  datatype FeeReply =
    | NoFeeReply(error: RequestError)
    | FeeReply(status: int, body: Option<Order>, energy: Option<int>, isNew: Option<bool>, burned: bool)

  /** A reply to a cost request; `cost` is None when it is missing or not an integer. */
  datatype CostReply = NoCostReply | CostReply(status: int, cost: Option<int>)

  const ACCEPTED := 202

  /** A status reply the poller can read. */
  predicate Readable(reply: Reply) {
    reply.Reply? && reply.status == 200 && reply.body.Some?
  }

  /** The order as last seen: an unreadable reply leaves the earlier picture in place. */
  function LastOrder(initial: Order, replies: seq<Reply>): Order {
    if replies == [] then initial
    else if Readable(replies[|replies| - 1]) then replies[|replies| - 1].body.value
    else LastOrder(initial, replies[..|replies| - 1])
  }

  lemma LastOrderOfNone(initial: Order)
    ensures LastOrder(initial, []) == initial
  {
  }

  lemma LastOrderNext(initial: Order, replies: seq<Reply>, reply: Reply)
    ensures LastOrder(initial, replies + [reply])
            == if reply.Reply? && reply.status == 200 && reply.body.Some? then reply.body.value
               else LastOrder(initial, replies)
  {
    assert (replies + [reply])[..|replies|] == replies;
  }

  const EMPTY_CODE := Unlisted("")

  function Ceiling(x: real): (r: int)
    ensures (r - 1) as real < x <= r as real
  {
    -(-x).Floor
  }

  /** The least time that n full intervals take. */
  function Intervals(interval: real, n: nat): real {
    n as real * interval
  }

  lemma OneMoreInterval(interval: real, n: nat)
    ensures Intervals(interval, n + 1) == Intervals(interval, n) + interval
  {
  }

  lemma ScalesUp(a: real, b: real, c: real)
    requires a < b && c > 0.0
    ensures a * c < b * c
  {
    assert (b - a) * c > 0.0;
  }

  /** Comparing with a quotient is comparing a product. */
  lemma QuotientCompares(a: real, b: real, c: real)
    requires c > 0.0
    ensures a < b / c <==> a * c < b
    ensures a > b / c <==> a * c > b
  {
    var q := b / c;
    assert q * c == b;
    if a < q {
      ScalesUp(a, q, c);
    } else if a > q {
      ScalesUp(q, a, c);
    }
  }

  /** The id the code can use: a non-empty string. */
  function UsableId(order: Order): Option<string> {
    if order.id.Text? && order.id.value != "" then Some(order.id.value) else None
  }

  predicate In(status: Field, statuses: set<string>) {
    status.Text? && status.value in statuses
  }

  /** What one account read returns; absent fields read as zero. */
  datatype Account = Account(
    energyLimit: int, energyUsed: int,
    netLimit: int, netUsed: int,
    freeNetLimit: int, freeNetUsed: int)

  function Max(a: int, b: int): (m: int)
    ensures m >= a && m >= b && (m == a || m == b)
  {
    if a >= b then a else b
  }

  function AvailableEnergy(account: Account): (available: nat)
    ensures available >= account.energyLimit - account.energyUsed
    ensures available == 0 || available == account.energyLimit - account.energyUsed
  {
    Max(account.energyLimit - account.energyUsed, 0)
  }

  /** The larger of the two pools, never below zero. */
  function AvailableBandwidth(account: Account): (available: nat)
    ensures available >= account.netLimit - account.netUsed
    ensures available >= account.freeNetLimit - account.freeNetUsed
    ensures
      || available == 0
      || available == account.netLimit - account.netUsed
      || available == account.freeNetLimit - account.freeNetUsed
  {
    Max(Max(account.netLimit - account.netUsed, 0), Max(account.freeNetLimit - account.freeNetUsed, 0))
  }

  /** Either pool alone has to cover the requirement. */
  predicate HasFreeBandwidth(account: Account, required: int)
    ensures HasFreeBandwidth(account, required) <==>
            || account.netLimit - account.netUsed >= required
            || account.freeNetLimit - account.freeNetUsed >= required
  {
    var daily := account.freeNetLimit - account.freeNetUsed;
    var staked := account.netLimit - account.netUsed;
    if staked < required then daily >= required else true
  }

  /** What `HasFreeBandwidth` compares with the requirement. */
  function LargestPool(account: Account): int {
    Max(account.netLimit - account.netUsed, account.freeNetLimit - account.freeNetUsed)
  }

  /** The two bandwidth checks agree on an account unless the requirement is not positive and both pools
      are overdrawn below it. */
  lemma BandwidthReadingsAgree(account: Account, required: int)
    ensures
      (HasFreeBandwidth(account, required) <==> AvailableBandwidth(account) >= required)
      <==> (required > 0 || LargestPool(account) >= required)
  {
  }

  /** They agree on every account exactly for positive requirements. */
  lemma BandwidthReadingsAgreeEverywhere(required: int)
    ensures
      (forall account :: HasFreeBandwidth(account, required) <==> AvailableBandwidth(account) >= required)
      <==> required > 0
  {
    if required <= 0 {
      var overdrawn := Account(0, 0, 0, 1 - required, 0, 1 - required);
      assert !HasFreeBandwidth(overdrawn, required);
    }
  }

  /** The events added to `before` to make `after`. */
  function Since(before: Log, after: Log): (added: Log)
    requires before <= after
    ensures before + added == after
  {
    after[|before|..]
  }

  predicate OnlyReads(added: Log, resource: Resource) {
    forall i :: 0 <= i < |added| ==> added[i].Read? && added[i].resource == resource
  }

  predicate Ordered(added: Log) {
    |added| >= 2 && added[1].Accepted?
  }

  predicate Placed(event: Event) {
    event.Accepted? || event.Declined?
  }

  /** The traffic of one acquisition: a reading, at most one order right after it, and, once that is
      accepted, only readings. */
  predicate Trail(added: Log, resource: Resource, provider: Provider, need: int) {
    && (|added| >= 1 ==> OnlyReads(added[..1], resource))
    && (|added| >= 2 ==>
          && Placed(added[1]) && added[1].resource == resource && added[1].provider == provider
          && (added[1].Accepted? ==> added[1].need == need)
          && OnlyReads(added[2..], resource)
          && (added[1].Declined? ==> |added| == 2))
  }

  /** The only order of a trail is its second event. */
  lemma TrailPlaces(added: Log, resource: Resource, provider: Provider, need: int)
    requires Trail(added, resource, provider, need)
    ensures forall k :: 0 <= k < |added| && !added[k].Read? ==>
              k == 1 && added[k].provider == provider && (added[k].Accepted? ==> added[k].need == need)
  {
    forall k | 0 <= k < |added| && k != 1
      ensures added[k].Read?
    {
      if k == 0 {
        assert added[..1][0] == added[0];
      } else {
        assert added[2..][k - 2] == added[k];
      }
    }
  }

  /** How one acquisition ends.  It succeeds exactly when the level was the last thing seen; a failure says
      whether an order was accepted, and an accepted order rules out a fallback. */
  predicate AcquisitionContract(
    added: Log, resource: Resource, provider: Provider, need: int, ok: bool, failure: Option<ProviderFailure>)
  {
    && Trail(added, resource, provider, need)
    && (ok <==> added != [] && Shows(added[|added| - 1], resource, need))
    && (ok <==> failure.None?)
    && (!ok ==> (failure.value.orderAccepted <==> Ordered(added)))
    && (!ok && Ordered(added) ==> !failure.value.fallbackEligible)
  }

  /** A reading, an order and, if it was accepted, more readings make a trail. */
  lemma MakesTrail(
    before: Log, read: Event, order: Event, after: Log, resource: Resource, provider: Provider, need: int)
    requires read.Read? && read.resource == resource
    requires Placed(order) && order.resource == resource && order.provider == provider
    requires order.Accepted? ==> order.need == need
    requires before + [read, order] <= after
    requires OnlyReads(after[|before| + 2..], resource)
    requires order.Declined? ==> |after| == |before| + 2
    ensures before <= after
    ensures
      var added := Since(before, after);
      && Trail(added, resource, provider, need)
      && (Ordered(added) <==> order.Accepted?)
      && |added| >= 2 && added[0] == read && added[1] == order && added[|added| - 1] == after[|after| - 1]
  {
    var added := Since(before, after);
    assert added[2..] == after[|before| + 2..];
    assert after[|before|] == (before + [read, order])[|before|] == read;
    assert after[|before| + 1] == (before + [read, order])[|before| + 1] == order;
  }

  /** A reading alone, or nothing at all, is a trail. */
  lemma ReadIsTrail(before: Log, after: Log, resource: Resource, provider: Provider, need: int)
    requires before <= after && |after| <= |before| + 1
    requires |after| > |before| ==> after[|before|].Read? && after[|before|].resource == resource
    ensures Trail(Since(before, after), resource, provider, need)
    ensures |Since(before, after)| == |after| - |before| && !Ordered(Since(before, after))
  {
  }

  predicate NothingAccepted(added: Log) {
    forall i :: 0 <= i < |added| ==> !added[i].Accepted?
  }

  lemma {:induction false} NothingAcceptedCounts(added: Log, resource: Resource)
    requires NothingAccepted(added)
    ensures CountOrders(added, resource) == 0
  {
    if added != [] {
      NothingAcceptedCounts(added[..|added| - 1], resource);
    }
  }

  lemma TrailCounts(added: Log, resource: Resource, provider: Provider, need: int, any: Resource)
    requires Trail(added, resource, provider, need)
    ensures CountOrders(added, any) == if any == resource && Ordered(added) then 1 else 0
  {
    if |added| >= 2 {
      assert added == added[..1] + [added[1]] + added[2..];
      CountOrdersConcat(added[..1] + [added[1]], added[2..], any);
      CountOrdersConcat(added[..1], [added[1]], any);
      NothingAcceptedCounts(added[..1], any);
      NothingAcceptedCounts(added[2..], any);
      assert [added[1]][..0] == [];
    } else {
      assert added[..|added|] == added;
      NothingAcceptedCounts(added, any);
    }
  }

  /** An acquisition that succeeded, or in which nothing was accepted, leaves no order in doubt. */
  lemma TrailDelivers(added: Log, resource: Resource, provider: Provider, need: int)
    requires Trail(added, resource, provider, need)
    requires Ordered(added) ==> Shows(added[|added| - 1], resource, need)
    ensures AllDelivered(added)
  {
    forall i | 0 <= i < |added| && added[i].Accepted?
      ensures DeliveredAfter(added, i)
    {
      assert i == 1;
      assert Shows(added[|added| - 1], resource, need);
    }
  }

  /** The outside: a clock that never runs backwards, and replies that can be anything.  `log` records
      the orders and chain readings, `polls` the replies to status requests and `posts` those to orders. */
  class World {
    var clock: real
    var log: Log
    var polls: seq<Reply>
    var posts: seq<Reply>

    constructor ()
      ensures log == [] && polls == [] && posts == []
    {
      clock, log, polls, posts := 0.0, [], [], [];
    }

    method Now() returns (now: real)
      modifies this`clock
      ensures now == clock >= old(clock)
    {
      var passed: real := *;
      clock := clock + if passed > 0.0 then passed else 0.0;
      now := clock;
    }

    method Sleep(seconds: real)
      modifies this`clock
      ensures clock >= old(clock) + seconds
    {
      var passed: real := *;
      clock := clock + if passed > seconds then passed else seconds;
    }

    /** An account read that is only used for energy. */
    method ReadEnergy() returns (available: Option<nat>)
      modifies this`log
      ensures available.None? ==> log == old(log)
      ensures available.Some? ==> log == old(log) + [Read(Energy, available.value)]
    {
      var account: Option<Account> := *;
      match account
      case None => available := None;
      case Some(value) =>
        available := Some(AvailableEnergy(value));
        log := log + [Read(Energy, AvailableEnergy(value))];
    }

    /** The `has_free_bw` check; None when the read raises. */
    method CheckBandwidth(required: int) returns (ready: Option<bool>)
      modifies this`log
      ensures ready.None? ==> log == old(log)
      ensures ready.Some? ==>
                && old(log) <= log && |log| == |old(log)| + 1
                && log[|old(log)|].Read? && log[|old(log)|].resource == Bandwidth
                && (ready.value <==> log[|old(log)|].available >= required)
    {
      var account: Option<Account> := *;
      match account
      case None => ready := None;
      case Some(value) =>
        ready := Some(HasFreeBandwidth(value, required));
        log := log + [Read(Bandwidth, LargestPool(value))];
    }

    /** An account read that is used for both resources. */
    method ReadAccount() returns (account: Option<Account>)
      modifies this`log
      ensures account.None? ==> log == old(log)
      ensures account.Some? ==> log == old(log) + [
                Read(Energy, AvailableEnergy(account.value)),
                Read(Bandwidth, AvailableBandwidth(account.value))]
    {
      account := *;
      if account.Some? {
        log := log + [
          Read(Energy, AvailableEnergy(account.value)), Read(Bandwidth, AvailableBandwidth(account.value))];
      }
    }

    /** POST an order.  It counts as accepted when a 202 comes back. */
    method PostOrder(resource: Resource, provider: Provider, amount: int, need: int) returns (reply: Reply)
      modifies this`log, this`posts
      ensures posts == old(posts) + [reply]
      ensures log == old(log) + [
                if reply.Reply? && reply.status == 202 then Accepted(resource, provider, amount, need)
                else Declined(resource, provider, amount)]
    {
      reply := *;
      posts := posts + [reply];
      log := log + [
        if reply.Reply? && reply.status == ACCEPTED then Accepted(resource, provider, amount, need)
        else Declined(resource, provider, amount)];
    }

    /** Ask ProfeeX what the transfer costs. */
    method AskFee() returns (reply: FeeReply)
      modifies this`log
      ensures log == old(log) + (
                if reply.FeeReply? && reply.energy.Some? && reply.isNew.Some?
                then [Told(ProfeeX, reply.energy.value, reply.isNew.value)] else [])
    {
      reply := *;
      if reply.FeeReply? && reply.energy.Some? && reply.isNew.Some? {
        log := log + [Told(ProfeeX, reply.energy.value, reply.isNew.value)];
      }
    }

    /** Ask re:Fee, which knows nothing of activation. */
    method AskCost() returns (reply: CostReply)
      modifies this`log
      ensures log == old(log) + (
                if reply.CostReply? && reply.cost.Some? then [Told(ReFee, reply.cost.value, false)] else [])
    {
      reply := *;
      if reply.CostReply? && reply.cost.Some? {
        log := log + [Told(ReFee, reply.cost.value, false)];
      }
    }

    method GetStatus() returns (reply: Reply)
      modifies this`polls, this`clock
      ensures polls == old(polls) + [reply] && clock >= old(clock)
    {
      reply := *;
      polls := polls + [reply];
      var _ := Now();
    }
  }
}
