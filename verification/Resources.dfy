/** What one attempt to prepare transfer resources leaves behind: a quote or a failure, and the log
    of orders and chain readings made on the way. */
module Resources {
  import opened Options
  import opened Failures

  datatype Resource = Energy | Bandwidth
  datatype Provider = ProfeeX | ReFee

  /** An observable step of provisioning.  An order is accepted when the provider answers 202;
      `need` is the on-chain level the order was placed to reach.  `Told` is a provider's word on what the
      transfer costs, whatever it is worth. */
  datatype Event =
    | Read(resource: Resource, available: int)
    | Told(provider: Provider, energy: int, isNew: bool)
    | Accepted(resource: Resource, provider: Provider, amount: int, need: int)
    | Declined(resource: Resource, provider: Provider, amount: int)

  type Log = seq<Event>

  datatype Readiness = Readiness(provider: Option<Provider>, required: int, available: int, deficit: int)

  datatype Quote = Quote(
    energy: Readiness,
    bandwidth: Readiness,
    activationRequired: bool,
    estimateProvider: Option<Provider>,
    submitReady: bool,
    blockingCode: Option<Code>)

  /** The only kind of quote a transfer may be signed on. */
  predicate ReadyToSubmit(quote: Quote) {
    quote.submitReady && quote.energy.deficit == 0 && quote.bandwidth.deficit == 0
  }

  /** The log ends in a reading of the account, at `k`, and what providers told about the transfer: the last of
      them asks for the energy of the quote, for a destination that is active, and the reading shows both
      resources at the quote's levels. */
  predicate BackedAt(log: Log, k: int, quote: Quote) {
    && 0 <= k && k + 2 < |log|
    && log[k] == Read(Energy, quote.energy.available)
    && log[k + 1] == Read(Bandwidth, quote.bandwidth.available)
    && (forall i :: k + 2 <= i < |log| ==> log[i].Told?)
    && log[|log| - 1].energy == quote.energy.required
    && !log[|log| - 1].isNew
    && quote.energy.available >= quote.energy.required
    && quote.bandwidth.available >= quote.bandwidth.required
  }

  /** A quote that rests on the end of the log. */
  predicate Backed(log: Log, quote: Quote) {
    exists k :: 0 <= k < |log| && BackedAt(log, k, quote)
  }

  predicate IsOrder(event: Event, resource: Resource) {
    event.Accepted? && event.resource == resource
  }

  function CountOrders(log: Log, resource: Resource): nat {
    if log == [] then 0
    else CountOrders(log[..|log| - 1], resource) + if IsOrder(log[|log| - 1], resource) then 1 else 0
  }

  predicate Shows(event: Event, resource: Resource, level: int) {
    event.Read? && event.resource == resource && event.available >= level
  }

  predicate DeliveredAfter(log: Log, i: nat)
    requires i < |log| && log[i].Accepted?
  {
    exists j :: i < j < |log| && Shows(log[j], log[i].resource, log[i].need)
  }

  /** Every accepted order was later seen delivered on chain. */
  predicate AllDelivered(log: Log) {
    forall i :: 0 <= i < |log| && log[i].Accepted? ==> DeliveredAfter(log, i)
  }

  /** What a transfer is signed on: a ready quote, resting on the last of the readings made for it, with
      every order made for it delivered. */
  predicate Cleared(quote: Quote, log: Log) {
    ReadyToSubmit(quote) && Backed(log, quote) && AllDelivered(log)
  }

  datatype ResourceOutcome = Prepared(quote: Quote, log: Log) | Unprepared(failure: Failure, log: Log)

  /** What the resource step promises the execution that called it. */
  predicate ResourceContract(outcome: ResourceOutcome) {
    && CountOrders(outcome.log, Energy) <= 1
    && CountOrders(outcome.log, Bandwidth) <= 1
    && (outcome.Prepared? ==> Cleared(outcome.quote, outcome.log))
    && (outcome.Unprepared? && IsRetryable(outcome.failure) ==> AllDelivered(outcome.log))
  }

  lemma {:induction false} CountOrdersConcat(a: Log, b: Log, resource: Resource)
    ensures CountOrders(a + b, resource) == CountOrders(a, resource) + CountOrders(b, resource)
  {
    if b == [] {
      assert a + b == a;
    } else {
      CountOrdersConcat(a, b[..|b| - 1], resource);
      assert (a + b)[..|a + b| - 1] == a + b[..|b| - 1];
    }
  }

  lemma AllDeliveredConcat(a: Log, b: Log)
    requires AllDelivered(a) && AllDelivered(b)
    ensures AllDelivered(a + b)
  {
    forall i | 0 <= i < |a + b| && (a + b)[i].Accepted?
      ensures DeliveredAfter(a + b, i)
    {
      if i < |a| {
        assert DeliveredAfter(a, i);
        var j :| i < j < |a| && Shows(a[j], a[i].resource, a[i].need);
        assert (a + b)[j] == a[j];
      } else {
        assert DeliveredAfter(b, i - |a|);
        var j :| i - |a| < j < |b| && Shows(b[j], b[i - |a|].resource, b[i - |a|].need);
        assert (a + b)[j + |a|] == b[j];
      }
    }
  }
}
