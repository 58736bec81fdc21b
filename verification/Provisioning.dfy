/** Preparing the energy and bandwidth of one USDT transfer: quote, buy what is missing through the primary
    and fallback provider, and look again. */
module Provisioning {
  import opened Options
  import opened Failures
  import opened Resources
  import opened Providers
  import ProfeeX
  import Refee

  /** `energyPrimary` is None for "staking", `bandwidthPrimary` for "disabled"; the only fallback is re:Fee. */
  datatype Config = Config(
    energyPrimary: Option<Provider>,
    bandwidthPrimary: Option<Provider>,
    fallback: bool,
    profeex: Option<ProfeeX.Settings>,
    refee: Option<Refee.Settings>,
    refeeFixedEnergy: nat,
    bandwidthPerTransfer: int,
    recheckAttempts: int,
    recheckSleep: real)

  predicate ValidConfig(c: Config) {
    && (c.profeex.Some? ==> ProfeeX.ValidSettings(c.profeex.value))
    && (c.refee.Some? ==> Refee.ValidSettings(c.refee.value))
    && c.recheckAttempts >= 1 && c.recheckSleep >= 0.0
  }

  const TEMPORARY_BLOCKING_CODES: set<Code> := {
    ResourceEstimateUnavailable, ResourceReadFailed, ResourceRecheckFailed, ProviderFailed }

  /** An error of this layer. */
  function ResourceError(code: Code, temporary: bool, orderAccepted: bool): Failure {
    Failure(Some(code), Some(temporary), orderAccepted, false)
  }

  /** The provider chain: the primary if there is one, then re:Fee as the fallback, and nobody twice. */
  function Chain(primary: Option<Provider>, fallback: bool): (chain: seq<Provider>)
    ensures forall i, j :: 0 <= i < j < |chain| ==> chain[i] != chain[j]
    ensures chain != [] <==> primary.Some? || fallback
    ensures primary.Some? ==> chain[0] == primary.value
    ensures forall p :: p in chain <==> primary == Some(p) || (fallback && p == ReFee)
    ensures |chain| <= 2
  {
    (if primary.Some? then [primary.value] else []) + (if fallback && primary != Some(ReFee) then [ReFee] else [])
  }

  /** A transfer's estimated energy and whether its destination has still to be activated. */
  datatype Estimate = Estimate(provider: Provider, energyRequired: int, isNew: bool)

  /** The quote for one account reading: what the transfer needs is what the estimate says and what is
      configured.  `failureCode` is set when ProfeeX ruled out asking re:Fee. */
  function QuoteFrom(c: Config, account: Account, estimate: Option<Estimate>, failureCode: Option<Code>): (q: Quote)
    ensures q.energy.available == AvailableEnergy(account) && q.bandwidth.available == AvailableBandwidth(account)
    ensures q.energy.required == if estimate.Some? then estimate.value.energyRequired else 0
    ensures q.bandwidth.required == c.bandwidthPerTransfer
    ensures q.energy.deficit >= 0 && q.bandwidth.deficit >= 0
    ensures q.energy.deficit == 0 <==> q.energy.available >= q.energy.required
    ensures q.bandwidth.deficit == 0 <==> q.bandwidth.available >= q.bandwidth.required
    ensures q.activationRequired <==> estimate.Some? && estimate.value.isNew
    ensures q.estimateProvider.Some? <==> estimate.Some?
    ensures estimate.Some? ==> q.estimateProvider == Some(estimate.value.provider)
    ensures q.submitReady <==>
            && estimate.Some? && !estimate.value.isNew
            && (q.energy.deficit == 0 || c.energyPrimary.Some? || c.fallback)
            && (q.bandwidth.deficit == 0 || c.bandwidthPrimary.Some? || c.fallback)
    ensures q.submitReady <==> q.blockingCode.None?
  {
    var energyRequired := if estimate.None? then 0 else estimate.value.energyRequired;
    var activationRequired := estimate.Some? && estimate.value.isNew;
    var early :=
      if estimate.None? then Some(if failureCode.Some? then failureCode.value else ResourceEstimateUnavailable)
      else if activationRequired then Some(DestinationNotActivated)
      else None;
    var energyDeficit := Max(energyRequired - AvailableEnergy(account), 0);
    var bandwidthDeficit := Max(c.bandwidthPerTransfer - AvailableBandwidth(account), 0);
    var energyChain := if energyDeficit != 0 then Chain(c.energyPrimary, c.fallback) else [];
    var bandwidthChain := if bandwidthDeficit != 0 then Chain(c.bandwidthPrimary, c.fallback) else [];
    var blocking :=
      if early.None? && energyDeficit != 0 && energyChain == [] then Some(ProviderUnavailable)
      else if early.None? && bandwidthDeficit != 0 && bandwidthChain == [] then Some(ProviderUnavailable)
      else early;
    Quote(
      Readiness(Label(energyChain), energyRequired, AvailableEnergy(account), energyDeficit),
      Readiness(Label(bandwidthChain), c.bandwidthPerTransfer, AvailableBandwidth(account), bandwidthDeficit),
      activationRequired,
      if estimate.None? then None else Some(estimate.value.provider),
      blocking.None?,
      blocking)
  }

  /** A deficit is what is missing, and named after the provider that is asked first; what blocks the quote is the
      missing estimate, else the missing activation, else a missing provider. */
  lemma QuoteNames(c: Config, account: Account, estimate: Option<Estimate>, failureCode: Option<Code>)
    ensures
      var q := QuoteFrom(c, account, estimate, failureCode);
      && (q.energy.deficit > 0 ==> q.energy.available + q.energy.deficit == q.energy.required)
      && (q.bandwidth.deficit > 0 ==> q.bandwidth.available + q.bandwidth.deficit == q.bandwidth.required)
      && q.energy.provider == (if q.energy.deficit == 0 then None else First(c.energyPrimary, c.fallback))
      && q.bandwidth.provider == (if q.bandwidth.deficit == 0 then None else First(c.bandwidthPrimary, c.fallback))
      && (estimate.None? ==>
            q.blockingCode == if failureCode.Some? then failureCode else Some(ResourceEstimateUnavailable))
      && (estimate.Some? && estimate.value.isNew ==> q.blockingCode == Some(DestinationNotActivated))
      && (estimate.Some? && !estimate.value.isNew ==> q.blockingCode in {None, Some(ProviderUnavailable)})
  {
    LabelIsFirst(c.energyPrimary, c.fallback);
    LabelIsFirst(c.bandwidthPrimary, c.fallback);
    hide Chain, Label, First;
  }

  lemma LabelIsFirst(primary: Option<Provider>, fallback: bool)
    ensures Label(Chain(primary, fallback)) == First(primary, fallback) && Label([]) == None
  {
  }

  function Label(chain: seq<Provider>): Option<Provider> {
    if chain == [] then None else Some(chain[0])
  }

  /** Who is asked first. */
  function First(primary: Option<Provider>, fallback: bool): Option<Provider> {
    if primary.Some? then primary else if fallback then Some(ReFee) else None
  }

  /** The error of a quote that is not ready: temporary if the estimate or a reading was not to be had, a recheck
      failed, or a provider did. */
  function ErrorFromQuote(quote: Quote): (failure: Failure)
    ensures failure.code == quote.blockingCode && !failure.orderAccepted
    ensures failure.temporary == Some(
              || quote.blockingCode == Some(ResourceEstimateUnavailable)
              || quote.blockingCode == Some(ResourceReadFailed)
              || quote.blockingCode == Some(ResourceRecheckFailed)
              || quote.blockingCode == Some(ProviderFailed))
  {
    Failure(
      quote.blockingCode, Some(quote.blockingCode.Some? && quote.blockingCode.value in TEMPORARY_BLOCKING_CODES),
      false, false)
  }

  function FallbackEligible(failure: Option<ProviderFailure>): bool {
    failure.None? || failure.value.fallbackEligible
  }

  function RaiseFailure(failure: Option<ProviderFailure>): Failure {
    match failure
    case None => ResourceError(ProviderFailed, true, false)
    case Some(f) => ResourceError(f.code, f.temporary, f.orderAccepted)
  }

  /** The only ways to stop: a read raised, the last provider tried left a failure that bars the fallback, or
      every provider of the chain was tried. */
  predicate StopsRightly(
    chain: seq<Provider>, tried: nat, last: Option<ProviderFailure>, result: Provision)
  {
    result.Stopped? && chain != [] ==>
      || result.failure == RAW_EXCEPTION
      || result.failure == Failure(Some(ResourceReadFailed), Some(true), false, false)
      || (last.Some? && !last.value.fallbackEligible
          && result.failure == Failure(
               Some(last.value.code), Some(last.value.temporary), last.value.orderAccepted, false))
      || (tried == |chain| && result.failure == Failure(Some(ProviderFailed), Some(true), false, false))
  }

  /** Orders go to the providers of the chain, to each at most once and in its order. */
  predicate InChainOrder(added: Log, chain: seq<Provider>) {
    && (forall i :: 0 <= i < |added| && Placed(added[i]) ==> added[i].provider in chain)
    && (forall i, j :: 0 <= i < j < |added| && Placed(added[i]) && Placed(added[j]) ==>
          |chain| == 2 && added[i].provider == chain[0] && added[j].provider == chain[1])
  }

  /** So far only the first `tried` providers got orders. */
  predicate UpTo(added: Log, chain: seq<Provider>, tried: nat)
    requires tried <= |chain|
  {
    InChainOrder(added, chain[..tried])
  }

  lemma NextProvider(quiet: Log, added: Log, chain: seq<Provider>, i: nat, resource: Resource, need: int)
    requires i < |chain| <= 2 && UpTo(quiet, chain, i) && Trail(added, resource, chain[i], need)
    ensures UpTo(quiet + added, chain, i + 1)
  {
    TrailPlaces(added, resource, chain[i], need);
  }

  lemma NoOrders(quiet: Log, readings: Log, chain: seq<Provider>, i: nat)
    requires i <= |chain| && UpTo(quiet, chain, i) && forall k :: 0 <= k < |readings| ==> !Placed(readings[k])
    ensures UpTo(quiet + readings, chain, i)
  {
  }

  predicate OrdersSized(c: Config, resource: Resource, added: Log, required: int) {
    if resource.Energy? then Sized(c, added, required) else BandwidthSized(c, added, required)
  }

  /** How provisioning one resource down a chain leaves the log: sound, in the order of the chain, in the sizes due,
      and done only on a sufficient reading. */
  ghost predicate Provisioned(
    c: Config, resource: Resource, added: Log, chain: seq<Provider>, required: int, result: Provision)
  {
    && Sound(added, resource, required, result) && InChainOrder(added, chain)
    && OrdersSized(c, resource, added, required)
    && (result.Done? ==> Observed(added, resource, required))
  }

  /** So far the first `i` providers were asked in vain. */
  ghost predicate Trying(
    c: Config, resource: Resource, before: Log, after: Log, chain: seq<Provider>, i: nat, required: int)
  {
    && before <= after && i <= |chain| <= 2
    && NothingAccepted(Since(before, after)) && UpTo(Since(before, after), chain, i)
    && OrdersSized(c, resource, Since(before, after), required)
  }

  lemma TryingStops(
    c: Config, resource: Resource, before: Log, after: Log, chain: seq<Provider>, i: nat, required: int,
    failure: Failure)
    requires Trying(c, resource, before, after, chain, i, required)
    ensures before <= after && Provisioned(c, resource, Since(before, after), chain, required, Stopped(failure))
  {
    WithinChain(Since(before, after), chain, i);
    QuietIsSound(Since(before, after), resource, required, Stopped(failure));
    hide OrdersSized, Sound, UpTo, InChainOrder;
  }

  lemma NothingTried(c: Config, resource: Resource, log: Log, chain: seq<Provider>, required: int)
    requires |chain| <= 2
    ensures Trying(c, resource, log, log, chain, 0, required)
    ensures
      Provisioned(
        c, resource, Since(log, log), chain, required, Stopped(ResourceError(ProviderUnavailable, false, false)))
  {
    SinceSelf(log);
    NobodyYet(chain);
    NothingSized(c, required);
    ReadingsAreNoOrders(c, log, log, required);
    hide UpTo, Provisioned, Sized, BandwidthSized;
    TryingStops(c, resource, log, log, chain, 0, required, ResourceError(ProviderUnavailable, false, false));
  }

  /** Reading the account again. */
  lemma Reread(
    c: Config, resource: Resource, before: Log, quiet: Log, after: Log, chain: seq<Provider>, i: nat, required: int)
    requires Trying(c, resource, before, quiet, chain, i, required)
    requires quiet <= after && forall k :: |quiet| <= k < |after| ==> after[k].Read?
    ensures Trying(c, resource, before, after, chain, i, required)
    ensures
      Provisioned(
        c, resource, Since(before, after), chain, required, Stopped(ResourceError(ResourceReadFailed, true, false)))
    ensures (exists k :: |quiet| <= k < |after| && Shows(after[k], resource, required)) ==>
              Provisioned(c, resource, Since(before, after), chain, required, Done)
  {
    LookAgain(before, quiet, after, resource, required);
    ReadFromNobody(before, quiet, after, chain, i);
    if resource.Energy? {
      SizedStays(c, before, quiet, after, required);
    } else {
      ReadingsAreNoOrders(c, quiet, after, required);
      BandwidthSizedOn(c, before, quiet, after, required);
    }
    hide UpTo, Sized, BandwidthSized, Sound, Observed, InChainOrder, NothingAccepted;
  }

  /** One purchase from the next provider, after quiet ones. */
  lemma NextTried(
    c: Config, resource: Resource, before: Log, quiet: Log, after: Log, chain: seq<Provider>, i: nat, need: int,
    required: int, ok: bool, failure: Option<ProviderFailure>)
    requires Trying(c, resource, before, quiet, chain, i, required) && i < |chain| && quiet <= after
    requires need >= required
    requires AcquisitionContract(Since(quiet, after), resource, chain[i], need, ok, failure)
    requires OrdersSized(c, resource, Since(before, after), required)
    ensures ok ==> Provisioned(c, resource, Since(before, after), chain, required, Done)
    ensures !ok ==> Provisioned(c, resource, Since(before, after), chain, required, Stopped(RaiseFailure(failure)))
    ensures !ok && FallbackEligible(failure) ==> Trying(c, resource, before, after, chain, i + 1, required)
  {
    SinceSplits(before, quiet, after);
    hide OrdersSized, Sound, AcquisitionContract, UpTo, InChainOrder, Observed, NothingAccepted, Since;
    SoundAfterQuiet(Since(before, quiet), Since(quiet, after), resource, chain[i], need, required, ok, failure);
    BoughtFromNext(Since(before, quiet), Since(quiet, after), chain, i, resource, need, ok, failure);
  }

  lemma BandwidthTried(
    c: Config, before: Log, quiet: Log, after: Log, chain: seq<Provider>, i: nat, required: int, ok: bool,
    failure: Option<ProviderFailure>)
    requires Trying(c, Bandwidth, before, quiet, chain, i, required) && i < |chain| && quiet <= after
    requires AcquisitionContract(Since(quiet, after), Bandwidth, chain[i], required, ok, failure)
    requires BandwidthSized(c, Since(quiet, after), required)
    ensures ok ==> Provisioned(c, Bandwidth, Since(before, after), chain, required, Done)
    ensures !ok ==> Provisioned(c, Bandwidth, Since(before, after), chain, required, Stopped(RaiseFailure(failure)))
    ensures !ok && FallbackEligible(failure) ==> Trying(c, Bandwidth, before, after, chain, i + 1, required)
  {
    BandwidthSizedOn(c, before, quiet, after, required);
    hide AcquisitionContract, Provisioned, UpTo, NothingAccepted, BandwidthSized;
    NextTried(c, Bandwidth, before, quiet, after, chain, i, required, required, ok, failure);
  }

  lemma EnergyTried(
    c: Config, before: Log, quiet: Log, after: Log, chain: seq<Provider>, i: nat, seen: nat, deficit: int,
    required: int, ok: bool, failure: Option<ProviderFailure>)
    requires Trying(c, Energy, before, quiet, chain, i, required) && i < |chain| && quiet <= after
    requires |before| <= seen < |quiet| && quiet[seen].Read? && quiet[seen].resource.Energy?
    requires deficit == required - quiet[seen].available > 0
    requires
      var added := Since(quiet, after);
      && AcquisitionContract(
           added, Energy, chain[i], EnergyNeed(c, chain[i], deficit, required), ok, failure)
      && (|added| >= 2 ==> SizedFor(c, chain[i], deficit, required, added[0].available, added[1].amount))
    ensures ok ==> Provisioned(c, Energy, Since(before, after), chain, required, Done)
    ensures !ok ==> Provisioned(c, Energy, Since(before, after), chain, required, Stopped(RaiseFailure(failure)))
    ensures !ok && FallbackEligible(failure) ==> Trying(c, Energy, before, after, chain, i + 1, required)
  {
    var need := EnergyNeed(c, chain[i], deficit, required);
    EnergySized(c, before, quiet, after, seen, required, chain[i], need, deficit, ok, failure);
    hide EnergyNeed, SizedFor, Sized, AcquisitionContract, Provisioned, UpTo, NothingAccepted;
    NextTried(c, Energy, before, quiet, after, chain, i, need, required, ok, failure);
  }

  lemma NobodyYet(chain: seq<Provider>)
    ensures UpTo([], chain, 0) && InChainOrder([], chain)
  {
  }

  lemma BoughtFromNext(
    quiet: Log, added: Log, chain: seq<Provider>, i: nat, resource: Resource, need: int, ok: bool,
    failure: Option<ProviderFailure>)
    requires i < |chain| <= 2 && UpTo(quiet, chain, i)
    requires AcquisitionContract(added, resource, chain[i], need, ok, failure)
    ensures UpTo(quiet + added, chain, i + 1) && InChainOrder(quiet + added, chain)
  {
    NextProvider(quiet, added, chain, i, resource, need);
    WithinChain(quiet + added, chain, i + 1);
  }

  lemma ReadFromNobody(before: Log, quiet: Log, after: Log, chain: seq<Provider>, i: nat)
    requires before <= quiet <= after && i <= |chain| <= 2 && UpTo(Since(before, quiet), chain, i)
    requires forall k :: |quiet| <= k < |after| ==> after[k].Read?
    ensures UpTo(Since(before, after), chain, i) && InChainOrder(Since(before, after), chain)
  {
    SinceSplits(before, quiet, after);
    NoOrders(Since(before, quiet), Since(quiet, after), chain, i);
    WithinChain(Since(before, after), chain, i);
  }

  lemma WithinChain(added: Log, chain: seq<Provider>, i: nat)
    requires i <= |chain| <= 2 && UpTo(added, chain, i)
    ensures InChainOrder(added, chain)
  {
  }

  /** A result of provisioning: done, or the error raised. */
  datatype Provision = Done | Stopped(failure: Failure)

  /** Once an order is accepted no provider is asked again. */
  predicate AcceptedIsFinal(added: Log) {
    forall i, j :: 0 <= i < j < |added| && added[i].Accepted? ==> added[j].Read?
  }

  /** One resource was provisioned soundly: at most one order was accepted, for nothing else and for no less
      than is required, no order follows it, and unless the error says that an order was accepted it was
      seen delivered. */
  ghost predicate Sound(added: Log, resource: Resource, required: int, result: Provision) {
    && AcceptedIsFinal(added)
    && (forall i :: 0 <= i < |added| && added[i].Accepted? ==> added[i].need >= required)
    && CountOrders(added, resource) <= 1
    && (forall other :: other != resource ==> CountOrders(added, other) == 0)
    && (result.Done? || !result.failure.orderAccepted ==> AllDelivered(added))
  }

  predicate Observed(added: Log, resource: Resource, level: int) {
    exists i :: 0 <= i < |added| && Shows(added[i], resource, level)
  }

  /** After a stretch in which nothing was accepted, one sound acquisition keeps the whole sound. */
  lemma SoundAfterQuiet(
    quiet: Log, added: Log, resource: Resource, provider: Provider, need: int, required: int, ok: bool,
    failure: Option<ProviderFailure>)
    requires NothingAccepted(quiet) && AcquisitionContract(added, resource, provider, need, ok, failure)
    requires required <= need
    ensures ok ==> Sound(quiet + added, resource, required, Done)
    ensures ok ==> forall level :: level <= need ==> Observed(quiet + added, resource, level)
    ensures !ok ==> Sound(quiet + added, resource, required, Stopped(RaiseFailure(failure)))
    ensures !ok && FallbackEligible(failure) ==> NothingAccepted(quiet + added)
  {
    forall any: Resource
      ensures CountOrders(quiet + added, any) == if any == resource && Ordered(added) then 1 else 0
    {
      CountOrdersConcat(quiet, added, any);
      NothingAcceptedCounts(quiet, any);
      TrailCounts(added, resource, provider, need, any);
    }
    forall i, j | 0 <= i < j < |quiet + added| && (quiet + added)[i].Accepted?
      ensures (quiet + added)[j].Read?
    {
      TrailOrdersOnce(added, resource, provider, need, i - |quiet|, j - |quiet|);
    }
    TrailPlaces(added, resource, provider, need);
    if ok || !failure.value.orderAccepted {
      assert AllDelivered(quiet);
      TrailDelivers(added, resource, provider, need);
      AllDeliveredConcat(quiet, added);
    }
    if ok {
      assert (quiet + added)[|quiet + added| - 1] == added[|added| - 1];
    }
    if !ok && FallbackEligible(failure) {
      TrailQuiet(added, resource, provider, need);
    }
  }

  lemma TrailOrdersOnce(added: Log, resource: Resource, provider: Provider, need: int, i: int, j: int)
    requires Trail(added, resource, provider, need) && 0 <= i < j < |added| && added[i].Accepted?
    ensures added[j].Read?
  {
    assert i == 1;
    assert added[j] == added[2..][j - 2];
  }

  lemma TrailQuiet(added: Log, resource: Resource, provider: Provider, need: int)
    requires Trail(added, resource, provider, need) && !Ordered(added)
    ensures NothingAccepted(added)
  {
    forall i | 0 <= i < |added|
      ensures !added[i].Accepted?
    {
      if i == 0 {
        assert added[..1][0] == added[0];
      }
    }
  }

  lemma QuietIsSound(quiet: Log, resource: Resource, required: int, result: Provision)
    requires NothingAccepted(quiet)
    ensures Sound(quiet, resource, required, result)
  {
    forall any: Resource
      ensures CountOrders(quiet, any) == 0
    {
      NothingAcceptedCounts(quiet, any);
    }
  }

  /** The level a strict energy acquisition has to reach; never below what the transfer needs. */
  function EnergyNeed(c: Config, provider: Provider, deficit: int, required: int): (need: int)
    ensures need >= required
  {
    match provider
    case ProfeeX => if c.profeex.None? then required else ProfeeX.EnergyThreshold(c.profeex.value, Some(required), true)
    case ReFee => Refee.EnergyThreshold(c.refeeFixedEnergy, deficit, Some(required), true)
  }

  datatype Ensured = Ready(quote: Quote) | NotReady(failure: Failure)

  /** `quote` is what one reading of the account and what the providers then told come to: the energy of the
      estimate and the configured bandwidth against what the account has. */
  predicate Look(added: Log, c: Config, quote: Quote) {
    && |added| >= 2
    && added[0] == Read(Energy, quote.energy.available) && added[1] == Read(Bandwidth, quote.bandwidth.available)
    && (forall i :: 2 <= i < |added| ==> added[i].Told?)
    && quote.bandwidth.required == c.bandwidthPerTransfer
    && (quote.estimateProvider.Some? ==>
          |added| > 2
          && added[|added| - 1]
             == Told(quote.estimateProvider.value, quote.energy.required, quote.activationRequired))
    && (quote.estimateProvider.None? ==> quote.energy.required == 0 && !quote.activationRequired)
    && quote.energy.deficit >= 0 && quote.bandwidth.deficit >= 0
    && (quote.energy.deficit == 0 <==> quote.energy.available >= quote.energy.required)
    && (quote.bandwidth.deficit == 0 <==> quote.bandwidth.available >= quote.bandwidth.required)
    && (quote.submitReady <==> quote.blockingCode.None?)
    && (quote.submitReady <==>
          && quote.estimateProvider.Some? && !quote.activationRequired
          && (quote.energy.deficit == 0 || c.energyPrimary.Some? || c.fallback)
          && (quote.bandwidth.deficit == 0 || c.bandwidthPrimary.Some? || c.fallback))
  }

  lemma LookBacks(added: Log, c: Config, quote: Quote)
    requires Look(added, c, quote)
    ensures NothingAccepted(added) && CountLooks(added) == 1
    ensures ReadyToSubmit(quote) ==> Backed(added, quote)
  {
    if ReadyToSubmit(quote) {
      assert BackedAt(added, 0, quote);
    }
    CountLooksOf(added);
  }

  /** How often the account was read for its energy. */
  function CountLooks(log: Log): nat {
    if log == [] then 0
    else CountLooks(log[..|log| - 1]) + if log[|log| - 1].Read? && log[|log| - 1].resource.Energy? then 1 else 0
  }

  lemma {:induction false} CountLooksConcat(a: Log, b: Log)
    ensures CountLooks(a + b) == CountLooks(a) + CountLooks(b)
  {
    if b == [] {
      assert a + b == a;
    } else {
      CountLooksConcat(a, b[..|b| - 1]);
      assert (a + b)[..|a + b| - 1] == a + b[..|b| - 1];
    }
  }

  lemma {:induction false} CountLooksOf(added: Log)
    requires |added| >= 2 && added[0].Read? && added[0].resource.Energy?
    requires added[1].Read? && added[1].resource.Bandwidth? && forall i :: 2 <= i < |added| ==> added[i].Told?
    ensures CountLooks(added) == 1
  {
    if |added| == 2 {
      assert added[..1][..0] == [] && CountLooks([]) == 0;
      assert CountLooks(added[..1]) == 1;
    } else {
      CountLooksOf(added[..|added| - 1]);
    }
  }

  /** What one call promises for every reply: at most one accepted order per resource; a quote that is ready
      and rests on a reading after every order; and no order in doubt unless the error says so. */
  ghost predicate TransferContract(added: Log, result: Ensured) {
    && CountOrders(added, Energy) <= 1
    && CountOrders(added, Bandwidth) <= 1
    && (result.Ready? ==> ReadyToSubmit(result.quote) && Backed(added, result.quote) && AllDelivered(added))
    && (result.NotReady? && !result.failure.orderAccepted ==> AllDelivered(added))
  }

  /** When an energy order is sure to close the gap it was placed for. */
  predicate OrdersEnough(c: Config, provider: Provider, deficit: int, required: int, available: int) {
    match provider
    case ProfeeX => available >= required - deficit
    case ReFee => c.refee.Some? && (c.refeeFixedEnergy > 0 || c.refee.value.overprovision >= 1.0)
  }

  /** re:Fee sizes a strict order by its own reading alone. */
  lemma RefeeSizeIgnoresDeficit(s: Refee.Settings, fixed: nat, deficit: int, required: int, available: int)
    ensures Refee.EnergyOrder(s, fixed, deficit, Some(required), true, available)
            == Refee.EnergyOrder(s, fixed, required, Some(required), true, available)
  {
  }

  lemma RefeeOrdersEnough(s: Refee.Settings, fixed: nat, deficit: int, required: int, available: nat)
    requires Refee.ValidSettings(s) && (fixed > 0 || s.overprovision >= 1.0)
    requires available < Refee.EnergyThreshold(fixed, deficit, Some(required), true)
    ensures available + Refee.EnergyOrder(s, fixed, deficit, Some(required), true, available)
            >= Refee.EnergyThreshold(fixed, deficit, Some(required), true)
  {
    if fixed > 0 {
      Refee.FixedEnergyOrderSuffices(s, fixed, deficit, Some(required), true, available);
    } else {
      Refee.DynamicEnergyOrderSuffices(s);
      assert available + Refee.EnergyOrder(s, 0, required, Some(required), true, available) >= required;
    }
  }

  /** The size of an energy order placed on reading `available`: ProfeeX gets the deficit, or the fixed order if
      that is more, re:Fee what the reading lacks in its own measure. */
  predicate SizedFor(c: Config, provider: Provider, deficit: int, required: int, available: int, amount: int) {
    match provider
    case ProfeeX => c.profeex.Some? && amount == Max(c.profeex.value.fixedEnergy, deficit)
    case ReFee =>
      c.refee.Some?
      && amount == Refee.EnergyOrder(c.refee.value, c.refeeFixedEnergy, required, Some(required), true, available)
  }

  /** An energy order at `i` is sized by the reading right before it and by the deficit of an earlier one. */
  predicate SizedAt(c: Config, added: Log, i: nat, required: int)
    requires i < |added| && Placed(added[i])
  {
    && i > 0 && added[i - 1].Read?
    && exists j :: 0 <= j < i && added[j].Read? && added[j].resource.Energy? && added[j].available < required
                   && SizedFor(
                        c, added[i].provider, required - added[j].available, required, added[i - 1].available,
                        added[i].amount)
  }

  predicate Sized(c: Config, added: Log, required: int) {
    forall i :: 0 <= i < |added| && Placed(added[i]) ==> SizedAt(c, added, i, required)
  }

  /** ProfeeX gets its fixed bandwidth order, re:Fee the requirement or its smallest order if that is more. */
  predicate BandwidthSized(c: Config, added: Log, required: int) {
    forall i :: 0 <= i < |added| && Placed(added[i]) ==>
      match added[i].provider
      case ProfeeX => c.profeex.Some? && added[i].amount == c.profeex.value.fixedBandwidth
      case ReFee =>
        c.refee.Some?
        && added[i].amount >= required && added[i].amount >= c.refee.value.minBandwidthOrder
        && (added[i].amount == required || added[i].amount == c.refee.value.minBandwidthOrder)
  }

  lemma BandwidthSizedOn(c: Config, before: Log, quiet: Log, after: Log, required: int)
    requires before <= quiet <= after
    requires BandwidthSized(c, Since(before, quiet), required) && BandwidthSized(c, Since(quiet, after), required)
    ensures BandwidthSized(c, Since(before, after), required)
  {
    SinceSplits(before, quiet, after);
  }

  lemma ReadingsAreNoOrders(c: Config, quiet: Log, after: Log, required: int)
    requires quiet <= after && forall k :: |quiet| <= k < |after| ==> after[k].Read?
    ensures BandwidthSized(c, Since(quiet, after), required)
  {
  }

  lemma SizedGrows(c: Config, quiet: Log, added: Log, required: int, j: nat, provider: Provider, need: int)
    requires Sized(c, quiet, required) && Trail(added, Energy, provider, need)
    requires j < |quiet| && quiet[j].Read? && quiet[j].resource.Energy? && quiet[j].available < required
    requires |added| >= 2 ==>
               added[0].Read?
               && SizedFor(
                    c, provider, required - quiet[j].available, required, added[0].available, added[1].amount)
    ensures Sized(c, quiet + added, required)
  {
    TrailPlaces(added, Energy, provider, need);
    var all := quiet + added;
    forall i | 0 <= i < |all| && Placed(all[i])
      ensures SizedAt(c, all, i, required)
    {
      if i < |quiet| {
        assert SizedAt(c, quiet, i, required);
        var k :| 0 <= k < i && quiet[k].Read? && quiet[k].resource.Energy? && quiet[k].available < required
                 && SizedFor(
                      c, quiet[i].provider, required - quiet[k].available, required, quiet[i - 1].available,
                      quiet[i].amount);
        assert all[k] == quiet[k] && all[i - 1] == quiet[i - 1];
      } else {
        assert i == |quiet| + 1 && all[i - 1] == added[0] && all[j] == quiet[j];
      }
    }
  }

  lemma NothingSized(c: Config, required: int)
    ensures Sized(c, [], required)
  {
  }

  lemma EnergySized(
    c: Config, before: Log, quiet: Log, after: Log, seen: nat, required: int, provider: Provider, need: int,
    deficit: int, ok: bool, failure: Option<ProviderFailure>)
    requires before <= quiet <= after && |before| <= seen < |quiet|
    requires quiet[seen].Read? && quiet[seen].resource.Energy? && quiet[seen].available < required
    requires deficit == required - quiet[seen].available
    requires Sized(c, Since(before, quiet), required)
    requires AcquisitionContract(Since(quiet, after), Energy, provider, need, ok, failure)
    requires
      var added := Since(quiet, after);
      |added| >= 2 ==> SizedFor(c, provider, deficit, required, added[0].available, added[1].amount)
    ensures Sized(c, Since(before, after), required)
  {
    SinceSplits(before, quiet, after);
    var added := Since(quiet, after);
    assert Since(before, quiet)[seen - |before|] == quiet[seen];
    if |added| >= 2 {
      assert added[..1][0] == added[0];
    }
    SizedGrows(c, Since(before, quiet), added, required, seen - |before|, provider, need);
  }

  lemma SizedStays(c: Config, before: Log, quiet: Log, after: Log, required: int)
    requires before <= quiet <= after && Sized(c, Since(before, quiet), required)
    requires forall k :: |quiet| <= k < |after| ==> after[k].Read?
    ensures Sized(c, Since(before, after), required)
  {
    var log, all := Since(before, quiet), Since(before, after);
    forall i | 0 <= i < |all| && Placed(all[i])
      ensures SizedAt(c, all, i, required)
    {
      assert i < |log| && all[..|log|] == log;
      assert SizedAt(c, log, i, required);
      var k :| 0 <= k < i && log[k].Read? && log[k].resource.Energy? && log[k].available < required
               && SizedFor(
                    c, log[i].provider, required - log[k].available, required, log[i - 1].available, log[i].amount);
      assert all[k] == log[k] && all[i - 1] == log[i - 1];
    }
  }

  class Provisioner {
    const world: World
    const config: Config

    constructor (world: World, config: Config)
      ensures this.world == world && this.config == config
    {
      this.world, this.config := world, config;
    }

    /** Ask ProfeeX, then re:Fee when ProfeeX's failure allows it; a re:Fee primary is asked alone.  `fee` and
        `cost` are the replies, if they were asked.  The estimate is the last thing told. */
    method EstimateFee()
      returns (
        estimate: Option<Estimate>, failureCode: Option<Code>,
        ghost fee: Option<FeeReply>, ghost cost: Option<CostReply>)
      modifies world`log
      ensures old(world.log) <= world.log
      ensures
        var added := Since(old(world.log), world.log);
        && (forall i :: 0 <= i < |added| ==> added[i].Told?)
        && (estimate.Some? ==>
              && added != []
              && added[|added| - 1]
                 == Told(estimate.value.provider, estimate.value.energyRequired, estimate.value.isNew))
      ensures fee.Some? <==> config.energyPrimary != Some(ReFee) && config.profeex.Some?
      ensures cost.Some? ==>
                && (config.energyPrimary == Some(ReFee) || config.fallback) && config.refee.Some?
                && (estimate.Some? <==>
                      cost.value.CostReply? && cost.value.status == 200 && cost.value.cost.Some?
                      && cost.value.cost.value > 0)
                && (estimate.Some? ==> estimate == Some(Estimate(ReFee, cost.value.cost.value, false)))
      ensures config.energyPrimary == Some(ReFee) ==>
                failureCode.None? && (cost.Some? <==> config.refee.Some?) && (cost.None? ==> estimate.None?)
      ensures config.energyPrimary != Some(ReFee) ==>
                match ProfeeX.EstimateFee(
                        config.profeex.Some?, if fee.Some? then fee.value else NoFeeReply(OtherError))
                case Fee(energy, isNew) => estimate == Some(Estimate(ProfeeX, energy, isNew)) && cost.None?
                case NoFee(failure) =>
                  && (failureCode == if failure.fallbackEligible then None else Some(failure.code))
                  && (cost.Some? <==> failure.fallbackEligible && config.fallback && config.refee.Some?)
                  && (cost.None? ==> estimate.None?)
      ensures estimate.Some? ==> estimate.value.energyRequired >= 0 && failureCode.None?
    {
      hide ProfeeX.EstimateFee;
      fee, cost := None, None;
      ghost var before := world.log;
      if config.energyPrimary == Some(ReFee) {
        estimate, cost := EstimateViaRefee();
        return estimate, None, fee, cost;
      }
      var reply := NoFeeReply(OtherError);
      if config.profeex.Some? {
        reply := world.AskFee();
        fee := Some(reply);
      }
      match ProfeeX.EstimateFee(config.profeex.Some?, reply)
      case Fee(energyRequired, isNew) =>
        return Some(Estimate(ProfeeX, energyRequired, isNew)), None, fee, cost;
      case NoFee(failure) =>
        if !failure.fallbackEligible {
          return None, Some(failure.code), fee, cost;
        }
        estimate, failureCode := None, None;
        if config.fallback {
          ghost var asked := world.log;
          estimate, cost := EstimateViaRefee();
          SinceSplits(before, asked, world.log);
        }
    }

    method EstimateViaRefee() returns (estimate: Option<Estimate>, ghost cost: Option<CostReply>)
      modifies world`log
      ensures old(world.log) <= world.log
      ensures
        var added := Since(old(world.log), world.log);
        && (forall i :: 0 <= i < |added| ==> added[i].Told?)
        && (estimate.Some? ==> added == [Told(ReFee, estimate.value.energyRequired, false)])
      ensures cost.Some? <==> config.refee.Some?
      ensures estimate.Some? <==>
              cost.Some? && cost.value.CostReply? && cost.value.status == 200 && cost.value.cost.Some?
              && cost.value.cost.value > 0
      ensures estimate.Some? ==> estimate == Some(Estimate(ReFee, cost.value.cost.value, false))
    {
      if config.refee.None? {
        return None, None;
      }
      var reply := world.AskCost();
      cost := Some(reply);
      var energy := Refee.EstimateCost(true, reply);
      estimate := if energy.Some? then Some(Estimate(ReFee, energy.value, false)) else None;
    }

    /** Read the account, ask what the transfer costs, and quote it. */
    method EstimateTransfer() returns (quote: Option<Quote>)
      modifies world
      ensures old(world.log) <= world.log
      ensures quote.None? ==> world.log == old(world.log)
      ensures quote.Some? ==> Look(Since(old(world.log), world.log), config, quote.value)
    {
      hide ProfeeX.EstimateFee, Refee.EstimateCost, QuoteFrom, Chain, First;
      var account := world.ReadAccount();
      if account.None? {
        return None;
      }
      ghost var seen := world.log;
      var estimate, failureCode, _, _ := EstimateFee();
      assert world.log == seen + Since(seen, world.log);
      quote := Some(QuoteFrom(config, account.value, estimate, failureCode));
    }

    method BuyBandwidth(provider: Provider, required: int) returns (ok: Option<bool>, failure: Option<ProviderFailure>)
      requires ValidConfig(config)
      modifies world
      ensures old(world.log) <= world.log
      ensures ok.None? ==> world.log == old(world.log)
      ensures ok.Some? ==> AcquisitionContract(
                Since(old(world.log), world.log), Bandwidth, provider, required, ok.value, failure)
      ensures BandwidthSized(config, Since(old(world.log), world.log), required)
    {
      hide ProfeeX.OrderEnds, Refee.OrderEnds;
      match provider
      case ProfeeX =>
        var profeex := new ProfeeX.ProfeeXProvider(world, config.profeex);
        ok := profeex.AcquireBandwidth(required);
        failure := profeex.lastFailure;
      case ReFee =>
        var refee := new Refee.RefeeProvider(world, config.refee, config.refeeFixedEnergy);
        ok := refee.AcquireBandwidth(required);
        failure := refee.lastFailure;
    }

    /** Besides, the order is of the provider's size for the deficit, and big enough: what the provider reads plus
        what it orders reaches the level, from re:Fee with a fixed order or a factor of at least 1, from ProfeeX
        if the energy has not fallen since the deficit was computed. */
    method BuyEnergy(provider: Provider, deficit: int, required: int)
      returns (ok: bool, failure: Option<ProviderFailure>)
      requires ValidConfig(config)
      modifies world
      ensures old(world.log) <= world.log
      ensures
        var added := Since(old(world.log), world.log);
        var need := EnergyNeed(config, provider, deficit, required);
        && AcquisitionContract(added, Energy, provider, need, ok, failure)
        && (|added| >= 2 && OrdersEnough(config, provider, deficit, required, added[0].available) ==>
              added[0].available + added[1].amount >= need)
        && (|added| >= 2 ==> SizedFor(config, provider, deficit, required, added[0].available, added[1].amount))
    {
      hide ProfeeX.OrderEnds, Refee.OrderEnds, ProfeeX.EnergyThreshold, Refee.EnergyThreshold, Refee.EnergyOrder;
      match provider
      case ProfeeX =>
        var profeex := new ProfeeX.ProfeeXProvider(world, config.profeex);
        ok := profeex.AcquireEnergy(deficit, Some(required), true);
        failure := profeex.lastFailure;
      case ReFee =>
        var refee := new Refee.RefeeProvider(world, config.refee, config.refeeFixedEnergy);
        ghost var before := world.log;
        ok := refee.AcquireEnergy(deficit, Some(required), true);
        failure := refee.lastFailure;
        ghost var added := Since(before, world.log);
        if |added| >= 2 {
          RefeeSizeIgnoresDeficit(config.refee.value, config.refeeFixedEnergy, deficit, required, added[0].available);
        }
        if |added| >= 2 && OrdersEnough(config, ReFee, deficit, required, added[0].available) {
          RefeeOrdersEnough(config.refee.value, config.refeeFixedEnergy, deficit, required, added[0].available);
        }
    }

    /** Go down the bandwidth chain until the level is seen, a failure bars the rest, or it ends. */
    method ProvisionBandwidth(required: int)
      returns (result: Provision, ghost tried: nat, ghost last: Option<ProviderFailure>)
      requires ValidConfig(config)
      modifies world
      ensures old(world.log) <= world.log
      ensures Provisioned(
                config, Bandwidth, Since(old(world.log), world.log),
                Chain(config.bandwidthPrimary, config.fallback), required, result)
      ensures config.bandwidthPrimary.None? && !config.fallback ==>
                && world.log == old(world.log)
                && result == Stopped(Failure(Some(ProviderUnavailable), Some(false), false, false))
      ensures StopsRightly(Chain(config.bandwidthPrimary, config.fallback), tried, last, result)
    {
      hide Provisioned, Trying, AcquisitionContract, BandwidthSized, Since;
      tried, last := 0, None;
      ghost var before := world.log;
      var chain := Chain(config.bandwidthPrimary, config.fallback);
      NothingTried(config, Bandwidth, before, chain, required);
      if chain == [] {
        return Stopped(ResourceError(ProviderUnavailable, false, false)), tried, last;
      }
      for i := 0 to |chain|
        invariant tried == i && before <= world.log
        invariant Trying(config, Bandwidth, before, world.log, chain, i, required)
      {
        ghost var quiet := world.log;
        var ok, failure := BuyBandwidth(chain[i], required);
        tried, last := i + 1, failure;
        if ok.None? {
          TryingStops(config, Bandwidth, before, world.log, chain, i, required, RAW_EXCEPTION);
          return Stopped(RAW_EXCEPTION), tried, last;
        }
        BandwidthTried(config, before, quiet, world.log, chain, i, required, ok.value, failure);
        if ok.value {
          return Done, tried, last;
        }
        if !FallbackEligible(failure) {
          return Stopped(RaiseFailure(failure)), tried, last;
        }
        ghost var bought := world.log;
        var account := world.ReadAccount();
        assert account.Some? ==> world.log[|bought| + 1] == Read(Bandwidth, AvailableBandwidth(account.value));
        Reread(config, Bandwidth, before, bought, world.log, chain, i + 1, required);
        if account.None? {
          return Stopped(ResourceError(ResourceReadFailed, true, false)), tried, last;
        }
        if AvailableBandwidth(account.value) >= required {
          return Done, tried, last;
        }
      }
      result := Stopped(ResourceError(ProviderFailed, true, false));
      TryingStops(config, Bandwidth, before, world.log, chain, |chain|, required, result.failure);
    }

    /** The same for energy, with the deficit of the latest reading. */
    method ProvisionEnergy(required: int)
      returns (result: Provision, ghost tried: nat, ghost last: Option<ProviderFailure>)
      requires ValidConfig(config)
      modifies world
      ensures old(world.log) <= world.log
      ensures Provisioned(
                config, Energy, Since(old(world.log), world.log),
                Chain(config.energyPrimary, config.fallback), required, result)
      ensures config.energyPrimary.None? && !config.fallback ==>
                && world.log == old(world.log)
                && result == Stopped(Failure(Some(ProviderUnavailable), Some(false), false, false))
      ensures StopsRightly(Chain(config.energyPrimary, config.fallback), tried, last, result)
    {
      hide Provisioned, Trying, AcquisitionContract, SizedFor, EnergyNeed, Since;
      tried, last := 0, None;
      ghost var before := world.log;
      var chain := Chain(config.energyPrimary, config.fallback);
      NothingTried(config, Energy, before, chain, required);
      if chain == [] {
        return Stopped(ResourceError(ProviderUnavailable, false, false)), tried, last;
      }
      var account := world.ReadAccount();
      assert account.Some? ==> world.log[|before|] == Read(Energy, AvailableEnergy(account.value));
      Reread(config, Energy, before, before, world.log, chain, 0, required);
      ghost var seen := |before|;
      if account.None? {
        return Stopped(ResourceError(ResourceReadFailed, true, false)), tried, last;
      }
      for i := 0 to |chain|
        invariant tried == i && before <= world.log
        invariant Trying(config, Energy, before, world.log, chain, i, required)
        invariant account.Some? && |before| <= seen < |world.log|
        invariant world.log[seen] == Read(Energy, AvailableEnergy(account.value))
        invariant AvailableEnergy(account.value) >= required ==>
                    Provisioned(config, Energy, Since(before, world.log), chain, required, Done)
      {
        var deficit := Max(required - AvailableEnergy(account.value), 0);
        if deficit == 0 {
          return Done, tried, last;
        }
        ghost var quiet := world.log;
        var ok, failure := BuyEnergy(chain[i], deficit, required);
        tried, last := i + 1, failure;
        EnergyTried(config, before, quiet, world.log, chain, i, seen, deficit, required, ok, failure);
        if ok {
          return Done, tried, last;
        }
        if !FallbackEligible(failure) {
          return Stopped(RaiseFailure(failure)), tried, last;
        }
        ghost var bought := world.log;
        account := world.ReadAccount();
        assert account.Some? ==> world.log[|bought|] == Read(Energy, AvailableEnergy(account.value));
        Reread(config, Energy, before, bought, world.log, chain, i + 1, required);
        seen := |bought|;
        if account.None? {
          return Stopped(ResourceError(ResourceReadFailed, true, false)), tried, last;
        }
        if AvailableEnergy(account.value) >= required {
          return Done, tried, last;
        }
      }
      result := Stopped(ResourceError(ProviderFailed, true, false));
      TryingStops(config, Energy, before, world.log, chain, |chain|, required, result.failure);
    }

    /** Quote again until both deficits are gone or the rechecks run out: then the error is that of the last
        quote, or RESOURCE_RECHECK_FAILED if it names none.  Every error reports that an order was accepted. */
    method Recheck() returns (result: Ensured, ghost last: Quote, ghost from: nat)
      requires ValidConfig(config)
      modifies world
      ensures old(world.log) <= world.log
      ensures NothingAccepted(Since(old(world.log), world.log))
      ensures CountLooks(Since(old(world.log), world.log)) <= config.recheckAttempts
      ensures result.Ready? ==>
                && ReadyToSubmit(result.quote) && Backed(Since(old(world.log), world.log), result.quote)
                && result.quote.bandwidth.required == config.bandwidthPerTransfer
      ensures result.NotReady? && result.failure != Failure(Some(ResourceReadFailed), Some(true), true, false) ==>
                && CountLooks(Since(old(world.log), world.log)) == config.recheckAttempts
                && |old(world.log)| <= from <= |world.log|
                && Look(world.log[from..], config, last) && !ReadyToSubmit(last)
                && RecheckFailure(last.blockingCode, result.failure)
      ensures result.NotReady? ==> result.failure.orderAccepted
    {
      hide Look, Since, NothingAccepted, Backed, CountLooks, RecheckFailure;
      ghost var before := world.log;
      var refreshed: Option<Quote> := None;
      last, from := NO_QUOTE, |before|;
      SinceSelf(before);
      NoLooks();
      for attempt := 0 to config.recheckAttempts
        invariant before <= world.log && NothingAccepted(Since(before, world.log))
        invariant CountLooks(Since(before, world.log)) == attempt
        invariant attempt > 0 ==>
                    && refreshed == Some(last) && |before| <= from <= |world.log|
                    && Look(world.log[from..], config, last) && !ReadyToSubmit(last)
      {
        ghost var earlier := world.log;
        refreshed := EstimateTransfer();
        if refreshed.None? {
          return NotReady(ResourceError(ResourceReadFailed, true, true)), last, from;
        }
        last, from := refreshed.value, |earlier|;
        LooksAgain(before, earlier, world.log, config, last);
        if ReadyToSubmit(refreshed.value) {
          return Ready(refreshed.value), last, from;
        }
        if attempt + 1 < config.recheckAttempts {
          world.Sleep(config.recheckSleep);
        }
      }
      var blocking := refreshed.value.blockingCode;
      var code := if blocking.Some? then blocking.value else ResourceRecheckFailed;
      result := NotReady(ResourceError(code, code in TEMPORARY_BLOCKING_CODES, true));
      RecheckFails(blocking);
    }

    /** Quote, buy what is missing, bandwidth first, and quote again.  `quote` is the first quote; `bandwidth` and
        `energy` say how the purchases went that it made necessary. */
    method EnsureTransferResources()
      returns (
        result: Ensured, ghost quote: Option<Quote>,
        ghost bandwidth: Option<Provision>, ghost energy: Option<Provision>)
      requires ValidConfig(config)
      modifies world
      ensures old(world.log) <= world.log
      ensures TransferContract(Since(old(world.log), world.log), result)
      ensures result.Ready? ==> result.quote.bandwidth.required == config.bandwidthPerTransfer
      ensures quote.None? ==>
                && world.log == old(world.log)
                && result == NotReady(Failure(Some(ResourceReadFailed), Some(true), false, false))
      ensures quote.Some? && !quote.value.submitReady ==>
                && Look(Since(old(world.log), world.log), config, quote.value)
                && result == NotReady(ErrorFromQuote(quote.value))
      ensures quote.Some? && ReadyToSubmit(quote.value) ==>
                Look(Since(old(world.log), world.log), config, quote.value) && result == Ready(quote.value)
      ensures quote.Some? && quote.value.submitReady ==>
                BoughtRightly(Since(old(world.log), world.log), quote.value, bandwidth, energy, result)
    {
      hide Sound, Since, Backed, Bought, Observed, Look, NothingAccepted, StopsRightly, Chain, InChainOrder,
        OrdersSized, AllDelivered, CountOrders;
      bandwidth, energy := None, None;
      ghost var before := world.log;
      SinceSelf(before);
      var quoted := EstimateTransfer();
      quote := quoted;
      if quoted.None? {
        NothingBought();
        return NotReady(ResourceError(ResourceReadFailed, true, false)), quoted, None, None;
      }
      var q := quoted.value;
      ghost var seen := world.log;
      LookBuysNothing(Since(before, seen), config, q);
      BoughtCounts(Since(before, seen), q, None, None);
      if !q.submitReady {
        return NotReady(ErrorFromQuote(q)), quoted, None, None;
      }
      if q.bandwidth.deficit != 0 {
        var provisioned, _, _ := ProvisionBandwidth(q.bandwidth.required);
        bandwidth := Some(provisioned);
        SinceSplits(before, seen, world.log);
        BandwidthBought(Since(before, seen), q, Since(seen, world.log), provisioned);
        seen := world.log;
        BoughtCounts(Since(before, seen), q, bandwidth, None);
        if provisioned.Stopped? {
          return NotReady(provisioned.failure), quoted, bandwidth, None;
        }
      }
      if q.energy.deficit != 0 {
        var provisioned, _, _ := ProvisionEnergy(q.energy.required);
        energy := Some(provisioned);
        SinceSplits(before, seen, world.log);
        EnergyBought(Since(before, seen), q, bandwidth, Since(seen, world.log), provisioned);
        seen := world.log;
        BoughtCounts(Since(before, seen), q, bandwidth, energy);
        if provisioned.Stopped? {
          return NotReady(provisioned.failure), quoted, bandwidth, energy;
        }
      }
      if q.bandwidth.deficit == 0 && q.energy.deficit == 0 {
        return Ready(q), quoted, None, None;
      }
      var rechecked, _, _ := Recheck();
      result := rechecked;
      SinceSplits(before, seen, world.log);
      ThenQuiet(Since(before, seen), q, bandwidth, energy, Since(seen, world.log));
      BoughtCounts(Since(before, world.log), q, bandwidth, energy);
      if result.Ready? {
        BackedLater(Since(before, seen), Since(seen, world.log), result.quote);
      }
    }
  }

  /** What a first quote `q` led to so far: at most one order for each resource that was provisioned, for no
      less than the quote requires, and what was provisioned was seen at that level. */
  ghost predicate Bought(log: Log, q: Quote, bandwidth: Option<Provision>, energy: Option<Provision>) {
    && CountOrders(log, Bandwidth) <= (if bandwidth.Some? then 1 else 0)
    && CountOrders(log, Energy) <= (if energy.Some? then 1 else 0)
    && (forall i :: 0 <= i < |log| && log[i].Accepted? ==>
          log[i].need >= if log[i].resource.Bandwidth? then q.bandwidth.required else q.energy.required)
    && (bandwidth == Some(Done) ==> Observed(log, Bandwidth, q.bandwidth.required))
    && (energy == Some(Done) ==> Observed(log, Energy, q.energy.required))
  }

  predicate Stops(provision: Option<Provision>) {
    provision.Some? && provision.value.Stopped?
  }

  /** Exactly what is short was provisioned, bandwidth first, and a purchase that stops ends the call. */
  ghost predicate BoughtRightly(
    log: Log, q: Quote, bandwidth: Option<Provision>, energy: Option<Provision>, result: Ensured)
  {
    && Bought(log, q, bandwidth, energy)
    && (bandwidth.Some? <==> q.bandwidth.available < q.bandwidth.required)
    && (energy.Some? <==> q.energy.available < q.energy.required && !Stops(bandwidth))
    && (Stops(bandwidth) ==> result == NotReady(bandwidth.value.failure))
    && (Stops(energy) ==> result == NotReady(energy.value.failure))
  }

  lemma BoughtCounts(log: Log, q: Quote, bandwidth: Option<Provision>, energy: Option<Provision>)
    requires Bought(log, q, bandwidth, energy)
    ensures CountOrders(log, Energy) <= 1 && CountOrders(log, Bandwidth) <= 1
  {
  }

  lemma NothingBought()
    ensures CountOrders([], Energy) == 0 && CountOrders([], Bandwidth) == 0 && AllDelivered([])
  {
  }

  lemma QuietTally(quiet: Log)
    requires NothingAccepted(quiet)
    ensures CountOrders(quiet, Energy) == 0 && CountOrders(quiet, Bandwidth) == 0 && AllDelivered(quiet)
  {
    NothingAcceptedCounts(quiet, Energy);
    NothingAcceptedCounts(quiet, Bandwidth);
  }

  /** Looking buys nothing. */
  lemma LookBuysNothing(added: Log, c: Config, q: Quote)
    requires Look(added, c, q)
    ensures Bought(added, q, None, None) && AllDelivered(added)
    ensures q.bandwidth.required == c.bandwidthPerTransfer
    ensures ReadyToSubmit(q) ==> Backed(added, q)
    ensures q.bandwidth.deficit != 0 <==> q.bandwidth.available < q.bandwidth.required
    ensures q.energy.deficit != 0 <==> q.energy.available < q.energy.required
  {
    LookBacks(added, c, q);
    QuietTally(added);
  }

  lemma BandwidthBought(log: Log, q: Quote, added: Log, result: Provision)
    requires Bought(log, q, None, None) && AllDelivered(log)
    requires Sound(added, Bandwidth, q.bandwidth.required, result)
    requires result.Done? ==> Observed(added, Bandwidth, q.bandwidth.required)
    ensures Bought(log + added, q, Some(result), None)
    ensures result.Done? || !result.failure.orderAccepted ==> AllDelivered(log + added)
  {
    hide AllDelivered, AcceptedIsFinal;
    CountOrdersConcat(log, added, Energy);
    CountOrdersConcat(log, added, Bandwidth);
    if result.Done? {
      ObservedLater(log, added, Bandwidth, q.bandwidth.required);
    }
    OnlyFor(added, Bandwidth);
    if result.Done? || !result.failure.orderAccepted {
      AllDeliveredConcat(log, added);
    }
  }

  lemma EnergyBought(log: Log, q: Quote, bandwidth: Option<Provision>, added: Log, result: Provision)
    requires Bought(log, q, bandwidth, None) && AllDelivered(log)
    requires Sound(added, Energy, q.energy.required, result)
    requires result.Done? ==> Observed(added, Energy, q.energy.required)
    ensures Bought(log + added, q, bandwidth, Some(result))
    ensures result.Done? || !result.failure.orderAccepted ==> AllDelivered(log + added)
  {
    hide AllDelivered, AcceptedIsFinal;
    CountOrdersConcat(log, added, Energy);
    CountOrdersConcat(log, added, Bandwidth);
    if result.Done? {
      ObservedLater(log, added, Energy, q.energy.required);
    }
    if bandwidth == Some(Done) {
      ObservedStays(log, added, Bandwidth, q.bandwidth.required);
    }
    OnlyFor(added, Energy);
    if result.Done? || !result.failure.orderAccepted {
      AllDeliveredConcat(log, added);
    }
  }

  lemma ObservedLater(log: Log, added: Log, resource: Resource, level: int)
    requires Observed(added, resource, level)
    ensures Observed(log + added, resource, level)
  {
    var i :| 0 <= i < |added| && Shows(added[i], resource, level);
    assert (log + added)[|log| + i] == added[i];
  }

  lemma ObservedStays(log: Log, added: Log, resource: Resource, level: int)
    requires Observed(log, resource, level)
    ensures Observed(log + added, resource, level)
  {
    var i :| 0 <= i < |log| && Shows(log[i], resource, level);
    assert (log + added)[i] == log[i];
  }

  /** No order of a resource counted as none is hidden in the log. */
  lemma OnlyFor(added: Log, resource: Resource)
    requires forall other :: other != resource ==> CountOrders(added, other) == 0
    ensures forall i :: 0 <= i < |added| && added[i].Accepted? ==> added[i].resource == resource
  {
    forall i | 0 <= i < |added| && added[i].Accepted?
      ensures added[i].resource == resource
    {
      CountsEach(added, i);
    }
  }

  lemma {:induction false} CountsEach(added: Log, i: nat)
    requires i < |added| && added[i].Accepted?
    ensures CountOrders(added, added[i].resource) > 0
  {
    if i < |added| - 1 {
      CountsEach(added[..|added| - 1], i);
    }
  }

  lemma ThenQuiet(log: Log, q: Quote, bandwidth: Option<Provision>, energy: Option<Provision>, quiet: Log)
    requires Bought(log, q, bandwidth, energy) && AllDelivered(log) && NothingAccepted(quiet)
    ensures Bought(log + quiet, q, bandwidth, energy) && AllDelivered(log + quiet)
  {
    QuietTally(quiet);
    hide AllDelivered;
    CountOrdersConcat(log, quiet, Energy);
    CountOrdersConcat(log, quiet, Bandwidth);
    AllDeliveredConcat(log, quiet);
    if bandwidth == Some(Done) {
      ObservedStays(log, quiet, Bandwidth, q.bandwidth.required);
    }
    if energy == Some(Done) {
      ObservedStays(log, quiet, Energy, q.energy.required);
    }
  }

  lemma BackedLater(earlier: Log, added: Log, quote: Quote)
    requires Backed(added, quote)
    ensures Backed(earlier + added, quote)
  {
    var k :| 0 <= k < |added| && BackedAt(added, k, quote);
    assert BackedAt(earlier + added, |earlier| + k, quote);
  }

  /** One more look in a series of them. */
  lemma LooksAgain(before: Log, earlier: Log, after: Log, c: Config, quote: Quote)
    requires before <= earlier <= after && NothingAccepted(Since(before, earlier))
    requires Look(Since(earlier, after), c, quote)
    ensures Look(after[|earlier|..], c, quote)
    ensures NothingAccepted(Since(before, after))
    ensures CountLooks(Since(before, after)) == CountLooks(Since(before, earlier)) + 1
    ensures ReadyToSubmit(quote) ==> Backed(Since(before, after), quote)
    ensures quote.bandwidth.required == c.bandwidthPerTransfer
  {
    var added := Since(earlier, after);
    LookBacks(added, c, quote);
    SinceSplits(before, earlier, after);
    CountLooksConcat(Since(before, earlier), added);
    if ReadyToSubmit(quote) {
      BackedLater(Since(before, earlier), added, quote);
    }
  }

  lemma NoLooks()
    ensures NothingAccepted([]) && CountLooks([]) == 0
  {
  }

  /** Any quote: there is none yet. */
  const NO_QUOTE := Quote(Readiness(None, 0, 0, 0), Readiness(None, 0, 0, 0), false, None, false, None)

  /** How running out of rechecks is reported, given what blocks the last quote. */
  predicate RecheckFailure(blocking: Option<Code>, failure: Failure) {
    && failure.code == (if blocking.Some? then blocking else Some(ResourceRecheckFailed))
    && failure.temporary == Some(
         || failure.code == Some(ResourceEstimateUnavailable)
         || failure.code == Some(ResourceReadFailed)
         || failure.code == Some(ResourceRecheckFailed)
         || failure.code == Some(ProviderFailed))
  }

  lemma RecheckFails(blocking: Option<Code>)
    ensures
      var code := if blocking.Some? then blocking.value else ResourceRecheckFailed;
      RecheckFailure(blocking, ResourceError(code, code in TEMPORARY_BLOCKING_CODES, true))
  {
  }

  lemma SinceSelf(log: Log)
    ensures Since(log, log) == []
  {
  }

  lemma SinceSplits(a: Log, b: Log, c: Log)
    requires a <= b <= c
    ensures Since(a, c) == Since(a, b) + Since(b, c)
  {
  }

  /** Reading the account again keeps a quiet stretch quiet, hence sound. */
  lemma LookAgain(before: Log, quiet: Log, after: Log, resource: Resource, level: int)
    requires before <= quiet <= after && NothingAccepted(Since(before, quiet)) && NothingAccepted(after[|quiet|..])
    ensures NothingAccepted(Since(before, after))
    ensures Sound(Since(before, after), resource, level, Done)
    ensures Sound(Since(before, after), resource, level, Stopped(ResourceError(ResourceReadFailed, true, false)))
    ensures (exists i :: |quiet| <= i < |after| && Shows(after[i], resource, level)) ==>
              Observed(Since(before, after), resource, level)
  {
    var added := Since(before, after);
    assert added == Since(before, quiet) + after[|quiet|..];
    QuietIsSound(added, resource, level, Done);
    QuietIsSound(added, resource, level, Stopped(ResourceError(ResourceReadFailed, true, false)));
    if i :| |quiet| <= i < |after| && Shows(after[i], resource, level) {
      assert added[i - |before|] == after[i];
    }
  }
}
