/** The resource step of a payout: quote the fee-deposit transfer, activate the destination if allowed, and
    prepare the resources.  This is what an execution calls before it signs. */
module PayoutResources {
  import opened Options
  import opened Failures
  import opened Resources
  import opened Providers
  import opened Provisioning

  /** re:Fee's estimate knows nothing of activation, so the chain is asked: `active` is None when it
      cannot be read. */
  function WithActivationCheck(quote: Quote, active: Option<bool>): (checked: Quote)
    ensures ReadyToSubmit(checked) <==>
            && ReadyToSubmit(quote)
            && (quote.estimateProvider == Some(ReFee) && !quote.activationRequired ==> active == Some(true))
    ensures checked.submitReady <==>
            && quote.submitReady
            && (quote.estimateProvider == Some(ReFee) && !quote.activationRequired ==> active == Some(true))
    ensures
      checked.blockingCode
      == if quote.estimateProvider != Some(ReFee) || quote.activationRequired || active == Some(true)
         then quote.blockingCode
         else Some(if active == Some(false) then DestinationNotActivated else ResourceReadFailed)
  {
    if quote.estimateProvider != Some(ReFee) || quote.activationRequired then quote
    else match active
      case Some(true) => quote
      case Some(false) =>
        quote.(submitReady := false, blockingCode := Some(DestinationNotActivated), activationRequired := true)
      case None => quote.(submitReady := false, blockingCode := Some(ResourceReadFailed))
  }

  /** The errors of an activation; they never mark an order as accepted. */
  datatype Activation = Activated | NotActivated(code: Code, temporary: bool)

  predicate Succeeds(activation: Option<Activation>) {
    activation.Some? && activation.value.Activated?
  }

  function Outcome(result: Ensured, log: Log): ResourceOutcome {
    match result
    case Ready(quote) => Prepared(quote, log)
    case NotReady(failure) => Unprepared(failure, log)
  }

  /** A quiet quote before a transfer keeps the transfer's promise, which is the execution's. */
  lemma QuietThenTransfer(quiet: Log, added: Log, result: Ensured)
    requires NothingAccepted(quiet) && TransferContract(added, result)
    ensures ResourceContract(Outcome(result, quiet + added))
  {
    QuietTally(quiet);
    CountOrdersConcat(quiet, added, Energy);
    CountOrdersConcat(quiet, added, Bandwidth);
    if result.Ready? {
      AllDeliveredConcat(quiet, added);
      BackedLater(quiet, added, result.quote);
    } else if IsRetryable(result.failure) {
      AllDeliveredConcat(quiet, added);
    }
  }

  lemma QuietFailure(quiet: Log, failure: Failure)
    requires NothingAccepted(quiet)
    ensures ResourceContract(Unprepared(failure, quiet))
  {
    QuietTally(quiet);
  }

  /** How the step goes on from its checked quote. */
  predicate StepsRightly(
    first: Quote, activates: bool, activation: Option<Activation>, outcome: ResourceOutcome)
  {
    && (activation.Some? <==>
          !first.submitReady && first.blockingCode == Some(DestinationNotActivated) && activates)
    && (outcome.Prepared? ==> first.submitReady || Succeeds(activation))
    && (activation.Some? && !Succeeds(activation) ==>
          outcome
          == Unprepared(
               Failure(Some(activation.value.code), Some(activation.value.temporary), false, false), outcome.log))
    && (!first.submitReady && activation.None? ==> outcome == Unprepared(ErrorFromQuote(first), outcome.log))
  }

  /** Everything the resource step does for one attempt of an execution.  A retryable error leaves no order
      in doubt, and only a ready quote that rests on the step's last reading lets the transfer be signed.
      `quoted` is the quote it starts from, `active` what the chain says of the destination, and `activation` how
      activating it went: it is tried exactly on a quote that nothing else blocks, and only if it is allowed. */
  method EnsureFeeDepositResources(p: Provisioner, allowActivation: bool, autoActivate: bool)
    returns (
      outcome: ResourceOutcome,
      ghost quoted: Option<Quote>, ghost active: Option<bool>, ghost activation: Option<Activation>)
    requires ValidConfig(p.config)
    modifies p.world
    ensures old(p.world.log) <= p.world.log
    ensures outcome.log == Since(old(p.world.log), p.world.log)
    ensures ResourceContract(outcome)
    ensures outcome.Prepared? ==> outcome.quote.bandwidth.required == p.config.bandwidthPerTransfer
    ensures quoted.None? ==> outcome.Unprepared? && activation.None?
    ensures quoted.Some? ==> StepsRightly(
              WithActivationCheck(quoted.value, active), allowActivation && autoActivate, activation, outcome)
  {
    hide TransferContract, Sound, Since, ResourceContract, Look, NothingAccepted, BoughtRightly, CountLooks;
    ghost var before := p.world.log;
    SinceSelf(before);
    quoted, active, activation := None, None, None;
    QuietFailure([], RAW_EXCEPTION);
    var usable: bool := *;
    if !usable {
      return Unprepared(RAW_EXCEPTION, []), None, None, None;
    }
    var start := |p.world.log|;
    var estimated := p.EstimateTransfer();
    ghost var quiet := p.world.log;
    var seen := p.world.log[start..];
    assert seen == Since(before, quiet) by { AddedIsSince(before, quiet, seen); }
    if estimated.None? {
      NoLooks();
      QuietFailure(seen, ResourceError(ResourceReadFailed, true, false));
      return Unprepared(ResourceError(ResourceReadFailed, true, false), seen), None, None, None;
    }
    LookBacks(seen, p.config, estimated.value);
    var found: Option<bool> := *;
    var quote := WithActivationCheck(estimated.value, found);
    quoted, active := estimated, found;
    var activated := false;
    if !quote.submitReady && quote.blockingCode == Some(DestinationNotActivated) && allowActivation && autoActivate {
      var ended: Activation := *;
      activation := Some(ended);
      match ended
      case NotActivated(code, temporary) =>
        QuietFailure(seen, ResourceError(code, temporary, false));
        return Unprepared(ResourceError(code, temporary, false), seen), quoted, active, activation;
      case Activated =>
        activated := true;
    }
    if !quote.submitReady && !activated {
      QuietFailure(seen, ErrorFromQuote(quote));
      return Unprepared(ErrorFromQuote(quote), seen), quoted, active, activation;
    }
    var result, _, _, _ := p.EnsureTransferResources();
    SinceSplits(before, quiet, p.world.log);
    QuietThenTransfer(seen, Since(quiet, p.world.log), result);
    assert p.world.log[start..] == Since(before, p.world.log) by {
      AddedIsSince(before, p.world.log, p.world.log[start..]);
    }
    outcome := Outcome(result, p.world.log[start..]);
  }

  lemma AddedIsSince(before: Log, after: Log, added: Log)
    requires before <= after && added == after[|before|..]
    ensures added == Since(before, after)
  {
  }
}
