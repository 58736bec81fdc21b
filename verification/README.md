# TRON payout sidecar: protocols and proofs

The sidecar pays USDT out of one fee-deposit wallet through workers that can die, lose their lock or read
stale rows, and it rents energy and bandwidth from two paid providers on the way. This project models the
protocols that keep that safe and proves what they promise.

- **Payout execution** (`ExecutionRows`, `ExecutionProtocol`, `ExecutionSafety`, `ExecutionTheorems`,
  `ExecutionBound`, `ExecutionOutcomes`, `ExecutionCoarse`, `ExecutionWitness`, `ExecutionStore`). One stored
  execution and any number of workers running `execute`, `status` and `submit`, one statement or outside call
  at a time. The UPDATE of `_transition` and the SELECT after it are separate steps, and an UPDATE patches the
  row that is stored, not the worker's snapshot. Crashes, lease expiry, the Redis lock, the wallet and the
  resource step are left to the environment; nothing depends on the lock. `ExecutionOutcomes` says what the
  failure handler writes in any state, and what a whole call comes to that nobody disturbs.
  `ExecutionCoarse` is the same system with UPDATE and SELECT as one step. `ExecutionStore` is the code of `execute` and `status`, statement by statement, with any steps
  of other processes in between; each of its statements is proved to be the machine's next step, and its
  resource step is the real one.
- **Submission and amounts** (`Submission`, `SubmissionStore`, `Amounts`, `Texts`): decimal text, canonical
  payloads, any interleaving of submits on the table with its two unique keys, and the code of `submit` as one
  of them. SHA-256 is an injective function.
- **Confirmation** (`Confirmation`): decoding logs to transfers and the verdict on an expected transfer.
- **Resources** (`Resources`, `Providers`, `ProfeeX`, `Refee`, `Provisioning`, `PayoutResources`): quotes, the
  provider chain, orders, polling and rechecks, as classes whose HTTP and chain reads return anything at all
  and whose clock only has to move on. Every order, reading and fee told goes to a log; an order is accepted when a 202
  comes back. What `PayoutResources.EnsureFeeDepositResources` promises, `Resources.ResourceContract`, is the
  only thing the execution protocol asks of its environment.
- **Destination activation** (`Activation`, `ActivationResults`): the durable record, any sequence of
  lock-serialised calls, and what each call answers by what it is told.
- **Callback outbox** (`Outbox`, `OutboxProtocol`, `OutboxOutcomes`, `OutboxTiming`, `OutboxTables`,
  `OutboxStore`): one row under any number of concurrent task runs, with the replies they heard; the table of many rows, each of which runs like that one; and the operations
  and task runs as code on the table, statement by statement.
- **AML split** (`SplitLedger`): building the payout list in place, paying it out, and resuming after a cut.

Where a promise does not hold of the code, a lemma names an input or a run that breaks it and another says
exactly when it holds:

- FAILED_PRE_BROADCAST and RECONCILIATION_REQUIRED are final, and the reconciliation flag is exact, only if no
  other writer gets between an UPDATE and its SELECT. Otherwise a failed execution can still be broadcast
  (`ExecutionWitness.FailedExecutionCanBroadcast`), and so can one handed to reconciliation, after a single status
  poll and with the flag still up (`ExecutionWitness.ReconciledExecutionCanBroadcast`).
  `ExecutionCoarse.FailedRowMoves` and `ExecutionCoarse.ReconciledRowLeaves` say by exactly which steps the states
  are left, and `ExecutionCoarse.FlagBreaks` by exactly which step the flag stops being exact.
- A ProfeeX activation accepted without a task id leaves no record, and the next call orders again
  (`Activation.LostOrderIsPlacedAgain`). A second order can be taken exactly if the first was lost or not settled
  (`Activation.SecondOrderNeedsLostFirst`), and a second one recorded exactly if the first was not settled
  (`Activation.SecondTaskNeedsUnsettledFirst`).
- A callback dispatcher that needs its whole claim time-to-live can be overtaken, and both deliveries succeed
  (`OutboxTiming.LateDeliveriesOverlap`). The bounds on a claim-to-record stretch that exclude this are exactly
  those up to the time-to-live (`OutboxTiming.TimeToLiveIsTight`).
- A re:Fee order sized dynamically is enough for every deficit exactly when the overprovision factor is at
  least 1, and a ProfeeX order exactly when the energy has not fallen since, or the fixed size covers the gap.
- A payout amount survives the way to the chain and back for every amount exactly when the token has at least
  six decimals.

`dafny verify dfyconfig.toml` checks the whole project.

## Model

| member | source | states |
|---|---|---|
| ExecutionTheorems.AtMostOneBroadcast | app/payout_execution.py:660-760 | Over every interleaving of workers, crashes, lease expiries and stale SELECTs at most one broadcast is issued for an execution. |
| ExecutionTheorems.BroadcastMatchesEvidence | app/payout_execution.py:375-385 | What was broadcast is what the row recorded; a row in RECEIVED, VALIDATED or FAILED_PRE_BROADCAST has no evidence and nothing was sent for it. |
| ExecutionTheorems.EvidencePrecedesBroadcast | app/payout_execution.py:734-757 | The step that broadcasts finds hash, transaction id and attempt time already stored and nothing sent before, and holds a quote whose last reading covers the configured bandwidth of the quote and the energy the last fee or cost reply asked for, after every order of its resource step was delivered. |
| ExecutionTheorems.EvidenceIsWriteOnce | app/payout_execution.py:458-479 | Once stored, signing and broadcast evidence never changes, whatever runs afterwards. |
| ExecutionTheorems.OnChainIsForwardOnly | app/payout_execution.py:47-54 | From BROADCASTED on, only CONFIRMING, CONFIRMED and FAILED_CHAIN_TERMINAL follow, and the last two are final. |
| ExecutionTheorems.RequeueLeavesNoDoubt | app/payout_execution.py:594-629 | If the failure handler sends an execution back to RECEIVED, every order the attempt's resource step got accepted was seen delivered, whether that step failed or a later one did. |
| ExecutionOutcomes.HandlerDecides | app/payout_execution.py:581-629 | In every reachable state a write of the failure handler that takes effect requeues, clearing lease, attempt and reservation, exactly a row without evidence on an error with no accepted order that is a lock not to be had or one of the ten temporary resource errors; it reconciles exactly a row with evidence; else it fails before broadcast. |
| ExecutionOutcomes.UndisturbedExecute | app/payout_execution.py:659-760 | An execute nobody disturbs and nothing fails broadcasts once the transfer it built, on the quote it got, and leaves the row BROADCASTED with lease, attempt, evidence and txids of that very run, column by column. |
| ExecutionOutcomes.FailedExecute | app/payout_execution.py:711-760 | Undisturbed, without the lock, the balance, the resources or the signed transfer, nothing is broadcast and the leased row is requeued or failed as the error says. |
| ExecutionOutcomes.UnclearExecute | app/payout_execution.py:499-522 | Undisturbed, a broadcast that errs, reports no id or another id has been made once, and the row waits for reconciliation with its evidence. |
| ExecutionOutcomes.ExecuteElsewhere | app/payout_execution.py:676-709 | An execute of a final execution, or of one whose lease is live, changes nothing. |
| ExecutionOutcomes.ExecuteRecovers | app/payout_execution.py:394-443 | An execute that finds the lease over recovers the row, to RECEIVED exactly from SIGNING without evidence, and only then goes on. |
| ExecutionOutcomes.UndisturbedStatus | app/payout_execution.py:980-1008 | A status call recovers a row whose lease is over, stores what the chain check says of a transfer on its way unless that is no news, and changes nothing else. |
| ExecutionSafety.RunKeepsInv | app/payout_execution.py:309-369 | The inductive invariant behind these: versions make stale writes fail, one signer owns the evidence, the row says how far it got. |
| ExecutionCoarse.CoarseRunIsRun | app/payout_execution.py:353-369 | Every run with UPDATE and SELECT in one step is a run of the fine-grained system. |
| ExecutionCoarse.FailureStatesAbsorb | app/payout_execution.py:582-629 | With UPDATE and SELECT in one step FAILED_PRE_BROADCAST and RECONCILIATION_REQUIRED are final. |
| ExecutionCoarse.ReconciliationFlagIsExact | app/payout_execution.py:406-434 | Likewise the reconciliation flag is set in RECONCILIATION_REQUIRED and nowhere else. |
| ExecutionCoarse.FewTransitionsAfterSigning | app/payout_execution.py:499-579 | Likewise at most five transitions follow the one into SIGNED. |
| ExecutionCoarse.FailedRowMoves | app/payout_execution.py:369 | With the SELECT on its own, a FAILED_PRE_BROADCAST row moves exactly by the signing write of a worker whose snapshot is that very row. |
| ExecutionCoarse.ReconciledRowMoves | app/payout_execution.py:369 | Likewise a RECONCILIATION_REQUIRED row is written to exactly by its signer's next write on a snapshot that is that very row. |
| ExecutionCoarse.ReconciledRowLeaves | app/payout_execution.py:472-534 | It leaves that state exactly by a write that marks a broadcast attempt or records a broadcast, on that very row. |
| ExecutionCoarse.FlagBreaks | app/payout_execution.py:472-479 | With the SELECT on its own, an exact flag stops being exact exactly by the write that marks a broadcast attempt on a RECONCILIATION_REQUIRED row the writer has read back. |
| ExecutionBound.EightTransitionsAfterSigning | app/payout_execution.py:309-369 | With the SELECT on its own, at most eight transitions follow the one that stored the evidence, and at any later time never more than the budget of the row. |
| ExecutionSafety.UpdatesFit | app/payout_execution.py:353-369 | Every UPDATE that takes effect meets the very row its worker read, in a state that write is meant for, although no write checks its source state. |
| ExecutionWitness.FailedExecutionCanBroadcast | app/payout_execution.py:582-760 | A concrete run in which an execution stored as FAILED_PRE_BROADCAST is broadcast afterwards. |
| ExecutionWitness.ReconciledExecutionCanBroadcast | app/payout_execution.py:394-479 | A concrete run in which an execution stored as RECONCILIATION_REQUIRED with nothing sent is broadcast afterwards and stands in BROADCASTING with the flag still up. |
| ExecutionStore.PayoutExecutionStore.Update | app/payout_execution.py:350-368 | The UPDATE takes effect exactly if the row stored at that moment has the snapshot's version, in which case it is the snapshot and is patched; otherwise nothing changes; and the process goes where the machine says. |
| ExecutionStore.PayoutExecutionStore.Transition | app/payout_execution.py:309-369 | UPDATE and SELECT with others in between: a conflict is reported as such; else the patched snapshot was stored at a step of this call, and the row returned is the one stored by then, with the process where that row leads. |
| ExecutionStore.PayoutExecutionStore.RecoverStaleExecution | app/payout_execution.py:394-443 | Exactly a mid-signing row whose lease is over is written: back to RECEIVED from SIGNING without evidence, keeping its reservation, else to reconciliation; nothing is written on a conflict. |
| ExecutionStore.PayoutExecutionStore.MarkFailedOrReconciliation | app/payout_execution.py:581-629 | Final states and version conflicts are left alone; any other row read is written, unless it changed since, to RECEIVED, RECONCILIATION_REQUIRED or FAILED_PRE_BROADCAST by the code, the permanence and the accepted-order mark of the error and the evidence on the row, column by column. |
| ExecutionStore.PayoutExecutionStore.RefreshChainStatus | app/payout_execution.py:536-579 | What the chain check came back with is stored, with txids and flag as it calls for, exactly over a transfer on its way for which it is news. |
| ExecutionStore.PayoutExecutionStore.PrepareForLock | app/payout_execution.py:676-709 | From the first read the call goes through recovery, validation and lease, and ends there or asks for the lock with the attempt of the row it holds. |
| ExecutionStore.PayoutExecutionStore.ReserveUnderLock | app/payout_execution.py:711-733 | Lock failure, another attempt, balance, reservation and old evidence are handled in the machine's order. |
| ExecutionStore.PayoutExecutionStore.PrepareResources | app/payout_execution.py:734-739 | The resource step of the protocol is the modelled one; its log is what this call added, it may activate the destination, and it keeps the promise the protocol asks for. |
| ExecutionStore.PayoutExecutionStore.SignAndMark | app/payout_execution.py:740-754 | The process gets to the broadcast only by storing the evidence and then marking the attempt, both by successful writes. |
| ExecutionStore.PayoutExecutionStore.RecordSent | app/payout_execution.py:756-758 | A reported transaction id is checked before the result is recorded; every failure goes to the handler. |
| ExecutionStore.PayoutExecutionStore.Execute | app/payout_execution.py:659-760 | Amid any other processes, with fresh answers at every statement, each statement of a call is the machine's next step; the call hands over at most one transfer, on a ready quote that rests on the last reading this very call made, at the energy last asked for and the configured bandwidth, every order it got accepted having been seen delivered. |
| ExecutionStore.PayoutExecutionStore.Status | app/payout_execution.py:980-1008 | The same for a status call. |
| ExecutionStore.PayoutExecutionStore.CodeBroadcastsOnce | app/payout_execution.py:659-760 | Wherever the code stands, all calls together have broadcast at most once, and what the row records. |
| Submission.CanonicalIsIdempotent | app/payout_execution.py:106-116 | The canonical form of a payload is its own canonical form. |
| Submission.ValidatedIsCanonical | app/payout_execution.py:175-246 | A payload that passes validation is canonical, on the TRON USDT rail, authenticated, and named by the digest sent with it. |
| Submission.ValidationIsExact | app/payout_execution.py:165-246 | Exactly the requests pass that name their consumer and execution, ask for USDT on TRON from the fee deposit through the configured queue, pay an acceptable amount to an address, and carry the digest of their canonical form. |
| Submission.FirstFailureIsReported | app/payout_execution.py:189-246 | A request that fails checks is refused for the first one it fails. |
| Submission.SubmitIsIdempotent | app/payout_execution.py:872-978 | Over every interleaving of submits, key races included, there is one row per execution id and per consumer and external id, and each ACCEPTED reply names a row with the request's canonical payload. |
| Submission.AcceptedSubmitsAgree | app/payout_execution.py:763-785 | Two accepted submits of one execution id, however far apart, asked for the same payout. |
| Submission.RefusalHasReason | app/payout_execution.py:763-785 | Over every interleaving a submit is refused only if a row has one of its keys and another request or payload hash. |
| Submission.UndisturbedSubmit | app/payout_execution.py:872-978 | A submit none of whose keys is taken, undisturbed, inserts the row of its request and is accepted. |
| SubmissionStore.SubmitCall.FindOther | app/payout_execution.py:763-785 | The second look-up, and the one after a key conflict, answer as the machine does for whichever matching row comes back. |
| SubmissionStore.SubmitCall.Perform | app/payout_execution.py:872-978 | Every statement of a submit is the registry machine's next step; it accepts exactly when the machine does, and names its row. |
| SubmissionStore.SubmitCall.AcceptedIsStored | app/payout_execution.py:872-978 | An accepted call names the row of its own execution id, which stores its canonical payload. |
| SubmissionStore.SubmitCall.RefusedHasReason | app/payout_execution.py:763-785 | A refused call met a row with one of its keys that stands for another request. |
| Amounts.ParseRender | app/payout_execution.py:84-116 | Reading a canonical six-decimal text gives back the number it was rendered from. |
| Amounts.CanonicalAmountOfRender | app/payout_execution.py:84-103 | Canonicalising a canonical amount changes nothing. |
| Amounts.CanonicalOfPlain | app/payout_execution.py:84-103 | Every text of digits with an optional point comes to its digits filled up to six decimals; zero is refused as an amount, a seventh decimal for its precision. |
| Amounts.NegativeIsRefused | app/payout_execution.py:84-103 | With a minus sign every such text is refused. |
| Amounts.RenderIsInjective | app/payout_execution.py:106-116 | Two accepted amounts have one canonical text only if they are equal. |
| Amounts.AmountRoundTrips | app/wallet.py:89-93 | Sending an amount in base units and dividing it back gives the amount exactly when the token has six decimals or the missing digits are zero. |
| Confirmation.ParseTx | app/block_scanner.py:383-465 | A token transaction parses exactly when every log entry can be read, to the Transfer events of known tokens in order; a coin transfer parses, to its own source, destination and amount, exactly when these are there. |
| Confirmation.DecodeLogMembers | app/block_scanner.py:422-457 | A transfer is in the result exactly when some log entry decodes to it. |
| Confirmation.EntryIsRead | app/block_scanner.py:419-457 | A Transfer event is read from its first indexed address to its second, with its data at the emitting token's decimals, and is the expected one exactly if all of these are as expected. |
| Confirmation.RefreshConfirmation | app/payout_status.py:95-248 | CONFIRMED exactly when a succeeded token transaction reads through, some entry pays the expected USDT from the expected source to the expected destination, and latest - block + 1 reaches the minimum; terminal failure exactly when the chain reports another result, or the transaction is that deep without such an entry; an empty result list raises. |
| Confirmation.OwnTransferIsRecognised | app/payout_status.py:163-248 | The event of a payout's own transfer is the expected one for every amount exactly when the token has at least six decimals. |
| Providers.BandwidthReadingsAgree | app/utils.py:161-177 | The two bandwidth checks agree on an account exactly when the requirement is positive or a pool covers it. |
| Providers.BandwidthReadingsAgreeEverywhere | app/usdt_resource_provisioning.py:72-82 | They agree on every account exactly for positive requirements. |
| Providers.TrailCounts | app/resource_providers/profeex.py:219-276 | One acquisition's traffic holds one accepted order of its resource, or none, and none of the other. |
| Providers.TrailDelivers | app/resource_providers/profeex.py:251-280 | An acquisition that ends with a good reading, or orders nothing, leaves no accepted order undelivered. |
| ProfeeX.Classify | app/resource_providers/profeex.py:86-134 | A fallback is ruled out once an order is accepted, for a failed read and for six listed codes, and allowed for every other; an accepted order's failure is permanent exactly for the five codes that blame the request or the configuration, and before acceptance exactly if no fallback is allowed and it is not a failed read. |
| ProfeeX.RefusalsAreNamed | app/resource_providers/profeex.py:902-936 | A refused request is named by its exception, its code or its status; without a code re:Fee may be asked exactly unless the status is 400, 401, 403 or 422. |
| ProfeeX.OrderWaitEnds | app/resource_providers/profeex.py:742-850 | The wait for a rented resource succeeds exactly on ACTIVE, times out exactly on QUEUED, PENDING and PROCESSING, and otherwise fails as an accepted order under the code the order or its status gives. |
| ProfeeX.PollFits | app/resource_providers/profeex.py:752-790 | The poll bound counts exactly the requests whose preceding intervals end before the deadline, that is ceil(timeout / interval). |
| ProfeeX.FailedWaitKeepsTheTask | app/resource_providers/profeex.py:764-779 | A wait that fails, in whatever way, reports its task as accepted and bars a fallback. |
| ProfeeX.EnergyOrderSuffices | app/resource_providers/profeex.py:207-226 | Later availability plus the order reaches the threshold exactly when availability has not fallen since the deficit was computed or the fixed size covers the gap. |
| ProfeeX.EstimateFee | app/resource_providers/profeex.py:393-452 | A fee is taken, as told, exactly from a complete 200 reply with a non-negative amount; failing to get one never marks an order and is classified by what went wrong. |
| ProfeeX.ReadOrder | app/resource_providers/profeex.py:551-601 | A reply gives an order to follow, under its own task id, exactly as a 202 with a non-empty one; otherwise it was accepted exactly if it was a 202, and then bars a fallback. |
| ProfeeX.ProfeeXProvider.CreateOrder | app/resource_providers/profeex.py:529-601 | One order is sent, logged as accepted exactly on a 202, and read as above. |
| ProfeeX.ProfeeXProvider.WaitForStatus | app/resource_providers/profeex.py:742-850 | For every reply sequence: at most ceil(timeout / interval) requests, it stops at the first status that decides, and times out only after the deadline. |
| ProfeeX.ProfeeXProvider.WaitForEnergy | app/resource_providers/profeex.py:668-691 | Success was read on chain; failure means every reading within the configured attempts was low, or one of them failed, which is then the failure left behind. |
| ProfeeX.ProfeeXProvider.WaitForBandwidth | app/resource_providers/profeex.py:693-723 | The same for bandwidth. |
| ProfeeX.ProfeeXProvider.AwaitDelivery | app/resource_providers/profeex.py:247-276 | A taken order ends as its status replies say; once active it succeeds exactly if a later reading reaches the level, and otherwise leaves an accepted failure that bars a fallback, for a failed reading if there was one. |
| ProfeeX.ProfeeXProvider.OrderAndAwait | app/resource_providers/profeex.py:232-280 | After a low reading exactly one order is posted, of the given amount, and the outcome is the one its replies call for. |
| ProfeeX.ProfeeXProvider.AcquireEnergy | app/resource_providers/profeex.py:191-280 | Success exactly when the last thing seen is a reading at the threshold, at least a strict minimum; an order, of the configured size, exactly after a low reading; a 202 without success leaves an accepted failure without fallback. |
| ProfeeX.ProfeeXProvider.AcquireBandwidth | app/resource_providers/profeex.py:454-527 | The same for bandwidth, ordering exactly when the reading is low and the fixed order covers the requirement; a failed reading before the order escapes and orders nothing. |
| Refee.RejectionFailure | app/resource_providers/refee.py:429-503 | Without a 202 no order counts as accepted; a fallback is allowed exactly for no reply, 408, 429 and 5xx, and exactly 400, 401, 403 and 422 are permanent. |
| Refee.FixedEnergyOrderSuffices | app/resource_providers/refee.py:86-124 | In fixed mode the reading plus the order always reaches the post-check threshold. |
| Refee.DynamicEnergyOrderSuffices | app/resource_providers/refee.py:125-132 | In dynamic mode it does for every requirement and reading exactly when the overprovision factor is at least 1. |
| Refee.DynamicEnergyOrderIsRoundedUp | app/resource_providers/refee.py:125-132 | In dynamic mode the order is the missing energy times the factor, rounded up, or the smallest order if that is more. |
| Refee.PollFits | app/resource_providers/refee.py:508-536 | The poll bound counts exactly the requests whose preceding intervals start by the deadline, that is floor(timeout / interval) + 1. |
| Refee.ReadOrder | app/resource_providers/refee.py:438-468 | A reply gives an order to follow, under its own id, exactly as a 202 with one; otherwise it was accepted exactly if it was a 202, and then bars a fallback. |
| Refee.RefeeProvider.CreateOrder | app/resource_providers/refee.py:407-468 | One order is sent, logged as accepted exactly on a 202, and read as above. |
| Refee.RefeeProvider.WaitUntilDelegated | app/resource_providers/refee.py:505-578 | For every reply sequence: at most floor(timeout / interval) + 1 requests; delegated only on that very status, failed only on one of the four bad ones; each failure code has its cause and keeps the order id. |
| Refee.RefeeProvider.OrderAndAwait | app/resource_providers/refee.py:138-189 | After a low reading exactly one order is posted; success needs a delegated order and a fresh reading at the level, and a failure of a taken order keeps its id. |
| Refee.RefeeProvider.AcquireEnergy | app/resource_providers/refee.py:61-189 | Success exactly when the last thing seen is a reading at the threshold; an order, sized by that reading, exactly after a low one; a 202 without success leaves an accepted failure without fallback. |
| Refee.RefeeProvider.AcquireBandwidth | app/resource_providers/refee.py:312-405 | The same for bandwidth, with an order never below the requirement. |
| Provisioning.Chain | app/usdt_resource_provisioning.py:89-110 | The primary comes first and re:Fee is the only fallback; nobody is named twice, and nobody at all exactly without a primary and a fallback. |
| Provisioning.QuoteFrom | app/usdt_resource_provisioning.py:283-363 | The quote requires the energy of the estimate and the configured bandwidth against what the account reading has; a deficit is zero exactly when the reading covers it; it is ready exactly when there is an estimate, no activation is needed and each missing resource has a provider. |
| Provisioning.QuoteNames | app/usdt_resource_provisioning.py:295-343 | A deficit is what is missing and is named after the provider asked first; the quote is blocked for the missing estimate, else for the missing activation, else for a missing provider. |
| Provisioning.SoundAfterQuiet | app/usdt_resource_provisioning.py:128-149 | One acquisition after only rejected ones: success was seen, failure says whether an order is in doubt, and only an order-free failure goes on to the fallback. |
| Provisioning.Provisioner.EstimateFee | app/usdt_resource_provisioning.py:157-187 | re:Fee is asked exactly as primary or as allowed fallback; the estimate is the energy told last, by ProfeeX if its reply is complete and else by re:Fee; a ProfeeX failure is passed on exactly if it bars a fallback. |
| Provisioning.Provisioner.EstimateTransfer | app/usdt_resource_provisioning.py:190-213 | One account reading and what the providers then tell give a quote that requires exactly the energy told last and the configured bandwidth. |
| Provisioning.Provisioner.BuyEnergy | app/usdt_resource_provisioning.py:426-432 | A strict purchase succeeds only on a reading of at least the requirement, its order has the size the provider is due, and the reading plus the order reaches the level under each provider's condition. |
| Provisioning.Provisioner.ProvisionBandwidth | app/usdt_resource_provisioning.py:366-402 | Orders go to the providers of the chain in its order, in the size each is due; at most one is accepted, for no less than required, and none follows it; done only on a sufficient reading; an error without the accepted mark leaves none undelivered; it stops early only on a failed read or a failure that bars the fallback. |
| Provisioning.Provisioner.ProvisionEnergy | app/usdt_resource_provisioning.py:405-450 | The same for energy, where ProfeeX is asked for what an earlier low reading lacks, or its fixed order, and re:Fee for what its own reading lacks. |
| Provisioning.Provisioner.Recheck | app/usdt_resource_provisioning.py:245-280 | Ready only on a fresh reading at the energy last told and the configured bandwidth; every error is marked as accepted, and unless a read failed it comes after all attempts and names what blocks the last quote, or the failed recheck. |
| Provisioning.Provisioner.EnsureTransferResources | app/usdt_resource_provisioning.py:216-280 | For every reply: exactly what the first quote lacks is bought, bandwidth first, for no less than it requires, and a purchase that stops ends the call; at most one accepted order per resource; a normal return rests on the last reading, at the energy last told and the configured bandwidth; an unmarked error leaves no order undelivered; a quote that is not ready orders nothing. |
| PayoutResources.WithActivationCheck | app/payout_resources.py:164-184 | A re:Fee quote stays ready exactly when the destination is read as active, and is blocked as inactive or unreadable otherwise. |
| PayoutResources.EnsureFeeDepositResources | app/payout_resources.py:227-269 | The resource step keeps the promise executions rely on: one accepted order per resource at most, quotes backed by its last reading only, and a retryable error only when every accepted order was seen delivered; activation is tried exactly on a quote blocked by an inactive destination, and without it only a ready quote goes on. |
| Activation.Desk.EnsureActivated | app/payout_destination_activation.py:191-421 | The call leaves record, traffic and result as the model function of the record it found and the replies it got, which the rows on ActivationResults say outright. |
| Activation.WaitIsWatch | app/resource_providers/profeex.py:383-391 | What the polling loop returns for an activation is what the model's reading of the same replies returns. |
| Activation.CallFacts | app/payout_destination_activation.py:236-402 | On a usable record a call orders nothing and leaves it usable; otherwise it gets an order taken, and records it, exactly as its replies and writes allow, at most once, and orders nothing after recording. |
| Activation.PlacedOnce | app/payout_destination_activation.py:191-402 | Over any sequence of calls, with failing writes and deaths, at most one activation is ever recorded, and after it nothing is ordered. |
| Activation.TakenIsFiled | app/payout_destination_activation.py:324-344 | If every call that gets an order taken keeps and settles it, at most one is ever taken. |
| Activation.OrdersOnlyOnUnusableRecord | app/payout_destination_activation.py:260-272 | Some replies let a call get an order taken exactly when the record is unusable. |
| Activation.LostOrderIsPlacedAgain | app/resource_providers/profeex.py:320-342 | Two calls answered 202 without a task id get two orders taken. |
| Activation.SecondOrderNeedsLostFirst | app/payout_destination_activation.py:272-369 | After a call that got an order taken, from ProfeeX or re:Fee, a later one can get a second taken exactly if the first lost its order or left an unknown status it did not overwrite. |
| Activation.SecondTaskNeedsUnsettledFirst | app/payout_destination_activation.py:343-369 | After a recorded activation a later call can record a second one exactly if the first left an unknown status it did not overwrite. |
| ActivationResults.EndsBeforeRecord | app/payout_destination_activation.py:203-236 | A call that sees an active destination says so; a look, lock or record that is not to be had is an error to be tried again; nothing is asked or changed. |
| ActivationResults.RecordDecides | app/payout_destination_activation.py:240-259 | A failed record is replayed as a permanent error; a succeeded one is a success exactly if the destination is active by now. |
| ActivationResults.FollowedTask | app/payout_destination_activation.py:346-402 | A followed task, on record or just recorded, that becomes ACTIVE or COMPLETED ends in success exactly if that was noted and a last look finds the destination active, and in the error of the write or the look otherwise; a failed wait ends in its own error, temporary unless the code blames the request or the status is unknown, and leaves the matching record. |
| ActivationResults.OrderRefused | app/payout_destination_activation.py:272-342 | An order ProfeeX refuses ends by a look if it repeats an earlier one, at re:Fee if the refusal allows it, and else in the error of the refusal. |
| ActivationResults.RefusalIsRead | app/resource_providers/profeex.py:310-381 | The code and permanence of each refusal, and whether re:Fee may be asked, by configuration, exception, status and code of the reply. |
| ActivationResults.RefeeIsRead | app/resource_providers/refee.py:197-271 | The result of asking re:Fee by its reply: 400 means active already, a 200 with a hash that was recorded activated, and every other reply an error that is temporary or not by its status. |
| ActivationResults.OrderNotRecorded | app/payout_destination_activation.py:343-344 | A taken order that does not reach the record is an error to be tried again. |
| ActivationResults.ActivatedIsSeen | app/payout_destination_activation.py:243-402 | Activation is reported only on a last look that found the destination active, or on a recorded hash of re:Fee. |
| ActivationResults.AlreadyActiveIsSeen | app/payout_destination_activation.py:203-334 | A destination is reported as active already only if a look found it so or re:Fee said so. |
| OutboxTables.RowIsARun | app/payout_callback_outbox.py:41-226 | Whatever statements and sweeps run on the table, each row has gone through a run of the one-row machine since its insert. |
| OutboxTables.EveryRowIsCounted | app/payout_callback_outbox.py:176-226 | Attempt bounds, claim conservation and the bound of POSTs by claims hold of every row of the table. |
| OutboxTables.NoRowIsStuck | app/payout_callback_outbox.py:78-101 | Every unfinished row of the table can be claimed exactly from its next attempt, or from the end of its claim, on. |
| OutboxTables.FinalRowsOfTableStay | app/payout_callback_outbox.py:239-243 | Rows are never removed and SENT and FAILED ones never change, whatever runs on the table. |
| OutboxStore.SweepIsTheMachines | app/payout_callback_outbox.py:122-160 | The sweep's one UPDATE is, on every row at once, the machine's claim for the rows chosen and nothing for the others. |
| OutboxStore.PayoutCallbackOutbox.CreatePayoutCallback | app/payout_callback_outbox.py:41-57 | A new pending row, due at once and without attempts, under an id no row had. |
| OutboxStore.PayoutCallbackOutbox.FirstDue | app/payout_callback_outbox.py:130-149 | The row picked comes first by due time and id. |
| OutboxStore.PayoutCallbackOutbox.PickDue | app/payout_callback_outbox.py:130-149 | Every claimable row is picked if all fit the limit, otherwise the earliest ones. |
| OutboxStore.PayoutCallbackOutbox.ClaimDue | app/payout_callback_outbox.py:118-160 | In one statement the picked rows of the table as it stands are claimed and every other row is left as it is; on each row this is the machine's step. |
| OutboxStore.PayoutCallbackOutbox.ClaimRow | app/payout_callback_outbox.py:74-115 | The row is claimed for this task run, from now on, exactly if attempts are left and it is due or its claim has expired. |
| OutboxStore.PayoutCallbackOutbox.Post | app/payout_callback_outbox.py:256-283 | A POST is made only under a claim held when the row was read; exactly a reply from 200 to 299 makes it SENT, and any other, or none, FAILED at the last attempt and PENDING before. |
| OutboxStore.PayoutCallbackOutbox.UpdateAfterAttempt | app/payout_callback_outbox.py:176-226 | A result is recorded, with one attempt more, exactly on a row still held by this task run; one to be retried is due exactly the retry delay later. |
| OutboxStore.PayoutCallbackOutbox.DispatchRow | app/payout_callback_outbox.py:229-291 | Amid other task runs every statement of a dispatch is the machine's next step on its row, to the end, and touches no other. |
| OutboxStore.PayoutCallbackOutbox.Sweep | app/tasks.py:801-814 | A sweep takes the machine's steps on all rows: claim, read back, and dispatch each row still held, to the end. |
| OutboxProtocol.AttemptsAreCounted | app/payout_callback_outbox.py:176-226 | Attempts never exceed the maximum, PENDING and DISPATCHING rows are below it, FAILED rows at it, and claims equal attempts plus reclaims plus one if DISPATCHING. |
| OutboxProtocol.PostsAreClaimed | app/payout_callback_outbox.py:229-291 | Recorded attempts are at most POSTs and POSTs at most claims, so POSTs exceed the recorded attempts at most by the expired claims and the one being worked on. |
| OutboxProtocol.EachClaimSettlesOnce | app/payout_callback_outbox.py:195-226 | Each claim records at most one result, although its status comes from an earlier snapshot. |
| OutboxProtocol.FinalRowsStay | app/payout_callback_outbox.py:239-243 | SENT and FAILED rows never change. |
| OutboxProtocol.NoStuckRow | app/payout_callback_outbox.py:78-101 | Every unfinished reachable row can be claimed exactly from its next attempt, or from the end of its claim, on. |
| OutboxProtocol.RetryMeansPending | app/payout_callback_outbox.py:294-298 | A reachable row asks for a retry exactly when it is PENDING. |
| OutboxOutcomes.SentMeansDelivered | app/payout_callback_outbox.py:270-291 | A reachable row is SENT exactly if a recorded POST was answered from 200 to 299, a FAILED one has as many recorded POSTs as attempts allowed and none such, and the successes counted are those replies. |
| OutboxOutcomes.UndisturbedDispatch | app/payout_callback_outbox.py:229-291 | A due row dispatched by one task run alone counts one attempt and one POST, and ends SENT, FAILED, or PENDING and due after the retry delay, column by column. |
| OutboxOutcomes.UndueIsLeftAlone | app/payout_callback_outbox.py:239-255 | A row that is not due, is in other hands or is finished gets no POST and stays as it is. |
| OutboxOutcomes.RetryIsDue | app/payout_callback_outbox.py:195-204 | A row recorded to be tried again can be claimed exactly from the retry delay on. |
| OutboxTiming.TimelyDeliveriesExclude | app/payout_callback_outbox.py:229-291 | If every result is recorded within the time-to-live of its claim, no two deliveries overlap and at most one 2xx is received. |
| OutboxTiming.TimeoutBoundExcludes | app/config.py:266-270 | So the accepted settings suffice when the HTTP timeout bounds the whole stretch from claim to record. |
| OutboxTiming.LateDeliveriesOverlap | app/payout_callback_outbox.py:89-96 | A run, timely for one second more than the time-to-live, in which a dispatcher is overtaken and two deliveries of one row succeed. |
| OutboxTiming.TimeToLiveIsTight | app/payout_callback_outbox.py:89-96 | A bound on the claim-to-record stretch rules out a second 2xx in every run exactly if it is at most the time-to-live. |
| SplitLedger.BuildPayoutList | app/custom/aml/functions.py:137-280 | There is a list exactly if an AML transaction is ready and the first level that covers its score, or a regular configuration that applies, has an address not yet paid; it has an entry for each such address of that very level, in order, of the amount times its ratio. |
| SplitLedger.ListIsDue | app/custom/aml/functions.py:137-280 | The same of the function the wallet runs are stated with. |
| SplitLedger.SplitOpen | app/custom/aml/functions.py:239-277 | Overwriting ratios in place and giving the last item the rest yields the split, less the paid addresses. |
| SplitLedger.SplitIsProportional | app/custom/aml/functions.py:194-204 | Every entry, the remainder included, is exactly amount times ratio. |
| SplitLedger.OpenIsSuffix | app/custom/aml/functions.py:206-219 | When the ledger holds the first entries of the split, the list is exactly the others. |
| SplitLedger.ResumedSplitIsOneShot | app/custom/aml/classes.py:105-152 | However runs are cut, an address has at most one entry, of exactly amount times ratio; the list is empty exactly when all are paid, and then the entries sum to the amount. |
| SplitLedger.WalletRunContinues | app/custom/aml/classes.py:18-152 | What any run of the wallet adds to the ledger of a due transaction makes it such a run, whatever the configuration and the transfers' outcomes. |
| SplitLedger.WalletRunsPayTheSplit | app/custom/aml/classes.py:18-152 | After any series of wallet runs on a due transaction the ledger is that of the one-shot split so far, and a list is built again exactly until every address is paid. |
| SplitLedger.TruncationLossIsBounded | app/wallet.py:89-93 | Truncating the shares to base units sends at most the whole and loses fewer units than there are addresses. |
| SplitLedger.CostsCancel | app/custom/aml/classes.py:47-57 | The TRX balance check compares the undiminished shares with the balance. |
| SplitLedger.AmlWallet.TakeCosts | app/custom/aml/classes.py:47-62 | Every entry is reduced by the cost in place, and the check passes exactly when the balance covers the shares. |
| SplitLedger.AmlWallet.PayEntries | app/custom/aml/classes.py:105-152 | Exactly the entries before the first rejected transfer are recorded, in order, and results are returned exactly when none is rejected. |
| SplitLedger.AmlWallet.PayoutForTx | app/custom/aml/classes.py:18-152 | The run records exactly the first open shares of the level or configuration that applies, up to the first rejection, each with its share, what was sent of it and how it went; and nothing when none is due or the balances do not cover it. |
| SplitLedger.PaidIsDue | app/custom/aml/classes.py:18-152 | The same of the function that says what a run adds to the ledger. |

## Left out

- HTTP, Redis, SQLite and tronpy: arbitrary replies, an atomic conditional UPDATE, and a lock that is not relied on.
- `ExecutionStore` keeps the one row the call is about; statements name it by its execution id and touch no other row.
- The queueing of an execution by `submit` is the recovery step of the execution machine; the switch that disables queueing, and the queue itself, are not modelled.
- ExecutionCoarse.FailureStatesAbsorb, `ReconciliationFlagIsExact` and `FewTransitionsAfterSigning` take UPDATE and SELECT as one step; the code does them as two.
- The signing and spending guard, the balance check and the broadcast itself are single steps that may fail with any error.
- Decimal literals with underscores, surrounding whitespace or non-ASCII digits, NaN and infinity spellings beyond "not a number", and amounts so large that quantizing overflows the decimal context.
- Requests with missing or mistyped fields, upper-casing of non-ASCII text, and the case and prefix normalisation of transaction ids.
- A provider status that is not hashable (a list or object) makes the source raise TypeError; here it is an unexpected status.
- Exceptions other than request errors while talking to a provider; only the ones the source lets through on the bandwidth check and before the first quote are modelled.
- Error texts, metadata JSON, metrics, logging and Flask routes.
- The staking provider and provisioning for sweeps: floating-point amounts and chain calls.
- Provisioning.Provisioner.EnsureTransferResources: says when an error is safe to retry, not that provisioning succeeds, because the providers may refuse for ever.
- Activation of a destination inside `PayoutResources.EnsureFeeDepositResources` is an arbitrary outcome; its own protocol is `Activation`.
- Activation.PlacedOnce: calls for one destination are serialised by the lock and the record does not expire; a caller-supplied provider list is not modelled.
- Outbox claim tokens are unique to a task run, and a run handles its rows one at a time; the order in which a sweep dispatches its rows is not fixed.
- OutboxProtocol.PostsAreClaimed: POSTs are bounded by claims, not by the maximum attempts, since a death after a POST records none.
- SplitLedger uses exact reals where the source has decimals with context precision; a ledger is kept per transaction, and a transfer that is broadcast but raises before it is recorded is not told apart from a rejected one.
- SplitLedger.TruncationLossIsBounded: for amounts that are not negative, where truncation is the floor.
- SplitLedger.AmlWallet.PayoutForTx: TRX drains of shares below the bandwidth cost would send a negative amount; the source does not check this either.
- A payout configuration with both drain types disabled makes the source raise; it is not modelled, and neither are gaps in the risk scores beyond "no level, no list".
