/** The safety theorems of the fine-grained protocol: they hold for every interleaving, with no
    help from the Redis lock, the lease or the resource step. */
module ExecutionTheorems {
  import opened Options
  import opened Failures
  import opened Resources
  import opened ExecutionRows
  import opened ExecutionProtocol
  import opened ExecutionSafety

  lemma ReachableInv(actions: seq<Action>)
    ensures Inv(Run(INIT, actions))
  {
    RunKeepsInv(INIT, actions);
  }

  /** At most one broadcast is ever issued for an execution. */
  lemma AtMostOneBroadcast(actions: seq<Action>)
    ensures |Run(INIT, actions).broadcasts| <= 1
  {
    ReachableInv(actions);
  }

  /** Whatever was broadcast is what the row had recorded; and a row that is waiting to start or
      failed before broadcast has no evidence and has sent nothing. */
  lemma BroadcastMatchesEvidence(actions: seq<Action>)
    ensures
      var s := Run(INIT, actions);
      s.row.Some? ==>
        && (forall i :: 0 <= i < |s.broadcasts| ==>
              && s.row.value.signedHash == Some(s.broadcasts[i].job.tx.hash)
              && s.row.value.txid == Some(s.broadcasts[i].job.tx.txid)
              && s.row.value.broadcastAttemptedAt.Some?)
        && (IsClean(s.row.value.state) ==> !HasUnsafeSideEffect(s.row.value) && s.broadcasts == [])
    ensures Run(INIT, actions).row.None? ==> Run(INIT, actions).broadcasts == []
  {
    ReachableInv(actions);
  }

  /** The step that issues a broadcast finds the hash, the transaction id and the attempt time already
      stored, a quote that rests on a reading of every resource in place, the last made by the same worker's resource
      step, and every order of that step delivered. */
  lemma EvidencePrecedesBroadcast(actions: seq<Action>, a: Action)
    requires Do(Run(INIT, actions), a).broadcasts != Run(INIT, actions).broadcasts
    ensures
      var s := Run(INIT, actions);
      && a.Go? && a.worker in s.workers && s.workers[a.worker].Broadcast?
      && s.broadcasts == []
      && s.row.Some?
      && s.row.value.signedHash == Some(s.workers[a.worker].job.tx.hash)
      && s.row.value.txid == Some(s.workers[a.worker].job.tx.txid)
      && s.row.value.broadcastAttemptedAt.Some?
      && Cleared(s.workers[a.worker].job.quote, s.workers[a.worker].job.log)
      && Do(s, a).broadcasts == [Sent(a.worker, s.workers[a.worker].job)]
  {
    ReachableInv(actions);
    var s := Run(INIT, actions);
    assert WorkerInv(s, a.worker, s.workers[a.worker]);
  }

  /** Evidence, once stored, stays as it is; what was sent stays sent. */
  ghost predicate KeepsEvidence(s: System, s': System) {
    && s.broadcasts <= s'.broadcasts
    && (s.row.Some? ==> s'.row.Some?)
    && (s.row.Some? && s.row.value.signedHash.Some? ==>
          && s'.row.value.signedRef == s.row.value.signedRef
          && s'.row.value.signedHash == s.row.value.signedHash
          && s'.row.value.txid == s.row.value.txid)
    && (s.row.Some? && s.row.value.broadcastAttemptedAt.Some? ==>
          s'.row.value.broadcastAttemptedAt == s.row.value.broadcastAttemptedAt)
  }

  lemma StepKeepsEvidence(s: System, w: WorkerId, e: Env)
    requires Inv(s) && w in s.workers
    ensures KeepsEvidence(s, Step(s, w, e))
  {
    assert WorkerInv(s, w, s.workers[w]);
    var pending := PendingUpdate(s.workers[w], e);
    if pending.Some? && Swaps(s.row, pending.value.snapshot) {
      WriteKeepsEvidence(s, w, e, pending.value);
    }
  }

  lemma WriteKeepsEvidence(s: System, w: WorkerId, e: Env, pending: Pending)
    requires Inv(s) && w in s.workers && WorkerInv(s, w, s.workers[w])
    requires PendingUpdate(s.workers[w], e) == Some(pending) && Swaps(s.row, pending.snapshot)
    ensures
      var row, next := s.row.value, Apply(pending.u, s.row.value);
      && (row.signedHash.Some? ==>
            next.signedRef == row.signedRef && next.signedHash == row.signedHash && next.txid == row.txid)
      && (row.broadcastAttemptedAt.Some? ==> next.broadcastAttemptedAt == row.broadcastAttemptedAt)
  {
    UpdatesFit(s, w, e, pending);
    assert RowInv(s);
    hide Inv, PendingUpdate, Cleared;
  }

  lemma DoKeepsEvidence(s: System, a: Action)
    requires Inv(s)
    ensures KeepsEvidence(s, Do(s, a))
  {
    if Allowed(s, a) && a.Go? {
      StepKeepsEvidence(s, a.worker, a.env);
    }
  }

  lemma {:induction false} EvidenceIsWriteOnce(before: seq<Action>, after: seq<Action>)
    ensures KeepsEvidence(Run(INIT, before), Run(INIT, before + after))
  {
    hide Do, Inv;
    if after == [] {
      assert before + after == before;
    } else {
      var earlier := after[..|after| - 1];
      EvidenceIsWriteOnce(before, earlier);
      ReachableInv(before + earlier);
      DoKeepsEvidence(Run(INIT, before + earlier), after[|after| - 1]);
      assert (before + after)[..|before + after| - 1] == before + earlier;
    }
  }

  /** The only moves left once a transfer is on chain. */
  predicate Follows(from: State, to: State) {
    match from
    case Broadcasted => IsOnChain(to)
    case Confirming => to.Confirming? || to.Confirmed? || to.FailedChainTerminal?
    case Confirmed => to.Confirmed?
    case FailedChainTerminal => to.FailedChainTerminal?
    case _ => true
  }

  ghost predicate KeepsForward(s: System, s': System) {
    s.row.Some? ==> s'.row.Some? && Follows(s.row.value.state, s'.row.value.state)
  }

  lemma DoKeepsForward(s: System, a: Action)
    requires Inv(s)
    ensures KeepsForward(s, Do(s, a))
  {
    if Allowed(s, a) && a.Go? {
      var p := PendingUpdate(s.workers[a.worker], a.env);
      if p.Some? && Swaps(s.row, p.value.snapshot) {
        UpdatesFit(s, a.worker, a.env, p.value);
      }
    }
    hide Inv, PendingUpdate, NextPc, ResourceContract, LogOf;
  }

  /** Once BROADCASTED, an execution only ever moves on to CONFIRMING, CONFIRMED or
      FAILED_CHAIN_TERMINAL, and the last two are final. */
  lemma {:induction false} OnChainIsForwardOnly(before: seq<Action>, after: seq<Action>)
    ensures KeepsForward(Run(INIT, before), Run(INIT, before + after))
  {
    hide Do, Inv;
    if after == [] {
      assert before + after == before;
    } else {
      var earlier := after[..|after| - 1];
      OnChainIsForwardOnly(before, earlier);
      ReachableInv(before + earlier);
      DoKeepsForward(Run(INIT, before + earlier), after[|after| - 1]);
      assert (before + after)[..|before + after| - 1] == before + earlier;
    }
  }

  /** A retry after a resource failure leaves no order in doubt: when the handler sends an execution
      back to RECEIVED, every order accepted by the failed resource step was seen delivered. */
  lemma RequeueLeavesNoDoubt(actions: seq<Action>, w: WorkerId, e: Env)
    requires
      var s := Run(INIT, actions);
      w in s.workers && s.workers[w].HandleWrite? && Step(s, w, e).row != s.row
    ensures
      var s := Run(INIT, actions);
      Step(s, w, e).row.value.state.Received? ==> AllDelivered(s.workers[w].log)
  {
    ReachableInv(actions);
    var s := Run(INIT, actions);
    assert WorkerInv(s, w, s.workers[w]);
  }
}
