/** How long a signed execution can go on at the fine grain: at most eight transitions follow the one that
    stored its evidence, whatever is interleaved. */
module ExecutionBound {
  import opened Options
  import opened Resources
  import opened ExecutionRows
  import opened ExecutionProtocol
  import opened ExecutionSafety
  import opened ExecutionTheorems

  /** A signer that has not yet verified its broadcast. */
  predicate Unverified(pc: Pc) {
    SignerPhase(pc) > 0 && !pc.BroadcastedWrite? && !(pc.Select? && pc.resume.AfterVerified?)
  }

  /** While it has not, the row does not say so. */
  predicate VerifiedInv(s: System) {
    forall w :: w in s.workers && Unverified(s.workers[w]) ==> s.row.Some? && !s.row.value.txidVerified
  }

  /** How many transitions a row with evidence can still make. */
  function Budget(row: Row): nat {
    match row.state
    case Broadcasted => 2
    case Confirming => 1
    case Confirmed => 0
    case FailedChainTerminal => 0
    case _ =>
      3
      + (if row.txidVerified then 0 else 1)
      + (if row.reservation.None? then 1 else 0)
      + (if row.broadcastAttemptedAt.None? then 2 else 0)
      + (if row.state.ReconciliationRequired? then 0 else 1)
  }

  /** A fitting UPDATE of a row with evidence spends some of its budget. */
  lemma FittingSpends(u: Update, row: Row)
    requires Fits(u, row) && row.signedHash.Some? && !IsClean(row.state)
    requires u.VerifyBroadcast? ==> !row.txidVerified
    ensures Budget(Apply(u, row)) < Budget(row) && Apply(u, row).signedHash.Some?
  {
  }

  /** A step without an UPDATE makes no signer out of anyone, and none unverified again. */
  lemma MovesStayVerified(row: Option<Row>, pc: Pc, e: Env)
    requires PendingUpdate(pc, e).None?
    ensures Unverified(NextPc(row, pc, e)) ==> Unverified(pc)
  {
  }

  lemma ConflictIsNoSigner(pc: Pc, e: Env)
    requires PendingUpdate(pc, e).Some?
    ensures !Unverified(PendingUpdate(pc, e).value.conflict)
  {
  }

  /** Where an UPDATE leads its own worker, and when it can touch the verification mark. */
  lemma WritesAndMark(pc: Pc, e: Env, p: Pending, row: Row)
    requires PendingUpdate(pc, e) == Some(p) && (Unverified(pc) ==> !row.txidVerified)
    ensures Unverified(Select(p.resume)) ==> !Apply(p.u, row).txidVerified
    ensures !row.txidVerified && Apply(p.u, row).txidVerified ==>
              SignerPhase(pc) > 0 || p.u.Chain?
    ensures p.u.VerifyBroadcast? ==> Unverified(pc)
  {
  }

  /** Nobody else's UPDATE sets the mark while a signer has yet to verify. */
  lemma OthersLeaveTheMark(s: System, w: WorkerId, e: Env, p: Pending, v: WorkerId)
    requires Inv(s) && VerifiedInv(s) && w in s.workers && PendingUpdate(s.workers[w], e) == Some(p)
    requires Swaps(s.row, p.snapshot) && v in s.workers && v != w && Unverified(s.workers[v])
    ensures !Apply(p.u, s.row.value).txidVerified
  {
    UpdatesFit(s, w, e, p);
    WritesAndMark(s.workers[w], e, p, s.row.value);
    assert SignerInv(s, w, s.workers[w]) && SignerInv(s, v, s.workers[v]) by {
      assert WorkerInv(s, w, s.workers[w]) && WorkerInv(s, v, s.workers[v]);
    }
    hide Inv, PendingUpdate, Apply, WorkerInv, Cleared;
  }

  lemma StepKeepsVerified(s: System, w: WorkerId, e: Env)
    requires Inv(s) && VerifiedInv(s) && w in s.workers
    ensures VerifiedInv(Step(s, w, e))
  {
    var s', p := Step(s, w, e), PendingUpdate(s.workers[w], e);
    if p.None? {
      MovesStayVerified(s.row, s.workers[w], e);
    } else if !Swaps(s.row, p.value.snapshot) {
      ConflictIsNoSigner(s.workers[w], e);
    } else {
      WritesAndMark(s.workers[w], e, p.value, s.row.value);
      forall v | v in s'.workers && Unverified(s'.workers[v])
        ensures !s'.row.value.txidVerified
      {
        if v != w {
          OthersLeaveTheMark(s, w, e, p.value, v);
        }
      }
    }
    hide Inv, PendingUpdate, NextPc, Apply, Unverified;
  }

  lemma DoKeepsVerified(s: System, a: Action)
    requires Inv(s) && VerifiedInv(s)
    ensures VerifiedInv(Do(s, a))
  {
    if Allowed(s, a) && a.Go? {
      StepKeepsVerified(s, a.worker, a.env);
    }
    hide Inv, Step, LogOf;
  }

  lemma {:induction false} RunKeepsVerified(actions: seq<Action>)
    ensures VerifiedInv(Run(INIT, actions))
  {
    hide Do, Inv, VerifiedInv;
    if actions == [] {
      assert VerifiedInv(INIT) by {
        NobodyIsVerified();
      }
    } else {
      var earlier := actions[..|actions| - 1];
      RunKeepsVerified(earlier);
      ReachableInv(earlier);
      DoKeepsVerified(Run(INIT, earlier), actions[|actions| - 1]);
    }
  }

  lemma NobodyIsVerified()
    ensures VerifiedInv(INIT)
  {
  }

  /** Version and budget together never grow once a row has evidence. */
  predicate Spends(s: System, s': System) {
    s.row.Some? && s.row.value.signedHash.Some? ==>
      && s'.row.Some? && s'.row.value.signedHash.Some?
      && s.row.value.stateVersion <= s'.row.value.stateVersion
      && s'.row.value.stateVersion + Budget(s'.row.value) <= s.row.value.stateVersion + Budget(s.row.value)
  }

  lemma DoSpends(s: System, a: Action)
    requires Inv(s) && VerifiedInv(s)
    ensures Spends(s, Do(s, a))
  {
    if Allowed(s, a) && a.Go? && s.row.Some? && s.row.value.signedHash.Some? {
      var p := PendingUpdate(s.workers[a.worker], a.env);
      assert RowInv(s);
      if p.Some? && Swaps(s.row, p.value.snapshot) {
        UpdatesFit(s, a.worker, a.env, p.value);
        WritesAndMark(s.workers[a.worker], a.env, p.value, s.row.value);
        FittingSpends(p.value.u, s.row.value);
      }
    }
    hide Inv, PendingUpdate, NextPc, Budget, Unverified, LogOf;
  }

  lemma {:induction false} RunSpends(before: seq<Action>, after: seq<Action>)
    ensures Spends(Run(INIT, before), Run(INIT, before + after))
  {
    hide Do, Inv, VerifiedInv;
    if after == [] {
      assert before + after == before;
    } else {
      var earlier := after[..|after| - 1];
      RunSpends(before, earlier);
      ReachableInv(before + earlier);
      RunKeepsVerified(before + earlier);
      DoSpends(Run(INIT, before + earlier), after[|after| - 1]);
      assert (before + after)[..|before + after| - 1] == before + earlier;
    }
  }

  /** With the SELECT on its own, at most eight transitions follow the one that stored the evidence, and never
      more than the budget of the row at any later time. */
  lemma EightTransitionsAfterSigning(before: seq<Action>, after: seq<Action>)
    requires
      var s := Run(INIT, before);
      s.row.Some? && s.row.value.signedHash.Some?
    ensures
      var row, s' := Run(INIT, before).row.value, Run(INIT, before + after);
      && s'.row.Some?
      && row.stateVersion <= s'.row.value.stateVersion <= row.stateVersion + Budget(row) <= row.stateVersion + 8
  {
    RunSpends(before, after);
  }
}
