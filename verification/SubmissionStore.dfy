/** `submit` as code, statement by statement, amid other submits.  Every statement is shown to be the step
    the registry machine has for it. */
module SubmissionStore {
  import opened Options
  import opened Submission

  predicate Others(actions: seq<Action>, me: nat) {
    forall a :: a in actions ==> a.worker != me
  }

  lemma RunOn(trace: seq<Action>, a: Action)
    ensures Run(EMPTY, trace + [a]) == Do(Run(EMPTY, trace), a)
  {
    assert (trace + [a])[..|trace|] == trace;
  }

  lemma {:induction false} RunConcat(r: Registry, first: seq<Action>, second: seq<Action>)
    ensures Run(r, first + second) == Run(Run(r, first), second)
  {
    hide Do;
    if second == [] {
      assert first + second == first;
    } else {
      RunConcat(r, first, second[..|second| - 1]);
      assert (first + second)[..|first + second| - 1] == first + second[..|second| - 1];
    }
  }

  lemma {:induction false} OthersKeep(r: Registry, others: seq<Action>, me: nat)
    requires Others(others, me) && me in r.workers
    ensures me in Run(r, others).workers && Run(r, others).workers[me] == r.workers[me]
  {
    if others != [] {
      OthersKeep(r, others[..|others| - 1], me);
      assert others[|others| - 1] in others;
    }
  }

  /** One call of `submit`, after validation.  `registry` is the table with the positions of all submits. */
  class SubmitCall {
    const me: nat
    const submit: Submit
    var registry: Registry
    ghost var trace: seq<Action>

    ghost predicate Valid()
      reads this
    {
      && registry == Run(EMPTY, trace) && me in registry.workers
      && registry.workers[me].submit == submit
    }

    ghost function At(): Pc
      reads this
    {
      if me in registry.workers then registry.workers[me] else Refused(submit)
    }

    constructor (me: nat, submit: Submit, registry: Registry, ghost before: seq<Action>)
      requires registry == Run(EMPTY, before) && me !in registry.workers && WellFormed(submit)
      ensures Valid() && At() == FindById(submit) && this.me == me && this.submit == submit
    {
      this.me, this.submit := me, submit;
      this.registry := registry.(workers := registry.workers[me := FindById(submit)]);
      trace := before + [Start(me, submit)];
      new;
      RunOn(before, Start(me, submit));
    }

    /** Any number of steps of other submits. */
    method Yield()
      requires Valid()
      modifies this`registry, this`trace
      ensures Valid() && At() == old(At())
    {
      hide Run, Do;
      var others: seq<Action> := *;
      if Others(others, me) {
        OthersKeep(registry, others, me);
        RunConcat(EMPTY, trace, others);
        registry := Run(registry, others);
        trace := trace + others;
      }
    }

    ghost method Record(picked: string, was: Registry)
      requires was == Run(EMPTY, trace) && registry == Do(was, Go(me, picked))
      requires me in registry.workers && registry.workers[me].submit == submit
      modifies this`trace
      ensures Valid() && At() == old(At())
    {
      RunOn(trace, Go(me, picked));
      trace := trace + [Go(me, picked)];
    }

    /** SELECT by execution id. */
    method FindRow() returns (row: Option<Execution>)
      requires Valid() && (At().FindById? || At().Reread?)
      modifies this`registry, this`trace
      ensures Valid()
      ensures old(At()).Reread? ==> row.Some? && At() == Accepted(submit, submit.canonical.executionId)
      ensures old(At()).FindById? ==>
                At() == match row
                        case None => FindByExternal(submit)
                        case Some(e) =>
                          if Matches(e, submit) then Accepted(submit, submit.canonical.executionId) else Refused(submit)
    {
      hide Run;
      Yield();
      RereadFinds();
      ghost var was := registry;
      var id := submit.canonical.executionId;
      row := if id in registry.table then Some(registry.table[id]) else None;
      registry := registry.(workers := registry.workers[me := Next(registry.table, registry.workers[me], id)]);
      Record(id, was);
    }

    /** After a successful insert the row is there to be read. */
    lemma RereadFinds()
      requires Valid()
      ensures At().Reread? ==> submit.canonical.executionId in registry.table
    {
      RunKeepsInv(EMPTY, trace);
      assert WorkerInv(registry.table, registry.workers[me]);
    }

    /** SELECT by consumer and external id, or, after a conflict, by either key; any match may come back. */
    method FindOther() returns (found: Option<string>, row: Option<Execution>)
      requires Valid() && (At().FindByExternal? || At().FindAfterConflict?)
      modifies this`registry, this`trace
      ensures Valid() && (found.Some? <==> row.Some?)
      ensures
        At() == match row
                case None => if old(At()).FindByExternal? then Insert(submit) else Refused(submit)
                case Some(e) =>
                  if Matches(e, submit) then Accepted(submit, found.value) else Refused(submit)
    {
      hide Run;
      Yield();
      ghost var was := registry;
      var table := registry.table;
      var byId := registry.workers[me].FindAfterConflict?;
      var matches := set id | id in table
        && ((byId && id == submit.canonical.executionId) || SameExternal(table[id], submit));
      var picked := "";
      if matches == {} {
        found, row := None, None;
        assert forall id :: id in table && SameExternal(table[id], submit) ==> id in matches;
        assert byId && submit.canonical.executionId in table ==> submit.canonical.executionId in matches;
      } else {
        picked :| picked in matches;
        found, row := Some(picked), Some(table[picked]);
      }
      registry := registry.(workers := registry.workers[me := Next(table, registry.workers[me], picked)]);
      Record(picked, was);
    }

    /** INSERT, refused by the database if either key is taken. */
    method InsertRow() returns (inserted: bool)
      requires Valid() && At() == Insert(submit)
      modifies this`registry, this`trace
      ensures Valid()
      ensures At() == if inserted then Reread(submit) else FindAfterConflict(submit)
    {
      hide Run;
      Yield();
      ghost var was := registry;
      inserted := !Clashes(registry.table, submit);
      var table :=
        if inserted then registry.table[submit.canonical.executionId := NewExecution(submit)] else registry.table;
      registry := Registry(
        table, registry.workers[me := if inserted then Reread(submit) else FindAfterConflict(submit)]);
      Record("", was);
    }

    /** The call: it accepts exactly when the machine does, naming the row it found or made. */
    method Perform() returns (accepted: Option<string>)
      requires Valid() && At() == FindById(submit)
      modifies this`registry, this`trace
      ensures Valid()
      ensures At() == if accepted.Some? then Accepted(submit, accepted.value) else Refused(submit)
    {
      hide SubmitCall.Valid, SubmitCall.At;
      var existing := FindRow();
      if existing.Some? {
        return if Matches(existing.value, submit) then Some(submit.canonical.executionId) else None;
      }
      var id, other := FindOther();
      if other.Some? {
        return if Matches(other.value, submit) then id else None;
      }
      var inserted := InsertRow();
      if !inserted {
        id, other := FindOther();
        return if other.Some? && Matches(other.value, submit) then id else None;
      }
      existing := FindRow();
      accepted := Some(submit.canonical.executionId);
    }

    /** So an accepted call names the row of its own execution id, which stores its canonical payload. */
    lemma AcceptedIsStored(id: string)
      requires Valid() && At() == Accepted(submit, id)
      ensures id == submit.canonical.executionId && id in registry.table
      ensures registry.table[id].canonical == submit.canonical
    {
      SubmitIsIdempotent(trace);
    }

    /** And a refused one met a row with one of its keys that stands for another request. */
    lemma RefusedHasReason()
      requires Valid() && At() == Refused(submit)
      ensures exists id :: id in registry.table && Contradicts(id, registry.table[id], submit)
    {
      RefusalHasReason(trace, me);
    }
  }
}
