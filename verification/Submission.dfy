/** Submitting a payout execution: what a request must look like, and what any interleaving of submits
    leaves in the table. */
module Submission {
  import opened Options
  import opened Amounts
  import opened Texts

  /** A request body, or its canonical form; `amount` is text in both. */
  datatype Payload = Payload(
    consumer: string,
    executionId: string,
    externalId: string,
    asset: string,
    network: string,
    amount: string,
    destination: string,
    contractVersion: string)

  /** SHA-256 without collisions: a digest determines the canonical payload it was taken of. */
  datatype Digest = Sha256(canonical: Payload) | OtherDigest(text: string)

  datatype Request = Request(
    payload: Payload,
    requestHash: string,
    payloadHash: Digest,
    sourceWallet: Option<string>,
    payoutQueue: Option<string>)

  datatype SubmitError =
    | ConsumerMismatch | ExecutionIdMismatch | RailMismatch | SourceWalletMismatch | QueueMismatch
    | InvalidDestination | BadAmount(error: AmountError) | PayloadHashMismatch | Conflict

  const CONTRACT_VERSION := "usdt-payout-execution-v1"

  datatype Validation = Valid(canonical: Payload) | Rejected(error: SubmitError)

  function CanonicalPayload(p: Payload): Validation {
    match CanonicalAmount(p.amount)
    case Invalid(error) => Rejected(BadAmount(error))
    case Units(units) =>
      Valid(Payload(p.consumer, p.executionId, p.externalId, Upper(p.asset), Upper(p.network), Render(units),
                    p.destination, if p.contractVersion == "" then CONTRACT_VERSION else p.contractVersion))
  }

  /** The checks of `validate_payload`, in order. */
  function Validate(r: Request, authenticated: string, pathId: Option<string>, queue: string,
                    isAddress: string -> bool): Validation
  {
    var p := r.payload;
    if p.consumer != authenticated then Rejected(ConsumerMismatch)
    else if pathId.Some? && p.executionId != pathId.value then Rejected(ExecutionIdMismatch)
    else if Upper(p.asset) != "USDT" || Upper(p.network) != "TRON" then Rejected(RailMismatch)
    else if r.sourceWallet.Some? && r.sourceWallet.value != "fee_deposit" then Rejected(SourceWalletMismatch)
    else if r.payoutQueue.Some? && r.payoutQueue.value != queue then Rejected(QueueMismatch)
    else if !isAddress(p.destination) then Rejected(InvalidDestination)
    else
      match CanonicalPayload(p)
      case Rejected(error) => Rejected(error)
      case Valid(canonical) =>
        if r.payloadHash == Sha256(canonical) then Valid(canonical) else Rejected(PayloadHashMismatch)
  }

  /** The canonical form is its own canonical form. */
  lemma CanonicalIsIdempotent(p: Payload)
    ensures CanonicalPayload(p).Valid? ==> CanonicalPayload(CanonicalPayload(p).canonical) == CanonicalPayload(p)
  {
    if CanonicalPayload(p).Valid? {
      var canonical := CanonicalPayload(p).canonical;
      CanonicalAmountOfRender(CanonicalAmount(p.amount).units);
      assert Upper(canonical.asset) == canonical.asset;
      assert Upper(canonical.network) == canonical.network;
      assert CONTRACT_VERSION != "";
    }
  }

  /** What passes validation is a canonical payload of the TRON USDT rail, authenticated, and named by
      the digest that came with it. */
  lemma ValidatedIsCanonical(r: Request, authenticated: string, pathId: Option<string>, queue: string,
                             isAddress: string -> bool)
    ensures
      match Validate(r, authenticated, pathId, queue, isAddress)
      case Rejected(_) => true
      case Valid(canonical) =>
        && CanonicalPayload(canonical) == Valid(canonical)
        && r.payloadHash == Sha256(canonical)
        && canonical.asset == "USDT" && canonical.network == "TRON"
        && canonical.consumer == authenticated && isAddress(canonical.destination)
        && (pathId.Some? ==> canonical.executionId == pathId.value)
  {
    CanonicalIsIdempotent(r.payload);
    hide CanonicalAmount, Render;
  }

  /** Exactly the requests are accepted that name their consumer and, if the path does, their execution, ask for USDT
      on TRON from the fee deposit through the configured queue, pay a positive amount of at most six decimals to
      an address, and come with the digest of their canonical form. */
  lemma ValidationIsExact(r: Request, authenticated: string, pathId: Option<string>, queue: string,
                          isAddress: string -> bool)
    ensures
      var p, amount := r.payload, CanonicalAmount(r.payload.amount);
      Validate(r, authenticated, pathId, queue, isAddress).Valid?
      <==>
        && p.consumer == authenticated
        && (pathId == None || pathId == Some(p.executionId))
        && Upper(p.asset) == "USDT" && Upper(p.network) == "TRON"
        && (r.sourceWallet == None || r.sourceWallet == Some("fee_deposit"))
        && (r.payoutQueue == None || r.payoutQueue == Some(queue))
        && isAddress(p.destination)
        && amount.Units?
        && r.payloadHash == Sha256(Payload(
             p.consumer, p.executionId, p.externalId, "USDT", "TRON", Render(amount.units), p.destination,
             if p.contractVersion == "" then "usdt-payout-execution-v1" else p.contractVersion))
  {
    hide CanonicalAmount, Render;
  }

  /** A request is refused for the first check it fails. */
  lemma FirstFailureIsReported(r: Request, authenticated: string, pathId: Option<string>, queue: string,
                               isAddress: string -> bool)
    ensures
      var p, v := r.payload, Validate(r, authenticated, pathId, queue, isAddress);
      var own := p.consumer == authenticated;
      var named := own && (pathId == None || pathId == Some(p.executionId));
      var onRail := named && Upper(p.asset) == "USDT" && Upper(p.network) == "TRON";
      var fromFees := onRail && (r.sourceWallet == None || r.sourceWallet == Some("fee_deposit"));
      var queued := fromFees && (r.payoutQueue == None || r.payoutQueue == Some(queue));
      && (!own ==> v == Rejected(ConsumerMismatch))
      && (own && !named ==> v == Rejected(ExecutionIdMismatch))
      && (named && !onRail ==> v == Rejected(RailMismatch))
      && (onRail && !fromFees ==> v == Rejected(SourceWalletMismatch))
      && (fromFees && !queued ==> v == Rejected(QueueMismatch))
      && (queued && !isAddress(p.destination) ==> v == Rejected(InvalidDestination))
    ensures
      var v := Validate(r, authenticated, pathId, queue, isAddress);
      v.Rejected? && v.error.BadAmount? ==> CanonicalAmount(r.payload.amount) == Invalid(v.error.error)
  {
    hide CanonicalAmount, Render;
  }

  /** The identity columns of a stored execution; no later write touches them. */
  datatype Execution = Execution(
    consumer: string, externalId: string, requestHash: string, payloadHash: Digest, canonical: Payload)

  type Table = map<string, Execution>

  /** A validated submit: the request and its canonical form. */
  datatype Submit = Submit(requestHash: string, payloadHash: Digest, canonical: Payload)

  predicate Matches(e: Execution, s: Submit) {
    e.requestHash == s.requestHash && e.payloadHash == s.payloadHash
  }

  predicate SameExternal(e: Execution, s: Submit) {
    e.consumer == s.canonical.consumer && e.externalId == s.canonical.externalId
  }

  /** A worker handling one submit, one statement at a time. */
  datatype Pc =
    | FindById(submit: Submit)
    | FindByExternal(submit: Submit)
    | Insert(submit: Submit)
    | FindAfterConflict(submit: Submit)
    | Reread(submit: Submit)
    | Accepted(submit: Submit, id: string)
    | Refused(submit: Submit)

  datatype Registry = Registry(table: Table, workers: map<nat, Pc>)

  /** `picked` is the row a query that may match several returns first. */
  datatype Action = Start(worker: nat, submit: Submit) | Go(worker: nat, picked: string)

  function NewExecution(s: Submit): Execution {
    Execution(s.canonical.consumer, s.canonical.externalId, s.requestHash, s.payloadHash, s.canonical)
  }

  /** The primary key and the unique pair of consumer and external id. */
  predicate Clashes(table: Table, s: Submit) {
    || s.canonical.executionId in table
    || exists id :: id in table && SameExternal(table[id], s)
  }

  function Answer(table: Table, s: Submit, id: string): Pc
    requires id in table
  {
    if Matches(table[id], s) then Accepted(s, id) else Refused(s)
  }

  function Next(table: Table, pc: Pc, picked: string): Pc {
    match pc
    case FindById(s) =>
      var id := s.canonical.executionId;
      if id in table then Answer(table, s, id) else FindByExternal(s)
    case FindByExternal(s) =>
      if picked in table && SameExternal(table[picked], s) then Answer(table, s, picked)
      else if exists id :: id in table && SameExternal(table[id], s) then pc
      else Insert(s)
    case Insert(s) => if Clashes(table, s) then FindAfterConflict(s) else Reread(s)
    case FindAfterConflict(s) =>
      if picked in table && (picked == s.canonical.executionId || SameExternal(table[picked], s))
      then Answer(table, s, picked)
      else if Clashes(table, s) then pc
      else Refused(s)
    case Reread(s) => if s.canonical.executionId in table then Accepted(s, s.canonical.executionId) else pc
    case Accepted(_, _) => pc
    case Refused(_) => pc
  }

  predicate WellFormed(s: Submit) {
    s.payloadHash == Sha256(s.canonical)
  }

  function Do(r: Registry, a: Action): Registry {
    match a
    case Start(w, s) =>
      if w in r.workers || !WellFormed(s) then r else r.(workers := r.workers[w := FindById(s)])
    case Go(w, picked) =>
      if w !in r.workers then r
      else
        var pc := r.workers[w];
        r.(table := if pc.Insert? && !Clashes(r.table, pc.submit)
                    then r.table[pc.submit.canonical.executionId := NewExecution(pc.submit)] else r.table,
           workers := r.workers[w := Next(r.table, pc, picked)])
  }

  function Run(r: Registry, actions: seq<Action>): Registry {
    if actions == [] then r else Do(Run(r, actions[..|actions| - 1]), actions[|actions| - 1])
  }

  const EMPTY := Registry(map[], map[])

  /** Every stored row is the record of a well-formed submit under its own execution id. */
  predicate Keyed(table: Table) {
    forall id :: id in table ==>
      && table[id].canonical.executionId == id
      && table[id].consumer == table[id].canonical.consumer
      && table[id].externalId == table[id].canonical.externalId
      && table[id].payloadHash == Sha256(table[id].canonical)
  }

  predicate UniqueExternal(table: Table) {
    forall a, b | a in table && b in table && a != b ::
      table[a].consumer != table[b].consumer || table[a].externalId != table[b].externalId
  }

  ghost predicate WorkerInv(table: Table, pc: Pc) {
    && WellFormed(pc.submit)
    && (pc.Reread? ==> pc.submit.canonical.executionId in table
                       && table[pc.submit.canonical.executionId] == NewExecution(pc.submit))
    && (pc.Accepted? ==> pc.id in table && Matches(table[pc.id], pc.submit))
    && (pc.FindAfterConflict? ==> Clashes(table, pc.submit))
    && (pc.Refused? ==> Forbids(table, pc.submit))
  }

  /** A row with one of the keys of the request stands for another request. */
  ghost predicate Forbids(table: Table, s: Submit) {
    exists id :: id in table && Contradicts(id, table[id], s)
  }

  predicate Contradicts(id: string, e: Execution, s: Submit) {
    && (id == s.canonical.executionId
        || (e.consumer == s.canonical.consumer && e.externalId == s.canonical.externalId))
    && (e.requestHash != s.requestHash || e.payloadHash != s.payloadHash)
  }

  ghost predicate Inv(r: Registry) {
    && Keyed(r.table)
    && UniqueExternal(r.table)
    && forall w :: w in r.workers ==> WorkerInv(r.table, r.workers[w])
  }

  /** Rows are only ever added. */
  predicate Extends(table: Table, later: Table) {
    forall id :: id in table ==> id in later && later[id] == table[id]
  }

  lemma DoKeepsTable(r: Registry, a: Action)
    requires Inv(r)
    ensures Keyed(Do(r, a).table) && UniqueExternal(Do(r, a).table) && Extends(r.table, Do(r, a).table)
  {
    if a.worker in r.workers && a.Go? {
      var pc := r.workers[a.worker];
      assert WorkerInv(r.table, pc);
      if pc.Insert? && !Clashes(r.table, pc.submit) {
        assert forall x :: x in r.table ==> !SameExternal(r.table[x], pc.submit);
      }
    }
    hide Next;
  }

  lemma AnswersKeepWorker(table: Table, s: Submit, id: string)
    requires WellFormed(s) && id in table && (id == s.canonical.executionId || SameExternal(table[id], s))
    ensures WorkerInv(table, Answer(table, s, id))
  {
    assert !Matches(table[id], s) ==> Contradicts(id, table[id], s);
  }

  /** A worker's own statement. */
  lemma StatementKeepsWorker(r: Registry, w: nat, picked: string)
    requires Inv(r) && w in r.workers
    ensures WorkerInv(Do(r, Go(w, picked)).table, Do(r, Go(w, picked)).workers[w])
  {
    var pc := r.workers[w];
    assert WorkerInv(r.table, pc);
    if pc.FindById? && pc.submit.canonical.executionId in r.table {
      AnswersKeepWorker(r.table, pc.submit, pc.submit.canonical.executionId);
    } else if (pc.FindByExternal? && picked in r.table && SameExternal(r.table[picked], pc.submit))
              || (pc.FindAfterConflict? && picked in r.table
                  && (picked == pc.submit.canonical.executionId || SameExternal(r.table[picked], pc.submit))) {
      AnswersKeepWorker(r.table, pc.submit, picked);
    }
    hide UniqueExternal, Forbids, Matches;
  }

  lemma LaterKeepsWorker(table: Table, later: Table, pc: Pc)
    requires Extends(table, later) && WorkerInv(table, pc)
    ensures WorkerInv(later, pc)
  {
    if pc.Refused? {
      var id :| id in table && Contradicts(id, table[id], pc.submit);
      assert later[id] == table[id];
    }
    if pc.FindAfterConflict? && pc.submit.canonical.executionId !in table {
      var id :| id in table && SameExternal(table[id], pc.submit);
      assert later[id] == table[id];
    }
  }

  lemma DoKeepsInv(r: Registry, a: Action)
    requires Inv(r)
    ensures Inv(Do(r, a)) && Extends(r.table, Do(r, a).table)
  {
    var r' := Do(r, a);
    DoKeepsTable(r, a);
    forall w | w in r'.workers
      ensures WorkerInv(r'.table, r'.workers[w])
    {
      if a.Go? && w == a.worker {
        StatementKeepsWorker(r, w, a.picked);
      } else if w in r.workers {
        assert WorkerInv(r.table, r.workers[w]);
        LaterKeepsWorker(r.table, r'.table, r.workers[w]);
      }
    }
    hide Next, Keyed, UniqueExternal, WorkerInv, Clashes;
  }

  lemma {:induction false} RunKeepsInv(r: Registry, actions: seq<Action>)
    requires Inv(r)
    ensures Inv(Run(r, actions)) && Extends(r.table, Run(r, actions).table)
  {
    hide Do, Inv;
    if actions != [] {
      RunKeepsInv(r, actions[..|actions| - 1]);
      DoKeepsInv(Run(r, actions[..|actions| - 1]), actions[|actions| - 1]);
    }
  }

  /** Over any interleaving of submits there is at most one row per execution id (the table is keyed by
      it) and per consumer and external id, and every ACCEPTED reply names the very execution that was
      asked for, stored with the canonical form of the request. */
  lemma SubmitIsIdempotent(actions: seq<Action>)
    ensures
      var r := Run(EMPTY, actions);
      && UniqueExternal(r.table)
      && (forall id :: id in r.table ==> r.table[id].canonical.executionId == id)
      && forall w :: w in r.workers && r.workers[w].Accepted? ==>
           var reply := r.workers[w];
           && reply.id == reply.submit.canonical.executionId
           && reply.id in r.table
           && r.table[reply.id].canonical == reply.submit.canonical
           && r.table[reply.id].requestHash == reply.submit.requestHash
  {
    RunKeepsInv(EMPTY, actions);
    var r := Run(EMPTY, actions);
    forall w | w in r.workers && r.workers[w].Accepted?
      ensures
        var reply := r.workers[w];
        && reply.id == reply.submit.canonical.executionId
        && reply.id in r.table
        && r.table[reply.id].canonical == reply.submit.canonical
        && r.table[reply.id].requestHash == reply.submit.requestHash
    {
      assert WorkerInv(r.table, r.workers[w]);
    }
  }

  /** Two accepted submits of one execution id, however far apart, asked for the same payout. */
  lemma AcceptedSubmitsAgree(before: seq<Action>, after: seq<Action>, v: nat, w: nat)
    requires
      var r, r' := Run(EMPTY, before), Run(Run(EMPTY, before), after);
      && v in r.workers && r.workers[v].Accepted?
      && w in r'.workers && r'.workers[w].Accepted?
      && r.workers[v].submit.canonical.executionId == r'.workers[w].submit.canonical.executionId
    ensures
      var r, r' := Run(EMPTY, before), Run(Run(EMPTY, before), after);
      && r.workers[v].submit.canonical == r'.workers[w].submit.canonical
      && r.workers[v].submit.requestHash == r'.workers[w].submit.requestHash
  {
    hide Do;
    var r := Run(EMPTY, before);
    var r' := Run(r, after);
    RunKeepsInv(EMPTY, before);
    RunKeepsInv(r, after);
    assert WorkerInv(r.table, r.workers[v]);
    assert WorkerInv(r'.table, r'.workers[w]);
  }

  /** A submit is only ever refused for a row that has one of its keys and stands for another request. */
  lemma RefusalHasReason(actions: seq<Action>, w: nat)
    requires
      var r := Run(EMPTY, actions);
      w in r.workers && r.workers[w].Refused?
    ensures
      var r, s := Run(EMPTY, actions), Run(EMPTY, actions).workers[w].submit;
      exists id :: id in r.table && Contradicts(id, r.table[id], s)
  {
    RunKeepsInv(EMPTY, actions);
    var r := Run(EMPTY, actions);
    assert WorkerInv(r.table, r.workers[w]);
  }

  /** A submit that nobody disturbs, of a request none of whose keys is taken, is accepted and stored. */
  lemma UndisturbedSubmit(r: Registry, w: nat, picked: string)
    requires w in r.workers && r.workers[w].FindById?
    requires
      var s := r.workers[w].submit.canonical;
      && s.executionId !in r.table
      && forall id :: id in r.table ==> r.table[id].consumer != s.consumer || r.table[id].externalId != s.externalId
    ensures
      var go, s := Go(w, picked), r.workers[w].submit;
      var after, id := Do(Do(Do(Do(r, go), go), go), go), s.canonical.executionId;
      && after.workers == r.workers[w := Accepted(s, id)]
      && after.table
         == r.table[id := Execution(
              s.canonical.consumer, s.canonical.externalId, s.requestHash, s.payloadHash, s.canonical)]
  {
    var go, s := Go(w, picked), r.workers[w].submit;
    var r2 := Do(Do(r, go), go);
    assert forall id :: id in r.table ==> !SameExternal(r.table[id], s);
    assert r2.table == r.table && r2.workers == r.workers[w := Insert(s)];
  }

  /** A submit of a request whose row is there is answered by that row alone. */
  lemma RepeatedSubmit(r: Registry, w: nat, picked: string)
    requires w in r.workers && r.workers[w].FindById? && r.workers[w].submit.canonical.executionId in r.table
    ensures
      var s := r.workers[w].submit;
      var after, row := Do(r, Go(w, picked)), r.table[s.canonical.executionId];
      && after.table == r.table
      && after.workers[w]
         == if row.requestHash == s.requestHash && row.payloadHash == s.payloadHash
            then Accepted(s, s.canonical.executionId) else Refused(s)
  {
  }
}
