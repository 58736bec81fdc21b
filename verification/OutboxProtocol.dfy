/** One outbox row and any number of dispatching task runs on it, one statement or POST at a time. */
module OutboxProtocol {
  import opened Options
  import opened Outbox

  /** A task run dispatching the row.  Its claim token is its own id, and it handles the row
      sequentially.  `since` is when the claim it works under was made. */
  datatype Task =
    | SweepClaim
    | SweepSelect
    | Read
    | Claim
    | ClaimRead
    | Posting(seen: nat, since: int)
    | Recording(status: Status, since: int)
    | Done

  /** The fields after `now` only record history: successful claims, claims that replaced an expired one,
      the ordinals of the claims whose result was recorded, the 2xx replies received, the POSTs made, the
      task runs that have made a claim, what each heard that has made a POST, and those that made a record. */
  datatype Box = Box(
    row: Row,
    tasks: map<Token, Task>,
    now: int,
    claims: nat,
    reclaims: nat,
    settled: set<nat>,
    successes: nat,
    posts: nat,
    claimants: set<Token>,
    heard: map<Token, Reply>,
    recorders: set<Token>)

  function Fresh(now: int): Box {
    Box(NewCallback(now), map[], now, 0, 0, {}, 0, 0, {}, map[], {})
  }

  /** `picked`: the sweep's LIMIT reaches this row. */
  datatype Action =
    | Start(token: Token, sweep: bool)
    | Go(token: Token, picked: bool, reply: Reply)
    | Tick(seconds: nat)
    | Crash(token: Token)

  function Goto(b: Box, t: Token, task: Task): Box {
    b.(tasks := b.tasks[t := task])
  }

  /** The UPDATE of either claim statement, by task `t`. */
  function TryClaim(b: Box, c: Config, t: Token): Box {
    if Claimable(b.row, c, b.now) then
      b.(row := Claimed(b.row, t, b.now), claims := b.claims + 1,
         reclaims := b.reclaims + (if b.row.status.Dispatching? then 1 else 0),
         claimants := b.claimants + {t})
    else b
  }

  /** The UPDATE that records a result, by task `t`. */
  function TryRecord(b: Box, c: Config, t: Token, status: Status): Box {
    if HeldBy(b.row, t) then
      b.(row := Recorded(b.row, status, c, b.now), settled := b.settled + {b.claims},
         recorders := b.recorders + {t})
    else b
  }

  /** A task that has read the row: it may POST only under a claim of its own. */
  function AfterRead(row: Row, t: Token, otherwise: Task): Task {
    if HeldBy(row, t) && row.claimedAt.Some? then Posting(row.attempts, row.claimedAt.value) else otherwise
  }

  function Step(b: Box, c: Config, t: Token, picked: bool, reply: Reply): Box
    requires t in b.tasks
  {
    match b.tasks[t]
    case SweepClaim => Goto(if picked then TryClaim(b, c, t) else b, t, SweepSelect)
    case SweepSelect => Goto(b, t, if HeldBy(b.row, t) then Read else Done)
    case Read => Goto(b, t, AfterRead(b.row, t, if b.row.status.Pending? then Claim else Done))
    case Claim => Goto(TryClaim(b, c, t), t, ClaimRead)
    case ClaimRead => Goto(b, t, AfterRead(b.row, t, Done))
    case Posting(seen, since) =>
      Goto(b, t, Recording(NextStatus(seen, IsSuccess(reply), c), since)).(
        successes := b.successes + (if IsSuccess(reply) then 1 else 0),
        posts := b.posts + 1,
        heard := b.heard[t := reply])
    case Recording(status, _) => Goto(TryRecord(b, c, t, status), t, Done)
    case Done => b
  }

  function Do(b: Box, c: Config, a: Action): Box {
    match a
    case Start(t, sweep) => if t in b.tasks then b else Goto(b, t, if sweep then SweepClaim else Read)
    case Go(t, picked, reply) => if t in b.tasks then Step(b, c, t, picked, reply) else b
    case Tick(seconds) => b.(now := b.now + seconds)
    case Crash(t) => if t in b.tasks then Goto(b, t, Done) else b
  }

  function Run(b: Box, c: Config, actions: seq<Action>): Box {
    if actions == [] then b else Do(Run(b, c, actions[..|actions| - 1]), c, actions[|actions| - 1])
  }

  predicate InFlight(task: Task) {
    task.Posting? || task.Recording?
  }

  /** What the row keeps under any interleaving. */
  predicate RowInv(b: Box, c: Config) {
    var r := b.row;
    && r.attempts <= c.maxAttempts
    && (r.status.Pending? ==> r.attempts < c.maxAttempts && r.nextAttemptAt.Some? && r.claimedAt.None?
                              && r.claimToken.None?)
    && (r.status.Dispatching? ==> r.attempts < c.maxAttempts && r.claimedAt.Some? && r.claimToken.Some?)
    && (r.status.Failed? ==> r.attempts == c.maxAttempts)
    && b.claims == r.attempts + b.reclaims + (if r.status.Dispatching? then 1 else 0)
    && |b.settled| == r.attempts
    && (forall n :: n in b.settled ==> n <= b.claims)
    && (r.status.Dispatching? ==> b.claims !in b.settled)
  }

  /** A task that holds the claim it POSTs under read the attempts that are still stored. */
  predicate TaskInv(b: Box, t: Token, task: Task, c: Config) {
    && (task.Posting? && HeldBy(b.row, t) ==> task.seen == b.row.attempts)
    && (task.Recording? ==> !task.status.Dispatching?)
    && (task.Recording? && HeldBy(b.row, t) && task.status.Pending? ==> b.row.attempts + 1 < c.maxAttempts)
    && (task.Recording? && HeldBy(b.row, t) && task.status.Failed? ==> b.row.attempts + 1 == c.maxAttempts)
  }

  predicate Inv(b: Box, c: Config) {
    && RowInv(b, c)
    && forall t :: t in b.tasks ==> TaskInv(b, t, b.tasks[t], c)
  }

  lemma StepKeepsRow(b: Box, c: Config, t: Token, picked: bool, reply: Reply)
    requires RowInv(b, c) && t in b.tasks && TaskInv(b, t, b.tasks[t], c)
    ensures RowInv(Step(b, c, t, picked, reply), c)
  {
  }

  lemma StepKeepsTask(b: Box, c: Config, t: Token, picked: bool, reply: Reply, u: Token)
    requires Inv(b, c) && t in b.tasks && u in b.tasks
    ensures
      var b' := Step(b, c, t, picked, reply);
      u in b'.tasks && TaskInv(b', u, b'.tasks[u], c)
  {
    assert TaskInv(b, t, b.tasks[t], c) && TaskInv(b, u, b.tasks[u], c);
    hide Inv;
  }

  lemma StepKeepsInv(b: Box, c: Config, t: Token, picked: bool, reply: Reply)
    requires Inv(b, c) && t in b.tasks
    ensures Inv(Step(b, c, t, picked, reply), c)
  {
    var b' := Step(b, c, t, picked, reply);
    assert b'.tasks.Keys == b.tasks.Keys;
    StepKeepsRow(b, c, t, picked, reply);
    forall u | u in b'.tasks
      ensures TaskInv(b', u, b'.tasks[u], c)
    {
      StepKeepsTask(b, c, t, picked, reply, u);
    }
    hide Step, RowInv, TaskInv;
  }

  lemma DoKeepsInv(b: Box, c: Config, a: Action)
    requires Inv(b, c)
    ensures Inv(Do(b, c, a), c)
  {
    if a.Go? && a.token in b.tasks {
      StepKeepsInv(b, c, a.token, a.picked, a.reply);
    }
  }

  lemma {:induction false} RunKeepsInv(b: Box, c: Config, actions: seq<Action>)
    requires Inv(b, c)
    ensures Inv(Run(b, c, actions), c)
  {
    hide Do, Inv;
    if actions != [] {
      RunKeepsInv(b, c, actions[..|actions| - 1]);
      DoKeepsInv(Run(b, c, actions[..|actions| - 1]), c, actions[|actions| - 1]);
    }
  }

  /** Counting, over every interleaving and any number of crashes: attempts never pass the maximum, a row
      that can still be dispatched is below it, a failed row is at it, and claims are conserved. */
  lemma AttemptsAreCounted(start: int, c: Config, actions: seq<Action>)
    requires ValidConfig(c)
    ensures
      var b := Run(Fresh(start), c, actions);
      && b.row.attempts <= c.maxAttempts
      && (b.row.status.Pending? || b.row.status.Dispatching? ==> b.row.attempts < c.maxAttempts)
      && (b.row.status.Failed? ==> b.row.attempts == c.maxAttempts)
      && b.claims == b.row.attempts + b.reclaims + (if b.row.status.Dispatching? then 1 else 0)
  {
    RunKeepsInv(Fresh(start), c, actions);
  }

  /** A task run POSTs and records at most once, and only after a claim of its own. */
  predicate HistoryInv(b: Box) {
    && b.posts == |b.heard.Keys| && b.row.attempts == |b.recorders| && |b.claimants| <= b.claims
    && b.recorders <= b.heard.Keys <= b.claimants
    && (b.row.status.Dispatching? ==> b.row.claimToken.Some? && b.row.claimToken.value in b.claimants)
    && (forall t :: t in b.heard ==>
          t in b.tasks && (b.tasks[t].Recording? || b.tasks[t].Done?))
    && (forall t :: t in b.tasks && b.tasks[t].Posting? ==> t in b.claimants)
    && (forall t :: t in b.tasks && b.tasks[t].Recording? ==> t in b.heard && !b.tasks[t].status.Dispatching?)
    && (forall t :: t in b.recorders ==> b.tasks[t].Done?)
  }

  lemma StepKeepsHistory(b: Box, c: Config, t: Token, picked: bool, reply: Reply)
    requires HistoryInv(b) && t in b.tasks
    ensures HistoryInv(Step(b, c, t, picked, reply))
  {
    match b.tasks[t]
    case SweepClaim => ClaimKeepsHistory(b, c, t, if picked then TryClaim(b, c, t) else b, SweepSelect);
    case Claim => ClaimKeepsHistory(b, c, t, TryClaim(b, c, t), ClaimRead);
    case Recording(_, _) => RecordKeepsHistory(b, c, t);
    case _ =>
  }

  lemma RecordKeepsHistory(b: Box, c: Config, t: Token)
    requires HistoryInv(b) && t in b.tasks && b.tasks[t].Recording?
    ensures HistoryInv(Goto(TryRecord(b, c, t, b.tasks[t].status), t, Done))
  {
  }

  lemma ClaimKeepsHistory(b: Box, c: Config, t: Token, claimed: Box, next: Task)
    requires HistoryInv(b) && t in b.tasks && t !in b.heard && (claimed == b || claimed == TryClaim(b, c, t))
    requires next.SweepSelect? || next.ClaimRead?
    ensures HistoryInv(Goto(claimed, t, next))
  {
  }

  lemma DoKeepsHistory(b: Box, c: Config, a: Action)
    requires HistoryInv(b)
    ensures HistoryInv(Do(b, c, a))
  {
    if a.Go? && a.token in b.tasks {
      StepKeepsHistory(b, c, a.token, a.picked, a.reply);
    }
    hide Step;
  }

  lemma {:induction false} RunKeepsHistory(start: int, c: Config, actions: seq<Action>)
    ensures HistoryInv(Run(Fresh(start), c, actions))
  {
    hide Do;
    if actions != [] {
      hide HistoryInv;
      RunKeepsHistory(start, c, actions[..|actions| - 1]);
      DoKeepsHistory(Run(Fresh(start), c, actions[..|actions| - 1]), c, actions[|actions| - 1]);
    }
  }

  /** POSTs are bounded by claims, not by attempts: a recorded attempt takes a POST and a POST a claim, so they
      exceed the recorded attempts at most by the expired claims and the one being worked on. */
  lemma PostsAreClaimed(start: int, c: Config, actions: seq<Action>)
    requires ValidConfig(c)
    ensures
      var b := Run(Fresh(start), c, actions);
      && b.row.attempts <= b.posts <= b.claims
      && b.posts <= b.row.attempts + b.reclaims + (if b.row.status.Dispatching? then 1 else 0)
  {
    RunKeepsHistory(start, c, actions);
    AttemptsAreCounted(start, c, actions);
    var b := Run(Fresh(start), c, actions);
    SubsetIsSmaller(b.recorders, b.heard.Keys);
    SubsetIsSmaller(b.heard.Keys, b.claimants);
  }

  lemma {:induction false} SubsetIsSmaller(a: set<Token>, b: set<Token>)
    requires a <= b
    ensures |a| <= |b|
  {
    if a != {} {
      var t :| t in a;
      SubsetIsSmaller(a - {t}, b - {t});
    }
  }

  /** What should_retry answers for a recorded row is just whether it is PENDING again. */
  lemma RetryMeansPending(start: int, c: Config, actions: seq<Action>)
    requires ValidConfig(c)
    ensures
      var row := Run(Fresh(start), c, actions).row;
      ShouldRetry(row, c) <==> row.status.Pending?
  {
    RunKeepsInv(Fresh(start), c, actions);
  }

  /** Only the record of a task that holds the claim counts an attempt. */
  lemma OnlyRecordsCount(b: Box, c: Config, a: Action)
    ensures Do(b, c, a).row.attempts != b.row.attempts <==>
              a.Go? && a.token in b.tasks && b.tasks[a.token].Recording? && HeldBy(b.row, a.token)
  {
  }

  /** Each claim records at most one result: the step that records one settles the current claim, which
      no earlier step has settled, and the attempt it counts. */
  lemma EachClaimSettlesOnce(start: int, c: Config, actions: seq<Action>, a: Action)
    requires ValidConfig(c)
    requires
      var b := Run(Fresh(start), c, actions);
      Do(b, c, a).row.attempts != b.row.attempts
    ensures
      var b := Run(Fresh(start), c, actions);
      && b.claims !in b.settled
      && Do(b, c, a).settled == b.settled + {b.claims}
      && Do(b, c, a).row.attempts == b.row.attempts + 1
      && |b.settled| == b.row.attempts
  {
    RunKeepsInv(Fresh(start), c, actions);
    var b := Run(Fresh(start), c, actions);
    OnlyRecordsCount(b, c, a);
    assert RowInv(b, c);
    hide Run, TryClaim, AfterRead, Inv;
  }

  lemma DoKeepsFinal(b: Box, c: Config, a: Action)
    requires b.row.status.Sent? || b.row.status.Failed?
    ensures Do(b, c, a).row == b.row
  {
  }

  /** SENT and FAILED rows never change again. */
  lemma {:induction false} FinalRowsStay(b: Box, c: Config, actions: seq<Action>)
    requires b.row.status.Sent? || b.row.status.Failed?
    ensures Run(b, c, actions).row == b.row
  {
    hide Do;
    if actions != [] {
      FinalRowsStay(b, c, actions[..|actions| - 1]);
      DoKeepsFinal(Run(b, c, actions[..|actions| - 1]), c, actions[|actions| - 1]);
    }
  }

  /** No row gets stuck: in every reachable state an unfinished row has a time from which, and only from
      which, the claim guard holds: its next attempt, or the end of its claim. */
  lemma NoStuckRow(start: int, c: Config, actions: seq<Action>, now: int)
    requires ValidConfig(c)
    requires
      var row := Run(Fresh(start), c, actions).row;
      row.status.Pending? || row.status.Dispatching?
    ensures
      var row := Run(Fresh(start), c, actions).row;
      && (row.status.Pending? ==> row.nextAttemptAt.Some?)
      && (row.status.Dispatching? ==> row.claimedAt.Some?)
      && (Claimable(row, c, now) <==>
            now >= if row.status.Pending? then row.nextAttemptAt.value else row.claimedAt.value + c.claimTtl)
  {
    RunKeepsInv(Fresh(start), c, actions);
  }
}
