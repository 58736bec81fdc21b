/** The whole callback outbox: many rows, one clock, and statements that act on one row or, as a sweep's do,
    on all.  Each row of it runs like the one-row machine, so what is proved of that holds of every row. */
module OutboxTables {
  import opened Options
  import opened Outbox
  import opened OutboxProtocol

  datatype Table = Table(boxes: map<nat, Box>, now: int)

  /** `OnRows` is one statement, or one step of a task run, with what it does to each row it touches. */
  datatype Statement = Insert(id: nat) | OnRows(steps: map<nat, Action>) | Wait(seconds: nat)

  function DoTable(t: Table, c: Config, s: Statement): Table {
    match s
    case Insert(id) => if id in t.boxes then t else t.(boxes := t.boxes[id := Fresh(t.now)])
    case OnRows(steps) =>
      t.(boxes := map id | id in t.boxes ::
           if id in steps && !steps[id].Tick? then Do(t.boxes[id], c, steps[id]) else t.boxes[id])
    case Wait(seconds) =>
      Table(map id | id in t.boxes :: Do(t.boxes[id], c, Tick(seconds)), t.now + seconds)
  }

  function RunTable(t: Table, c: Config, statements: seq<Statement>): Table {
    if statements == [] then t
    else DoTable(RunTable(t, c, statements[..|statements| - 1]), c, statements[|statements| - 1])
  }

  function Empty(now: int): Table {
    Table(map[], now)
  }

  /** What a row went through: it was inserted at some time and has since run as the one-row machine. */
  lemma {:induction false} RowIsARun(start: int, c: Config, statements: seq<Statement>, id: nat)
    returns (inserted: int, actions: seq<Action>)
    requires id in RunTable(Empty(start), c, statements).boxes
    ensures
      var t := RunTable(Empty(start), c, statements);
      t.boxes[id] == Run(Fresh(inserted), c, actions) && t.boxes[id].now == t.now
  {
    hide Do;
    var s := statements[|statements| - 1];
    var earlier := RunTable(Empty(start), c, statements[..|statements| - 1]);
    if id !in earlier.boxes {
      inserted, actions := earlier.now, [];
    } else {
      inserted, actions := RowIsARun(start, c, statements[..|statements| - 1], id);
      var a :=
        match s
        case Insert(_) => None
        case OnRows(steps) => if id in steps && !steps[id].Tick? then Some(steps[id]) else None
        case Wait(seconds) => Some(Tick(seconds));
      if a.Some? {
        OnlyTimeMovesTheClock(earlier.boxes[id], c, a.value);
        assert (actions + [a.value])[..|actions|] == actions;
        actions := actions + [a.value];
      }
    }
  }

  lemma OnlyTimeMovesTheClock(b: Box, c: Config, a: Action)
    ensures Do(b, c, a).now == b.now + if a.Tick? then a.seconds else 0
  {
  }

  /** Counting, for every row of the table and any number of task runs. */
  lemma EveryRowIsCounted(start: int, c: Config, statements: seq<Statement>, id: nat)
    requires ValidConfig(c) && id in RunTable(Empty(start), c, statements).boxes
    ensures
      var b := RunTable(Empty(start), c, statements).boxes[id];
      && b.row.attempts <= c.maxAttempts
      && (b.row.status.Pending? || b.row.status.Dispatching? ==> b.row.attempts < c.maxAttempts)
      && (b.row.status.Failed? ==> b.row.attempts == c.maxAttempts)
      && b.claims == b.row.attempts + b.reclaims + (if b.row.status.Dispatching? then 1 else 0)
      && (b.row.status.Dispatching? ==> b.row.claimedAt.Some?)
      && b.row.attempts <= b.posts <= b.claims
  {
    var inserted, actions := RowIsARun(start, c, statements, id);
    PostsAreClaimed(inserted, c, actions);
    AttemptsAreCounted(inserted, c, actions);
    RunKeepsInv(Fresh(inserted), c, actions);
  }

  /** No unfinished row of the table is stuck: there is a time from which, and only from which, it can be claimed. */
  lemma NoRowIsStuck(start: int, c: Config, statements: seq<Statement>, id: nat, now: int)
    requires ValidConfig(c) && id in RunTable(Empty(start), c, statements).boxes
    requires
      var row := RunTable(Empty(start), c, statements).boxes[id].row;
      row.status.Pending? || row.status.Dispatching?
    ensures
      var row := RunTable(Empty(start), c, statements).boxes[id].row;
      && (row.status.Pending? ==> row.nextAttemptAt.Some?)
      && (row.status.Dispatching? ==> row.claimedAt.Some?)
      && (Claimable(row, c, now) <==>
            now >= if row.status.Pending? then row.nextAttemptAt.value else row.claimedAt.value + c.claimTtl)
  {
    var inserted, actions := RowIsARun(start, c, statements, id);
    NoStuckRow(inserted, c, actions, now);
  }

  /** Rows are never removed, and SENT and FAILED ones never change, whatever is done to the table. */
  lemma {:induction false} FinalRowsOfTableStay(t: Table, c: Config, statements: seq<Statement>, id: nat)
    requires id in t.boxes
    ensures
      var t' := RunTable(t, c, statements);
      && id in t'.boxes
      && (t.boxes[id].row.status.Sent? || t.boxes[id].row.status.Failed? ==> t'.boxes[id].row == t.boxes[id].row)
  {
    hide Do;
    if statements != [] {
      FinalRowsOfTableStay(t, c, statements[..|statements| - 1], id);
      var earlier, s := RunTable(t, c, statements[..|statements| - 1]), statements[|statements| - 1];
      if earlier.boxes[id].row.status.Sent? || earlier.boxes[id].row.status.Failed? {
        if s.OnRows? && id in s.steps {
          DoKeepsFinal(earlier.boxes[id], c, s.steps[id]);
        } else if s.Wait? {
          DoKeepsFinal(earlier.boxes[id], c, Tick(s.seconds));
        }
      }
    }
  }

  /** The first rows in sweep order: every claimable row is chosen if all fit the limit, else the earliest. */
  predicate ChosenBySweep(t: Table, c: Config, limit: nat, chosen: set<nat>) {
    && |chosen| <= limit
    && (forall id :: id in chosen ==> id in t.boxes && Claimable(t.boxes[id].row, c, t.boxes[id].now))
    && (forall id :: id in t.boxes && id !in chosen && Claimable(t.boxes[id].row, c, t.boxes[id].now) ==>
          && |chosen| == limit
          && forall k :: k in chosen ==> Before(t.boxes[k].row, k, t.boxes[id].row, id))
  }
}
