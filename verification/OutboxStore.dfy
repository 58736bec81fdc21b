/** The outbox operations as code, statement by statement, on the whole table and amid other task runs.
    Every statement is shown to be the step the machine has for it on each row it touches. */
module OutboxStore {
  import opened Options
  import opened Outbox
  import opened OutboxProtocol
  import opened OutboxTables

  predicate IsOther(a: Action, me: Token) {
    a.Tick? || a.token != me
  }

  predicate OtherStatement(s: Statement, me: Token) {
    s.OnRows? ==> forall id :: id in s.steps ==> IsOther(s.steps[id], me)
  }

  predicate Others(statements: seq<Statement>, me: Token) {
    forall s :: s in statements ==> OtherStatement(s, me)
  }

  /** A task run that keeps to its program never crashes. */
  predicate KeepsToProgram(trace: seq<Statement>, from: nat, me: Token) {
    forall i :: from <= i < |trace| && trace[i].OnRows? ==>
      forall id :: id in trace[i].steps ==> IsOther(trace[i].steps[id], me) || !trace[i].steps[id].Crash?
  }

  /** Where a task run stands on a row, if it has turned to it. */
  function Place(t: Table, id: nat, me: Token): Option<Task> {
    if id in t.boxes && me in t.boxes[id].tasks then Some(t.boxes[id].tasks[me]) else None
  }

  ghost predicate SamePlaces(t: Table, t': Table, me: Token) {
    && t.boxes.Keys <= t'.boxes.Keys
    && forall id :: Place(t', id, me) == Place(t, id, me)
  }

  /** Only the place on row `id` may have changed. */
  ghost predicate PlacesBut(t: Table, t': Table, me: Token, id: nat) {
    && t.boxes.Keys <= t'.boxes.Keys
    && forall k :: k != id ==> Place(t', k, me) == Place(t, k, me)
  }

  lemma NothingMoved(t: Table, me: Token)
    ensures SamePlaces(t, t, me)
  {
  }

  lemma RunTableOn(t: Table, c: Config, trace: seq<Statement>, s: Statement)
    ensures RunTable(t, c, trace + [s]) == DoTable(RunTable(t, c, trace), c, s)
  {
    assert (trace + [s])[..|trace|] == trace;
  }

  lemma {:induction false} RunTableConcat(t: Table, c: Config, first: seq<Statement>, second: seq<Statement>)
    ensures RunTable(t, c, first + second) == RunTable(RunTable(t, c, first), c, second)
  {
    hide DoTable;
    if second == [] {
      assert first + second == first;
    } else {
      RunTableConcat(t, c, first, second[..|second| - 1]);
      assert (first + second)[..|first + second| - 1] == first + second[..|second| - 1];
    }
  }

  lemma OtherActionKeeps(b: Box, c: Config, a: Action, me: Token)
    requires IsOther(a, me)
    ensures me in Do(b, c, a).tasks <==> me in b.tasks
    ensures me in b.tasks ==> Do(b, c, a).tasks[me] == b.tasks[me]
  {
  }

  lemma OtherStatementKeeps(t: Table, c: Config, s: Statement, me: Token)
    requires OtherStatement(s, me)
    ensures SamePlaces(t, DoTable(t, c, s), me)
  {
    hide Do;
    forall id
      ensures Place(DoTable(t, c, s), id, me) == Place(t, id, me)
    {
      if id in t.boxes {
        match s
        case Insert(_) =>
        case OnRows(steps) =>
          if id in steps {
            OtherActionKeeps(t.boxes[id], c, steps[id], me);
          }
        case Wait(seconds) => OtherActionKeeps(t.boxes[id], c, Tick(seconds), me);
      }
    }
  }

  lemma {:induction false} OthersKeep(t: Table, c: Config, others: seq<Statement>, me: Token)
    requires Others(others, me)
    ensures SamePlaces(t, RunTable(t, c, others), me)
  {
    hide DoTable;
    if others != [] {
      var earlier := others[..|others| - 1];
      OthersKeep(t, c, earlier, me);
      assert others[|others| - 1] in others;
      OtherStatementKeeps(RunTable(t, c, earlier), c, others[|others| - 1], me);
    }
  }

  lemma OthersKeepProgram(trace: seq<Statement>, others: seq<Statement>, from: nat, me: Token)
    requires KeepsToProgram(trace, from, me) && Others(others, me)
    ensures KeepsToProgram(trace + others, from, me)
  {
    forall i | from <= i < |trace + others| && (trace + others)[i].OnRows?
      ensures forall id :: id in (trace + others)[i].steps ==>
                IsOther((trace + others)[i].steps[id], me) || !(trace + others)[i].steps[id].Crash?
    {
      if i >= |trace| {
        assert (trace + others)[i] in others;
      }
    }
  }

  /** A step on one row. */
  lemma OnOneRow(t: Table, c: Config, id: nat, a: Action)
    requires id in t.boxes && !a.Tick?
    ensures DoTable(t, c, OnRows(map[id := a])) == t.(boxes := t.boxes[id := Do(t.boxes[id], c, a)])
  {
    hide Do;
  }

  /** A sweep's claim as it acts on one row. */
  function SweptBox(b: Box, c: Config, me: Token, picked: bool): Box {
    Goto(if picked then TryClaim(b, c, me) else b, me, SweepSelect)
  }

  lemma SweepsOneBox(b: Box, c: Config, me: Token, picked: bool)
    requires me !in b.tasks
    ensures Do(Do(b, c, Start(me, true)), c, Go(me, picked, NoReply)) == SweptBox(b, c, me, picked)
  {
    var b1 := Do(b, c, Start(me, true));
    assert b1.row == b.row && b1.now == b.now;
    assert b.tasks[me := SweepClaim][me := SweepSelect] == b.tasks[me := SweepSelect];
  }

  function AllStart(ids: set<nat>, me: Token): map<nat, Action> {
    map id | id in ids :: Start(me, true)
  }

  function AllGo(ids: set<nat>, me: Token, chosen: set<nat>): map<nat, Action> {
    map id | id in ids :: Go(me, id in chosen, NoReply)
  }

  /** The claiming statement of a sweep is, on every row at once, the machine's claim with `picked` for the
      chosen rows, and leaves every other row as it is. */
  lemma SweepIsTheMachines(t: Table, c: Config, me: Token, chosen: set<nat>)
    requires forall id :: id in t.boxes ==> me !in t.boxes[id].tasks
    ensures
      DoTable(DoTable(t, c, OnRows(AllStart(t.boxes.Keys, me))), c, OnRows(AllGo(t.boxes.Keys, me, chosen)))
      == t.(boxes := map id | id in t.boxes :: SweptBox(t.boxes[id], c, me, id in chosen))
  {
    hide Do, SweptBox, AllStart, AllGo;
    KeysStay(t, c, OnRows(AllStart(t.boxes.Keys, me)));
    KeysStay(DoTable(t, c, OnRows(AllStart(t.boxes.Keys, me))), c, OnRows(AllGo(t.boxes.Keys, me, chosen)));
    hide DoTable;
    var t1 := DoTable(t, c, OnRows(AllStart(t.boxes.Keys, me)));
    var t2 := DoTable(t1, c, OnRows(AllGo(t.boxes.Keys, me, chosen)));
    forall id | id in t.boxes
      ensures id in t2.boxes && t2.boxes[id] == SweptBox(t.boxes[id], c, me, id in chosen)
    {
      AllStarted(t, c, me, id);
      AllWent(t1, c, me, chosen, id);
      SweepsOneBox(t.boxes[id], c, me, id in chosen);
    }
    assert t2.boxes == map id | id in t.boxes :: SweptBox(t.boxes[id], c, me, id in chosen);
  }

  lemma KeysStay(t: Table, c: Config, s: Statement)
    requires s.OnRows?
    ensures DoTable(t, c, s).boxes.Keys == t.boxes.Keys && DoTable(t, c, s).now == t.now
  {
    hide Do;
  }

  lemma AllStarted(t: Table, c: Config, me: Token, id: nat)
    requires id in t.boxes
    ensures
      var t' := DoTable(t, c, OnRows(AllStart(t.boxes.Keys, me)));
      t'.boxes.Keys == t.boxes.Keys && t'.boxes[id] == Do(t.boxes[id], c, Start(me, true))
  {
    hide Do;
  }

  lemma AllWent(t: Table, c: Config, me: Token, chosen: set<nat>, id: nat)
    requires id in t.boxes
    ensures
      var t' := DoTable(t, c, OnRows(AllGo(t.boxes.Keys, me, chosen)));
      t'.boxes.Keys == t.boxes.Keys && t'.boxes[id] == Do(t.boxes[id], c, Go(me, id in chosen, NoReply))
  {
    hide Do;
  }

  /** So is the SELECT that follows, on the rows the sweep has passed over. */
  lemma SelectIsTheMachines(t: Table, c: Config, me: Token, swept: set<nat>)
    requires swept <= t.boxes.Keys
    requires forall id :: id in swept ==> me in t.boxes[id].tasks && t.boxes[id].tasks[me] == SweepSelect
    ensures
      DoTable(t, c, OnRows(AllGo(swept, me, {})))
      == t.(boxes := map id | id in t.boxes ::
              if id in swept then Goto(t.boxes[id], me, if HeldBy(t.boxes[id].row, me) then Read else Task.Done)
              else t.boxes[id])
  {
  }

  /** One task run on the outbox.  `table` is all rows with the clock and where every task run stands. */
  class PayoutCallbackOutbox {
    const me: Token
    const config: Config
    ghost const start: int
    ghost const from: nat
    var table: Table
    ghost var trace: seq<Statement>

    ghost predicate Valid()
      reads this
    {
      && ValidConfig(config)
      && table == RunTable(Empty(start), config, trace)
      && KeepsToProgram(trace, from, me)
    }

    ghost function At(id: nat): Option<Task>
      reads this
    {
      Place(table, id, me)
    }

    /** A task run starts on whatever was done before it; its token is its own. */
    constructor (me: Token, config: Config, table: Table, ghost start: int, ghost before: seq<Statement>)
      requires ValidConfig(config) && table == RunTable(Empty(start), config, before)
      requires forall id :: Place(table, id, me).None?
      ensures Valid() && this.me == me && this.config == config
      ensures forall id :: At(id).None?
    {
      this.me, this.config, this.start := me, config, start;
      this.table, this.trace, this.from := table, before, |before|;
    }

    /** Any number of statements of other task runs, inserts, and any time. */
    method Yield()
      requires Valid()
      modifies this`table, this`trace
      ensures Valid() && SamePlaces(old(table), table, me)
    {
      hide RunTable, DoTable, KeepsToProgram, Others, SamePlaces;
      NothingMoved(table, me);
      var others: seq<Statement> := *;
      if Others(others, me) {
        OthersKeep(table, config, others, me);
        OthersKeepProgram(trace, others, from, me);
        RunTableConcat(Empty(start), config, trace, others);
        table := RunTable(table, config, others);
        trace := trace + others;
      }
    }

    ghost method Record(s: Statement, was: Table)
      requires ValidConfig(config) && was == RunTable(Empty(start), config, trace) && KeepsToProgram(trace, from, me)
      requires table == DoTable(was, config, s)
      requires s.OnRows? ==> forall id :: id in s.steps ==> !s.steps[id].Crash?
      modifies this`trace
      ensures Valid()
    {
      hide RunTable, DoTable, ValidConfig;
      RunTableOn(Empty(start), config, trace, s);
      trace := trace + [s];
    }

    /** Every row of the table has what the machine's invariant gives it. */
    lemma RowsAreKnown(id: nat)
      requires Valid() && id in table.boxes
      ensures table.boxes[id].row.status.Dispatching? ==> table.boxes[id].row.claimedAt.Some?
      ensures table.boxes[id].now == table.now
    {
      EveryRowIsCounted(start, config, trace, id);
      var _, _ := RowIsARun(start, config, trace, id);
    }

    /** Insert a callback under a fresh id. */
    method CreatePayoutCallback() returns (id: nat)
      requires Valid()
      modifies this`table, this`trace
      ensures Valid() && SamePlaces(old(table), table, me)
      ensures id !in old(table).boxes && id in table.boxes
      ensures table.boxes[id].row == Row(Pending, 0, Some(table.now), None, None, table.now)
    {
      hide RunTable;
      Yield();
      id := FreshId(table.boxes.Keys);
      ghost var was := table;
      table := table.(boxes := table.boxes[id := Fresh(table.now)]);
      Record(Insert(id), was);
    }

    method FreshId(used: set<nat>) returns (id: nat)
      ensures id !in used
    {
      id := 0;
      ghost var left := used;
      while id in used
        invariant left <= used && forall k :: k in used && k >= id ==> k in left
        decreases left
      {
        left := left - {id};
        id := id + 1;
      }
    }

    /** Record a step of this task run on one row. */
    ghost method RecordOnRow(id: nat, a: Action, was: Table)
      requires ValidConfig(config) && was == RunTable(Empty(start), config, trace) && KeepsToProgram(trace, from, me)
      requires id in was.boxes && !a.Tick? && !a.Crash?
      requires table == was.(boxes := was.boxes[id := Do(was.boxes[id], config, a)])
      modifies this`trace
      ensures Valid()
    {
      hide Do, RunTable, DoTable;
      OnOneRow(was, config, id, a);
      Record(OnRows(map[id := a]), was);
    }

    /** Turn to a row. */
    method Begin(id: nat)
      requires Valid() && id in table.boxes && At(id).None?
      modifies this`table, this`trace
      ensures Valid() && At(id) == Some(Read) && PlacesBut(old(table), table, me, id)
    {
      hide RunTable, DoTable, KeepsToProgram;
      ghost var was := table;
      table := table.(boxes := table.boxes[id := Goto(table.boxes[id], me, Read)]);
      RecordOnRow(id, Start(me, false), was);
    }

    /** A SELECT of one row. */
    method SelectRow(id: nat) returns (row: Row)
      requires Valid() && (At(id) == Some(Read) || At(id) == Some(ClaimRead))
      modifies this`table, this`trace
      ensures Valid() && PlacesBut(old(table), table, me, id)
      ensures id in table.boxes && row == table.boxes[id].row
      ensures row.status.Dispatching? ==> row.claimedAt.Some?
      ensures
        At(id) == Some(AfterRead(
          row, me, if old(At(id)) == Some(Read) && row.status.Pending? then Claim else Task.Done))
    {
      hide RunTable, DoTable, KeepsToProgram, Recorded, Claimed, Claimable;
      Yield();
      RowsAreKnown(id);
      ghost var was := table;
      var box := table.boxes[id];
      row := box.row;
      var otherwise := if box.tasks[me].Read? && row.status.Pending? then Claim else Task.Done;
      table := table.(boxes := table.boxes[id := Goto(box, me, AfterRead(row, me, otherwise))]);
      RecordOnRow(id, Go(me, true, NoReply), was);
    }

    /** The claiming UPDATE of the row `found` it meets: it takes effect exactly if the row is due, or its claim
        has expired, and attempts are left. */
    method ClaimRow(id: nat) returns (ghost found: Row)
      requires Valid() && At(id) == Some(Claim)
      modifies this`table, this`trace
      ensures Valid() && At(id) == Some(ClaimRead) && PlacesBut(old(table), table, me, id)
      ensures id in table.boxes
      ensures
        table.boxes[id].row
        == if found.attempts < config.maxAttempts
              && ((found.status == Pending
                   && (found.nextAttemptAt == None || found.nextAttemptAt.value <= table.now))
                  || (found.status == Dispatching && found.claimedAt != None
                      && found.claimedAt.value + config.claimTtl <= table.now))
           then found.(status := Dispatching, claimedAt := Some(table.now), claimToken := Some(me))
           else found
    {
      hide RunTable, DoTable, KeepsToProgram, Recorded;
      Yield();
      RowsAreKnown(id);
      ghost var was := table;
      var box := table.boxes[id];
      found := box.row;
      if Claimable(box.row, config, box.now) {
        var reclaims := box.reclaims + if box.row.status.Dispatching? then 1 else 0;
        box := box.(row := Claimed(box.row, me, box.now), claims := box.claims + 1, reclaims := reclaims,
                    claimants := box.claimants + {me});
      }
      table := table.(boxes := table.boxes[id := Goto(box, me, ClaimRead)]);
      RecordOnRow(id, Go(me, true, NoReply), was);
    }

    /** The POST: a 2xx is a delivery; any other reply, or none, is to be tried again while attempts are left. */
    method Post(id: nat, row: Row, reply: Reply) returns (status: Status)
      requires Valid() && row.claimedAt.Some? && At(id) == Some(Posting(row.attempts, row.claimedAt.value))
      modifies this`table, this`trace
      ensures Valid() && At(id) == Some(Recording(status, row.claimedAt.value))
      ensures PlacesBut(old(table), table, me, id)
      ensures status.Sent? <==> reply.Status? && 200 <= reply.http <= 299
      ensures status.Failed? <==> !status.Sent? && row.attempts + 1 >= config.maxAttempts
      ensures status.Pending? <==> !status.Sent? && row.attempts + 1 < config.maxAttempts
    {
      hide RunTable, DoTable, KeepsToProgram, Recorded, Claimed, Claimable;
      ghost var was := table;
      var box := table.boxes[id];
      box := box.(posts := box.posts + 1, heard := box.heard[me := reply]);
      if reply.NoReply? {
        status := if row.attempts + 1 >= config.maxAttempts then Failed else Pending;
      } else {
        var sent := 200 <= reply.http < 300;
        status := if sent then Sent else if row.attempts + 1 >= config.maxAttempts then Failed else Pending;
        if sent {
          box := box.(successes := box.successes + 1);
        }
      }
      table := table.(boxes := table.boxes[id := Goto(box, me, Recording(status, row.claimedAt.value))]);
      RecordOnRow(id, Go(me, true, reply), was);
    }

    /** The recording UPDATE of the row `found` it meets, which counts only while the claim is still held: a row
        to be tried again is due `retryDelay` seconds later. */
    method UpdateAfterAttempt(id: nat, status: Status) returns (ghost found: Row)
      requires Valid() && At(id).Some? && At(id).value.Recording? && At(id).value.status == status
      modifies this`table, this`trace
      ensures Valid() && At(id) == Some(Task.Done) && PlacesBut(old(table), table, me, id)
      ensures id in table.boxes
      ensures
        table.boxes[id].row
        == if found.status == Dispatching && found.claimToken == Some(me) then
             found.(status := status, attempts := found.attempts + 1,
                    nextAttemptAt := if status == Pending then Some(table.now + config.retryDelay) else None,
                    claimedAt := None, claimToken := None)
           else found
    {
      hide RunTable, DoTable, KeepsToProgram, Claimed, Claimable;
      Yield();
      RowsAreKnown(id);
      ghost var was := table;
      var box := table.boxes[id];
      found := box.row;
      if HeldBy(box.row, me) {
        box := box.(row := Recorded(box.row, status, config, box.now), settled := box.settled + {box.claims},
                    recorders := box.recorders + {me});
      }
      table := table.(boxes := table.boxes[id := Goto(box, me, Task.Done)]);
      RecordOnRow(id, Go(me, true, NoReply), was);
    }

    /** One `dispatch_payout_callback` of a row this task run has turned to: every statement is the machine's
        next step on that row, to the end, and no other row is touched by it. */
    method DispatchRow(id: nat, reply: Reply) returns (row: Row)
      requires Valid() && At(id) == Some(Read)
      modifies this`table, this`trace
      ensures Valid() && At(id) == Some(Task.Done) && PlacesBut(old(table), table, me, id)
    {
      hide PayoutCallbackOutbox.Valid, Place, Claimable;
      row := SelectRow(id);
      if row.status.Sent? {
        return;
      }
      if row.status.Failed? {
        return;
      }
      if row.status.Dispatching? {
        if row.claimToken != Some(me) {
          return;
        }
      } else {
        var _ := ClaimRow(id);
        row := SelectRow(id);
        if !row.status.Dispatching? || row.claimToken != Some(me) {
          return;
        }
      }
      var status := Post(id, row, reply);
      var _ := UpdateAfterAttempt(id, status);
    }

    /** The task for a single callback; a row that does not exist is not dispatched. */
    method Dispatch(id: nat, reply: Reply) returns (row: Option<Row>)
      requires Valid() && At(id).None?
      modifies this`table, this`trace
      ensures Valid() && PlacesBut(old(table), table, me, id)
      ensures At(id).None? || At(id) == Some(Task.Done)
    {
      Yield();
      if id !in table.boxes {
        return None;
      }
      Begin(id);
      var read := DispatchRow(id, reply);
      row := Some(read);
    }

    /** Of the rows in `candidates`, the first in sweep order. */
    method FirstDue(boxes: map<nat, Box>, candidates: set<nat>) returns (first: nat)
      requires candidates != {} && candidates <= boxes.Keys
      ensures first in candidates
      ensures forall id :: id in candidates && id != first ==>
                Before(boxes[first].row, first, boxes[id].row, id)
    {
      first :| first in candidates;
      var left := candidates - {first};
      while left != {}
        invariant first in candidates && left <= candidates
        invariant forall id :: id in candidates && id !in left && id != first ==>
                    Before(boxes[first].row, first, boxes[id].row, id)
        decreases left
      {
        var next :| next in left;
        left := left - {next};
        if Before(boxes[next].row, next, boxes[first].row, first) {
          first := next;
        }
      }
    }

    /** The rows a sweep picks: every claimable row if they fit in the limit, otherwise the earliest ones. */
    method PickDue(t: Table, limit: nat) returns (chosen: set<nat>)
      ensures ChosenBySweep(t, config, limit, chosen)
    {
      var boxes := t.boxes;
      var due := set id | id in boxes && Claimable(boxes[id].row, config, boxes[id].now);
      chosen := {};
      while due != {} && |chosen| < limit
        invariant due <= boxes.Keys && chosen <= boxes.Keys && due !! chosen
        invariant forall id :: id in boxes ==>
                    (id in due || id in chosen <==> Claimable(boxes[id].row, config, boxes[id].now))
        invariant forall id, k :: id in due && k in chosen ==> Before(boxes[k].row, k, boxes[id].row, id)
        invariant |chosen| <= limit
        decreases due
      {
        var first := FirstDue(boxes, due);
        due := due - {first};
        chosen := chosen + {first};
      }
    }

    /** The claiming UPDATE of a sweep, one statement over the table `found` it meets: the rows picked are
        claimed, and every other row is left as it is. */
    method ClaimDue(limit: nat) returns (ghost found: Table, chosen: set<nat>)
      requires Valid() && forall id :: At(id).None?
      modifies this`table, this`trace
      ensures Valid() && old(table).boxes.Keys <= found.boxes.Keys == table.boxes.Keys
      ensures ChosenBySweep(found, config, limit, chosen)
      ensures forall id :: id in found.boxes ==>
                && At(id) == Some(SweepSelect)
                && table.boxes[id].row
                   == if id in chosen then
                        found.boxes[id].row.(
                          status := Dispatching, claimedAt := Some(table.now), claimToken := Some(me))
                      else found.boxes[id].row
    {
      hide RunTable, DoTable, KeepsToProgram, Recorded, Claimable;
      forall id
        ensures Place(table, id, me).None?
      {
        assert At(id).None?;
      }
      Yield();
      found := table;
      forall id | id in table.boxes
        ensures table.boxes[id].now == table.now
      {
        RowsAreKnown(id);
      }
      chosen := PickDue(table, limit);
      table := table.(boxes := map id | id in table.boxes ::
        var box := table.boxes[id];
        var claimed := if id in chosen then
            box.(row := Claimed(box.row, me, box.now), claims := box.claims + 1,
                 reclaims := box.reclaims + (if box.row.status.Dispatching? then 1 else 0),
                 claimants := box.claimants + {me})
          else box;
        claimed.(tasks := box.tasks[me := SweepSelect]));
      RecordSweep(found, chosen);
    }

    ghost method RecordSweep(was: Table, chosen: set<nat>)
      requires ValidConfig(config) && was == RunTable(Empty(start), config, trace) && KeepsToProgram(trace, from, me)
      requires forall id :: Place(was, id, me).None?
      requires table.now == was.now && table.boxes.Keys == was.boxes.Keys
      requires forall id :: id in was.boxes ==> table.boxes[id] == SweptBox(was.boxes[id], config, me, id in chosen)
      modifies this`trace
      ensures Valid()
    {
      hide RunTable, DoTable, SweptBox;
      forall id | id in was.boxes
        ensures me !in was.boxes[id].tasks
      {
        assert Place(was, id, me).None?;
      }
      SweepIsTheMachines(was, config, me, chosen);
      var starts, gos := OnRows(AllStart(was.boxes.Keys, me)), OnRows(AllGo(was.boxes.Keys, me, chosen));
      assert table.boxes == map id | id in was.boxes :: SweptBox(was.boxes[id], config, me, id in chosen);
      RunTableOn(Empty(start), config, trace, starts);
      RunTableOn(Empty(start), config, trace + [starts], gos);
      trace := trace + [starts] + [gos];
    }

    /** The SELECT after a sweep's UPDATE: the rows that are still held under this token. */
    method SelectClaimed() returns (mine: set<nat>)
      requires Valid() && forall id :: At(id).None? || At(id) == Some(SweepSelect)
      modifies this`table, this`trace
      ensures Valid()
      ensures forall id :: id in mine ==> At(id) == Some(Read)
      ensures forall id :: id !in mine ==> At(id).None? || At(id) == Some(Task.Done)
    {
      hide RunTable, DoTable, KeepsToProgram, Recorded, Claimable;
      forall id
        ensures Place(table, id, me).None? || Place(table, id, me) == Some(SweepSelect)
      {
        assert At(id).None? || At(id) == Some(SweepSelect);
      }
      Yield();
      ghost var was := table;
      var swept := set id | id in table.boxes && me in table.boxes[id].tasks;
      forall id | id in swept
        ensures was.boxes[id].tasks[me] == SweepSelect
      {
        assert Place(was, id, me) == Some(SweepSelect);
      }
      mine := set id | id in swept && HeldBy(table.boxes[id].row, me);
      table := table.(boxes := map id | id in table.boxes ::
        if id in swept then Goto(table.boxes[id], me, if id in mine then Read else Task.Done) else table.boxes[id]);
      SelectIsTheMachines(was, config, me, swept);
      Record(OnRows(AllGo(swept, me, {})), was);
    }

    /** A whole sweep: claim what is due, read back what is held, and dispatch each of those rows. */
    method Sweep(limit: nat, replies: map<nat, Reply>)
      requires Valid() && forall id :: At(id).None?
      modifies this`table, this`trace
      ensures Valid() && forall id :: At(id).None? || At(id) == Some(Task.Done)
    {
      hide PayoutCallbackOutbox.Valid, ChosenBySweep, Claimable, Claimed;
      var chosen := ClaimAll(limit);
      var left := SelectClaimed();
      while left != {}
        invariant Valid()
        invariant forall id :: id in left ==> At(id) == Some(Read)
        invariant forall id :: id !in left ==> At(id).None? || At(id) == Some(Task.Done)
        decreases left
      {
        var id :| id in left;
        left := left - {id};
        ghost var was := table;
        forall k
          ensures Place(was, k, me) == At(k)
        {
        }
        var row := DispatchRow(id, if id in replies then replies[id] else NoReply);
        forall k | k != id
          ensures At(k) == Place(was, k, me)
        {
        }
      }
    }

    method ClaimAll(limit: nat) returns (chosen: set<nat>)
      requires Valid() && forall id :: At(id).None?
      modifies this`table, this`trace
      ensures Valid() && forall id :: At(id).None? || At(id) == Some(SweepSelect)
    {
      ghost var found: Table;
      found, chosen := ClaimDue(limit);
    }
  }
}
