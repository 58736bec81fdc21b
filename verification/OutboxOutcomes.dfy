/** What single dispatches come to, column by column, and what the replies say that led there. */
module OutboxOutcomes {
  import opened Options
  import opened Outbox
  import opened OutboxProtocol

  /** The callback was delivered by a POST with this reply. */
  predicate Delivers(reply: Reply) {
    reply.Status? && 200 <= reply.http <= 299
  }

  function Deliveries(heard: map<Token, Reply>): set<Token> {
    set t | t in heard && Delivers(heard[t])
  }

  /** What is about to be recorded, and what is on record, is what the replies call for. */
  predicate ReplyInv(b: Box) {
    && (forall t :: t in b.tasks && b.tasks[t].Recording? ==>
          t in b.heard && (b.tasks[t].status.Sent? <==> Delivers(b.heard[t])))
    && b.recorders <= b.heard.Keys
    && (b.row.status.Sent? <==> exists t :: t in b.recorders && Delivers(b.heard[t]))
    && b.successes == |Deliveries(b.heard)|
  }

  lemma HearingCounts(heard: map<Token, Reply>, t: Token, reply: Reply)
    requires t !in heard
    ensures |Deliveries(heard[t := reply])| == |Deliveries(heard)| + if Delivers(reply) then 1 else 0
  {
    var after := Deliveries(heard[t := reply]);
    if Delivers(reply) {
      assert after == Deliveries(heard) + {t};
    } else {
      assert after == Deliveries(heard);
    }
  }

  lemma PostKeepsReplies(b: Box, c: Config, t: Token, picked: bool, reply: Reply)
    requires HistoryInv(b) && ReplyInv(b) && t in b.tasks && b.tasks[t].Posting?
    ensures ReplyInv(Step(b, c, t, picked, reply))
  {
    HearingCounts(b.heard, t, reply);
    hide Deliveries;
    var b' := Step(b, c, t, picked, reply);
    forall u | u in b.recorders
      ensures b'.heard[u] == b.heard[u]
    {
    }
  }

  lemma RecordKeepsReplies(b: Box, c: Config, t: Token)
    requires HistoryInv(b) && ReplyInv(b) && t in b.tasks && b.tasks[t].Recording?
    ensures ReplyInv(Goto(TryRecord(b, c, t, b.tasks[t].status), t, Task.Done))
  {
    hide Deliveries, Delivers;
    var b' := Goto(TryRecord(b, c, t, b.tasks[t].status), t, Task.Done);
    if HeldBy(b.row, t) && b.tasks[t].status.Sent? {
      assert t in b'.recorders && Delivers(b'.heard[t]);
    }
  }

  lemma StepKeepsReplies(b: Box, c: Config, t: Token, picked: bool, reply: Reply)
    requires HistoryInv(b) && ReplyInv(b) && t in b.tasks
    ensures ReplyInv(Step(b, c, t, picked, reply))
  {
    hide Deliveries, Delivers, HistoryInv;
    match b.tasks[t]
    case Posting(_, _) => PostKeepsReplies(b, c, t, picked, reply);
    case Recording(_, _) => RecordKeepsReplies(b, c, t);
    case _ =>
  }

  lemma {:induction false} RunKeepsReplies(start: int, c: Config, actions: seq<Action>)
    ensures ReplyInv(Run(Fresh(start), c, actions)) && HistoryInv(Run(Fresh(start), c, actions))
  {
    RunKeepsHistory(start, c, actions);
    if actions != [] {
      hide HistoryInv;
      var earlier, a := actions[..|actions| - 1], actions[|actions| - 1];
      RunKeepsReplies(start, c, earlier);
      if a.Go? && a.token in Run(Fresh(start), c, earlier).tasks {
        StepKeepsReplies(Run(Fresh(start), c, earlier), c, a.token, a.picked, a.reply);
      }
      hide Step, Deliveries, Delivers;
    }
  }

  /** A row is SENT exactly if a recorded POST was answered with a 2xx, a FAILED one counts as many recorded POSTs
      as attempts are allowed, none of them answered so, and the 2xx replies are those counted. */
  lemma SentMeansDelivered(start: int, c: Config, actions: seq<Action>)
    requires ValidConfig(c)
    ensures
      var b := Run(Fresh(start), c, actions);
      && b.recorders <= b.heard.Keys && |b.recorders| == b.row.attempts
      && (b.row.status.Sent? <==>
            exists t :: t in b.recorders && b.heard[t].Status? && 200 <= b.heard[t].http <= 299)
      && (b.row.status.Failed? ==> |b.recorders| == c.maxAttempts)
      && b.successes == |set t | t in b.heard && b.heard[t].Status? && 200 <= b.heard[t].http <= 299|
  {
    RunKeepsReplies(start, c, actions);
    AttemptsAreCounted(start, c, actions);
    var b := Run(Fresh(start), c, actions);
    hide HistoryInv, Run;
    assert |b.recorders| == b.row.attempts by { RecordersAreAttempts(b); }
    assert Deliveries(b.heard) == set t | t in b.heard && b.heard[t].Status? && 200 <= b.heard[t].http <= 299;
  }

  lemma RecordersAreAttempts(b: Box)
    requires HistoryInv(b)
    ensures |b.recorders| == b.row.attempts
  {
  }

  /** Task run `t` goes from reading the row to recording the result, and nobody else does anything. */
  function Dispatched(b: Box, c: Config, t: Token, reply: Reply): Box {
    var go := Go(t, true, reply);
    Do(Do(Do(Do(Do(b, c, go), c, go), c, go), c, go), c, go)
  }

  /** An undisturbed dispatch of a due row counts one attempt: it ends SENT on a 2xx, else FAILED at the last
      attempt allowed, else PENDING and due again after the retry delay. */
  lemma UndisturbedDispatch(b: Box, c: Config, t: Token, reply: Reply)
    requires t in b.tasks && b.tasks[t].Read?
    requires b.row.status.Pending? && b.row.attempts < c.maxAttempts
    requires b.row.nextAttemptAt == None || b.row.nextAttemptAt.value <= b.now
    ensures
      var b' := Dispatched(b, c, t, reply);
      var delivered := reply.Status? && 200 <= reply.http <= 299;
      var again := !delivered && b.row.attempts + 1 < c.maxAttempts;
      && b'.tasks == b.tasks[t := Task.Done] && b'.now == b.now && b'.posts == b.posts + 1
      && b'.row == b.row.(
           status := if delivered then Sent else if again then Pending else Failed,
           attempts := b.row.attempts + 1,
           nextAttemptAt := if again then Some(b.now + c.retryDelay) else None,
           claimedAt := None, claimToken := None)
  {
    var go := Go(t, true, reply);
    var claimed := Do(Do(b, c, go), c, go);
    assert claimed.row == Claimed(b.row, t, b.now) && claimed.tasks[t] == ClaimRead && claimed.posts == b.posts;
    assert claimed.tasks == b.tasks[t := ClaimRead] && claimed.now == b.now;
    PostsAndRecords(claimed, c, t, reply);
  }

  lemma PostsAndRecords(b: Box, c: Config, t: Token, reply: Reply)
    requires t in b.tasks && b.tasks[t].ClaimRead? && HeldBy(b.row, t) && b.row.claimedAt.Some?
    ensures
      var go := Go(t, true, reply);
      var b' := Do(Do(Do(b, c, go), c, go), c, go);
      var delivered := reply.Status? && 200 <= reply.http <= 299;
      var again := !delivered && b.row.attempts + 1 < c.maxAttempts;
      && b'.tasks == b.tasks[t := Task.Done] && b'.now == b.now && b'.posts == b.posts + 1
      && b'.row == b.row.(
           status := if delivered then Sent else if again then Pending else Failed,
           attempts := b.row.attempts + 1,
           nextAttemptAt := if again then Some(b.now + c.retryDelay) else None,
           claimedAt := None, claimToken := None)
  {
    var go := Go(t, true, reply);
    var read := Do(b, c, go);
    assert read.tasks == b.tasks[t := Posting(b.row.attempts, b.row.claimedAt.value)] && read.row == b.row;
    var posted := Do(read, c, go);
    assert posted.row == b.row && posted.tasks[t].Recording?;
  }

  /** A dispatch of a row that is not due, or in someone else's hands, or finished, ends without a POST and leaves
      the row alone. */
  lemma UndueIsLeftAlone(b: Box, c: Config, t: Token, reply: Reply)
    requires t in b.tasks && b.tasks[t].Read? && !(b.row.status.Dispatching? && b.row.claimToken == Some(t))
    requires
      b.row.status.Pending? ==>
        b.row.attempts >= c.maxAttempts || (b.row.nextAttemptAt.Some? && b.row.nextAttemptAt.value > b.now)
    ensures
      var b' := Dispatched(b, c, t, reply);
      b'.row == b.row && b'.posts == b.posts && b'.tasks == b.tasks[t := Task.Done]
  {
    var go := Go(t, true, reply);
    var b1 := Do(b, c, go);
    assert b1.row == b.row && b1.tasks == b.tasks[t := if b.row.status.Pending? then Claim else Task.Done];
    var b3 := Do(Do(b1, c, go), c, go);
    assert b3.row == b.row && b3.posts == b.posts && b3.tasks == b.tasks[t := Task.Done];
  }

  /** A row recorded to be tried again can be claimed from the retry delay on, and not before. */
  lemma RetryIsDue(start: int, c: Config, actions: seq<Action>, t: Token, picked: bool, reply: Reply, later: int)
    requires ValidConfig(c)
    requires
      var b := Run(Fresh(start), c, actions);
      && t in b.tasks && b.tasks[t].Recording? && b.tasks[t].status.Pending?
      && b.row.status.Dispatching? && b.row.claimToken == Some(t)
    ensures
      var b := Run(Fresh(start), c, actions);
      Claimable(Step(b, c, t, picked, reply).row, c, later) <==> later >= b.now + c.retryDelay
  {
    RunKeepsInv(Fresh(start), c, actions);
    var b := Run(Fresh(start), c, actions);
    assert TaskInv(b, t, b.tasks[t], c);
    hide Run, Inv;
  }

  /** A sweep takes rows by their next attempt, or by their creation if none is set, and then by their id. */
  lemma SweepOrder(a: Row, i: nat, b: Row, j: nat)
    ensures
      var due := (row: Row) => if row.nextAttemptAt.Some? then row.nextAttemptAt.value else row.createdAt;
      Before(a, i, b, j) <==> due(a) < due(b) || (due(a) == due(b) && i < j)
  {
  }
}
