/** When dispatchers keep to the claim time-to-live, deliveries of a row exclude each other. */
module OutboxTiming {
  import opened Options
  import opened Outbox
  import opened OutboxProtocol

  /** Every task that has begun to POST and not yet recorded is within `bound` seconds of its claim. */
  predicate WithinBound(b: Box, bound: int) {
    forall t :: t in b.tasks && InFlight(b.tasks[t]) ==> b.now < b.tasks[t].since + bound
  }

  /** A run in which each dispatcher that begins a delivery records its result less than `bound` seconds
      after its claim: it is never later than that while it is in flight, and it does not crash. */
  predicate TimelyRun(b: Box, c: Config, actions: seq<Action>, bound: int) {
    if actions == [] then WithinBound(b, bound)
    else
      var earlier, a := actions[..|actions| - 1], actions[|actions| - 1];
      && TimelyRun(b, c, earlier, bound)
      && WithinBound(Run(b, c, actions), bound)
      && (a.Crash? ==> a.token !in Run(b, c, earlier).tasks || !InFlight(Run(b, c, earlier).tasks[a.token]))
  }

  /** A task in flight still holds the claim it works under. */
  predicate Exclusive(b: Box) {
    && (forall t :: t in b.tasks && InFlight(b.tasks[t]) ==>
          HeldBy(b.row, t) && b.row.claimedAt == Some(b.tasks[t].since))
    && b.successes <= 1
    && (b.successes == 1 ==>
          b.row.status.Sent? || exists t :: t in b.tasks && b.tasks[t].Recording? && b.tasks[t].status.Sent?)
    && (forall t :: t in b.tasks && b.tasks[t].Recording? && b.tasks[t].status.Sent? ==> b.successes == 1)
  }

  lemma DoKeepsExclusive(b: Box, c: Config, a: Action)
    requires Exclusive(b) && WithinBound(b, c.claimTtl)
    requires a.Crash? ==> a.token !in b.tasks || !InFlight(b.tasks[a.token])
    ensures Exclusive(Do(b, c, a))
  {
    var b' := Do(b, c, a);
    if a.Go? && a.token in b.tasks {
      GoKeepsExclusive(b, c, a.token, a.picked, a.reply);
    } else if b.successes == 1 && !b.row.status.Sent? {
      var t :| t in b.tasks && b.tasks[t].Recording? && b.tasks[t].status.Sent?;
      assert t in b'.tasks && b'.tasks[t] == b.tasks[t];
    }
  }

  lemma GoKeepsExclusive(b: Box, c: Config, t: Token, picked: bool, reply: Reply)
    requires Exclusive(b) && WithinBound(b, c.claimTtl) && t in b.tasks
    ensures Exclusive(Step(b, c, t, picked, reply))
  {
    var b' := Step(b, c, t, picked, reply);
    if b.successes == 1 && !b.row.status.Sent? {
      var u :| u in b.tasks && b.tasks[u].Recording? && b.tasks[u].status.Sent?;
      if u != t {
        assert b'.tasks[u] == b.tasks[u];
      }
    }
    if b.tasks[t].Posting? && IsSuccess(reply) {
      assert b'.tasks[t].Recording? && b'.tasks[t].status.Sent?;
    }
  }

  lemma {:induction false} TimelyRunIsExclusive(b: Box, c: Config, actions: seq<Action>)
    requires Exclusive(b) && TimelyRun(b, c, actions, c.claimTtl)
    ensures Exclusive(Run(b, c, actions)) && WithinBound(Run(b, c, actions), c.claimTtl)
  {
    hide Do, Exclusive;
    if actions != [] {
      TimelyRunIsExclusive(b, c, actions[..|actions| - 1]);
      DoKeepsExclusive(Run(b, c, actions[..|actions| - 1]), c, actions[|actions| - 1]);
    }
  }

  /** In a timely run no two deliveries of the row overlap, and at most one 2xx is ever received. */
  lemma TimelyDeliveriesExclude(start: int, c: Config, actions: seq<Action>, t: Token, u: Token)
    requires ValidConfig(c) && TimelyRun(Fresh(start), c, actions, c.claimTtl)
    ensures
      var b := Run(Fresh(start), c, actions);
      && b.successes <= 1
      && (t in b.tasks && u in b.tasks && InFlight(b.tasks[t]) && InFlight(b.tasks[u]) ==> t == u)
  {
    TimelyRunIsExclusive(Fresh(start), c, actions);
  }

  lemma {:induction false} ShorterBoundIsTimely(b: Box, c: Config, actions: seq<Action>, bound: int, longer: int)
    requires bound <= longer && TimelyRun(b, c, actions, bound)
    ensures TimelyRun(b, c, actions, longer)
  {
    if actions != [] {
      ShorterBoundIsTimely(b, c, actions[..|actions| - 1], bound, longer);
    }
  }

  /** So, with the settings the validator accepts, the HTTP timeout is a sufficient bound on a whole
      claim-to-record stretch. */
  lemma TimeoutBoundExcludes(start: int, c: Config, actions: seq<Action>, t: Token, u: Token)
    requires ValidConfig(c) && TimelyRun(Fresh(start), c, actions, c.timeout + 1)
    ensures
      var b := Run(Fresh(start), c, actions);
      && b.successes <= 1
      && (t in b.tasks && u in b.tasks && InFlight(b.tasks[t]) && InFlight(b.tasks[u]) ==> t == u)
  {
    ShorterBoundIsTimely(Fresh(start), c, actions, c.timeout + 1, c.claimTtl);
    TimelyDeliveriesExclude(start, c, actions, t, u);
  }

  lemma RunThen(b: Box, c: Config, actions: seq<Action>, a: Action)
    ensures Run(b, c, actions + [a]) == Do(Run(b, c, actions), c, a)
  {
    assert (actions + [a])[..|actions + [a]| - 1] == actions;
  }

  const OK := Reply.Status(200)

  /** Run on from `b`: one more action at the front. */
  lemma {:induction false} RunFrom(b: Box, c: Config, a: Action, actions: seq<Action>)
    ensures Run(b, c, [a] + actions) == Run(Do(b, c, a), c, actions)
  {
    hide Do;
    if actions == [] {
      assert [a] + actions == [a];
    } else {
      RunFrom(b, c, a, actions[..|actions| - 1]);
      assert ([a] + actions)[..|actions|] == [a] + actions[..|actions| - 1];
    }
  }

  predicate CrashFree(actions: seq<Action>) {
    forall a :: a in actions ==> !a.Crash?
  }

  /** A dispatcher that reaches its time-to-live can be overtaken by a sweep. */
  lemma LateDispatcherIsOvertaken(c: Config) returns (actions: seq<Action>)
    requires ValidConfig(c)
    ensures CrashFree(actions)
    ensures
      var b := Run(Fresh(0), c, actions);
      && 1 in b.tasks && 2 in b.tasks && b.tasks[1] == Posting(0, 0) && b.tasks[2] == Posting(0, c.claimTtl)
      && b.successes == 0 && b.now == c.claimTtl
  {
    hide Run;
    var b0 := Fresh(0);
    var b1 := Do(b0, c, Start(1, false));
    var b2 := Do(b1, c, Go(1, true, OK));
    var b3 := Do(b2, c, Go(1, true, OK));
    var b4 := Do(b3, c, Go(1, true, OK));
    assert b4.tasks == map[1 := Posting(0, 0)];
    var rest := SweepOvertakes(b4, c);
    RunFrom(b3, c, Go(1, true, OK), rest);
    RunFrom(b2, c, Go(1, true, OK), [Go(1, true, OK)] + rest);
    RunFrom(b1, c, Go(1, true, OK), [Go(1, true, OK)] + ([Go(1, true, OK)] + rest));
    actions := [Start(1, false)] + ([Go(1, true, OK)] + ([Go(1, true, OK)] + ([Go(1, true, OK)] + rest)));
    RunFrom(b0, c, Start(1, false), [Go(1, true, OK)] + ([Go(1, true, OK)] + ([Go(1, true, OK)] + rest)));
  }

  function SweepClaims(b: Box, c: Config): Box {
    Do(Do(Do(b, c, Tick(c.claimTtl)), c, Start(2, true)), c, Go(2, true, OK))
  }

  function SweepReads(b: Box, c: Config): Box {
    Do(Do(b, c, Go(2, true, OK)), c, Go(2, true, OK))
  }

  lemma SweepHolds(b: Box, c: Config)
    requires ValidConfig(c)
    requires b.tasks == map[1 := Posting(0, 0)] && b.successes == 0 && b.now == 0
    requires b.row.status.Dispatching? && b.row.claimedAt == Some(0) && b.row.attempts == 0
    ensures
      var b' := SweepClaims(b, c);
      && b'.tasks == map[1 := Posting(0, 0), 2 := SweepSelect] && b'.successes == 0
      && HeldBy(b'.row, 2) && b'.row.claimedAt == Some(c.claimTtl) && b'.row.attempts == 0
      && b'.now == c.claimTtl
  {
  }

  lemma SweepPosts(b: Box, c: Config)
    requires b.tasks == map[1 := Posting(0, 0), 2 := SweepSelect] && b.successes == 0
    requires HeldBy(b.row, 2) && b.row.claimedAt == Some(c.claimTtl) && b.row.attempts == 0
    ensures
      var b' := SweepReads(b, c);
      b'.tasks == map[1 := Posting(0, 0), 2 := Posting(0, c.claimTtl)] && b'.successes == 0 && b'.now == b.now
  {
  }

  lemma SweepOvertakes(b: Box, c: Config) returns (actions: seq<Action>)
    requires ValidConfig(c)
    requires b.tasks == map[1 := Posting(0, 0)] && b.successes == 0 && b.now == 0
    requires b.row.status.Dispatching? && b.row.claimedAt == Some(0) && b.row.attempts == 0
    ensures CrashFree(actions)
    ensures
      var b' := Run(b, c, actions);
      && 1 in b'.tasks && 2 in b'.tasks && b'.tasks[1] == Posting(0, 0) && b'.tasks[2] == Posting(0, c.claimTtl)
      && b'.successes == 0 && b'.now == c.claimTtl
  {
    SweepHolds(b, c);
    SweepPosts(SweepClaims(b, c), c);
    assert Run(SweepReads(SweepClaims(b, c), c), c, []) == SweepReads(SweepClaims(b, c), c);
    hide Do, Run;
    var go := Go(2, true, OK);
    var b1 := Do(b, c, Tick(c.claimTtl));
    var b2 := Do(b1, c, Start(2, true));
    RunFrom(Do(SweepClaims(b, c), c, go), c, go, []);
    RunFrom(SweepClaims(b, c), c, go, [go] + []);
    RunFrom(b2, c, go, [go] + ([go] + []));
    RunFrom(b1, c, Start(2, true), [go] + ([go] + ([go] + [])));
    RunFrom(b, c, Tick(c.claimTtl), [Start(2, true)] + ([go] + ([go] + ([go] + []))));
    actions := [Tick(c.claimTtl)] + ([Start(2, true)] + ([go] + ([go] + ([go] + []))));
  }

  /** Then both deliveries can succeed. */
  lemma LateDeliveriesOverlap(c: Config) returns (actions: seq<Action>)
    requires ValidConfig(c)
    ensures TimelyRun(Fresh(0), c, actions, c.claimTtl + 1)
    ensures Run(Fresh(0), c, actions).successes == 2
  {
    var late := LateDispatcherIsOvertaken(c);
    RunThen(Fresh(0), c, late, Go(1, true, OK));
    RunThen(Fresh(0), c, late + [Go(1, true, OK)], Go(2, true, OK));
    actions := late + [Go(1, true, OK)] + [Go(2, true, OK)];
    CrashFreeIsTimely(c, actions, c.claimTtl);
  }

  /** No claim in a run from 0 is older than the run. */
  predicate SinceStart(b: Box) {
    && b.now >= 0
    && (b.row.claimedAt.Some? ==> b.row.claimedAt.value >= 0)
    && forall t :: t in b.tasks && InFlight(b.tasks[t]) ==> b.tasks[t].since >= 0
  }

  lemma DoKeepsSinceStart(b: Box, c: Config, a: Action)
    requires SinceStart(b)
    ensures SinceStart(Do(b, c, a)) && b.now <= Do(b, c, a).now
  {
  }

  /** A run from 0 that nobody crashes in is timely for any bound its clock stays below. */
  lemma {:induction false} CrashFreeIsTimely(c: Config, actions: seq<Action>, n: int)
    requires CrashFree(actions) && Run(Fresh(0), c, actions).now <= n
    ensures TimelyRun(Fresh(0), c, actions, n + 1) && SinceStart(Run(Fresh(0), c, actions))
  {
    hide Do;
    if actions != [] {
      var earlier, a := actions[..|actions| - 1], actions[|actions| - 1];
      assert a in actions;
      RunSinceStart(c, earlier);
      DoKeepsSinceStart(Run(Fresh(0), c, earlier), c, a);
      CrashFreeIsTimely(c, earlier, n);
    }
  }

  lemma {:induction false} RunSinceStart(c: Config, actions: seq<Action>)
    ensures SinceStart(Run(Fresh(0), c, actions))
  {
    hide Do;
    if actions != [] {
      RunSinceStart(c, actions[..|actions| - 1]);
      DoKeepsSinceStart(Run(Fresh(0), c, actions[..|actions| - 1]), c, actions[|actions| - 1]);
    }
  }

  /** The bounds on a claim-to-record stretch under which at most one 2xx is ever received are exactly those up
      to the time-to-live. */
  lemma TimeToLiveIsTight(c: Config, bound: int)
    requires ValidConfig(c)
    ensures
      (forall actions :: TimelyRun(Fresh(0), c, actions, bound) ==> Run(Fresh(0), c, actions).successes <= 1)
      <==> bound <= c.claimTtl
  {
    hide Do, Run, TimelyRun;
    if bound <= c.claimTtl {
      forall actions | TimelyRun(Fresh(0), c, actions, bound)
        ensures Run(Fresh(0), c, actions).successes <= 1
      {
        ShorterBoundIsTimely(Fresh(0), c, actions, bound, c.claimTtl);
        TimelyDeliveriesExclude(0, c, actions, 0, 0);
      }
    } else {
      var actions := LateDeliveriesOverlap(c);
      ShorterBoundIsTimely(Fresh(0), c, actions, c.claimTtl + 1, bound);
    }
  }
}
