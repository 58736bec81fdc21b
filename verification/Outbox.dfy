/** A row of the callback outbox and what the statements of a dispatcher make of it. */
module Outbox {
  import opened Options

  datatype Status = Pending | Dispatching | Sent | Failed

  /** One task run. */
  type Token = nat

  datatype Row = Row(
    status: Status,
    attempts: nat,
    nextAttemptAt: Option<int>,
    claimedAt: Option<int>,
    claimToken: Option<Token>,
    createdAt: int)

  datatype Config = Config(maxAttempts: nat, retryDelay: nat, claimTtl: nat, timeout: nat)

  /** What the settings validator accepts. */
  predicate ValidConfig(c: Config) {
    c.maxAttempts >= 1 && c.timeout >= 1 && c.claimTtl > c.timeout
  }

  function NewCallback(now: int): Row {
    Row(Pending, 0, Some(now), None, None, now)
  }

  /** The guard of both claim statements. */
  predicate Claimable(row: Row, c: Config, now: int) {
    && row.attempts < c.maxAttempts
    && (|| (row.status.Pending? && (row.nextAttemptAt.None? || row.nextAttemptAt.value <= now))
        || (row.status.Dispatching? && row.claimedAt.Some? && row.claimedAt.value <= now - c.claimTtl))
  }

  function Claimed(row: Row, token: Token, now: int): Row {
    row.(status := Dispatching, claimedAt := Some(now), claimToken := Some(token))
  }

  predicate HeldBy(row: Row, token: Token) {
    row.status.Dispatching? && row.claimToken == Some(token)
  }

  function Recorded(row: Row, status: Status, c: Config, now: int): Row {
    row.(status := status,
         attempts := row.attempts + 1,
         nextAttemptAt := if status.Pending? then Some(now + c.retryDelay) else None,
         claimedAt := None,
         claimToken := None)
  }

  /** The outcome of one POST: an HTTP status, or no response at all. */
  datatype Reply = Status(http: int) | NoReply

  predicate IsSuccess(reply: Reply) {
    reply.Status? && 200 <= reply.http < 300
  }

  /** The status recorded after a POST by a dispatcher that read `seen` attempts before it. */
  function NextStatus(seen: nat, success: bool, c: Config): Status {
    if success then Sent else if seen + 1 >= c.maxAttempts then Failed else Pending
  }

  predicate ShouldRetry(row: Row, c: Config) {
    row.status.Pending? && row.attempts < c.maxAttempts
  }

  /** The order in which a sweep picks rows. */
  predicate Before(a: Row, i: nat, b: Row, j: nat) {
    var da, db := DueKey(a), DueKey(b);
    da < db || (da == db && i < j)
  }

  function DueKey(row: Row): int {
    if row.nextAttemptAt.Some? then row.nextAttemptAt.value else row.createdAt
  }
}
