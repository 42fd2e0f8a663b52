/** The notifications row and what each SQL statement of the repository does to it. */
module Notifications {
  import opened Common
  import opened TypeCatalog

  datatype Recipient = Recipient(userId: Option<string>, email: Option<string>, phone: Option<string>,
                                 pushToken: Option<string>)

  /** The unique index on (type, source_event_id). */
  datatype Key = Key(kind: string, sourceEventId: string)

  datatype Status = PENDING | PROCESSING | SENT | FAILED

  datatype Row = Row(
    id: Id,
    key: Key,
    recipient: Recipient,
    params: Json,
    channel: Channel,
    scheduledFor: Time,
    status: Status,
    attempts: nat,
    processingStartedAt: Option<Time>,
    redriveCount: nat,
    lastRedrivenAt: Option<Time>,
    lastError: Option<string>,
    sentAt: Option<Time>)

  datatype EventType = CREATED | CLAIMED_BY_TICK | PUSH_ATTEMPT | PUSH_SENT | REDRIVEN_FROM_STUCK | MANUAL_RETRY

  datatype Outcome = Delivered | Refused(error: string)

  datatype Verdict = SentVerdict | TerminalFailed | Retry(attempts: nat)

  const REDRIVE_LIMIT_ERROR := "exceeded redrive limit"

  // ---------------------------------------------------------------- one statement, one row

  function NewRow(id: Id, key: Key, recipient: Recipient, params: Json, channel: Channel, scheduledFor: Time): Row {
    Row(id, key, recipient, params, channel, scheduledFor, PENDING, 0, None, 0, None, None, None)
  }

  predicate Due(r: Row, now: Time) {
    r.status == PENDING && r.scheduledFor <= now
  }

  function ClaimRow(r: Row, now: Time): Row {
    r.(status := PROCESSING, processingStartedAt := Some(now))
  }

  function MarkSentRow(r: Row, now: Time): Row {
    r.(status := SENT, sentAt := Some(now))
  }

  function IncrementAttemptRow(r: Row, error: string): Row {
    r.(attempts := r.attempts + 1, lastError := Some(error))
  }

  function MarkFailedRow(r: Row, error: string): Row {
    r.(status := FAILED, lastError := Some(error), processingStartedAt := None)
  }

  /** A NULL processing_started_at compares as unknown, so such a row is never stuck. */
  predicate Stuck(r: Row, now: Time, thresholdMs: int) {
    r.status == PROCESSING && r.processingStartedAt.Some? && r.processingStartedAt.value < now - thresholdMs
  }

  predicate StuckPastCap(r: Row, now: Time, thresholdMs: int, maxRedrives: nat) {
    Stuck(r, now, thresholdMs) && r.redriveCount >= maxRedrives
  }

  predicate StuckUnderCap(r: Row, now: Time, thresholdMs: int, maxRedrives: nat) {
    Stuck(r, now, thresholdMs) && r.redriveCount < maxRedrives
  }

  function RedriveRow(r: Row, now: Time): Row {
    r.(status := PENDING, processingStartedAt := None, redriveCount := r.redriveCount + 1, lastRedrivenAt := Some(now))
  }

  function ManualRetryRow(r: Row): Row {
    r.(status := PENDING, attempts := 0, processingStartedAt := None, lastError := None)
  }

  /** The verdict transaction. No statement in it looks at the status of the row it updates. */
  function AttemptRow(r: Row, outcome: Outcome, maxAttempts: nat, now: Time): Row {
    match outcome
    case Delivered => MarkSentRow(r, now)
    case Refused(error) =>
      var counted := IncrementAttemptRow(r, error);
      if counted.attempts >= maxAttempts then MarkFailedRow(counted, error) else counted
  }

  function AttemptVerdict(r: Row, outcome: Outcome, maxAttempts: nat): Verdict {
    match outcome
    case Delivered => SentVerdict
    case Refused(_) => if r.attempts + 1 >= maxAttempts then TerminalFailed else Retry(r.attempts + 1)
  }

  // ---------------------------------------------------------------- what a row always satisfies

  /** The columns no statement rewrites. */
  predicate SameColumns(a: Row, b: Row) {
    && a.id == b.id && a.key == b.key && a.recipient == b.recipient && a.params == b.params
    && a.channel == b.channel && a.scheduledFor == b.scheduledFor
  }

  ghost predicate RowInv(r: Row, maxAttempts: nat, maxRedrives: nat) {
    && (r.status in {PENDING, PROCESSING} ==> r.attempts < maxAttempts)
    && r.redriveCount <= maxRedrives
    && (r.status == FAILED ==> r.lastError.Some? && (r.attempts >= maxAttempts || r.redriveCount == maxRedrives))
    && (r.status == SENT ==> r.sentAt.Some?)
    && (r.status == PROCESSING ==> r.processingStartedAt.Some?)
    && (r.status in {PENDING, FAILED} ==> r.processingStartedAt.None?)
    && (r.redriveCount > 0 <==> r.lastRedrivenAt.Some?)
    && (r.attempts > 0 ==> r.lastError.Some?)
  }

  /** A verdict keeps the row invariant whatever the status it lands on: no single-flight assumption is needed. */
  lemma VerdictKeepsRowInv(r: Row, outcome: Outcome, maxAttempts: nat, maxRedrives: nat, now: Time)
    requires RowInv(r, maxAttempts, maxRedrives)
    ensures RowInv(AttemptRow(r, outcome, maxAttempts, now), maxAttempts, maxRedrives)
    ensures AttemptVerdict(r, outcome, maxAttempts).SentVerdict? ==>
              AttemptRow(r, outcome, maxAttempts, now).status == SENT
    ensures AttemptVerdict(r, outcome, maxAttempts).TerminalFailed? ==>
              AttemptRow(r, outcome, maxAttempts, now).status == FAILED
    ensures AttemptVerdict(r, outcome, maxAttempts).Retry? ==>
              && AttemptRow(r, outcome, maxAttempts, now).status == r.status
              && AttemptVerdict(r, outcome, maxAttempts).attempts
                  == AttemptRow(r, outcome, maxAttempts, now).attempts < maxAttempts
  {
  }

  /**
   SENT is not absorbing under the unguarded verdict: it survives
   exactly when the send succeeded or attempts remain.
   */
  lemma SentSurvivesVerdict(r: Row, outcome: Outcome, maxAttempts: nat, now: Time)
    requires r.status == SENT
    ensures AttemptRow(r, outcome, maxAttempts, now).status == SENT <==>
            outcome.Delivered? || r.attempts + 1 < maxAttempts
  {
  }

  // ---------------------------------------------------------------- the potential of a row

  function Rank(s: Status): nat {
    match s
    case PENDING => 2
    case PROCESSING => 1
    case _ => 0
  }

  /** How many claims and sweeps a row can still undergo without a manual retry, at most. */
  function Potential(r: Row, maxRedrives: nat): int {
    3 * (maxRedrives - r.redriveCount) + Rank(r.status)
  }
}
