/**
 One notification from its insertion on, as a transition system: its primary row, every version a
 replica may still show, its work messages, its history rows and the webhook POSTs made for it.
 Every interleaving of ticks, sends, sweeps, manual retries and crashes is a sequence of Actions.
 */
module Delivery {
  import opened Common
  import opened TypeCatalog
  import opened Notifications

  datatype Config = Config(catalog: Catalog, recoveryThresholdMs: nat, maxRedrives: nat)

  /** What the configuration schema enforces. */
  predicate WellFormed(cfg: Config) {
    cfg.catalog.userWelcomeMaxAttempts >= 1 && cfg.maxRedrives >= 1 && cfg.recoveryThresholdMs >= 1_000
  }

  function MaxAttempts(cfg: Config): nat {
    cfg.catalog.userWelcomeMaxAttempts
  }

  function Policy(cfg: Config): RetryPolicy {
    RetryPolicy(MaxAttempts(cfg), Exponential, 1_000, 0.0)
  }

  /** Where one push.send work message is, and how far the handler that works on it has come. */
  datatype Stage =
    | Claimed                                   // its claim is committed, CLAIMED_BY_TICK is not written yet
    | Abandoned                                 // the tick died before writing CLAIMED_BY_TICK
    | Dispatching                               // history written, publish to notifications.work still to come
    | Ready                                     // in notifier.push-send
    | Guarded(seen: Row)                        // delivered; the replica read passed the PROCESSING guard
    | Posted(seen: Row, outcome: Outcome)       // the webhook answered (or timed out), verdict not committed
    | RetryPending(attempts: nat)               // retry verdict committed, retry not published
    | AwaitAck                                  // handler done, ack not yet taken by the broker
    | Waiting                                   // in notifier.push-send.retry until its expiration
    | Gone                                      // acknowledged, dropped or lost

  datatype Post = Post(at: Time, idempotencyKey: Id, body: Json, ok: bool)

  // Auxiliary counters; no table holds them.
  datatype Tally = Tally(
    claims: nat,              // claim transitions
    sweeps: nat,              // stuck-recovery transitions, to PENDING or to FAILED
    manualRetries: nat,
    cleared: nat,             // attempts erased by manual retries
    retryVerdicts: nat,
    published: nat,           // work messages published: dispatches and retries
    sweepLogsDue: nat,        // REDRIVEN_FROM_STUCK rows still to be written ...
    sweepLogsLost: nat,       // ... or lost with the process that owed them
    manualLogsDue: nat,
    manualLogsLost: nat)

  /**
   `stages[i]` is where work message i is; `hops[i]` is when its current hop began: the claim, or the
   end of its retry delay. A slot in `orphans` holds no message: its handler goes on although the
   broker has taken the message back.
   */
  datatype Cell = Cell(
    row: Row,
    past: seq<Row>,
    history: seq<EventType>,
    stages: seq<Stage>,
    hops: seq<Time>,
    orphans: set<nat>,
    posts: seq<Post>,
    tally: Tally)

  /** The insert transaction: the row and its CREATED history entry commit together. */
  function NewCell(row: Row): Cell {
    Cell(row, [row], [CREATED], [], [], {}, [], Tally(0, 0, 0, 0, 0, 0, 0, 0, 0, 0))
  }

  datatype Action =
    | Claim
    | LogClaim(i: nat)
    | Dispatch(i: nat)
    | TickDies(i: nat)
    | Guard(i: nat, seen: Row)
    | Skip(i: nat, read: Option<Row>)
    | Send(i: nat, outcome: Outcome)
    | CommitVerdict(i: nat)
    | PublishRetry(i: nat)
    | Ack(i: nat)
    | Drop(i: nat)
    | Redeliver(i: nat)                         // the broker takes the message back, its handler is gone
    | HandBack(i: nat)                          // the broker takes the message back, its handler goes on
    | Resend(delayMs: nat)                      // a producer that lost its confirm publishes a message again
    | Expire(i: nat)
    | SweepToPending
    | SweepToFailed
    | LogSweep
    | LoseSweepLog
    | RetryManually
    | LogManualRetry
    | LoseManualRetryLog

  /** Some stage of the handler in which the broker holds the message as unacknowledged. */
  predicate Unacked(stage: Stage) {
    stage.Guarded? || stage.Posted? || stage.RetryPending? || stage.AwaitAck?
  }

  predicate Enabled(cfg: Config, now: Time, c: Cell, a: Action) {
    match a
    case Claim => Due(c.row, now)
    case LogClaim(i) => i < |c.stages| && c.stages[i] == Claimed
    case Dispatch(i) => i < |c.stages| && c.stages[i] == Dispatching
    case TickDies(i) => i < |c.stages| && c.stages[i] in {Claimed, Dispatching}
    // The status check reads the replica, which may show any version the primary ever had.
    case Guard(i, seen) =>
      && i < |c.stages| && c.stages[i] == Ready && seen in c.past && seen.status == PROCESSING
      && EntryFor(cfg.catalog, seen.key.kind).Some? && ValidParams(seen.key.kind, seen.params)
    case Skip(i, read) =>
      && i < |c.stages| && c.stages[i] == Ready
      && (read.Some? ==> read.value in c.past && read.value.status != PROCESSING)
    case Send(i, _) => i < |c.stages| && c.stages[i].Guarded?
        && ValidParams(c.stages[i].seen.key.kind, c.stages[i].seen.params)
    case CommitVerdict(i) => i < |c.stages| && c.stages[i].Posted?
        && EntryFor(cfg.catalog, c.stages[i].seen.key.kind).Some?
    case PublishRetry(i) => i < |c.stages| && c.stages[i].RetryPending?
    case Ack(i) => i < |c.stages| && c.stages[i] == AwaitAck
    // A throw anywhere in the handler nacks without requeue, and notifier.push-send dead-letters nowhere.
    // A queue that is not bound yet takes nothing, and a purge drops what waits.
    case Drop(i) => i < |c.stages| && (c.stages[i] in {Ready, Waiting}
                                       || (Unacked(c.stages[i]) && c.stages[i] != AwaitAck))
    // A crash hands every unacknowledged message back.
    case Redeliver(i) => i < |c.stages| && Unacked(c.stages[i]) && i !in c.orphans
    // So does a closed channel or connection, but the dispatch promise is not cancelled with it.
    case HandBack(i) => i < |c.stages| && Unacked(c.stages[i]) && i !in c.orphans
    case Resend(_) => c.tally.published > 0
    case Expire(i) => i < |c.stages| && c.stages[i] == Waiting && i < |c.hops| && c.hops[i] <= now
    case SweepToPending => StuckUnderCap(c.row, now, cfg.recoveryThresholdMs, cfg.maxRedrives)
    case SweepToFailed => StuckPastCap(c.row, now, cfg.recoveryThresholdMs, cfg.maxRedrives)
    case LogSweep => c.tally.sweepLogsDue > 0
    case LoseSweepLog => c.tally.sweepLogsDue > 0
    case RetryManually => c.row.status == FAILED
    case LogManualRetry => c.tally.manualLogsDue > 0
    case LoseManualRetryLog => c.tally.manualLogsDue > 0
  }

  function Write(c: Cell, row: Row): Cell {
    c.(row := row, past := c.past + [row])
  }

  function Move(c: Cell, i: nat, stage: Stage): Cell
    requires i < |c.stages|
  {
    c.(stages := c.stages[i := stage])
  }

  function Log(c: Cell, event: EventType): Cell {
    c.(history := c.history + [event])
  }

  function AddMessage(c: Cell, stage: Stage, hop: Time): Cell {
    c.(stages := c.stages + [stage], hops := c.hops + [hop])
  }

  function Count(c: Cell, tally: Tally): Cell {
    c.(tally := tally)
  }

  function Published(c: Cell): Cell {
    Count(c, c.tally.(published := c.tally.published + 1))
  }

  /** Actions that only move one message. */
  predicate Plain(a: Action) {
    a.Guard? || a.Skip? || a.Ack? || a.Drop? || a.Redeliver? || a.Expire?
  }

  function Landing(a: Action): Stage
    requires Plain(a)
  {
    match a
    case Guard(_, seen) => Guarded(seen)
    case Skip(_, _) => Gone
    case Ack(_) => Gone
    case Drop(_) => Gone
    case _ => Ready
  }

  function Next(cfg: Config, now: Time, c: Cell, a: Action): Cell
    requires Enabled(cfg, now, c, a)
  {
    var t := c.tally;
    match a
    case Claim =>
      Count(AddMessage(Write(c, ClaimRow(c.row, now)), Claimed, now), t.(claims := t.claims + 1))
    case LogClaim(i) => Log(Move(c, i, Dispatching), CLAIMED_BY_TICK)
    case Dispatch(i) => Published(Move(c, i, Ready))
    case TickDies(i) => Move(c, i, if c.stages[i] == Claimed then Abandoned else Gone)
    case Send(i, outcome) =>
      var seen := c.stages[i].seen;
      Move(c, i, Posted(seen, outcome)).(
        posts := c.posts + [Post(now, seen.id, Render(seen.key.kind, seen.params), outcome.Delivered?)])
    case CommitVerdict(i) => Commit(cfg, now, c, i, c.stages[i].seen, c.stages[i].outcome)
    case PublishRetry(i) =>
      Published(AddMessage(Move(c, i, AwaitAck), Waiting,
                           now + ComputeBackoffMs(Policy(cfg), c.stages[i].attempts, 0.0)))
    // The slot keeps the message; the handler moves to a new one.
    case HandBack(i) =>
      AddMessage(Move(c, i, Ready), c.stages[i], if i < |c.hops| then c.hops[i] else now).(
        orphans := c.orphans + {|c.stages|})
    case Resend(delayMs) => AddMessage(c, Waiting, now + delayMs)
    case SweepToPending =>
      Count(Write(c, RedriveRow(c.row, now)), t.(sweeps := t.sweeps + 1, sweepLogsDue := t.sweepLogsDue + 1))
    case SweepToFailed =>
      Count(Write(c, MarkFailedRow(c.row, REDRIVE_LIMIT_ERROR)),
            t.(sweeps := t.sweeps + 1, sweepLogsDue := t.sweepLogsDue + 1))
    case LogSweep => Log(Count(c, t.(sweepLogsDue := t.sweepLogsDue - 1)), REDRIVEN_FROM_STUCK)
    case LoseSweepLog => Count(c, t.(sweepLogsDue := t.sweepLogsDue - 1, sweepLogsLost := t.sweepLogsLost + 1))
    case RetryManually =>
      Count(Write(c, ManualRetryRow(c.row)),
            t.(manualRetries := t.manualRetries + 1, cleared := t.cleared + c.row.attempts,
               manualLogsDue := t.manualLogsDue + 1))
    case LogManualRetry => Log(Count(c, t.(manualLogsDue := t.manualLogsDue - 1)), MANUAL_RETRY)
    case LoseManualRetryLog => Count(c, t.(manualLogsDue := t.manualLogsDue - 1,
                                           manualLogsLost := t.manualLogsLost + 1))
    case _ => Move(c, a.i, Landing(a))
  }

  /**
   recordAttempt: the row update and its history row commit
   together; the policy is the one of the row that was read.
   */
  function Commit(cfg: Config, now: Time, c: Cell, i: nat, seen: Row, outcome: Outcome): Cell
    requires i < |c.stages| && EntryFor(cfg.catalog, seen.key.kind).Some?
  {
    var max := EntryFor(cfg.catalog, seen.key.kind).value.retryPolicy.maxAttempts;
    var written := Write(c, AttemptRow(c.row, outcome, max, now));
    match AttemptVerdict(c.row, outcome, max)
    case SentVerdict => Log(Move(written, i, AwaitAck), PUSH_SENT)
    case TerminalFailed => Log(Move(written, i, AwaitAck), PUSH_ATTEMPT)
    case Retry(attempts) =>
      Count(Log(Move(written, i, RetryPending(attempts)), PUSH_ATTEMPT),
            c.tally.(retryVerdicts := c.tally.retryVerdicts + 1))
  }
}
