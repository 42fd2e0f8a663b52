/**
 The timing argument the delivery path rests on. A row's claim time is set once and not refreshed by
 retries, so a slow chain of retries can outlive the recovery threshold; the row is then swept and
 claimed again while its old work message is still under way, and the unguarded verdicts race. That cannot
 happen when every hop is short enough, no process dies between a verdict commit and its ack, no delivery
 is handed back while its handler goes on, and no publish puts a work message twice into its queue.
 */
module SingleFlight {
  import opened Common
  import opened TypeCatalog
  import opened Notifications
  import opened Delivery
  import opened DeliveryInvariants

  /** The message may still reach a verdict, or owes the retry that will. */
  predicate Live(s: Stage) {
    s in {Claimed, Dispatching, Ready, Waiting} || s.Guarded? || s.Posted? || s.RetryPending?
  }

  /**
   No process dies between the verdict commit and the ack, no handler outlives its delivery, and no work
   message is published twice.
   */
  predicate Timely(c: Cell, a: Action) {
    && (a.Redeliver? && a.i < |c.stages| ==> !c.stages[a.i].RetryPending? && c.stages[a.i] != AwaitAck)
    && !a.HandBack? && !a.Resend?
  }

  /** Time may pass only as long as no message overstays its hop by more than `hop` ms. */
  predicate HopsHold(hop: nat, later: Time, c: Cell) {
    forall i :: 0 <= i < |c.stages| && i < |c.hops| && Live(c.stages[i]) ==> later <= c.hops[i] + hop
  }

  function Wait(cfg: Config, attempts: nat): int {
    ComputeBackoffMs(Policy(cfg), attempts, 0.0)
  }

  /** Worst-case time from the start of a hop to the end of its chain, `attempts` failures already counted. */
  function Tail(cfg: Config, hop: nat, attempts: nat): int
    decreases MaxAttempts(cfg) - attempts
  {
    if attempts + 1 < MaxAttempts(cfg) then hop + Wait(cfg, attempts + 1) + Tail(cfg, hop, attempts + 1) else hop
  }

  /** The worst chain a claim can start: maxAttempts hops and every wait between them. */
  function Chain(cfg: Config, hop: nat): int {
    MaxAttempts(cfg) * hop + Policy(cfg).baseMs * (Pow2(Max(0, MaxAttempts(cfg) - 1)) - 1)
  }

  lemma {:induction false} TailClosedForm(cfg: Config, hop: nat, attempts: nat)
    requires attempts < MaxAttempts(cfg)
    ensures Tail(cfg, hop, attempts) == (MaxAttempts(cfg) - attempts) * hop
            + WaitSum(Policy(cfg), attempts + 1, MaxAttempts(cfg) - 1)
    decreases MaxAttempts(cfg) - attempts
  {
    if attempts + 1 < MaxAttempts(cfg) {
      TailClosedForm(cfg, hop, attempts + 1);
      assert (MaxAttempts(cfg) - attempts) * hop == (MaxAttempts(cfg) - (attempts + 1)) * hop + hop;
    }
  }

  /** A claim that resumes at carried-over attempts still fits the worst chain, and equals it when none are carried. */
  lemma TailFitsChain(cfg: Config, hop: nat, attempts: nat)
    requires attempts < MaxAttempts(cfg)
    ensures hop <= Tail(cfg, hop, attempts) <= Chain(cfg, hop)
    ensures Tail(cfg, hop, 0) == Chain(cfg, hop)
  {
    var max := MaxAttempts(cfg);
    TailClosedForm(cfg, hop, attempts);
    TailClosedForm(cfg, hop, 0);
    WaitLadder(Policy(cfg), attempts, max - 1);
    MulMonotone(hop, max - attempts, max);
    TailAtLeastHop(cfg, hop, attempts);
  }

  lemma {:induction false} TailAtLeastHop(cfg: Config, hop: nat, attempts: nat)
    requires attempts < MaxAttempts(cfg)
    ensures hop <= Tail(cfg, hop, attempts)
    decreases MaxAttempts(cfg) - attempts
  {
    if attempts + 1 < MaxAttempts(cfg) { TailAtLeastHop(cfg, hop, attempts + 1); }
  }

  /** What message i still needs, counted from the start of its hop. */
  function Need(cfg: Config, hop: nat, c: Cell, i: nat): int
    requires i < |c.stages|
  {
    if c.stages[i].RetryPending? then hop + Wait(cfg, c.stages[i].attempts) + Tail(cfg, hop, c.stages[i].attempts)
    else Tail(cfg, hop, c.row.attempts)
  }

  /** Message i alone is under way, its row is PROCESSING, and its chain ends within the claim's budget. */
  ghost predicate InFlight(cfg: Config, hop: nat, now: Time, c: Cell, i: nat)
    requires i < |c.stages| == |c.hops|
  {
    && c.row.status == PROCESSING && c.row.processingStartedAt.Some?
    && (c.stages[i].RetryPending? ==> c.stages[i].attempts == c.row.attempts)
    && c.hops[i] + Need(cfg, hop, c, i) <= c.row.processingStartedAt.value + Chain(cfg, hop)
    && now <= c.hops[i] + hop
  }

  ghost predicate Flight(cfg: Config, hop: nat, now: Time, c: Cell) {
    && RowInv(c.row, MaxAttempts(cfg), cfg.maxRedrives)
    && c.row.attempts <= MaxAttempts(cfg)
    && |c.hops| == |c.stages|
    && (forall i, j :: 0 <= i < |c.stages| && 0 <= j < |c.stages| && Live(c.stages[i]) && Live(c.stages[j]) ==> i == j)
    && (forall i :: 0 <= i < |c.stages| && Live(c.stages[i]) ==> InFlight(cfg, hop, now, c, i))
  }

  /** A chain that fits the threshold is never swept: an over-threshold row has no message under way. */
  lemma StuckMeansIdle(cfg: Config, hop: nat, now: Time, c: Cell)
    requires WellFormed(cfg) && Flight(cfg, hop, now, c) && Chain(cfg, hop) <= cfg.recoveryThresholdMs
    requires Stuck(c.row, now, cfg.recoveryThresholdMs)
    ensures forall i :: 0 <= i < |c.stages| ==> !Live(c.stages[i])
  {
    forall i | 0 <= i < |c.stages| ensures !Live(c.stages[i]) {
      if Live(c.stages[i]) {
        assert InFlight(cfg, hop, now, c, i);
        NeedAtLeastHop(cfg, hop, c, i);
      }
    }
  }

  lemma NeedAtLeastHop(cfg: Config, hop: nat, c: Cell, i: nat)
    requires i < |c.stages| && c.row.attempts < MaxAttempts(cfg)
    requires c.stages[i].RetryPending? ==> c.stages[i].attempts == c.row.attempts
    ensures Need(cfg, hop, c, i) >= hop
  {
    TailAtLeastHop(cfg, hop, c.row.attempts);
  }

  lemma IdleUnlessProcessing(cfg: Config, hop: nat, now: Time, c: Cell)
    requires Flight(cfg, hop, now, c) && c.row.status != PROCESSING
    ensures forall i :: 0 <= i < |c.stages| ==> !Live(c.stages[i])
  {
  }

  lemma FreshFlight(cfg: Config, hop: nat, now: Time, r: Row)
    requires WellFormed(cfg) && r == NewRow(r.id, r.key, r.recipient, r.params, r.channel, r.scheduledFor)
    ensures Flight(cfg, hop, now, NewCell(r))
  {
  }

  lemma FlightWhileTimePasses(cfg: Config, hop: nat, now: Time, later: Time, c: Cell)
    requires Flight(cfg, hop, now, c) && HopsHold(hop, later, c)
    ensures Flight(cfg, hop, later, c)
  {
    forall i | 0 <= i < |c.stages| && Live(c.stages[i]) ensures InFlight(cfg, hop, later, c, i) {
      assert InFlight(cfg, hop, now, c, i);
    }
  }

  /** Moving one message between live stages, or out of them, with the row untouched. */
  lemma FlightMove(cfg: Config, hop: nat, now: Time, c: Cell, i: nat, s: Stage)
    requires Flight(cfg, hop, now, c) && i < |c.stages| && !s.RetryPending?
    requires Live(s) ==> Live(c.stages[i]) && !c.stages[i].RetryPending?
    ensures Flight(cfg, hop, now, Move(c, i, s))
  {
    var d := Move(c, i, s);
    forall j | 0 <= j < |d.stages| && Live(d.stages[j]) ensures InFlight(cfg, hop, now, d, j) {
      assert Live(c.stages[j]);
      assert InFlight(cfg, hop, now, c, j);
    }
  }

  lemma FlightClaim(cfg: Config, hop: nat, now: Time, c: Cell)
    requires WellFormed(cfg) && Flight(cfg, hop, now, c) && Enabled(cfg, now, c, Claim)
    ensures Flight(cfg, hop, now, Next(cfg, now, c, Claim))
  {
    // The row is PENDING, so nothing is under way; the claim starts a chain that fits its own budget.
    var d := Next(cfg, now, c, Claim);
    IdleUnlessProcessing(cfg, hop, now, c);
    TailFitsChain(cfg, hop, c.row.attempts);
    assert InFlight(cfg, hop, now, d, |c.stages|);
  }

  lemma FlightCommit(cfg: Config, hop: nat, now: Time, c: Cell, i: nat)
    requires WellFormed(cfg) && Flight(cfg, hop, now, c) && Enabled(cfg, now, c, CommitVerdict(i))
    ensures Flight(cfg, hop, now, Next(cfg, now, c, CommitVerdict(i)))
  {
    var d := Next(cfg, now, c, CommitVerdict(i));
    assert InFlight(cfg, hop, now, c, i);
    VerdictKeepsRowInv(c.row, c.stages[i].outcome, MaxAttempts(cfg), cfg.maxRedrives, now);
    forall j | 0 <= j < |d.stages| && Live(d.stages[j]) ensures InFlight(cfg, hop, now, d, j) {
      assert Live(c.stages[i]);
      assert j == i;
    }
  }

  lemma FlightRetry(cfg: Config, hop: nat, now: Time, c: Cell, i: nat)
    requires WellFormed(cfg) && Flight(cfg, hop, now, c) && Enabled(cfg, now, c, PublishRetry(i))
    ensures Flight(cfg, hop, now, Next(cfg, now, c, PublishRetry(i)))
  {
    var d := Next(cfg, now, c, PublishRetry(i));
    assert InFlight(cfg, hop, now, c, i);
    assert d.hops[|c.stages|] == now + Wait(cfg, c.row.attempts);
    WaitNonNegative(cfg, c.row.attempts);
    forall j | 0 <= j < |d.stages| && Live(d.stages[j]) ensures InFlight(cfg, hop, now, d, j) {
      assert Live(c.stages[i]);
      assert j == |c.stages|;
    }
  }

  lemma WaitNonNegative(cfg: Config, attempts: nat)
    ensures Wait(cfg, attempts) >= 0
  {
  }

  lemma FlightKept(cfg: Config, hop: nat, now: Time, c: Cell, a: Action)
    requires WellFormed(cfg) && Chain(cfg, hop) <= cfg.recoveryThresholdMs
    requires Flight(cfg, hop, now, c) && Enabled(cfg, now, c, a) && Timely(c, a)
    ensures Flight(cfg, hop, now, Next(cfg, now, c, a))
  {
    hide Next, Enabled, Flight, Chain;
    match a
    case Claim => FlightClaim(cfg, hop, now, c);
    case LogClaim(i) => FlightTick(cfg, hop, now, c, a);
    case TickDies(i) => FlightTick(cfg, hop, now, c, a);
    case Send(i, outcome) => FlightTick(cfg, hop, now, c, a);
    case Dispatch(i) => FlightTick(cfg, hop, now, c, a);
    case HandBack(_) =>
    case Resend(_) =>
    case CommitVerdict(i) => FlightCommit(cfg, hop, now, c, i);
    case PublishRetry(i) => FlightRetry(cfg, hop, now, c, i);
    case SweepToPending => SweepKeepsFlight(cfg, hop, now, c, a);
    case SweepToFailed => SweepKeepsFlight(cfg, hop, now, c, a);
    case RetryManually => ManualRetryKeepsFlight(cfg, hop, now, c);
    case _ => FlightLanding(cfg, hop, now, c, a);
  }

  lemma FlightTick(cfg: Config, hop: nat, now: Time, c: Cell, a: Action)
    requires Flight(cfg, hop, now, c) && Enabled(cfg, now, c, a)
             && (a.LogClaim? || a.TickDies? || a.Send? || a.Dispatch?)
    ensures Flight(cfg, hop, now, Next(cfg, now, c, a))
  {
    hide Flight;
    var d := Next(cfg, now, c, a);
    FlightMove(cfg, hop, now, c, a.i, d.stages[a.i]);
    FlightLog(cfg, hop, now, Move(c, a.i, d.stages[a.i]), d);
  }

  lemma FlightLanding(cfg: Config, hop: nat, now: Time, c: Cell, a: Action)
    requires Flight(cfg, hop, now, c) && Enabled(cfg, now, c, a) && Timely(c, a)
    requires Plain(a) || a in {LogSweep, LoseSweepLog, LogManualRetry, LoseManualRetryLog}
    ensures Flight(cfg, hop, now, Next(cfg, now, c, a))
  {
    if Plain(a) {
      FlightMove(cfg, hop, now, c, a.i, Landing(a));
    } else {
      FlightLog(cfg, hop, now, c, Next(cfg, now, c, a));
    }
  }

  lemma FlightLog(cfg: Config, hop: nat, now: Time, c: Cell, d: Cell)
    requires Flight(cfg, hop, now, c) && d.row == c.row && d.stages == c.stages && d.hops == c.hops
    ensures Flight(cfg, hop, now, d)
  {
    forall j | 0 <= j < |d.stages| && Live(d.stages[j]) ensures InFlight(cfg, hop, now, d, j) {
      assert InFlight(cfg, hop, now, c, j);
    }
  }

  lemma SweepKeepsFlight(cfg: Config, hop: nat, now: Time, c: Cell, a: Action)
    requires WellFormed(cfg) && Chain(cfg, hop) <= cfg.recoveryThresholdMs
    requires Flight(cfg, hop, now, c) && Enabled(cfg, now, c, a) && (a.SweepToPending? || a.SweepToFailed?)
    ensures Flight(cfg, hop, now, Next(cfg, now, c, a))
  {
    StuckMeansIdle(cfg, hop, now, c);
  }

  lemma ManualRetryKeepsFlight(cfg: Config, hop: nat, now: Time, c: Cell)
    requires WellFormed(cfg) && Flight(cfg, hop, now, c) && Enabled(cfg, now, c, RetryManually)
    ensures Flight(cfg, hop, now, Next(cfg, now, c, RetryManually))
  {
    IdleUnlessProcessing(cfg, hop, now, c);
  }

  /** Under single flight a SENT row is never written again, and FAILED is left only by a manual retry. */
  lemma TerminalStates(cfg: Config, hop: nat, now: Time, c: Cell, a: Action)
    requires Flight(cfg, hop, now, c) && Enabled(cfg, now, c, a)
    ensures c.row.status == SENT ==> Next(cfg, now, c, a).row == c.row
    ensures c.row.status == FAILED && !a.RetryManually? ==> Next(cfg, now, c, a).row == c.row
    ensures c.row.status == PENDING && !a.Claim? ==> Next(cfg, now, c, a).row == c.row
  {
    if a.CommitVerdict? { assert InFlight(cfg, hop, now, c, a.i); }
  }
}
