/** What every interleaving of Delivery actions keeps. No timing assumption is made here. */
module DeliveryInvariants {
  import opened Common
  import opened TypeCatalog
  import opened Notifications
  import opened Delivery

  /** Publishes still to come: of a claimed row, and of a retry. */
  function Owes(s: Stage): nat {
    if s in {Claimed, Dispatching} || s.RetryPending? then 1 else 0
  }

  function Owed(stages: seq<Stage>): nat {
    if stages == [] then 0 else Owed(stages[..|stages| - 1]) + Owes(stages[|stages| - 1])
  }

  lemma {:induction false} OwedMoves(stages: seq<Stage>, i: nat, s: Stage)
    requires i < |stages|
    ensures Owed(stages[i := s]) == Owed(stages) - Owes(stages[i]) + Owes(s)
  {
    var last := |stages| - 1;
    if i == last {
      assert stages[i := s][..last] == stages[..last];
    } else {
      assert stages[i := s][..last] == stages[..last][i := s];
      OwedMoves(stages[..last], i, s);
    }
  }

  lemma OwedGrows(stages: seq<Stage>, s: Stage)
    ensures Owed(stages + [s]) == Owed(stages) + Owes(s)
  {
    assert (stages + [s])[..|stages|] == stages;
  }

  // ---------------------------------------------------------------- the invariants

  /** The row, its immutable columns, and everything a replica may show of it. */
  ghost predicate Versions(cfg: Config, now: Time, c: Cell) {
    && RowInv(c.row, MaxAttempts(cfg), cfg.maxRedrives)
    && EntryFor(cfg.catalog, c.row.key.kind).Some? && ValidParams(c.row.key.kind, c.row.params)
    && (forall v :: v in c.past ==> SameColumns(v, c.row))
    && (forall v :: v in c.past && v.status == PROCESSING ==> v.scheduledFor <= now)
    && (c.row.status == PROCESSING ==> c.row in c.past)
    && (c.row.status != PENDING || c.row.redriveCount > 0 || c.tally.manualRetries > 0 ==> c.row.scheduledFor <= now)
  }

  /** A message past the guard carries a version that really was PROCESSING. */
  ghost predicate Handlers(c: Cell) {
    && (forall i :: 0 <= i < |c.stages| && c.stages[i].Guarded? ==>
          c.stages[i].seen in c.past && c.stages[i].seen.status == PROCESSING)
    && (forall i :: 0 <= i < |c.stages| && c.stages[i].Posted? ==>
          c.stages[i].seen in c.past && c.stages[i].seen.status == PROCESSING)
  }

  ghost predicate Delivered2xx(c: Cell) {
    exists k :: 0 <= k < |c.posts| && c.posts[k].ok
  }

  /** Never early, and always the same request. */
  ghost predicate Requests(now: Time, c: Cell)
    requires ValidParams(c.row.key.kind, c.row.params)
  {
    && (forall k :: 0 <= k < |c.posts| ==> c.row.scheduledFor <= c.posts[k].at <= now)
    && (forall k :: 0 <= k < |c.posts| ==> c.posts[k].idempotencyKey == c.row.id)
    && (forall k :: 0 <= k < |c.posts| ==> c.posts[k].body == Render(c.row.key.kind, c.row.params))
  }

  /** SENT needs a 2xx answer and a PUSH_SENT row. */
  ghost predicate Witnessed(c: Cell) {
    && (forall i :: 0 <= i < |c.stages| && c.stages[i].Posted? && c.stages[i].outcome.Delivered? ==> Delivered2xx(c))
    && (c.row.status == SENT ==> Delivered2xx(c) && PUSH_SENT in c.history)
  }

  /** The audit trail against the transitions. */
  ghost predicate Ledger(c: Cell) {
    var log := multiset(c.history);
    var at := multiset(c.stages);
    && log[CREATED] == 1
    && log[PUSH_ATTEMPT] == c.row.attempts + c.tally.cleared
    && log[CLAIMED_BY_TICK] + at[Claimed] + at[Abandoned] == c.tally.claims
    && log[REDRIVEN_FROM_STUCK] + c.tally.sweepLogsDue + c.tally.sweepLogsLost == c.tally.sweeps
    && log[MANUAL_RETRY] + c.tally.manualLogsDue + c.tally.manualLogsLost == c.tally.manualRetries
  }

  function Budget(cfg: Config, c: Cell): int {
    (MaxAttempts(cfg) - 1) * c.tally.manualRetries
  }

  /** Claims are paid for by redrives and manual retries; retry verdicts by attempts; messages by both. */
  ghost predicate Bounds(cfg: Config, c: Cell) {
    && c.tally.claims + (if c.row.status == PENDING then 1 else 0) <= 1 + c.row.redriveCount + c.tally.manualRetries
    && c.tally.retryVerdicts <= Budget(cfg, c) + Min(c.row.attempts, MaxAttempts(cfg) - 1)
    && c.tally.published + Owed(c.stages) <= c.tally.claims + c.tally.retryVerdicts
    && |c.hops| == |c.stages|
  }

  /** A retry is not delivered before its delay is over: only a waiting or a finished message may have its hop ahead. */
  ghost predicate Served(now: Time, c: Cell) {
    forall i :: 0 <= i < |c.stages| && i < |c.hops| && c.stages[i] !in {Waiting, Gone} ==> c.hops[i] <= now
  }

  ghost predicate CellInv(cfg: Config, now: Time, c: Cell) {
    && Versions(cfg, now, c)
    && Handlers(c)
    && Requests(now, c)
    && Witnessed(c)
    && Ledger(c)
    && Bounds(cfg, c)
    && Served(now, c)
  }

  // ---------------------------------------------------------------- base case, passing time

  lemma FreshCellInv(cfg: Config, now: Time, r: Row)
    requires WellFormed(cfg)
    requires r == NewRow(r.id, r.key, r.recipient, r.params, r.channel, r.scheduledFor)
    requires EntryFor(cfg.catalog, r.key.kind).Some? && ValidParams(r.key.kind, r.params)
    ensures CellInv(cfg, now, NewCell(r))
  {
    assert Owed([]) == 0;
  }

  lemma TimePasses(cfg: Config, now: Time, later: Time, c: Cell)
    requires CellInv(cfg, now, c) && now <= later
    ensures CellInv(cfg, later, c)
  {
  }

  // ---------------------------------------------------------------- preservation

  /** Rewriting the row within its rules. */
  lemma WriteKept(cfg: Config, now: Time, c: Cell, r: Row)
    requires Versions(cfg, now, c) && SameColumns(r, c.row) && RowInv(r, MaxAttempts(cfg), cfg.maxRedrives)
    requires r.scheduledFor <= now
    ensures Versions(cfg, now, Write(c, r))
  {
  }

  lemma CommitKept(cfg: Config, now: Time, c: Cell, i: nat)
    requires WellFormed(cfg) && Versions(cfg, now, c) && Handlers(c) && Enabled(cfg, now, c, CommitVerdict(i))
    ensures Versions(cfg, now, Next(cfg, now, c, CommitVerdict(i)))
    ensures Next(cfg, now, c, CommitVerdict(i)).row == AttemptRow(c.row, c.stages[i].outcome, MaxAttempts(cfg), now)
    ensures Next(cfg, now, c, CommitVerdict(i)).past
            == c.past + [AttemptRow(c.row, c.stages[i].outcome, MaxAttempts(cfg), now)]
  {
    // The verdict may land on a row that is PENDING again: it is due because the version read was PROCESSING.
    assert c.stages[i].seen in c.past;
    VerdictKeepsRowInv(c.row, c.stages[i].outcome, MaxAttempts(cfg), cfg.maxRedrives, now);
    WriteKept(cfg, now, c, AttemptRow(c.row, c.stages[i].outcome, MaxAttempts(cfg), now));
  }

  lemma VersionsKept(cfg: Config, now: Time, c: Cell, a: Action)
    requires WellFormed(cfg) && Versions(cfg, now, c) && Handlers(c) && Enabled(cfg, now, c, a)
    ensures Versions(cfg, now, Next(cfg, now, c, a))
    ensures SameColumns(c.row, Next(cfg, now, c, a).row)
    ensures c.past <= Next(cfg, now, c, a).past
  {
    hide Versions, Next, Enabled, RowInv;
    match a
    case Claim => VersionsWrite(cfg, now, c, a);
    case SweepToPending => VersionsWrite(cfg, now, c, a);
    case SweepToFailed => VersionsWrite(cfg, now, c, a);
    case RetryManually => VersionsWrite(cfg, now, c, a);
    case CommitVerdict(i) => VersionsCommit(cfg, now, c, i);
    case _ => VersionsRest(cfg, now, c, a);
  }

  lemma VersionsWrite(cfg: Config, now: Time, c: Cell, a: Action)
    requires WellFormed(cfg) && Versions(cfg, now, c) && Enabled(cfg, now, c, a)
    requires a.Claim? || a.SweepToPending? || a.SweepToFailed? || a.RetryManually?
    ensures Versions(cfg, now, Next(cfg, now, c, a))
    ensures SameColumns(c.row, Next(cfg, now, c, a).row) && c.past <= Next(cfg, now, c, a).past
  {
    WriteKept(cfg, now, c, Next(cfg, now, c, a).row);
  }

  lemma VersionsCommit(cfg: Config, now: Time, c: Cell, i: nat)
    requires WellFormed(cfg) && Versions(cfg, now, c) && Handlers(c) && Enabled(cfg, now, c, CommitVerdict(i))
    ensures var d := Next(cfg, now, c, CommitVerdict(i));
            Versions(cfg, now, d) && SameColumns(c.row, d.row) && c.past <= d.past
  {
    hide Versions, Next, Enabled, Handlers;
    CommitKept(cfg, now, c, i);
  }

  /** The other actions leave the row and its versions alone. */
  lemma VersionsRest(cfg: Config, now: Time, c: Cell, a: Action)
    requires Versions(cfg, now, c) && Enabled(cfg, now, c, a)
    requires !a.Claim? && !a.SweepToPending? && !a.SweepToFailed? && !a.RetryManually? && !a.CommitVerdict?
    ensures Versions(cfg, now, Next(cfg, now, c, a))
    ensures SameColumns(c.row, Next(cfg, now, c, a).row) && c.past <= Next(cfg, now, c, a).past
  {
    SameVersions(cfg, now, c, a);
    hide Next, Enabled, RowInv;
  }

  lemma SameVersions(cfg: Config, now: Time, c: Cell, a: Action)
    requires Enabled(cfg, now, c, a)
    requires !a.Claim? && !a.SweepToPending? && !a.SweepToFailed? && !a.RetryManually? && !a.CommitVerdict?
    ensures var d := Next(cfg, now, c, a);
            d.row == c.row && d.past == c.past && d.tally.manualRetries == c.tally.manualRetries
  {
    hide ComputeBackoffMs;
  }

  lemma HandlersKept(cfg: Config, now: Time, c: Cell, a: Action)
    requires WellFormed(cfg) && Handlers(c) && Enabled(cfg, now, c, a)
    ensures Handlers(Next(cfg, now, c, a))
  {
    if Plain(a) { HandlersPlain(cfg, now, c, a); } else { HandlersRest(cfg, now, c, a); }
  }

  lemma HandlersPlain(cfg: Config, now: Time, c: Cell, a: Action)
    requires Handlers(c) && Enabled(cfg, now, c, a) && Plain(a)
    ensures Handlers(Next(cfg, now, c, a))
  {
    HandlersMove(c, a.i, Landing(a));
  }

  lemma HandlersMove(c: Cell, i: nat, s: Stage)
    requires Handlers(c) && i < |c.stages|
    requires s.Guarded? || s.Posted? ==> s.seen in c.past && s.seen.status == PROCESSING
    ensures Handlers(Move(c, i, s))
  {
  }

  lemma HandlersRest(cfg: Config, now: Time, c: Cell, a: Action)
    requires Handlers(c) && Enabled(cfg, now, c, a) && !Plain(a)
    ensures Handlers(Next(cfg, now, c, a))
  {
    hide Handlers, Next, Enabled;
    match a
    case LogClaim(i) => HandlersTick(cfg, now, c, a);
    case TickDies(i) => HandlersTick(cfg, now, c, a);
    case Dispatch(i) => HandlersTick(cfg, now, c, a);
    case Send(i, outcome) => HandlersSend(cfg, now, c, a);
    case CommitVerdict(i) => HandlersSend(cfg, now, c, a);
    case PublishRetry(i) => HandlersAdd(cfg, now, c, a);
    case HandBack(i) => HandlersAdd(cfg, now, c, a);
    case Resend(_) => HandlersAdd(cfg, now, c, a);
    case Claim => HandlersAdd(cfg, now, c, a);
    case _ => HandlersRow(cfg, now, c, a);
  }

  lemma HandlersTick(cfg: Config, now: Time, c: Cell, a: Action)
    requires Handlers(c) && Enabled(cfg, now, c, a) && (a.LogClaim? || a.TickDies? || a.Dispatch?)
    ensures Handlers(Next(cfg, now, c, a))
  {
    HandlersMove(c, a.i, Next(cfg, now, c, a).stages[a.i]);
  }

  lemma HandlersSend(cfg: Config, now: Time, c: Cell, a: Action)
    requires Handlers(c) && Enabled(cfg, now, c, a) && (a.Send? || a.CommitVerdict?)
    ensures Handlers(Next(cfg, now, c, a))
  {
    HandlersMove(c, a.i, Next(cfg, now, c, a).stages[a.i]);
  }

  lemma HandlersAdd(cfg: Config, now: Time, c: Cell, a: Action)
    requires Handlers(c) && Enabled(cfg, now, c, a) && (a.PublishRetry? || a.HandBack? || a.Resend? || a.Claim?)
    ensures Handlers(Next(cfg, now, c, a))
  {
    hide ComputeBackoffMs;
    if a.PublishRetry? { HandlersMove(c, a.i, AwaitAck); }
    if a.HandBack? { HandlersMove(c, a.i, Ready); }
  }

  lemma HandlersRow(cfg: Config, now: Time, c: Cell, a: Action)
    requires Handlers(c) && Enabled(cfg, now, c, a)
    requires a in {SweepToPending, SweepToFailed, LogSweep, LoseSweepLog, RetryManually, LogManualRetry,
                   LoseManualRetryLog}
    ensures Handlers(Next(cfg, now, c, a))
  {
  }

  lemma RequestsKept(cfg: Config, now: Time, c: Cell, a: Action)
    requires WellFormed(cfg) && Versions(cfg, now, c) && Handlers(c) && Requests(now, c) && Enabled(cfg, now, c, a)
    ensures ValidParams(Next(cfg, now, c, a).row.key.kind, Next(cfg, now, c, a).row.params)
    ensures Requests(now, Next(cfg, now, c, a))
  {
    hide Next, Enabled, Handlers, Render, RowInv;
    VersionsKept(cfg, now, c, a);
    assert ValidParams(c.row.key.kind, c.row.params);
    if a.Send? { OnePost(cfg, now, c, a); } else { NoPost(cfg, now, c, a); }
  }

  /** The handler sends what the version it read holds, and that version was PROCESSING, hence due. */
  lemma OnePost(cfg: Config, now: Time, c: Cell, a: Action)
    requires Versions(cfg, now, c) && Handlers(c) && Enabled(cfg, now, c, a) && a.Send?
    ensures c.row.scheduledFor <= now
    ensures Next(cfg, now, c, a).posts
            == c.posts + [Post(now, c.row.id, Render(c.row.key.kind, c.row.params), a.outcome.Delivered?)]
  {
    assert c.stages[a.i].seen in c.past;
    hide Render;
  }

  lemma NoPost(cfg: Config, now: Time, c: Cell, a: Action)
    requires Enabled(cfg, now, c, a) && !a.Send?
    ensures Next(cfg, now, c, a).posts == c.posts
  {
    hide ComputeBackoffMs;
  }

  lemma WitnessedKept(cfg: Config, now: Time, c: Cell, a: Action)
    requires WellFormed(cfg) && Witnessed(c) && Enabled(cfg, now, c, a)
    ensures Witnessed(Next(cfg, now, c, a))
  {
    var d := Next(cfg, now, c, a);
    assert Delivered2xx(c) ==> Delivered2xx(d) by {
      if Delivered2xx(c) {
        var k :| 0 <= k < |c.posts| && c.posts[k].ok;
        assert d.posts[k] == c.posts[k];
      }
    }
    if a.Send? && a.outcome.Delivered? {
      assert d.posts[|c.posts|].ok;
    }
  }

  /** Only the tick's own actions move a message into or out of the two stages the ledger counts. */
  lemma ClaimStagesKept(c: Cell, i: nat, s: Stage)
    requires i < |c.stages| && c.stages[i] !in {Claimed, Abandoned} && s !in {Claimed, Abandoned}
    ensures multiset(c.stages[i := s])[Claimed] == multiset(c.stages)[Claimed]
    ensures multiset(c.stages[i := s])[Abandoned] == multiset(c.stages)[Abandoned]
  {
  }

  lemma LedgerKept(cfg: Config, now: Time, c: Cell, a: Action)
    requires WellFormed(cfg) && Ledger(c) && Enabled(cfg, now, c, a)
    ensures Ledger(Next(cfg, now, c, a))
  {
    hide Ledger, Next, Enabled;
    match a
    case CommitVerdict(i) => LedgerCommit(cfg, now, c, i);
    case LogClaim(i) => LedgerTick(cfg, now, c, a);
    case TickDies(i) => LedgerTick(cfg, now, c, a);
    case Claim => LedgerTick(cfg, now, c, a);
    case Send(i, outcome) => LedgerSend(cfg, now, c, a);
    case PublishRetry(i) => LedgerSend(cfg, now, c, a);
    case Dispatch(i) => LedgerSend(cfg, now, c, a);
    case HandBack(i) => LedgerSend(cfg, now, c, a);
    case Resend(_) => LedgerSend(cfg, now, c, a);
    case _ => if Plain(a) { LedgerPlain(cfg, now, c, a); } else { LedgerRow(cfg, now, c, a); }
  }

  lemma LedgerPlain(cfg: Config, now: Time, c: Cell, a: Action)
    requires Ledger(c) && Enabled(cfg, now, c, a) && Plain(a)
    ensures Ledger(Next(cfg, now, c, a))
  {
    ClaimStagesKept(c, a.i, Landing(a));
  }

  lemma LedgerTick(cfg: Config, now: Time, c: Cell, a: Action)
    requires Ledger(c) && Enabled(cfg, now, c, a) && (a.Claim? || a.LogClaim? || a.TickDies?)
    ensures Ledger(Next(cfg, now, c, a))
  {
    match a
    case Claim =>
    case LogClaim(i) =>
    case TickDies(i) =>
  }

  lemma LedgerSend(cfg: Config, now: Time, c: Cell, a: Action)
    requires Ledger(c) && Enabled(cfg, now, c, a)
    requires a.Send? || a.PublishRetry? || a.Dispatch? || a.HandBack? || a.Resend?
    ensures Ledger(Next(cfg, now, c, a))
  {
    hide ComputeBackoffMs, Render, Ledger;
    match a
    case Send(i, outcome) => LedgerStages(c, Next(cfg, now, c, a), i, Posted(c.stages[i].seen, outcome), []);
    case PublishRetry(i) => LedgerStages(c, Next(cfg, now, c, a), i, AwaitAck, [Waiting]);
    case Dispatch(i) => LedgerStages(c, Next(cfg, now, c, a), i, Ready, []);
    case HandBack(i) => LedgerStages(c, Next(cfg, now, c, a), i, Ready, [c.stages[i]]);
    case Resend(_) => LedgerGrows(c, Next(cfg, now, c, a));
  }

  /** One message moves and perhaps one is added, none of them in a stage that the ledger counts. */
  lemma LedgerStages(c: Cell, d: Cell, i: nat, s: Stage, more: seq<Stage>)
    requires Ledger(c) && i < |c.stages| && c.stages[i] !in {Claimed, Abandoned} && s !in {Claimed, Abandoned}
    requires forall t :: t in more ==> t !in {Claimed, Abandoned}
    requires d.row == c.row && d.history == c.history && d.stages == c.stages[i := s] + more
    requires d.tally == c.tally.(published := d.tally.published)
    ensures Ledger(d)
  {
    ClaimStagesKept(c, i, s);
    NoneCounted(more);
    assert multiset(d.stages) == multiset(c.stages[i := s]) + multiset(more);
  }

  lemma NoneCounted(more: seq<Stage>)
    requires forall t :: t in more ==> t !in {Claimed, Abandoned}
    ensures multiset(more)[Claimed] == 0 && multiset(more)[Abandoned] == 0
  {
    assert Claimed !in more && Abandoned !in more;
  }

  lemma LedgerGrows(c: Cell, d: Cell)
    requires Ledger(c) && d.row == c.row && d.history == c.history && d.stages == c.stages + [Waiting]
    requires d.tally == c.tally
    ensures Ledger(d)
  {
    NoneCounted([Waiting]);
    assert multiset(d.stages) == multiset(c.stages) + multiset([Waiting]);
  }

  lemma LedgerRow(cfg: Config, now: Time, c: Cell, a: Action)
    requires Ledger(c) && Enabled(cfg, now, c, a)
    requires a in {SweepToPending, SweepToFailed, LogSweep, LoseSweepLog, RetryManually, LogManualRetry,
                   LoseManualRetryLog}
    ensures Ledger(Next(cfg, now, c, a))
  {
  }

  lemma LedgerCommit(cfg: Config, now: Time, c: Cell, i: nat)
    requires Ledger(c) && Enabled(cfg, now, c, CommitVerdict(i))
    ensures Ledger(Next(cfg, now, c, CommitVerdict(i)))
  {
    hide Commit, Next;
    var d := Next(cfg, now, c, CommitVerdict(i));
    CommitEffect(cfg, now, c, i);
    var outcome := c.stages[i].outcome;
    ClaimStagesKept(c, i, d.stages[i]);
    assert multiset(d.history) == multiset(c.history)
           + multiset{if outcome.Delivered? then PUSH_SENT else PUSH_ATTEMPT};
  }

  /** The parts of a commit the ledger is about. */
  lemma CommitEffect(cfg: Config, now: Time, c: Cell, i: nat)
    requires Enabled(cfg, now, c, CommitVerdict(i))
    ensures var d := Next(cfg, now, c, CommitVerdict(i));
            var outcome := c.stages[i].outcome;
            && d.stages == c.stages[i := d.stages[i]] && d.stages[i] !in {Claimed, Abandoned}
            && d.history == c.history + [if outcome.Delivered? then PUSH_SENT else PUSH_ATTEMPT]
            && d.row.attempts == c.row.attempts + (if outcome.Delivered? then 0 else 1)
            && d.row.redriveCount == c.row.redriveCount
            && d.tally == c.tally.(retryVerdicts := c.tally.retryVerdicts
                                   + (if d.stages[i].RetryPending? then 1 else 0))
            && (d.stages[i].RetryPending? <==>
                  !outcome.Delivered? &&
                  d.row.attempts < EntryFor(cfg.catalog, c.stages[i].seen.key.kind).value.retryPolicy.maxAttempts)
            && (d.row.status == PENDING ==> c.row.status == PENDING)
            && d.hops == c.hops
  {
  }

  lemma BoundsKept(cfg: Config, now: Time, c: Cell, a: Action)
    requires WellFormed(cfg) && Versions(cfg, now, c) && Bounds(cfg, c) && Enabled(cfg, now, c, a)
    ensures Bounds(cfg, Next(cfg, now, c, a))
  {
    hide Bounds, Next, Enabled, Versions;
    match a
    case CommitVerdict(i) => BoundsCommit(cfg, now, c, i);
    case Claim => BoundsAdd(cfg, now, c, a);
    case LogClaim(i) => BoundsMove(cfg, now, c, a);
    case TickDies(i) => BoundsMove(cfg, now, c, a);
    case Send(i, outcome) => BoundsMove(cfg, now, c, a);
    case PublishRetry(i) => BoundsAdd(cfg, now, c, a);
    case Dispatch(i) => BoundsMove(cfg, now, c, a);
    case HandBack(i) => BoundsAdd(cfg, now, c, a);
    case Resend(_) => BoundsAdd(cfg, now, c, a);
    case _ => if Plain(a) { BoundsPlain(cfg, now, c, a); } else { BoundsRow(cfg, now, c, a); }
  }

  lemma BoundsPlain(cfg: Config, now: Time, c: Cell, a: Action)
    requires Bounds(cfg, c) && Enabled(cfg, now, c, a) && Plain(a)
    ensures Bounds(cfg, Next(cfg, now, c, a))
  {
    OwedMoves(c.stages, a.i, Landing(a));
  }

  lemma BoundsMove(cfg: Config, now: Time, c: Cell, a: Action)
    requires Bounds(cfg, c) && Enabled(cfg, now, c, a)
    requires a.LogClaim? || a.TickDies? || a.Send? || a.Dispatch?
    ensures Bounds(cfg, Next(cfg, now, c, a))
  {
    match a
    case LogClaim(i) => OwedMoves(c.stages, i, Next(cfg, now, c, a).stages[i]);
    case TickDies(i) => OwedMoves(c.stages, i, Next(cfg, now, c, a).stages[i]);
    case Send(i, outcome) => OwedMoves(c.stages, i, Next(cfg, now, c, a).stages[i]);
    case Dispatch(i) => OwedMoves(c.stages, i, Ready);
  }

  lemma BoundsAdd(cfg: Config, now: Time, c: Cell, a: Action)
    requires Bounds(cfg, c) && Enabled(cfg, now, c, a) && (a.Claim? || a.PublishRetry? || a.HandBack? || a.Resend?)
    ensures Bounds(cfg, Next(cfg, now, c, a))
  {
    hide Owed, ComputeBackoffMs;
    match a
    case Claim => OwedGrows(c.stages, Claimed);
    case PublishRetry(i) => OwedMovesAndGrows(c.stages, i, AwaitAck, Waiting);
    case HandBack(i) => OwedMovesAndGrows(c.stages, i, Ready, c.stages[i]);
    case Resend(_) => OwedGrows(c.stages, Waiting);
  }

  lemma OwedMovesAndGrows(stages: seq<Stage>, i: nat, s: Stage, t: Stage)
    requires i < |stages|
    ensures Owed(stages[i := s] + [t]) == Owed(stages) - Owes(stages[i]) + Owes(s) + Owes(t)
  {
    OwedMoves(stages, i, s);
    OwedGrows(stages[i := s], t);
  }

  lemma BoundsRow(cfg: Config, now: Time, c: Cell, a: Action)
    requires WellFormed(cfg) && Versions(cfg, now, c) && Bounds(cfg, c) && Enabled(cfg, now, c, a)
    requires a in {SweepToPending, SweepToFailed, LogSweep, LoseSweepLog, RetryManually, LogManualRetry,
                   LoseManualRetryLog}
    ensures Bounds(cfg, Next(cfg, now, c, a))
  {
    EpochBudget(MaxAttempts(cfg), c.tally.manualRetries);
  }

  lemma BoundsCommit(cfg: Config, now: Time, c: Cell, i: nat)
    requires WellFormed(cfg) && Versions(cfg, now, c) && Bounds(cfg, c) && Enabled(cfg, now, c, CommitVerdict(i))
    ensures Bounds(cfg, Next(cfg, now, c, CommitVerdict(i)))
  {
    OwedMoves(c.stages, i, Next(cfg, now, c, CommitVerdict(i)).stages[i]);
    CommitEffect(cfg, now, c, i);
    hide Next, Commit, Owed;
  }

  lemma ServedKept(cfg: Config, now: Time, c: Cell, a: Action)
    requires Enabled(cfg, now, c, a) && Served(now, c) && |c.hops| == |c.stages|
    ensures Served(now, Next(cfg, now, c, a))
  {
    hide Served, Next, Enabled;
    if Plain(a) { ServedPlain(cfg, now, c, a); }
    else if a.Claim? || a.PublishRetry? || a.HandBack? || a.Resend? { ServedAdd(cfg, now, c, a); }
    else { ServedRest(cfg, now, c, a); }
  }

  lemma ServedPlain(cfg: Config, now: Time, c: Cell, a: Action)
    requires Enabled(cfg, now, c, a) && Served(now, c) && |c.hops| == |c.stages| && Plain(a)
    ensures Served(now, Next(cfg, now, c, a))
  {
  }

  lemma ServedAdd(cfg: Config, now: Time, c: Cell, a: Action)
    requires Enabled(cfg, now, c, a) && Served(now, c) && |c.hops| == |c.stages|
    requires a.Claim? || a.PublishRetry? || a.HandBack? || a.Resend?
    ensures Served(now, Next(cfg, now, c, a))
  {
    hide ComputeBackoffMs;
  }

  lemma ServedRest(cfg: Config, now: Time, c: Cell, a: Action)
    requires Enabled(cfg, now, c, a) && Served(now, c) && |c.hops| == |c.stages|
    requires !Plain(a) && !a.Claim? && !a.PublishRetry? && !a.HandBack? && !a.Resend?
    ensures Served(now, Next(cfg, now, c, a))
  {
    hide Render;
  }

  /** A manual retry opens a new epoch with its own maxAttempts - 1 retry verdicts. */
  lemma EpochBudget(maxAttempts: nat, epochs: nat)
    ensures (maxAttempts - 1) * (epochs + 1) == (maxAttempts - 1) * epochs + (maxAttempts - 1)
  {
  }

  /** The main step: every action, by whomever and whenever, keeps the whole invariant. */
  lemma CellInvKept(cfg: Config, now: Time, c: Cell, a: Action)
    requires WellFormed(cfg) && CellInv(cfg, now, c) && Enabled(cfg, now, c, a)
    ensures CellInv(cfg, now, Next(cfg, now, c, a))
  {
    assert |c.hops| == |c.stages|;
    hide Next, Enabled, Versions, Handlers, Witnessed, Ledger, Bounds, Requests, Served;
    VersionsKept(cfg, now, c, a);
    HandlersKept(cfg, now, c, a);
    RequestsKept(cfg, now, c, a);
    WitnessedKept(cfg, now, c, a);
    LedgerKept(cfg, now, c, a);
    BoundsKept(cfg, now, c, a);
    ServedKept(cfg, now, c, a);
  }
}
