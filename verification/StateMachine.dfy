/** The notification state machine: every transition, with its history, over the repository. */
module StateMachine {
  import opened Common
  import opened TypeCatalog
  import opened Notifications
  import opened Selection
  import opened NotificationStore

  datatype IngestOutcome = IngestOutcome(notificationId: Id, deduped: bool)

  datatype ManualRetryOutcome = Retried(row: Row) | WrongStatus(currentStatus: Status) | NotFound

  function Entries(ids: seq<Id>, eventType: EventType): (entries: seq<HistoryEntry>)
    ensures |entries| == |ids|
  {
    seq(|ids|, i requires 0 <= i < |ids| => HistoryEntry(ids[i], eventType, NoPayload))
  }

  function CappedEntries(swept: seq<Swept>): (entries: seq<HistoryEntry>)
    ensures |entries| == |swept|
  {
    seq(|swept|, i requires 0 <= i < |swept| =>
      HistoryEntry(swept[i].id, REDRIVEN_FROM_STUCK, CappedPayload(REDRIVE_LIMIT_ERROR, swept[i].redriveCount)))
  }

  function RedrivenEntries(swept: seq<Swept>): (entries: seq<HistoryEntry>)
    ensures |entries| == |swept|
  {
    seq(|swept|, i requires 0 <= i < |swept| =>
      HistoryEntry(swept[i].id, REDRIVEN_FROM_STUCK, RedrivePayload(swept[i].redriveCount)))
  }

  function AttemptEntry(id: Id, outcome: Outcome): HistoryEntry {
    match outcome
    case Delivered => HistoryEntry(id, PUSH_SENT, NoPayload)
    case Refused(error) => HistoryEntry(id, PUSH_ATTEMPT, ErrorPayload(error))
  }

  /** One entry more: PUSH_SENT for a 2xx, PUSH_ATTEMPT with the error for anything else. */
  predicate AttemptLogged(before: seq<HistoryEntry>, after: seq<HistoryEntry>, id: Id, outcome: Outcome) {
    && |after| == |before| + 1 && after[..|before|] == before
    && var entry := after[|before|];
       && entry.notificationId == id
       && entry.eventType == (if outcome.Delivered? then PUSH_SENT else PUSH_ATTEMPT)
       && entry.payload == (if outcome.Delivered? then NoPayload else ErrorPayload(outcome.error))
  }

  /** What a verdict makes of a row, and what it answers. */
  predicate Judged(r: Row, s: Row, verdict: Verdict, outcome: Outcome, maxAttempts: nat, now: Time) {
    match outcome
    case Delivered => s == r.(status := SENT, sentAt := Some(now)) && verdict == SentVerdict
    case Refused(error) =>
      if r.attempts + 1 < maxAttempts then
        s == r.(attempts := r.attempts + 1, lastError := Some(error)) && verdict == Retry(r.attempts + 1)
      else
        && s == r.(attempts := r.attempts + 1, lastError := Some(error), status := FAILED, processingStartedAt := None)
        && verdict == TerminalFailed
  }

  lemma VerdictJudges(r: Row, outcome: Outcome, maxAttempts: nat, now: Time)
    ensures Judged(r, AttemptRow(r, outcome, maxAttempts, now), AttemptVerdict(r, outcome, maxAttempts), outcome,
                   maxAttempts, now)
  {
  }

  /** The entries a sweep adds: one per swept row, with the reason and the redrive count the row now has. */
  predicate SweepEntry(entry: HistoryEntry, capped: set<Id>, redriven: set<Id>, rows: map<Id, Row>) {
    && entry.eventType == REDRIVEN_FROM_STUCK && entry.notificationId in rows
    && var count := rows[entry.notificationId].redriveCount;
       || (entry.notificationId in capped && entry.payload == CappedPayload("exceeded redrive limit", count))
       || (entry.notificationId in redriven && entry.payload == RedrivePayload(count))
  }

  lemma SweepEntries(before: seq<HistoryEntry>, f: seq<Swept>, r: seq<Swept>, capped: set<Id>, redriven: set<Id>,
                     rows: map<Id, Row>)
    requires Reports(f, capped, rows) && Reports(r, redriven, rows)
    ensures var after := before + (CappedEntries(f) + RedrivenEntries(r));
            && |after| == |before| + |capped| + |redriven|
            && forall k :: |before| <= k < |after| ==> SweepEntry(after[k], capped, redriven, rows)
  {
    var after := before + (CappedEntries(f) + RedrivenEntries(r));
    forall k | |before| <= k < |after| ensures SweepEntry(after[k], capped, redriven, rows) {
      var i := k - |before|;
      assert if i < |f| then f[i] in f else r[i - |f|] in r;
    }
  }

  /** One entry per swept row, capped rows first, each with the redrive count the row now has. */
  ghost predicate SweepLogged(before: seq<HistoryEntry>, after: seq<HistoryEntry>, capped: set<Id>, redriven: set<Id>,
                              rows: map<Id, Row>) {
    exists f: seq<Swept>, r: seq<Swept> ::
      Reports(f, capped, rows) && Reports(r, redriven, rows)
          && after == before + (CappedEntries(f) + RedrivenEntries(r))
  }

  lemma SweptAreKnown(f: seq<Swept>, r: seq<Swept>, rows: map<Id, Row>)
    requires forall i :: 0 <= i < |f| ==> f[i].id in rows
    requires forall i :: 0 <= i < |r| ==> r[i].id in rows
    ensures forall e :: e in CappedEntries(f) + RedrivenEntries(r) ==> e.notificationId in rows
  {
  }

  /** What a manual retry answers: the primary decides, but the reason for a refusal comes from the replica. */
  function RetryAnswer(rows: map<Id, Row>, replica: map<Id, Row>, id: Id): ManualRetryOutcome {
    if id in rows && rows[id].status == FAILED then Retried(ManualRetryRow(rows[id]))
    else if id in replica then WrongStatus(replica[id].status)
    else NotFound
  }

  /** A refusal names the status of the row exactly when the replica shows it. */
  lemma RefusalIsCurrent(rows: map<Id, Row>, replica: map<Id, Row>, id: Id)
    requires id in rows && rows[id].status != FAILED
    ensures RetryAnswer(rows, replica, id) == WrongStatus(rows[id].status) <==>
            id in replica && replica[id].status == rows[id].status
  {
  }

  /** A second retry before the replica has caught up is refused because the row is FAILED, which it no longer is. */
  lemma SecondRetryAnswersFromThePast(rows: map<Id, Row>, replica: map<Id, Row>, id: Id)
    requires id in rows && rows[id].status == FAILED && id in replica && replica[id].status == FAILED
    ensures RetryAnswer(rows, replica, id).Retried?
    ensures var after := rows[id := ManualRetryRow(rows[id])];
            after[id].status == PENDING && RetryAnswer(after, replica, id) == WrongStatus(FAILED)
  {
  }

  /** One CLAIMED_BY_TICK entry per claimed row, in order, without a payload. */
  predicate ClaimsLogged(before: seq<HistoryEntry>, after: seq<HistoryEntry>, ids: seq<Id>) {
    && |after| == |before| + |ids| && after[..|before|] == before
    && forall i :: 0 <= i < |ids| ==> after[|before| + i] == HistoryEntry(ids[i], CLAIMED_BY_TICK, NoPayload)
  }

  lemma ClaimEntries(before: seq<HistoryEntry>, ids: seq<Id>)
    ensures ClaimsLogged(before, before + Entries(ids, CLAIMED_BY_TICK), ids)
  {
  }

  class NotificationStateMachine {
    const repo: NotificationsRepository

    constructor (repo: NotificationsRepository)
      ensures this.repo == repo
    {
      this.repo := repo;
    }

    /**
     Inserts the row and its CREATED entry in one transaction. A unique violation is resolved by the key:
     the row that holds it is the answer. A violation no row explains by its key is rethrown.
     */
    method Ingest(row: Row) returns (outcome: Result<IngestOutcome>)
      requires repo.Valid()
      modifies repo`rows, repo`past, repo`index, repo`history
      ensures repo.Valid()
      ensures var taken := exists id :: id in old(repo.rows) && old(repo.rows)[id].key == row.key;
              if taken then
                && outcome.Ok? && outcome.value.deduped && outcome.value.notificationId in old(repo.rows)
                && old(repo.rows)[outcome.value.notificationId].key == row.key
                && repo.rows == old(repo.rows) && repo.history == old(repo.history)
              else if row.id in old(repo.rows) then
                outcome.Err? && repo.rows == old(repo.rows) && repo.history == old(repo.history)
              else
                && outcome == Ok(IngestOutcome(row.id, false))
                && repo.rows == old(repo.rows)[row.id := row]
                && repo.history == old(repo.history) + [HistoryEntry(row.id, CREATED, NoPayload)]
    {
      var inserted := repo.Insert(row);
      if inserted {
        repo.AppendHistory(HistoryEntry(row.id, CREATED, NoPayload));
        return Ok(IngestOutcome(row.id, false));
      }
      var existing := repo.FindByIdempotencyKey(row.key);
      if existing.Some? { return Ok(IngestOutcome(existing.value.id, true)); }
      outcome := Err("unique constraint failed");
    }

    /** Claims a batch; then, as a second write, one CLAIMED_BY_TICK entry per claimed row, in order. */
    method Claim(batchSize: nat, now: Time, locked: set<Id>) returns (ids: seq<Id>, claimed: seq<ClaimedNotification>)
      requires repo.Valid()
      modifies repo`rows, repo`past, repo`history
      ensures repo.Valid()
      ensures Earliest(DueAt(old(repo.rows), now, locked), batchSize, ids)
      ensures repo.rows == ClaimAll(old(repo.rows), Members(ids), now)
      ensures repo.history == old(repo.history) + Entries(ids, CLAIMED_BY_TICK)
      ensures ClaimsLogged(old(repo.history), repo.history, ids)
      ensures |claimed| == |ids| && forall i :: 0 <= i < |ids| ==> claimed[i].id == ids[i]
    {
      hide ClaimsLogged, OldestFirst, Earliest, DueAt;
      ghost var before := repo.history;
      ids, claimed := repo.ClaimDue(batchSize, now, locked);
      ClaimEntries(before, ids);
      if |claimed| == 0 {
        assert Entries(ids, CLAIMED_BY_TICK) == [];
        assert before + [] == before;
        return;
      }
      repo.AppendHistoryBatch(Entries(ids, CLAIMED_BY_TICK));
    }

    /** The verdict transaction; an unknown id aborts it with nothing written. */
    method RecordAttempt(id: Id, outcome: Outcome, maxAttempts: nat, now: Time) returns (verdict: Result<Verdict>)
      requires repo.Valid()
      modifies repo`rows, repo`past, repo`history
      ensures repo.Valid()
      ensures id !in old(repo.rows) ==> verdict.Err? && repo.rows == old(repo.rows) && repo.history == old(repo.history)
      ensures id in old(repo.rows) ==>
                && verdict == Ok(AttemptVerdict(old(repo.rows)[id], outcome, maxAttempts))
                && repo.rows == old(repo.rows)[id := AttemptRow(old(repo.rows)[id], outcome, maxAttempts, now)]
                && repo.history == old(repo.history) + [AttemptEntry(id, outcome)]
      ensures id in old(repo.rows) ==>
                && AttemptLogged(old(repo.history), repo.history, id, outcome)
                && verdict.Ok?
                && Judged(old(repo.rows)[id], repo.rows[id], verdict.value, outcome, maxAttempts, now)
                && repo.rows == old(repo.rows)[id := repo.rows[id]]
    {
      if id in repo.rows { VerdictJudges(repo.rows[id], outcome, maxAttempts, now); }
      if outcome.Delivered? {
        var found := repo.MarkSent(id, now);
        if !found { return Err("record to update not found"); }
        repo.AppendHistory(HistoryEntry(id, PUSH_SENT, NoPayload));
        return Ok(SentVerdict);
      }
      verdict := RecordFailure(id, outcome.error, maxAttempts, now);
    }

    /** The other half of the transaction: one attempt more, and FAILED when that was the last one. */
    method RecordFailure(id: Id, error: string, maxAttempts: nat, now: Time) returns (verdict: Result<Verdict>)
      requires repo.Valid()
      modifies repo`rows, repo`past, repo`history
      ensures repo.Valid()
      ensures id !in old(repo.rows) ==> verdict.Err? && repo.rows == old(repo.rows) && repo.history == old(repo.history)
      ensures id in old(repo.rows) ==>
                && verdict == Ok(AttemptVerdict(old(repo.rows)[id], Refused(error), maxAttempts))
                && repo.rows == old(repo.rows)[id := AttemptRow(old(repo.rows)[id], Refused(error), maxAttempts, now)]
                && repo.history == old(repo.history) + [AttemptEntry(id, Refused(error))]
                && AttemptLogged(old(repo.history), repo.history, id, Refused(error))
    {
      hide NotificationsRepository.Valid;
      var attempts := repo.IncrementAttempt(id, error);
      if attempts.None? { return Err("record to update not found"); }
      repo.AppendHistory(HistoryEntry(id, PUSH_ATTEMPT, ErrorPayload(error)));
      if attempts.value >= maxAttempts {
        var redriveCount := repo.MarkFailed(id, error);
        return Ok(TerminalFailed);
      }
      verdict := Ok(Retry(attempts.value));
    }

    /** Sweeps, then writes the history of the capped rows before that of the redriven ones. */
    method RecoverStuck(thresholdMs: int, maxRedrives: nat, now: Time, later: Time)
        returns (recovered: nat, failed: nat)
      requires repo.Valid() && now <= later
      modifies repo`rows, repo`past, repo`history
      ensures repo.Valid()
      ensures var past := PastCap(old(repo.rows), now, thresholdMs, maxRedrives);
              var after := FailAll(old(repo.rows), past);
              var under := UnderCap(after, later, thresholdMs, maxRedrives);
              && repo.rows == RedriveAll(after, under, later)
              && failed == |past| && recovered == |under|
              && SweepLogged(old(repo.history), repo.history, past, under, repo.rows)
              && |repo.history| == |old(repo.history)| + failed + recovered
              && forall k :: |old(repo.history)| <= k < |repo.history| ==>
                   SweepEntry(repo.history[k], past, under, repo.rows)
    {
      ghost var past := PastCap(repo.rows, now, thresholdMs, maxRedrives);
      ghost var under := UnderCap(FailAll(repo.rows, past), later, thresholdMs, maxRedrives);
      var recoveredRows, failedRows := repo.RecoverStuck(thresholdMs, maxRedrives, now, later);
      SweepEntries(repo.history, failedRows, recoveredRows, past, under, repo.rows);
      SweptAreKnown(failedRows, recoveredRows, repo.rows);
      repo.AppendHistoryBatch(CappedEntries(failedRows) + RedrivenEntries(recoveredRows));
      recovered, failed := |recoveredRows|, |failedRows|;
    }

    /** FAILED goes back to PENDING; anything else is reported from the replica, which may be behind. */
    method ManualRetry(id: Id) returns (outcome: ManualRetryOutcome)
      requires repo.Valid()
      modifies repo`rows, repo`past, repo`history
      ensures repo.Valid()
      ensures outcome == RetryAnswer(old(repo.rows), repo.replica, id)
      ensures if outcome.Retried? then
                && repo.rows == old(repo.rows)[id := ManualRetryRow(old(repo.rows)[id])]
                && repo.history == old(repo.history) + [HistoryEntry(id, MANUAL_RETRY, NoPayload)]
              else
                repo.rows == old(repo.rows) && repo.history == old(repo.history)
      ensures if id in old(repo.rows) && old(repo.rows)[id].status == FAILED then
                outcome.Retried? && repo.rows[id] == outcome.row
                && outcome.row == old(repo.rows)[id].(status := PENDING, attempts := 0,
                                                      processingStartedAt := None, lastError := None)
              else if id in repo.replica then outcome == WrongStatus(repo.replica[id].status)
              else outcome == NotFound
    {
      var updated := repo.ApplyManualRetry(id);
      if updated.Some? {
        repo.AppendHistory(HistoryEntry(id, MANUAL_RETRY, NoPayload));
        return Retried(updated.value);
      }
      var existing := repo.FindById(id);
      outcome := if existing.None? then NotFound else WrongStatus(existing.value.status);
    }
  }
}
