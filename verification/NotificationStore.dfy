/** The notifications repository: one method per statement, over a primary, its unique index and a replica. */
module NotificationStore {
  import opened Common
  import opened TypeCatalog
  import opened Notifications
  import opened Selection

  datatype Payload =
    | NoPayload
    | ErrorPayload(error: string)
    | RedrivePayload(redriveCount: nat)
    | CappedPayload(error: string, cappedAt: nat)

  datatype HistoryEntry = HistoryEntry(notificationId: Id, eventType: EventType, payload: Payload)

  datatype ClaimedNotification = ClaimedNotification(id: Id, key: Key, recipient: Recipient, params: Json,
                                                     channel: Channel)

  datatype Swept = Swept(id: Id, redriveCount: nat)

  // ---------------------------------------------------------------- statements on the whole table

  function DueAt(rows: map<Id, Row>, now: Time, locked: set<Id>): map<Id, Time> {
    map id | id in rows && Due(rows[id], now) && id !in locked :: rows[id].scheduledFor
  }

  function ClaimAll(rows: map<Id, Row>, ids: set<Id>, now: Time): map<Id, Row> {
    map id | id in rows :: if id in ids then ClaimRow(rows[id], now) else rows[id]
  }

  function PastCap(rows: map<Id, Row>, now: Time, thresholdMs: int, maxRedrives: nat): set<Id> {
    set id | id in rows && StuckPastCap(rows[id], now, thresholdMs, maxRedrives)
  }

  function FailAll(rows: map<Id, Row>, ids: set<Id>): map<Id, Row> {
    map id | id in rows :: if id in ids then MarkFailedRow(rows[id], REDRIVE_LIMIT_ERROR) else rows[id]
  }

  function UnderCap(rows: map<Id, Row>, now: Time, thresholdMs: int, maxRedrives: nat): set<Id> {
    set id | id in rows && StuckUnderCap(rows[id], now, thresholdMs, maxRedrives)
  }

  function RedriveAll(rows: map<Id, Row>, ids: set<Id>, now: Time): map<Id, Row> {
    map id | id in rows :: if id in ids then RedriveRow(rows[id], now) else rows[id]
  }

  /** Two ticks never claim one row, whether the second finds the first still holding its locks or already committed. */
  lemma SkipLockedDisjoint(rows: map<Id, Row>, now: Time, later: Time, locked: set<Id>, others: set<Id>,
                           batchA: nat, batchB: nat, a: seq<Id>, during: seq<Id>, after: seq<Id>)
    requires Earliest(DueAt(rows, now, locked), batchA, a)
    requires Members(a) <= others && Earliest(DueAt(rows, later, others), batchB, during)
    requires Earliest(DueAt(ClaimAll(rows, Members(a), now), later, locked), batchB, after)
    ensures Members(a) !! Members(during)
    ensures Members(a) !! Members(after)
  {
    forall id | id in Members(a) ensures id !in during && id !in after {
      assert id !in DueAt(rows, later, others);
      assert id !in DueAt(ClaimAll(rows, Members(a), now), later, locked);
    }
  }

  /** The statement reported exactly the rows in `ids`, each once, with its redrive count. */
  ghost predicate Reports(swept: seq<Swept>, ids: set<Id>, rows: map<Id, Row>) {
    && (set s | s in swept :: s.id) == ids && |swept| == |ids|
    && (forall i :: 0 <= i < |swept| ==> swept[i].id in rows && swept[i].redriveCount == rows[swept[i].id].redriveCount)
  }

  function ClaimedColumns(r: Row, id: Id): ClaimedNotification {
    ClaimedNotification(id, r.key, r.recipient, r.params, r.channel)
  }

  /** May be claimed: PENDING, scheduled for now or earlier, and not locked by another claim. */
  predicate Ready(rows: map<Id, Row>, now: Time, locked: set<Id>, id: Id) {
    id in rows && rows[id].status == PENDING && rows[id].scheduledFor <= now && id !in locked
  }

  /** At most `batch` ready rows, none of them scheduled after a ready row left behind, and all of them if they fit. */
  ghost predicate OldestFirst(rows: map<Id, Row>, now: Time, locked: set<Id>, batch: nat, ids: seq<Id>) {
    && Distinct(ids) && |ids| <= batch
    && (forall id :: id in ids ==> Ready(rows, now, locked, id))
    && (forall id, left :: id in ids && Ready(rows, now, locked, left) && left !in ids ==>
          rows[id].scheduledFor <= rows[left].scheduledFor)
    && (|ids| < batch ==> forall left :: Ready(rows, now, locked, left) ==> left in ids)
  }

  /** What the claim selects, row by row. */
  lemma ClaimSelects(rows: map<Id, Row>, now: Time, locked: set<Id>, batch: nat, ids: seq<Id>)
    requires Earliest(DueAt(rows, now, locked), batch, ids)
    ensures OldestFirst(rows, now, locked, batch, ids)
  {
    var due := DueAt(rows, now, locked);
    forall id | id in ids ensures Ready(rows, now, locked, id) {
      var i :| 0 <= i < |ids| && ids[i] == id;
      assert ids[i] in due;
    }
    forall id, left | id in ids && Ready(rows, now, locked, left) && left !in ids
      ensures rows[id].scheduledFor <= rows[left].scheduledFor
    {
      var i :| 0 <= i < |ids| && ids[i] == id;
      assert left in due && due[ids[i]] <= due[left];
    }
    if |ids| < batch { AllTaken(due, ids); }
  }

  /** The two recovery statements, row by row. */
  lemma SweepMeans(rows: map<Id, Row>, now: Time, later: Time, thresholdMs: int, maxRedrives: nat)
    requires now <= later
    ensures var capped := FailAll(rows, PastCap(rows, now, thresholdMs, maxRedrives));
            var swept := RedriveAll(capped, UnderCap(capped, later, thresholdMs, maxRedrives), later);
            swept.Keys == rows.Keys && forall id :: id in rows ==>
              Sweeps(rows[id], swept[id], now, later, thresholdMs, maxRedrives)
  {
  }

  /**
   What a sweep makes of one row: FAILED past the cap, PENDING with
   one redrive more under it, untouched otherwise.
   */
  predicate Sweeps(r: Row, s: Row, now: Time, later: Time, thresholdMs: int, maxRedrives: nat) {
    var claimedAt := if r.status == PROCESSING then r.processingStartedAt else None;
    s == if claimedAt.Some? && claimedAt.value < now - thresholdMs && r.redriveCount >= maxRedrives then
           r.(status := FAILED, lastError := Some("exceeded redrive limit"), processingStartedAt := None)
         else if claimedAt.Some? && claimedAt.value < later - thresholdMs && r.redriveCount < maxRedrives then
           r.(status := PENDING, processingStartedAt := None,
              redriveCount := r.redriveCount + 1, lastRedrivenAt := Some(later))
         else r
  }

  // ---------------------------------------------------------------- versions

  /** `past` holds every version of every row, the present ones included; rows are never deleted. */
  ghost predicate Historic(rows: map<Id, Row>, past: set<Row>) {
    && (forall id :: id in rows ==> rows[id].id == id && rows[id] in past)
    && (forall v :: v in past ==> v.id in rows && SameColumns(v, rows[v.id]))
  }

  lemma Rewritten(rows: map<Id, Row>, past: set<Row>, next: map<Id, Row>)
    requires Historic(rows, past) && next.Keys == rows.Keys
    requires forall id :: id in rows ==> SameColumns(rows[id], next[id])
    ensures Historic(next, past + next.Values)
  {
    forall v | v in next.Values ensures v.id in next && next[v.id] == v {
      var id :| id in next && next[id] == v;
      assert SameColumns(rows[id], next[id]);
    }
  }

  lemma Added(rows: map<Id, Row>, past: set<Row>, r: Row)
    requires Historic(rows, past) && r.id !in rows
    ensures Historic(rows[r.id := r], past + rows[r.id := r].Values)
  {
    var next := rows[r.id := r];
    forall v | v in next.Values ensures v.id in next && next[v.id] == v {
      var id :| id in next && next[id] == v;
    }
  }

  class NotificationsRepository {
    var rows: map<Id, Row>
    var index: map<Key, Id>
    var history: seq<HistoryEntry>
    var replica: map<Id, Row>
    ghost var past: set<Row>

    /** Primary key, UNIQUE(type, source_event_id), and a replica that shows only what the primary once held. */
    ghost predicate Valid()
      reads this
    {
      && (forall id :: id in rows ==> rows[id].id == id && rows[id].key in index && index[rows[id].key] == id)
      && (forall k :: k in index ==> index[k] in rows && rows[index[k]].key == k)
      && Historic(rows, past)
      && (forall id :: id in replica ==> replica[id].id == id && replica[id] in past)
    }

    constructor ()
      ensures Valid() && rows == map[] && history == [] && replica == map[]
    {
      rows, index, history, replica, past := map[], map[], [], map[], {};
    }

    /** What a statement does: new values in some columns of some rows. */
    method Store(next: map<Id, Row>)
      requires Valid() && next.Keys == rows.Keys && forall id :: id in rows ==> SameColumns(rows[id], next[id])
      modifies this`rows, this`past
      ensures Valid() && rows == next && past == old(past) + next.Values
    {
      Rewritten(rows, past, next);
      rows, past := next, past + next.Values;
    }

    /** Replication: the replica may come to show any version of a row, whatever it showed before. */
    method Replicate(version: Row)
      requires Valid() && version in past
      modifies this`replica
      ensures Valid() && replica == old(replica)[version.id := version]
    {
      replica := replica[version.id := version];
    }

    /**
     Reads the replica: a version the row once had on the primary, with the columns that never change,
     though its status may be long out of date; or nothing, although the primary may have the row.
     */
    method FindById(id: Id) returns (row: Option<Row>)
      requires Valid()
      ensures row == if id in replica then Some(replica[id]) else None
      ensures row.Some? ==>
                row.value in past && row.value.id == id && id in rows && SameColumns(row.value, rows[id])
    {
      row := if id in replica then Some(replica[id]) else None;
    }

    /** Reads the primary. */
    method FindByIdempotencyKey(key: Key) returns (row: Option<Row>)
      requires Valid()
      ensures row.Some? ==> row.value.id in rows && rows[row.value.id] == row.value && row.value.key == key
      ensures row.None? ==> forall id :: id in rows ==> rows[id].key != key
    {
      row := if key in index then Some(rows[index[key]]) else None;
    }

    /** Fails with a unique violation exactly when the id or the key is taken, and then changes nothing. */
    method Insert(row: Row) returns (inserted: bool)
      requires Valid()
      modifies this`rows, this`index, this`past
      ensures old(past) <= past
      ensures Valid()
      ensures inserted <==> row.id !in old(rows) && forall id :: id in old(rows) ==> old(rows)[id].key != row.key
      ensures rows == if inserted then old(rows)[row.id := row] else old(rows)
    {
      inserted := row.id !in rows && row.key !in index;
      if inserted {
        Added(rows, past, row);
        rows, index := rows[row.id := row], index[row.key := row.id];
        past := past + rows.Values;
      }
    }

    method AppendHistory(entry: HistoryEntry)
      requires Valid() && entry.notificationId in rows
      modifies this`history
      ensures Valid() && history == old(history) + [entry]
    {
      history := history + [entry];
    }

    method AppendHistoryBatch(entries: seq<HistoryEntry>)
      requires Valid() && forall e :: e in entries ==> e.notificationId in rows
      modifies this`history
      ensures Valid() && history == old(history) + entries
    {
      if |entries| == 0 { return; }
      history := history + entries;
    }

    /** One statement: select the due, unlocked, earliest rows and turn them PROCESSING. */
    method ClaimDue(batchSize: nat, now: Time, locked: set<Id>)
        returns (ids: seq<Id>, claimed: seq<ClaimedNotification>)
      requires Valid()
      modifies this`rows, this`past
      ensures old(past) <= past
      ensures Valid()
      ensures Earliest(DueAt(old(rows), now, locked), batchSize, ids)
      ensures rows == ClaimAll(old(rows), Members(ids), now)
      ensures OldestFirst(old(rows), now, locked, batchSize, ids)
      ensures rows.Keys == old(rows).Keys
      ensures forall id :: id in old(rows) ==>
                rows[id] == if id in ids then old(rows)[id].(status := PROCESSING, processingStartedAt := Some(now))
                            else old(rows)[id]
      ensures |claimed| == |ids|
      ensures forall i :: 0 <= i < |ids| ==>
                && ids[i] in old(rows)
                && var r, c := old(rows)[ids[i]], claimed[i];
                   && c.id == ids[i] && c.key == r.key && c.recipient == r.recipient
                   && c.params == r.params && c.channel == r.channel
    {
      var due := DueAt(rows, now, locked);
      ids := TakeEarliest(due, batchSize);
      ClaimSelects(rows, now, locked, batchSize, ids);
      claimed := Returning(ids);
      Store(ClaimAll(rows, Members(ids), now));
    }

    /** The columns the claim returns. */
    method Returning(ids: seq<Id>) returns (claimed: seq<ClaimedNotification>)
      requires forall i :: 0 <= i < |ids| ==> ids[i] in rows
      ensures |claimed| == |ids|
      ensures forall i :: 0 <= i < |ids| ==> claimed[i] == ClaimedColumns(rows[ids[i]], ids[i])
    {
      claimed := [];
      for i := 0 to |ids|
        invariant |claimed| == i
        invariant forall j :: 0 <= j < i ==> claimed[j] == ClaimedColumns(rows[ids[j]], ids[j])
      {
        claimed := claimed + [ClaimedColumns(rows[ids[i]], ids[i])];
      }
    }

    /** Keyed on the id alone; a missing row is the only failure. */
    method MarkSent(id: Id, now: Time) returns (found: bool)
      requires Valid()
      modifies this`rows, this`past
      ensures old(past) <= past
      ensures Valid() && found == (id in old(rows))
      ensures rows == if found then old(rows)[id := old(rows)[id].(status := SENT, sentAt := Some(now))] else old(rows)
    {
      found := id in rows;
      if found {
        Store(rows[id := MarkSentRow(rows[id], now)]);
      }
    }

    method IncrementAttempt(id: Id, error: string) returns (attempts: Option<nat>)
      requires Valid()
      modifies this`rows, this`past
      ensures old(past) <= past
      ensures Valid() && attempts.Some? == (id in old(rows))
      ensures attempts.Some? ==> attempts.value == old(rows)[id].attempts + 1
      ensures attempts.Some? ==>
                rows == old(rows)[id := old(rows)[id].(attempts := old(rows)[id].attempts + 1,
                                                       lastError := Some(error))]
      ensures attempts.None? ==> rows == old(rows)
    {
      if id in rows {
        Store(rows[id := IncrementAttemptRow(rows[id], error)]);
        attempts := Some(rows[id].attempts);
      } else {
        attempts := None;
      }
    }

    method MarkFailed(id: Id, error: string) returns (redriveCount: Option<nat>)
      requires Valid()
      modifies this`rows, this`past
      ensures old(past) <= past
      ensures Valid() && redriveCount.Some? == (id in old(rows))
      ensures redriveCount.Some? ==> redriveCount.value == old(rows)[id].redriveCount
      ensures redriveCount.Some? ==>
                rows == old(rows)[id := old(rows)[id].(status := FAILED, lastError := Some(error),
                                                       processingStartedAt := None)]
      ensures redriveCount.None? ==> rows == old(rows)
    {
      if id in rows {
        Store(rows[id := MarkFailedRow(rows[id], error)]);
        redriveCount := Some(rows[id].redriveCount);
      } else {
        redriveCount := None;
      }
    }

    method Report(ids: seq<Id>) returns (swept: seq<Swept>)
      requires forall id :: id in ids ==> id in rows
      ensures |swept| == |ids| && forall i :: 0 <= i < |ids| ==> swept[i] == Swept(ids[i], rows[ids[i]].redriveCount)
    {
      swept := [];
      for i := 0 to |ids|
        invariant |swept| == i && forall j :: 0 <= j < i ==> swept[j] == Swept(ids[j], rows[ids[j]].redriveCount)
      {
        swept := swept + [Swept(ids[i], rows[ids[i]].redriveCount)];
      }
    }

    /** Two statements, each at its own NOW(): first the rows past the redrive cap, then the eligible ones. */
    method RecoverStuck(thresholdMs: int, maxRedrives: nat, now: Time, later: Time)
        returns (recovered: seq<Swept>, failed: seq<Swept>)
      requires Valid() && now <= later
      modifies this`rows, this`past
      ensures old(past) <= past
      ensures Valid()
      ensures var capped := PastCap(old(rows), now, thresholdMs, maxRedrives);
              var after := FailAll(old(rows), capped);
              var under := UnderCap(after, later, thresholdMs, maxRedrives);
              && rows == RedriveAll(after, under, later)
              && Reports(failed, capped, rows) && Reports(recovered, under, rows)
      ensures rows.Keys == old(rows).Keys && forall id :: id in old(rows) ==>
                Sweeps(old(rows)[id], rows[id], now, later, thresholdMs, maxRedrives)
      // No stranded row: whatever was stuck when the sweep began is not PROCESSING when it ends.
      ensures forall id :: id in old(rows) && old(rows)[id].status == PROCESSING ==>
                var claimedAt := old(rows)[id].processingStartedAt;
                claimedAt.Some? && claimedAt.value < now - thresholdMs ==> rows[id].status != PROCESSING
    {
      var capped := PastCap(rows, now, thresholdMs, maxRedrives);
      var failedIds := Enumerate(capped);
      Store(FailAll(rows, capped));
      failed := Report(failedIds);

      var under := UnderCap(rows, later, thresholdMs, maxRedrives);
      var recoveredIds := Enumerate(under);
      Store(RedriveAll(rows, under, later));
      recovered := Report(recoveredIds);
      NoneLeftStuck(old(rows), now, later, thresholdMs, maxRedrives);
      SweepMeans(old(rows), now, later, thresholdMs, maxRedrives);
      ReportedSet(failedIds, failed, capped, rows);
      ReportedSet(recoveredIds, recovered, under, rows);
    }

    /** UPDATE ... WHERE id AND status = 'FAILED'; no match leaves the table alone. */
    method ApplyManualRetry(id: Id) returns (row: Option<Row>)
      requires Valid()
      modifies this`rows, this`past
      ensures old(past) <= past
      ensures Valid() && (row.Some? <==> id in old(rows) && old(rows)[id].status == FAILED)
      ensures row.Some? ==>
                row.value == old(rows)[id].(status := PENDING, attempts := 0,
                                            processingStartedAt := None, lastError := None)
      ensures rows == if row.Some? then old(rows)[id := row.value] else old(rows)
    {
      if id in rows && rows[id].status == FAILED {
        Store(rows[id := ManualRetryRow(rows[id])]);
        row := Some(rows[id]);
      } else {
        row := None;
      }
    }
  }

  /** Each row that is stuck when the sweep begins is past the cap or under it, and either statement moves it on. */
  lemma NoneLeftStuck(rows: map<Id, Row>, now: Time, later: Time, thresholdMs: int, maxRedrives: nat)
    requires now <= later
    ensures var capped := PastCap(rows, now, thresholdMs, maxRedrives);
            var after := FailAll(rows, capped);
            var swept := RedriveAll(after, UnderCap(after, later, thresholdMs, maxRedrives), later);
            forall id :: id in rows && Stuck(rows[id], now, thresholdMs) ==> swept[id].status != PROCESSING
  {
  }

  /** Reporting distinct ids reports the whole set, each once. */
  lemma ReportedSet(ids: seq<Id>, swept: seq<Swept>, s: set<Id>, rows: map<Id, Row>)
    requires Distinct(ids) && Members(ids) == s && |swept| == |ids|
    requires forall i :: 0 <= i < |ids| ==> swept[i].id == ids[i]
    requires forall i :: 0 <= i < |ids| ==> ids[i] in rows && swept[i].redriveCount == rows[ids[i]].redriveCount
    ensures Reports(swept, s, rows)
  {
    forall id | id in s ensures id in (set w | w in swept :: w.id) {
      var i :| 0 <= i < |ids| && ids[i] == id;
      assert swept[i] in swept;
    }
    DistinctCount(ids);
  }
}
