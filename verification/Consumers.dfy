/** The handlers of the notifier's three consumers, over the state machine and the queues they publish to. */
module Consumers {
  import opened Common
  import opened TypeCatalog
  import opened Notifications
  import opened OutboxRows
  import opened Selection
  import opened NotificationStore
  import opened StateMachine
  import Inbound
  import Delivery

  /** Those of `ids` whose publish the broker confirmed, in order. */
  function Accepted(ids: seq<Id>, rejected: set<Id>): seq<Id> {
    if ids == [] then []
    else Accepted(ids[..|ids| - 1], rejected) + (if ids[|ids| - 1] in rejected then [] else [ids[|ids| - 1]])
  }

  /** A claimed row gets one work message, or none when its publish failed. */
  lemma {:induction false} AcceptedOnce(ids: seq<Id>, rejected: set<Id>)
    requires Distinct(ids)
    ensures Distinct(Accepted(ids, rejected)) && Members(Accepted(ids, rejected)) == Members(ids) - rejected
  {
    if ids != [] {
      var init, last := ids[..|ids| - 1], ids[|ids| - 1];
      AcceptedOnce(init, rejected);
      assert ids == init + [last];
      assert Members(ids) == Members(init) + {last};
      assert last !in Members(init);
      assert Members(Accepted(init, rejected) + [last]) == Members(Accepted(init, rejected)) + {last};
      if last !in rejected {
        forall i | 0 <= i < |Accepted(init, rejected)| ensures Accepted(init, rejected)[i] != last {
          assert Accepted(init, rejected)[i] in Members(Accepted(init, rejected));
        }
      }
    }
  }

  /** The history of a tick: the sweep entries, then one CLAIMED_BY_TICK entry per claimed row. */
  ghost predicate TickLogged(before: seq<HistoryEntry>, after: seq<HistoryEntry>, capped: set<Id>, redriven: set<Id>,
                             swept: map<Id, Row>, claimed: seq<Id>) {
    exists mid :: SweepLogged(before, mid, capped, redriven, swept) && after == mid + Entries(claimed, CLAIMED_BY_TICK)
  }

  lemma TickIsLogged(before: seq<HistoryEntry>, mid: seq<HistoryEntry>, after: seq<HistoryEntry>, capped: set<Id>,
                     redriven: set<Id>,
                     swept: map<Id, Row>, claimed: seq<Id>)
    requires SweepLogged(before, mid, capped, redriven, swept) && after == mid + Entries(claimed, CLAIMED_BY_TICK)
    ensures TickLogged(before, after, capped, redriven, swept, claimed)
  {
  }

  class NotifierCronConsumer {
    const stateMachine: NotificationStateMachine
    const batchSize: nat
    const recoveryThresholdMs: nat
    const maxRedrives: nat
    var work: seq<Id>                  // messages published to notifications.work

    constructor (stateMachine: NotificationStateMachine, batchSize: nat, recoveryThresholdMs: nat, maxRedrives: nat)
      ensures this.stateMachine == stateMachine && this.batchSize == batchSize && work == []
      ensures this.recoveryThresholdMs == recoveryThresholdMs && this.maxRedrives == maxRedrives
    {
      this.stateMachine, this.batchSize := stateMachine, batchSize;
      this.recoveryThresholdMs, this.maxRedrives := recoveryThresholdMs, maxRedrives;
      work := [];
    }

    /**
     One tick: sweep, claim, dispatch. The clock is read once per
     statement; `rejected` are the publishes that fail.
     */
    method Handle(capAt: Time, redriveAt: Time, claimAt: Time, locked: set<Id>, rejected: set<Id>)
        returns (dispatched: seq<Id>, succeeded: bool, ghost order: seq<Id>)
      requires stateMachine.repo.Valid() && capAt <= redriveAt <= claimAt
      modifies this`work, stateMachine.repo`rows, stateMachine.repo`past, stateMachine.repo`history
      ensures stateMachine.repo.Valid()
      ensures var past := PastCap(old(stateMachine.repo.rows), capAt, recoveryThresholdMs, maxRedrives);
              var capped := FailAll(old(stateMachine.repo.rows), past);
              var under := UnderCap(capped, redriveAt, recoveryThresholdMs, maxRedrives);
              var swept := RedriveAll(capped, under, redriveAt);
              && Earliest(DueAt(swept, claimAt, locked), batchSize, dispatched)
              && stateMachine.repo.rows == ClaimAll(swept, Members(dispatched), claimAt)
              && TickLogged(old(stateMachine.repo.history), stateMachine.repo.history, past, under, swept, dispatched)
      ensures Reordered(dispatched, order) && work == old(work) + Accepted(order, rejected)
      ensures succeeded <==> Members(dispatched) !! rejected
    {
      var recovered, failed := stateMachine.RecoverStuck(recoveryThresholdMs, maxRedrives, capAt, redriveAt);
      ghost var swept, mid := stateMachine.repo.rows, stateMachine.repo.history;
      var claimed;
      dispatched, claimed := stateMachine.Claim(batchSize, claimAt, locked);
      TickIsLogged(old(stateMachine.repo.history), mid, stateMachine.repo.history,
                   PastCap(old(stateMachine.repo.rows), capAt, recoveryThresholdMs, maxRedrives),
                   UnderCap(FailAll(old(stateMachine.repo.rows),
                                    PastCap(old(stateMachine.repo.rows), capAt, recoveryThresholdMs, maxRedrives)),
                            redriveAt, recoveryThresholdMs, maxRedrives),
                   swept, dispatched);
      succeeded, order := Dispatch(dispatched, rejected);
    }

    /**
     One push.send message per claimed row, all publishes under way
     at once; a failing one does not stop the others.
     */
    method Dispatch(ids: seq<Id>, rejected: set<Id>) returns (succeeded: bool, ghost order: seq<Id>)
      modifies this`work
      ensures Reordered(ids, order) && work == old(work) + Accepted(order, rejected)
      ensures succeeded <==> Members(ids) !! rejected
    {
      succeeded, order := true, [];
      var todo := Members(ids);
      while todo != {}
        invariant Distinct(order) && Members(order) == Members(ids) - todo && todo <= Members(ids)
        invariant work == old(work) + Accepted(order, rejected)
        invariant succeeded <==> Members(order) !! rejected
        decreases todo
      {
        var id :| id in todo;
        assert (order + [id])[..|order|] == order && Members(order + [id]) == Members(order) + {id};
        assert id !in Members(order);
        if id in rejected { succeeded := false; } else { work := work + [id]; }
        order := order + [id];
        todo := todo - {id};
      }
    }
  }

  datatype RetryMessage = RetryMessage(notificationId: Id, expirationMs: int)

  /** What the push handler can change. */
  datatype PushState = PushState(rows: map<Id, Row>, history: seq<HistoryEntry>, posts: seq<Delivery.Post>,
                                 retries: seq<RetryMessage>)

  /** Every exit of the push handler: what it leaves, and whether it returned or threw. */
  ghost predicate PushHandled(catalog: Catalog, replica: map<Id, Row>, id: Id, answer: Outcome, sentAt: Time,
                              recordedAt: Time, random: real, retryRejected: bool, s: PushState, t: PushState, ok: bool)
  {
    if !(id in replica && replica[id].status == PROCESSING) then ok && t == s
    else
      var seen := replica[id];
      if EntryFor(catalog, seen.key.kind).None? || !ValidParams(seen.key.kind, seen.params) then !ok && t == s
      else
        && id in s.rows && SameColumns(seen, s.rows[id])
        && var policy := EntryFor(catalog, seen.key.kind).value.retryPolicy;
           var verdict := AttemptVerdict(s.rows[id], answer, policy.maxAttempts);
           && t.posts == s.posts + [Delivery.Post(sentAt, id, Render(seen.key.kind, seen.params), answer.Delivered?)]
           && t.rows == s.rows[id := AttemptRow(s.rows[id], answer, policy.maxAttempts, recordedAt)]
           && t.history == s.history + [AttemptEntry(id, answer)]
           && t.retries == s.retries + (if verdict.Retry? && !retryRejected
                                        then [RetryMessage(id, ComputeBackoffMs(policy, verdict.attempts, random))]
                                        else [])
           && (ok <==> !(verdict.Retry? && retryRejected))
  }

  class PushSendConsumer {
    const stateMachine: NotificationStateMachine
    const catalog: Catalog
    var posts: seq<Delivery.Post>
    var retries: seq<RetryMessage>     // messages published to notifications.retry.work

    constructor (stateMachine: NotificationStateMachine, catalog: Catalog)
      ensures this.stateMachine == stateMachine && this.catalog == catalog && posts == [] && retries == []
    {
      this.stateMachine, this.catalog := stateMachine, catalog;
      posts, retries := [], [];
    }

    function State(): PushState
      reads this, stateMachine.repo
    {
      PushState(stateMachine.repo.rows, stateMachine.repo.history, posts, retries)
    }

    /**
     One work message. `answer` is what the webhook did, `random` what Math.random() returned;
     an Err result is a throw, which the base consumer turns into a nack.
     */
    method Handle(id: Id, answer: Outcome, sentAt: Time, recordedAt: Time, random: real, retryRejected: bool)
        returns (result: Result<()>)
      requires stateMachine.repo.Valid()
      modifies this`posts, this`retries, stateMachine.repo`rows, stateMachine.repo`past, stateMachine.repo`history
      ensures stateMachine.repo.Valid()
      ensures PushHandled(catalog, stateMachine.repo.replica, id, answer, sentAt, recordedAt, random, retryRejected,
                          old(State()), State(), result.Ok?)
      // A row that the replica does not show as PROCESSING: acknowledged, and nothing happens.
      ensures (id in stateMachine.repo.replica ==> stateMachine.repo.replica[id].status != PROCESSING) ==>
                result.Ok? && State() == old(State())
      // One that it does, of a type and with parameters that the catalog takes: one POST, with the id as its key.
      ensures id in stateMachine.repo.replica ==>
                var seen := stateMachine.repo.replica[id];
                seen.status == PROCESSING && seen.key.kind == "USER_WELCOME"
                    && ValidParams(seen.key.kind, seen.params) ==>
                  && |posts| == |old(posts)| + 1 && posts[..|old(posts)|] == old(posts)
                  && posts[|old(posts)|] == Delivery.Post(sentAt, id, seen.params, answer.Delivered?)
                  && id in old(stateMachine.repo.rows)
                  && AttemptLogged(old(stateMachine.repo.history), stateMachine.repo.history, id, answer)
                  && var r, s := old(stateMachine.repo.rows)[id], stateMachine.repo.rows[id];
                     var again := !answer.Delivered? && r.attempts + 1 < catalog.userWelcomeMaxAttempts;
                     var verdict := if answer.Delivered? then SentVerdict
                                    else if again then Retry(r.attempts + 1) else TerminalFailed;
                     && Judged(r, s, verdict, answer, catalog.userWelcomeMaxAttempts, recordedAt)
                     && stateMachine.repo.rows == old(stateMachine.repo.rows)[id := s]
                     && retries == old(retries)
                                   + (if again && !retryRejected then [RetryMessage(id, 1_000 * Pow2(r.attempts))]
                                      else [])
                     && (result.Ok? <==> !(again && retryRejected))
    {
      var found := stateMachine.repo.FindById(id);
      if found.None? { return Ok(()); }
      var row := found.value;
      if row.status == SENT || row.status == FAILED { return Ok(()); }
      if row.status != PROCESSING { return Ok(()); }

      var entry := EntryFor(catalog, row.key.kind);
      if entry.None? { return Err("unknown notification type for stored row"); }
      if !ValidParams(row.key.kind, row.params) { return Err("stored params do not parse"); }

      RenderIsParams(row.key.kind, row.params);
      posts := posts + [Delivery.Post(sentAt, row.id, Render(row.key.kind, row.params), answer.Delivered?)];
      var verdict := stateMachine.RecordAttempt(row.id, answer, entry.value.retryPolicy.maxAttempts, recordedAt);
      if verdict.Err? { return Err("record to update not found"); }
      if verdict.value.SentVerdict? || verdict.value.TerminalFailed? { return Ok(()); }

      var backoffMs := ComputeBackoffMs(entry.value.retryPolicy, verdict.value.attempts, random);
      if retryRejected { return Err("retry publish failed"); }
      retries := retries + [RetryMessage(row.id, backoffMs)];
      result := Ok(());
    }
  }

  class IngestConsumer {
    const stateMachine: NotificationStateMachine
    const catalog: Catalog

    constructor (stateMachine: NotificationStateMachine, catalog: Catalog)
      ensures this.stateMachine == stateMachine && this.catalog == catalog
    {
      this.stateMachine, this.catalog := stateMachine, catalog;
    }

    /** Unknown type or invalid params throw before anything is written; otherwise the row is stored or already was. */
    method Handle(event: IngestEvent, now: Time, newId: Id) returns (outcome: Result<IngestOutcome>)
      requires stateMachine.repo.Valid()
      modifies stateMachine.repo`rows, stateMachine.repo`past, stateMachine.repo`index, stateMachine.repo`history
      ensures stateMachine.repo.Valid()
      ensures forall id :: id in old(stateMachine.repo.rows) ==>
                id in stateMachine.repo.rows && stateMachine.repo.rows[id] == old(stateMachine.repo.rows)[id]
      ensures EntryFor(catalog, event.kind).None? || !ValidParams(event.kind, event.params) ==>
                outcome.Err? && stateMachine.repo.rows == old(stateMachine.repo.rows)
      ensures outcome.Ok? ==>
                && outcome.value.notificationId in stateMachine.repo.rows
                && stateMachine.repo.rows[outcome.value.notificationId].key == EventKey(event)
                && var before := old(stateMachine.repo.rows);
                   outcome.value.deduped == exists id :: id in before && before[id].key == EventKey(event)
      // A new row is PENDING, with nothing counted yet, for the event's own time or the configured delay from now.
      ensures outcome.Ok? && !outcome.value.deduped ==>
                && outcome.value.notificationId == newId && newId in stateMachine.repo.rows
                && var r := stateMachine.repo.rows[newId];
                   && r.scheduledFor == (if event.scheduledFor.Some? then event.scheduledFor.value
                                         else now + catalog.userWelcomeDelayMs)
                   && r.id == newId && r.key == Key(event.kind, event.sourceEventId)
                   && r.recipient == event.recipient && r.params == event.params && r.channel == Webhook
                   && r.status == PENDING && r.attempts == 0 && r.redriveCount == 0 && r.processingStartedAt == None
                   && r.lastRedrivenAt == None && r.lastError == None && r.sentAt == None
      ensures event.kind != "USER_WELCOME" ==> outcome.Err?
      ensures outcome.Ok? && !outcome.value.deduped ==>
                && EntryFor(catalog, event.kind).Some?
                && stateMachine.repo.rows
                    == old(stateMachine.repo.rows)[newId := Inbound.IngestRow(catalog, now, event, newId)]
                && stateMachine.repo.history == old(stateMachine.repo.history)
                    + [HistoryEntry(newId, CREATED, NoPayload)]
      ensures (outcome.Ok? && outcome.value.deduped) || outcome.Err? ==>
                stateMachine.repo.rows == old(stateMachine.repo.rows)
                    && stateMachine.repo.history == old(stateMachine.repo.history)
      ensures EntryFor(catalog, event.kind).Some? && ValidParams(event.kind, event.params) && outcome.Err? ==>
                newId in old(stateMachine.repo.rows)
    {
      var entry := EntryFor(catalog, event.kind);
      if entry.None? { return Err("unknown notification type"); }
      if !ValidParams(event.kind, event.params) { return Err("params do not parse"); }
      outcome := stateMachine.Ingest(Inbound.IngestRow(catalog, now, event, newId));
    }
  }
}
