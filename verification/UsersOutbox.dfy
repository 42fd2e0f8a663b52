/** The users service: the outbox repository, createUser, and the claim-and-publish round. */
module UsersOutbox {
  import opened Common
  import opened TypeCatalog
  import opened Notifications
  import opened OutboxRows
  import opened Selection
  import opened Routing

  // ---------------------------------------------------------------- statements on the whole outbox

  function EligibleAt(outbox: map<Id, OutboxRow>, locked: set<Id>): map<Id, Time> {
    map id | id in outbox && Eligible(outbox[id]) && id !in locked :: outbox[id].createdAt
  }

  function ClaimRows(outbox: map<Id, OutboxRow>, ids: set<Id>, now: Time): map<Id, OutboxRow> {
    map id | id in outbox :: if id in ids then ClaimOutboxRow(outbox[id], now) else outbox[id]
  }

  function StuckIds(outbox: map<Id, OutboxRow>, now: Time, thresholdMs: int): set<Id> {
    set id | id in outbox && OutboxStuck(outbox[id], now, thresholdMs)
  }

  function UnclaimRows(outbox: map<Id, OutboxRow>, ids: set<Id>): map<Id, OutboxRow> {
    map id | id in outbox :: if id in ids then UnclaimRow(outbox[id]) else outbox[id]
  }

  datatype ClaimedRow = ClaimedRow(id: Id, payload: IngestEvent, sourceEventId: string)

  /** What a sweep makes of one row. */
  predicate SweptRow(r: OutboxRow, s: OutboxRow, now: Time, thresholdMs: int) {
    s == if r.publishedAt.None? && r.publishingStartedAt.Some? && r.publishingStartedAt.value < now - thresholdMs
         then r.(publishingStartedAt := None) else r
  }

  /** May be claimed: neither published nor in a claim, and not locked by another one. */
  predicate Unclaimed(outbox: map<Id, OutboxRow>, locked: set<Id>, id: Id) {
    id in outbox && outbox[id].publishedAt.None? && outbox[id].publishingStartedAt.None? && id !in locked
  }

  /** At most `batch` unclaimed rows, none of them younger than one left behind, and all of them if they fit. */
  ghost predicate OldestFirst(outbox: map<Id, OutboxRow>, locked: set<Id>, batch: nat, ids: seq<Id>) {
    && Distinct(ids) && |ids| <= batch
    && (forall id :: id in ids ==> Unclaimed(outbox, locked, id))
    && (forall id, left :: id in ids && Unclaimed(outbox, locked, left) && left !in ids ==>
          outbox[id].createdAt <= outbox[left].createdAt)
    && (|ids| < batch ==> forall left :: Unclaimed(outbox, locked, left) ==> left in ids)
  }

  lemma ClaimSelects(outbox: map<Id, OutboxRow>, locked: set<Id>, batch: nat, ids: seq<Id>)
    requires Earliest(EligibleAt(outbox, locked), batch, ids)
    ensures OldestFirst(outbox, locked, batch, ids)
  {
    var eligible := EligibleAt(outbox, locked);
    forall id | id in ids ensures Unclaimed(outbox, locked, id) {
      var i :| 0 <= i < |ids| && ids[i] == id;
      assert ids[i] in eligible;
    }
    forall id, left | id in ids && Unclaimed(outbox, locked, left) && left !in ids
      ensures outbox[id].createdAt <= outbox[left].createdAt
    {
      var i :| 0 <= i < |ids| && ids[i] == id;
      assert left in eligible && eligible[ids[i]] <= eligible[left];
    }
    if |ids| < batch { AllTaken(eligible, ids); }
  }

  class UsersOutboxRepository {
    var outbox: map<Id, OutboxRow>

    constructor ()
      ensures outbox == map[]
    {
      outbox := map[];
    }

    /** The primary key refuses a second row with the same id. */
    method Enqueue(row: OutboxRow) returns (inserted: bool)
      modifies this
      ensures inserted == (row.id !in old(outbox))
      ensures outbox == if inserted then old(outbox)[row.id := row] else old(outbox)
    {
      inserted := row.id !in outbox;
      if inserted { outbox := outbox[row.id := row]; }
    }

    method SweepStuck(thresholdMs: int, now: Time) returns (swept: nat)
      modifies this
      ensures outbox == UnclaimRows(old(outbox), StuckIds(old(outbox), now, thresholdMs))
      ensures swept == |StuckIds(old(outbox), now, thresholdMs)|
      // An unpublished row keeps a claim that is not older than the threshold, and no other; nothing else changes.
      ensures outbox.Keys == old(outbox).Keys
      ensures forall id :: id in old(outbox) ==> SweptRow(old(outbox)[id], outbox[id], now, thresholdMs)
      ensures forall id :: id in outbox && outbox[id].publishedAt.None? && outbox[id].publishingStartedAt.Some? ==>
                outbox[id].publishingStartedAt.value >= now - thresholdMs
    {
      var ids := StuckIds(outbox, now, thresholdMs);
      outbox := UnclaimRows(outbox, ids);
      swept := |ids|;
    }

    method ClaimBatch(batchSize: nat, now: Time, locked: set<Id>) returns (ids: seq<Id>, claimed: seq<ClaimedRow>)
      modifies this
      ensures Earliest(EligibleAt(old(outbox), locked), batchSize, ids)
      ensures outbox == ClaimRows(old(outbox), Members(ids), now)
      ensures OldestFirst(old(outbox), locked, batchSize, ids)
      ensures outbox.Keys == old(outbox).Keys
      ensures forall id :: id in old(outbox) ==>
                outbox[id] == if id in ids then old(outbox)[id].(publishingStartedAt := Some(now)) else old(outbox)[id]
      ensures |claimed| == |ids|
      ensures forall i :: 0 <= i < |ids| ==>
                ids[i] in old(outbox)
                && claimed[i] == ClaimedRow(ids[i], old(outbox)[ids[i]].payload, old(outbox)[ids[i]].sourceEventId)
    {
      var eligible := EligibleAt(outbox, locked);
      ids := TakeEarliest(eligible, batchSize);
      claimed := [];
      for i := 0 to |ids|
        invariant |claimed| == i
        invariant forall j :: 0 <= j < i ==>
                    ids[j] in outbox && claimed[j] == ClaimedRow(ids[j], outbox[ids[j]].payload,
                                                                 outbox[ids[j]].sourceEventId)
      {
        assert ids[i] in eligible;
        claimed := claimed + [ClaimedRow(ids[i], outbox[ids[i]].payload, outbox[ids[i]].sourceEventId)];
      }
      ClaimSelects(outbox, locked, batchSize, ids);
      outbox := ClaimRows(outbox, Members(ids), now);
    }

    method MarkPublished(id: Id, now: Time)
      modifies this
      ensures id !in old(outbox) ==> outbox == old(outbox)
      ensures id in old(outbox) ==>
                outbox == old(outbox)[id := old(outbox)[id].(publishedAt := Some(now), publishingStartedAt := None)]
    {
      if id in outbox { outbox := outbox[id := MarkPublishedRow(outbox[id], now)]; }
    }

    method ReleaseClaim(id: Id)
      modifies this
      ensures outbox == if id in old(outbox) && old(outbox)[id].publishedAt.None?
                        then old(outbox)[id := old(outbox)[id].(publishingStartedAt := None)] else old(outbox)
    {
      if id in outbox && outbox[id].publishedAt.None? { outbox := outbox[id := UnclaimRow(outbox[id])]; }
    }
  }

  // ---------------------------------------------------------------- createUser

  /** An unpublished row with the welcome event of the user: both ids, the name, no schedule of its own. */
  predicate Welcomes(r: OutboxRow, userId: string, name: string, sourceEventId: string, now: Time) {
    && r.aggregateId == userId && r.eventType == "user.created" && r.sourceEventId == sourceEventId
    && r.publishedAt == None && r.publishingStartedAt == None && r.createdAt == now
    && r.payload.kind == "USER_WELCOME" && r.payload.sourceEventId == sourceEventId && r.payload.scheduledFor == None
    && r.payload.recipient == Recipient(Some(userId), None, None, None)
    && r.payload.params == Obj(map["userId" := Str(userId), "name" := Str(name)])
  }

  class CreateUserCommand {
    const repository: UsersOutboxRepository
    var users: map<string, string>

    constructor (repository: UsersOutboxRepository)
      ensures this.repository == repository && users == map[]
    {
      this.repository := repository;
      users := map[];
    }

    /** The user and its outbox row commit together or not at all; the envelope carries both ids and the name. */
    method Execute(name: string, userId: string, outboxId: Id, sourceEventId: string, now: Time) returns (created: bool)
      modifies this, repository
      ensures created == (userId !in old(users) && outboxId !in old(repository.outbox))
      ensures users == if created then old(users)[userId := name] else old(users)
      ensures repository.outbox == if created
              then old(repository.outbox)[outboxId := NewOutboxRow(outboxId, userId, name, sourceEventId, now)]
                                   else old(repository.outbox)
      ensures created ==> Welcomes(repository.outbox[outboxId], userId, name, sourceEventId, now)
      ensures created && |userId| >= 1 && |name| >= 1 && |sourceEventId| >= 1 ==>
                var e := repository.outbox[outboxId].payload;
                ValidEnvelope(e) && ValidParams(e.kind, e.params)
    {
      var before := users;
      if userId in users { return false; }
      users := users[userId := name];
      created := repository.Enqueue(NewOutboxRow(outboxId, userId, name, sourceEventId, now));
      if !created { users := before; }
    }
  }

  // ---------------------------------------------------------------- claim and publish

  /** What a publish hands to the broker. */
  datatype OutMessage = OutMessage(event: IngestEvent, messageId: string, routingKey: string)

  datatype Round = Round(swept: nat, claimed: nat, published: nat, failed: nat)

  /** What the outside does to one row's publish. */
  datatype Fate = Succeeds | PublishThrows | MarkThrows

  function FateOf(fates: map<Id, Fate>, id: Id): Fate {
    if id in fates then fates[id] else Succeeds
  }

  function Message(row: OutboxRow): OutMessage {
    OutMessage(row.payload, row.sourceEventId, RoutingKeyFor(row.payload.kind))
  }

  /** The messages of a round: every claimed row whose publish went through, whether or not its mark did. */
  function Outgoing(outbox: map<Id, OutboxRow>, ids: seq<Id>, fates: map<Id, Fate>): seq<OutMessage>
    requires forall id :: id in ids ==> id in outbox
  {
    if ids == [] then []
    else
      var last := ids[|ids| - 1];
      Outgoing(outbox, ids[..|ids| - 1], fates)
          + (if FateOf(fates, last).PublishThrows? then [] else [Message(outbox[last])])
  }

  /** A round's effect on the outbox: the fully successful rows are published, the others stay claimed. */
  function AfterRound(outbox: map<Id, OutboxRow>, ids: set<Id>, fates: map<Id, Fate>, marks: Id -> Time):
    map<Id, OutboxRow>
  {
    map id | id in outbox ::
      if id in ids && FateOf(fates, id).Succeeds? then MarkPublishedRow(outbox[id], marks(id)) else outbox[id]
  }

  /** The rows that were published and marked. */
  function Successes(ids: set<Id>, fates: map<Id, Fate>): set<Id> {
    set id | id in ids && FateOf(fates, id).Succeeds?
  }

  lemma AfterRoundStep(outbox: map<Id, OutboxRow>, done: set<Id>, id: Id, fates: map<Id, Fate>, marks: Id -> Time)
    requires id in outbox && id !in done
    ensures var current := AfterRound(outbox, done, fates, marks);
            && id in current && current[id] == outbox[id]
            && AfterRound(outbox, done + {id}, fates, marks)
               == if FateOf(fates, id).Succeeds? then current[id := MarkPublishedRow(outbox[id], marks(id))]
                   else current
  {
  }

  /** A marked row was published: the outbox never says Published without a message that carries its payload. */
  lemma {:induction false} MarkedWasSent(outbox: map<Id, OutboxRow>, ids: seq<Id>, fates: map<Id, Fate>, id: Id)
    requires forall k :: k in ids ==> k in outbox
    requires id in ids && !FateOf(fates, id).PublishThrows?
    ensures Message(outbox[id]) in Outgoing(outbox, ids, fates)
  {
    var init, last := ids[..|ids| - 1], ids[|ids| - 1];
    if id != last {
      assert ids == init + [last];
      MarkedWasSent(outbox, init, fates, id);
    }
  }

  /** Claiming changes no payload, so the messages are those of the rows as they were. */
  lemma {:induction false} SamePayloads(outbox: map<Id, OutboxRow>, ids: seq<Id>, now: Time, fates: map<Id, Fate>)
    requires forall id :: id in ids ==> id in outbox
    ensures forall claimed: set<Id> ::
              Outgoing(ClaimRows(outbox, claimed, now), ids, fates) == Outgoing(outbox, ids, fates)
  {
    if ids != [] {
      SamePayloads(outbox, ids[..|ids| - 1], now, fates);
    }
  }

  /** The rows in `done` are through, in that order. */
  ghost predicate Progress(outbox: map<Id, OutboxRow>, done: seq<Id>, fates: map<Id, Fate>, marks: Id -> Time,
                           current: map<Id, OutboxRow>, sent: seq<OutMessage>, published: nat)
  {
    && Distinct(done) && (forall id :: id in done ==> id in outbox)
    && current == AfterRound(outbox, Members(done), fates, marks)
    && sent == Outgoing(outbox, done, fates)
    && published == |Successes(Members(done), fates)|
  }

  lemma ProgressStart(outbox: map<Id, OutboxRow>, fates: map<Id, Fate>, marks: Id -> Time)
    ensures Progress(outbox, [], fates, marks, outbox, [], 0)
  {
    assert AfterRound(outbox, {}, fates, marks) == outbox;
    assert Members([]) == {} && Successes({}, fates) == {};
  }

  lemma ProgressStep(outbox: map<Id, OutboxRow>, done: seq<Id>, id: Id, fates: map<Id, Fate>, marks: Id -> Time,
                     current: map<Id, OutboxRow>, sent: seq<OutMessage>, published: nat)
    requires id in outbox && id !in Members(done) && Progress(outbox, done, fates, marks, current, sent, published)
    ensures id in current && current[id] == outbox[id]
    ensures var fate := FateOf(fates, id);
            Progress(outbox, done + [id], fates, marks,
                     if fate.Succeeds? then current[id := MarkPublishedRow(outbox[id], marks(id))] else current,
                     sent + (if fate.PublishThrows? then [] else [Message(outbox[id])]),
                     published + (if fate.Succeeds? then 1 else 0))
  {
    assert (done + [id])[..|done|] == done;
    assert Members(done + [id]) == Members(done) + {id};
    AfterRoundStep(outbox, Members(done), id, fates, marks);
    SuccessesStep(Members(done), id, fates);
  }

  lemma SuccessesStep(done: set<Id>, id: Id, fates: map<Id, Fate>)
    requires id !in done
    ensures |Successes(done + {id}, fates)| == |Successes(done, fates)| + (if FateOf(fates, id).Succeeds? then 1 else 0)
  {
    assert Successes(done + {id}, fates)
           == if FateOf(fates, id).Succeeds? then Successes(done, fates) + {id} else Successes(done, fates);
  }

  lemma SuccessesWithin(ids: seq<Id>, fates: map<Id, Fate>)
    requires Distinct(ids)
    ensures |Successes(Members(ids), fates)| <= |ids|
  {
    DistinctCount(ids);
    SubsetSize(Successes(Members(ids), fates), Members(ids));
  }

  /** What a round makes of one row. */
  predicate RoundRow(r: OutboxRow, s: OutboxRow, inRound: bool, succeeds: bool, sweptAt: Time, thresholdMs: int,
                     claimedAt: Time, markedAt: Time)
  {
    if inRound && succeeds then s == r.(publishedAt := Some(markedAt), publishingStartedAt := None)
    else if inRound then s == r.(publishingStartedAt := Some(claimedAt))
    else SweptRow(r, s, sweptAt, thresholdMs)
  }

  /** Unpublished, and without a claim or with one past the threshold. */
  predicate ClaimableAfter(r: OutboxRow, sweptAt: Time, thresholdMs: int) {
    r.publishedAt.None? && (r.publishingStartedAt.Some? ==> r.publishingStartedAt.value < sweptAt - thresholdMs)
  }

  lemma RoundMeans(outbox: map<Id, OutboxRow>, sweptAt: Time, thresholdMs: int, claimedAt: Time, ids: seq<Id>,
                   fates: map<Id, Fate>, marks: Id -> Time)
    requires Distinct(ids)
    ensures var swept := UnclaimRows(outbox, StuckIds(outbox, sweptAt, thresholdMs));
            var after := AfterRound(ClaimRows(swept, Members(ids), claimedAt), Members(ids), fates, marks);
            after.Keys == outbox.Keys && forall id :: id in outbox ==>
              RoundRow(outbox[id], after[id], id in ids, FateOf(fates, id).Succeeds?, sweptAt, thresholdMs, claimedAt,
                       marks(id))
  {
  }

  /** The messages of a round are those of its rows whose publish goes through: payload, source event id, own key. */
  lemma {:induction false} OutgoingMeans(outbox: map<Id, OutboxRow>, ids: seq<Id>, fates: map<Id, Fate>, o: OutMessage)
    requires forall k :: k in ids ==> k in outbox
    ensures o in Outgoing(outbox, ids, fates) <==> exists id :: Sends(outbox, ids, fates, id, o)
  {
    if ids != [] {
      var init, last := ids[..|ids| - 1], ids[|ids| - 1];
      assert ids == init + [last];
      OutgoingMeans(outbox, init, fates, o);
      if id :| Sends(outbox, ids, fates, id, o) {
        if id in init { assert Sends(outbox, init, fates, id, o); }
      }
      if id :| Sends(outbox, init, fates, id, o) { assert Sends(outbox, ids, fates, id, o); }
      if o in Outgoing(outbox, ids, fates) && o !in Outgoing(outbox, init, fates) {
        assert Sends(outbox, ids, fates, last, o);
      }
    }
  }

  predicate Sends(outbox: map<Id, OutboxRow>, ids: seq<Id>, fates: map<Id, Fate>, id: Id, o: OutMessage) {
    && id in ids && id in outbox && (id in fates ==> fates[id] != PublishThrows)
    && o.event == outbox[id].payload && o.messageId == outbox[id].sourceEventId
    && o.routingKey == RoutingKeyFor(outbox[id].payload.kind)
  }

  class ClaimAndPublishUsersCommand {
    const repository: UsersOutboxRepository
    const stuckThresholdMs: nat
    const batchSize: nat
    var ingest: seq<OutMessage>         // messages confirmed by notifications.ingest

    constructor (repository: UsersOutboxRepository, stuckThresholdMs: nat, batchSize: nat)
      ensures this.repository == repository && ingest == []
      ensures this.stuckThresholdMs == stuckThresholdMs && this.batchSize == batchSize
    {
      this.repository, this.stuckThresholdMs, this.batchSize := repository, stuckThresholdMs, batchSize;
      ingest := [];
    }

    /**
     Sweep, claim, publish each row and mark it only after its publish was confirmed. The publishes run at
     the same time: `order` is the one in which the broker takes them, and each row is marked at its own time.
     */
    method Execute(sweptAt: Time, claimedAt: Time, marks: Id -> Time, locked: set<Id>, fates: map<Id, Fate>)
        returns (round: Round, ids: seq<Id>, ghost order: seq<Id>)
      modifies this, repository
      ensures var stuck := StuckIds(old(repository.outbox), sweptAt, stuckThresholdMs);
              var swept := UnclaimRows(old(repository.outbox), stuck);
              var claimed := ClaimRows(swept, Members(ids), claimedAt);
              && Earliest(EligibleAt(swept, locked), batchSize, ids)
              && Reordered(ids, order)
              && (forall id :: id in order ==> id in swept)
              && repository.outbox == AfterRound(claimed, Members(ids), fates, marks)
              && ingest == old(ingest) + Outgoing(swept, order, fates)
              && round.swept == |stuck| && round.claimed == |ids|
              && round.published == |Successes(Members(ids), fates)|
              && round.published + round.failed == round.claimed
      // Row by row: published at its own time, or still in its new claim, or as the sweep left it.
      ensures repository.outbox.Keys == old(repository.outbox).Keys && forall id :: id in old(repository.outbox) ==>
                RoundRow(old(repository.outbox)[id], repository.outbox[id], id in ids, FateOf(fates, id).Succeeds?,
                         sweptAt, stuckThresholdMs, claimedAt, marks(id))
      ensures forall id :: id in ids ==>
                id in old(repository.outbox)
                && ClaimableAfter(old(repository.outbox)[id], sweptAt, stuckThresholdMs)
    {
      var swept := repository.SweepStuck(stuckThresholdMs, sweptAt);
      ghost var afterSweep := repository.outbox;
      var claimed;
      ids, claimed := repository.ClaimBatch(batchSize, claimedAt, locked);
      var published;
      published, order := PublishAll(ids, claimed, fates, marks);
      SamePayloads(UnclaimRows(old(repository.outbox), StuckIds(old(repository.outbox), sweptAt, stuckThresholdMs)),
                   order, claimedAt, fates);
      round := Round(swept, |ids|, published, |ids| - published);
      RoundMeans(old(repository.outbox), sweptAt, stuckThresholdMs, claimedAt, ids, fates, marks);
      forall id | id in ids
        ensures id in old(repository.outbox) && ClaimableAfter(old(repository.outbox)[id], sweptAt, stuckThresholdMs)
      {
        assert Unclaimed(afterSweep, locked, id);
        assert SweptRow(old(repository.outbox)[id], afterSweep[id], sweptAt, stuckThresholdMs);
      }
    }

    method PublishAll(ids: seq<Id>, claimed: seq<ClaimedRow>, fates: map<Id, Fate>, marks: Id -> Time)
        returns (published: nat, ghost order: seq<Id>)
      requires Distinct(ids) && |claimed| == |ids|
      requires forall i :: 0 <= i < |ids| ==>
                 && ids[i] in repository.outbox
                 && claimed[i] == ClaimedRow(ids[i], repository.outbox[ids[i]].payload,
                                             repository.outbox[ids[i]].sourceEventId)
      modifies this`ingest, repository
      ensures Reordered(ids, order)
      ensures repository.outbox == AfterRound(old(repository.outbox), Members(ids), fates, marks)
      ensures forall id :: id in order ==> id in old(repository.outbox)
      ensures ingest == old(ingest) + Outgoing(old(repository.outbox), order, fates)
      ensures published == |Successes(Members(ids), fates)| <= |ids|
    {
      hide AfterRound, Outgoing, Successes;
      published, order := 0, [];
      ghost var sent := [];
      var todo := Members(ids);
      ProgressStart(repository.outbox, fates, marks);
      while todo != {}
        invariant todo <= Members(ids) && Members(order) == Members(ids) - todo
        invariant Progress(old(repository.outbox), order, fates, marks, repository.outbox, sent, published)
        invariant ingest == old(ingest) + sent
        decreases todo
      {
        var id :| id in todo;
        var i :| 0 <= i < |ids| && ids[i] == id;
        assert Members(order + [id]) == Members(order) + {id};
        ProgressStep(old(repository.outbox), order, id, fates, marks, repository.outbox, sent, published);
        var ok := PublishOne(claimed[i], FateOf(fates, id), marks(id));
        sent := sent + (if FateOf(fates, id).PublishThrows? then [] else [Message(old(repository.outbox)[id])]);
        if ok { published := published + 1; }
        order := order + [id];
        todo := todo - {id};
      }
      SuccessesWithin(ids, fates);
    }

    /** Publish, then mark; a throw in either leaves the row claimed. */
    method PublishOne(row: ClaimedRow, fate: Fate, now: Time) returns (ok: bool)
      modifies this`ingest, repository
      ensures ok == fate.Succeeds?
      ensures ingest == if fate.PublishThrows? then old(ingest)
                        else old(ingest) + [OutMessage(row.payload, row.sourceEventId, RoutingKeyFor(row.payload.kind))]
      ensures var before := old(repository.outbox);
              repository.outbox
              == if ok && row.id in before then before[row.id := MarkPublishedRow(before[row.id], now)] else before
    {
      if fate.PublishThrows? { return false; }
      ingest := ingest + [OutMessage(row.payload, row.sourceEventId, RoutingKeyFor(row.payload.kind))];
      if fate.MarkThrows? { return false; }
      repository.MarkPublished(row.id, now);
      ok := true;
    }
  }
}
