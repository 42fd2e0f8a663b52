/** No event is lost and every event is ingested once, whatever crashes and duplicates happen on the way. */
module InboundInvariants {
  import opened Common
  import opened TypeCatalog
  import opened Notifications
  import opened OutboxRows
  import opened Inbound

  // ---------------------------------------------------------------- the users service

  predicate WrittenRow(u: Users, id: Id, r: OutboxRow) {
    && r.id == id
    && |r.aggregateId| >= 1 && r.aggregateId in u.users && |u.users[r.aggregateId]| >= 1
    && r.payload == WelcomeEvent(r.aggregateId, u.users[r.aggregateId], r.sourceEventId)
    && r.sourceEventId in u.bySource && u.bySource[r.sourceEventId] == id
  }

  /** Outbox rows are what createUser wrote, one per source event. */
  ghost predicate Written(u: Users) {
    && (forall id :: id in u.outbox ==> WrittenRow(u, id, u.outbox[id]))
    && (forall e :: e in u.bySource ==> u.bySource[e] in u.outbox && u.outbox[u.bySource[e]].sourceEventId == e)
  }

  predicate RowTraffic(r: OutboxRow, t: Traffic) {
    && (r.publishedAt.Some? ==> r.publishingStartedAt.None? && t.confirmed)
    && t.claims <= t.resets + (if Eligible(r) then 0 else 1)
  }

  /** Published implies confirmed and no claim time; two claims of a row have a sweep or a release between them. */
  ghost predicate OutboxMachine(u: Users) {
    && u.traffic.Keys == u.outbox.Keys
    && (forall id :: id in u.outbox ==> RowTraffic(u.outbox[id], u.traffic[id]))
    && (forall h :: 0 <= h < |u.hands| ==> u.hands[h].outboxId in u.outbox)
    && (forall h :: 0 <= h < |u.hands| && u.hands[h].step == Confirmed ==> u.traffic[u.hands[h].outboxId].confirmed)
  }

  /** Payloads and source events are never forgotten or changed. */
  ghost predicate UsersGrow(u: Users, v: Users) {
    && (forall id :: id in u.outbox ==> id in v.outbox && v.outbox[id].payload == u.outbox[id].payload)
    && (forall e :: e in u.bySource ==> e in v.bySource && v.bySource[e] == u.bySource[e])
  }

  lemma UsersGrowth(cfg: Config, now: Time, u: Users, a: UsersAction)
    requires UsersEnabled(cfg, now, u, a)
    ensures UsersGrow(u, UsersNext(cfg, now, u, a))
  {
  }

  lemma WrittenKept(cfg: Config, now: Time, u: Users, a: UsersAction)
    requires UsersEnabled(cfg, now, u, a) && Written(u)
    ensures Written(UsersNext(cfg, now, u, a))
  {
    if a.CreateUser? { WrittenByCreate(cfg, now, u, a); } else { WrittenByOthers(cfg, now, u, a); }
  }

  lemma WrittenByCreate(cfg: Config, now: Time, u: Users, a: UsersAction)
    requires UsersEnabled(cfg, now, u, a) && Written(u) && a.CreateUser?
    ensures Written(UsersNext(cfg, now, u, a))
  {
    var v := UsersNext(cfg, now, u, a);
    forall id | id in v.outbox ensures WrittenRow(v, id, v.outbox[id]) {
      assert id in u.outbox ==> WrittenRow(u, id, u.outbox[id]);
    }
  }

  /** Every other action leaves users and source events alone and changes at most the times of one row. */
  lemma WrittenByOthers(cfg: Config, now: Time, u: Users, a: UsersAction)
    requires UsersEnabled(cfg, now, u, a) && Written(u) && !a.CreateUser?
    ensures Written(UsersNext(cfg, now, u, a))
  {
    var v := UsersNext(cfg, now, u, a);
    OnlyTimes(cfg, now, u, a);
    hide UsersNext, UsersEnabled;
    forall id | id in v.outbox ensures WrittenRow(v, id, v.outbox[id]) {
      assert WrittenRow(u, id, u.outbox[id]);
    }
  }

  lemma OnlyTimes(cfg: Config, now: Time, u: Users, a: UsersAction)
    requires UsersEnabled(cfg, now, u, a) && !a.CreateUser?
    ensures var v := UsersNext(cfg, now, u, a);
            && v.users == u.users && v.bySource == u.bySource && v.outbox.Keys == u.outbox.Keys
            && forall id :: id in u.outbox ==>
                 v.outbox[id] == u.outbox[id].(publishedAt := v.outbox[id].publishedAt,
                                               publishingStartedAt := v.outbox[id].publishingStartedAt)
  {
  }

  lemma OutboxMachineKept(cfg: Config, now: Time, u: Users, a: UsersAction)
    requires UsersEnabled(cfg, now, u, a) && OutboxMachine(u)
    ensures OutboxMachine(UsersNext(cfg, now, u, a))
  {
    hide OutboxMachine, UsersNext, UsersEnabled;
    match a
    case CreateUser(_, _, _, _) => MachineOfRows(cfg, now, u, a);
    case Sweep(_) => MachineOfRows(cfg, now, u, a);
    case Claim(_) => MachineOfRows(cfg, now, u, a);
    case Release(_) => MachineOfRows(cfg, now, u, a);
    case _ => MachineOfHands(cfg, now, u, a);
  }

  lemma MachineOfRows(cfg: Config, now: Time, u: Users, a: UsersAction)
    requires UsersEnabled(cfg, now, u, a) && OutboxMachine(u)
    requires a.CreateUser? || a.Sweep? || a.Claim? || a.Release?
    ensures OutboxMachine(UsersNext(cfg, now, u, a))
  {
    var v := UsersNext(cfg, now, u, a);
    forall id | id in v.outbox ensures RowTraffic(v.outbox[id], v.traffic[id]) {
      assert id in u.outbox ==> RowTraffic(u.outbox[id], u.traffic[id]);
    }
  }

  lemma MachineOfHands(cfg: Config, now: Time, u: Users, a: UsersAction)
    requires UsersEnabled(cfg, now, u, a) && OutboxMachine(u)
    requires a.Publish? || a.PublishUnconfirmed? || a.PublisherFails? || a.MarkPublished?
    ensures OutboxMachine(UsersNext(cfg, now, u, a))
  {
    var v := UsersNext(cfg, now, u, a);
    forall id | id in v.outbox ensures RowTraffic(v.outbox[id], v.traffic[id]) {
      assert RowTraffic(u.outbox[id], u.traffic[id]);
    }
  }

  /** Published is absorbing: nothing takes the row back to Pending or to a claim. */
  lemma PublishedAbsorbs(cfg: Config, now: Time, u: Users, a: UsersAction, id: Id)
    requires UsersEnabled(cfg, now, u, a) && OutboxMachine(u) && id in u.outbox && StateOf(u.outbox[id]).Published?
    ensures id in UsersNext(cfg, now, u, a).outbox
    ensures StateOf(UsersNext(cfg, now, u, a).outbox[id]).Published?
    ensures UsersNext(cfg, now, u, a).outbox[id].publishingStartedAt.None?
  {
    assert RowTraffic(u.outbox[id], u.traffic[id]);
  }

  // ---------------------------------------------------------------- how far apart the claims of a row are

  /** The log of a row against its columns, at a given time. */
  predicate RowSpaced(cfg: Config, now: Time, r: OutboxRow, t: Traffic) {
    && (forall i :: 0 <= i < |t.log| - 1 ==>
          t.log[i + 1].afterRelease || t.log[i].at + cfg.stuckThresholdMs < t.log[i + 1].at)
    && (r.publishedAt.None? && r.publishingStartedAt.Some? ==>
          t.log != [] && !t.released && t.log[|t.log| - 1].at == r.publishingStartedAt.value)
    && (r.publishedAt.None? && r.publishingStartedAt.None? && t.log != [] && !t.released ==>
          t.log[|t.log| - 1].at + cfg.stuckThresholdMs < now)
  }

  ghost predicate Spaced(cfg: Config, now: Time, u: Users) {
    forall id :: id in u.outbox && id in u.traffic ==> RowSpaced(cfg, now, u.outbox[id], u.traffic[id])
  }

  lemma SpacedKept(cfg: Config, now: Time, u: Users, a: UsersAction)
    requires UsersEnabled(cfg, now, u, a) && OutboxMachine(u) && Spaced(cfg, now, u)
    ensures Spaced(cfg, now, UsersNext(cfg, now, u, a))
  {
    var v := UsersNext(cfg, now, u, a);
    forall id | id in v.outbox && id in v.traffic ensures RowSpaced(cfg, now, v.outbox[id], v.traffic[id]) {
      if id in u.outbox {
        RowSpacedKept(cfg, now, u, a, id);
      }
    }
  }

  lemma RowSpacedKept(cfg: Config, now: Time, u: Users, a: UsersAction, id: Id)
    requires UsersEnabled(cfg, now, u, a) && id in u.outbox && id in u.traffic
    requires RowSpaced(cfg, now, u.outbox[id], u.traffic[id])
    ensures var v := UsersNext(cfg, now, u, a);
            id in v.outbox && id in v.traffic && RowSpaced(cfg, now, v.outbox[id], v.traffic[id])
  {
  }

  // ---------------------------------------------------------------- copies and the table

  /** The envelope came from an outbox row, unchanged. */
  predicate Genuine(u: Users, e: IngestEvent) {
    e.sourceEventId in u.bySource && u.bySource[e.sourceEventId] in u.outbox
        && u.outbox[u.bySource[e.sourceEventId]].payload == e
  }

  ghost predicate Carried(s: State) {
    forall m :: 0 <= m < |s.copies| ==> Genuine(s.u, s.copies[m].event)
  }

  /** The stored notification carries what its outbox row carries. */
  predicate StoredFrom(u: Users, r: Row) {
    && r.key.sourceEventId in u.bySource && u.bySource[r.key.sourceEventId] in u.outbox
    && var e := u.outbox[u.bySource[r.key.sourceEventId]].payload;
       r.key == EventKey(e) && r.recipient == e.recipient && r.params == e.params
  }

  ghost predicate InsertedRow(cfg: Config, u: Users, t: Table, id: Id, r: Row) {
    && r == NewRow(id, r.key, r.recipient, r.params, r.channel, r.scheduledFor)
    && StoredFrom(u, r)
    && EntryFor(cfg.catalog, r.key.kind).Some? && ValidParams(r.key.kind, r.params)
    && r.key in t.index && t.index[r.key] == id
  }

  /** The index and the table agree, and every insert is of a genuine envelope. */
  ghost predicate Deduplicated(cfg: Config, u: Users, t: Table) {
    && (forall k :: k in t.index ==> t.index[k] in t.inserted && t.inserted[t.index[k]].key == k)
    && (forall id :: id in t.inserted ==> InsertedRow(cfg, u, t, id, t.inserted[id]))
  }

  predicate FirstResult(t: Table, k: Key, j: int) {
    0 <= j < |t.results| && t.results[j].key == k && !t.results[j].deduped
  }

  /** Every ingest of one key returned the same id, and exactly one of them was not a duplicate. */
  ghost predicate OneIdPerKey(t: Table) {
    && (forall i :: 0 <= i < |t.results| ==>
          t.results[i].key in t.index && t.index[t.results[i].key] == t.results[i].id)
    && (forall k :: k in t.index ==> exists j :: FirstResult(t, k, j))
    && (forall k, i, j :: FirstResult(t, k, i) && FirstResult(t, k, j) ==> i == j)
  }

  /** A copy is only where a binding could take it. */
  predicate Fits(bound: Bindings, p: Place) {
    && bound.ingest
    && (p.RetryWaiting? ==> bound.retry)
    && (p in {DlqReady, DlqUnacked, DlqDone, DrainOrphan} ==> bound.dlq)
  }

  ghost predicate Placed(s: State) {
    forall m :: 0 <= m < |s.copies| ==> Fits(s.bound, s.copies[m].place)
  }

  lemma PlacedKept(cfg: Config, now: Time, s: State, a: Action)
    requires Enabled(cfg, now, s, a) && Placed(s)
    ensures Placed(Next(cfg, now, s, a))
  {
    if a.OfCopy? { StaysFit(cfg, s.bound, s.table, s.copies[a.m], a.ba); }
  }

  lemma StaysFit(cfg: Config, bound: Bindings, table: Table, c: Copy, ba: BrokerAction)
    requires CopyEnabled(cfg, table, c, ba) && Fits(bound, c.place)
    ensures Fits(bound, Landing(bound, c, ba).place)
    ensures forall k :: 0 <= k < |Emitted(bound, c, ba)| ==> Fits(bound, Emitted(bound, c, ba)[k].place)
  {
  }

  /** Ingest j stored the notification and scheduled it for the configured delay after it. */
  predicate ScheduledBy(cfg: Config, t: Table, id: Id, j: int)
    requires id in t.inserted
  {
    && 0 <= j < |t.results| && t.results[j].id == id && !t.results[j].deduped
    && t.inserted[id].scheduledFor == t.results[j].at + cfg.catalog.userWelcomeDelayMs
  }

  ghost predicate Scheduled(cfg: Config, t: Table) {
    forall id :: id in t.inserted ==> exists j :: ScheduledBy(cfg, t, id, j)
  }

  /** createUser leaves the schedule to the ingest consumer. */
  lemma ScheduledKept(cfg: Config, now: Time, s: State, m: nat, ba: BrokerAction)
    requires Enabled(cfg, now, s, OfCopy(m, ba)) && Written(s.u) && Carried(s) && Scheduled(cfg, s.table)
    ensures Scheduled(cfg, TableNext(cfg, now, s.table, s.copies[m], ba))
  {
    var t := TableNext(cfg, now, s.table, s.copies[m], ba);
    assert Genuine(s.u, s.copies[m].event);
    assert s.copies[m].event.scheduledFor == None by {
      var row := s.u.bySource[s.copies[m].event.sourceEventId];
      assert WrittenRow(s.u, row, s.u.outbox[row]);
    }
    forall id | id in t.inserted ensures exists j :: ScheduledBy(cfg, t, id, j) {
      if id in s.table.inserted && !(ba.Ingest? && ba.newId == id && EventKey(s.copies[m].event) !in s.table.index) {
        var j :| ScheduledBy(cfg, s.table, id, j);
        assert ScheduledBy(cfg, t, id, j);
      } else {
        assert ScheduledBy(cfg, t, id, |s.table.results|);
      }
    }
  }

  ghost predicate InboundInv(cfg: Config, s: State) {
    && Written(s.u) && OutboxMachine(s.u) && Carried(s) && Deduplicated(cfg, s.u, s.table) && OneIdPerKey(s.table)
    && Placed(s)
    && Scheduled(cfg, s.table)
  }

  lemma InitialInv(cfg: Config, bound: Bindings)
    ensures InboundInv(cfg, Initial(bound))
  {
  }

  lemma CarriedKept(cfg: Config, now: Time, s: State, a: Action)
    requires Enabled(cfg, now, s, a) && Written(s.u) && Carried(s)
    ensures Carried(Next(cfg, now, s, a))
  {
    var t := Next(cfg, now, s, a);
    match a {
      case BindIngest =>
      case BindRetry =>
      case BindDlq =>
      case OfUsers(ua) =>
        UsersGrowth(cfg, now, s.u, ua);
        forall m | 0 <= m < |t.copies| ensures Genuine(t.u, t.copies[m].event) {
          if m < |s.copies| {
            assert Genuine(s.u, s.copies[m].event);
          } else {
            var id := s.u.hands[ua.h].outboxId;
            assert WrittenRow(s.u, id, s.u.outbox[id]);
            assert Genuine(s.u, t.copies[m].event);
          }
        }
      case OfCopy(m, ba) =>
        forall k | 0 <= k < |t.copies| ensures Genuine(t.u, t.copies[k].event) {
          assert Genuine(s.u, s.copies[if k < |s.copies| then k else m].event);
        }
    }
  }

  lemma DeduplicatedOverUsers(cfg: Config, now: Time, s: State, ua: UsersAction)
    requires UsersEnabled(cfg, now, s.u, ua) && Deduplicated(cfg, s.u, s.table)
    ensures Deduplicated(cfg, UsersNext(cfg, now, s.u, ua), s.table)
  {
    var v := UsersNext(cfg, now, s.u, ua);
    UsersGrowth(cfg, now, s.u, ua);
    forall id | id in s.table.inserted ensures InsertedRow(cfg, v, s.table, id, s.table.inserted[id]) {
      assert InsertedRow(cfg, s.u, s.table, id, s.table.inserted[id]);
    }
  }

  lemma DeduplicatedOverCopies(cfg: Config, now: Time, s: State, m: nat, ba: BrokerAction)
    requires Enabled(cfg, now, s, OfCopy(m, ba)) && Carried(s) && Deduplicated(cfg, s.u, s.table)
    ensures Deduplicated(cfg, s.u, TableNext(cfg, now, s.table, s.copies[m], ba))
  {
    var t := TableNext(cfg, now, s.table, s.copies[m], ba);
    assert Genuine(s.u, s.copies[m].event);
    forall id | id in t.inserted ensures InsertedRow(cfg, s.u, t, id, t.inserted[id]) {
      assert id in s.table.inserted ==> InsertedRow(cfg, s.u, s.table, id, s.table.inserted[id]);
    }
  }

  lemma OneIdPerKeyKept(cfg: Config, now: Time, table: Table, c: Copy, ba: BrokerAction)
    requires CopyEnabled(cfg, table, c, ba) && OneIdPerKey(table)
    ensures OneIdPerKey(TableNext(cfg, now, table, c, ba))
  {
    var t := TableNext(cfg, now, table, c, ba);
    if ba.Ingest? {
      var n := |table.results|;
      forall k, j
        ensures FirstResult(t, k, j) <==>
                FirstResult(table, k, j) || (j == n && k == EventKey(c.event) && k !in table.index)
      {
      }
      forall k | k in t.index ensures exists j :: FirstResult(t, k, j) {
        if k in table.index {
          var j :| FirstResult(table, k, j);
          assert FirstResult(t, k, j);
        } else {
          assert FirstResult(t, k, n);
        }
      }
    }
  }

  lemma InboundInvKept(cfg: Config, now: Time, s: State, a: Action)
    requires Enabled(cfg, now, s, a) && InboundInv(cfg, s)
    ensures InboundInv(cfg, Next(cfg, now, s, a))
  {
    CarriedKept(cfg, now, s, a);
    PlacedKept(cfg, now, s, a);
    match a
    case BindIngest =>
    case BindRetry =>
    case BindDlq =>
    case OfUsers(ua) =>
      WrittenKept(cfg, now, s.u, ua);
      OutboxMachineKept(cfg, now, s.u, ua);
      DeduplicatedOverUsers(cfg, now, s, ua);
    case OfCopy(m, ba) =>
      DeduplicatedOverCopies(cfg, now, s, m, ba);
      OneIdPerKeyKept(cfg, now, s.table, s.copies[m], ba);
      ScheduledKept(cfg, now, s, m, ba);
  }

  /** No ingest overwrites a stored notification. */
  lemma InsertedForGood(cfg: Config, now: Time, s: State, a: Action, id: Id)
    requires Enabled(cfg, now, s, a) && id in s.table.inserted
    ensures id in Next(cfg, now, s, a).table.inserted
    ensures Next(cfg, now, s, a).table.inserted[id] == s.table.inserted[id]
  {
  }

  // ---------------------------------------------------------------- no loss

  predicate Alive(p: Place) {
    p in {IngestReady, IngestUnacked, RetryWaiting, DlqReady, DlqUnacked}
  }

  predicate AliveCopy(s: State, e: IngestEvent, m: int) {
    0 <= m < |s.copies| && s.copies[m].event == e && Alive(s.copies[m].place)
  }

  /** The event is in the notifications table, or a copy of it will still be handled or drained. */
  ghost predicate Safe(s: State, e: IngestEvent) {
    EventKey(e) in s.table.index || exists m :: AliveCopy(s, e, m)
  }

  /** Once a publish of a row was confirmed, its event is safe. */
  ghost predicate NothingLost(s: State) {
    forall id :: id in s.u.outbox && id in s.u.traffic && s.u.traffic[id].confirmed ==> Safe(s, s.u.outbox[id].payload)
  }

  /** A copy is given up only for a stored row or for another copy, as long as the bindings it relies on are there. */
  lemma SafeKept(cfg: Config, now: Time, s: State, a: Action, e: IngestEvent)
    requires Enabled(cfg, now, s, a) && Relied(s.bound, a) && Placed(s) && Safe(s, e)
    ensures Safe(Next(cfg, now, s, a), e)
  {
    var t := Next(cfg, now, s, a);
    if EventKey(e) !in s.table.index {
      var m :| AliveCopy(s, e, m);
      if a.OfCopy? && a.m == m {
        HandedOver(cfg, now, s, m, a.ba);
      } else {
        assert AliveCopy(t, e, m);
      }
    }
  }

  lemma HandedOver(cfg: Config, now: Time, s: State, m: nat, ba: BrokerAction)
    requires Enabled(cfg, now, s, OfCopy(m, ba)) && Relied(s.bound, OfCopy(m, ba))
    requires Fits(s.bound, s.copies[m].place) && Alive(s.copies[m].place)
    ensures Safe(Next(cfg, now, s, OfCopy(m, ba)), s.copies[m].event)
  {
    var t := Next(cfg, now, s, OfCopy(m, ba));
    if !ba.Ingest? {
      assert AliveCopy(t, s.copies[m].event, m) || AliveCopy(t, s.copies[m].event, |s.copies|);
    }
  }

  /** Only a publish confirms a row. */
  lemma ConfirmedBy(cfg: Config, now: Time, u: Users, ua: UsersAction, id: Id)
    requires UsersEnabled(cfg, now, u, ua) && OutboxMachine(u)
    requires id in UsersNext(cfg, now, u, ua).outbox && UsersNext(cfg, now, u, ua).traffic[id].confirmed
    ensures id in u.outbox && UsersNext(cfg, now, u, ua).outbox[id].payload == u.outbox[id].payload
    ensures u.traffic[id].confirmed || (ua.Publish? && id == u.hands[ua.h].outboxId)
  {
  }

  lemma NothingLostKept(cfg: Config, now: Time, s: State, a: Action)
    requires Enabled(cfg, now, s, a) && InboundInv(cfg, s) && NothingLost(s)
    requires Relied(s.bound, a)
    ensures NothingLost(Next(cfg, now, s, a))
  {
    var t := Next(cfg, now, s, a);
    forall id | id in t.u.outbox && id in t.u.traffic && t.u.traffic[id].confirmed
      ensures Safe(t, t.u.outbox[id].payload)
    {
      if a.OfUsers? { ConfirmedBy(cfg, now, s.u, a.ua, id); }
      ConfirmedStaysSafe(cfg, now, s, a, id);
    }
  }

  lemma ConfirmedStaysSafe(cfg: Config, now: Time, s: State, a: Action, id: Id)
    requires Enabled(cfg, now, s, a) && Relied(s.bound, a) && Placed(s)
    requires NothingLost(s) && id in s.u.outbox && id in s.u.traffic
    requires s.u.traffic[id].confirmed || (Confirms(a) && id == s.u.hands[a.ua.h].outboxId)
    ensures Safe(Next(cfg, now, s, a), s.u.outbox[id].payload)
  {
    if s.u.traffic[id].confirmed {
      SafeKept(cfg, now, s, a, s.u.outbox[id].payload);
    } else {
      assert AliveCopy(Next(cfg, now, s, a), s.u.outbox[id].payload, |s.copies|);
    }
  }

  /** Publishing a row of which nothing else is under way: it ends marked published either way,
      and its event is safe exactly when notifier.ingest was bound. */
  lemma UnboundPublishLoses(cfg: Config, now: Time, s: State, h: nat) returns (p: State, t: State)
    requires InboundInv(cfg, s) && Enabled(cfg, now, s, OfUsers(Publish(h)))
    requires !Safe(s, s.u.outbox[s.u.hands[h].outboxId].payload)
    ensures p == Next(cfg, now, s, OfUsers(Publish(h))) && Enabled(cfg, now, p, OfUsers(MarkPublished(h)))
    ensures t == Next(cfg, now, p, OfUsers(MarkPublished(h)))
    ensures var id := s.u.hands[h].outboxId;
            && id in t.u.outbox && StateOf(t.u.outbox[id]).Published?
            && (Safe(t, s.u.outbox[id].payload) <==> s.bound.ingest)
  {
    var e := s.u.outbox[s.u.hands[h].outboxId].payload;
    p := Next(cfg, now, s, OfUsers(Publish(h)));
    t := Next(cfg, now, p, OfUsers(MarkPublished(h)));
    assert t.table == s.table && t.copies == s.copies + Routed(s.bound, e);
    hide Next, Enabled, InboundInv;
    if s.bound.ingest {
      assert AliveCopy(t, e, |s.copies|);
    } else {
      assert t.copies == s.copies;
      forall m ensures !AliveCopy(t, e, m) {
        assert !AliveCopy(s, e, m);
      }
    }
  }

  /** The event is stored nowhere and copy m is the only one that will still be handled. */
  ghost predicate OnlyHope(s: State, m: nat) {
    && m < |s.copies| && EventKey(s.copies[m].event) !in s.table.index
    && (forall k :: AliveCopy(s, s.copies[m].event, k) ==> k == m)
  }

  /** A rejection of the last copy: its event is safe exactly when the retry queue was bound. */
  lemma UnboundRejectLoses(cfg: Config, now: Time, s: State, m: nat)
    requires Enabled(cfg, now, s, OfCopy(m, Reject)) && s.copies[m].place == IngestUnacked && OnlyHope(s, m)
    ensures Safe(Next(cfg, now, s, OfCopy(m, Reject)), s.copies[m].event) <==> s.bound.retry
  {
    var t := Next(cfg, now, s, OfCopy(m, Reject));
    if s.bound.retry {
      assert AliveCopy(t, s.copies[m].event, m);
    } else {
      forall k ensures !AliveCopy(t, s.copies[m].event, k) {
        assert k != m ==> !AliveCopy(s, s.copies[m].event, k);
      }
    }
  }

  /** Dead-lettering the last copy: acknowledged either way, its event is safe exactly when the DLQ was bound. */
  lemma UnboundDeadLetterLoses(cfg: Config, now: Time, s: State, m: nat)
    requires Enabled(cfg, now, s, OfCopy(m, DeadLetter)) && s.copies[m].place == IngestUnacked && OnlyHope(s, m)
    ensures var d := Next(cfg, now, s, OfCopy(m, DeadLetter));
            && Enabled(cfg, now, d, OfCopy(m, Ack))
            && (Safe(Next(cfg, now, d, OfCopy(m, Ack)), s.copies[m].event) <==> s.bound.dlq)
  {
    var d := Next(cfg, now, s, OfCopy(m, DeadLetter));
    var t := Next(cfg, now, d, OfCopy(m, Ack));
    if s.bound.dlq {
      assert AliveCopy(t, s.copies[m].event, |s.copies|);
    } else {
      forall k ensures !AliveCopy(t, s.copies[m].event, k) {
        assert k != m ==> !AliveCopy(s, s.copies[m].event, k);
      }
    }
  }
}
