/**
 From POST /users to the notifications table: users and outbox rows, publishers with a claimed row in
 hand, every copy of an envelope in the ingest ring and its DLQ, and the unique index that deduplicates.
 Every interleaving of requests, cron ticks, deliveries, drains and crashes is a sequence of Actions.
 */
module Inbound {
  import opened Common
  import opened TypeCatalog
  import opened Notifications
  import opened OutboxRows

  const INGEST_MAX_ATTEMPTS: nat := 5

  datatype Config = Config(catalog: Catalog, stuckThresholdMs: nat)

  // ---------------------------------------------------------------- the users service

  /** A tick of the outbox cron that holds a claimed row. */
  datatype Hand = Hand(outboxId: Id, step: HandStep)
  datatype HandStep = Holding | Confirmed | Finished

  // Auxiliary: how often a row was claimed, how often a claim was taken back, whether a publish of it was confirmed.
  // Also when it was claimed, and whether it was released since the claim before.
  datatype ClaimLog = ClaimLog(at: Time, afterRelease: bool)

  datatype Traffic = Traffic(claims: nat, resets: nat, confirmed: bool, log: seq<ClaimLog>, released: bool)

  datatype Users = Users(
    users: map<string, string>,
    outbox: map<Id, OutboxRow>,
    bySource: map<string, Id>,         // auxiliary: the outbox row of each source event
    traffic: map<Id, Traffic>,         // auxiliary
    hands: seq<Hand>)

  datatype UsersAction =
    | CreateUser(userId: string, name: string, outboxId: Id, sourceEventId: string)
    | Sweep(id: Id)
    | Claim(id: Id)
    | Release(id: Id)
    | Publish(h: nat)
    | PublishUnconfirmed(h: nat)       // the copy lands, the publisher sees an error or dies
    | PublisherFails(h: nat)           // nothing lands
    | MarkPublished(h: nat)

  predicate HandAt(u: Users, h: nat, step: HandStep) {
    h < |u.hands| && u.hands[h].step == step && u.hands[h].outboxId in u.outbox && u.hands[h].outboxId in u.traffic
  }

  predicate UsersEnabled(cfg: Config, now: Time, u: Users, a: UsersAction) {
    match a
    // The ids are fresh ULIDs; the name passed the request schema.
    case CreateUser(userId, name, outboxId, sourceEventId) =>
      && |userId| >= 1 && |name| >= 1 && |sourceEventId| >= 1
      && userId !in u.users && outboxId !in u.outbox && sourceEventId !in u.bySource
    case Sweep(id) => id in u.outbox && id in u.traffic && OutboxStuck(u.outbox[id], now, cfg.stuckThresholdMs)
    case Claim(id) => id in u.outbox && id in u.traffic && Eligible(u.outbox[id])
    case Release(id) => id in u.outbox && id in u.traffic && u.outbox[id].publishedAt.None?
    case Publish(h) => HandAt(u, h, Holding)
    case PublishUnconfirmed(h) => HandAt(u, h, Holding)
    case PublisherFails(h) => HandAt(u, h, Holding) || HandAt(u, h, Confirmed)
    case MarkPublished(h) => HandAt(u, h, Confirmed)
  }

  function SetRow(u: Users, id: Id, row: OutboxRow, t: Traffic): Users {
    u.(outbox := u.outbox[id := row], traffic := u.traffic[id := t])
  }

  function SetHand(u: Users, h: nat, step: HandStep): Users
    requires h < |u.hands|
  {
    u.(hands := u.hands[h := u.hands[h].(step := step)])
  }

  function UsersNext(cfg: Config, now: Time, u: Users, a: UsersAction): Users
    requires UsersEnabled(cfg, now, u, a)
  {
    match a
    case CreateUser(userId, name, outboxId, sourceEventId) =>
      SetRow(u, outboxId, NewOutboxRow(outboxId, userId, name, sourceEventId, now), Traffic(0, 0, false, [], false)).(
        users := u.users[userId := name], bySource := u.bySource[sourceEventId := outboxId])
    case Sweep(id) => SetRow(u, id, UnclaimRow(u.outbox[id]), u.traffic[id].(resets := u.traffic[id].resets + 1))
    case Claim(id) =>
      var t := u.traffic[id];
      var claimed := t.(claims := t.claims + 1, log := t.log + [ClaimLog(now, t.released)], released := false);
      SetRow(u, id, ClaimOutboxRow(u.outbox[id], now), claimed).(hands := u.hands + [Hand(id, Holding)])
    case Release(id) =>
      SetRow(u, id, UnclaimRow(u.outbox[id]), u.traffic[id].(resets := u.traffic[id].resets + 1, released := true))
    case Publish(h) =>
      var id := u.hands[h].outboxId;
      SetRow(SetHand(u, h, Confirmed), id, u.outbox[id], u.traffic[id].(confirmed := true))
    case PublishUnconfirmed(h) => SetHand(u, h, Finished)
    case PublisherFails(h) => SetHand(u, h, Finished)
    case MarkPublished(h) =>
      var id := u.hands[h].outboxId;
      SetRow(SetHand(u, h, Finished), id, MarkPublishedRow(u.outbox[id], now), u.traffic[id])
  }

  // ---------------------------------------------------------------- the ingest ring, its DLQ and the table

  datatype Place =
    | IngestReady                // in notifier.ingest
    | IngestUnacked              // delivered to IngestConsumer
    | IngestDone                 // handled or dead-lettered, ack still to be taken
    | RetryWaiting               // in notifier.ingest.retry
    | DlqReady                   // in notifier.ingest.dlq
    | DlqUnacked                 // taken by the drain
    | DlqDone                    // republished or re-DLXed, ack still to be taken
    | IngestOrphan               // no message: an ingest handler that goes on after its message was handed back
    | DrainOrphan                // no message: a drain that goes on likewise
    | Gone

  datatype Copy = Copy(event: IngestEvent, place: Place, deaths: nat)

  datatype IngestResult = IngestResult(key: Key, id: Id, deduped: bool, at: Time)

  datatype Table = Table(
    inserted: map<Id, Row>,            // notifications as they were inserted
    index: map<Key, Id>,               // UNIQUE(type, source_event_id)
    results: seq<IngestResult>)        // auxiliary: what every ingest returned

  /**
   Which queues of the ring are bound already: notifier.ingest by its consumer's own setup, the retry queue
   and the DLQ by the topology service, on another channel and in no promised order.
   */
  datatype Bindings = Bindings(ingest: bool, retry: bool, dlq: bool)

  datatype State = State(u: Users, copies: seq<Copy>, table: Table, bound: Bindings)

  datatype BrokerAction =
    | Deliver
    | Ingest(newId: Id)
    | Reject
    | DeadLetter
    | Ack
    | Return                           // the message is handed back, its handler is gone
    | HandBack                         // the channel closed and the message is handed back, its handler goes on
    | OrphanEnds                       // such a handler fails or finds its channel closed
    | Resend                           // a producer that lost its confirm publishes the envelope again
    | RetryExpires
    | DlqGet
    | Republish(confirmed: bool)       // unconfirmed: the copy lands although the drain sees an error
    | ReDlx

  datatype Action =
    | BindIngest                       // notifier.ingest to notifications.ingest
    | BindRetry                        // notifier.ingest.retry to notifications.retry.events
    | BindDlq                          // notifier.ingest.dlq to notifications.dlx
    | OfUsers(ua: UsersAction)
    | OfCopy(m: nat, ba: BrokerAction)

  predicate Ingestible(cfg: Config, e: IngestEvent) {
    EntryFor(cfg.catalog, e.kind).Some? && ValidParams(e.kind, e.params)
  }

  predicate CopyEnabled(cfg: Config, table: Table, c: Copy, a: BrokerAction) {
    match a
    case Deliver => c.place == IngestReady
    // An insert fails on a taken key or a taken id; only a taken key is resolved, to the existing row.
    case Ingest(newId) =>
      c.place in {IngestUnacked, IngestOrphan} && Ingestible(cfg, c.event)
          && (EventKey(c.event) in table.index || newId !in table.inserted)
    // The handler threw, or the ack after a DLQ publish did: nack without requeue.
    case Reject => c.place in {IngestUnacked, IngestDone}
    // Also after a handled message whose ack threw.
    case DeadLetter => c.place in {IngestUnacked, IngestDone} && c.deaths + 1 >= INGEST_MAX_ATTEMPTS
    case Ack => c.place in {IngestDone, DlqDone}
    case HandBack => c.place in {IngestUnacked, DlqUnacked}
    case OrphanEnds => c.place in {IngestOrphan, DrainOrphan}
    case Resend => true
    case Return => c.place in {IngestUnacked, IngestDone, DlqUnacked, DlqDone}
    case RetryExpires => c.place == RetryWaiting
    case DlqGet => c.place == DlqReady
    case Republish(_) => c.place in {DlqUnacked, DrainOrphan}
    case ReDlx => c.place in {DlqUnacked, DrainOrphan}
  }

  function AfterDrain(c: Copy): Place {
    if c.place.DrainOrphan? then Gone else DlqDone
  }

  /** What the action does to the copy it is about. */
  function Landing(bound: Bindings, c: Copy, a: BrokerAction): Copy {
    match a
    case Deliver => c.(place := IngestUnacked)
    case Ingest(_) => c.(place := if c.place.IngestOrphan? then Gone else IngestDone)
    // Dead-lettering to an exchange without a binding drops the message.
    case Reject => c.(place := if bound.retry then RetryWaiting else Gone, deaths := c.deaths + 1)
    case DeadLetter => c.(place := IngestDone)
    case Ack => c.(place := Gone)
    case Return => c.(place := if c.place in {DlqUnacked, DlqDone} then DlqReady else IngestReady)
    case HandBack => c.(place := if c.place.DlqUnacked? then DlqReady else IngestReady)
    case OrphanEnds => c.(place := Gone)
    case Resend => c
    case RetryExpires => c.(place := if bound.ingest then IngestReady else Gone)
    case DlqGet => c.(place := DlqUnacked)
    case Republish(confirmed) => if confirmed then c.(place := AfterDrain(c)) else c
    case ReDlx => c.(place := AfterDrain(c))
  }

  /** A publish that the broker confirms. */
  predicate Confirms(a: Action) {
    a.OfUsers? && a.ua.Publish?
  }

  /** The binding that a publish, a rejection or a dead-lettering relies on is there. */
  predicate Relied(bound: Bindings, a: Action) {
    && (Confirms(a) ==> bound.ingest)
    && (a.OfCopy? && a.ba.Reject? ==> bound.retry)
    && (a.OfCopy? && a.ba.DeadLetter? ==> bound.dlq)
  }

  function BoundAfter(bound: Bindings, a: Action): Bindings {
    match a
    case BindIngest => bound.(ingest := true)
    case BindRetry => bound.(retry := true)
    case BindDlq => bound.(dlq := true)
    case _ => bound
  }

  /** An exchange with no matching binding returns the message, which only logs a warning, and still confirms it. */
  function Routed(bound: Bindings, e: IngestEvent): seq<Copy> {
    if bound.ingest then [Copy(e, IngestReady, 0)] else []
  }

  /** A publish to the DLX: not mandatory, so without the binding it is dropped and nobody hears of it. */
  function Buried(bound: Bindings, c: Copy): seq<Copy> {
    if bound.dlq then [c.(place := DlqReady)] else []
  }

  /**
   The copy the action adds, if any. A republished envelope starts
   without headers, a dead-lettered one keeps them.
   */
  function Emitted(bound: Bindings, c: Copy, a: BrokerAction): seq<Copy> {
    match a
    case DeadLetter => Buried(bound, c)
    case ReDlx => Buried(bound, c)
    case HandBack => [c.(place := if c.place.DlqUnacked? then DrainOrphan else IngestOrphan)]
    case Republish(_) => Routed(bound, c.event)
    case Resend => Routed(bound, c.event)
    case _ => []
  }

  /** The columns the ingest consumer computes for a validated envelope. */
  function IngestRow(catalog: Catalog, now: Time, e: IngestEvent, id: Id): Row
    requires EntryFor(catalog, e.kind).Some?
  {
    var entry := EntryFor(catalog, e.kind).value;
    NewRow(id, EventKey(e), e.recipient, e.params, entry.channel,
           if e.scheduledFor.Some? then e.scheduledFor.value else now + entry.defaultDelayMs)
  }

  function TableNext(cfg: Config, now: Time, table: Table, c: Copy, a: BrokerAction): Table
    requires CopyEnabled(cfg, table, c, a)
  {
    if !a.Ingest? then table
    else if EventKey(c.event) in table.index then
      table.(results := table.results + [IngestResult(EventKey(c.event), table.index[EventKey(c.event)], true, now)])
    else
      Table(table.inserted[a.newId := IngestRow(cfg.catalog, now, c.event, a.newId)],
            table.index[EventKey(c.event) := a.newId],
            table.results + [IngestResult(EventKey(c.event), a.newId, false, now)])
  }

  predicate Enabled(cfg: Config, now: Time, s: State, a: Action) {
    match a
    case BindIngest => true
    case BindRetry => true
    case BindDlq => true
    case OfUsers(ua) => UsersEnabled(cfg, now, s.u, ua)
    case OfCopy(m, ba) => m < |s.copies| && CopyEnabled(cfg, s.table, s.copies[m], ba)
  }

  /** Both kinds of publish by a hand emit the payload of the row it holds. */
  function Sent(s: State, a: UsersAction): seq<Copy> {
    if (a.Publish? || a.PublishUnconfirmed?) && HandAt(s.u, a.h, Holding)
    then Routed(s.bound, s.u.outbox[s.u.hands[a.h].outboxId].payload) else []
  }

  function Next(cfg: Config, now: Time, s: State, a: Action): State
    requires Enabled(cfg, now, s, a)
  {
    match a
    case BindIngest => s.(bound := BoundAfter(s.bound, a))
    case BindRetry => s.(bound := BoundAfter(s.bound, a))
    case BindDlq => s.(bound := BoundAfter(s.bound, a))
    case OfUsers(ua) => s.(u := UsersNext(cfg, now, s.u, ua), copies := s.copies + Sent(s, ua))
    case OfCopy(m, ba) =>
      s.(copies := s.copies[m := Landing(s.bound, s.copies[m], ba)] + Emitted(s.bound, s.copies[m], ba),
         table := TableNext(cfg, now, s.table, s.copies[m], ba))
  }

  function Initial(bound: Bindings): State {
    State(Users(map[], map[], map[], map[], []), [], Table(map[], map[], []), bound)
  }
}
