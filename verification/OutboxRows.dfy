/** The users_outbox row, the envelope it carries, and what each outbox statement does to one row. */
module OutboxRows {
  import opened Common
  import opened TypeCatalog
  import opened Notifications

  datatype IngestEvent = IngestEvent(
    kind: string,
    sourceEventId: string,
    scheduledFor: Option<Time>,
    recipient: Recipient,
    params: Json)

  /** The strict envelope schema; `params` stays opaque at this level. */
  predicate ValidEnvelope(e: IngestEvent) {
    && |e.kind| >= 1 && |e.sourceEventId| >= 1
    && (e.recipient.userId.Some? ==> |e.recipient.userId.value| >= 1)
    && (e.recipient.phone.Some? ==> |e.recipient.phone.value| >= 1)
    && (e.recipient.pushToken.Some? ==> |e.recipient.pushToken.value| >= 1)
  }

  /** A type, a source event id, and no recipient field that is present but empty. */
  lemma EnvelopeAccepts(e: IngestEvent)
    ensures ValidEnvelope(e) <==>
            && e.kind != "" && e.sourceEventId != ""
            && e.recipient.userId != Some("") && e.recipient.phone != Some("") && e.recipient.pushToken != Some("")
  {
  }

  function EventKey(e: IngestEvent): Key {
    Key(e.kind, e.sourceEventId)
  }

  datatype OutboxRow = OutboxRow(
    id: Id,
    aggregateId: string,
    eventType: string,
    payload: IngestEvent,
    sourceEventId: string,
    publishedAt: Option<Time>,
    publishingStartedAt: Option<Time>,
    createdAt: Time)

  /** The envelope createUser writes for a new user. */
  function WelcomeEvent(userId: string, name: string, sourceEventId: string): IngestEvent {
    IngestEvent(USER_WELCOME, sourceEventId, None, Recipient(Some(userId), None, None, None),
                Obj(map["userId" := Str(userId), "name" := Str(name)]))
  }

  function NewOutboxRow(id: Id, userId: string, name: string, sourceEventId: string, now: Time): OutboxRow {
    OutboxRow(id, userId, "user.created", WelcomeEvent(userId, name, sourceEventId), sourceEventId, None, None, now)
  }

  /** The three states of the outbox machine. */
  datatype OutboxState = Pending | InClaim(since: Time) | Published(at: Time)

  function StateOf(r: OutboxRow): OutboxState {
    if r.publishedAt.Some? then Published(r.publishedAt.value)
    else if r.publishingStartedAt.Some? then InClaim(r.publishingStartedAt.value)
    else Pending
  }

  predicate Eligible(r: OutboxRow) {
    r.publishedAt.None? && r.publishingStartedAt.None?
  }

  predicate OutboxStuck(r: OutboxRow, now: Time, thresholdMs: int) {
    r.publishedAt.None? && r.publishingStartedAt.Some? && r.publishingStartedAt.value < now - thresholdMs
  }

  function ClaimOutboxRow(r: OutboxRow, now: Time): OutboxRow {
    r.(publishingStartedAt := Some(now))
  }

  function UnclaimRow(r: OutboxRow): OutboxRow {
    r.(publishingStartedAt := None)
  }

  function MarkPublishedRow(r: OutboxRow, now: Time): OutboxRow {
    r.(publishedAt := Some(now), publishingStartedAt := None)
  }
}
