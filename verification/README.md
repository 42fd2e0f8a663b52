# Delivery pipeline model

A verified model of a notification pipeline made of two services and a broker. `POST /users` writes a
user and an outbox row. A cron round publishes outbox rows to `notifications.ingest`. An ingest consumer
with a retry ring and a DLQ stores notifications, once per (type, sourceEventId). A notifier tick sweeps
stuck rows, claims due ones and dispatches one work message each. Push workers read a replica, call the
webhook, record a verdict and schedule backoff retries. Each hop commits first and publishes afterwards,
so what is proved is about whole interleaved runs.

Three layers:

- **Transition systems.** `Delivery` is one notification from its insert on: primary row, every version
  a replica may still show, work messages, history, POSTs. `Inbound` is everything before that: users,
  outbox rows, publishers with a row in hand, every copy of an envelope, the unique index. `Pipeline`
  composes them on one clock; its theorems hold at the end of every run. `SingleFlight` and `TimedRuns`
  add the timing argument, `Disturbances` and `UnboundRuns` what happens without its assumptions, `Termination` the
  bound on claims and sweeps.
- **Code.** `NotificationStore`, `StateMachine`, `Consumers`, `UsersOutbox`, `RmqConsumer`, `Topology` and
  `DlqDrain` have the methods, loops and fields of the services, each with its new state stated outright.
  `Admin`, `Routing`, `RetryRing` and `TypeCatalog` are the pure parts.
- **The link.** `Refinement`, `TickRefinement`, `PushRefinement`, `OutboxRefinement` and `BrokerRefinement`
  prove that what the methods do is a run of the transition systems: a tick with its history and messages,
  a handler call, an outbox round, an ingest, a verdict, a manual retry, one broker delivery, one drain round.

The main results are `Pipeline.NoLossEndToEnd`, `Pipeline.EffectivelyOnce`, `Pipeline.BoundedWork`,
`Pipeline.NeverEarly`, `Pipeline.SingleFlightEverywhere` and `TimedRuns.SingleFlightExactly`.

## Assumptions

- Generated ids are fresh; only their order is used.
- The databases and the services share one clock, in whole milliseconds, that never runs backwards.
- Each UPDATE, and each transaction, is atomic per row. The replica may show any past version of a row, or none.
- `maxAttempts` and `maxRedrives` are constants of at least 1, the recovery threshold at least 1 s, as the
  configuration schema demands (apps/notifier/src/config/validation-schema.ts:16-29).
- `NoLossEndToEnd` assumes that each binding is there when it is first relied on: `notifier.ingest` for a confirmed
  publish, the retry queue for a rejection, the DLQ for a dead-lettering; everything else may happen before. That
  every boot ends with the bindings is `Topology.BootsInAnyOrder`; when a consumer starts is another matter, and
  `UnboundRuns` has a losing run for each binding. The other theorems need none of this. Queues are durable.
- The single-flight theorems (`SingleFlightEverywhere`, `SingleFlightSuffices`, `SingleFlightExactly`, `FlightKept`)
  alone assume more: no message overstays a hop by more than `hop` ms, and none of three disturbances happens:
  a process that dies between committing a verdict and its ack; a delivery that the broker takes back while its
  handler goes on; a work message that one publish puts twice into its queue. The exactness of
  `SingleFlightExactly` is about the hop bound under these three. `LongChainRaces` shows that the hop bound cannot
  be dropped, and `Disturbances` has for each of the other three a run in which it alone happens. All other theorems
  hold with all of these disturbances.

## Where code and intention part

- **Single flight is a matter of configuration.** The claim time is set once and retries do not refresh it,
  so the worst chain must fit the recovery threshold. Nothing enforces that: with the default threshold it
  is impossible for more than 9 attempts, although 20 are accepted. `LongChainRaces` builds the race.
- **A plain shutdown breaks single flight.** The dispatch promise is not cancelled when its channel goes
  (libs/rmq/src/consumer.base.ts:57-62). On SIGTERM the connection is closed in `onModuleDestroy`
  (libs/rmq/src/rmq-connection.ts:41-45), before the drain in `onApplicationShutdown`
  (libs/rmq/src/consumer.base.ts:68-93), so the broker hands the message to another replica while the first
  handler is still waiting for its POST; a dropped socket does the same. `HandBackRaces` has the run with one
  such shutdown and two live messages, `HandBackUndoesSent` one that ends a SENT row FAILED.
  What the drain does achieve, by `EveryInterleaving` and `OnDispatch`, is that unless it times out every dispatch
  ends before it does, with its delivery settled or its channel gone.
- **Verdicts are unguarded.** `markSent`, `incrementAttempt` and `markFailed` look at the id only
  (apps/notifier/src/modules/notifier/repositories/notifications.repository.ts:105-143), so SENT is final
  only under single flight. `SentSurvivesVerdict` says exactly when a late verdict leaves it alone.
- **History is not always in the transaction.** The comment at
  apps/notifier/src/modules/notifier/state-machine/notification.state-machine.ts:49-51 holds for `ingest` and
  `recordAttempt`; `claim`, `recoverStuck` and `manualRetry` write history second. `AuditTrail` accounts for the gap.
- **A confirmed publish can be lost.** An unroutable message is returned, which is only logged, and
  confirmed; `UnboundPublishLoses` gives the exact condition, `UnboundRuns.PublishLoses` a whole run.
- **Consumption may start before the ring is bound.** The ingest consumer and the topology service are providers of
  one module (apps/notifier/src/modules/notifier/notifier.module.ts:44-52) with setups on two channels, and the
  consumer starts as soon as its own queue is bound (libs/rmq/src/consumer.base.ts:34-66). On a first boot a delivery
  can be rejected or dead-lettered into an exchange without a binding; `UnboundRuns.RejectLoses` and
  `DeadLetterLoses` are such runs.
- **DLQ routing key.** The comment at libs/rmq/src/decorators/consumer.decorator.ts:16-18 promises the original
  routing key; the base consumer uses the configured one (libs/rmq/src/consumer.base.ts:135), which the model follows.
- **DLQ publish is not awaited.** The base consumer publishes to the DLX and acks on the same channel without
  waiting for a confirm (libs/rmq/src/consumer.base.ts:134-138). The model takes a publish that does not throw
  as landed if the DLQ is bound, because the broker sees it before the ack.
- **`inboxMaxAttempts` is not used.** It is validated, but the ingest consumer has the literal 5
  (apps/notifier/src/modules/notifier/consumers/ingest.consumer.ts:31-35). The model uses 5.
- **Manual retry may answer from the past.** The error answer reads the replica, so it can name a status the
  row no longer has, FAILED included: `RefusalIsCurrent` and `SecondRetryAnswersFromThePast`.
- **`releaseClaim` has no caller.** The model keeps it as a possible step.

## Model

| member | source | states |
|---|---|---|
| Pipeline.EveryRun | apps/notifier/src/modules/notifier/state-machine/notification.state-machine.ts:61-174 | every run from the empty system, with any interleaving of requests, ticks, deliveries, drains, manual retries, crashes, closed channels under handlers that go on, doubled publishes and stale replica reads, keeps the whole invariant |
| Pipeline.NoLossEndToEnd | apps/users/src/modules/users/commands/claim-and-publish-users.command.ts:46-62 | at the end of every run in which no publish is confirmed before the ingest queue is bound, no delivery rejected before the retry queue is and none dead-lettered before the DLQ is, each committed outbox row is still unpublished, or a live copy of its envelope is in ingest, retry, DLQ or a hand, or its notification exists |
| UnboundRuns.PublishLoses | libs/rmq/src/producer.base.ts:34-66 | the first binding is needed: a run that meets the condition up to a publish before notifier.ingest is bound, and ends in a row marked published whose event is in no queue and no table |
| UnboundRuns.RejectLoses | apps/notifier/src/modules/notifier/notifier-topology.service.ts:43-52 | the second is needed: the same for a rejection before the retry queue is bound |
| UnboundRuns.DeadLetterLoses | apps/notifier/src/modules/notifier/notifier-topology.service.ts:54-56 | the third is needed: the same for a dead-lettering before the DLQ is bound, after four laps through the retry queue |
| UnboundRuns.LiftedRun | apps/notifier/src/modules/notifier/consumers/ingest.consumer.ts:18-36 | before anything is ingested, a run of the inbound half is a run of the pipeline |
| Pipeline.NotificationMatchesOutbox | apps/users/src/modules/users/commands/create-user.command.ts:29-54 | a notification carries the type, recipient and parameters of its outbox row, and every POST made for it has its id as Idempotency-Key and the same body |
| Pipeline.EffectivelyOnce | apps/notifier/src/modules/notifier/state-machine/notification.state-machine.ts:61-88 | two notifications never come from one outbox row, however often it was published, redelivered, swept or republished |
| Pipeline.IngestResultsAgree | apps/notifier/src/modules/notifier/state-machine/notification.state-machine.ts:80-87 | all ingests of one key return one id, that id is stored under the key, and exactly one of the ingests was not a duplicate |
| Pipeline.OutboxStates | apps/users/src/modules/users/repositories/users-outbox.repository.ts:46-95 | Published is final over any continuation, has no claim time and follows a confirmed publish; claims of a row are separated by a sweep or a release |
| Pipeline.OutboxClaimsApart | apps/users/src/modules/users/repositories/users-outbox.repository.ts:46-77 | on every run two claims of an outbox row lie more than the threshold apart, unless it was released in between |
| Pipeline.NoStrandedOutboxRow | apps/users/src/modules/users/repositories/users-outbox.repository.ts:46-77 | on every run an unpublished outbox row can be claimed, or is in a claim that the sweep takes back exactly when the threshold has passed, and can then be claimed |
| Pipeline.NeverEarly | apps/notifier/src/modules/notifier/consumers/push-send.consumer.ts:51-78 | no POST happens before scheduledFor or in the future, and a redriven or manually retried PENDING row can be claimed at once |
| Pipeline.RetriesWait | apps/notifier/src/modules/notifier/consumers/push-send.consumer.ts:103-108 | on every run a message that has left its retry delay has waited until the end of that delay: no attempt is made before its backoff is over |
| Pipeline.NotBeforeTheDelay | apps/notifier/src/modules/notifier/consumers/ingest.consumer.ts:59-61 | on every run a notification is scheduled for the time of its first ingest plus the configured delay, and no POST for it is earlier |
| Pipeline.StatusesMeanWhatTheySay | apps/notifier/src/modules/notifier/repositories/notifications.repository.ts:105-184 | attempts stay under the cap while PENDING or PROCESSING; PROCESSING has a claim time and PENDING none; FAILED has an error, no claim time and a spent budget; SENT has sentAt, a PUSH_SENT row and a 2xx POST of its id |
| Pipeline.BoundedWork | apps/notifier/src/modules/notifier/consumers/push-send.consumer.ts:103-108 | work messages published by ticks and handlers are at most (1 + redriveCount + manualRetries) + (maxAttempts - 1)(1 + manualRetries), claims at most 1 + redriveCount + manualRetries, under all interleavings, orphaned handlers included |
| Pipeline.AuditTrail | apps/notifier/src/modules/notifier/state-machine/notification.state-machine.ts:61-174 | one CREATED row, as many PUSH_ATTEMPT rows as attempts counted and cleared, and every missing claim, sweep or manual-retry row is a second write still due or lost to a crash |
| Pipeline.NoStrandedRow | apps/notifier/src/modules/notifier/repositories/notifications.repository.ts:153-181 | a PROCESSING row always has a claim time, and past the threshold exactly one of the two recovery statements takes it |
| Termination.ChurnBounded | apps/notifier/src/modules/notifier/repositories/notifications.repository.ts:80-184 | from any reachable state a run holds at most 3(maxRedrives - redriveCount) + rank(status) claims and sweeps of a notification, and two more per manual retry of it |
| Termination.AllChurnBounded | apps/notifier/src/modules/notifier/repositories/notifications.repository.ts:80-232 | on every run from the empty system all claims and sweeps together are at most 3 maxRedrives + 2 per stored notification and two per manual retry, so without those they come to an end |
| Termination.TotalPick | apps/notifier/src/modules/notifier/repositories/notifications.repository.ts:80-184 | the sum of the potentials over the table does not depend on the order in which it is taken |
| Pipeline.SingleFlightEverywhere | apps/notifier/src/modules/notifier/consumers/push-send.consumer.ts:44-113 | on every timed run whose worst chain fits the threshold, without the three disturbances named under Assumptions: at most one live work message per notification, only while PROCESSING, attempts at most maxAttempts, SENT never rewritten |
| TimedRuns.SingleFlightExactly | apps/notifier/src/modules/notifier/repositories/notifications.repository.ts:145-184 | with no crash between verdict and ack, no handler that outlives its delivery and no doubled publish, single flight holds on all timed runs if and only if maxAttempts hops plus all waits between them fit the recovery threshold |
| TimedRuns.SingleFlightSuffices | apps/notifier/src/modules/notifier/consumers/push-send.consumer.ts:44-113 | under those assumptions and that condition one message at most is under way, attempts are capped and SENT is absorbing, with arbitrarily stale reads |
| TimedRuns.LongChainRaces | apps/notifier/src/modules/notifier/repositories/notifications.repository.ts:168-181 | a longer chain has a timed run that sweeps the row while its old work message is still under way |
| TimedRuns.KeepRiding | apps/notifier/src/modules/notifier/consumers/push-send.consumer.ts:103-108 | up to the end of the worst chain some timed run keeps a message under way on the first claim |
| TimedRuns.FailedHop | apps/notifier/src/modules/notifier/consumers/push-send.consumer.ts:75-108 | one full hop: delivered at the last moment, refused, retried and expired, one attempt more |
| TimedRuns.DefaultThresholdAdmits | apps/notifier/src/config/configuration.ts:22 | with the default threshold of 300 s the condition can be met exactly when maxAttempts is at most 9, and for 5 attempts exactly when a hop takes at most 57 s |
| Disturbances.CrashBeforeAckUndoesSent | apps/notifier/src/modules/notifier/consumers/push-send.consumer.ts:80-92 | for every configuration a run in which nothing but crashes between verdict and ack disturbs turns a SENT row FAILED, so that assumption cannot be dropped |
| Disturbances.HandBackUndoesSent | libs/rmq/src/rmq-connection.ts:41-45 | for every configuration a run in which nothing but hand-backs disturbs, messages taken back while their handlers go on, turns a SENT row FAILED |
| Disturbances.HandBackRaces | libs/rmq/src/rmq-connection.ts:41-45 | one hand-back after a calm run leaves two live messages of one notification |
| Disturbances.ResendRaces | libs/rmq/src/producer.base.ts:57-65 | one repeated publish after a calm run, as a reconnecting producer sends it, leaves two live messages of one notification |
| Disturbances.TimelyIsUndisturbed | apps/notifier/src/modules/notifier/consumers/push-send.consumer.ts:44-113 | what the timing assumptions exclude is exactly the three disturbances |
| Disturbances.Attempt | apps/notifier/src/modules/notifier/consumers/push-send.consumer.ts:51-101 | one handler call that passes the guard is a run of guard, send and verdict steps, with exactly this effect on row, history, POST log and message |
| TimedRuns.RunsCompose | apps/notifier/src/modules/notifier/consumers/push-send.consumer.ts:44-113 | timed runs concatenate |
| SingleFlight.FlightKept | apps/notifier/src/modules/notifier/consumers/push-send.consumer.ts:44-113 | every action the timing assumptions admit keeps the timing invariant: the live message is alone, its row PROCESSING, its remaining chain within the budget of the claim |
| SingleFlight.TailFitsChain | apps/notifier/src/modules/notifier/type-catalog/type-catalog.ts:72-81 | a chain resumed at carried-over attempts fits the worst chain, and equals it when nothing is carried over |
| SingleFlight.TailClosedForm | apps/notifier/src/modules/notifier/type-catalog/type-catalog.ts:72-81 | the remaining chain is its hops plus the sum of its waits |
| SingleFlight.StuckMeansIdle | apps/notifier/src/modules/notifier/repositories/notifications.repository.ts:168-181 | a row past the threshold has no message under way |
| SingleFlight.TerminalStates | apps/notifier/src/modules/notifier/repositories/notifications.repository.ts:105-143 | under single flight a SENT row is never written, FAILED is left only by a manual retry and PENDING only by a claim |
| DeliveryInvariants.CellInvKept | apps/notifier/src/modules/notifier/state-machine/notification.state-machine.ts:90-174 | every action, by whomever and whenever, keeps row, version, request, witness, ledger and bound invariants of one notification |
| DeliveryInvariants.VersionsKept | apps/notifier/src/modules/notifier/repositories/notifications.repository.ts:80-232 | the row invariant and the immutable columns survive every statement, and whatever the replica shows was once the row |
| DeliveryInvariants.CommitKept | apps/notifier/src/modules/notifier/state-machine/notification.state-machine.ts:99-128 | a verdict landing on any status keeps the row invariant, and its effect on the row is that of the transaction |
| DeliveryInvariants.RequestsKept | apps/notifier/src/modules/notifier/consumers/push-send.consumer.ts:72-78 | POSTs stay on or after scheduledFor with one key and one body |
| DeliveryInvariants.ServedKept | apps/notifier/src/modules/notifier/consumers/push-send.consumer.ts:103-108 | every action keeps: a message past its retry delay has waited until the delay ended |
| DeliveryInvariants.WitnessedKept | apps/notifier/src/modules/notifier/state-machine/notification.state-machine.ts:101-109 | SENT keeps its 2xx POST and its PUSH_SENT row |
| DeliveryInvariants.LedgerKept | apps/notifier/src/modules/notifier/state-machine/notification.state-machine.ts:90-174 | the counts of history rows against transitions, gaps included, survive every action |
| DeliveryInvariants.BoundsKept | apps/notifier/src/modules/notifier/consumers/notifier-cron.consumer.ts:45-49 | claims are paid for by redrives and manual retries, retry verdicts by attempts below the cap, messages by both |
| Notifications.VerdictKeepsRowInv | apps/notifier/src/modules/notifier/state-machine/notification.state-machine.ts:99-128 | the verdict transaction keeps the row invariant whatever the status, and its answer agrees with the row it leaves |
| Notifications.SentSurvivesVerdict | apps/notifier/src/modules/notifier/repositories/notifications.repository.ts:105-143 | a verdict on a SENT row leaves it SENT if and only if the send succeeded or attempts remain |
| InboundInvariants.InboundInvKept | libs/rmq/src/consumer.base.ts:97-152 | every action on outbox rows, hands and copies keeps the inbound invariant |
| InboundInvariants.OutboxMachineKept | apps/users/src/modules/users/repositories/users-outbox.repository.ts:46-95 | Published without a claim time and with a confirmed publish, and claims bounded by sweeps and releases, survive every action, two markers of one row included |
| InboundInvariants.PublishedAbsorbs | apps/users/src/modules/users/repositories/users-outbox.repository.ts:79-95 | nothing takes a Published row back |
| InboundInvariants.CarriedKept | apps/users/src/modules/users/commands/claim-and-publish-users.command.ts:46-53 | every copy in every queue is the unchanged payload of an outbox row |
| InboundInvariants.ScheduledKept | apps/notifier/src/modules/notifier/consumers/ingest.consumer.ts:59-72 | each stored notification keeps the ingest that scheduled it, for that time plus the configured delay |
| InboundInvariants.SpacedKept | apps/users/src/modules/users/repositories/users-outbox.repository.ts:46-77 | the log of claims of a row stays spaced by the threshold through every action |
| InboundInvariants.OneIdPerKeyKept | apps/notifier/src/modules/notifier/state-machine/notification.state-machine.ts:80-87 | one id per key and exactly one first insert survive every ingest |
| InboundInvariants.NothingLostKept | apps/notifier/src/modules/admin/commands/republish-inbox-dlq.command.ts:55-116 | once a publish was confirmed, its event stays stored or alive through rejections, expiries, dead-lettering, drains and crashes, each finding its binding |
| InboundInvariants.SafeKept | libs/rmq/src/consumer.base.ts:97-152 | a copy is given up only for a stored row or for another copy, when the binding the step relies on is there |
| InboundInvariants.PlacedKept | apps/notifier/src/modules/notifier/notifier-topology.service.ts:43-56 | a copy is only ever where a binding could take it |
| InboundInvariants.UnboundRejectLoses | apps/notifier/src/modules/notifier/notifier-topology.service.ts:43-52 | rejecting the only copy of an event keeps the event if and only if the retry queue is bound |
| InboundInvariants.UnboundDeadLetterLoses | libs/rmq/src/consumer.base.ts:133-141 | dead-lettering the only copy of an event, acknowledged either way, keeps the event if and only if the DLQ is bound |
| InboundInvariants.UnboundPublishLoses | libs/rmq/src/producer.base.ts:34-66 | a publish is confirmed and marked either way; its event is safe afterwards if and only if the ingest queue was bound |
| TypeCatalog.WaitLadder | apps/notifier/src/modules/notifier/type-catalog/type-catalog.ts:72-81 | without jitter the waits 1..n sum to base(2^n - 1), and a ladder resumed at carried-over attempts costs no more |
| TypeCatalog.WaitSumClosedForm | apps/notifier/src/modules/notifier/type-catalog/type-catalog.ts:72-81 | any stretch of the ladder telescopes to a difference of two powers |
| TypeCatalog.WaitsGrow | apps/notifier/src/modules/notifier/type-catalog/type-catalog.ts:72-77 | every later wait is at least twice every earlier one |
| TypeCatalog.FixedWaits | apps/notifier/src/modules/notifier/type-catalog/type-catalog.ts:72-78 | a fixed policy without jitter waits the same after every failure |
| TypeCatalog.JitterBounds | apps/notifier/src/modules/notifier/type-catalog/type-catalog.ts:78-80 | with jitter in [0, 1] the wait lies between the floors of base(1 - j) and base(1 + j) and is not negative |
| TypeCatalog.AcceptsExactly | apps/notifier/src/modules/notifier/type-catalog/type-catalog.ts:20-23 | the parameters accepted are exactly a non-empty userId, a non-empty name and nothing else |
| TypeCatalog.KnowsExactly | apps/notifier/src/modules/notifier/type-catalog/type-catalog.ts:38-67 | the one known type goes to the webhook after the configured delay, with the configured attempts and waits of 1 s doubling without jitter |
| TypeCatalog.RenderIsParams | apps/notifier/src/modules/notifier/type-catalog/type-catalog.ts:20-44 | rendering validated parameters neither drops nor adds a field |
| Selection.TakeEarliest | apps/notifier/src/modules/notifier/repositories/notifications.repository.ts:83-88 | the earliest min(limit, n) keys, each once, by a selection loop |
| Selection.FindEarliest | apps/notifier/src/modules/notifier/repositories/notifications.repository.ts:86-87 | a key with the least timestamp |
| NotificationStore.NotificationsRepository.FindByIdempotencyKey | apps/notifier/src/modules/notifier/repositories/notifications.repository.ts:55-59 | the primary row with the key, or proof that there is none |
| NotificationStore.NotificationsRepository.FindById | apps/notifier/src/modules/notifier/repositories/notifications.repository.ts:51-53 | a version the row once had on the primary, with its id and all its immutable columns but possibly an old status; or nothing |
| NotificationStore.NotificationsRepository.Replicate | apps/notifier/src/modules/notifier/repositories/notifications.repository.ts:51-53 | the replica may come to show any version a row ever had |
| NotificationStore.Rewritten | apps/notifier/src/modules/notifier/repositories/notifications.repository.ts:80-232 | a statement that keeps the immutable columns keeps every earlier version readable as a version of the same row |
| NotificationStore.NotificationsRepository.Insert | apps/notifier/src/modules/notifier/repositories/notifications.repository.ts:63-65 | succeeds if and only if id and key are free; otherwise nothing changes |
| NotificationStore.NotificationsRepository.AppendHistoryBatch | apps/notifier/src/modules/notifier/repositories/notifications.repository.ts:186-196 | appends the entries in order, nothing for an empty batch |
| NotificationStore.NotificationsRepository.ClaimDue | apps/notifier/src/modules/notifier/repositories/notifications.repository.ts:80-103 | claims at most a batch of rows that are PENDING, due and unlocked, none scheduled after a ready row left behind and all ready ones if they fit; they become PROCESSING as of now, no other row changes, and each is returned with its columns |
| NotificationStore.ClaimSelects | apps/notifier/src/modules/notifier/repositories/notifications.repository.ts:83-88 | the selection in terms of the columns of the rows |
| NotificationStore.NotificationsRepository.MarkSent | apps/notifier/src/modules/notifier/repositories/notifications.repository.ts:105-110 | keyed on the id alone, whatever the status: SENT with the time, every other column kept |
| NotificationStore.NotificationsRepository.IncrementAttempt | apps/notifier/src/modules/notifier/repositories/notifications.repository.ts:112-126 | keyed on the id alone: one attempt more and the error, every other column kept; returns the new count |
| NotificationStore.NotificationsRepository.MarkFailed | apps/notifier/src/modules/notifier/repositories/notifications.repository.ts:128-143 | keyed on the id alone: FAILED with the error and without claim time, every other column kept |
| NotificationStore.NotificationsRepository.RecoverStuck | apps/notifier/src/modules/notifier/repositories/notifications.repository.ts:145-184 | row by row: PROCESSING since before the threshold becomes FAILED past the cap and PENDING with one redrive more under it, each reported once; other rows keep every column, and none that was stuck is PROCESSING any more |
| NotificationStore.SweepMeans | apps/notifier/src/modules/notifier/repositories/notifications.repository.ts:153-181 | the two statements in terms of the columns of a row |
| NotificationStore.NotificationsRepository.ApplyManualRetry | apps/notifier/src/modules/notifier/repositories/notifications.repository.ts:214-232 | changes the row if and only if it is FAILED: PENDING, no attempts, no claim time, no error, its redrive count kept |
| NotificationStore.SkipLockedDisjoint | apps/notifier/src/modules/notifier/repositories/notifications.repository.ts:82-94 | a concurrent or later claim never returns a row of the first one |
| NotificationStore.ReportedSet | apps/notifier/src/modules/notifier/repositories/notifications.repository.ts:153-178 | a report over distinct ids covers the whole set, each row once |
| StateMachine.NotificationStateMachine.Ingest | apps/notifier/src/modules/notifier/state-machine/notification.state-machine.ts:61-88 | row and CREATED entry commit together; a taken key answers with the stored row, a taken id is an error, and neither writes |
| StateMachine.NotificationStateMachine.Claim | apps/notifier/src/modules/notifier/state-machine/notification.state-machine.ts:90-97 | the claim and one CLAIMED_BY_TICK entry per claimed row |
| StateMachine.NotificationStateMachine.RecordAttempt | apps/notifier/src/modules/notifier/state-machine/notification.state-machine.ts:99-128 | a 2xx makes the row SENT and logs PUSH_SENT; anything else counts one attempt, keeps the error, logs PUSH_ATTEMPT with it and fails the row exactly at the cap; one entry, no other row, and nothing at all for an unknown id |
| StateMachine.VerdictJudges | apps/notifier/src/modules/notifier/state-machine/notification.state-machine.ts:99-128 | row and verdict of a send in terms of the columns |
| StateMachine.NotificationStateMachine.RecoverStuck | apps/notifier/src/modules/notifier/state-machine/notification.state-machine.ts:130-159 | the sweep and one REDRIVEN_FROM_STUCK entry per swept row, capped rows first, with the limit error or the new redrive count |
| StateMachine.SweepEntries | apps/notifier/src/modules/notifier/state-machine/notification.state-machine.ts:133-148 | event, row and payload of each entry of a sweep |
| StateMachine.NotificationStateMachine.ManualRetry | apps/notifier/src/modules/notifier/state-machine/notification.state-machine.ts:161-174 | FAILED becomes PENDING with a MANUAL_RETRY entry; otherwise the answer comes from the replica |
| StateMachine.NotificationStateMachine.RecordFailure | apps/notifier/src/modules/notifier/state-machine/notification.state-machine.ts:111-126 | one attempt more, a PUSH_ATTEMPT entry with the error, and FAILED exactly when it was the last one |
| StateMachine.RefusalIsCurrent | apps/notifier/src/modules/notifier/state-machine/notification.state-machine.ts:171-173 | a refused manual retry names the status of the row if and only if the replica shows it |
| StateMachine.SecondRetryAnswersFromThePast | apps/notifier/src/modules/notifier/state-machine/notification.state-machine.ts:161-173 | a second retry before the replica has caught up is refused as FAILED although the row is PENDING |
| Consumers.NotifierCronConsumer.Handle | apps/notifier/src/modules/notifier/consumers/notifier-cron.consumer.ts:39-62 | one tick is sweep, claim, dispatch: final table, history and the messages whose publish was accepted |
| Consumers.NotifierCronConsumer.Dispatch | apps/notifier/src/modules/notifier/consumers/notifier-cron.consumer.ts:47-49 | one message per claimed row whose publish is accepted, in whatever order the broker takes them; succeeds if and only if all are |
| Consumers.AcceptedOnce | apps/notifier/src/modules/notifier/consumers/notifier-cron.consumer.ts:47-49 | each accepted row gets one work message, each refused row none |
| Consumers.PushSendConsumer.Handle | apps/notifier/src/modules/notifier/consumers/push-send.consumer.ts:44-113 | a row that the replica does not show as PROCESSING changes nothing and returns; one that it does, with parameters that pass, gets one POST with its id and parameters, one history entry by the answer, the verdict on the primary row, and a retry after 1 s doubling exactly while attempts remain |
| Consumers.IngestConsumer.Handle | apps/notifier/src/modules/notifier/consumers/ingest.consumer.ts:51-84 | unknown type or invalid parameters write nothing; otherwise the key is stored once, PENDING for the own time of the event or the configured delay from now; stored rows never change |
| OutboxRows.EnvelopeAccepts | apps/notifier/src/modules/notifier/dto/ingest.event.ts:7-18 | an envelope is accepted if and only if its type and source event id are not empty and no user id, phone or push token that is present is empty |
| UsersOutbox.CreateUserCommand.Execute | apps/users/src/modules/users/commands/create-user.command.ts:29-54 | user and outbox row commit together or not at all; the row is unpublished and its envelope is the welcome of this user, which passes both schemas |
| UsersOutbox.UsersOutboxRepository.Enqueue | apps/users/src/modules/users/repositories/users-outbox.repository.ts:25-44 | one new row, or none when the id is taken |
| UsersOutbox.UsersOutboxRepository.SweepStuck | apps/users/src/modules/users/repositories/users-outbox.repository.ts:46-56 | an unpublished row loses its claim if and only if that is older than the threshold; no other column or row changes |
| UsersOutbox.UsersOutboxRepository.ClaimBatch | apps/users/src/modules/users/repositories/users-outbox.repository.ts:58-77 | claims at most a batch of unpublished, unclaimed, unlocked rows, none younger than one left behind and all if they fit, as of now, and returns their payloads |
| UsersOutbox.ClaimSelects | apps/users/src/modules/users/repositories/users-outbox.repository.ts:60-66 | the selection in terms of the columns of the rows |
| UsersOutbox.UsersOutboxRepository.MarkPublished | apps/users/src/modules/users/repositories/users-outbox.repository.ts:79-86 | keyed on the id alone, also on a row already published |
| UsersOutbox.UsersOutboxRepository.ReleaseClaim | apps/users/src/modules/users/repositories/users-outbox.repository.ts:88-95 | never touches a published row |
| UsersOutbox.ClaimAndPublishUsersCommand.Execute | apps/users/src/modules/users/commands/claim-and-publish-users.command.ts:31-44 | row by row: published at its own time when publish and mark succeed, left in its new claim when one fails, otherwise as the sweep left it; messages in whatever order the broker takes them, and counters |
| UsersOutbox.RoundMeans | apps/users/src/modules/users/commands/claim-and-publish-users.command.ts:31-62 | the effect of a round in terms of the columns of a row |
| UsersOutbox.OutgoingMeans | apps/users/src/modules/users/commands/claim-and-publish-users.command.ts:46-52 | a message is sent if and only if it is that of a row of the round whose publish goes through, with the payload, the source event id and the key of the type |
| UsersOutbox.ClaimAndPublishUsersCommand.PublishAll | apps/users/src/modules/users/commands/claim-and-publish-users.command.ts:35-37 | all publishes of a round, in any order and with each mark at its own time, against the specification of its effect |
| UsersOutbox.ClaimAndPublishUsersCommand.PublishOne | apps/users/src/modules/users/commands/claim-and-publish-users.command.ts:46-62 | mark only after the publish; a throw in either leaves the row claimed |
| Selection.EarliestInAnyOrder | apps/users/src/modules/users/repositories/users-outbox.repository.ts:65-74 | the claimed rows may be taken up in any order |
| UsersOutbox.MarkedWasSent | apps/users/src/modules/users/commands/claim-and-publish-users.command.ts:49-53 | every row a round marks has its message among those sent |
| UsersOutbox.SamePayloads | apps/users/src/modules/users/repositories/users-outbox.repository.ts:67-74 | claiming changes no message |
| Routing.EveryTypeRoutes | apps/users/src/modules/users/commands/claim-and-publish-users.command.ts:17 | for every type string the routing key matches ingest.#, as does the DLX key |
| Routing.UnderBinding | apps/notifier/src/modules/notifier/consumers/ingest.consumer.ts:24-30 | the pattern w.# takes exactly the keys whose first word is w |
| Routing.LiteralMatches | apps/notifier/src/modules/notifier/notifier-topology.service.ts:41 | a pattern without wildcards takes its own words only |
| Routing.KeysAreInjective | apps/notifier/src/modules/admin/commands/republish-inbox-dlq.command.ts:24 | over [A-Z_] the key determines the type |
| Routing.KeysCollide | apps/notifier/src/modules/admin/commands/republish-inbox-dlq.command.ts:24 | off that alphabet it does not: A-B and A_B share a key |
| Routing.KeySpelled | apps/users/src/modules/users/commands/claim-and-publish-users.command.ts:17 | the key is ingest. and the type with ASCII capitals lowered and underscores dashed |
| Topology.NotifierTopologyService.OnModuleInit | apps/notifier/src/modules/notifier/notifier-topology.service.ts:22-60 | issues exactly these exchange, queue and binding declarations, after whatever was declared before |
| Topology.BootsInAnyOrder | libs/rmq/src/consumer.base.ts:34-47 | any interleaving and repetition of the declarations of the service and the three consumers leaves the same broker |
| Topology.Boot | apps/notifier/src/modules/notifier/notifier-topology.service.ts:22-60 | booting module by module issues just these declarations and ends in that broker |
| Topology.CronRoute | apps/notifier/src/modules/notifier/consumers/notifier-cron.consumer.ts:13-24 | a scheduler tick reaches the cron queue and nothing else |
| Topology.IngestRing | apps/notifier/src/modules/notifier/notifier-topology.service.ts:43-56 | for every type, publish, rejection, expiry and dead-lettering lead to exactly one queue each |
| Topology.SendRing | apps/notifier/src/modules/notifier/notifier-topology.service.ts:33-41 | whatever its key, a message that dies in the retry queue is work again, and a rejected work message goes nowhere |
| Topology.ParkedComesBack | apps/notifier/src/modules/notifier/notifier-topology.service.ts:33-52 | a parked event comes back after five seconds and a parked work message after its own delay, and nothing else dies of age |
| RetryRing.CountIsRejections | libs/rmq/src/consumer.base.ts:154-160 | whatever other x-death entries a message gathers, the count for a queue is the number of its rejections there |
| RetryRing.RingBound | libs/rmq/src/consumer.base.ts:118-152 | a message that always fails makes exactly maxAttempts - 1 - (rejections carried) laps before it qualifies for the DLQ; without headers the full budget |
| BrokerRefinement.IngestBudget | apps/notifier/src/modules/notifier/consumers/ingest.consumer.ts:31-35 | the ingest consumer rejects four times and dead-letters the fifth failing delivery |
| RmqConsumer.Dispatch | libs/rmq/src/consumer.base.ts:97-152 | at most one settlement; acknowledged only when handled or in the DLQ; the DLQ exactly past the threshold; a failing DLQ publish falls back to rejection |
| RmqConsumer.EveryInterleaving | libs/rmq/src/consumer.base.ts:50-95 | over every interleaving inFlight is started minus finished, nothing starts after shutdown began, the drain never waits for nothing, and without a timeout it ends only when every started dispatch has, its delivery settled or its channel closed under it |
| RmqConsumer.DrainCompletes | libs/rmq/src/consumer.base.ts:57-62 | once the open dispatches finish, in any order, the drain resolves |
| RmqConsumer.ShutdownStep | libs/rmq/src/consumer.base.ts:50-95 | each event keeps the shutdown invariant |
| RmqConsumer.Consumer.OnMessage | libs/rmq/src/consumer.base.ts:50-56 | counted and dispatched before shutdown, requeued after |
| RmqConsumer.Consumer.OnDispatch | libs/rmq/src/consumer.base.ts:97-152 | a whole dispatch settles its delivery once exactly when its channel is still there, and the counters say so |
| RmqConsumer.Consumer.OnDispatchDone | libs/rmq/src/consumer.base.ts:57-62 | resolves the drain exactly when the last dispatch finishes during one |
| RmqConsumer.Consumer.OnShutdown | libs/rmq/src/consumer.base.ts:68-76 | from here on deliveries are requeued |
| RmqConsumer.Consumer.OnCancelDone | libs/rmq/src/consumer.base.ts:77-93 | waits if and only if a dispatch is open |
| RmqConsumer.Consumer.OnDrainTimeout | libs/rmq/src/consumer.base.ts:87-90 | the wait ends with dispatches possibly open |
| DlqDrain.RepublishInboxDlqCommand.Execute | apps/notifier/src/modules/admin/commands/republish-inbox-dlq.command.ts:48-124 | with messages arriving at the tail and others taking from the head, each round gets the message at which the line then stands, at most as many as were there at the start, and the final DLQ, publishes and counters follow; it breaks off only when the DLQ is empty or the channel dies, which leaves the message in hand at the head; alone it handles the first messages in order and never runs dry |
| DlqDrain.PassRound | apps/notifier/src/modules/admin/commands/republish-inbox-dlq.command.ts:70-117 | one round: the message got is the one of the line, and the rest stands as before with what was put back at its end |
| DlqDrain.AloneInOrder | apps/notifier/src/modules/admin/commands/republish-inbox-dlq.command.ts:67-72 | with no other consumer the rounds get the messages present at the start, in order |
| DlqDrain.CountsAddUp | apps/notifier/src/modules/admin/commands/republish-inbox-dlq.command.ts:62-113 | republished + failed + skipped is the number of rounds |
| DlqDrain.OnlyMatchesReissued | apps/notifier/src/modules/admin/commands/republish-inbox-dlq.command.ts:79-114 | only valid envelopes that match the filter are published, as many as counted republished or doubled |
| DlqDrain.EachIsAnswered | apps/notifier/src/modules/admin/commands/republish-inbox-dlq.command.ts:78-114 | the converse: in a round that works an envelope that was asked for is published under its id and key and counted, one that was not is put back and counted skipped, and what does not parse is put back and counted failed |
| DlqDrain.DisposesOf | apps/notifier/src/modules/admin/commands/republish-inbox-dlq.command.ts:78-114 | exactly when a message fails, is skipped, and reaches the ingest exchange |
| DlqDrain.WorkingCounts | apps/notifier/src/modules/admin/commands/republish-inbox-dlq.command.ts:53-113 | when every round works the counters are the numbers of messages asked for, and of those that do not parse |
| DlqDrain.HandledIsKept | apps/notifier/src/modules/admin/commands/republish-inbox-dlq.command.ts:55-113 | a handled message is on the ingest exchange or back in the DLQ |
| DlqDrain.PassKeepsOrder | apps/notifier/src/modules/admin/commands/republish-inbox-dlq.command.ts:55-66 | whatever arrives during the pass, the tail holds exactly the arrivals and the messages put back, each of the two in its own order, and as many were put back as were not republished |
| DlqDrain.QuietPassKeepsOrder | apps/notifier/src/modules/admin/commands/republish-inbox-dlq.command.ts:55-66 | with no arrivals the tail is just the messages put back, in their old order |
| DlqDrain.CleanPassLeavesOnlyInvalid | apps/notifier/src/modules/admin/commands/republish-inbox-dlq.command.ts:69-83 | a pass without filter and failures leaves exactly the messages that do not parse |
| Admin.PageIsPrefix | apps/notifier/src/modules/admin/admin.service.ts:28-37 | a page is a prefix of the full listing below the cursor; a next cursor is its last id and means more remain |
| Admin.PageShows | apps/notifier/src/modules/admin/admin.service.ts:23-38 | a page holds at most the limit of rows of the status below the cursor, the largest ids first, and all of them if there is no next cursor |
| Admin.PageSplits | apps/notifier/src/modules/admin/admin.service.ts:23-38 | a page is separated from what it leaves for the next one by its cursor |
| Admin.CrawlNeverRepeats | apps/notifier/src/modules/admin/admin.service.ts:21-38 | whatever happens to the table between pages, ids come strictly descending, each from some snapshot with a fitting status |
| Admin.CrawlMissesNoStableRow | apps/notifier/src/modules/admin/admin.service.ts:21-38 | a row present with a fitting status throughout is listed |
| Admin.CrawlCompletes | apps/notifier/src/modules/admin/admin.service.ts:34-37 | following the cursor terminates: it strictly decreases |
| Admin.CrawlCompletesFromTheTop | apps/notifier/src/modules/admin/admin.service.ts:34-37 | the same from the first page, with rows added at the top at any time |
| Admin.QuietCrawlIsFullListing | apps/notifier/src/modules/notifier/repositories/notifications.repository.ts:198-211 | on an unchanged table the pages concatenate to the full filtered descending listing |
| Admin.DescendingUnique | apps/notifier/src/modules/notifier/repositories/notifications.repository.ts:208 | a strictly descending sequence is determined by its members |
| TickRefinement.TickIsRun | apps/notifier/src/modules/notifier/consumers/notifier-cron.consumer.ts:39-49 | what a tick does to table, history and messages is a run of the pipeline: every swept row gains REDRIVEN_FROM_STUCK, every claimed row CLAIMED_BY_TICK and one message, ready if its publish was accepted |
| TickRefinement.TickHistory | apps/notifier/src/modules/notifier/state-machine/notification.state-machine.ts:90-159 | the history table gains exactly those entries for each notification |
| PushRefinement.SendIsRun | apps/notifier/src/modules/notifier/consumers/push-send.consumer.ts:67-113 | a handler call that sends, with its own times for POST, verdict and retry, is a run that ends with the message settled and the retry waiting, or lost with its publish |
| PushRefinement.HandleIsRun | apps/notifier/src/modules/notifier/consumers/push-send.consumer.ts:44-113 | whatever the handler does by its contract, skip, throw or send, is a run with the same table, history, POSTs and retry |
| PushRefinement.ThrowIsRun | apps/notifier/src/modules/notifier/consumers/push-send.consumer.ts:67-72 | a handler call that throws before the POST is a run that only drops the message |
| PushRefinement.SkipIsRun | apps/notifier/src/modules/notifier/consumers/push-send.consumer.ts:51-65 | a handler call that reads no PROCESSING row is a run that only settles the message |
| Refinement.ClaimStatementIsRun | apps/notifier/src/modules/notifier/repositories/notifications.repository.ts:80-103 | claimDue is a run of single claims |
| Refinement.CapStatementIsRun | apps/notifier/src/modules/notifier/repositories/notifications.repository.ts:153-165 | the capping statement is a run of single sweeps to FAILED |
| Refinement.RedriveStatementIsRun | apps/notifier/src/modules/notifier/repositories/notifications.repository.ts:168-181 | the redrive statement is a run of single sweeps to PENDING |
| Refinement.BatchIsRun | apps/notifier/src/modules/notifier/repositories/notifications.repository.ts:80-184 | a set-wise statement is a run of single steps, in any order of its rows |
| Refinement.VerdictIsStep | apps/notifier/src/modules/notifier/state-machine/notification.state-machine.ts:99-128 | recordAttempt is the commit step |
| Refinement.ManualRetryIsStep | apps/notifier/src/modules/notifier/repositories/notifications.repository.ts:214-232 | the manual-retry step is enabled on exactly the rows the statement matches |
| Refinement.KeyTaken | apps/notifier/src/modules/notifier/state-machine/notification.state-machine.ts:80-87 | the index holds exactly the keys of the table |
| Refinement.IngestOfKnownKey | apps/notifier/src/modules/notifier/state-machine/notification.state-machine.ts:80-87 | ingesting a known key leaves every notification alone |
| Refinement.IngestOfNewKey | apps/notifier/src/modules/notifier/state-machine/notification.state-machine.ts:61-80 | ingesting a new key adds the row the ingest consumer computes and nothing else |
| OutboxRefinement.RoundIsRun | apps/users/src/modules/users/commands/claim-and-publish-users.command.ts:31-44 | a whole outbox round, in any order of its publishes and with each mark at its own time, is a run of the pipeline with the same final outbox and the same new copies in the ring |
| OutboxRefinement.SweepIsRun | apps/users/src/modules/users/repositories/users-outbox.repository.ts:46-56 | sweepStuck is a run of single sweeps |
| OutboxRefinement.ClaimIsRun | apps/users/src/modules/users/repositories/users-outbox.repository.ts:58-77 | claimBatch is a run of single claims, each putting its row in a hand |
| OutboxRefinement.PublishIsRun | apps/users/src/modules/users/commands/claim-and-publish-users.command.ts:46-52 | the publishes of a round are a run of publish steps, as far as each gets |
| OutboxRefinement.MarksAreRun | apps/users/src/modules/users/commands/claim-and-publish-users.command.ts:53-61 | the marks of a round, each at its own time, are a run of mark steps and waits |
| BrokerRefinement.DispatchIsRun | libs/rmq/src/consumer.base.ts:97-152 | an ingest delivery, settled in any way the base consumer can, is a run with exactly this effect on copies and table |
| BrokerRefinement.DrainRoundIsRun | apps/notifier/src/modules/admin/commands/republish-inbox-dlq.command.ts:62-117 | a drain round is a run; one that dies leaves the copy in the DLQ, and one whose republish landed unheard leaves a copy in either queue |

## Left out

- HTTP, Postgres, Prisma and amqplib internals: atomic steps, nondeterministic outcomes, and queues with unacknowledged sets stand for them.
- Wiring, controllers, validation pipes, health checks, logging, metrics and queue-depth polling have no state worth proving.
- Cron registration and the cron exchange: a tick or a round is a step that may happen at any time.
- Arbitrary database errors inside the class methods: in the transition systems they are the drops, rejections and dying processes.
- Prefetch and head-of-line blocking of per-message expirations in the retry queue: they are part of the hop bound of the timed runs.
- A consumer shut down before it started consuming returns at once; nothing is in flight then.
- Foreign producers on `notifications.ingest` and messages planted by hand in the DLQ: the drain takes any content, the transition system only envelopes from the outbox.
- Letters outside ASCII in lower-casing, and the 255-byte limit of routing keys.
- JSON encoding, e-mail and date formats of the envelope, and the createdAt and updatedAt columns of notifications.
- Types that are names of inherited object properties find a catalog value without a schema; the handler throws as for an unknown type, which is how the model treats them.
- TypeCatalog.JitterBounds: real arithmetic and an integer base; floating-point rounding is not modelled, and the only policy in the catalog has no jitter.
- The read endpoints besides the listing, and the v1 code paths described only in old documents.
