/**
 The whole pipeline: the inbound half and one Delivery cell per inserted notification, on one clock.
 A run is any sequence of enabled actions; the theorems below hold at the end of every run.
 */
module Pipeline {
  import opened Common
  import opened TypeCatalog
  import opened Notifications
  import opened OutboxRows
  import In = Inbound
  import opened InboundInvariants
  import D = Delivery
  import opened DeliveryInvariants
  import opened SingleFlight

  datatype Config = Config(catalog: Catalog, stuckThresholdMs: nat, recoveryThresholdMs: nat, maxRedrives: nat) {
    function Inbound(): In.Config { In.Config(catalog, stuckThresholdMs) }
    function Delivery(): D.Config { D.Config(catalog, recoveryThresholdMs, maxRedrives) }
    predicate WellFormed() { D.WellFormed(Delivery()) }
  }

  datatype World = World(now: Time, inbound: In.State, cells: map<Id, D.Cell>)

  datatype Action = Elapse(ms: nat) | OfInbound(ia: In.Action) | OfDelivery(id: Id, da: D.Action)

  predicate Enabled(cfg: Config, w: World, a: Action) {
    match a
    case Elapse(_) => true
    case OfInbound(ia) => In.Enabled(cfg.Inbound(), w.now, w.inbound, ia)
    case OfDelivery(id, da) => id in w.cells && D.Enabled(cfg.Delivery(), w.now, w.cells[id], da)
  }

  /** A notification inserted by an ingest starts its delivery life. */
  function Adopt(cells: map<Id, D.Cell>, inserted: map<Id, Row>): map<Id, D.Cell> {
    map id | id in inserted :: if id in cells then cells[id] else D.NewCell(inserted[id])
  }

  function Next(cfg: Config, w: World, a: Action): World
    requires Enabled(cfg, w, a)
  {
    match a
    case Elapse(ms) => w.(now := w.now + ms)
    case OfInbound(ia) =>
      var inbound := In.Next(cfg.Inbound(), w.now, w.inbound, ia);
      w.(inbound := inbound, cells := Adopt(w.cells, inbound.table.inserted))
    case OfDelivery(id, da) => w.(cells := w.cells[id := D.Next(cfg.Delivery(), w.now, w.cells[id], da)])
  }

  function Start(now: Time, bound: In.Bindings): World {
    World(now, In.Initial(bound), map[])
  }

  predicate Run(cfg: Config, w: World, actions: seq<Action>)
    decreases |actions|
  {
    actions == [] || (Enabled(cfg, w, actions[0]) && Run(cfg, Next(cfg, w, actions[0]), actions[1..]))
  }

  function End(cfg: Config, w: World, actions: seq<Action>): World
    requires Run(cfg, w, actions)
    decreases |actions|
  {
    if actions == [] then w else End(cfg, Next(cfg, w, actions[0]), actions[1..])
  }

  // ---------------------------------------------------------------- the invariant of every run

  ghost predicate CellFits(cfg: Config, w: World, id: Id)
    requires id in w.cells && id in w.inbound.table.inserted
  {
    CellInv(cfg.Delivery(), w.now, w.cells[id]) && SameColumns(w.cells[id].row, w.inbound.table.inserted[id])
  }

  ghost predicate WorldInv(cfg: Config, w: World) {
    && InboundInv(cfg.Inbound(), w.inbound)
    && w.cells.Keys == w.inbound.table.inserted.Keys
    && (forall id :: id in w.cells ==> CellFits(cfg, w, id))
  }

  lemma InboundStep(cfg: Config, w: World, ia: In.Action)
    requires cfg.WellFormed() && WorldInv(cfg, w) && Enabled(cfg, w, OfInbound(ia))
    ensures WorldInv(cfg, Next(cfg, w, OfInbound(ia)))
  {
    InboundInvKept(cfg.Inbound(), w.now, w.inbound, ia);
    Adoption(cfg, w, ia, In.Next(cfg.Inbound(), w.now, w.inbound, ia));
  }

  lemma Adoption(cfg: Config, w: World, ia: In.Action, inbound: In.State)
    requires cfg.WellFormed() && WorldInv(cfg, w) && Enabled(cfg, w, OfInbound(ia))
    requires inbound == In.Next(cfg.Inbound(), w.now, w.inbound, ia) && InboundInv(cfg.Inbound(), inbound)
    ensures WorldInv(cfg, w.(inbound := inbound, cells := Adopt(w.cells, inbound.table.inserted)))
  {
    hide CellInv, In.Next, InboundInv;
    var n := w.(inbound := inbound, cells := Adopt(w.cells, inbound.table.inserted));
    forall id | id in n.cells ensures CellFits(cfg, n, id) {
      if id in w.cells {
        assert CellFits(cfg, w, id);
        InsertedForGood(cfg.Inbound(), w.now, w.inbound, ia, id);
      } else {
        InsertedRows(cfg, inbound, id);
        FreshCellInv(cfg.Delivery(), w.now, inbound.table.inserted[id]);
      }
    }
  }

  lemma InsertedRows(cfg: Config, s: In.State, id: Id)
    requires InboundInv(cfg.Inbound(), s) && id in s.table.inserted
    ensures InsertedRow(cfg.Inbound(), s.u, s.table, id, s.table.inserted[id])
  {
  }

  lemma DeliveryStep(cfg: Config, w: World, id: Id, da: D.Action)
    requires cfg.WellFormed() && WorldInv(cfg, w) && Enabled(cfg, w, OfDelivery(id, da))
    ensures WorldInv(cfg, Next(cfg, w, OfDelivery(id, da)))
  {
    assert CellFits(cfg, w, id);
    CellInvKept(cfg.Delivery(), w.now, w.cells[id], da);
    VersionsKept(cfg.Delivery(), w.now, w.cells[id], da);
    Replacement(cfg, w, id, D.Next(cfg.Delivery(), w.now, w.cells[id], da));
  }

  lemma Replacement(cfg: Config, w: World, id: Id, d: D.Cell)
    requires WorldInv(cfg, w) && id in w.cells
    requires CellInv(cfg.Delivery(), w.now, d) && SameColumns(w.cells[id].row, d.row)
    ensures WorldInv(cfg, w.(cells := w.cells[id := d]))
  {
    hide CellInv, InboundInv;
    var n := w.(cells := w.cells[id := d]);
    forall k | k in n.cells ensures CellFits(cfg, n, k) {
      assert CellFits(cfg, w, k);
    }
  }

  lemma StepInv(cfg: Config, w: World, a: Action)
    requires cfg.WellFormed() && WorldInv(cfg, w) && Enabled(cfg, w, a)
    ensures WorldInv(cfg, Next(cfg, w, a))
  {
    match a
    case OfInbound(ia) => InboundStep(cfg, w, ia);
    case OfDelivery(id, da) => DeliveryStep(cfg, w, id, da);
    case Elapse(ms) =>
      var n := Next(cfg, w, a);
      forall id | id in n.cells ensures CellFits(cfg, n, id) {
        assert CellFits(cfg, w, id);
        TimePasses(cfg.Delivery(), w.now, n.now, w.cells[id]);
      }
  }

  lemma {:induction false} RunInv(cfg: Config, w: World, actions: seq<Action>)
    requires cfg.WellFormed() && WorldInv(cfg, w) && Run(cfg, w, actions)
    ensures WorldInv(cfg, End(cfg, w, actions))
    decreases |actions|
  {
    if actions != [] {
      StepInv(cfg, w, actions[0]);
      RunInv(cfg, Next(cfg, w, actions[0]), actions[1..]);
    }
  }

  /** Every run from the empty system keeps the invariant. */
  lemma EveryRun(cfg: Config, now: Time, bound: In.Bindings, actions: seq<Action>)
    requires cfg.WellFormed() && Run(cfg, Start(now, bound), actions)
    ensures WorldInv(cfg, End(cfg, Start(now, bound), actions))
  {
    InitialInv(cfg.Inbound(), bound);
    RunInv(cfg, Start(now, bound), actions);
  }

  // ---------------------------------------------------------------- no loss, end to end

  /**
   No publish is confirmed before notifier.ingest is bound, no delivery rejected before the retry queue is, and
   none dead-lettered before the DLQ is; everything else may happen before.
   */
  predicate BindsFirst(bound: In.Bindings, actions: seq<Action>)
    decreases |actions|
  {
    actions != [] ==>
      && (actions[0].OfInbound? ==> In.Relied(bound, actions[0].ia))
      && BindsFirst(if actions[0].OfInbound? then In.BoundAfter(bound, actions[0].ia) else bound, actions[1..])
  }

  lemma {:induction false} RunLosesNothing(cfg: Config, w: World, actions: seq<Action>)
    requires cfg.WellFormed() && WorldInv(cfg, w) && NothingLost(w.inbound) && Run(cfg, w, actions)
    requires BindsFirst(w.inbound.bound, actions)
    ensures NothingLost(End(cfg, w, actions).inbound)
    decreases |actions|
  {
    if actions != [] {
      if actions[0].OfInbound? { NothingLostKept(cfg.Inbound(), w.now, w.inbound, actions[0].ia); }
      StepInv(cfg, w, actions[0]);
      RunLosesNothing(cfg, Next(cfg, w, actions[0]), actions[1..]);
    }
  }

  /** The row is still unpublished, or a live copy carries its event, or the notification exists. */
  ghost predicate Accounted(w: World, outboxId: Id)
    requires outboxId in w.inbound.u.outbox
  {
    var row := w.inbound.u.outbox[outboxId];
    || row.publishedAt.None?
    || (exists m :: AliveCopy(w.inbound, row.payload, m))
    || (exists id :: id in w.cells && w.cells[id].row.key == EventKey(row.payload))
  }

  /** No committed outbox row is lost, wherever the run starts and whatever happens before the queue is bound. */
  lemma NoLossEndToEnd(cfg: Config, now: Time, bound: In.Bindings, actions: seq<Action>, outboxId: Id)
    requires cfg.WellFormed() && Run(cfg, Start(now, bound), actions) && BindsFirst(bound, actions)
    requires outboxId in End(cfg, Start(now, bound), actions).inbound.u.outbox
    ensures Accounted(End(cfg, Start(now, bound), actions), outboxId)
  {
    var w := End(cfg, Start(now, bound), actions);
    var row := w.inbound.u.outbox[outboxId];
    InitialInv(cfg.Inbound(), bound);
    EveryRun(cfg, now, bound, actions);
    RunLosesNothing(cfg, Start(now, bound), actions);
    assert RowTraffic(row, w.inbound.u.traffic[outboxId]);
    if EventKey(row.payload) in w.inbound.table.index {
      assert CellFits(cfg, w, w.inbound.table.index[EventKey(row.payload)]);
    }
  }

  // ---------------------------------------------------------------- effectively once

  /** The outbox row a notification came from. */
  function OriginOf(w: World, id: Id): Option<Id> {
    if id in w.cells && w.cells[id].row.key.sourceEventId in w.inbound.u.bySource
    then Some(w.inbound.u.bySource[w.cells[id].row.key.sourceEventId]) else None
  }

  /** A notification carries exactly what createUser wrote, and every POST made for it is the same request. */
  lemma NotificationMatchesOutbox(cfg: Config, now: Time, bound: In.Bindings, actions: seq<Action>, id: Id)
    requires cfg.WellFormed() && Run(cfg, Start(now, bound), actions)
    requires id in End(cfg, Start(now, bound), actions).cells
    ensures var w := End(cfg, Start(now, bound), actions);
            && OriginOf(w, id).Some? && OriginOf(w, id).value in w.inbound.u.outbox
            && var row := w.inbound.u.outbox[OriginOf(w, id).value];
               && row.aggregateId in w.inbound.u.users
               && w.cells[id].row.key == EventKey(row.payload)
               && w.cells[id].row.recipient == Recipient(Some(row.aggregateId), None, None, None)
               && w.cells[id].row.params == row.payload.params
               && forall k :: 0 <= k < |w.cells[id].posts| ==>
                    && w.cells[id].posts[k].idempotencyKey == id
                    && w.cells[id].posts[k].body
                        == Obj(map["userId" := Str(row.aggregateId), "name" := Str(w.inbound.u.users[row.aggregateId])])
  {
    var w := End(cfg, Start(now, bound), actions);
    EveryRun(cfg, now, bound, actions);
    assert CellFits(cfg, w, id);
    assert InsertedRow(cfg.Inbound(), w.inbound.u, w.inbound.table, id, w.inbound.table.inserted[id]);
    var origin := OriginOf(w, id).value;
    assert WrittenRow(w.inbound.u, origin, w.inbound.u.outbox[origin]);
    RenderIsParams(w.cells[id].row.key.kind, w.cells[id].row.params);
  }

  /** Two notifications never come from one outbox row, however often it was published, redelivered or republished. */
  lemma EffectivelyOnce(cfg: Config, now: Time, bound: In.Bindings, actions: seq<Action>, a: Id, b: Id)
    requires cfg.WellFormed() && Run(cfg, Start(now, bound), actions)
    requires a in End(cfg, Start(now, bound), actions).cells && b in End(cfg, Start(now, bound), actions).cells
    ensures OriginOf(End(cfg, Start(now, bound), actions), a) == OriginOf(End(cfg, Start(now, bound), actions), b) ==>
              a == b
  {
    var w := End(cfg, Start(now, bound), actions);
    EveryRun(cfg, now, bound, actions);
    NotificationMatchesOutbox(cfg, now, bound, actions, a);
    NotificationMatchesOutbox(cfg, now, bound, actions, b);
    assert CellFits(cfg, w, a) && CellFits(cfg, w, b);
    assert InsertedRow(cfg.Inbound(), w.inbound.u, w.inbound.table, a, w.inbound.table.inserted[a]);
    assert InsertedRow(cfg.Inbound(), w.inbound.u, w.inbound.table, b, w.inbound.table.inserted[b]);
  }

  /** All ingests of one key return one id, and exactly one of them was not a duplicate. */
  lemma IngestResultsAgree(cfg: Config, now: Time, bound: In.Bindings, actions: seq<Action>, i: nat, j: nat)
    requires cfg.WellFormed() && Run(cfg, Start(now, bound), actions)
    requires var rs := End(cfg, Start(now, bound), actions).inbound.table.results;
             i < |rs| && j < |rs| && rs[i].key == rs[j].key
    ensures var w := End(cfg, Start(now, bound), actions);
            var rs := w.inbound.table.results;
            && rs[i].id == rs[j].id && rs[i].id in w.cells && w.cells[rs[i].id].row.key == rs[i].key
            && (!rs[i].deduped && !rs[j].deduped ==> i == j)
            && exists f :: FirstResult(w.inbound.table, rs[i].key, f)
  {
    var w := End(cfg, Start(now, bound), actions);
    EveryRun(cfg, now, bound, actions);
    var rs := w.inbound.table.results;
    assert CellFits(cfg, w, rs[i].id);
    if !rs[i].deduped && !rs[j].deduped {
      assert FirstResult(w.inbound.table, rs[i].key, i) && FirstResult(w.inbound.table, rs[i].key, j);
    }
  }

  // ---------------------------------------------------------------- the outbox, on every run

  lemma PublishedStays(cfg: Config, w: World, a: Action, id: Id)
    requires WorldInv(cfg, w) && Enabled(cfg, w, a)
    requires id in w.inbound.u.outbox && StateOf(w.inbound.u.outbox[id]).Published?
    ensures var u := Next(cfg, w, a).inbound.u; id in u.outbox && StateOf(u.outbox[id]).Published?
  {
    hide WorldInv, D.Next, D.Enabled, In.UsersNext, In.UsersEnabled, In.CopyEnabled, In.TableNext, Adopt;
    MachineHolds(cfg, w);
    match a
    case Elapse(_) =>
    case OfDelivery(_, _) =>
    case OfInbound(ia) =>
      if ia.OfUsers? { PublishedAbsorbs(cfg.Inbound(), w.now, w.inbound.u, ia.ua, id); }
  }

  lemma MachineHolds(cfg: Config, w: World)
    requires WorldInv(cfg, w)
    ensures OutboxMachine(w.inbound.u)
  {
  }

  lemma {:induction false} PublishedForGood(cfg: Config, w: World, actions: seq<Action>, id: Id)
    requires cfg.WellFormed() && WorldInv(cfg, w) && Run(cfg, w, actions)
    requires id in w.inbound.u.outbox && StateOf(w.inbound.u.outbox[id]).Published?
    ensures var u := End(cfg, w, actions).inbound.u; id in u.outbox && StateOf(u.outbox[id]).Published?
    decreases |actions|
  {
    hide WorldInv;
    if actions != [] {
      var a := actions[0];
      PublishedStays(cfg, w, a, id);
      StepInv(cfg, w, a);
      PublishedForGood(cfg, Next(cfg, w, a), actions[1..], id);
    }
  }

  /**
   Published is final, holds no claim and means a confirmed publish;
   between two claims of a row lies a sweep or a release.
   */
  lemma OutboxStates(cfg: Config, now: Time, bound: In.Bindings, before: seq<Action>, after: seq<Action>, id: Id)
    requires cfg.WellFormed() && Run(cfg, Start(now, bound), before)
    requires Run(cfg, End(cfg, Start(now, bound), before), after)
    requires id in End(cfg, Start(now, bound), before).inbound.u.outbox
    ensures var w := End(cfg, Start(now, bound), before);
            var row, traffic := w.inbound.u.outbox[id], w.inbound.u.traffic;
            && id in traffic && traffic[id].claims <= traffic[id].resets + (if Eligible(row) then 0 else 1)
            && (StateOf(row).Published? ==>
                  && row.publishingStartedAt.None? && traffic[id].confirmed
                  && var u := End(cfg, w, after).inbound.u; id in u.outbox && StateOf(u.outbox[id]).Published?)
  {
    EveryRun(cfg, now, bound, before);
    var w := End(cfg, Start(now, bound), before);
    assert RowTraffic(w.inbound.u.outbox[id], w.inbound.u.traffic[id]);
    if StateOf(w.inbound.u.outbox[id]).Published? { PublishedForGood(cfg, w, after, id); }
  }

  lemma {:induction false} RunSpaced(cfg: Config, w: World, actions: seq<Action>)
    requires cfg.WellFormed() && WorldInv(cfg, w) && Run(cfg, w, actions)
    requires Spaced(cfg.Inbound(), w.now, w.inbound.u)
    ensures var e := End(cfg, w, actions); Spaced(cfg.Inbound(), e.now, e.inbound.u)
    decreases |actions|
  {
    hide WorldInv;
    if actions != [] {
      SpacedStep(cfg, w, actions[0]);
      StepInv(cfg, w, actions[0]);
      RunSpaced(cfg, Next(cfg, w, actions[0]), actions[1..]);
    }
  }

  lemma SpacedStep(cfg: Config, w: World, a: Action)
    requires WorldInv(cfg, w) && Enabled(cfg, w, a) && Spaced(cfg.Inbound(), w.now, w.inbound.u)
    ensures var n := Next(cfg, w, a); Spaced(cfg.Inbound(), n.now, n.inbound.u)
  {
    hide WorldInv, D.Next, D.Enabled, In.UsersNext, In.UsersEnabled, In.CopyEnabled, In.TableNext, Adopt;
    MachineHolds(cfg, w);
    match a
    case OfDelivery(_, _) =>
    case OfInbound(ia) => if ia.OfUsers? { SpacedKept(cfg.Inbound(), w.now, w.inbound.u, ia.ua); }
    case Elapse(ms) =>
      var u := w.inbound.u;
      forall id | id in u.outbox && id in u.traffic
        ensures RowSpaced(cfg.Inbound(), w.now + ms, u.outbox[id], u.traffic[id])
      {
        assert RowSpaced(cfg.Inbound(), w.now, u.outbox[id], u.traffic[id]);
      }
  }

  /** Two claims of an outbox row lie more than the threshold apart, unless it was released in between. */
  lemma OutboxClaimsApart(cfg: Config, now: Time, bound: In.Bindings, actions: seq<Action>, id: Id, i: nat)
    requires cfg.WellFormed() && Run(cfg, Start(now, bound), actions)
    requires var u := End(cfg, Start(now, bound), actions).inbound.u;
             id in u.outbox && id in u.traffic && i + 1 < |u.traffic[id].log|
    ensures var log := End(cfg, Start(now, bound), actions).inbound.u.traffic[id].log;
            log[i + 1].afterRelease || log[i].at + cfg.stuckThresholdMs < log[i + 1].at
  {
    InitialInv(cfg.Inbound(), bound);
    RunSpaced(cfg, Start(now, bound), actions);
    var w := End(cfg, Start(now, bound), actions);
    assert RowSpaced(cfg.Inbound(), w.now, w.inbound.u.outbox[id], w.inbound.u.traffic[id]);
  }

  /**
   No stranded outbox row: an unpublished row can be claimed, or is in a claim that the sweep takes back as soon as
   the threshold has passed and not before; then it can be claimed again.
   */
  lemma NoStrandedOutboxRow(cfg: Config, now: Time, bound: In.Bindings, actions: seq<Action>, id: Id)
    requires cfg.WellFormed() && Run(cfg, Start(now, bound), actions)
    requires var u := End(cfg, Start(now, bound), actions).inbound.u; id in u.outbox && u.outbox[id].publishedAt.None?
    ensures var w := End(cfg, Start(now, bound), actions);
            var sweep, claim := OfInbound(In.OfUsers(In.Sweep(id))), OfInbound(In.OfUsers(In.Claim(id)));
            var claimedAt := w.inbound.u.outbox[id].publishingStartedAt;
            && (claimedAt.None? ==> Enabled(cfg, w, claim))
            && (claimedAt.Some? ==> (Enabled(cfg, w, sweep) <==> claimedAt.value + cfg.stuckThresholdMs < w.now))
            && (Enabled(cfg, w, sweep) ==> Enabled(cfg, Next(cfg, w, sweep), claim))
  {
    EveryRun(cfg, now, bound, actions);
    var w := End(cfg, Start(now, bound), actions);
    MachineHolds(cfg, w);
    hide WorldInv, Run, End;
  }

  /** No POST for a user created through createUser before its notification was ingested and the delay has passed. */
  lemma NotBeforeTheDelay(cfg: Config, now: Time, bound: In.Bindings, actions: seq<Action>, id: Id)
    requires cfg.WellFormed() && Run(cfg, Start(now, bound), actions)
    requires id in End(cfg, Start(now, bound), actions).cells
    ensures var w := End(cfg, Start(now, bound), actions);
            exists j :: 0 <= j < |w.inbound.table.results| && Delays(cfg, w, id, j)
  {
    EveryRun(cfg, now, bound, actions);
    var w := End(cfg, Start(now, bound), actions);
    assert CellFits(cfg, w, id);
    var j :| ScheduledBy(cfg.Inbound(), w.inbound.table, id, j);
    assert Delays(cfg, w, id, j);
  }

  /** Ingest j stored the notification, and every POST for it is at least the configured delay later. */
  ghost predicate Delays(cfg: Config, w: World, id: Id, j: nat)
    requires id in w.cells && j < |w.inbound.table.results|
  {
    var first := w.inbound.table.results[j];
    && first.id == id && !first.deduped
    && w.cells[id].row.scheduledFor == first.at + cfg.catalog.userWelcomeDelayMs
    && forall k :: 0 <= k < |w.cells[id].posts| ==>
         first.at + cfg.catalog.userWelcomeDelayMs <= w.cells[id].posts[k].at
  }

  // ---------------------------------------------------------------- delivery, on every run

  /** No POST before its schedule, and any row that was ever claimed, redriven or retried by hand is due. */
  lemma NeverEarly(cfg: Config, now: Time, bound: In.Bindings, actions: seq<Action>, id: Id)
    requires cfg.WellFormed() && Run(cfg, Start(now, bound), actions)
    requires id in End(cfg, Start(now, bound), actions).cells
    ensures var w := End(cfg, Start(now, bound), actions);
            var c := w.cells[id];
            && (forall k :: 0 <= k < |c.posts| ==> c.row.scheduledFor <= c.posts[k].at <= w.now)
            && (c.row.status == PENDING && (c.row.redriveCount > 0 || c.tally.manualRetries > 0) ==>
                  D.Enabled(cfg.Delivery(), w.now, c, D.Claim))
  {
    EveryRun(cfg, now, bound, actions);
    assert CellFits(cfg, End(cfg, Start(now, bound), actions), id);
  }

  /** No retry before its time: a message that is under way has waited until its hop began. */
  lemma RetriesWait(cfg: Config, now: Time, bound: In.Bindings, actions: seq<Action>, id: Id, i: nat)
    requires cfg.WellFormed() && Run(cfg, Start(now, bound), actions)
    requires var w := End(cfg, Start(now, bound), actions); id in w.cells && i < |w.cells[id].stages|
    ensures var w := End(cfg, Start(now, bound), actions);
            var c := w.cells[id];
            i < |c.hops| && (c.stages[i] !in {D.Waiting, D.Gone} ==> c.hops[i] <= w.now)
  {
    EveryRun(cfg, now, bound, actions);
    assert CellFits(cfg, End(cfg, Start(now, bound), actions), id);
  }

  /** What each status means, on every run. */
  lemma StatusesMeanWhatTheySay(cfg: Config, now: Time, bound: In.Bindings, actions: seq<Action>, id: Id)
    requires cfg.WellFormed() && Run(cfg, Start(now, bound), actions)
    requires id in End(cfg, Start(now, bound), actions).cells
    ensures var c := End(cfg, Start(now, bound), actions).cells[id];
            var r := c.row;
            && r.redriveCount <= cfg.maxRedrives
            && (r.status in {PENDING, PROCESSING} ==> r.attempts < D.MaxAttempts(cfg.Delivery()))
            && (r.status == PENDING ==> r.processingStartedAt.None?)
            && (r.status == PROCESSING ==> r.processingStartedAt.Some?)
            && (r.status == FAILED ==> r.lastError.Some? && r.processingStartedAt.None?
                                       && (r.attempts >= D.MaxAttempts(cfg.Delivery())
                                           || r.redriveCount == cfg.maxRedrives))
            && (r.status == SENT ==> r.sentAt.Some? && PUSH_SENT in c.history
                                     && exists k :: 0 <= k < |c.posts| && c.posts[k].ok
                                         && c.posts[k].idempotencyKey == id)
  {
    var w := End(cfg, Start(now, bound), actions);
    EveryRun(cfg, now, bound, actions);
    assert CellFits(cfg, w, id);
    assert InsertedRow(cfg.Inbound(), w.inbound.u, w.inbound.table, id, w.inbound.table.inserted[id]);
    if w.cells[id].row.status == SENT {
      var k :| 0 <= k < |w.cells[id].posts| && w.cells[id].posts[k].ok;
      assert w.cells[id].posts[k].idempotencyKey == id;
    }
  }

  /** One dispatch per claim, and maxAttempts - 1 retries per manual-retry epoch. */
  function WorkLimit(maxAttempts: nat, redriveCount: nat, manualRetries: nat): int {
    (1 + redriveCount + manualRetries) + (maxAttempts - 1) * (1 + manualRetries)
  }

  lemma WorkOfCell(cfg: D.Config, now: Time, c: D.Cell)
    requires D.WellFormed(cfg) && CellInv(cfg, now, c)
    ensures c.tally.published <= WorkLimit(D.MaxAttempts(cfg), c.row.redriveCount, c.tally.manualRetries)
    ensures c.tally.claims <= 1 + c.row.redriveCount + c.tally.manualRetries <= 1 + cfg.maxRedrives
            + c.tally.manualRetries
  {
    EpochBudget(D.MaxAttempts(cfg), c.tally.manualRetries);
  }

  /** Work messages and claims are bounded by redrives and manual retries on every run. */
  lemma BoundedWork(cfg: Config, now: Time, bound: In.Bindings, actions: seq<Action>, id: Id)
    requires cfg.WellFormed() && Run(cfg, Start(now, bound), actions)
    requires id in End(cfg, Start(now, bound), actions).cells
    ensures var c := End(cfg, Start(now, bound), actions).cells[id];
            && c.tally.published <= WorkLimit(D.MaxAttempts(cfg.Delivery()), c.row.redriveCount, c.tally.manualRetries)
            && c.tally.claims <= 1 + c.row.redriveCount + c.tally.manualRetries <= 1 + cfg.maxRedrives
                + c.tally.manualRetries
  {
    hide WorkLimit, CellInv;
    EveryRun(cfg, now, bound, actions);
    assert CellFits(cfg, End(cfg, Start(now, bound), actions), id);
    WorkOfCell(cfg.Delivery(), End(cfg, Start(now, bound), actions).now,
               End(cfg, Start(now, bound), actions).cells[id]);
  }

  /** The history table against the transitions: the gap is exactly the second writes still due or lost. */
  lemma AuditTrail(cfg: Config, now: Time, bound: In.Bindings, actions: seq<Action>, id: Id)
    requires cfg.WellFormed() && Run(cfg, Start(now, bound), actions)
    requires id in End(cfg, Start(now, bound), actions).cells
    ensures var c := End(cfg, Start(now, bound), actions).cells[id];
            var log := multiset(c.history);
            && log[CREATED] == 1
            && log[PUSH_ATTEMPT] == c.row.attempts + c.tally.cleared
            && c.tally.claims - log[CLAIMED_BY_TICK] == multiset(c.stages)[D.Claimed] + multiset(c.stages)[D.Abandoned]
            && c.tally.sweeps - log[REDRIVEN_FROM_STUCK] == c.tally.sweepLogsDue + c.tally.sweepLogsLost
            && c.tally.manualRetries - log[MANUAL_RETRY] == c.tally.manualLogsDue + c.tally.manualLogsLost
  {
    EveryRun(cfg, now, bound, actions);
    assert CellFits(cfg, End(cfg, Start(now, bound), actions), id);
  }

  lemma OverdueIsSweepable(cfg: D.Config, now: Time, c: D.Cell)
    requires RowInv(c.row, D.MaxAttempts(cfg), cfg.maxRedrives) && c.row.status == PROCESSING
    ensures c.row.processingStartedAt.Some?
    ensures c.row.processingStartedAt.value + cfg.recoveryThresholdMs < now ==>
              (D.Enabled(cfg, now, c, D.SweepToPending) <==> !D.Enabled(cfg, now, c, D.SweepToFailed))
  {
  }

  /**
   No stranded row: once its threshold has passed, a PROCESSING row
   can be swept, into exactly one of the two outcomes.
   */
  lemma NoStrandedRow(cfg: Config, now: Time, bound: In.Bindings, actions: seq<Action>, id: Id)
    requires cfg.WellFormed() && Run(cfg, Start(now, bound), actions)
    requires id in End(cfg, Start(now, bound), actions).cells
    requires End(cfg, Start(now, bound), actions).cells[id].row.status == PROCESSING
    ensures var w := End(cfg, Start(now, bound), actions);
            var c := w.cells[id];
            && c.row.processingStartedAt.Some?
            && (c.row.processingStartedAt.value + cfg.recoveryThresholdMs < w.now ==>
                  (D.Enabled(cfg.Delivery(), w.now, c, D.SweepToPending)
                   <==> !D.Enabled(cfg.Delivery(), w.now, c, D.SweepToFailed)))
  {
    var w := End(cfg, Start(now, bound), actions);
    EveryRun(cfg, now, bound, actions);
    assert CellFits(cfg, w, id);
    OverdueIsSweepable(cfg.Delivery(), w.now, w.cells[id]);
  }

  // ---------------------------------------------------------------- single flight, on every timed run

  predicate TimelyStep(hop: nat, w: World, a: Action) {
    match a
    case Elapse(ms) => forall id :: id in w.cells ==> HopsHold(hop, w.now + ms, w.cells[id])
    case OfInbound(_) => true
    case OfDelivery(id, da) => id in w.cells ==> Timely(w.cells[id], da)
  }

  predicate TimelyRun(cfg: Config, hop: nat, w: World, actions: seq<Action>)
    requires Run(cfg, w, actions)
    decreases |actions|
  {
    actions == [] || (TimelyStep(hop, w, actions[0]) && TimelyRun(cfg, hop, Next(cfg, w, actions[0]), actions[1..]))
  }

  ghost predicate AllInFlight(cfg: Config, hop: nat, w: World) {
    forall id :: id in w.cells ==> Flight(cfg.Delivery(), hop, w.now, w.cells[id])
  }

  /** What single flight adds to one cell at one step. */
  ghost predicate FlightGoesOn(cfg: Config, hop: nat, w: World, n: World, id: Id) {
    && (id in n.cells ==> Flight(cfg.Delivery(), hop, n.now, n.cells[id]))
    && (id in w.cells ==> id in n.cells && (w.cells[id].row.status == SENT ==> n.cells[id].row == w.cells[id].row))
  }

  lemma FlightCellStep(cfg: Config, hop: nat, w: World, a: Action, id: Id)
    requires cfg.WellFormed() && Chain(cfg.Delivery(), hop) <= cfg.recoveryThresholdMs
    requires WorldInv(cfg, w) && Enabled(cfg, w, a) && WorldInv(cfg, Next(cfg, w, a))
    requires AllInFlight(cfg, hop, w) && TimelyStep(hop, w, a)
    ensures FlightGoesOn(cfg, hop, w, Next(cfg, w, a), id)
  {
    hide CellInv, Flight, In.Next, D.Next, WorldInv, Chain;
    var n := Next(cfg, w, a);
    match a
    case Elapse(ms) =>
      if id in w.cells { FlightWhileTimePasses(cfg.Delivery(), hop, w.now, n.now, w.cells[id]); }
    case OfDelivery(k, da) =>
      if id == k {
        FlightKept(cfg.Delivery(), hop, w.now, w.cells[id], da);
        TerminalStates(cfg.Delivery(), hop, w.now, w.cells[id], da);
      }
    case OfInbound(ia) => FlightAdopted(cfg, hop, w, ia, id);
  }

  lemma FlightAdopted(cfg: Config, hop: nat, w: World, ia: In.Action, id: Id)
    requires cfg.WellFormed() && WorldInv(cfg, w) && AllInFlight(cfg, hop, w)
    requires Enabled(cfg, w, OfInbound(ia)) && WorldInv(cfg, Next(cfg, w, OfInbound(ia)))
    ensures FlightGoesOn(cfg, hop, w, Next(cfg, w, OfInbound(ia)), id)
  {
    hide CellInv, Flight, In.Next, InboundInv;
    var n := Next(cfg, w, OfInbound(ia));
    if id in w.cells {
      InsertedForGood(cfg.Inbound(), w.now, w.inbound, ia, id);
    } else if id in n.cells {
      InsertedRows(cfg, n.inbound, id);
      FreshFlight(cfg.Delivery(), hop, n.now, n.inbound.table.inserted[id]);
    }
  }

  lemma FlightStep(cfg: Config, hop: nat, w: World, a: Action)
    requires cfg.WellFormed() && Chain(cfg.Delivery(), hop) <= cfg.recoveryThresholdMs
    requires WorldInv(cfg, w) && AllInFlight(cfg, hop, w) && Enabled(cfg, w, a) && TimelyStep(hop, w, a)
    ensures AllInFlight(cfg, hop, Next(cfg, w, a))
    ensures forall id :: id in w.cells ==> FlightGoesOn(cfg, hop, w, Next(cfg, w, a), id)
  {
    hide Flight, Next, WorldInv, CellInv;
    StepInv(cfg, w, a);
    var n := Next(cfg, w, a);
    forall id ensures FlightGoesOn(cfg, hop, w, n, id) {
      FlightCellStep(cfg, hop, w, a, id);
    }
    forall id | id in n.cells ensures Flight(cfg.Delivery(), hop, n.now, n.cells[id]) {
      assert FlightGoesOn(cfg, hop, w, n, id);
    }
  }

  lemma {:induction false} FlightRun(cfg: Config, hop: nat, w: World, actions: seq<Action>)
    requires cfg.WellFormed() && Chain(cfg.Delivery(), hop) <= cfg.recoveryThresholdMs
    requires WorldInv(cfg, w) && AllInFlight(cfg, hop, w) && Run(cfg, w, actions) && TimelyRun(cfg, hop, w, actions)
    ensures AllInFlight(cfg, hop, End(cfg, w, actions))
    ensures forall id :: id in w.cells && w.cells[id].row.status == SENT ==>
              id in End(cfg, w, actions).cells && End(cfg, w, actions).cells[id].row == w.cells[id].row
    decreases |actions|
  {
    hide Flight, Next, WorldInv, CellInv, Enabled, TimelyStep;
    if actions != [] {
      FlightStep(cfg, hop, w, actions[0]);
      StepInv(cfg, w, actions[0]);
      FlightRun(cfg, hop, Next(cfg, w, actions[0]), actions[1..]);
    }
  }

  /**
   Single flight for every notification on every timed run of the
   whole pipeline, with arbitrarily stale replica reads.
   */
  lemma SingleFlightEverywhere(cfg: Config, hop: nat, now: Time, bound: In.Bindings, before: seq<Action>,
                               after: seq<Action>)
    requires cfg.WellFormed() && Chain(cfg.Delivery(), hop) <= cfg.recoveryThresholdMs
    requires Run(cfg, Start(now, bound), before) && TimelyRun(cfg, hop, Start(now, bound), before)
    requires var w := End(cfg, Start(now, bound), before); Run(cfg, w, after) && TimelyRun(cfg, hop, w, after)
    ensures var w := End(cfg, Start(now, bound), before);
            forall id :: id in w.cells ==>
              var c := w.cells[id];
              && (forall i, j :: 0 <= i < |c.stages| && 0 <= j < |c.stages| ==>
                    Live(c.stages[i]) && Live(c.stages[j]) ==> i == j)
              && (forall i :: 0 <= i < |c.stages| && Live(c.stages[i]) ==> c.row.status == PROCESSING)
              && c.row.attempts <= D.MaxAttempts(cfg.Delivery())
              && (c.row.status == SENT ==> id in End(cfg, w, after).cells && End(cfg, w, after).cells[id].row == c.row)
  {
    var s := Start(now, bound);
    InitialInv(cfg.Inbound(), bound);
    FlightRun(cfg, hop, s, before);
    RunInv(cfg, s, before);
    var w := End(cfg, s, before);
    FlightRun(cfg, hop, w, after);
    forall id, i | id in w.cells && 0 <= i < |w.cells[id].stages| && Live(w.cells[id].stages[i])
      ensures w.cells[id].row.status == PROCESSING
    {
      assert InFlight(cfg.Delivery(), hop, w.now, w.cells[id], i);
    }
  }
}
