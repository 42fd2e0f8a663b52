/** A whole notifier tick, table, history and messages, is a run of the pipeline. */
module TickRefinement {
  import opened Common
  import opened Notifications
  import opened Selection
  import opened NotificationStore
  import opened StateMachine
  import opened Consumers
  import opened Pipeline
  import opened Refinement
  import D = Delivery

  // ---------------------------------------------------------------- the history table, row by row

  /** The events the history table holds for one notification, in order. */
  function HistoryOf(history: seq<HistoryEntry>, id: Id): seq<EventType> {
    if history == [] then []
    else
      var last := history[|history| - 1];
      HistoryOf(history[..|history| - 1], id) + (if last.notificationId == id then [last.eventType] else [])
  }

  lemma {:induction false} HistoryAppends(a: seq<HistoryEntry>, b: seq<HistoryEntry>, id: Id)
    ensures HistoryOf(a + b, id) == HistoryOf(a, id) + HistoryOf(b, id)
    decreases |b|
  {
    if b == [] {
      assert a + b == a;
    } else {
      var init := b[..|b| - 1];
      HistoryAppends(a, init, id);
      assert (a + b)[..|a + b| - 1] == a + init;
    }
  }

  /** The entries report one event, once for each of some ids. */
  predicate OneEach(entries: seq<HistoryEntry>, ids: seq<Id>, event: EventType) {
    && |entries| == |ids|
    && forall i :: 0 <= i < |ids| ==> entries[i].notificationId == ids[i] && entries[i].eventType == event
  }

  lemma {:induction false} HistoryOfEach(entries: seq<HistoryEntry>, ids: seq<Id>, event: EventType, id: Id)
    requires OneEach(entries, ids, event) && Distinct(ids)
    ensures HistoryOf(entries, id) == if id in ids then [event] else []
    decreases |ids|
  {
    if ids != [] {
      var n := |ids| - 1;
      HistoryOfEach(entries[..n], ids[..n], event, id);
      assert ids == ids[..n] + [ids[n]];
      assert ids[n] !in ids[..n];
    }
  }

  function IdsOf(swept: seq<Swept>): (ids: seq<Id>)
    ensures |ids| == |swept|
  {
    seq(|swept|, i requires 0 <= i < |swept| => swept[i].id)
  }

  /** As many entries as ids means no id twice. */
  lemma {:induction false} CountedOnce(ids: seq<Id>)
    requires |Members(ids)| == |ids|
    ensures Distinct(ids)
    decreases |ids|
  {
    if ids != [] {
      var init, last := ids[..|ids| - 1], ids[|ids| - 1];
      assert ids == init + [last];
      assert Members(ids) == Members(init) + {last};
      AtMost(init);
      assert last !in Members(init);
      CountedOnce(init);
    }
  }

  lemma {:induction false} AtMost(ids: seq<Id>)
    ensures |Members(ids)| <= |ids|
    decreases |ids|
  {
    if ids != [] {
      var init, last := ids[..|ids| - 1], ids[|ids| - 1];
      AtMost(init);
      assert ids == init + [last];
      assert Members(ids) == Members(init) + {last};
    }
  }

  lemma ReportedOnce(swept: seq<Swept>, ids: set<Id>, rows: map<Id, Row>)
    requires Reports(swept, ids, rows)
    ensures Distinct(IdsOf(swept)) && Members(IdsOf(swept)) == ids
  {
    forall id ensures id in Members(IdsOf(swept)) <==> id in ids {
      if id in ids {
        var s :| s in swept && s.id == id;
        var i :| 0 <= i < |swept| && swept[i] == s;
        assert IdsOf(swept)[i] == id;
      }
      if id in IdsOf(swept) {
        var i :| 0 <= i < |swept| && IdsOf(swept)[i] == id;
        assert swept[i] in swept;
      }
    }
    assert Members(IdsOf(swept)) == ids;
    CountedOnce(IdsOf(swept));
  }

  /** What a tick adds to the history of one notification. */
  function TickEvents(id: Id, swept: set<Id>, claimed: set<Id>): seq<EventType> {
    (if id in swept then [REDRIVEN_FROM_STUCK] else []) + (if id in claimed then [CLAIMED_BY_TICK] else [])
  }

  lemma SweepHistory(before: seq<HistoryEntry>, after: seq<HistoryEntry>, capped: set<Id>, redriven: set<Id>,
                     rows: map<Id, Row>, id: Id)
    requires SweepLogged(before, after, capped, redriven, rows) && capped !! redriven
    ensures HistoryOf(after, id) == HistoryOf(before, id) + TickEvents(id, capped + redriven, {})
  {
    var f: seq<Swept>, r: seq<Swept> :|
      Reports(f, capped, rows) && Reports(r, redriven, rows)
          && after == before + (CappedEntries(f) + RedrivenEntries(r));
    ReportedOnce(f, capped, rows);
    ReportedOnce(r, redriven, rows);
    HistoryOfEach(CappedEntries(f), IdsOf(f), REDRIVEN_FROM_STUCK, id);
    HistoryOfEach(RedrivenEntries(r), IdsOf(r), REDRIVEN_FROM_STUCK, id);
    HistoryAppends(CappedEntries(f), RedrivenEntries(r), id);
    HistoryAppends(before, CappedEntries(f) + RedrivenEntries(r), id);
    assert id in IdsOf(f) <==> id in Members(IdsOf(f));
    assert id in IdsOf(r) <==> id in Members(IdsOf(r));
  }

  lemma TickHistory(before: seq<HistoryEntry>, after: seq<HistoryEntry>, capped: set<Id>, redriven: set<Id>,
                    rows: map<Id, Row>, claimed: seq<Id>, id: Id)
    requires TickLogged(before, after, capped, redriven, rows, claimed) && capped !! redriven && Distinct(claimed)
    ensures HistoryOf(after, id) == HistoryOf(before, id) + TickEvents(id, capped + redriven, Members(claimed))
  {
    hide HistoryOf, SweepLogged, Distinct;
    var mid :| SweepLogged(before, mid, capped, redriven, rows) && after == mid + Entries(claimed, CLAIMED_BY_TICK);
    SweepHistory(before, mid, capped, redriven, rows, id);
    ClaimHistory(claimed, id);
    HistoryAppends(mid, Entries(claimed, CLAIMED_BY_TICK), id);
    assert HistoryOf(after, id)
           == HistoryOf(before, id) + (TickEvents(id, capped + redriven, {}) + TickEvents(id, {}, Members(claimed)));
  }

  lemma ClaimHistory(claimed: seq<Id>, id: Id)
    requires Distinct(claimed)
    ensures HistoryOf(Entries(claimed, CLAIMED_BY_TICK), id) == TickEvents(id, {}, Members(claimed))
  {
    HistoryOfEach(Entries(claimed, CLAIMED_BY_TICK), claimed, CLAIMED_BY_TICK, id);
  }

  // ---------------------------------------------------------------- what a run adds to one cell

  datatype Delta = Delta(due: int, published: int, logs: seq<EventType>, slots: seq<D.Stage>)

  const NOTHING := Delta(0, 0, [], [])

  predicate Shows(c0: D.Cell, c: D.Cell, d: Delta) {
    && c.history == c0.history + d.logs
    && c.stages == c0.stages + d.slots
    && c.tally.sweepLogsDue == c0.tally.sweepLogsDue + d.due
    && c.tally.published == c0.tally.published + d.published
  }

  ghost predicate AllShow(w: World, e: World, g: Id -> Delta) {
    e.cells.Keys == w.cells.Keys && forall id :: id in w.cells ==> Shows(w.cells[id], e.cells[id], g(id))
  }

  /** The tick's actions on a cell; those on a message are on the one its claim added. */
  predicate Fits(c0: D.Cell, d: Delta, a: D.Action) {
    match a
    case SweepToFailed => true
    case SweepToPending => true
    case LogSweep => true
    case Claim => d.slots == []
    case LogClaim(i) => i == |c0.stages| && d.slots == [D.Claimed]
    case Dispatch(i) => i == |c0.stages| && d.slots == [D.Dispatching]
    case TickDies(i) => i == |c0.stages| && d.slots == [D.Dispatching]
    case _ => false
  }

  function Plus(d: Delta, a: D.Action): Delta {
    match a
    case SweepToFailed => d.(due := d.due + 1)
    case SweepToPending => d.(due := d.due + 1)
    case LogSweep => d.(due := d.due - 1, logs := d.logs + [REDRIVEN_FROM_STUCK])
    case Claim => d.(slots := [D.Claimed])
    case LogClaim(_) => d.(logs := d.logs + [CLAIMED_BY_TICK], slots := [D.Dispatching])
    case Dispatch(_) => d.(published := d.published + 1, slots := [D.Ready])
    case TickDies(_) => d.(slots := [D.Gone])
    case _ => d
  }

  lemma OneStepShows(cfg: D.Config, now: Time, c0: D.Cell, c: D.Cell, d: Delta, a: D.Action)
    requires Shows(c0, c, d) && Fits(c0, d, a) && D.Enabled(cfg, now, c, a)
    ensures Shows(c0, D.Next(cfg, now, c, a), Plus(d, a))
  {
  }

  function PlusOn(g: Id -> Delta, ids: set<Id>, f: Id -> D.Action): Id -> Delta {
    (id: Id) => if id in ids then Plus(g(id), f(id)) else g(id)
  }

  lemma BatchShows(cfg: Config, w: World, e: World, g: Id -> Delta, ids: set<Id>, f: Id -> D.Action, n: World)
    requires AllShow(w, e, g) && SteppedOn(cfg, e, ids, f, n)
    requires forall id :: id in ids && id in w.cells ==> Fits(w.cells[id], g(id), f(id))
    ensures AllShow(w, n, PlusOn(g, ids, f))
  {
    forall id | id in w.cells ensures Shows(w.cells[id], n.cells[id], PlusOn(g, ids, f)(id)) {
      hide D.Next, D.Enabled;
      if id in ids { OneStepShows(cfg.Delivery(), e.now, w.cells[id], e.cells[id], g(id), f(id)); }
    }
  }

  /** The steps that write history or publish leave every row alone. */
  lemma RowsKept(cfg: Config, w: World, e: World, g: Id -> Delta, ids: set<Id>, f: Id -> D.Action, n: World)
    requires AllShow(w, e, g) && SteppedOn(cfg, e, ids, f, n)
    requires forall id :: id in ids ==> f(id).LogSweep? || f(id).LogClaim? || f(id).Dispatch? || f(id).TickDies?
    ensures RowsOf(n) == RowsOf(e)
  {
    forall id | id in e.cells ensures n.cells[id].row == e.cells[id].row {
      if id in ids { OneRowKept(cfg.Delivery(), e.now, e.cells[id], f(id)); }
    }
  }

  lemma OneRowKept(cfg: D.Config, now: Time, c: D.Cell, a: D.Action)
    requires D.Enabled(cfg, now, c, a) && (a.LogSweep? || a.LogClaim? || a.Dispatch? || a.TickDies?)
    ensures D.Next(cfg, now, c, a).row == c.row
  {
  }

  /** A batch of history writes or publishes: enabled because of what the earlier steps left. */
  lemma Phase(cfg: Config, w: World, e: World, g: Id -> Delta, ids: seq<Id>, f: Id -> D.Action)
      returns (actions: seq<Action>, n: World)
    requires AllShow(w, e, g) && Distinct(ids) && forall id :: id in ids ==> id in w.cells
    requires forall id :: id in ids ==> f(id).LogSweep? || f(id).LogClaim? || f(id).Dispatch? || f(id).TickDies?
    requires forall id :: id in ids ==> Fits(w.cells[id], g(id), f(id)) && (f(id).LogSweep? ==> g(id).due > 0)
    ensures Run(cfg, e, actions) && n == End(cfg, e, actions) && n.now == e.now
    ensures RowsOf(n) == RowsOf(e) && AllShow(w, n, PlusOn(g, Members(ids), f))
  {
    hide Run, End;
    forall id | id in ids ensures CanStep(cfg, e, id, f(id)) {
      assert Shows(w.cells[id], e.cells[id], g(id));
    }
    hide CanStep, D.Enabled, D.Next, Fits, Shows;
    BatchIsRun(cfg, e, ids, f);
    actions := Each(ids, f);
    n := End(cfg, e, actions);
    BatchShows(cfg, w, e, g, Members(ids), f, n);
    RowsKept(cfg, w, e, g, Members(ids), f, n);
  }

  // ---------------------------------------------------------------- the sweep of a tick

  function SweepDelta(swept: set<Id>): Id -> Delta {
    id => if id in swept then Delta(0, 0, [REDRIVEN_FROM_STUCK], []) else NOTHING
  }

  lemma Later(cfg: Config, w: World, ms: nat) returns (e: World)
    ensures Run(cfg, w, [Elapse(ms)]) && e == End(cfg, w, [Elapse(ms)])
    ensures e.now == w.now + ms && e.cells == w.cells && RowsOf(e) == RowsOf(w)
  {
    e := w.(now := w.now + ms);
    Waiting(cfg, w, ms);
    SameRows(w, e);
  }

  lemma StillShows(w: World, e: World, n: World, g: Id -> Delta, h: Id -> Delta)
    requires AllShow(w, e, g) && n.cells == e.cells && forall id :: h(id) == g(id)
    ensures AllShow(w, n, h)
  {
  }

  lemma SweepStatements(cfg: Config, w: World, redriveAt: Time, capped: seq<Id>, redriven: seq<Id>)
      returns (actions: seq<Action>, e: World, g: Id -> Delta)
    requires w.now <= redriveAt
    requires Distinct(capped) && Members(capped) == PastCap(RowsOf(w), w.now, cfg.recoveryThresholdMs, cfg.maxRedrives)
    requires var after := FailAll(RowsOf(w), Members(capped));
             && Distinct(redriven)
             && Members(redriven) == UnderCap(after, redriveAt, cfg.recoveryThresholdMs, cfg.maxRedrives)
    ensures Run(cfg, w, actions) && e == End(cfg, w, actions) && e.now == redriveAt
    ensures RowsOf(e) == RedriveAll(FailAll(RowsOf(w), Members(capped)), Members(redriven), redriveAt)
    ensures AllShow(w, e, g) && forall id :: g(id) == SweptDelta(id, Members(capped), Members(redriven))
  {
    hide Run, End, RowsOf, PastCap, UnderCap, FailAll, RedriveAll, Members, Distinct, Shows;
    CapStatementIsRun(cfg, w, capped);
    var cap, redrive := Each(capped, Same(D.SweepToFailed)), Each(redriven, Same(D.SweepToPending));
    var w1 := End(cfg, w, cap);
    var w2 := Later(cfg, w1, redriveAt - w.now);
    RedriveStatementIsRun(cfg, w2, redriven);
    e := End(cfg, w2, redrive);
    RunsConcat(cfg, w, cap, [Elapse(redriveAt - w.now)]);
    RunsConcat(cfg, w, cap + [Elapse(redriveAt - w.now)], redrive);
    actions := cap + [Elapse(redriveAt - w.now)] + redrive;
    var g0 := (id: Id) => NOTHING;
    ShowsNothing(w);
    BatchShows(cfg, w, w, g0, Members(capped), Same(D.SweepToFailed), w1);
    var g1 := PlusOn(g0, Members(capped), Same(D.SweepToFailed));
    StillShows(w, w1, w2, g1, g1);
    BatchShows(cfg, w, w2, g1, Members(redriven), Same(D.SweepToPending), e);
    g := PlusOn(g1, Members(redriven), Same(D.SweepToPending));
  }

  /** A swept row owes one history entry per statement that took it. */
  function SweptDelta(id: Id, capped: set<Id>, redriven: set<Id>): Delta {
    NOTHING.(due := (if id in capped then 1 else 0) + (if id in redriven then 1 else 0))
  }

  lemma ShowsNothing(w: World)
    ensures AllShow(w, w, (id: Id) => NOTHING)
  {
  }

  /** A row the first statement failed is not stuck any more, so no row is swept twice. */
  lemma SweptOnce(rows: map<Id, Row>, now: Time, later: Time, thresholdMs: int, maxRedrives: nat)
    ensures var capped := PastCap(rows, now, thresholdMs, maxRedrives);
            capped !! UnderCap(FailAll(rows, capped), later, thresholdMs, maxRedrives)
  {
  }

  lemma SweptTwice(g: Id -> Delta, a: set<Id>, b: set<Id>)
    requires a !! b && forall id :: g(id) == SweptDelta(id, a, b)
    ensures var log := Same(D.LogSweep);
            forall id :: PlusOn(PlusOn(g, a, log), b, log)(id) == SweepDelta(a + b)(id)
  {
  }

  lemma KnownIds(w: World, ids: seq<Id>)
    requires Members(ids) <= RowsOf(w).Keys
    ensures forall id :: id in ids ==> id in w.cells
  {
    forall id | id in ids ensures id in w.cells {
      assert id in Members(ids);
    }
  }

  lemma SweepIsRun(cfg: Config, w: World, redriveAt: Time, capped: seq<Id>, redriven: seq<Id>)
      returns (actions: seq<Action>, e: World)
    requires w.now <= redriveAt
    requires Distinct(capped) && Members(capped) == PastCap(RowsOf(w), w.now, cfg.recoveryThresholdMs, cfg.maxRedrives)
    requires var after := FailAll(RowsOf(w), Members(capped));
             && Distinct(redriven)
             && Members(redriven) == UnderCap(after, redriveAt, cfg.recoveryThresholdMs, cfg.maxRedrives)
    ensures Run(cfg, w, actions) && e == End(cfg, w, actions) && e.now == redriveAt
    ensures RowsOf(e) == RedriveAll(FailAll(RowsOf(w), Members(capped)), Members(redriven), redriveAt)
    ensures AllShow(w, e, SweepDelta(Members(capped) + Members(redriven)))
  {
    hide *;
    SweepFacts(cfg, w, redriveAt, capped, redriven);
    var statements, e1, g1 := SweepStatements(cfg, w, redriveAt, capped, redriven);
    var logs;
    logs, e := LogSweeps(cfg, w, e1, g1, capped, redriven);
    RunsConcat(cfg, w, statements, logs);
    actions := statements + logs;
  }

  lemma SweepFacts(cfg: Config, w: World, redriveAt: Time, capped: seq<Id>, redriven: seq<Id>)
    requires Members(capped) == PastCap(RowsOf(w), w.now, cfg.recoveryThresholdMs, cfg.maxRedrives)
    requires var after := FailAll(RowsOf(w), Members(capped));
             Members(redriven) == UnderCap(after, redriveAt, cfg.recoveryThresholdMs, cfg.maxRedrives)
    ensures Members(capped) !! Members(redriven)
    ensures (forall id :: id in capped ==> id in w.cells) && (forall id :: id in redriven ==> id in w.cells)
  {
    SweptOnce(RowsOf(w), w.now, redriveAt, cfg.recoveryThresholdMs, cfg.maxRedrives);
    assert Members(capped) <= RowsOf(w).Keys && Members(redriven) <= RowsOf(w).Keys;
    KnownIds(w, capped);
    KnownIds(w, redriven);
  }

  /** The two groups of history entries a sweep owes. */
  lemma LogSweeps(cfg: Config, w: World, e1: World, g1: Id -> Delta, capped: seq<Id>, redriven: seq<Id>)
      returns (actions: seq<Action>, e: World)
    requires AllShow(w, e1, g1) && forall id :: g1(id) == SweptDelta(id, Members(capped), Members(redriven))
    requires Distinct(capped) && Distinct(redriven) && Members(capped) !! Members(redriven)
    requires (forall id :: id in capped ==> id in w.cells) && (forall id :: id in redriven ==> id in w.cells)
    ensures Run(cfg, e1, actions) && e == End(cfg, e1, actions) && e.now == e1.now && RowsOf(e) == RowsOf(e1)
    ensures AllShow(w, e, SweepDelta(Members(capped) + Members(redriven)))
  {
    hide Run, End, RowsOf, Distinct, AllShow;
    var a, b := Members(capped), Members(redriven);
    var log := Same(D.LogSweep);
    assert forall id :: id in capped ==> id in a && g1(id).due > 0;
    var first, e2 := Phase(cfg, w, e1, g1, capped, log);
    var g2 := PlusOn(g1, a, log);
    assert forall id :: id in redriven ==> id in b && id !in a && g2(id).due > 0;
    var second;
    second, e := Phase(cfg, w, e2, g2, redriven, log);
    SweptTwice(g1, a, b);
    StillShows(w, e, e, PlusOn(g2, b, log), SweepDelta(a + b));
    RunsConcat(cfg, e1, first, second);
    actions := first + second;
  }

  // ---------------------------------------------------------------- the claim and the dispatch

  /** A claimed row has its history entry and its message, under way or refused by the broker. */
  function ClaimDelta(claimed: set<Id>, accepted: set<Id>): Id -> Delta {
    id =>
      if id !in claimed then NOTHING
      else if id in accepted then Delta(0, 1, [CLAIMED_BY_TICK], [D.Ready])
      else Delta(0, 0, [CLAIMED_BY_TICK], [D.Gone])
  }

  function LogClaims(w: World): Id -> D.Action {
    id => D.LogClaim(if id in w.cells then |w.cells[id].stages| else 0)
  }

  function Sends(w: World, accepted: set<Id>): Id -> D.Action {
    id =>
      var i := if id in w.cells then |w.cells[id].stages| else 0;
      if id in accepted then D.Dispatch(i) else D.TickDies(i)
  }

  lemma ClaimIsRun(cfg: Config, w: World, locked: set<Id>, batch: nat, claimed: seq<Id>, accepted: set<Id>)
      returns (actions: seq<Action>, e: World)
    requires Earliest(DueAt(RowsOf(w), w.now, locked), batch, claimed)
    ensures Run(cfg, w, actions) && e == End(cfg, w, actions) && e.now == w.now
    ensures RowsOf(e) == ClaimAll(RowsOf(w), Members(claimed), w.now)
    ensures AllShow(w, e, ClaimDelta(Members(claimed), accepted))
  {
    hide Run, End, RowsOf, DueAt, Earliest, ClaimAll, Distinct, AllShow, Members, Plus;
    Claimable(w, locked, batch, claimed);
    ClaimStatementIsRun(cfg, w, locked, batch, claimed);
    var claim := Each(claimed, Same(D.Claim));
    var e1 := End(cfg, w, claim);
    ShowsNothing(w);
    BatchShows(cfg, w, w, (id: Id) => NOTHING, Members(claimed), Same(D.Claim), e1);
    var rest;
    rest, e := LogAndSend(cfg, w, e1, claimed, accepted);
    RunsConcat(cfg, w, claim, rest);
    actions := claim + rest;
  }

  /** The second write of a claim, then the publishes. */
  lemma LogAndSend(cfg: Config, w: World, e1: World, claimed: seq<Id>, accepted: set<Id>)
      returns (actions: seq<Action>, e: World)
    requires AllShow(w, e1, PlusOn((id: Id) => NOTHING, Members(claimed), Same(D.Claim)))
    requires Distinct(claimed) && forall id :: id in claimed ==> id in w.cells
    ensures Run(cfg, e1, actions) && e == End(cfg, e1, actions) && e.now == e1.now && RowsOf(e) == RowsOf(e1)
    ensures AllShow(w, e, ClaimDelta(Members(claimed), accepted))
  {
    hide Run, End, RowsOf, Distinct, AllShow;
    var a := Members(claimed);
    var g1 := PlusOn((id: Id) => NOTHING, a, Same(D.Claim));
    assert forall id :: id in claimed ==> id in a && g1(id).slots == [D.Claimed];
    var log, e2 := Phase(cfg, w, e1, g1, claimed, LogClaims(w));
    var g2 := PlusOn(g1, a, LogClaims(w));
    assert forall id :: id in claimed ==> id in a && g2(id).slots == [D.Dispatching];
    var send;
    send, e := Phase(cfg, w, e2, g2, claimed, Sends(w, accepted));
    ClaimedOnce(w, a, accepted);
    StillShows(w, e, e, PlusOn(g2, a, Sends(w, accepted)), ClaimDelta(a, accepted));
    RunsConcat(cfg, e1, log, send);
    actions := log + send;
  }

  lemma ClaimedOnce(w: World, claimed: set<Id>, accepted: set<Id>)
    ensures var g1 := PlusOn((id: Id) => NOTHING, claimed, Same(D.Claim));
            var g2 := PlusOn(g1, claimed, LogClaims(w));
            forall id :: PlusOn(g2, claimed, Sends(w, accepted))(id) == ClaimDelta(claimed, accepted)(id)
  {
  }

  lemma Claimable(w: World, locked: set<Id>, batch: nat, claimed: seq<Id>)
    requires Earliest(DueAt(RowsOf(w), w.now, locked), batch, claimed)
    ensures Distinct(claimed) && forall id :: id in claimed ==> id in w.cells
  {
    forall id | id in claimed ensures id in w.cells {
      var i :| 0 <= i < |claimed| && claimed[i] == id;
      assert claimed[i] in DueAt(RowsOf(w), w.now, locked);
    }
  }

  // ---------------------------------------------------------------- the whole tick

  /** The history table holds what the cells hold. */
  ghost predicate Recorded(w: World, history: seq<HistoryEntry>) {
    forall id :: id in w.cells ==> w.cells[id].history == HistoryOf(history, id)
  }

  /** The message of a claimed row is ready if the broker took it and gone if it refused; other rows get none. */
  predicate SentOne(c: D.Cell, d: D.Cell, claimed: bool, accepted: bool) {
    && d.stages == c.stages + (if !claimed then [] else if accepted then [D.Ready] else [D.Gone])
    && d.tally.published == c.tally.published + (if claimed && accepted then 1 else 0)
    && d.tally.sweepLogsDue == c.tally.sweepLogsDue
  }

  ghost predicate Sent(w: World, e: World, claimed: set<Id>, accepted: set<Id>) {
    && e.cells.Keys == w.cells.Keys
    && forall id :: id in w.cells ==> SentOne(w.cells[id], e.cells[id], id in claimed, id in accepted)
  }

  lemma BothShow(w: World, mid: World, e: World, swept: set<Id>, claimed: set<Id>, accepted: set<Id>)
    requires AllShow(w, mid, SweepDelta(swept)) && AllShow(mid, e, ClaimDelta(claimed, accepted))
    ensures Sent(w, e, claimed, accepted)
    ensures forall id :: id in w.cells ==>
              id in e.cells && e.cells[id].history == w.cells[id].history + TickEvents(id, swept, claimed)
  {
    forall id | id in w.cells
      ensures e.cells[id].history == w.cells[id].history + TickEvents(id, swept, claimed)
      ensures SentOne(w.cells[id], e.cells[id], id in claimed, id in accepted)
    {
      var d1, d2 := SweepDelta(swept)(id), ClaimDelta(claimed, accepted)(id);
      assert Shows(w.cells[id], mid.cells[id], d1) && Shows(mid.cells[id], e.cells[id], d2);
      assert TickEvents(id, swept, claimed) == d1.logs + d2.logs;
      hide SweepDelta, ClaimDelta;
      assert e.cells[id].history == w.cells[id].history + (d1.logs + d2.logs);
    }
  }

  /**
   What the handler of a tick ensures of the table, the history and the published messages is what a run of
   the pipeline does: three statements at three readings of the clock, and the second writes they owe.
   */
  lemma TickIsRun(cfg: Config, w: World, redriveAt: Time, claimAt: Time, locked: set<Id>, rejected: set<Id>, batch: nat,
                  capped: seq<Id>, redriven: seq<Id>, claimed: seq<Id>, order: seq<Id>,
                  before: seq<HistoryEntry>, after: seq<HistoryEntry>)
      returns (actions: seq<Action>)
    requires w.now <= redriveAt <= claimAt
    requires Distinct(capped) && Members(capped) == PastCap(RowsOf(w), w.now, cfg.recoveryThresholdMs, cfg.maxRedrives)
    requires var failed := FailAll(RowsOf(w), Members(capped));
             && Distinct(redriven)
             && Members(redriven) == UnderCap(failed, redriveAt, cfg.recoveryThresholdMs, cfg.maxRedrives)
    requires var swept := RedriveAll(FailAll(RowsOf(w), Members(capped)), Members(redriven), redriveAt);
             && Earliest(DueAt(swept, claimAt, locked), batch, claimed) && Reordered(claimed, order)
             && TickLogged(before, after, Members(capped), Members(redriven), swept, claimed)
    requires Recorded(w, before)
    ensures Run(cfg, w, actions)
    ensures var e := End(cfg, w, actions);
            && e.now == claimAt
            && RowsOf(e) == ClaimAll(RedriveAll(FailAll(RowsOf(w), Members(capped)), Members(redriven), redriveAt),
                                     Members(claimed), claimAt)
            && Recorded(e, after)
            && Sent(w, e, Members(claimed), Members(Accepted(order, rejected)))
  {
    hide *;
    var a, b, c := Members(capped), Members(redriven), Members(claimed);
    var accepted := Members(Accepted(order, rejected));
    var sweep, e1 := SweepIsRun(cfg, w, redriveAt, capped, redriven);
    var e2 := Later(cfg, e1, claimAt - redriveAt);
    StillShows(w, e1, e2, SweepDelta(a + b), SweepDelta(a + b));
    var claim, e := ClaimIsRun(cfg, e2, locked, batch, claimed, accepted);
    RunsConcat(cfg, w, sweep, [Elapse(claimAt - redriveAt)]);
    RunsConcat(cfg, w, sweep + [Elapse(claimAt - redriveAt)], claim);
    actions := sweep + [Elapse(claimAt - redriveAt)] + claim;
    BothShow(w, e2, e, a + b, c, accepted);
    SweepFacts(cfg, w, redriveAt, capped, redriven);
    var swept := RedriveAll(FailAll(RowsOf(w), a), b, redriveAt);
    assert Distinct(claimed) by { Claimable(e2, locked, batch, claimed); }
    StaysRecorded(w, e, before, after, a, b, swept, claimed, accepted);
  }

  lemma StaysRecorded(w: World, e: World, before: seq<HistoryEntry>, after: seq<HistoryEntry>, capped: set<Id>,
                      redriven: set<Id>,
                      rows: map<Id, Row>, claimed: seq<Id>, accepted: set<Id>)
    requires Recorded(w, before) && TickLogged(before, after, capped, redriven, rows, claimed)
    requires capped !! redriven && Distinct(claimed) && Sent(w, e, Members(claimed), accepted)
    requires forall id :: id in w.cells ==>
               id in e.cells && e.cells[id].history == w.cells[id].history
                   + TickEvents(id, capped + redriven, Members(claimed))
    ensures Recorded(e, after)
  {
    hide TickLogged, Distinct, HistoryOf, TickEvents;
    forall id | id in e.cells ensures e.cells[id].history == HistoryOf(after, id) {
      TickHistory(before, after, capped, redriven, rows, claimed, id);
    }
  }
}
