/**
 The repository's statements and the handlers, as runs of the
 pipeline: what the methods do is what the theorems are about.
 */
module Refinement {
  import opened Common
  import opened TypeCatalog
  import opened Notifications
  import opened OutboxRows
  import opened Selection
  import opened NotificationStore
  import opened Pipeline
  import In = Inbound
  import D = Delivery
  import opened InboundInvariants
  import opened DeliveryInvariants

  /** The notifications table a world holds. */
  function RowsOf(w: World): map<Id, Row> {
    map id | id in w.cells :: w.cells[id].row
  }

  /** One action on each of some notifications. */
  function Each(ids: seq<Id>, f: Id -> D.Action): seq<Action> {
    if ids == [] then [] else [OfDelivery(ids[0], f(ids[0]))] + Each(ids[1..], f)
  }

  function Same(da: D.Action): Id -> D.Action {
    id => da
  }

  predicate CanStep(cfg: Config, w: World, id: Id, da: D.Action) {
    id in w.cells && D.Enabled(cfg.Delivery(), w.now, w.cells[id], da)
  }

  /** The world after that. */
  ghost predicate SteppedOn(cfg: Config, w: World, ids: set<Id>, f: Id -> D.Action, e: World) {
    && e.now == w.now && e.inbound == w.inbound && e.cells.Keys == w.cells.Keys
    && forall id :: id in w.cells ==>
         && (id in ids ==>
               CanStep(cfg, w, id, f(id)) && e.cells[id] == D.Next(cfg.Delivery(), w.now, w.cells[id], f(id)))
         && (id !in ids ==> e.cells[id] == w.cells[id])
  }

  /** Steps on different notifications do not disturb each other, so a set-wise statement is a run of single steps. */
  lemma {:induction false} BatchIsRun(cfg: Config, w: World, ids: seq<Id>, f: Id -> D.Action)
    requires Distinct(ids) && forall id :: id in ids ==> CanStep(cfg, w, id, f(id))
    ensures Run(cfg, w, Each(ids, f)) && SteppedOn(cfg, w, Members(ids), f, End(cfg, w, Each(ids, f)))
    decreases |ids|
  {
    hide D.Next, D.Enabled;
    if ids != [] {
      var a := OfDelivery(ids[0], f(ids[0]));
      assert ids[0] in ids;
      var n := Next(cfg, w, a);
      Rest(ids);
      BatchIsRun(cfg, n, ids[1..], f);
      assert ([a] + Each(ids[1..], f))[1..] == Each(ids[1..], f);
    }
  }

  lemma Rest(ids: seq<Id>)
    requires Distinct(ids) && ids != []
    ensures Distinct(ids[1..]) && Members(ids) == Members(ids[1..]) + {ids[0]} && ids[0] !in Members(ids[1..])
    ensures forall id :: id in ids[1..] ==> id in ids && id != ids[0]
  {
    assert ids == [ids[0]] + ids[1..];
  }

  lemma OneAction(cfg: Config, w: World, a: Action)
    requires Enabled(cfg, w, a)
    ensures Run(cfg, w, [a]) && End(cfg, w, [a]) == Next(cfg, w, a)
  {
    assert [a][1..] == [];
  }

  /** One more action at the end of a run. */
  lemma Then(cfg: Config, w: World, actions: seq<Action>, a: Action)
    requires Run(cfg, w, actions) && Enabled(cfg, End(cfg, w, actions), a)
    ensures Run(cfg, w, actions + [a]) && End(cfg, w, actions + [a]) == Next(cfg, End(cfg, w, actions), a)
  {
    OneAction(cfg, End(cfg, w, actions), a);
    RunsConcat(cfg, w, actions, [a]);
  }

  lemma {:induction false} RunsConcat(cfg: Config, w: World, xs: seq<Action>, ys: seq<Action>)
    requires Run(cfg, w, xs) && Run(cfg, End(cfg, w, xs), ys)
    ensures Run(cfg, w, xs + ys) && End(cfg, w, xs + ys) == End(cfg, End(cfg, w, xs), ys)
    decreases |xs|
  {
    if xs == [] {
      assert xs + ys == ys;
    } else {
      RunsConcat(cfg, Next(cfg, w, xs[0]), xs[1..], ys);
      assert (xs + ys)[1..] == xs[1..] + ys;
    }
  }

  lemma CanClaim(cfg: Config, w: World, locked: set<Id>, batch: nat, ids: seq<Id>)
    requires Earliest(DueAt(RowsOf(w), w.now, locked), batch, ids)
    ensures Distinct(ids) && forall id :: id in ids ==> CanStep(cfg, w, id, D.Claim)
  {
    forall id | id in ids ensures CanStep(cfg, w, id, D.Claim) {
      var i :| 0 <= i < |ids| && ids[i] == id;
      assert ids[i] in DueAt(RowsOf(w), w.now, locked);
    }
  }

  lemma RowsAfterClaim(cfg: Config, w: World, ids: set<Id>, e: World)
    requires SteppedOn(cfg, w, ids, Same(D.Claim), e)
    ensures RowsOf(e) == ClaimAll(RowsOf(w), ids, w.now)
  {
  }

  lemma CanCap(cfg: Config, w: World, ids: seq<Id>)
    requires Members(ids) == PastCap(RowsOf(w), w.now, cfg.recoveryThresholdMs, cfg.maxRedrives)
    ensures forall id :: id in ids ==> CanStep(cfg, w, id, D.SweepToFailed)
  {
    forall id | id in ids ensures CanStep(cfg, w, id, D.SweepToFailed) {
      assert id in Members(ids);
    }
  }

  lemma RowsAfterSweepToFailed(cfg: Config, w: World, ids: set<Id>, e: World)
    requires SteppedOn(cfg, w, ids, Same(D.SweepToFailed), e)
    ensures RowsOf(e) == FailAll(RowsOf(w), ids)
  {
  }

  lemma CanRedrive(cfg: Config, w: World, ids: seq<Id>)
    requires Members(ids) == UnderCap(RowsOf(w), w.now, cfg.recoveryThresholdMs, cfg.maxRedrives)
    ensures forall id :: id in ids ==> CanStep(cfg, w, id, D.SweepToPending)
  {
    forall id | id in ids ensures CanStep(cfg, w, id, D.SweepToPending) {
      assert id in Members(ids);
    }
  }

  lemma RowsAfterSweepToPending(cfg: Config, w: World, ids: set<Id>, e: World)
    requires SteppedOn(cfg, w, ids, Same(D.SweepToPending), e)
    ensures RowsOf(e) == RedriveAll(RowsOf(w), ids, w.now)
  {
  }

  /** claimDue is a run of single claims. */
  lemma ClaimStatementIsRun(cfg: Config, w: World, locked: set<Id>, batch: nat, ids: seq<Id>)
    requires Earliest(DueAt(RowsOf(w), w.now, locked), batch, ids)
    ensures Run(cfg, w, Each(ids, Same(D.Claim)))
    ensures RowsOf(End(cfg, w, Each(ids, Same(D.Claim)))) == ClaimAll(RowsOf(w), Members(ids), w.now)
    ensures SteppedOn(cfg, w, Members(ids), Same(D.Claim), End(cfg, w, Each(ids, Same(D.Claim))))
  {
    hide Run, End, RowsOf, SteppedOn, Earliest, CanStep;
    CanClaim(cfg, w, locked, batch, ids);
    BatchIsRun(cfg, w, ids, Same(D.Claim));
    RowsAfterClaim(cfg, w, Members(ids), End(cfg, w, Each(ids, Same(D.Claim))));
  }

  /** The first recovery statement is a run of sweeps to FAILED. */
  lemma CapStatementIsRun(cfg: Config, w: World, ids: seq<Id>)
    requires Distinct(ids) && Members(ids) == PastCap(RowsOf(w), w.now, cfg.recoveryThresholdMs, cfg.maxRedrives)
    ensures Run(cfg, w, Each(ids, Same(D.SweepToFailed)))
    ensures RowsOf(End(cfg, w, Each(ids, Same(D.SweepToFailed)))) == FailAll(RowsOf(w), Members(ids))
    ensures SteppedOn(cfg, w, Members(ids), Same(D.SweepToFailed), End(cfg, w, Each(ids, Same(D.SweepToFailed))))
  {
    hide Run, End, RowsOf, SteppedOn, Earliest, CanStep;
    CanCap(cfg, w, ids);
    BatchIsRun(cfg, w, ids, Same(D.SweepToFailed));
    RowsAfterSweepToFailed(cfg, w, Members(ids), End(cfg, w, Each(ids, Same(D.SweepToFailed))));
  }

  /** The second one is a run of sweeps to PENDING. */
  lemma RedriveStatementIsRun(cfg: Config, w: World, ids: seq<Id>)
    requires Distinct(ids) && Members(ids) == UnderCap(RowsOf(w), w.now, cfg.recoveryThresholdMs, cfg.maxRedrives)
    ensures Run(cfg, w, Each(ids, Same(D.SweepToPending)))
    ensures RowsOf(End(cfg, w, Each(ids, Same(D.SweepToPending)))) == RedriveAll(RowsOf(w), Members(ids), w.now)
    ensures SteppedOn(cfg, w, Members(ids), Same(D.SweepToPending), End(cfg, w, Each(ids, Same(D.SweepToPending))))
  {
    hide Run, End, RowsOf, SteppedOn, Earliest, CanStep;
    CanRedrive(cfg, w, ids);
    BatchIsRun(cfg, w, ids, Same(D.SweepToPending));
    RowsAfterSweepToPending(cfg, w, Members(ids), End(cfg, w, Each(ids, Same(D.SweepToPending))));
  }

  lemma Waiting(cfg: Config, w: World, ms: nat)
    ensures Run(cfg, w, [Elapse(ms)]) && End(cfg, w, [Elapse(ms)]) == w.(now := w.now + ms)
  {
    assert [Elapse(ms)][1..] == [];
  }

  lemma SameRows(w: World, v: World)
    requires v.cells == w.cells
    ensures RowsOf(v) == RowsOf(w)
  {
  }

  /** recordAttempt is the commit step, on the table and in the history, for any row type the catalog knows. */
  lemma VerdictIsStep(cfg: Config, w: World, id: Id, i: nat)
    requires cfg.WellFormed() && Enabled(cfg, w, OfDelivery(id, D.CommitVerdict(i)))
    ensures var seen := w.cells[id].stages[i].seen;
            var outcome := w.cells[id].stages[i].outcome;
            var max := EntryFor(cfg.catalog, seen.key.kind).value.retryPolicy.maxAttempts;
            var e := Next(cfg, w, OfDelivery(id, D.CommitVerdict(i)));
            && RowsOf(e) == RowsOf(w)[id := AttemptRow(w.cells[id].row, outcome, max, w.now)]
            && e.cells[id].history == w.cells[id].history + [if outcome.Delivered? then PUSH_SENT else PUSH_ATTEMPT]
  {
  }

  /** applyManualRetry is enabled on exactly the rows the statement matches. */
  lemma ManualRetryIsStep(cfg: Config, w: World, id: Id)
    ensures Enabled(cfg, w, OfDelivery(id, D.RetryManually)) <==> id in RowsOf(w) && RowsOf(w)[id].status == FAILED
    ensures Enabled(cfg, w, OfDelivery(id, D.RetryManually)) ==>
              RowsOf(Next(cfg, w, OfDelivery(id, D.RetryManually))) == RowsOf(w)[id := ManualRetryRow(RowsOf(w)[id])]
  {
  }

  /** The unique index holds exactly the keys of the table. */
  lemma KeyTaken(cfg: Config, w: World, key: Key)
    requires WorldInv(cfg, w)
    ensures key in w.inbound.table.index <==> Taken(w, key)
    ensures w.cells.Keys == w.inbound.table.inserted.Keys
  {
    hide CellInv;
    if key in w.inbound.table.index {
      var id := w.inbound.table.index[key];
      assert CellFits(cfg, w, id);
      assert id in RowsOf(w) && RowsOf(w)[id].key == key;
    }
    forall id | id in RowsOf(w) && RowsOf(w)[id].key == key ensures key in w.inbound.table.index {
      assert CellFits(cfg, w, id);
      InsertedRows(cfg, w.inbound, id);
    }
  }

  lemma AdoptNothing(w: World)
    requires w.cells.Keys == w.inbound.table.inserted.Keys
    ensures Adopt(w.cells, w.inbound.table.inserted) == w.cells
  {
  }

  lemma AdoptOne(w: World, id: Id, r: Row)
    requires w.cells.Keys == w.inbound.table.inserted.Keys && id !in w.cells
    ensures Adopt(w.cells, w.inbound.table.inserted[id := r]) == w.cells[id := D.NewCell(r)]
  {
  }

  lemma IngestCells(cfg: Config, w: World, m: nat, newId: Id)
    requires Enabled(cfg, w, OfInbound(In.OfCopy(m, In.Ingest(newId))))
    ensures Next(cfg, w, OfInbound(In.OfCopy(m, In.Ingest(newId)))).cells
            == Adopt(w.cells, In.TableNext(cfg.Inbound(), w.now, w.inbound.table, w.inbound.copies[m],
                                           In.Ingest(newId)).inserted)
  {
  }

  predicate Taken(w: World, key: Key) {
    exists id :: id in RowsOf(w) && RowsOf(w)[id].key == key
  }

  /** Ingesting a known key leaves the table alone. */
  lemma IngestOfKnownKey(cfg: Config, w: World, m: nat, newId: Id)
    requires WorldInv(cfg, w) && Enabled(cfg, w, OfInbound(In.OfCopy(m, In.Ingest(newId))))
    requires Taken(w, EventKey(w.inbound.copies[m].event))
    ensures Next(cfg, w, OfInbound(In.OfCopy(m, In.Ingest(newId)))).cells == w.cells
  {
    KeyTaken(cfg, w, EventKey(w.inbound.copies[m].event));
    IngestCells(cfg, w, m, newId);
    AdoptNothing(w);
  }

  lemma NewTable(cfg: In.Config, now: Time, t: In.Table, c: In.Copy, newId: Id)
    requires In.CopyEnabled(cfg, t, c, In.Ingest(newId)) && EventKey(c.event) !in t.index
    ensures EntryFor(cfg.catalog, c.event.kind).Some? && newId !in t.inserted
    ensures In.TableNext(cfg, now, t, c, In.Ingest(newId)).inserted
            == t.inserted[newId := In.IngestRow(cfg.catalog, now, c.event, newId)]
  {
  }

  /** Ingesting a new key inserts the row the ingest consumer computes, and nothing else. */
  lemma IngestOfNewKey(cfg: Config, w: World, m: nat, newId: Id)
    requires WorldInv(cfg, w) && Enabled(cfg, w, OfInbound(In.OfCopy(m, In.Ingest(newId))))
    requires !Taken(w, EventKey(w.inbound.copies[m].event))
    ensures newId !in w.cells && EntryFor(cfg.catalog, w.inbound.copies[m].event.kind).Some?
    ensures Next(cfg, w, OfInbound(In.OfCopy(m, In.Ingest(newId)))).cells
            == w.cells[newId := D.NewCell(In.IngestRow(cfg.catalog, w.now, w.inbound.copies[m].event, newId))]
  {
    var c := w.inbound.copies[m];
    KeyTaken(cfg, w, EventKey(c.event));
    IngestCells(cfg, w, m, newId);
    NewTable(cfg.Inbound(), w.now, w.inbound.table, c, newId);
    hide WorldInv, Taken, CellInv, Next, Adopt, RowsOf, In.IngestRow, In.TableNext;
    AdoptOne(w, newId, In.IngestRow(cfg.catalog, w.now, c.event, newId));
  }
}
