/** Claims and sweeps are finite: what each row and the whole table can still undergo is bounded, on every run. */
module Termination {
  import opened Common
  import opened Notifications
  import opened InboundInvariants
  import opened DeliveryInvariants
  import opened Pipeline
  import In = Inbound
  import D = Delivery

  // ---------------------------------------------------------------- one notification

  /** A claim or a sweep. */
  predicate Churn(da: D.Action) {
    da.Claim? || da.SweepToPending? || da.SweepToFailed?
  }

  function Churns(actions: seq<Action>, id: Id): nat {
    if actions == [] then 0
    else
      var a := actions[0];
      (if a.OfDelivery? && a.id == id && Churn(a.da) then 1 else 0) + Churns(actions[1..], id)
  }

  function Retries(actions: seq<Action>, id: Id): nat {
    if actions == [] then 0
    else (if actions[0] == OfDelivery(id, D.RetryManually) then 1 else 0) + Retries(actions[1..], id)
  }

  /** What a fresh row can undergo. */
  function Fresh(maxRedrives: nat): nat {
    3 * maxRedrives + 2
  }

  /** A claim or sweep lowers the potential of its row, a manual retry raises it by two, nothing else raises it. */
  lemma CellPotential(cfg: D.Config, now: Time, c: D.Cell, da: D.Action)
    requires D.Enabled(cfg, now, c, da) && c.row.redriveCount <= cfg.maxRedrives
    ensures Potential(D.Next(cfg, now, c, da).row, cfg.maxRedrives) + (if Churn(da) then 1 else 0)
            <= Potential(c.row, cfg.maxRedrives) + (if da == D.RetryManually then 2 else 0)
  {
  }

  lemma RedrivesCapped(cfg: Config, w: World, id: Id)
    requires WorldInv(cfg, w) && id in w.cells
    ensures id in w.inbound.table.inserted && w.cells[id].row.redriveCount <= cfg.maxRedrives
  {
    hide InboundInv;
    assert CellFits(cfg, w, id);
  }

  lemma PotentialStep(cfg: Config, w: World, a: Action, id: Id)
    requires WorldInv(cfg, w) && Enabled(cfg, w, a) && id in w.cells
    ensures id in Next(cfg, w, a).cells
    ensures Potential(Next(cfg, w, a).cells[id].row, cfg.maxRedrives) + Churns([a], id)
            <= Potential(w.cells[id].row, cfg.maxRedrives) + 2 * Retries([a], id)
  {
    hide WorldInv, D.Next, D.Enabled, In.Next, In.Enabled, Potential;
    RedrivesCapped(cfg, w, id);
    assert [a][1..] == [];
    match a
    case Elapse(_) =>
    case OfInbound(ia) => InsertedForGood(cfg.Inbound(), w.now, w.inbound, ia, id);
    case OfDelivery(k, da) => if k == id { CellPotential(cfg.Delivery(), w.now, w.cells[id], da); }
  }

  /** The claims and sweeps of a notification are paid for by its potential and by its manual retries. */
  lemma {:induction false} ChurnBounded(cfg: Config, w: World, actions: seq<Action>, id: Id)
    requires cfg.WellFormed() && WorldInv(cfg, w) && Run(cfg, w, actions) && id in w.cells
    ensures Churns(actions, id) <= Potential(w.cells[id].row, cfg.maxRedrives) + 2 * Retries(actions, id)
    ensures 0 <= Potential(w.cells[id].row, cfg.maxRedrives) <= Fresh(cfg.maxRedrives)
    decreases |actions|
  {
    hide WorldInv, Next, Enabled;
    RedrivesCapped(cfg, w, id);
    if actions != [] {
      var a := actions[0];
      PotentialStep(cfg, w, a, id);
      assert [a][1..] == [];
      StepInv(cfg, w, a);
      ChurnBounded(cfg, Next(cfg, w, a), actions[1..], id);
    }
  }

  // ---------------------------------------------------------------- the sum over all notifications

  ghost function Total(cells: map<Id, D.Cell>, maxRedrives: nat): int
    decreases |cells|
  {
    if cells == map[] then 0
    else
      var id :| id in cells;
      Smaller(cells, id);
      Potential(cells[id].row, maxRedrives) + Total(cells - {id}, maxRedrives)
  }

  lemma Smaller(cells: map<Id, D.Cell>, id: Id)
    requires id in cells
    ensures |cells - {id}| == |cells| - 1
  {
    assert cells.Keys == (cells - {id}).Keys + {id};
    assert |cells.Keys| == |cells| && |(cells - {id}).Keys| == |cells - {id}|;
  }

  /** The sum does not depend on the order in which it is taken. */
  lemma {:induction false} TotalPick(cells: map<Id, D.Cell>, id: Id, maxRedrives: nat)
    requires id in cells
    ensures Total(cells, maxRedrives) == Potential(cells[id].row, maxRedrives) + Total(cells - {id}, maxRedrives)
    decreases |cells|
  {
    hide Potential;
    var x :| x in cells && Total(cells, maxRedrives)
        == Potential(cells[x].row, maxRedrives) + Total(cells - {x}, maxRedrives);
    Smaller(cells, x);
    Smaller(cells, id);
    if x != id {
      TotalPick(cells - {x}, id, maxRedrives);
      TotalPick(cells - {id}, x, maxRedrives);
      assert cells - {x} - {id} == cells - {id} - {x};
    }
  }

  lemma TotalUpdate(cells: map<Id, D.Cell>, id: Id, d: D.Cell, maxRedrives: nat)
    requires id in cells
    ensures Total(cells[id := d], maxRedrives) - Potential(d.row, maxRedrives)
            == Total(cells, maxRedrives) - Potential(cells[id].row, maxRedrives)
  {
    hide Potential;
    TotalPick(cells, id, maxRedrives);
    TotalPick(cells[id := d], id, maxRedrives);
    assert cells[id := d] - {id} == cells - {id};
  }

  /** `more` has the cells of `cells`, and besides them only fresh ones. */
  ghost predicate Extends(cells: map<Id, D.Cell>, more: map<Id, D.Cell>, maxRedrives: nat) {
    && (forall id :: id in cells ==> id in more && more[id] == cells[id])
    && (forall id :: id in more && id !in cells ==> Potential(more[id].row, maxRedrives) == Fresh(maxRedrives))
  }

  lemma OneLess(cells: map<Id, D.Cell>, more: map<Id, D.Cell>, maxRedrives: nat, id: Id)
    requires Extends(cells, more, maxRedrives) && id in more && id !in cells
    ensures Extends(cells, more - {id}, maxRedrives) && Potential(more[id].row, maxRedrives) == Fresh(maxRedrives)
  {
    hide Potential, Fresh;
  }

  lemma OneNew(cells: map<Id, D.Cell>, more: map<Id, D.Cell>, maxRedrives: nat) returns (id: Id)
    requires Extends(cells, more, maxRedrives) && more != cells
    ensures id in more && id !in cells
  {
    hide Potential, Fresh;
    NoneNew(cells, more, maxRedrives);
    id :| id in more && id !in cells;
  }

  lemma NoneNew(cells: map<Id, D.Cell>, more: map<Id, D.Cell>, maxRedrives: nat)
    requires Extends(cells, more, maxRedrives)
    ensures (forall k :: k in more ==> k in cells) ==> more == cells
  {
    hide Potential, Fresh;
  }

  /** New rows bring a fresh potential each. */
  lemma {:induction false} TotalGrows(cells: map<Id, D.Cell>, more: map<Id, D.Cell>, maxRedrives: nat)
    requires Extends(cells, more, maxRedrives)
    ensures |more| >= |cells|
    ensures Total(more, maxRedrives) == Total(cells, maxRedrives) + Allowance(maxRedrives, |more| - |cells|)
    decreases |more|
  {
    hide Potential, Fresh, Total, Extends, Allowance;
    NoAllowance(maxRedrives);
    if more != cells {
      var id := OneNew(cells, more, maxRedrives);
      var less := Without(cells, more, maxRedrives, id);
      TotalGrows(cells, less, maxRedrives);
      OneAllowance(maxRedrives, |more| - |cells|);
    }
  }

  lemma Without(cells: map<Id, D.Cell>, more: map<Id, D.Cell>, maxRedrives: nat, id: Id) returns (less: map<Id, D.Cell>)
    requires Extends(cells, more, maxRedrives) && id in more && id !in cells
    ensures Extends(cells, less, maxRedrives) && |less| == |more| - 1
    ensures Total(more, maxRedrives) == Fresh(maxRedrives) + Total(less, maxRedrives)
  {
    hide Potential, Fresh, Total, Extends;
    less := more - {id};
    Smaller(more, id);
    OneLess(cells, more, maxRedrives, id);
    TotalPick(more, id, maxRedrives);
  }

  /** A fresh potential for each of n rows. */
  function Allowance(maxRedrives: nat, n: int): int {
    Fresh(maxRedrives) * n
  }

  lemma NoAllowance(maxRedrives: nat)
    ensures Allowance(maxRedrives, 0) == 0
  {
  }

  lemma OneAllowance(maxRedrives: nat, n: int)
    ensures Allowance(maxRedrives, n) == Fresh(maxRedrives) + Allowance(maxRedrives, n - 1)
  {
  }

  lemma BothAllowances(maxRedrives: nat, a: int, b: int)
    ensures Allowance(maxRedrives, a + b) == Allowance(maxRedrives, a) + Allowance(maxRedrives, b)
  {
  }

  lemma {:induction false} TotalNonNegative(cells: map<Id, D.Cell>, maxRedrives: nat)
    requires forall id :: id in cells ==> cells[id].row.redriveCount <= maxRedrives
    ensures Total(cells, maxRedrives) >= 0
    decreases |cells|
  {
    if cells != map[] {
      var id :| id in cells;
      Smaller(cells, id);
      TotalPick(cells, id, maxRedrives);
      TotalNonNegative(cells - {id}, maxRedrives);
    }
  }

  function AllChurns(actions: seq<Action>): nat {
    if actions == [] then 0
    else (if actions[0].OfDelivery? && Churn(actions[0].da) then 1 else 0) + AllChurns(actions[1..])
  }

  function AllRetries(actions: seq<Action>): nat {
    if actions == [] then 0
    else (if actions[0].OfDelivery? && actions[0].da == D.RetryManually then 1 else 0) + AllRetries(actions[1..])
  }

  /**
   What one action may add to the sum: a fresh potential per new row,
   two per manual retry, less one per claim or sweep.
   */
  lemma TotalStep(cfg: Config, w: World, a: Action)
    requires WorldInv(cfg, w) && Enabled(cfg, w, a)
    ensures var n := Next(cfg, w, a);
            && |n.cells| >= |w.cells|
            && Total(n.cells, cfg.maxRedrives) + AllChurns([a])
               <= Total(w.cells, cfg.maxRedrives) + Allowance(cfg.maxRedrives, |n.cells| - |w.cells|)
                   + 2 * AllRetries([a])
  {
    hide WorldInv, D.Next, D.Enabled, In.Next, In.Enabled, Potential, Total, Fresh, Extends, Allowance;
    NoAllowance(cfg.maxRedrives);
    var n := Next(cfg, w, a);
    assert [a][1..] == [];
    match a
    case Elapse(_) =>
    case OfInbound(ia) =>
      NewRowsAreFresh(cfg, w, ia);
      TotalGrows(w.cells, n.cells, cfg.maxRedrives);
    case OfDelivery(id, da) =>
      RedrivesCapped(cfg, w, id);
      OneCell(cfg, w, id, da);
  }

  lemma OneCell(cfg: Config, w: World, id: Id, da: D.Action)
    requires Enabled(cfg, w, OfDelivery(id, da)) && w.cells[id].row.redriveCount <= cfg.maxRedrives
    ensures var n := Next(cfg, w, OfDelivery(id, da));
            && |n.cells| == |w.cells|
            && Total(n.cells, cfg.maxRedrives) + (if Churn(da) then 1 else 0)
               <= Total(w.cells, cfg.maxRedrives) + (if da == D.RetryManually then 2 else 0)
  {
    hide D.Next, D.Enabled, Potential, Total;
    var d := D.Next(cfg.Delivery(), w.now, w.cells[id], da);
    CellPotential(cfg.Delivery(), w.now, w.cells[id], da);
    SameSize(w.cells, id, d);
    TotalUpdate(w.cells, id, d, cfg.maxRedrives);
  }

  lemma SameSize(cells: map<Id, D.Cell>, id: Id, d: D.Cell)
    requires id in cells
    ensures |cells[id := d]| == |cells|
  {
    assert cells[id := d].Keys == cells.Keys;
    assert |cells[id := d].Keys| == |cells[id := d]| && |cells.Keys| == |cells|;
  }

  lemma NewRowsAreFresh(cfg: Config, w: World, ia: In.Action)
    requires WorldInv(cfg, w) && Enabled(cfg, w, OfInbound(ia))
    ensures var n := Next(cfg, w, OfInbound(ia));
            Extends(w.cells, n.cells, cfg.maxRedrives)
  {
    hide In.Next, InboundInv, CellInv, Potential, Fresh;
    var inbound := In.Next(cfg.Inbound(), w.now, w.inbound, ia);
    InboundInvKept(cfg.Inbound(), w.now, w.inbound, ia);
    var n := Next(cfg, w, OfInbound(ia));
    forall id | id in w.cells ensures id in n.cells && n.cells[id] == w.cells[id] {
      InsertedForGood(cfg.Inbound(), w.now, w.inbound, ia, id);
    }
    forall id | id in n.cells && id !in w.cells
      ensures Potential(n.cells[id].row, cfg.maxRedrives) == Fresh(cfg.maxRedrives)
    {
      InsertedRows(cfg, inbound, id);
      FreshPotential(inbound.table.inserted[id], cfg.maxRedrives);
    }
  }

  lemma FreshPotential(r: Row, maxRedrives: nat)
    requires r == NewRow(r.id, r.key, r.recipient, r.params, r.channel, r.scheduledFor)
    ensures Potential(D.NewCell(r).row, maxRedrives) == Fresh(maxRedrives)
  {
  }

  lemma {:induction false} TotalOverRun(cfg: Config, w: World, actions: seq<Action>)
    requires cfg.WellFormed() && WorldInv(cfg, w) && Run(cfg, w, actions)
    ensures var e := End(cfg, w, actions);
            Total(e.cells, cfg.maxRedrives) + AllChurns(actions)
            <= Total(w.cells, cfg.maxRedrives) + Allowance(cfg.maxRedrives, |e.cells| - |w.cells|)
                + 2 * AllRetries(actions)
    decreases |actions|
  {
    hide WorldInv, Next, Enabled, Total, Allowance;
    NoAllowance(cfg.maxRedrives);
    if actions != [] {
      var a := actions[0];
      var n, e := Next(cfg, w, a), End(cfg, w, actions);
      TotalStep(cfg, w, a);
      assert [a][1..] == [];
      StepInv(cfg, w, a);
      TotalOverRun(cfg, n, actions[1..]);
      BothAllowances(cfg.maxRedrives, |e.cells| - |n.cells|, |n.cells| - |w.cells|);
    }
  }

  /**
   On every run the claims and sweeps of the whole table are at most 3 * maxRedrives + 2 per stored notification
   and two per manual retry; without new notifications and manual retries they come to an end.
   */
  lemma AllChurnBounded(cfg: Config, now: Time, bound: In.Bindings, actions: seq<Action>)
    requires cfg.WellFormed() && Run(cfg, Start(now, bound), actions)
    ensures AllChurns(actions)
            <= Fresh(cfg.maxRedrives) * |End(cfg, Start(now, bound), actions).cells| + 2 * AllRetries(actions)
  {
    hide WorldInv, Total, Fresh, Run, End, InboundInv;
    var s, e := Start(now, bound), End(cfg, Start(now, bound), actions);
    StartsEmpty(cfg, now, bound);
    TotalOverRun(cfg, s, actions);
    EveryRun(cfg, now, bound, actions);
    forall id | id in e.cells ensures e.cells[id].row.redriveCount <= cfg.maxRedrives {
      RedrivesCapped(cfg, e, id);
    }
    TotalNonNegative(e.cells, cfg.maxRedrives);
  }

  lemma StartsEmpty(cfg: Config, now: Time, bound: In.Bindings)
    ensures var s := Start(now, bound); WorldInv(cfg, s) && |s.cells| == 0 && Total(s.cells, cfg.maxRedrives) == 0
  {
    InitialInv(cfg.Inbound(), bound);
  }
}
