/** What one dispatch of the base consumer and one round of the DLQ drain do to a copy, as runs of the pipeline. */
module BrokerRefinement {
  import opened Common
  import opened OutboxRows
  import opened Topology
  import opened RetryRing
  import opened DlqDrain
  import opened Pipeline
  import opened OutboxRefinement
  import In = Inbound

  function On(m: nat, ba: In.BrokerAction): Action {
    OfInbound(In.OfCopy(m, ba))
  }

  // ---------------------------------------------------------------- one dispatch

  /**
   Where a dispatch that settled with these calls leaves the copy:
   acknowledged, parked with one more death, or returned.
   */
  function Settled(bound: In.Bindings, c: In.Copy, acks: nat, nacks: nat): In.Copy {
    if acks == 1 then c.(place := In.Gone)
    else if nacks == 1 then c.(place := if bound.retry then In.RetryWaiting else In.Gone, deaths := c.deaths + 1)
    else c.(place := In.IngestReady)
  }

  function Settlement(acks: nat, nacks: nat): In.BrokerAction {
    if acks == 1 then In.Ack else if nacks == 1 then In.Reject else In.Return
  }

  function SettleSteps(deadLettered: bool, acks: nat, nacks: nat): seq<In.BrokerAction> {
    (if deadLettered then [In.DeadLetter] else []) + [Settlement(acks, nacks)]
  }

  /**
   The steps of a dispatch: delivery, the insert if it was handled,
   the DLQ publish if there was one, the settlement.
   */
  function DispatchSteps(handled: bool, deadLettered: bool, acks: nat, nacks: nat, newId: Id): seq<In.BrokerAction> {
    [In.Deliver] + ((if handled then [In.Ingest(newId)] else []) + SettleSteps(deadLettered, acks, nacks))
  }

  function Steps(m: nat, bas: seq<In.BrokerAction>): seq<Action> {
    seq(|bas|, i requires 0 <= i < |bas| => On(m, bas[i]))
  }

  lemma StepsFirst(cfg: Config, w: World, m: nat, ba: In.BrokerAction, rest: seq<In.BrokerAction>)
    requires Enabled(cfg, w, On(m, ba)) && Run(cfg, Next(cfg, w, On(m, ba)), Steps(m, rest))
    ensures Run(cfg, w, Steps(m, [ba] + rest))
    ensures End(cfg, w, Steps(m, [ba] + rest)) == End(cfg, Next(cfg, w, On(m, ba)), Steps(m, rest))
  {
    assert Steps(m, [ba] + rest)[1..] == Steps(m, rest);
  }

  /** An ingest delivery, settled in any way the base consumer can settle it, is a run of the pipeline. */
  lemma DispatchIsRun(cfg: Config, w: World, m: nat, headers: Headers, handled: bool, deadLettered: bool, acks: nat,
                      nacks: nat, newId: Id)
    requires m < |w.inbound.copies| && w.inbound.copies[m].place == In.IngestReady
    requires DeathCount(headers, INGEST_Q) == w.inbound.copies[m].deaths
    requires acks + nacks <= 1 && (acks == 1 ==> handled || deadLettered)
    requires deadLettered ==> Exhausted(headers, INGEST_Q, In.INGEST_MAX_ATTEMPTS)
    requires handled ==> In.CopyEnabled(cfg.Inbound(), w.inbound.table, w.inbound.copies[m].(place := In.IngestUnacked),
                                        In.Ingest(newId))
    ensures var c := w.inbound.copies[m];
            var actions := Steps(m, DispatchSteps(handled, deadLettered, acks, nacks, newId));
            && Run(cfg, w, actions)
            && var e := End(cfg, w, actions);
               && e.now == w.now && e.inbound.u == w.inbound.u && e.inbound.bound == w.inbound.bound
               && e.inbound.copies == w.inbound.copies[m := Settled(w.inbound.bound, c, acks, nacks)]
                   + (if deadLettered then In.Buried(w.inbound.bound, c) else [])
               && e.inbound.table
                   == (if handled then In.TableNext(cfg.Inbound(), w.now, w.inbound.table,
                                                    c.(place := In.IngestUnacked), In.Ingest(newId))
                                      else w.inbound.table)
  {
    hide Next, Run, End, Settled, SettleSteps;
    var settle := SettleSteps(deadLettered, acks, nacks);
    CopyStep(cfg, w, m, In.Deliver);
    var w1 := Next(cfg, w, On(m, In.Deliver));
    if handled {
      CopyStep(cfg, w1, m, In.Ingest(newId));
      var w2 := Next(cfg, w1, On(m, In.Ingest(newId)));
      SettleIsRun(cfg, w2, m, deadLettered, acks, nacks);
      StepsFirst(cfg, w1, m, In.Ingest(newId), settle);
      StepsFirst(cfg, w, m, In.Deliver, [In.Ingest(newId)] + settle);
    } else {
      SettleIsRun(cfg, w1, m, deadLettered, acks, nacks);
      assert [] + settle == settle;
      StepsFirst(cfg, w, m, In.Deliver, settle);
    }
    SettledAlike(w.inbound.bound, w.inbound.copies[m], acks, nacks);
  }

  /** The settlement does not look at where in the handler the copy was. */
  lemma SettledAlike(bound: In.Bindings, c: In.Copy, acks: nat, nacks: nat)
    ensures Settled(bound, c.(place := In.IngestUnacked), acks, nacks) == Settled(bound, c, acks, nacks)
    ensures Settled(bound, c.(place := In.IngestDone), acks, nacks) == Settled(bound, c, acks, nacks)
  {
  }

  /** One action on copy m, on the whole world. */
  lemma CopyStep(cfg: Config, w: World, m: nat, ba: In.BrokerAction)
    requires m < |w.inbound.copies| && In.CopyEnabled(cfg.Inbound(), w.inbound.table, w.inbound.copies[m], ba)
    ensures Enabled(cfg, w, On(m, ba))
    ensures var c := w.inbound.copies[m];
            var e := Next(cfg, w, On(m, ba));
            && e.now == w.now && e.inbound.u == w.inbound.u && e.inbound.bound == w.inbound.bound
            && e.inbound.copies == w.inbound.copies[m := In.Landing(w.inbound.bound, c, ba)]
                + In.Emitted(w.inbound.bound, c, ba)
            && e.inbound.table == In.TableNext(cfg.Inbound(), w.now, w.inbound.table, c, ba)
  {
  }

  lemma SettleIsRun(cfg: Config, w: World, m: nat, deadLettered: bool, acks: nat, nacks: nat)
    requires m < |w.inbound.copies| && w.inbound.copies[m].place in {In.IngestUnacked, In.IngestDone}
    requires acks + nacks <= 1 && (acks == 1 ==> deadLettered || w.inbound.copies[m].place == In.IngestDone)
    requires deadLettered ==> w.inbound.copies[m].deaths + 1 >= In.INGEST_MAX_ATTEMPTS
    ensures var c := w.inbound.copies[m];
            var actions := Steps(m, SettleSteps(deadLettered, acks, nacks));
            && Run(cfg, w, actions)
            && var e := End(cfg, w, actions);
               && e.now == w.now && e.inbound.u == w.inbound.u && e.inbound.bound == w.inbound.bound
               && e.inbound.table == w.inbound.table
               && e.inbound.copies == w.inbound.copies[m := Settled(w.inbound.bound, c, acks, nacks)]
                   + (if deadLettered then In.Buried(w.inbound.bound, c) else [])
  {
    hide Next, Run, End;
    var last := Settlement(acks, nacks);
    if deadLettered {
      CopyStep(cfg, w, m, In.DeadLetter);
      var w1 := Next(cfg, w, On(m, In.DeadLetter));
      LastStep(cfg, w1, m, last);
      StepsFirst(cfg, w, m, In.DeadLetter, [last]);
    } else {
      LastStep(cfg, w, m, last);
      assert SettleSteps(deadLettered, acks, nacks) == [last];
    }
  }

  lemma LastStep(cfg: Config, w: World, m: nat, ba: In.BrokerAction)
    requires m < |w.inbound.copies| && In.CopyEnabled(cfg.Inbound(), w.inbound.table, w.inbound.copies[m], ba)
             && !ba.Ingest?
    ensures Run(cfg, w, Steps(m, [ba]))
    ensures var c := w.inbound.copies[m];
            var e := End(cfg, w, Steps(m, [ba]));
            && e.now == w.now && e.inbound.u == w.inbound.u && e.inbound.bound == w.inbound.bound
            && e.inbound.table == w.inbound.table
            && e.inbound.copies == w.inbound.copies[m := In.Landing(w.inbound.bound, c, ba)]
                + In.Emitted(w.inbound.bound, c, ba)
  {
    CopyStep(cfg, w, m, ba);
    StepsFirst(cfg, w, m, ba, []);
    assert [ba] + [] == [ba];
  }

  /** The ingest consumer's budget: four rejections, and the fifth failing delivery goes to the DLQ. */
  lemma IngestBudget(headers: Headers, extras: nat -> seq<Death>, limit: nat)
    requires limit >= 5 && forall k: nat :: forall d :: d in extras(k) ==> d.queue != INGEST_Q
    ensures LapsUntilDlq(None, In.INGEST_MAX_ATTEMPTS, extras, 0, limit) == 4
    ensures Exhausted(headers, INGEST_Q, In.INGEST_MAX_ATTEMPTS) <==> DeathCount(headers, INGEST_Q) >= 4
  {
    RingBound(None, In.INGEST_MAX_ATTEMPTS, extras, 0, limit);
  }

  // ---------------------------------------------------------------- one drain round

  function RoundSteps(d: Disposition, lands: bool, fate: RoundFate): seq<In.BrokerAction> {
    if fate.DiesFirst? then [In.DlqGet] + [In.Return]
    else
      [In.DlqGet] + ((if lands then [In.Republish(d.Republished?)] else []) + PutBackSteps(d, fate))
  }

  function PutBackSteps(d: Disposition, fate: RoundFate): seq<In.BrokerAction> {
    (if d.Republished? then [] else [In.ReDlx]) + [if DiesLate(fate) then In.Return else In.Ack]
  }

  /** What a round adds to the queues: the republished envelope, and the message put back. */
  function RoundCopies(bound: In.Bindings, c: In.Copy, d: Disposition, lands: bool): seq<In.Copy> {
    (if lands then In.Routed(bound, c.event) else []) + (if d.Republished? then [] else In.Buried(bound, c))
  }

  lemma PutBackIsRun(cfg: Config, w: World, m: nat, d: Disposition, fate: RoundFate)
    requires m < |w.inbound.copies|
    requires w.inbound.copies[m].place == if d.Republished? then In.DlqDone else In.DlqUnacked
    ensures var c := w.inbound.copies[m];
            var actions := Steps(m, PutBackSteps(d, fate));
            && Run(cfg, w, actions)
            && var e := End(cfg, w, actions);
               && e.now == w.now && e.inbound.u == w.inbound.u && e.inbound.table == w.inbound.table
               && e.inbound.bound == w.inbound.bound
               && e.inbound.copies
                  == w.inbound.copies[m := c.(place := if DiesLate(fate) then In.DlqReady else In.Gone)]
                     + (if d.Republished? then [] else In.Buried(w.inbound.bound, c))
  {
    hide Next, Run, End;
    var last := if DiesLate(fate) then In.Return else In.Ack;
    if d.Republished? {
      LastStep(cfg, w, m, last);
      assert PutBackSteps(d, fate) == [last];
    } else {
      CopyStep(cfg, w, m, In.ReDlx);
      var w1 := Next(cfg, w, On(m, In.ReDlx));
      LastStep(cfg, w1, m, last);
      StepsFirst(cfg, w, m, In.ReDlx, [last]);
    }
  }

  /**
   A drain round is a run of the pipeline; one that dies returns the copy, at worst beside its successors, and one
   whose republish landed unheard leaves a copy in either queue.
   */
  lemma DrainRoundIsRun(cfg: Config, w: World, m: nat, d: Disposition, lands: bool, fate: RoundFate)
    requires m < |w.inbound.copies| && w.inbound.copies[m].place == In.DlqReady && (d.Republished? ==> lands)
    ensures var c := w.inbound.copies[m];
            var actions := Steps(m, RoundSteps(d, lands, fate));
            && Run(cfg, w, actions)
            && var e := End(cfg, w, actions);
               && e.now == w.now && e.inbound.u == w.inbound.u && e.inbound.table == w.inbound.table
               && e.inbound.copies
                  == (if fate.DiesFirst? || DiesLate(fate) then w.inbound.copies
                      else w.inbound.copies[m := c.(place := In.Gone)])
                     + (if fate.DiesFirst? then [] else RoundCopies(w.inbound.bound, c, d, lands))
  {
    hide Next, Run, End, PutBackSteps, In.Buried, In.Routed;
    if fate.DiesFirst? {
      DiesAtOnce(cfg, w, m);
    } else if lands {
      LandingRound(cfg, w, m, d, fate);
    } else {
      FailingRound(cfg, w, m, d, fate);
    }
  }

  lemma DiesAtOnce(cfg: Config, w: World, m: nat)
    requires m < |w.inbound.copies| && w.inbound.copies[m].place == In.DlqReady
    ensures var actions := Steps(m, [In.DlqGet] + [In.Return]);
            && Run(cfg, w, actions)
            && var e := End(cfg, w, actions);
               && e.now == w.now && e.inbound.u == w.inbound.u && e.inbound.table == w.inbound.table
               && e.inbound.copies == w.inbound.copies
  {
    hide Next, Run, End;
    CopyStep(cfg, w, m, In.DlqGet);
    LastStep(cfg, Next(cfg, w, On(m, In.DlqGet)), m, In.Return);
    StepsFirst(cfg, w, m, In.DlqGet, [In.Return]);
  }

  lemma LandingRound(cfg: Config, w: World, m: nat, d: Disposition, fate: RoundFate)
    requires m < |w.inbound.copies| && w.inbound.copies[m].place == In.DlqReady
    ensures var c := w.inbound.copies[m];
            var actions := Steps(m, [In.DlqGet] + ([In.Republish(d.Republished?)] + PutBackSteps(d, fate)));
            && Run(cfg, w, actions)
            && var e := End(cfg, w, actions);
               && e.now == w.now && e.inbound.u == w.inbound.u && e.inbound.table == w.inbound.table
               && e.inbound.copies
                  == w.inbound.copies[m := c.(place := if DiesLate(fate) then In.DlqReady else In.Gone)]
                     + RoundCopies(w.inbound.bound, c, d, true)
  {
    hide Next, Run, End, PutBackSteps, In.Buried, In.Routed;
    var publish := In.Republish(d.Republished?);
    CopyStep(cfg, w, m, In.DlqGet);
    var w1 := Next(cfg, w, On(m, In.DlqGet));
    CopyStep(cfg, w1, m, publish);
    var w2 := Next(cfg, w1, On(m, publish));
    PutBackIsRun(cfg, w2, m, d, fate);
    StepsFirst(cfg, w1, m, publish, PutBackSteps(d, fate));
    StepsFirst(cfg, w, m, In.DlqGet, [publish] + PutBackSteps(d, fate));
    SamePlaces(w.inbound.bound, w.inbound.copies[m]);
  }

  /** The DLX does not see where in the drain a copy was. */
  lemma SamePlaces(bound: In.Bindings, c: In.Copy)
    ensures In.Buried(bound, c.(place := In.DlqUnacked)) == In.Buried(bound, c)
  {
  }

  lemma FailingRound(cfg: Config, w: World, m: nat, d: Disposition, fate: RoundFate)
    requires m < |w.inbound.copies| && w.inbound.copies[m].place == In.DlqReady && !d.Republished?
    ensures var c := w.inbound.copies[m];
            var actions := Steps(m, [In.DlqGet] + ([] + PutBackSteps(d, fate)));
            && Run(cfg, w, actions)
            && var e := End(cfg, w, actions);
               && e.now == w.now && e.inbound.u == w.inbound.u && e.inbound.table == w.inbound.table
               && e.inbound.copies
                  == w.inbound.copies[m := c.(place := if DiesLate(fate) then In.DlqReady else In.Gone)]
                     + RoundCopies(w.inbound.bound, c, d, false)
  {
    hide Next, Run, End, PutBackSteps, In.Buried, In.Routed;
    CopyStep(cfg, w, m, In.DlqGet);
    PutBackIsRun(cfg, Next(cfg, w, On(m, In.DlqGet)), m, d, fate);
    assert [] + PutBackSteps(d, fate) == PutBackSteps(d, fate);
    StepsFirst(cfg, w, m, In.DlqGet, [] + PutBackSteps(d, fate));
    SamePlaces(w.inbound.bound, w.inbound.copies[m]);
  }
}
