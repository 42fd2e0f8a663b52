/** A round of the outbox cron, as the command performs it, is a run of the pipeline. */
module OutboxRefinement {
  import opened Common
  import opened OutboxRows
  import opened Selection
  import opened UsersOutbox
  import opened Pipeline
  import In = Inbound
  import Refinement

  function OutboxOf(w: World): map<Id, OutboxRow> {
    w.inbound.u.outbox
  }

  /** Every outbox row has its traffic record. */
  predicate Tracked(w: World) {
    w.inbound.u.traffic.Keys == OutboxOf(w).Keys
  }

  function By(ua: In.UsersAction): Action {
    OfInbound(In.OfUsers(ua))
  }

  /** The world after a statement that touched only the outbox: table `outbox`, and `hands` taken on top. */
  ghost predicate OutboxChanged(w: World, e: World, outbox: map<Id, OutboxRow>, hands: seq<In.Hand>) {
    && Tracked(e) && OutboxOf(e) == outbox && e.now == w.now
    && e.inbound.u.hands == w.inbound.u.hands + hands
    && e.inbound.copies == w.inbound.copies && e.inbound.bound == w.inbound.bound
  }

  lemma Prefix(ids: seq<Id>, n: nat)
    requires Distinct(ids) && n < |ids|
    ensures Members(ids[..n + 1]) == Members(ids[..n]) + {ids[n]} && ids[n] !in Members(ids[..n])
    ensures ids[..n + 1][..n] == ids[..n]
  {
  }

  // ---------------------------------------------------------------- the sweep and the claim

  lemma SweptOneMore(outbox: map<Id, OutboxRow>, done: set<Id>, id: Id)
    requires id in outbox && id !in done
    ensures UnclaimRows(outbox, done)[id := UnclaimRow(outbox[id])] == UnclaimRows(outbox, done + {id})
  {
  }

  lemma SweepStep(cfg: Config, w: World, id: Id)
    requires Tracked(w) && id in OutboxOf(w) && OutboxStuck(OutboxOf(w)[id], w.now, cfg.stuckThresholdMs)
    ensures Enabled(cfg, w, By(In.Sweep(id)))
    ensures OutboxChanged(w, Next(cfg, w, By(In.Sweep(id))), OutboxOf(w)[id := UnclaimRow(OutboxOf(w)[id])], [])
  {
  }

  /** sweepStuck is a run of single sweeps. */
  lemma {:induction false} SweepIsRun(cfg: Config, w: World, ids: seq<Id>, n: nat) returns (actions: seq<Action>)
    requires Tracked(w) && Distinct(ids) && n <= |ids|
    requires forall id :: id in ids ==> id in StuckIds(OutboxOf(w), w.now, cfg.stuckThresholdMs)
    ensures Run(cfg, w, actions)
    ensures OutboxChanged(w, End(cfg, w, actions), UnclaimRows(OutboxOf(w), Members(ids[..n])), [])
  {
    actions := [];
    if n == 0 {
      assert UnclaimRows(OutboxOf(w), Members(ids[..0])) == OutboxOf(w);
    } else {
      actions := SweepIsRun(cfg, w, ids, n - 1);
      Prefix(ids, n - 1);
      assert ids[n - 1] in StuckIds(OutboxOf(w), w.now, cfg.stuckThresholdMs);
      hide Run, End, Next, Enabled;
      SweepStep(cfg, End(cfg, w, actions), ids[n - 1]);
      Refinement.Then(cfg, w, actions, By(In.Sweep(ids[n - 1])));
      SweptOneMore(OutboxOf(w), Members(ids[..n - 1]), ids[n - 1]);
      actions := actions + [By(In.Sweep(ids[n - 1]))];
    }
  }

  lemma ClaimedOneMore(outbox: map<Id, OutboxRow>, done: set<Id>, id: Id, now: Time)
    requires id in outbox && id !in done
    ensures ClaimRows(outbox, done, now)[id := ClaimOutboxRow(outbox[id], now)] == ClaimRows(outbox, done + {id}, now)
  {
  }

  lemma ClaimStep(cfg: Config, w: World, id: Id)
    requires Tracked(w) && id in OutboxOf(w) && Eligible(OutboxOf(w)[id])
    ensures Enabled(cfg, w, By(In.Claim(id)))
    ensures OutboxChanged(w, Next(cfg, w, By(In.Claim(id))), OutboxOf(w)[id := ClaimOutboxRow(OutboxOf(w)[id], w.now)],
                          [In.Hand(id, In.Holding)])
  {
  }

  /** A publisher's hand on each claimed row. */
  function Holding(ids: seq<Id>): (hands: seq<In.Hand>)
    ensures |hands| == |ids|
  {
    seq(|ids|, i requires 0 <= i < |ids| => In.Hand(ids[i], In.Holding))
  }

  /** claimBatch is a run of single claims, each of which puts its row in a hand. */
  lemma {:induction false} ClaimIsRun(cfg: Config, w: World, ids: seq<Id>, n: nat) returns (actions: seq<Action>)
    requires Tracked(w) && Distinct(ids) && n <= |ids|
    requires forall id :: id in ids ==> id in OutboxOf(w) && Eligible(OutboxOf(w)[id])
    ensures Run(cfg, w, actions)
    ensures OutboxChanged(w, End(cfg, w, actions), ClaimRows(OutboxOf(w), Members(ids[..n]), w.now), Holding(ids[..n]))
  {
    actions := [];
    if n == 0 {
      assert ClaimRows(OutboxOf(w), Members(ids[..0]), w.now) == OutboxOf(w);
    } else {
      actions := ClaimIsRun(cfg, w, ids, n - 1);
      Prefix(ids, n - 1);
      hide Run, End, Next, Enabled;
      ClaimStep(cfg, End(cfg, w, actions), ids[n - 1]);
      Refinement.Then(cfg, w, actions, By(In.Claim(ids[n - 1])));
      ClaimedOneMore(OutboxOf(w), Members(ids[..n - 1]), ids[n - 1], w.now);
      assert Holding(ids[..n]) == Holding(ids[..n - 1]) + [In.Hand(ids[n - 1], In.Holding)];
      actions := actions + [By(In.Claim(ids[n - 1]))];
    }
  }

  // ---------------------------------------------------------------- the publishes

  /** The copies a sequence of confirmed publishes puts into the ingest ring. */
  function Arrived(bound: In.Bindings, sent: seq<OutMessage>): seq<In.Copy> {
    if sent == [] then []
    else Arrived(bound, sent[..|sent| - 1]) + In.Routed(bound, sent[|sent| - 1].event)
  }

  /** What a publish leaves of a hand. */
  function AfterPublish(fate: Fate): In.HandStep {
    if fate.PublishThrows? then In.Finished else In.Confirmed
  }

  /** From `base` on the hands belong to the round: those of `done` finished, those of the first n published. */
  predicate HandsShow(hands: seq<In.Hand>, ids: seq<Id>, base: nat, fates: map<Id, Fate>, n: nat, done: set<Id>) {
    && base + |ids| <= |hands|
    && forall i :: 0 <= i < |ids| ==>
         hands[base + i] == In.Hand(ids[i], if i >= n then In.Holding else if ids[i] in done then In.Finished
                                            else AfterPublish(FateOf(fates, ids[i])))
  }

  /** The first n rows of the round are published as their fates have it; no row is marked yet. */
  ghost predicate Published(w: World, e: World, ids: seq<Id>, n: nat, base: nat, fates: map<Id, Fate>)
    requires n <= |ids| && forall id :: id in ids ==> id in OutboxOf(w)
  {
    && Tracked(e) && e.now == w.now && e.inbound.bound == w.inbound.bound && OutboxOf(e) == OutboxOf(w)
    && e.inbound.copies == w.inbound.copies + Arrived(w.inbound.bound, Outgoing(OutboxOf(w), ids[..n], fates))
    && HandsShow(e.inbound.u.hands, ids, base, fates, n, {})
  }

  /** The effect of one publish, on hand h, which holds a row of the given fate. */
  ghost predicate PublishedOne(w: World, e: World, h: nat, fate: Fate)
    requires In.HandAt(w.inbound.u, h, In.Holding)
  {
    var id := w.inbound.u.hands[h].outboxId;
    && Tracked(e) && e.now == w.now && e.inbound.bound == w.inbound.bound && OutboxOf(e) == OutboxOf(w)
    && e.inbound.copies
       == w.inbound.copies + (if fate.PublishThrows? then [] else In.Routed(w.inbound.bound, OutboxOf(w)[id].payload))
    && e.inbound.u.hands == w.inbound.u.hands[h := In.Hand(id, AfterPublish(fate))]
  }

  function PublishStep(h: nat, fate: Fate): Action {
    By(if fate.PublishThrows? then In.PublisherFails(h) else In.Publish(h))
  }

  lemma PublishTakes(cfg: Config, w: World, h: nat, fate: Fate)
    requires Tracked(w) && In.HandAt(w.inbound.u, h, In.Holding)
    ensures Enabled(cfg, w, PublishStep(h, fate)) && PublishedOne(w, Next(cfg, w, PublishStep(h, fate)), h, fate)
  {
  }

  lemma OutgoingOneMore(outbox: map<Id, OutboxRow>, ids: seq<Id>, n: nat, fates: map<Id, Fate>, bound: In.Bindings)
    requires n < |ids| && forall id :: id in ids ==> id in outbox
    ensures Arrived(bound, Outgoing(outbox, ids[..n + 1], fates))
            == Arrived(bound, Outgoing(outbox, ids[..n], fates))
               + (if FateOf(fates, ids[n]).PublishThrows? then [] else In.Routed(bound, outbox[ids[n]].payload))
  {
    assert ids[..n + 1][..n] == ids[..n];
    var before := Outgoing(outbox, ids[..n], fates);
    if FateOf(fates, ids[n]).PublishThrows? {
      assert Outgoing(outbox, ids[..n + 1], fates) == before;
    } else {
      assert Outgoing(outbox, ids[..n + 1], fates) == before + [Message(outbox[ids[n]])];
      assert (before + [Message(outbox[ids[n]])])[..|before|] == before;
    }
  }

  lemma HandPublished(hands: seq<In.Hand>, ids: seq<Id>, n: nat, base: nat, fates: map<Id, Fate>)
    requires n < |ids| && HandsShow(hands, ids, base, fates, n, {})
    ensures base + n < |hands| && hands[base + n] == In.Hand(ids[n], In.Holding)
    ensures HandsShow(hands[base + n := In.Hand(ids[n], AfterPublish(FateOf(fates, ids[n])))], ids, base, fates, n + 1,
                      {})
  {
  }

  lemma PublishedOneMore(w: World, mid: World, e: World, ids: seq<Id>, n: nat, base: nat, fates: map<Id, Fate>)
    requires n < |ids| && (forall id :: id in ids ==> id in OutboxOf(w))
    requires Published(w, mid, ids, n, base, fates)
    requires In.HandAt(mid.inbound.u, base + n, In.Holding) && PublishedOne(mid, e, base + n, FateOf(fates, ids[n]))
    ensures Published(w, e, ids, n + 1, base, fates)
  {
    hide HandsShow, Outgoing, Arrived, In.HandAt, In.Routed, Tracked, FateOf, OutboxOf, AfterPublish;
    OutgoingOneMore(OutboxOf(w), ids, n, fates, w.inbound.bound);
    HandPublished(mid.inbound.u.hands, ids, n, base, fates);
  }

  lemma NextHand(w: World, mid: World, ids: seq<Id>, n: nat, base: nat, fates: map<Id, Fate>)
    requires n < |ids| && (forall id :: id in ids ==> id in OutboxOf(w)) && Published(w, mid, ids, n, base, fates)
    ensures Tracked(mid) && In.HandAt(mid.inbound.u, base + n, In.Holding)
  {
    assert ids[n] in ids;
    HandPublished(mid.inbound.u.hands, ids, n, base, fates);
  }

  lemma {:induction false} PublishIsRun(cfg: Config, w: World, ids: seq<Id>, n: nat, base: nat, fates: map<Id, Fate>)
      returns (actions: seq<Action>)
    requires Tracked(w) && n <= |ids| && HandsShow(w.inbound.u.hands, ids, base, fates, 0, {})
    requires forall id :: id in ids ==> id in OutboxOf(w)
    ensures Run(cfg, w, actions) && Published(w, End(cfg, w, actions), ids, n, base, fates)
  {
    hide Run, End, Published, PublishedOne, In.HandAt, Tracked, HandsShow, Next, Enabled, FateOf, PublishStep;
    if n == 0 {
      NonePublished(cfg, w, ids, base, fates);
      return [];
    }
    var first := PublishIsRun(cfg, w, ids, n - 1, base, fates);
    var mid, step := End(cfg, w, first), PublishStep(base + n - 1, FateOf(fates, ids[n - 1]));
    NextHand(w, mid, ids, n - 1, base, fates);
    PublishTakes(cfg, mid, base + n - 1, FateOf(fates, ids[n - 1]));
    Refinement.Then(cfg, w, first, step);
    PublishedOneMore(w, mid, Next(cfg, mid, step), ids, n - 1, base, fates);
    actions := first + [step];
  }

  lemma NonePublished(cfg: Config, w: World, ids: seq<Id>, base: nat, fates: map<Id, Fate>)
    requires Tracked(w) && HandsShow(w.inbound.u.hands, ids, base, fates, 0, {})
    requires forall id :: id in ids ==> id in OutboxOf(w)
    ensures Run(cfg, w, []) && Published(w, End(cfg, w, []), ids, 0, base, fates)
  {
    assert ids[..0] == [];
  }

  // ---------------------------------------------------------------- the marks

  /** Each row is marked at its own time, in the order of these times. */
  predicate InTime(order: seq<Id>, marks: Id -> Time, start: Time) {
    && (forall i :: 0 <= i < |order| ==> start <= marks(order[i]))
    && (forall i, j :: 0 <= i < j < |order| ==> marks(order[i]) <= marks(order[j]))
  }

  function ClockAfter(order: seq<Id>, n: nat, marks: Id -> Time, start: Time): Time
    requires n <= |order|
  {
    if n == 0 then start else marks(order[n - 1])
  }

  /** The first n rows in the order of the marks are through. */
  ghost predicate MarkedUpTo(w: World, e: World, ids: seq<Id>, order: seq<Id>, n: nat, base: nat,
                             fates: map<Id, Fate>, marks: Id -> Time)
    requires n <= |order|
  {
    && Tracked(e) && e.now == ClockAfter(order, n, marks, w.now) && e.inbound.copies == w.inbound.copies
    && OutboxOf(e) == AfterRound(OutboxOf(w), Members(order[..n]), fates, marks)
    && HandsShow(e.inbound.u.hands, ids, base, fates, |ids|, Members(order[..n]))
  }

  /** Where the hand of a row is. */
  lemma HandOf(hands: seq<In.Hand>, ids: seq<Id>, base: nat, fates: map<Id, Fate>, done: set<Id>, id: Id)
      returns (h: nat)
    requires Distinct(ids) && HandsShow(hands, ids, base, fates, |ids|, done) && id in ids && id !in done
    ensures h < |hands| && hands[h] == In.Hand(id, AfterPublish(FateOf(fates, id)))
    ensures HandsShow(hands[h := In.Hand(id, In.Finished)], ids, base, fates, |ids|, done + {id})
    ensures FateOf(fates, id).PublishThrows? ==> HandsShow(hands, ids, base, fates, |ids|, done + {id})
  {
    var i :| 0 <= i < |ids| && ids[i] == id;
    h := base + i;
  }

  function MarkStep(h: nat, fate: Fate): Action {
    By(if fate.Succeeds? then In.MarkPublished(h) else In.PublisherFails(h))
  }

  lemma MarkTakes(cfg: Config, w: World, h: nat, fate: Fate)
    requires Tracked(w) && In.HandAt(w.inbound.u, h, In.Confirmed) && !fate.PublishThrows?
    ensures Enabled(cfg, w, MarkStep(h, fate))
    ensures var id := w.inbound.u.hands[h].outboxId;
            var e := Next(cfg, w, MarkStep(h, fate));
            && Tracked(e) && e.now == w.now && e.inbound.copies == w.inbound.copies
            && OutboxOf(e) == (if fate.Succeeds? then OutboxOf(w)[id := MarkPublishedRow(OutboxOf(w)[id], w.now)]
                               else OutboxOf(w))
            && e.inbound.u.hands == w.inbound.u.hands[h := In.Hand(id, In.Finished)]
  {
  }

  lemma MarkOneIsRun(cfg: Config, w: World, mid: World, ids: seq<Id>, order: seq<Id>, n: nat, base: nat,
                     fates: map<Id, Fate>, marks: Id -> Time) returns (actions: seq<Action>)
    requires Distinct(ids) && Reordered(ids, order) && n < |order| && InTime(order, marks, w.now)
    requires MarkedUpTo(w, mid, ids, order, n, base, fates, marks)
    requires forall id :: id in ids ==> id in OutboxOf(w)
    ensures Run(cfg, mid, actions)
    ensures MarkedUpTo(w, End(cfg, mid, actions), ids, order, n + 1, base, fates, marks)
  {
    hide Run, End, Next, Enabled, HandsShow, AfterRound, In.HandAt, AfterPublish;
    var id, fate := order[n], FateOf(fates, order[n]);
    Prefix(order, n);
    InRound(ids, order, id);
    AfterRoundStep(OutboxOf(w), Members(order[..n]), id, fates, marks);
    var h := HandOf(mid.inbound.u.hands, ids, base, fates, Members(order[..n]), id);
    var late := Later(cfg, mid, marks(id) - mid.now);
    actions := [Elapse(marks(id) - mid.now)];
    if !fate.PublishThrows? {
      HandConfirmed(late, h, id, fate);
      MarkTakes(cfg, late, h, fate);
      Refinement.Then(cfg, mid, actions, MarkStep(h, fate));
      actions := actions + [MarkStep(h, fate)];
    }
  }

  lemma InRound(ids: seq<Id>, order: seq<Id>, id: Id)
    requires Reordered(ids, order) && id in order
    ensures id in ids
  {
    assert id in Members(order);
  }

  lemma HandConfirmed(w: World, h: nat, id: Id, fate: Fate)
    requires Tracked(w) && id in OutboxOf(w) && h < |w.inbound.u.hands| && !fate.PublishThrows?
    requires w.inbound.u.hands[h] == In.Hand(id, AfterPublish(fate))
    ensures In.HandAt(w.inbound.u, h, In.Confirmed)
  {
  }

  lemma {:induction false} MarksAreRun(cfg: Config, w: World, ids: seq<Id>, order: seq<Id>, n: nat, base: nat,
                                       fates: map<Id, Fate>, marks: Id -> Time) returns (actions: seq<Action>)
    requires Tracked(w) && Distinct(ids) && Reordered(ids, order) && n <= |order| && InTime(order, marks, w.now)
    requires HandsShow(w.inbound.u.hands, ids, base, fates, |ids|, {})
    requires forall id :: id in ids ==> id in OutboxOf(w)
    ensures Run(cfg, w, actions) && MarkedUpTo(w, End(cfg, w, actions), ids, order, n, base, fates, marks)
  {
    hide Run, End, MarkedUpTo, HandsShow, Tracked, Distinct, Reordered, InTime;
    if n == 0 {
      NoneMarked(cfg, w, ids, order, base, fates, marks);
      return [];
    }
    var first := MarksAreRun(cfg, w, ids, order, n - 1, base, fates, marks);
    var second := MarkOneIsRun(cfg, w, End(cfg, w, first), ids, order, n - 1, base, fates, marks);
    Refinement.RunsConcat(cfg, w, first, second);
    actions := first + second;
  }

  lemma NoneMarked(cfg: Config, w: World, ids: seq<Id>, order: seq<Id>, base: nat, fates: map<Id, Fate>,
                   marks: Id -> Time)
    requires Tracked(w) && HandsShow(w.inbound.u.hands, ids, base, fates, |ids|, {})
    ensures Run(cfg, w, []) && MarkedUpTo(w, End(cfg, w, []), ids, order, 0, base, fates, marks)
  {
    assert order[..0] == [] && Members([]) == {};
    assert AfterRound(OutboxOf(w), {}, fates, marks) == OutboxOf(w);
    hide HandsShow;
  }

  // ---------------------------------------------------------------- the whole round

  lemma RoundInOrder(cfg: Config, w: World, stuck: seq<Id>, claimedAt: Time, locked: set<Id>, batch: nat,
                     ids: seq<Id>, marked: seq<Id>, fates: map<Id, Fate>, marks: Id -> Time)
      returns (actions: seq<Action>)
    requires Tracked(w) && w.now <= claimedAt && Reordered(ids, marked) && InTime(marked, marks, claimedAt)
    requires Distinct(stuck) && Members(stuck) == StuckIds(OutboxOf(w), w.now, cfg.stuckThresholdMs)
    requires Earliest(EligibleAt(UnclaimRows(OutboxOf(w), Members(stuck)), locked), batch, ids)
    ensures Run(cfg, w, actions)
    ensures var swept := UnclaimRows(OutboxOf(w), Members(stuck));
            var e := End(cfg, w, actions);
            && (forall id :: id in ids ==> id in swept)
            && OutboxOf(e) == AfterRound(ClaimRows(swept, Members(ids), claimedAt), Members(ids), fates, marks)
            && e.inbound.copies == w.inbound.copies + Arrived(w.inbound.bound, Outgoing(swept, ids, fates))
  {
    hide Run, End, AfterRound, Outgoing, Arrived, ClaimRows, UnclaimRows, Earliest, EligibleAt, Eligible, StuckIds,
         Members, Distinct, OutboxOf, Tracked, Holding, InTime;
    var swept := UnclaimRows(OutboxOf(w), Members(stuck));
    ClaimableIds(OutboxOf(w), Members(stuck), claimedAt, locked, batch, ids);
    var sweep := RoundSweeps(cfg, w, stuck);
    var w1 := End(cfg, w, sweep);
    var w2 := Later(cfg, w1, claimedAt - w.now);
    var claim := RoundClaims(cfg, w2, ids);
    var w3 := End(cfg, w2, claim);
    assert w3.inbound.u.hands[|w2.inbound.u.hands|..] == Holding(ids);
    var publish := RoundPublishes(cfg, w3, ids, marked, |w2.inbound.u.hands|, fates, marks);
    SamePayloads(swept, ids, claimedAt, fates);
    var wait := [Elapse(claimedAt - w.now)];
    Refinement.RunsConcat(cfg, w, sweep, wait);
    Refinement.RunsConcat(cfg, w, sweep + wait, claim);
    Refinement.RunsConcat(cfg, w, sweep + wait + claim, publish);
    actions := sweep + wait + claim + publish;
  }

  /**
   What the command's round does to the outbox and to the ingest exchange, in any order of its publishes and with
   each mark at its own time, a run of the pipeline does.
   */
  lemma RoundIsRun(cfg: Config, w: World, stuck: seq<Id>, claimedAt: Time, locked: set<Id>, batch: nat,
                   ids: seq<Id>, order: seq<Id>, marked: seq<Id>, fates: map<Id, Fate>, marks: Id -> Time)
      returns (actions: seq<Action>)
    requires Tracked(w) && w.now <= claimedAt
    requires Distinct(stuck) && Members(stuck) == StuckIds(OutboxOf(w), w.now, cfg.stuckThresholdMs)
    requires Earliest(EligibleAt(UnclaimRows(OutboxOf(w), Members(stuck)), locked), batch, ids) && Reordered(ids, order)
    requires Reordered(ids, marked) && InTime(marked, marks, claimedAt)
    ensures Run(cfg, w, actions)
    ensures var swept := UnclaimRows(OutboxOf(w), Members(stuck));
            var e := End(cfg, w, actions);
            && (forall id :: id in order ==> id in swept)
            && OutboxOf(e) == AfterRound(ClaimRows(swept, Members(ids), claimedAt), Members(ids), fates, marks)
            && e.inbound.copies == w.inbound.copies + Arrived(w.inbound.bound, Outgoing(swept, order, fates))
  {
    hide Run, End, InTime;
    EarliestInAnyOrder(EligibleAt(UnclaimRows(OutboxOf(w), Members(stuck)), locked), batch, ids, order);
    actions := RoundInOrder(cfg, w, stuck, claimedAt, locked, batch, order, marked, fates, marks);
  }

  lemma ClaimableIds(outbox: map<Id, OutboxRow>, stuck: set<Id>, now: Time, locked: set<Id>, batch: nat, ids: seq<Id>)
    requires Earliest(EligibleAt(UnclaimRows(outbox, stuck), locked), batch, ids)
    ensures var swept := UnclaimRows(outbox, stuck);
            && Distinct(ids)
            && (forall id :: id in ids ==> id in outbox && id in swept && Eligible(swept[id]))
            && (forall id :: id in ids ==> id in ClaimRows(swept, Members(ids), now))
  {
    forall id | id in ids ensures id in outbox && Eligible(UnclaimRows(outbox, stuck)[id]) {
      var i :| 0 <= i < |ids| && ids[i] == id;
      assert ids[i] in EligibleAt(UnclaimRows(outbox, stuck), locked);
    }
  }

  lemma Later(cfg: Config, w: World, ms: nat) returns (e: World)
    ensures Run(cfg, w, [Elapse(ms)]) && e == End(cfg, w, [Elapse(ms)])
    ensures e.now == w.now + ms && e.inbound == w.inbound && OutboxOf(e) == OutboxOf(w) && (Tracked(w) ==> Tracked(e))
  {
    e := w.(now := w.now + ms);
    Refinement.Waiting(cfg, w, ms);
  }

  lemma RoundSweeps(cfg: Config, w: World, stuck: seq<Id>) returns (actions: seq<Action>)
    requires Tracked(w) && Distinct(stuck) && Members(stuck) == StuckIds(OutboxOf(w), w.now, cfg.stuckThresholdMs)
    ensures Run(cfg, w, actions)
    ensures OutboxChanged(w, End(cfg, w, actions), UnclaimRows(OutboxOf(w), Members(stuck)), [])
  {
    assert forall id :: id in stuck ==> id in Members(stuck);
    actions := SweepIsRun(cfg, w, stuck, |stuck|);
    assert stuck[..|stuck|] == stuck;
  }

  lemma RoundClaims(cfg: Config, w: World, ids: seq<Id>) returns (actions: seq<Action>)
    requires Tracked(w) && Distinct(ids) && forall id :: id in ids ==> id in OutboxOf(w) && Eligible(OutboxOf(w)[id])
    ensures Run(cfg, w, actions)
    ensures OutboxChanged(w, End(cfg, w, actions), ClaimRows(OutboxOf(w), Members(ids), w.now), Holding(ids))
  {
    actions := ClaimIsRun(cfg, w, ids, |ids|);
    assert ids[..|ids|] == ids;
  }

  lemma RoundPublishes(cfg: Config, w: World, ids: seq<Id>, marked: seq<Id>, base: nat, fates: map<Id, Fate>,
                       marks: Id -> Time) returns (actions: seq<Action>)
    requires Tracked(w) && Distinct(ids) && (forall id :: id in ids ==> id in OutboxOf(w))
    requires base + |ids| == |w.inbound.u.hands| && w.inbound.u.hands[base..] == Holding(ids)
    requires Reordered(ids, marked) && InTime(marked, marks, w.now)
    ensures Run(cfg, w, actions)
    ensures var e := End(cfg, w, actions);
            && OutboxOf(e) == AfterRound(OutboxOf(w), Members(ids), fates, marks)
            && e.inbound.copies == w.inbound.copies + Arrived(w.inbound.bound, Outgoing(OutboxOf(w), ids, fates))
  {
    forall i | 0 <= i < |ids| ensures w.inbound.u.hands[base + i] == In.Hand(ids[i], In.Holding) {
      assert w.inbound.u.hands[base..][i] == Holding(ids)[i];
    }
    hide Run, End, AfterRound, Outgoing, Arrived, InTime;
    var publish := PublishIsRun(cfg, w, ids, |ids|, base, fates);
    var mid := End(cfg, w, publish);
    var mark := MarksAreRun(cfg, mid, ids, marked, |marked|, base, fates, marks);
    Refinement.RunsConcat(cfg, w, publish, mark);
    assert ids[..|ids|] == ids && marked[..|marked|] == marked;
    actions := publish + mark;
  }
}
