/** Each binding that the no-loss theorem asks for is needed: runs that rely on a missing one and lose the event. */
module UnboundRuns {
  import opened Common
  import opened OutboxRows
  import opened InboundInvariants
  import opened Pipeline
  import In = Inbound

  /** Nothing is stored yet. */
  predicate Bare(w: World) {
    w.inbound.table.index == map[] && w.inbound.table.inserted == map[] && w.cells == map[]
  }

  predicate Possible(cfg: In.Config, now: Time, s: In.State, ias: seq<In.Action>)
    decreases |ias|
  {
    ias == [] || (In.Enabled(cfg, now, s, ias[0]) && Possible(cfg, now, In.Next(cfg, now, s, ias[0]), ias[1..]))
  }

  function Result(cfg: In.Config, now: Time, s: In.State, ias: seq<In.Action>): In.State
    requires Possible(cfg, now, s, ias)
    decreases |ias|
  {
    if ias == [] then s else Result(cfg, now, In.Next(cfg, now, s, ias[0]), ias[1..])
  }

  predicate NoIngest(ias: seq<In.Action>) {
    forall a :: a in ias ==> !(a.OfCopy? && a.ba.Ingest?)
  }

  function Lifted(ias: seq<In.Action>): seq<Action> {
    seq(|ias|, i requires 0 <= i < |ias| => OfInbound(ias[i]))
  }

  lemma OneInbound(cfg: Config, w: World, ia: In.Action)
    requires Bare(w) && In.Enabled(cfg.Inbound(), w.now, w.inbound, ia) && !(ia.OfCopy? && ia.ba.Ingest?)
    ensures Enabled(cfg, w, OfInbound(ia))
    ensures var e := Next(cfg, w, OfInbound(ia));
            Bare(e) && e.now == w.now && e.inbound == In.Next(cfg.Inbound(), w.now, w.inbound, ia)
  {
  }

  /** Before anything is ingested the pipeline is its inbound half. */
  lemma {:induction false} LiftedRun(cfg: Config, w: World, ias: seq<In.Action>)
    requires Bare(w) && NoIngest(ias) && Possible(cfg.Inbound(), w.now, w.inbound, ias)
    ensures Run(cfg, w, Lifted(ias))
    ensures var e := End(cfg, w, Lifted(ias)); Bare(e) && e.inbound == Result(cfg.Inbound(), w.now, w.inbound, ias)
    decreases |ias|
  {
    hide In.Next, In.Enabled, Next, Enabled, Bare;
    if ias != [] {
      assert ias[0] in ias && (forall a :: a in ias[1..] ==> a in ias);
      OneInbound(cfg, w, ias[0]);
      LiftedRun(cfg, Next(cfg, w, OfInbound(ias[0])), ias[1..]);
      assert Lifted(ias)[1..] == Lifted(ias[1..]);
    }
  }

  // ---------------------------------------------------------------- runs of the inbound half

  lemma {:induction false} Compose(cfg: In.Config, now: Time, s: In.State, xs: seq<In.Action>, ys: seq<In.Action>)
    requires Possible(cfg, now, s, xs) && Possible(cfg, now, Result(cfg, now, s, xs), ys)
    ensures Possible(cfg, now, s, xs + ys)
    ensures Result(cfg, now, s, xs + ys) == Result(cfg, now, Result(cfg, now, s, xs), ys)
    decreases |xs|
  {
    hide In.Next, In.Enabled;
    if xs == [] {
      assert xs + ys == ys;
    } else {
      Compose(cfg, now, In.Next(cfg, now, s, xs[0]), xs[1..], ys);
      assert (xs + ys)[1..] == xs[1..] + ys;
    }
  }

  lemma One(cfg: In.Config, now: Time, s: In.State, a: In.Action)
    requires In.Enabled(cfg, now, s, a)
    ensures Possible(cfg, now, s, [a]) && Result(cfg, now, s, [a]) == In.Next(cfg, now, s, a)
  {
    hide In.Next, In.Enabled;
    assert [a][1..] == [];
  }

  lemma More(cfg: In.Config, now: Time, s: In.State, xs: seq<In.Action>, a: In.Action)
    requires Possible(cfg, now, s, xs) && In.Enabled(cfg, now, Result(cfg, now, s, xs), a)
    ensures Possible(cfg, now, s, xs + [a])
    ensures Result(cfg, now, s, xs + [a]) == In.Next(cfg, now, Result(cfg, now, s, xs), a)
  {
    hide In.Next, In.Enabled;
    One(cfg, now, Result(cfg, now, s, xs), a);
    Compose(cfg, now, s, xs, [a]);
  }

  /** Every action but the last finds the binding it relies on. */
  predicate Reliant(bound: In.Bindings, ias: seq<In.Action>)
    decreases |ias|
  {
    ias != [] ==> In.Relied(bound, ias[0]) && Reliant(In.BoundAfter(bound, ias[0]), ias[1..])
  }

  lemma {:induction false} ReliantComposes(bound: In.Bindings, xs: seq<In.Action>, ys: seq<In.Action>,
                                           after: In.Bindings)
    requires Reliant(bound, xs) && after == BoundBy(bound, xs) && Reliant(after, ys)
    ensures Reliant(bound, xs + ys) && BoundBy(bound, xs + ys) == BoundBy(after, ys)
    decreases |xs|
  {
    if xs == [] {
      assert xs + ys == ys;
    } else {
      ReliantComposes(In.BoundAfter(bound, xs[0]), xs[1..], ys, after);
      assert (xs + ys)[1..] == xs[1..] + ys;
    }
  }

  function BoundBy(bound: In.Bindings, ias: seq<In.Action>): In.Bindings
    decreases |ias|
  {
    if ias == [] then bound else BoundBy(In.BoundAfter(bound, ias[0]), ias[1..])
  }

  lemma {:induction false} BindsFirstLifted(bound: In.Bindings, ias: seq<In.Action>)
    requires Reliant(bound, ias)
    ensures BindsFirst(bound, Lifted(ias))
    decreases |ias|
  {
    if ias != [] {
      BindsFirstLifted(In.BoundAfter(bound, ias[0]), ias[1..]);
      assert Lifted(ias)[1..] == Lifted(ias[1..]);
    }
  }

  // ---------------------------------------------------------------- a published row with one copy under way

  const UNBOUND := In.Bindings(false, false, false)

  const EVENT := WelcomeEvent("u", "n", "e")

  /** Outbox row 1 is claimed by hand 0 and not published yet. */
  ghost predicate InHand(s: In.State) {
    && s.table == In.Table(map[], map[], []) && s.copies == []
    && In.HandAt(s.u, 0, In.Holding) && s.u.hands[0].outboxId == 1 && s.u.outbox[1].payload == EVENT
  }

  /** The row is marked published and all there is of its event is one copy, at this place. */
  ghost predicate Travelling(s: In.State, place: In.Place, deaths: nat) {
    && s.table == In.Table(map[], map[], []) && s.copies == [In.Copy(EVENT, place, deaths)] && Marked(s)
  }

  predicate Marked(s: In.State) {
    1 in s.u.outbox && s.u.outbox[1].payload == EVENT && StateOf(s.u.outbox[1]).Published?
  }

  lemma ClaimedRow(cfg: In.Config, now: Time, bound: In.Bindings) returns (ias: seq<In.Action>)
    ensures NoIngest(ias) && Possible(cfg, now, In.Initial(bound), ias) && Reliant(bound, ias)
            && BoundBy(bound, ias) == bound
    ensures var s := Result(cfg, now, In.Initial(bound), ias); InHand(s) && s.bound == bound
  {
    var create, claim := In.OfUsers(In.CreateUser("u", "n", 1, "e")), In.OfUsers(In.Claim(1));
    One(cfg, now, In.Initial(bound), create);
    More(cfg, now, In.Initial(bound), [create], claim);
    ias := [create] + [claim];
    RelyFirst(bound, claim, []);
    RelyFirst(bound, create, [claim] + []);
    assert ias == [create] + ([claim] + []);
  }

  /** Publish, then mark. */
  lemma PublishAndMark(cfg: In.Config, now: Time, s: In.State) returns (ias: seq<In.Action>)
    requires InHand(s)
    ensures ias == [In.OfUsers(In.Publish(0)), In.OfUsers(In.MarkPublished(0))] && Possible(cfg, now, s, ias)
    ensures var t := Result(cfg, now, s, ias);
            && t.bound == s.bound && t.table == s.table && Marked(t)
            && t.copies == In.Routed(s.bound, EVENT)
  {
    var publish, mark := In.OfUsers(In.Publish(0)), In.OfUsers(In.MarkPublished(0));
    One(cfg, now, s, publish);
    More(cfg, now, s, [publish], mark);
    ias := [publish] + [mark];
  }

  lemma CopyMoves(cfg: In.Config, now: Time, s: In.State, place: In.Place, deaths: nat, ba: In.BrokerAction)
    requires Travelling(s, place, deaths) && ba in {In.Deliver, In.Reject, In.RetryExpires, In.DeadLetter}
    requires In.CopyEnabled(cfg, s.table, s.copies[0], ba)
    ensures In.Enabled(cfg, now, s, In.OfCopy(0, ba))
    ensures var t := In.Next(cfg, now, s, In.OfCopy(0, ba));
            && t.bound == s.bound && t.table == s.table && t.u == s.u
            && t.copies == [In.Landing(s.bound, s.copies[0], ba)] + In.Emitted(s.bound, s.copies[0], ba)
  {
  }

  /** n failing deliveries, each rejected and back after the TTL. */
  lemma {:induction false} Laps(cfg: In.Config, now: Time, s: In.State, deaths: nat, n: nat)
      returns (ias: seq<In.Action>)
    requires Travelling(s, In.IngestReady, deaths) && s.bound.ingest && s.bound.retry
    ensures NoIngest(ias) && Possible(cfg, now, s, ias) && Reliant(s.bound, ias) && BoundBy(s.bound, ias) == s.bound
    ensures var t := Result(cfg, now, s, ias); Travelling(t, In.IngestReady, deaths + n) && t.bound == s.bound
    decreases n
  {
    if n == 0 { return []; }
    hide In.Next, In.Enabled, Travelling, Possible, Result, Reliant, BoundBy;
    var lap, after := OneLap(cfg, now, s, deaths);
    var rest := Laps(cfg, now, after, deaths + 1, n - 1);
    Compose(cfg, now, s, lap, rest);
    ReliantComposes(s.bound, lap, rest, s.bound);
    ias := lap + rest;
  }

  lemma OneLap(cfg: In.Config, now: Time, s: In.State, deaths: nat) returns (lap: seq<In.Action>, after: In.State)
    requires Travelling(s, In.IngestReady, deaths) && s.bound.ingest && s.bound.retry
    ensures NoIngest(lap) && Possible(cfg, now, s, lap) && after == Result(cfg, now, s, lap)
    ensures Reliant(s.bound, lap) && BoundBy(s.bound, lap) == s.bound
    ensures Travelling(after, In.IngestReady, deaths + 1) && after.bound == s.bound
  {
    hide In.Next, In.Enabled, Possible, Result, Reliant, BoundBy;
    var deliver, reject, expire := In.OfCopy(0, In.Deliver), In.OfCopy(0, In.Reject), In.OfCopy(0, In.RetryExpires);
    CopyMoves(cfg, now, s, In.IngestReady, deaths, In.Deliver);
    var s1 := In.Next(cfg, now, s, deliver);
    CopyMoves(cfg, now, s1, In.IngestUnacked, deaths, In.Reject);
    var s2 := In.Next(cfg, now, s1, reject);
    CopyMoves(cfg, now, s2, In.RetryWaiting, deaths + 1, In.RetryExpires);
    after := In.Next(cfg, now, s2, expire);
    One(cfg, now, s, deliver);
    More(cfg, now, s, [deliver], reject);
    More(cfg, now, s, [deliver] + [reject], expire);
    lap := [deliver] + [reject] + [expire];
    LapRelies(s.bound, lap);
  }

  lemma LapRelies(bound: In.Bindings, lap: seq<In.Action>)
    requires bound.ingest && bound.retry
    requires lap == [In.OfCopy(0, In.Deliver), In.OfCopy(0, In.Reject), In.OfCopy(0, In.RetryExpires)]
    ensures Reliant(bound, lap) && BoundBy(bound, lap) == bound
  {
    RelyFirst(bound, lap[2], []);
    RelyFirst(bound, lap[1], [lap[2]] + []);
    RelyFirst(bound, lap[0], [lap[1]] + ([lap[2]] + []));
    assert lap == [lap[0]] + ([lap[1]] + ([lap[2]] + []));
  }

  /** An action that binds nothing, and finds what it relies on. */
  lemma RelyFirst(bound: In.Bindings, a: In.Action, rest: seq<In.Action>)
    requires In.Relied(bound, a) && In.BoundAfter(bound, a) == bound && Reliant(bound, rest)
    ensures Reliant(bound, [a] + rest) && BoundBy(bound, [a] + rest) == BoundBy(bound, rest)
  {
    assert ([a] + rest)[1..] == rest;
  }

  /** The condition of the no-loss theorem holds up to the last action, and that one loses the event. */
  ghost predicate Loses(cfg: Config, now: Time, before: seq<Action>, last: seq<Action>) {
    && BindsFirst(UNBOUND, before)
    && Run(cfg, Start(now, UNBOUND), before + last)
    && var w := End(cfg, Start(now, UNBOUND), before + last);
       1 in w.inbound.u.outbox && StateOf(w.inbound.u.outbox[1]).Published? && !Accounted(w, 1)
  }

  lemma LostWhenGone(cfg: Config, now: Time, before: seq<In.Action>, last: seq<In.Action>)
    requires NoIngest(before + last) && Reliant(UNBOUND, before)
    requires Possible(cfg.Inbound(), now, In.Initial(UNBOUND), before + last)
    requires var t := Result(cfg.Inbound(), now, In.Initial(UNBOUND), before + last);
             Marked(t) && forall m :: 0 <= m < |t.copies| ==> !Alive(t.copies[m].place)
    ensures Loses(cfg, now, Lifted(before), Lifted(last))
  {
    LiftedRun(cfg, Start(now, UNBOUND), before + last);
    assert Lifted(before + last) == Lifted(before) + Lifted(last);
    BindsFirstLifted(UNBOUND, before);
    hide Run, End;
  }

  /** Publish before notifier.ingest is bound: confirmed, marked, nowhere. */
  lemma PublishLoses(cfg: Config, now: Time) returns (before: seq<Action>, last: seq<Action>)
    ensures Loses(cfg, now, before, last)
    ensures last == [OfInbound(In.OfUsers(In.Publish(0))), OfInbound(In.OfUsers(In.MarkPublished(0)))]
  {
    hide In.Next, In.Enabled, Possible, Result, Reliant, BoundBy, Loses;
    var xs := ClaimedRow(cfg.Inbound(), now, UNBOUND);
    var ys := PublishAndMark(cfg.Inbound(), now, Result(cfg.Inbound(), now, In.Initial(UNBOUND), xs));
    Compose(cfg.Inbound(), now, In.Initial(UNBOUND), xs, ys);
    LostWhenGone(cfg, now, xs, ys);
    before, last := Lifted(xs), Lifted(ys);
  }

  /** Bind some queues, then create, claim, publish and mark: one copy waits to be delivered. */
  lemma PublishedRow(cfg: In.Config, now: Time, retry: bool) returns (ias: seq<In.Action>)
    ensures NoIngest(ias) && Possible(cfg, now, In.Initial(UNBOUND), ias) && Reliant(UNBOUND, ias)
    ensures BoundBy(UNBOUND, ias) == In.Bindings(true, retry, false)
    ensures var s := Result(cfg, now, In.Initial(UNBOUND), ias);
            Travelling(s, In.IngestReady, 0) && s.bound == In.Bindings(true, retry, false)
  {
    var bound := In.Bindings(true, retry, false);
    var binds := Binding(cfg, now, retry);
    hide In.Next, In.Enabled, Possible, Result, Reliant, BoundBy;
    var claim := ClaimedRow(cfg, now, bound);
    var claimed := Result(cfg, now, In.Initial(bound), claim);
    Compose(cfg, now, In.Initial(UNBOUND), binds, claim);
    ReliantComposes(UNBOUND, binds, claim, bound);
    var publish := PublishAndMark(cfg, now, claimed);
    PublishRelies(bound, publish);
    Compose(cfg, now, In.Initial(UNBOUND), binds + claim, publish);
    ReliantComposes(UNBOUND, binds + claim, publish, bound);
    ias := binds + claim + publish;
  }

  lemma PublishRelies(bound: In.Bindings, ias: seq<In.Action>)
    requires bound.ingest && ias == [In.OfUsers(In.Publish(0)), In.OfUsers(In.MarkPublished(0))]
    ensures Reliant(bound, ias) && BoundBy(bound, ias) == bound
  {
    RelyFirst(bound, ias[1], []);
    RelyFirst(bound, ias[0], [ias[1]] + []);
    assert ias == [ias[0]] + ([ias[1]] + []);
  }

  lemma Binding(cfg: In.Config, now: Time, retry: bool) returns (ias: seq<In.Action>)
    ensures NoIngest(ias) && Possible(cfg, now, In.Initial(UNBOUND), ias) && Reliant(UNBOUND, ias)
    ensures BoundBy(UNBOUND, ias) == In.Bindings(true, retry, false)
    ensures Result(cfg, now, In.Initial(UNBOUND), ias) == In.Initial(In.Bindings(true, retry, false))
  {
    One(cfg, now, In.Initial(UNBOUND), In.BindIngest);
    ias := [In.BindIngest];
    assert ias[1..] == [];
    if retry {
      More(cfg, now, In.Initial(UNBOUND), ias, In.BindRetry);
      ias := ias + [In.BindRetry];
      assert ias[1..] == [In.BindRetry] && [In.BindRetry][1..] == [];
    }
  }

  lemma LastMove(cfg: Config, now: Time, xs: seq<In.Action>, place: In.Place, deaths: nat, ba: In.BrokerAction)
    requires NoIngest(xs) && Possible(cfg.Inbound(), now, In.Initial(UNBOUND), xs) && Reliant(UNBOUND, xs)
    requires var s := Result(cfg.Inbound(), now, In.Initial(UNBOUND), xs);
             && Travelling(s, place, deaths) && In.CopyEnabled(cfg.Inbound(), s.table, s.copies[0], ba)
             && ((ba == In.Reject && !s.bound.retry) || (ba == In.DeadLetter && !s.bound.dlq))
    ensures Loses(cfg, now, Lifted(xs), Lifted([In.OfCopy(0, ba)]))
  {
    hide In.Next, In.Enabled, Possible, Result, Reliant, Loses;
    var s := Result(cfg.Inbound(), now, In.Initial(UNBOUND), xs);
    CopyMoves(cfg.Inbound(), now, s, place, deaths, ba);
    More(cfg.Inbound(), now, In.Initial(UNBOUND), xs, In.OfCopy(0, ba));
    LostWhenGone(cfg, now, xs, [In.OfCopy(0, ba)]);
  }

  lemma Delivered(cfg: In.Config, now: Time, xs: seq<In.Action>, bound: In.Bindings, deaths: nat)
      returns (ias: seq<In.Action>)
    requires NoIngest(xs) && Possible(cfg, now, In.Initial(UNBOUND), xs) && Reliant(UNBOUND, xs)
             && BoundBy(UNBOUND, xs) == bound
    requires var s := Result(cfg, now, In.Initial(UNBOUND), xs);
             Travelling(s, In.IngestReady, deaths) && s.bound == bound
    ensures NoIngest(ias) && Possible(cfg, now, In.Initial(UNBOUND), ias) && Reliant(UNBOUND, ias)
    ensures var t := Result(cfg, now, In.Initial(UNBOUND), ias);
            Travelling(t, In.IngestUnacked, deaths) && t.bound == bound
  {
    var deliver := In.OfCopy(0, In.Deliver);
    assert Reliant(bound, [deliver]) by { assert [deliver][1..] == []; }
    hide In.Next, In.Enabled, Possible, Result, Reliant;
    CopyMoves(cfg, now, Result(cfg, now, In.Initial(UNBOUND), xs), In.IngestReady, deaths, In.Deliver);
    More(cfg, now, In.Initial(UNBOUND), xs, deliver);
    ReliantComposes(UNBOUND, xs, [deliver], bound);
    ias := xs + [deliver];
  }

  /** Reject a delivery before the retry queue is bound: nacked to an exchange without a binding, nowhere. */
  lemma RejectLoses(cfg: Config, now: Time) returns (before: seq<Action>, last: seq<Action>)
    ensures Loses(cfg, now, before, last) && last == [OfInbound(In.OfCopy(0, In.Reject))]
  {
    var xs := PublishedRow(cfg.Inbound(), now, false);
    var ys := Delivered(cfg.Inbound(), now, xs, In.Bindings(true, false, false), 0);
    LastMove(cfg, now, ys, In.IngestUnacked, 0, In.Reject);
    before, last := Lifted(ys), Lifted([In.OfCopy(0, In.Reject)]);
  }

  /** Dead-letter a delivery before the DLQ is bound, after four laps through a bound retry queue: nowhere. */
  lemma DeadLetterLoses(cfg: Config, now: Time) returns (before: seq<Action>, last: seq<Action>)
    ensures Loses(cfg, now, before, last) && last == [OfInbound(In.OfCopy(0, In.DeadLetter))]
  {
    var bound := In.Bindings(true, true, false);
    var xs := PublishedRow(cfg.Inbound(), now, true);
    var s := Result(cfg.Inbound(), now, In.Initial(UNBOUND), xs);
    hide In.Next, In.Enabled, Possible, Result, Reliant, BoundBy, Loses;
    var laps := Laps(cfg.Inbound(), now, s, 0, In.INGEST_MAX_ATTEMPTS - 1);
    Compose(cfg.Inbound(), now, In.Initial(UNBOUND), xs, laps);
    ReliantComposes(UNBOUND, xs, laps, bound);
    var ys := Delivered(cfg.Inbound(), now, xs + laps, bound, In.INGEST_MAX_ATTEMPTS - 1);
    LastMove(cfg, now, ys, In.IngestUnacked, In.INGEST_MAX_ATTEMPTS - 1, In.DeadLetter);
    before, last := Lifted(ys), Lifted([In.OfCopy(0, In.DeadLetter)]);
  }
}
