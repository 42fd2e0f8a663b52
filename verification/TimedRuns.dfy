/** Timed runs of one notification, and the exact condition under which single flight holds on all of them. */
module TimedRuns {
  import opened Common
  import opened TypeCatalog
  import opened Notifications
  import opened Delivery
  import opened DeliveryInvariants
  import opened SingleFlight

  datatype Happening = Do(a: Action) | Elapse(ms: nat)

  datatype Moment = Moment(now: Time, cell: Cell)

  /** Time never outruns a hop, and nothing that Timely rules out happens. */
  predicate Allowed(cfg: Config, hop: nat, m: Moment, h: Happening) {
    match h
    case Do(a) => Enabled(cfg, m.now, m.cell, a) && Timely(m.cell, a)
    case Elapse(ms) => HopsHold(hop, m.now + ms, m.cell)
  }

  function Then(cfg: Config, hop: nat, m: Moment, h: Happening): Moment
    requires Allowed(cfg, hop, m, h)
  {
    match h
    case Do(a) => m.(cell := Next(cfg, m.now, m.cell, a))
    case Elapse(ms) => m.(now := m.now + ms)
  }

  predicate TimedRun(cfg: Config, hop: nat, m: Moment, hs: seq<Happening>)
    decreases |hs|
  {
    hs == [] || (Allowed(cfg, hop, m, hs[0]) && TimedRun(cfg, hop, Then(cfg, hop, m, hs[0]), hs[1..]))
  }

  function After(cfg: Config, hop: nat, m: Moment, hs: seq<Happening>): Moment
    requires TimedRun(cfg, hop, m, hs)
    decreases |hs|
  {
    if hs == [] then m else After(cfg, hop, Then(cfg, hop, m, hs[0]), hs[1..])
  }

  /** A row as ingest inserts it. */
  predicate Fresh(cfg: Config, r: Row) {
    && r == NewRow(r.id, r.key, r.recipient, r.params, r.channel, r.scheduledFor)
    && EntryFor(cfg.catalog, r.key.kind).Some? && ValidParams(r.key.kind, r.params)
  }

  ghost predicate SingleInFlight(c: Cell) {
    && (forall i, j :: 0 <= i < |c.stages| && 0 <= j < |c.stages| && Live(c.stages[i]) && Live(c.stages[j]) ==> i == j)
    && (forall i :: 0 <= i < |c.stages| && Live(c.stages[i]) ==> c.row.status == PROCESSING)
  }

  // ---------------------------------------------------------------- the condition suffices

  lemma {:induction false} FlightOverRun(cfg: Config, hop: nat, m: Moment, hs: seq<Happening>)
    requires WellFormed(cfg) && Chain(cfg, hop) <= cfg.recoveryThresholdMs
    requires Flight(cfg, hop, m.now, m.cell) && TimedRun(cfg, hop, m, hs)
    ensures var e := After(cfg, hop, m, hs); Flight(cfg, hop, e.now, e.cell)
    ensures m.cell.row.status == SENT ==> After(cfg, hop, m, hs).cell.row == m.cell.row
    decreases |hs|
  {
    if hs != [] {
      var n := Then(cfg, hop, m, hs[0]);
      match hs[0] {
        case Do(a) =>
          FlightKept(cfg, hop, m.now, m.cell, a);
          TerminalStates(cfg, hop, m.now, m.cell, a);
        case Elapse(ms) =>
          FlightWhileTimePasses(cfg, hop, m.now, m.now + ms, m.cell);
      }
      FlightOverRun(cfg, hop, n, hs[1..]);
    }
  }

  /** On every timed run: one message under way at most, only while PROCESSING, attempts capped, SENT final. */
  lemma SingleFlightSuffices(cfg: Config, hop: nat, now: Time, r: Row, before: seq<Happening>, after: seq<Happening>)
    requires WellFormed(cfg) && Fresh(cfg, r) && Chain(cfg, hop) <= cfg.recoveryThresholdMs
    requires TimedRun(cfg, hop, Moment(now, NewCell(r)), before)
    requires TimedRun(cfg, hop, After(cfg, hop, Moment(now, NewCell(r)), before), after)
    ensures var m := After(cfg, hop, Moment(now, NewCell(r)), before);
            && SingleInFlight(m.cell)
            && m.cell.row.attempts <= MaxAttempts(cfg)
            && (m.cell.row.status == SENT ==> After(cfg, hop, m, after).cell.row == m.cell.row)
  {
    FreshFlight(cfg, hop, now, r);
    FlightOverRun(cfg, hop, Moment(now, NewCell(r)), before);
    var m := After(cfg, hop, Moment(now, NewCell(r)), before);
    FlightOverRun(cfg, hop, m, after);
    forall i | 0 <= i < |m.cell.stages| && Live(m.cell.stages[i]) ensures m.cell.row.status == PROCESSING {
      assert InFlight(cfg, hop, m.now, m.cell, i);
    }
  }

  // ---------------------------------------------------------------- the condition is needed

  lemma {:induction false} RunsCompose(cfg: Config, hop: nat, m: Moment, xs: seq<Happening>, ys: seq<Happening>)
    requires TimedRun(cfg, hop, m, xs) && TimedRun(cfg, hop, After(cfg, hop, m, xs), ys)
    ensures TimedRun(cfg, hop, m, xs + ys)
    ensures After(cfg, hop, m, xs + ys) == After(cfg, hop, After(cfg, hop, m, xs), ys)
    decreases |xs|
  {
    if xs == [] {
      assert xs + ys == ys;
    } else {
      RunsCompose(cfg, hop, Then(cfg, hop, m, xs[0]), xs[1..], ys);
      assert (xs + ys)[1..] == xs[1..] + ys;
    }
  }

  lemma OneMore(cfg: Config, hop: nat, m: Moment, h: Happening)
    requires Allowed(cfg, hop, m, h)
    ensures TimedRun(cfg, hop, m, [h]) && After(cfg, hop, m, [h]) == Then(cfg, hop, m, h)
  {
    assert [h][1..] == [];
  }

  /** Message i, alone under way, is about to be delivered on a chain that uses its budget to the full. */
  ghost predicate Riding(cfg: Config, hop: nat, m: Moment, i: nat, start: Time) {
    var c := m.cell;
    && i < |c.stages| == |c.hops| && c.stages[i] == Ready
    && (forall j :: 0 <= j < |c.stages| && j != i ==> !Live(c.stages[j]))
    && c.hops[i] <= m.now <= c.hops[i] + hop
    && Claimed(cfg, c, start)
    && c.row.attempts < MaxAttempts(cfg)
    && c.hops[i] + Tail(cfg, hop, c.row.attempts) == start + Chain(cfg, hop)
  }

  ghost predicate Claimed(cfg: Config, c: Cell, start: Time) {
    && c.row.status == PROCESSING && c.row.processingStartedAt == Some(start) && c.row.redriveCount == 0
    && c.row in c.past && EntryFor(cfg.catalog, c.row.key.kind).Some? && ValidParams(c.row.key.kind, c.row.params)
  }

  /** At `at`, the row still shows its first claim and message i is still under way. */
  ghost predicate Lingering(cfg: Config, m: Moment, i: nat, start: Time, at: Time) {
    m.now == at && i < |m.cell.stages| && Live(m.cell.stages[i]) && Claimed(cfg, m.cell, start)
  }

  /** One full hop that fails: delivered at the last moment, refused, retried, expired at once. */
  lemma FailedHop(cfg: Config, hop: nat, m: Moment, i: nat, start: Time, at: Time)
      returns (hs: seq<Happening>, e: Moment, k: nat, done: bool)
    requires WellFormed(cfg) && Riding(cfg, hop, m, i, start) && m.cell.row.attempts + 1 < MaxAttempts(cfg)
    requires m.cell.hops[i] + hop < at
    ensures TimedRun(cfg, hop, m, hs) && e == After(cfg, hop, m, hs)
    ensures if done then Lingering(cfg, e, k, start, at)
            else Riding(cfg, hop, e, k, start) && e.cell.row.attempts == m.cell.row.attempts + 1 && e.now <= at
  {
    var limit := m.cell.hops[i] + hop;
    var attempts := m.cell.row.attempts + 1;
    k := |m.cell.stages|;
    var m1, h1 := FailAtLimit(cfg, hop, m, i, start);
    WaitNonNegative(cfg, attempts);
    if at <= m1.cell.hops[k] {
      var last := Elapse(at - limit);
      OneMore(cfg, hop, m1, last);
      RunsCompose(cfg, hop, m, h1, [last]);
      hs, e, done := h1 + [last], Then(cfg, hop, m1, last), true;
    } else {
      var pass := Elapse(m1.cell.hops[k] - limit);
      OneMore(cfg, hop, m1, pass);
      var m2 := Then(cfg, hop, m1, pass);
      OneMore(cfg, hop, m2, Do(Expire(k)));
      RunsCompose(cfg, hop, m1, [pass], [Do(Expire(k))]);
      RunsCompose(cfg, hop, m, h1, [pass] + [Do(Expire(k))]);
      hs, e, done := h1 + ([pass] + [Do(Expire(k))]), Then(cfg, hop, m2, Do(Expire(k))), false;
      TailAtLeastHop(cfg, hop, attempts);
    }
  }

  lemma FailAtLimit(cfg: Config, hop: nat, m: Moment, i: nat, start: Time) returns (e: Moment, hs: seq<Happening>)
    requires WellFormed(cfg) && Riding(cfg, hop, m, i, start) && m.cell.row.attempts + 1 < MaxAttempts(cfg)
    ensures TimedRun(cfg, hop, m, hs) && e == After(cfg, hop, m, hs)
    ensures e.now == m.cell.hops[i] + hop && Claimed(cfg, e.cell, start)
    ensures e.cell.row.attempts == m.cell.row.attempts + 1
    ensures |e.cell.stages| == |e.cell.hops| == |m.cell.stages| + 1
    ensures e.cell.stages[|m.cell.stages|] == Waiting
    ensures e.cell.hops[|m.cell.stages|] == e.now + Wait(cfg, m.cell.row.attempts + 1)
    ensures forall j :: 0 <= j < |m.cell.stages| ==> !Live(e.cell.stages[j])
  {
    var wait := Elapse(m.cell.hops[i] + hop - m.now);
    var m1 := Then(cfg, hop, m, wait);
    var guard := Do(Guard(i, m1.cell.row));
    var m2 := Then(cfg, hop, m1, guard);
    var send := Do(Send(i, Refused("webhook returned 503")));
    var m3 := Then(cfg, hop, m2, send);
    var commit := Do(CommitVerdict(i));
    var m4 := Then(cfg, hop, m3, commit);
    var publish := Do(PublishRetry(i));
    var m5 := Then(cfg, hop, m4, publish);
    var ack := Do(Ack(i));
    e := Then(cfg, hop, m5, ack);
    OneMore(cfg, hop, m, wait);
    OneMore(cfg, hop, m1, guard);  RunsCompose(cfg, hop, m, [wait], [guard]);
    OneMore(cfg, hop, m2, send);   RunsCompose(cfg, hop, m, [wait] + [guard], [send]);
    OneMore(cfg, hop, m3, commit); RunsCompose(cfg, hop, m, [wait] + [guard] + [send], [commit]);
    OneMore(cfg, hop, m4, publish); RunsCompose(cfg, hop, m, [wait] + [guard] + [send] + [commit], [publish]);
    OneMore(cfg, hop, m5, ack);    RunsCompose(cfg, hop, m, [wait] + [guard] + [send] + [commit] + [publish], [ack]);
    hs := [wait] + [guard] + [send] + [commit] + [publish] + [ack];
  }

  /** Up to the end of the worst chain there is a timed run that keeps a message under way on the first claim. */
  lemma {:induction false} KeepRiding(cfg: Config, hop: nat, m: Moment, i: nat, start: Time, at: Time)
      returns (hs: seq<Happening>, k: nat)
    requires WellFormed(cfg) && Riding(cfg, hop, m, i, start) && m.now <= at <= start + Chain(cfg, hop)
    ensures TimedRun(cfg, hop, m, hs) && Lingering(cfg, After(cfg, hop, m, hs), k, start, at)
    decreases MaxAttempts(cfg) - m.cell.row.attempts
  {
    if at <= m.cell.hops[i] + hop {
      OneMore(cfg, hop, m, Elapse(at - m.now));
      hs, k := [Elapse(at - m.now)], i;
    } else {
      var first, e, n, done := FailedHop(cfg, hop, m, i, start, at);
      if done {
        hs, k := first, n;
      } else {
        var rest;
        rest, k := KeepRiding(cfg, hop, e, n, start, at);
        RunsCompose(cfg, hop, m, first, rest);
        hs := first + rest;
      }
    }
  }

  /** Claimed, logged and dispatched at once: the message is Ready and its chain has all of its budget. */
  lemma OpenedMoment(cfg: Config, hop: nat, r: Row)
    requires WellFormed(cfg) && Fresh(cfg, r)
    ensures var m0 := Moment(r.scheduledFor, NewCell(r));
            && Allowed(cfg, hop, m0, Do(Claim))
            && var m1 := Then(cfg, hop, m0, Do(Claim));
            && Allowed(cfg, hop, m1, Do(LogClaim(0)))
            && var m2 := Then(cfg, hop, m1, Do(LogClaim(0)));
            && Allowed(cfg, hop, m2, Do(Dispatch(0)))
            && var m3 := Then(cfg, hop, m2, Do(Dispatch(0)));
            m3.now == r.scheduledFor && Riding(cfg, hop, m3, 0, r.scheduledFor)
  {
    TailFitsChain(cfg, hop, 0);
  }

  /** A message still under way past the threshold: the sweep takes its row. */
  lemma SweptWhileLingering(cfg: Config, hop: nat, m: Moment, k: nat, start: Time)
    requires WellFormed(cfg) && Lingering(cfg, m, k, start, start + cfg.recoveryThresholdMs + 1)
    ensures Allowed(cfg, hop, m, Do(SweepToPending))
    ensures !SingleInFlight(Then(cfg, hop, m, Do(SweepToPending)).cell)
  {
    var e := Then(cfg, hop, m, Do(SweepToPending));
    assert Live(e.cell.stages[k]) && e.cell.row.status == PENDING;
  }

  /** A chain longer than the threshold: a timed run that sweeps the row under a message still under way. */
  lemma LongChainRaces(cfg: Config, hop: nat, r: Row) returns (hs: seq<Happening>)
    requires WellFormed(cfg) && Fresh(cfg, r) && Chain(cfg, hop) > cfg.recoveryThresholdMs
    ensures TimedRun(cfg, hop, Moment(r.scheduledFor, NewCell(r)), hs)
    ensures !SingleInFlight(After(cfg, hop, Moment(r.scheduledFor, NewCell(r)), hs).cell)
  {
    hide Next, Enabled, Allowed, Then, TimedRun, After, Riding, Lingering, SingleInFlight, Chain;
    OpenedMoment(cfg, hop, r);
    var start := r.scheduledFor;
    var m0 := Moment(start, NewCell(r));
    var m1 := Then(cfg, hop, m0, Do(Claim));
    var m2 := Then(cfg, hop, m1, Do(LogClaim(0)));
    var m3 := Then(cfg, hop, m2, Do(Dispatch(0)));
    OneMore(cfg, hop, m0, Do(Claim));
    OneMore(cfg, hop, m1, Do(LogClaim(0)));
    OneMore(cfg, hop, m2, Do(Dispatch(0)));
    RunsCompose(cfg, hop, m0, [Do(Claim)], [Do(LogClaim(0))]);
    RunsCompose(cfg, hop, m0, [Do(Claim)] + [Do(LogClaim(0))], [Do(Dispatch(0))]);
    var opening := [Do(Claim)] + [Do(LogClaim(0))] + [Do(Dispatch(0))];
    var ride, k := KeepRiding(cfg, hop, m3, 0, start, start + cfg.recoveryThresholdMs + 1);
    RunsCompose(cfg, hop, m0, opening, ride);
    var m4 := After(cfg, hop, m3, ride);
    SweptWhileLingering(cfg, hop, m4, k, start);
    OneMore(cfg, hop, m4, Do(SweepToPending));
    RunsCompose(cfg, hop, m0, opening + ride, [Do(SweepToPending)]);
    hs := opening + ride + [Do(SweepToPending)];
  }

  const SAMPLE_PARAMS := Obj(map["userId" := Str("u"), "name" := Str("n")])

  function SampleRow(): Row {
    NewRow(1, Key(USER_WELCOME, "e"), Recipient(Some("u"), None, None, None), SAMPLE_PARAMS, Webhook, 0)
  }

  ghost predicate SingleFlightHolds(cfg: Config, hop: nat) {
    forall now: Time, r: Row, hs: seq<Happening> {:trigger TimedRun(cfg, hop, Moment(now, NewCell(r)), hs)} ::
      Fresh(cfg, r) && TimedRun(cfg, hop, Moment(now, NewCell(r)), hs)
      ==> SingleInFlight(After(cfg, hop, Moment(now, NewCell(r)), hs).cell)
  }

  /** Single flight holds on all timed runs exactly when the worst chain fits the recovery threshold. */
  lemma SingleFlightExactly(cfg: Config, hop: nat)
    requires WellFormed(cfg)
    ensures SingleFlightHolds(cfg, hop) <==> Chain(cfg, hop) <= cfg.recoveryThresholdMs
  {
    if Chain(cfg, hop) <= cfg.recoveryThresholdMs {
      forall now: Time, r: Row, hs: seq<Happening> | Fresh(cfg, r) && TimedRun(cfg, hop, Moment(now, NewCell(r)), hs)
        ensures SingleInFlight(After(cfg, hop, Moment(now, NewCell(r)), hs).cell)
      {
        SingleFlightSuffices(cfg, hop, now, r, hs, []);
      }
    } else {
      var r := SampleRow();
      assert Fresh(cfg, r);
      var hs := LongChainRaces(cfg, hop, r);
    }
  }

  /** The condition is not enforced by configuration: with the default threshold it needs at most 9 attempts. */
  lemma DefaultThresholdAdmits(cfg: Config)
    requires WellFormed(cfg) && cfg.recoveryThresholdMs == 300_000
    ensures (exists hop: nat :: Chain(cfg, hop) <= cfg.recoveryThresholdMs) <==> MaxAttempts(cfg) <= 9
    ensures MaxAttempts(cfg) == 5 ==> forall hop: nat :: Chain(cfg, hop) <= cfg.recoveryThresholdMs <==> hop <= 57_000
  {
    var max := MaxAttempts(cfg);
    assert Pow2(8) == 256 && Pow2(9) == 512 && Pow2(4) == 16 by { PowTable(); }
    if max <= 9 {
      Pow2Monotone(max - 1, 8);
      assert Chain(cfg, 0) <= cfg.recoveryThresholdMs;
    } else {
      Pow2Monotone(9, max - 1);
      forall hop: nat ensures Chain(cfg, hop) > cfg.recoveryThresholdMs {
        MulMonotone(hop, 0, max);
      }
    }
  }

  lemma PowTable()
    ensures Pow2(4) == 16 && Pow2(8) == 256 && Pow2(9) == 512
  {
    assert Pow2(2) == 4 && Pow2(4) == 16;
    assert Pow2(6) == 64 && Pow2(8) == 256;
  }

  lemma {:induction false} Pow2Monotone(m: nat, n: nat)
    requires m <= n
    ensures Pow2(m) <= Pow2(n)
    decreases n
  {
    if m < n { Pow2Monotone(m, n - 1); }
  }
}
