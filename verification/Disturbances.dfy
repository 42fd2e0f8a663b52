/**
 The three disturbances that the single-flight theorems exclude, each shown to be one too many: runs at a single
 instant, so that every hop is in time, in which that disturbance alone happens.
 */
module Disturbances {
  import opened Common
  import opened TypeCatalog
  import opened Notifications
  import opened Delivery
  import opened DeliveryInvariants
  import opened SingleFlight
  import opened TimedRuns

  /** Any run at one instant. */
  predicate Playable(cfg: Config, now: Time, c: Cell, actions: seq<Action>)
    decreases |actions|
  {
    actions == [] || (Enabled(cfg, now, c, actions[0])
                      && Playable(cfg, now, Next(cfg, now, c, actions[0]), actions[1..]))
  }

  function Play(cfg: Config, now: Time, c: Cell, actions: seq<Action>): Cell
    requires Playable(cfg, now, c, actions)
    decreases |actions|
  {
    if actions == [] then c else Play(cfg, now, Next(cfg, now, c, actions[0]), actions[1..])
  }

  lemma PlayFirst(cfg: Config, now: Time, c: Cell, a: Action, rest: seq<Action>)
    requires Enabled(cfg, now, c, a) && Playable(cfg, now, Next(cfg, now, c, a), rest)
    ensures Playable(cfg, now, c, [a] + rest)
            && Play(cfg, now, c, [a] + rest) == Play(cfg, now, Next(cfg, now, c, a), rest)
  {
    assert ([a] + rest)[1..] == rest;
  }

  // ---------------------------------------------------------------- calm steps and disturbances

  datatype Disturbance = LateCrash | HandedBack | Doubled

  /** This step is a disturbance of that kind. */
  predicate Disturbs(kind: Disturbance, c: Cell, a: Action) {
    match kind
    case LateCrash => a.Redeliver? && a.i < |c.stages| && (c.stages[a.i].RetryPending? || c.stages[a.i] == AwaitAck)
    case HandedBack => a.HandBack?
    case Doubled => a.Resend?
  }

  /** A step by which no process dies, no message is lost, handed back or published again. */
  predicate Calm(a: Action) {
    !a.TickDies? && !a.Redeliver? && !a.Drop? && !a.HandBack? && !a.Resend?
  }

  /** The timing assumptions exclude exactly the three. */
  lemma TimelyIsUndisturbed(c: Cell, a: Action)
    ensures Timely(c, a) <==> forall kind: Disturbance :: !Disturbs(kind, c, a)
  {
    if !Timely(c, a) {
      assert Disturbs(LateCrash, c, a) || Disturbs(HandedBack, c, a) || Disturbs(Doubled, c, a);
    }
  }

  /** Nothing but calm steps and disturbances of one kind. */
  predicate Only(kind: Disturbance, cfg: Config, now: Time, c: Cell, actions: seq<Action>)
    requires Playable(cfg, now, c, actions)
    decreases |actions|
  {
    actions != [] ==>
      && (Calm(actions[0]) || Disturbs(kind, c, actions[0]))
      && Only(kind, cfg, now, Next(cfg, now, c, actions[0]), actions[1..])
  }

  lemma {:induction false} OnlyCalm(kind: Disturbance, cfg: Config, now: Time, c: Cell, actions: seq<Action>)
    requires Playable(cfg, now, c, actions) && forall a :: a in actions ==> Calm(a)
    ensures Only(kind, cfg, now, c, actions)
    decreases |actions|
  {
    hide Next, Enabled;
    if actions != [] {
      assert actions[0] in actions && forall a :: a in actions[1..] ==> a in actions;
      OnlyCalm(kind, cfg, now, Next(cfg, now, c, actions[0]), actions[1..]);
    }
  }

  lemma OnlyFirst(kind: Disturbance, cfg: Config, now: Time, c: Cell, a: Action, rest: seq<Action>)
    requires Enabled(cfg, now, c, a) && (Calm(a) || Disturbs(kind, c, a))
    requires Playable(cfg, now, Next(cfg, now, c, a), rest) && Only(kind, cfg, now, Next(cfg, now, c, a), rest)
    ensures Playable(cfg, now, c, [a] + rest) && Only(kind, cfg, now, c, [a] + rest)
  {
    assert ([a] + rest)[1..] == rest;
  }

  lemma {:induction false} OnlyComposes(kind: Disturbance, cfg: Config, now: Time, c: Cell, xs: seq<Action>,
                                        ys: seq<Action>)
    requires Playable(cfg, now, c, xs) && Only(kind, cfg, now, c, xs)
    requires var d := Play(cfg, now, c, xs); Playable(cfg, now, d, ys) && Only(kind, cfg, now, d, ys)
    ensures Playable(cfg, now, c, xs + ys) && Only(kind, cfg, now, c, xs + ys)
    decreases |xs|
  {
    hide Next, Enabled;
    if xs == [] {
      assert xs + ys == ys;
    } else {
      OnlyComposes(kind, cfg, now, Next(cfg, now, c, xs[0]), xs[1..], ys);
      assert (xs + ys)[1..] == xs[1..] + ys;
    }
  }

  // ---------------------------------------------------------------- one handler call

  /** What one handler call leaves: the verdict, its history row and the POST; the message waits for retry or ack. */
  ghost predicate Attempted(cfg: Config, now: Time, c: Cell, d: Cell, i: nat, v: Row, outcome: Outcome)
    requires i < |c.stages| && ValidParams(v.key.kind, v.params)
  {
    && d.row == AttemptRow(c.row, outcome, MaxAttempts(cfg), now)
    && d.past == c.past + [d.row] && d.orphans == c.orphans
    && d.posts == c.posts + [Post(now, v.id, Render(v.key.kind, v.params), outcome.Delivered?)]
    && d.history == c.history + [if outcome.Delivered? then PUSH_SENT else PUSH_ATTEMPT]
    && d.stages == c.stages[i := match AttemptVerdict(c.row, outcome, MaxAttempts(cfg))
                                 case Retry(attempts) => RetryPending(attempts)
                                 case _ => AwaitAck]
  }

  lemma AttemptedCell(cfg: Config, now: Time, c: Cell, i: nat, v: Row, outcome: Outcome)
    requires i < |c.stages| && c.stages[i] == Ready && v in c.past && v.status == PROCESSING
    requires EntryFor(cfg.catalog, v.key.kind).Some? && ValidParams(v.key.kind, v.params)
    ensures Enabled(cfg, now, c, Guard(i, v))
    ensures var c1 := Next(cfg, now, c, Guard(i, v));
            && Enabled(cfg, now, c1, Send(i, outcome))
            && var c2 := Next(cfg, now, c1, Send(i, outcome));
            && Enabled(cfg, now, c2, CommitVerdict(i))
            && Attempted(cfg, now, c, Next(cfg, now, c2, CommitVerdict(i)), i, v, outcome)
  {
  }

  /** One delivery that passes the guard on version v and gets the given answer: the effect of one handler call. */
  lemma Attempt(cfg: Config, now: Time, c: Cell, i: nat, v: Row, outcome: Outcome)
      returns (actions: seq<Action>, d: Cell)
    requires i < |c.stages| && c.stages[i] == Ready && v in c.past && v.status == PROCESSING
    requires EntryFor(cfg.catalog, v.key.kind).Some? && ValidParams(v.key.kind, v.params)
    ensures Playable(cfg, now, c, actions) && d == Play(cfg, now, c, actions)
    ensures Attempted(cfg, now, c, d, i, v, outcome) && forall a :: a in actions ==> Calm(a)
  {
    hide Next, Enabled, Playable, Play, Attempted;
    AttemptedCell(cfg, now, c, i, v, outcome);
    var c1 := Next(cfg, now, c, Guard(i, v));
    var c2 := Next(cfg, now, c1, Send(i, outcome));
    d := Next(cfg, now, c2, CommitVerdict(i));
    PlayNothing(cfg, now, d);
    PlayFirst(cfg, now, c2, CommitVerdict(i), []);
    PlayFirst(cfg, now, c1, Send(i, outcome), [CommitVerdict(i)] + []);
    PlayFirst(cfg, now, c, Guard(i, v), [Send(i, outcome)] + ([CommitVerdict(i)] + []));
    actions := [Guard(i, v)] + ([Send(i, outcome)] + ([CommitVerdict(i)] + []));
  }

  lemma PlayNothing(cfg: Config, now: Time, c: Cell)
    ensures Playable(cfg, now, c, []) && Play(cfg, now, c, []) == c
  {
  }

  lemma {:induction false} PlaysCompose(cfg: Config, now: Time, c: Cell, xs: seq<Action>, ys: seq<Action>)
    requires Playable(cfg, now, c, xs) && Playable(cfg, now, Play(cfg, now, c, xs), ys)
    ensures Playable(cfg, now, c, xs + ys) && Play(cfg, now, c, xs + ys) == Play(cfg, now, Play(cfg, now, c, xs), ys)
    decreases |xs|
  {
    hide Next, Enabled;
    if xs == [] {
      assert xs + ys == ys;
    } else {
      PlaysCompose(cfg, now, Next(cfg, now, c, xs[0]), xs[1..], ys);
      assert (xs + ys)[1..] == xs[1..] + ys;
    }
  }

  /** Message 0 can be delivered again, on a version v of the row that a stale replica still shows as PROCESSING. */
  ghost predicate Deliverable(cfg: Config, c: Cell, v: Row) {
    && |c.stages| > 0 && c.stages[0] == Ready && 0 !in c.orphans && v in c.past && v.status == PROCESSING
    && EntryFor(cfg.catalog, v.key.kind).Some? && ValidParams(v.key.kind, v.params)
  }

  // ---------------------------------------------------------------- the opening of every witness

  lemma Opening(cfg: Config) returns (actions: seq<Action>, c: Cell)
    requires WellFormed(cfg)
    ensures Playable(cfg, 0, NewCell(SampleRow()), actions) && c == Play(cfg, 0, NewCell(SampleRow()), actions)
    ensures Deliverable(cfg, c, c.row) && c.row.attempts == 0 && |c.stages| == 1 && c.tally.published == 1
    ensures forall a :: a in actions ==> Calm(a)
  {
    hide Next, Enabled, Playable, Play;
    OpenedCell(cfg);
    var c0 := NewCell(SampleRow());
    var c1 := Next(cfg, 0, c0, Claim);
    var c2 := Next(cfg, 0, c1, LogClaim(0));
    c := Next(cfg, 0, c2, Dispatch(0));
    PlayNothing(cfg, 0, c);
    PlayFirst(cfg, 0, c2, Dispatch(0), []);
    PlayFirst(cfg, 0, c1, LogClaim(0), [Dispatch(0)] + []);
    PlayFirst(cfg, 0, c0, Claim, [LogClaim(0)] + ([Dispatch(0)] + []));
    actions := [Claim] + ([LogClaim(0)] + ([Dispatch(0)] + []));
  }

  lemma OpenedCell(cfg: Config)
    requires WellFormed(cfg)
    ensures var c0 := NewCell(SampleRow());
            && Enabled(cfg, 0, c0, Claim)
            && var c1 := Next(cfg, 0, c0, Claim);
            && Enabled(cfg, 0, c1, LogClaim(0))
            && var c2 := Next(cfg, 0, c1, LogClaim(0));
            && Enabled(cfg, 0, c2, Dispatch(0))
            && var c := Next(cfg, 0, c2, Dispatch(0));
            && Deliverable(cfg, c, c.row) && c.row.attempts == 0 && |c.stages| == 1 && c.tally.published == 1
  {
  }

  // ---------------------------------------------------------------- crashes between verdict and ack

  lemma CrashedCell(cfg: Config, c: Cell, d: Cell, v: Row, outcome: Outcome)
    requires Deliverable(cfg, c, v) && Attempted(cfg, 0, c, d, 0, v, outcome)
    ensures Enabled(cfg, 0, d, Redeliver(0)) && Disturbs(LateCrash, d, Redeliver(0))
    ensures var e := Next(cfg, 0, d, Redeliver(0));
            Deliverable(cfg, e, v) && e.row == AttemptRow(c.row, outcome, MaxAttempts(cfg), 0)
  {
  }

  /** A handler call, and a crash before its retry is published or its ack is taken. */
  lemma AttemptAndCrash(cfg: Config, c: Cell, v: Row, outcome: Outcome) returns (actions: seq<Action>, e: Cell)
    requires Deliverable(cfg, c, v)
    ensures Playable(cfg, 0, c, actions) && e == Play(cfg, 0, c, actions) && Only(LateCrash, cfg, 0, c, actions)
    ensures Deliverable(cfg, e, v) && e.row == AttemptRow(c.row, outcome, MaxAttempts(cfg), 0)
  {
    var xs, d := Attempt(cfg, 0, c, 0, v, outcome);
    CrashedCell(cfg, c, d, v, outcome);
    hide Next, Enabled, Playable, Play, Attempted, Deliverable, Only, Disturbs;
    e := Next(cfg, 0, d, Redeliver(0));
    PlayNothing(cfg, 0, e);
    OnlyCalm(LateCrash, cfg, 0, c, xs);
    OnlyCalm(LateCrash, cfg, 0, e, []);
    PlayFirst(cfg, 0, d, Redeliver(0), []);
    OnlyFirst(LateCrash, cfg, 0, d, Redeliver(0), []);
    PlaysCompose(cfg, 0, c, xs, [Redeliver(0)] + []);
    OnlyComposes(LateCrash, cfg, 0, c, xs, [Redeliver(0)] + []);
    actions := xs + ([Redeliver(0)] + []);
  }

  /** n deliveries in a row, each refused, each followed by such a crash. */
  lemma {:induction false} FailAndCrash(cfg: Config, c: Cell, v: Row, n: nat) returns (actions: seq<Action>, d: Cell)
    requires WellFormed(cfg) && Deliverable(cfg, c, v) && c.row.attempts + n < MaxAttempts(cfg)
    ensures Playable(cfg, 0, c, actions) && d == Play(cfg, 0, c, actions) && Only(LateCrash, cfg, 0, c, actions)
    ensures Deliverable(cfg, d, v) && d.row.attempts == c.row.attempts + n
    decreases n
  {
    hide Next, Enabled, Playable, Play, Deliverable, Only;
    if n == 0 {
      PlayNothing(cfg, 0, c);
      OnlyCalm(LateCrash, cfg, 0, c, []);
      return [], c;
    }
    var xs, e := AttemptAndCrash(cfg, c, v, Refused("timeout"));
    var ys;
    ys, d := FailAndCrash(cfg, e, v, n - 1);
    PlaysCompose(cfg, 0, c, xs, ys);
    OnlyComposes(LateCrash, cfg, 0, c, xs, ys);
    actions := xs + ys;
  }

  /**
   Whatever the configuration, crashes between verdict and ack, and nothing else, can turn a SENT row FAILED: no
   timing condition replaces that assumption.
   */
  lemma CrashBeforeAckUndoesSent(cfg: Config) returns (toSent: seq<Action>, toFailed: seq<Action>)
    requires WellFormed(cfg)
    ensures Playable(cfg, 0, NewCell(SampleRow()), toSent) && Only(LateCrash, cfg, 0, NewCell(SampleRow()), toSent)
    ensures var sent := Play(cfg, 0, NewCell(SampleRow()), toSent);
            && sent.row.status == SENT
            && Playable(cfg, 0, sent, [Redeliver(0)] + toFailed)
            && Only(LateCrash, cfg, 0, sent, [Redeliver(0)] + toFailed)
            && Play(cfg, 0, sent, [Redeliver(0)] + toFailed).row.status == FAILED
            && Disturbs(LateCrash, sent, Redeliver(0)) && forall a :: a in toFailed ==> Calm(a)
  {
    var start := NewCell(SampleRow());
    var opening, ready := Opening(cfg);
    var worn, tired := FailAndCrash(cfg, ready, ready.row, MaxAttempts(cfg) - 1);
    var v := ready.row;
    var first, sent := Attempt(cfg, 0, tired, 0, v, Delivered);
    CrashedCell(cfg, tired, sent, v, Delivered);
    var again := Next(cfg, 0, sent, Redeliver(0));
    var failed;
    toFailed, failed := Attempt(cfg, 0, again, 0, v, Refused("timeout"));
    assert sent.row.status == SENT && failed.row.status == FAILED;
    hide Next, Enabled, Playable, Play, Attempted, Deliverable, Only, Disturbs;
    OnlyCalm(LateCrash, cfg, 0, start, opening);
    OnlyCalm(LateCrash, cfg, 0, tired, first);
    OnlyCalm(LateCrash, cfg, 0, again, toFailed);
    PlaysCompose(cfg, 0, ready, worn, first);
    OnlyComposes(LateCrash, cfg, 0, ready, worn, first);
    PlaysCompose(cfg, 0, start, opening, worn + first);
    OnlyComposes(LateCrash, cfg, 0, start, opening, worn + first);
    PlayFirst(cfg, 0, sent, Redeliver(0), toFailed);
    OnlyFirst(LateCrash, cfg, 0, sent, Redeliver(0), toFailed);
    toSent := opening + (worn + first);
  }

  // ---------------------------------------------------------------- handlers that outlive their deliveries

  /**
   The channel closes under a handler whose POST was refused; the
   message is Ready again, the verdict still to come.
   */
  lemma Orphaned(cfg: Config, c: Cell, v: Row) returns (actions: seq<Action>, d: Cell)
    requires WellFormed(cfg) && Deliverable(cfg, c, v)
    ensures Playable(cfg, 0, c, actions) && d == Play(cfg, 0, c, actions)
    ensures Deliverable(cfg, d, v)
    ensures d.row == c.row && d.past == c.past && d.orphans == c.orphans + {|c.stages|}
    ensures d.stages == c.stages + [Posted(v, Refused("timeout"))]
    ensures actions == [Guard(0, v)] + ([Send(0, Refused("timeout"))] + ([HandBack(0)] + []))
  {
    hide Next, Enabled, Playable, Play, Deliverable;
    OrphanedCell(cfg, c, v);
    var c1 := Next(cfg, 0, c, Guard(0, v));
    var c2 := Next(cfg, 0, c1, Send(0, Refused("timeout")));
    d := Next(cfg, 0, c2, HandBack(0));
    PlayNothing(cfg, 0, d);
    PlayFirst(cfg, 0, c2, HandBack(0), []);
    PlayFirst(cfg, 0, c1, Send(0, Refused("timeout")), [HandBack(0)] + []);
    PlayFirst(cfg, 0, c, Guard(0, v), [Send(0, Refused("timeout"))] + ([HandBack(0)] + []));
    actions := [Guard(0, v)] + ([Send(0, Refused("timeout"))] + ([HandBack(0)] + []));
  }

  lemma OrphanedCell(cfg: Config, c: Cell, v: Row)
    requires WellFormed(cfg) && Deliverable(cfg, c, v)
    ensures Enabled(cfg, 0, c, Guard(0, v))
    ensures var c1 := Next(cfg, 0, c, Guard(0, v));
            && Enabled(cfg, 0, c1, Send(0, Refused("timeout")))
            && var c2 := Next(cfg, 0, c1, Send(0, Refused("timeout")));
            && Enabled(cfg, 0, c2, HandBack(0))
            && var d := Next(cfg, 0, c2, HandBack(0));
            && Deliverable(cfg, d, v) && d.row == c.row && d.past == c.past
            && d.orphans == c.orphans + {|c.stages|}
            && d.stages == c.stages + [Posted(v, Refused("timeout"))]
  {
  }

  /** n such handlers pile up. */
  lemma {:induction false} PileUp(cfg: Config, c: Cell, v: Row, n: nat) returns (actions: seq<Action>, d: Cell)
    requires WellFormed(cfg) && Deliverable(cfg, c, v)
    ensures Playable(cfg, 0, c, actions) && d == Play(cfg, 0, c, actions)
    ensures Deliverable(cfg, d, v) && d.row == c.row && |d.stages| == |c.stages| + n
    ensures d.stages[..|c.stages|] == c.stages
    ensures forall k :: |c.stages| <= k < |d.stages| ==> d.stages[k] == Posted(v, Refused("timeout"))
    ensures forall a :: a in actions ==> Calm(a) || a.HandBack?
    decreases n
  {
    hide Next, Enabled, Deliverable, Playable, Play;
    if n == 0 {
      PlayNothing(cfg, 0, c);
      return [], c;
    }
    var xs, e := Orphaned(cfg, c, v);
    var ys;
    ys, d := PileUp(cfg, e, v, n - 1);
    PlaysCompose(cfg, 0, c, xs, ys);
    assert d.stages[|c.stages|] == d.stages[..|e.stages|][|c.stages|];
    assert d.stages[..|c.stages|] == d.stages[..|e.stages|][..|c.stages|];
    actions := xs + ys;
  }

  /** Their verdicts land on a SENT row; the last of them fails it. */
  lemma {:induction false} LateVerdicts(cfg: Config, c: Cell, v: Row, first: nat)
      returns (actions: seq<Action>, d: Cell)
    requires WellFormed(cfg) && EntryFor(cfg.catalog, v.key.kind).Some?
    requires first < |c.stages| && c.row.attempts + (|c.stages| - first) == MaxAttempts(cfg) && c.row.status == SENT
    requires forall k :: first <= k < |c.stages| ==> c.stages[k] == Posted(v, Refused("timeout"))
    ensures Playable(cfg, 0, c, actions) && d == Play(cfg, 0, c, actions) && d.row.status == FAILED
    ensures forall a :: a in actions ==> Calm(a)
    decreases |c.stages| - first
  {
    var a := CommitVerdict(first);
    var e := Next(cfg, 0, c, a);
    var rest;
    if first + 1 == |c.stages| {
      rest, d := [], e;
    } else {
      rest, d := LateVerdicts(cfg, e, v, first + 1);
    }
    PlayFirst(cfg, 0, c, a, rest);
    actions := [a] + rest;
  }

  /**
   Whatever the configuration, handlers that outlive their deliveries can turn a SENT row FAILED at a single
   instant, although no process dies and nothing is lost or doubled.
   */
  lemma HandBackUndoesSent(cfg: Config) returns (toSent: seq<Action>, toFailed: seq<Action>)
    requires WellFormed(cfg)
    ensures Playable(cfg, 0, NewCell(SampleRow()), toSent)
    ensures var sent := Play(cfg, 0, NewCell(SampleRow()), toSent);
            && sent.row.status == SENT
            && Playable(cfg, 0, sent, toFailed) && Play(cfg, 0, sent, toFailed).row.status == FAILED
    ensures (forall a :: a in toSent ==> Calm(a) || a.HandBack?) && forall a :: a in toFailed ==> Calm(a)
  {
    var opening, ready := Opening(cfg);
    var v := ready.row;
    var pile, piled := PileUp(cfg, ready, v, MaxAttempts(cfg));
    var first, sent := Attempt(cfg, 0, piled, 0, v, Delivered);
    var failed;
    toFailed, failed := LateVerdicts(cfg, sent, v, 1);
    PlaysCompose(cfg, 0, ready, pile, first);
    PlaysCompose(cfg, 0, NewCell(SampleRow()), opening, pile + first);
    toSent := opening + (pile + first);
  }

  /** One is enough to end single flight: a calm run and a single hand-back leave two live messages. */
  lemma HandBackRaces(cfg: Config) returns (calm: seq<Action>)
    requires WellFormed(cfg)
    ensures (forall a :: a in calm ==> Calm(a)) && Playable(cfg, 0, NewCell(SampleRow()), calm + [HandBack(0)])
    ensures !SingleInFlight(Play(cfg, 0, NewCell(SampleRow()), calm + [HandBack(0)]))
  {
    var opening, ready := Opening(cfg);
    var v := ready.row;
    var xs, d := Orphaned(cfg, ready, v);
    assert Live(d.stages[0]) && Live(d.stages[1]);
    hide Next, Enabled, Playable, Play, Deliverable;
    PlaysCompose(cfg, 0, NewCell(SampleRow()), opening, xs);
    calm := opening + [Guard(0, v), Send(0, Refused("timeout"))];
    assert calm + [HandBack(0)] == opening + xs;
  }

  // ---------------------------------------------------------------- publishes that a producer repeats

  /** A calm run and a single repeated publish: the message is twice under way, each copy within its hop. */
  lemma ResendRaces(cfg: Config) returns (calm: seq<Action>)
    requires WellFormed(cfg)
    ensures (forall a :: a in calm ==> Calm(a)) && Playable(cfg, 0, NewCell(SampleRow()), calm + [Resend(0)])
    ensures !SingleInFlight(Play(cfg, 0, NewCell(SampleRow()), calm + [Resend(0)]))
  {
    var ready;
    calm, ready := Opening(cfg);
    var d := Next(cfg, 0, ready, Resend(0));
    assert Live(d.stages[0]) && Live(d.stages[1]);
    hide Next, Playable, Play, Deliverable;
    PlayNothing(cfg, 0, d);
    PlayFirst(cfg, 0, ready, Resend(0), []);
    assert [Resend(0)] + [] == [Resend(0)];
    PlaysCompose(cfg, 0, NewCell(SampleRow()), calm, [Resend(0)]);
  }
}
