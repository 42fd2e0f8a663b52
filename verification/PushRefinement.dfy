/** One call of the push handler, every exit of it, is a run of the pipeline. */
module PushRefinement {
  import opened Common
  import opened TypeCatalog
  import opened Notifications
  import opened Pipeline
  import opened Refinement
  import opened NotificationStore
  import opened StateMachine
  import opened Consumers
  import opened TickRefinement
  import D = Delivery

  /** Only message i of one notification, and its row, history and POSTs, may have changed. */
  predicate OnlyCell(w: World, e: World, id: Id)
    requires id in w.cells
  {
    e.inbound == w.inbound && e.cells.Keys == w.cells.Keys && forall k :: k in w.cells && k != id ==>
          e.cells[k] == w.cells[k]
  }

  /** The message is settled; nothing else happened. */
  predicate Settled(c: D.Cell, d: D.Cell, i: nat)
    requires i < |c.stages|
  {
    d == c.(stages := c.stages[i := D.Gone])
  }

  function OfSeen(cfg: Config, seen: Row): RetryPolicy
    requires EntryFor(cfg.catalog, seen.key.kind).Some?
  {
    EntryFor(cfg.catalog, seen.key.kind).value.retryPolicy
  }

  /** The read shows no row to send for: the message is acknowledged. */
  lemma SkipIsRun(cfg: Config, w: World, id: Id, i: nat, read: Option<Row>) returns (actions: seq<Action>)
    requires id in w.cells && i < |w.cells[id].stages| && w.cells[id].stages[i] == D.Ready
    requires read.Some? ==> read.value in w.cells[id].past && read.value.status != PROCESSING
    ensures Run(cfg, w, actions)
    ensures var e := End(cfg, w, actions);
            e.now == w.now && OnlyCell(w, e, id) && Settled(w.cells[id], e.cells[id], i)
  {
    actions := [OfDelivery(id, D.Skip(i, read))];
    OneAction(cfg, w, actions[0]);
  }

  /** The stored type or parameters no longer pass the catalog: the throw rejects the message, which is dropped. */
  lemma ThrowIsRun(cfg: Config, w: World, id: Id, i: nat) returns (actions: seq<Action>)
    requires id in w.cells && i < |w.cells[id].stages| && w.cells[id].stages[i] == D.Ready
    ensures Run(cfg, w, actions)
    ensures var e := End(cfg, w, actions);
            e.now == w.now && OnlyCell(w, e, id) && Settled(w.cells[id], e.cells[id], i)
  {
    actions := [OfDelivery(id, D.Drop(i))];
    OneAction(cfg, w, actions[0]);
  }

  /** Time passes, then one action on the notification. */
  lemma Step(cfg: Config, w: World, actions: seq<Action>, at: Time, id: Id, da: D.Action) returns (longer: seq<Action>)
    requires Run(cfg, w, actions)
    requires var m := End(cfg, w, actions);
             m.now <= at && id in m.cells && D.Enabled(cfg.Delivery(), at, m.cells[id], da)
    ensures Run(cfg, w, longer)
    ensures var m, e := End(cfg, w, actions), End(cfg, w, longer);
            && e.now == at && OnlyCell(m, e, id)
            && e.cells[id] == D.Next(cfg.Delivery(), at, m.cells[id], da)
  {
    hide D.Enabled, D.Next, Run, End;
    var m := End(cfg, w, actions);
    Then(cfg, w, actions, Elapse(at - m.now));
    Then(cfg, w, actions + [Elapse(at - m.now)], OfDelivery(id, da));
    longer := actions + [Elapse(at - m.now)] + [OfDelivery(id, da)];
  }

  /** What the handler leaves of a cell when it sent for version `seen`. */
  ghost predicate Handled(cfg: Config, c: D.Cell, d: D.Cell, i: nat, seen: Row, answer: Outcome,
                          sentAt: Time, recordedAt: Time, retriedAt: Time, retryRejected: bool)
    requires i < |c.stages| && EntryFor(cfg.catalog, seen.key.kind).Some? && ValidParams(seen.key.kind, seen.params)
  {
    var policy := OfSeen(cfg, seen);
    var verdict := AttemptVerdict(c.row, answer, policy.maxAttempts);
    var retried := verdict.Retry? && !retryRejected;
    && d.row == AttemptRow(c.row, answer, policy.maxAttempts, recordedAt)
    && d.posts == c.posts + [D.Post(sentAt, seen.id, Render(seen.key.kind, seen.params), answer.Delivered?)]
    && d.history == c.history + [if answer.Delivered? then PUSH_SENT else PUSH_ATTEMPT]
    && d.stages == c.stages[i := D.Gone] + (if retried then [D.Waiting] else [])
    && d.hops == c.hops + (if retried then [retriedAt + ComputeBackoffMs(policy, verdict.attempts, 0.0)] else [])
    && d.tally.published == c.tally.published + (if retried then 1 else 0)
  }

  /** Guard, POST, verdict, and the retry or its failure, each at its own time. */
  lemma SendIsRun(cfg: Config, w: World, id: Id, i: nat, seen: Row, answer: Outcome,
                  sentAt: Time, recordedAt: Time, retriedAt: Time, retryRejected: bool)
      returns (actions: seq<Action>)
    requires id in w.cells && i < |w.cells[id].stages| && w.cells[id].stages[i] == D.Ready
    requires seen in w.cells[id].past && seen.status == PROCESSING
    requires EntryFor(cfg.catalog, seen.key.kind).Some? && ValidParams(seen.key.kind, seen.params)
    requires w.now <= sentAt <= recordedAt <= retriedAt
    ensures Run(cfg, w, actions)
    ensures var e := End(cfg, w, actions);
            && OnlyCell(w, e, id) && w.now <= e.now <= retriedAt
            && Handled(cfg, w.cells[id], e.cells[id], i, seen, answer, sentAt, recordedAt, retriedAt, retryRejected)
  {
    var c, dcfg := w.cells[id], cfg.Delivery();
    CellSends(cfg, w.now, c, i, seen, answer, sentAt, recordedAt, retriedAt, retryRejected);
    hide Run, End, D.Enabled, D.Next, Handled;
    EmptyRun(cfg, w);
    actions := Step(cfg, w, [], w.now, id, D.Guard(i, seen));
    actions := Step(cfg, w, actions, sentAt, id, D.Send(i, answer));
    actions := Step(cfg, w, actions, recordedAt, id, D.CommitVerdict(i));
    var committed := End(cfg, w, actions).cells[id];
    if !committed.stages[i].RetryPending? {
      actions := Step(cfg, w, actions, recordedAt, id, D.Ack(i));
    } else if retryRejected {
      actions := Step(cfg, w, actions, retriedAt, id, D.Drop(i));
    } else {
      actions := Step(cfg, w, actions, retriedAt, id, D.PublishRetry(i));
      actions := Step(cfg, w, actions, retriedAt, id, D.Ack(i));
    }
  }

  lemma EmptyRun(cfg: Config, w: World)
    ensures Run(cfg, w, []) && End(cfg, w, []) == w
  {
  }

  /** The same on the cell alone: every step is enabled and together they leave what Handled says. */
  lemma CellSends(cfg: Config, now: Time, c: D.Cell, i: nat, seen: Row, answer: Outcome,
                  sentAt: Time, recordedAt: Time, retriedAt: Time, retryRejected: bool)
    requires i < |c.stages| && c.stages[i] == D.Ready && seen in c.past && seen.status == PROCESSING
    requires EntryFor(cfg.catalog, seen.key.kind).Some? && ValidParams(seen.key.kind, seen.params)
    ensures var dcfg := cfg.Delivery();
            && D.Enabled(dcfg, now, c, D.Guard(i, seen))
            && var c1 := D.Next(dcfg, now, c, D.Guard(i, seen));
            && D.Enabled(dcfg, sentAt, c1, D.Send(i, answer))
            && var c2 := D.Next(dcfg, sentAt, c1, D.Send(i, answer));
            && D.Enabled(dcfg, recordedAt, c2, D.CommitVerdict(i))
            && var c3 := D.Next(dcfg, recordedAt, c2, D.CommitVerdict(i));
            && i < |c3.stages|
            && if !c3.stages[i].RetryPending? then
                 && D.Enabled(dcfg, recordedAt, c3, D.Ack(i))
                 && Handled(cfg, c, D.Next(dcfg, recordedAt, c3, D.Ack(i)), i, seen, answer,
                            sentAt, recordedAt, retriedAt, retryRejected)
               else if retryRejected then
                 && D.Enabled(dcfg, retriedAt, c3, D.Drop(i))
                 && Handled(cfg, c, D.Next(dcfg, retriedAt, c3, D.Drop(i)), i, seen, answer,
                            sentAt, recordedAt, retriedAt, retryRejected)
               else
                 && D.Enabled(dcfg, retriedAt, c3, D.PublishRetry(i))
                 && var c4 := D.Next(dcfg, retriedAt, c3, D.PublishRetry(i));
                 && D.Enabled(dcfg, retriedAt, c4, D.Ack(i))
                 && Handled(cfg, c, D.Next(dcfg, retriedAt, c4, D.Ack(i)), i, seen, answer,
                            sentAt, recordedAt, retriedAt, retryRejected)
  {
    hide D.Commit, Handled, Committed;
    CellCommits(cfg, now, c, i, seen, answer, sentAt, recordedAt);
    var dcfg := cfg.Delivery();
    var c1 := D.Next(dcfg, now, c, D.Guard(i, seen));
    var c2 := D.Next(dcfg, sentAt, c1, D.Send(i, answer));
    var c3 := D.Next(dcfg, recordedAt, c2, D.CommitVerdict(i));
    CellEnds(cfg, c, c3, i, seen, answer, sentAt, recordedAt, retriedAt);
  }

  function Undecided(verdict: Verdict): D.Stage {
    if verdict.Retry? then D.RetryPending(verdict.attempts) else D.AwaitAck
  }

  ghost predicate Committed(cfg: Config, c: D.Cell, d: D.Cell, i: nat, seen: Row, answer: Outcome,
                            sentAt: Time, recordedAt: Time)
    requires i < |c.stages| && EntryFor(cfg.catalog, seen.key.kind).Some? && ValidParams(seen.key.kind, seen.params)
  {
    var max := OfSeen(cfg, seen).maxAttempts;
    && d.row == AttemptRow(c.row, answer, max, recordedAt)
    && d.posts == c.posts + [D.Post(sentAt, seen.id, Render(seen.key.kind, seen.params), answer.Delivered?)]
    && d.history == c.history + [if answer.Delivered? then PUSH_SENT else PUSH_ATTEMPT]
    && d.stages == c.stages[i := Undecided(AttemptVerdict(c.row, answer, max))]
    && d.hops == c.hops && d.tally.published == c.tally.published
  }

  lemma CellCommits(cfg: Config, now: Time, c: D.Cell, i: nat, seen: Row, answer: Outcome, sentAt: Time,
                    recordedAt: Time)
    requires i < |c.stages| && c.stages[i] == D.Ready && seen in c.past && seen.status == PROCESSING
    requires EntryFor(cfg.catalog, seen.key.kind).Some? && ValidParams(seen.key.kind, seen.params)
    ensures var dcfg := cfg.Delivery();
            && D.Enabled(dcfg, now, c, D.Guard(i, seen))
            && var c1 := D.Next(dcfg, now, c, D.Guard(i, seen));
            && D.Enabled(dcfg, sentAt, c1, D.Send(i, answer))
            && var c2 := D.Next(dcfg, sentAt, c1, D.Send(i, answer));
            && D.Enabled(dcfg, recordedAt, c2, D.CommitVerdict(i))
            && Committed(cfg, c, D.Next(dcfg, recordedAt, c2, D.CommitVerdict(i)), i, seen, answer, sentAt, recordedAt)
  {
  }

  lemma CellEnds(cfg: Config, c: D.Cell, c3: D.Cell, i: nat, seen: Row, answer: Outcome,
                 sentAt: Time, recordedAt: Time, retriedAt: Time)
    requires i < |c.stages| && EntryFor(cfg.catalog, seen.key.kind).Some? && ValidParams(seen.key.kind, seen.params)
    requires Committed(cfg, c, c3, i, seen, answer, sentAt, recordedAt)
    ensures i < |c3.stages|
    ensures var dcfg := cfg.Delivery();
            if !c3.stages[i].RetryPending? then
              && D.Enabled(dcfg, recordedAt, c3, D.Ack(i))
              && var d := D.Next(dcfg, recordedAt, c3, D.Ack(i));
                 forall rejected :: Handled(cfg, c, d, i, seen, answer, sentAt, recordedAt, retriedAt, rejected)
            else
              && D.Enabled(dcfg, retriedAt, c3, D.Drop(i)) && D.Enabled(dcfg, retriedAt, c3, D.PublishRetry(i))
              && Handled(cfg, c, D.Next(dcfg, retriedAt, c3, D.Drop(i)), i, seen, answer, sentAt, recordedAt, retriedAt,
                         true)
              && var c4 := D.Next(dcfg, retriedAt, c3, D.PublishRetry(i));
                 && D.Enabled(dcfg, retriedAt, c4, D.Ack(i))
                 && Handled(cfg, c, D.Next(dcfg, retriedAt, c4, D.Ack(i)), i, seen, answer, sentAt, recordedAt,
                            retriedAt, false)
  {
  }

  // ---------------------------------------------------------------- the handler's contract as a run

  /** The class state shows what the world holds: the table, the history, and on the replica only old versions. */
  ghost predicate Mirrors(w: World, replica: map<Id, Row>, s: PushState) {
    && s.rows == RowsOf(w) && Recorded(w, s.history)
    && forall id :: id in replica && id in w.cells ==> replica[id].id == id && replica[id] in w.cells[id].past
  }

  lemma HistoryOfOne(history: seq<HistoryEntry>, entry: HistoryEntry, id: Id)
    ensures HistoryOf(history + [entry], id)
            == HistoryOf(history, id) + (if entry.notificationId == id then [entry.eventType] else [])
  {
    assert (history + [entry])[..|history|] == history;
  }

  /** What the handler may leave of a cell: its message settled, and what it did besides. */
  ghost predicate Reflected(w: World, e: World, id: Id, i: nat, s: PushState, t: PushState, retriedAt: Time)
    requires id in w.cells && i < |w.cells[id].stages| && |t.posts| >= |s.posts| && |t.retries| >= |s.retries|
  {
    && OnlyCell(w, e, id) && t.rows == RowsOf(e) && Recorded(e, t.history)
    && var c, d := w.cells[id], e.cells[id];
       && d.posts == c.posts + t.posts[|s.posts|..]
       && d.stages == c.stages[i := D.Gone] + (if |t.retries| > |s.retries| then [D.Waiting] else [])
       && (|t.retries| > |s.retries| ==>
             && t.retries[|s.retries|].notificationId == id
             && d.hops == c.hops + [retriedAt + t.retries[|s.retries|].expirationMs])
  }

  lemma SettledReflects(w: World, e: World, id: Id, i: nat, s: PushState, retriedAt: Time)
    requires id in w.cells && i < |w.cells[id].stages| && OnlyCell(w, e, id) && Settled(w.cells[id], e.cells[id], i)
    requires s.rows == RowsOf(w) && Recorded(w, s.history)
    ensures Reflected(w, e, id, i, s, s, retriedAt)
  {
    hide HistoryOf;
    assert s.posts[|s.posts|..] == [];
    forall k | k in e.cells ensures e.cells[k].row == w.cells[k].row && e.cells[k].history == w.cells[k].history {
    }
    assert RowsOf(e) == RowsOf(w);
  }

  lemma HandledReflects(cfg: Config, w: World, e: World, id: Id, i: nat, seen: Row, answer: Outcome, sentAt: Time,
                        recordedAt: Time, retriedAt: Time, random: real, retryRejected: bool, replica: map<Id, Row>,
                        s: PushState, t: PushState, ok: bool)
    requires id in w.cells && i < |w.cells[id].stages| && OnlyCell(w, e, id)
    requires id in replica && seen == replica[id] && seen.status == PROCESSING && seen.id == id
    requires EntryFor(cfg.catalog, seen.key.kind).Some? && ValidParams(seen.key.kind, seen.params)
    requires Handled(cfg, w.cells[id], e.cells[id], i, seen, answer, sentAt, recordedAt, retriedAt, retryRejected)
    requires s.rows == RowsOf(w) && Recorded(w, s.history)
    requires PushHandled(cfg.catalog, replica, id, answer, sentAt, recordedAt, random, retryRejected, s, t, ok)
    ensures |t.posts| >= |s.posts| && |t.retries| >= |s.retries| && Reflected(w, e, id, i, s, t, retriedAt)
  {
    hide HistoryOf, Render, AttemptRow, AttemptVerdict;
    NoJitter(cfg, seen, AttemptVerdict(s.rows[id], answer, OfSeen(cfg, seen).maxAttempts), random);
    forall k | k in e.cells
      ensures e.cells[k].history == HistoryOf(t.history, k)
    {
      HistoryOfOne(s.history, AttemptEntry(id, answer), k);
    }
    assert RowsOf(e) == RowsOf(w)[id := e.cells[id].row];
  }

  /** The only policy of the catalog has no jitter. */
  lemma NoJitter(cfg: Config, seen: Row, verdict: Verdict, random: real)
    requires EntryFor(cfg.catalog, seen.key.kind).Some?
    ensures verdict.Retry? ==>
              ComputeBackoffMs(OfSeen(cfg, seen), verdict.attempts, random)
              == ComputeBackoffMs(OfSeen(cfg, seen), verdict.attempts, 0.0)
  {
  }

  /**
   Whatever the handler does according to its contract, skip, throw or send, is a run: with the same table, history
   and POSTs, the message settled, and the retry waiting for the expiration it was published with.
   */
  lemma HandleIsRun(cfg: Config, w: World, id: Id, i: nat, replica: map<Id, Row>, answer: Outcome, sentAt: Time,
                    recordedAt: Time, retriedAt: Time, random: real, retryRejected: bool,
                    s: PushState, t: PushState, ok: bool)
      returns (actions: seq<Action>)
    requires id in w.cells && i < |w.cells[id].stages| && w.cells[id].stages[i] == D.Ready
    requires Mirrors(w, replica, s) && w.now <= sentAt <= recordedAt <= retriedAt
    requires PushHandled(cfg.catalog, replica, id, answer, sentAt, recordedAt, random, retryRejected, s, t, ok)
    ensures |t.posts| >= |s.posts| && |t.retries| >= |s.retries| && Run(cfg, w, actions)
    ensures Reflected(w, End(cfg, w, actions), id, i, s, t, retriedAt)
  {
    hide Run, End, Reflected, Recorded, Handled, Settled, OnlyCell, ValidParams, EntryFor, RowsOf;
    if !(id in replica && replica[id].status == PROCESSING) {
      actions := SkipIsRun(cfg, w, id, i, if id in replica then Some(replica[id]) else None);
      SettledReflects(w, End(cfg, w, actions), id, i, s, retriedAt);
    } else if EntryFor(cfg.catalog, replica[id].key.kind).None?
        || !ValidParams(replica[id].key.kind, replica[id].params) {
      actions := ThrowIsRun(cfg, w, id, i);
      SettledReflects(w, End(cfg, w, actions), id, i, s, retriedAt);
    } else {
      actions := SendIsRun(cfg, w, id, i, replica[id], answer, sentAt, recordedAt, retriedAt, retryRejected);
      HandledReflects(cfg, w, End(cfg, w, actions), id, i, replica[id], answer, sentAt, recordedAt, retriedAt, random,
                      retryRejected, replica, s, t, ok);
    }
  }
}
