/** x-death headers, the count a consumer reads from them, and the bound the count puts on the retry ring. */
module RetryRing {
  import opened Common
  import opened Topology

  datatype Reason = Rejected | Expired | MaxLen

  datatype XDeath = XDeath(queue: Queue, reason: Reason, count: nat)

  /** The x-death header, or none. */
  type Headers = Option<seq<XDeath>>

  function Find(deaths: seq<XDeath>, queue: Queue): Option<XDeath> {
    if deaths == [] then None
    else if deaths[0].queue == queue then Some(deaths[0])
    else Find(deaths[1..], queue)
  }

  /** The consumer's reading: the first entry of its queue, whatever its reason. */
  function DeathCount(h: Headers, queue: Queue): nat {
    if h.None? then 0
    else if Find(h.value, queue).None? then 0
    else Find(h.value, queue).value.count
  }

  function Without(deaths: seq<XDeath>, queue: Queue, reason: Reason): seq<XDeath> {
    if deaths == [] then []
    else if deaths[0].queue == queue && deaths[0].reason == reason then deaths[1..]
    else [deaths[0]] + Without(deaths[1..], queue, reason)
  }

  function Tally(deaths: seq<XDeath>, queue: Queue, reason: Reason): nat {
    if deaths == [] then 0
    else if deaths[0].queue == queue && deaths[0].reason == reason then deaths[0].count
    else Tally(deaths[1..], queue, reason)
  }

  /**
   The broker's bookkeeping when a message dies: the entry of this
   queue and reason moves to the front, one higher.
   */
  function Die(h: Headers, queue: Queue, reason: Reason): Headers {
    var deaths := if h.None? then [] else h.value;
    Some([XDeath(queue, reason, Tally(deaths, queue, reason) + 1)] + Without(deaths, queue, reason))
  }

  datatype Death = Death(queue: Queue, reason: Reason)

  function Journey(h: Headers, path: seq<Death>): Headers
    decreases |path|
  {
    if path == [] then h else Journey(Die(h, path[0].queue, path[0].reason), path[1..])
  }

  function Rejections(path: seq<Death>, queue: Queue): nat {
    if path == [] then 0
    else (if path[0] == Death(queue, Rejected) then 1 else 0) + Rejections(path[1..], queue)
  }

  /** A queue without TTL or length limit: its messages die by rejection only. */
  predicate RejectsOnly(path: seq<Death>, queue: Queue) {
    forall d :: d in path && d.queue == queue ==> d.reason == Rejected
  }

  predicate Clean(h: Headers, queue: Queue) {
    h.Some? ==> forall d :: d in h.value && d.queue == queue ==> d.reason == Rejected
  }

  lemma {:induction false} WithoutKeeps(deaths: seq<XDeath>, queue: Queue, reason: Reason, other: Queue)
    ensures forall d :: d in Without(deaths, queue, reason) ==> d in deaths
    ensures other != queue ==> Find(Without(deaths, queue, reason), other) == Find(deaths, other)
  {
    if deaths != [] && !(deaths[0].queue == queue && deaths[0].reason == reason) {
      WithoutKeeps(deaths[1..], queue, reason, other);
      assert (forall d :: d in Without(deaths, queue, reason) ==>
                d == deaths[0] || d in Without(deaths[1..], queue, reason));
      assert Without(deaths, queue, reason)[1..] == Without(deaths[1..], queue, reason);
    }
  }

  lemma {:induction false} CleanTally(deaths: seq<XDeath>, queue: Queue)
    requires Clean(Some(deaths), queue)
    ensures Tally(deaths, queue, Rejected) == DeathCount(Some(deaths), queue)
  {
    if deaths != [] && deaths[0].queue != queue {
      assert forall d :: d in deaths[1..] ==> d in deaths;
      CleanTally(deaths[1..], queue);
    }
  }

  lemma OneDeath(h: Headers, d: Death, queue: Queue)
    requires Clean(h, queue) && RejectsOnly([d], queue)
    ensures Clean(Die(h, d.queue, d.reason), queue)
    ensures DeathCount(Die(h, d.queue, d.reason), queue) == DeathCount(h, queue) + (if d.queue == queue then 1 else 0)
  {
    var deaths := if h.None? then [] else h.value;
    assert d in [d];
    WithoutKeeps(deaths, d.queue, d.reason, queue);
    CleanTally(deaths, queue);
    var after := Die(h, d.queue, d.reason).value;
    assert after[1..] == Without(deaths, d.queue, d.reason);
    assert forall e :: e in after ==> e == after[0] || e in Without(deaths, d.queue, d.reason);
  }

  /** Whatever other queues a message dies in, the count of a queue is exactly its rejections there. */
  lemma {:induction false} CountIsRejections(h: Headers, path: seq<Death>, queue: Queue)
    requires Clean(h, queue) && RejectsOnly(path, queue)
    ensures Clean(Journey(h, path), queue)
    ensures DeathCount(Journey(h, path), queue) == DeathCount(h, queue) + Rejections(path, queue)
    decreases |path|
  {
    if path != [] {
      assert path[0] in path;
      OneDeath(h, path[0], queue);
      assert forall d :: d in path[1..] ==> d in path;
      CountIsRejections(Die(h, path[0].queue, path[0].reason), path[1..], queue);
    }
  }

  // ---------------------------------------------------------------- the threshold

  /** The base consumer's test before it dead-letters instead of rejecting. */
  predicate Exhausted(h: Headers, queue: Queue, maxAttempts: nat) {
    DeathCount(h, queue) + 1 >= maxAttempts
  }

  /** One lap: rejected by the ingest consumer, parked, expired back; `extra` are any further deaths elsewhere. */
  function Lap(extra: seq<Death>): seq<Death> {
    [Death(INGEST_Q, Rejected)] + extra + [Death(INGEST_RETRY, Expired)]
  }

  /** Laps a message that always fails makes before the consumer gives it to the DLQ. */
  function LapsUntilDlq(h: Headers, maxAttempts: nat, extras: nat -> seq<Death>, lap: nat, limit: nat): nat
    decreases limit
  {
    if limit == 0 || Exhausted(h, INGEST_Q, maxAttempts) then 0
    else 1 + LapsUntilDlq(Journey(h, Lap(extras(lap))), maxAttempts, extras, lap + 1, limit - 1)
  }

  lemma {:induction false} RejectionsAppend(a: seq<Death>, b: seq<Death>, queue: Queue)
    ensures Rejections(a + b, queue) == Rejections(a, queue) + Rejections(b, queue)
    decreases |a|
  {
    if a == [] {
      assert a + b == b;
    } else {
      RejectionsAppend(a[1..], b, queue);
      assert (a + b)[1..] == a[1..] + b;
    }
  }

  lemma {:induction false} NoRejections(path: seq<Death>, queue: Queue)
    requires forall d :: d in path ==> d.queue != queue
    ensures Rejections(path, queue) == 0
  {
    if path != [] {
      assert path[0] in path && forall d :: d in path[1..] ==> d in path;
      NoRejections(path[1..], queue);
    }
  }

  lemma LapCountsOnce(extra: seq<Death>)
    requires forall d :: d in extra ==> d.queue != INGEST_Q
    ensures Rejections(Lap(extra), INGEST_Q) == 1 && RejectsOnly(Lap(extra), INGEST_Q)
  {
    var first, last := [Death(INGEST_Q, Rejected)], [Death(INGEST_RETRY, Expired)];
    assert first[1..] == [] && last[1..] == [];
    RejectionsAppend(first + extra, last, INGEST_Q);
    RejectionsAppend(first, extra, INGEST_Q);
    NoRejections(extra, INGEST_Q);
    NoRejections(last, INGEST_Q);
    assert Rejections(first, INGEST_Q) == 1;
  }

  /**
   A message that always fails is rejected exactly maxAttempts - 1 - (rejections it carries) times, then
   dead-lettered; `limit` laps of patience are enough. Without headers, as a republish sends it, that is
   the whole budget again.
   */
  lemma RingBound(h: Headers, maxAttempts: nat, extras: nat -> seq<Death>, lap: nat, limit: nat)
    requires Clean(h, INGEST_Q) && (forall k: nat :: forall d :: d in extras(k) ==> d.queue != INGEST_Q)
    requires limit >= maxAttempts
    ensures LapsUntilDlq(h, maxAttempts, extras, lap, limit) == Max(0, maxAttempts - 1 - DeathCount(h, INGEST_Q))
    ensures h == None && maxAttempts >= 1 ==> LapsUntilDlq(h, maxAttempts, extras, lap, limit) == maxAttempts - 1
  {
    RingBoundFrom(h, maxAttempts, extras, lap, limit);
  }

  lemma {:induction false} RingBoundFrom(h: Headers, maxAttempts: nat, extras: nat -> seq<Death>, lap: nat, limit: nat)
    requires Clean(h, INGEST_Q) && (forall k: nat :: forall d :: d in extras(k) ==> d.queue != INGEST_Q)
    requires limit >= maxAttempts - DeathCount(h, INGEST_Q)
    ensures LapsUntilDlq(h, maxAttempts, extras, lap, limit) == Max(0, maxAttempts - 1 - DeathCount(h, INGEST_Q))
    decreases limit
  {
    if limit > 0 && !Exhausted(h, INGEST_Q, maxAttempts) {
      LapCountsOnce(extras(lap));
      CountIsRejections(h, Lap(extras(lap)), INGEST_Q);
      RingBoundFrom(Journey(h, Lap(extras(lap))), maxAttempts, extras, lap + 1, limit - 1);
    }
  }
}
