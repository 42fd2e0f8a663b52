/**
 The admin drain of notifier.ingest.dlq: a bounded pass that
 republishes what it can and puts the rest back at the tail.
 */
module DlqDrain {
  import opened Common
  import opened OutboxRows
  import opened Routing
  import opened RetryRing
  import opened UsersOutbox

  datatype Content = NotJson(raw: string) | BadEnvelope(raw: string) | Envelope(event: IngestEvent)

  datatype DlqMessage = DlqMessage(content: Content, messageId: Option<string>, headers: Headers)

  datatype RepublishResult = RepublishResult(republished: nat, failed: nat, skipped: nat)

  /**
   What the broker does in one round. A channel that dies leaves the message unacknowledged, so it returns to
   the head: before anything was published, after a publish that worked, or after the publish that was to put
   the message back. A republish may land although the drain sees an error, a lost confirm or a throwing ack:
   then the message is put back all the same.
   */
  datatype RoundFate =
    | Works
    | RepublishFails
    | Doubles
    | DiesFirst
    | DiesAfterPublish
    | FailsThenDies
    | DoublesThenDies

  /** The round completes. */
  predicate Completes(fate: RoundFate) {
    fate in {Works, RepublishFails, Doubles}
  }

  /** The round does all its publishing and then the channel dies. */
  predicate DiesLate(fate: RoundFate) {
    fate in {DiesAfterPublish, FailsThenDies, DoublesThenDies}
  }

  datatype Disposition = Republished | Failed | Skipped

  predicate Wanted(m: DlqMessage, filter: Option<set<string>>) {
    m.content.Envelope? && (filter.Some? ==> m.content.event.sourceEventId in filter.value)
  }

  /** The republish reaches the ingest exchange, whatever the drain hears of it. */
  predicate Lands(m: DlqMessage, filter: Option<set<string>>, fate: RoundFate) {
    Wanted(m, filter) && fate in {Works, Doubles, DiesAfterPublish, DoublesThenDies}
  }

  /** What a round does with a message, if the channel survives it. */
  function Dispose(m: DlqMessage, filter: Option<set<string>>, fate: RoundFate): (d: Disposition)
    ensures d.Republished? ==> m.content.Envelope?
  {
    if !m.content.Envelope? then Failed
    else if !Wanted(m, filter) then Skipped
    else if fate in {RepublishFails, FailsThenDies, Doubles, DoublesThenDies} then Failed
    else Republished
  }

  /** A republish carries the envelope and an id, no headers. */
  function Reissue(m: DlqMessage): OutMessage
    requires m.content.Envelope?
  {
    OutMessage(m.content.event,
               if m.messageId.Some? then m.messageId.value else m.content.event.sourceEventId,
               RoutingKeyFor(m.content.event.kind))
  }

  /** A message that is not republished goes back to the tail unchanged, headers included. */
  function Back(m: DlqMessage, d: Disposition): seq<DlqMessage> {
    if d.Republished? then [] else [m]
  }

  function Onward(m: DlqMessage, filter: Option<set<string>>, fate: RoundFate): seq<OutMessage> {
    if Lands(m, filter, fate) then [Reissue(m)] else []
  }

  /** What the first n rounds add at the tail of the DLQ: new arrivals, and every message put back. */
  function Tail(q: seq<DlqMessage>, n: nat, filter: Option<set<string>>, fates: nat -> RoundFate,
                arrivals: nat -> seq<DlqMessage>): seq<DlqMessage>
    requires n <= |q|
  {
    if n == 0 then []
    else
      var back := Back(q[n - 1], Dispose(q[n - 1], filter, fates(n - 1)));
      Tail(q, n - 1, filter, fates, arrivals) + arrivals(n - 1) + back
  }

  /** What the first n rounds publish, in DLQ order. */
  function Reissued(q: seq<DlqMessage>, n: nat, filter: Option<set<string>>, fates: nat -> RoundFate): seq<OutMessage>
    requires n <= |q|
  {
    if n == 0 then []
    else Reissued(q, n - 1, filter, fates) + Onward(q[n - 1], filter, fates(n - 1))
  }

  function CountOf(d: Disposition, q: seq<DlqMessage>, n: nat, filter: Option<set<string>>,
                   fates: nat -> RoundFate): nat
    requires n <= |q|
  {
    if n == 0 then 0
    else CountOf(d, q, n - 1, filter, fates) + (if Dispose(q[n - 1], filter, fates(n - 1)) == d then 1 else 0)
  }

  function Counts(q: seq<DlqMessage>, n: nat, filter: Option<set<string>>, fates: nat -> RoundFate): RepublishResult
    requires n <= |q|
  {
    RepublishResult(CountOf(Republished, q, n, filter, fates), CountOf(Failed, q, n, filter, fates),
                    CountOf(Skipped, q, n, filter, fates))
  }

  function Counted(r: RepublishResult, d: Disposition): RepublishResult {
    match d
    case Republished => r.(republished := r.republished + 1)
    case Failed => r.(failed := r.failed + 1)
    case Skipped => r.(skipped := r.skipped + 1)
  }

  /** Only the messages handled so far matter. */
  lemma {:induction false} SamePast(a: seq<DlqMessage>, b: seq<DlqMessage>, n: nat, filter: Option<set<string>>,
                                    fates: nat -> RoundFate, arrivals: nat -> seq<DlqMessage>)
    requires n <= |a| && n <= |b| && a[..n] == b[..n]
    ensures Tail(a, n, filter, fates, arrivals) == Tail(b, n, filter, fates, arrivals)
    ensures Reissued(a, n, filter, fates) == Reissued(b, n, filter, fates)
    ensures Counts(a, n, filter, fates) == Counts(b, n, filter, fates)
  {
    if n > 0 {
      assert a[n - 1] == a[..n][n - 1] == b[n - 1];
      assert a[..n - 1] == a[..n][..n - 1] == b[..n - 1];
      SamePast(a, b, n - 1, filter, fates, arrivals);
    }
  }

  /** Everything that ever stood in the DLQ, in the order in which it was added, up to n completed rounds. */
  function Line(q: seq<DlqMessage>, handled: seq<DlqMessage>, filter: Option<set<string>>, fates: nat -> RoundFate,
                arrivals: nat -> seq<DlqMessage>): seq<DlqMessage> {
    q + Tail(handled, |handled|, filter, fates, arrivals)
  }

  /** How much of the line is gone after n rounds: one message per round, and what others took. */
  function Gone(taken: nat -> nat, n: nat): nat {
    if n == 0 then 0 else Gone(taken, n - 1) + taken(n - 1) + 1
  }

  /** The DLQ holds what is left of the line. */
  predicate Standing(line: seq<DlqMessage>, gone: nat, dlq: seq<DlqMessage>) {
    gone <= |line| && dlq == line[gone..]
  }

  /** Round k got the message of the line at which it then stood. */
  predicate GotAt(line: seq<DlqMessage>, handled: seq<DlqMessage>, taken: nat -> nat, k: nat)
    requires k < |handled|
  {
    Gone(taken, k) + taken(k) < |line| && handled[k] == line[Gone(taken, k) + taken(k)]
  }

  /** These positions rise from round to round, so no place in the line is got twice. */
  ghost predicate FromLine(line: seq<DlqMessage>, handled: seq<DlqMessage>, taken: nat -> nat) {
    forall k: nat :: k < |handled| ==> GotAt(line, handled, taken, k)
  }

  /** Where the DLQ and the ingest exchange stand after the rounds that got `handled`. */
  ghost predicate Pass(q: seq<DlqMessage>, handled: seq<DlqMessage>, filter: Option<set<string>>,
                       fates: nat -> RoundFate,
                       arrivals: nat -> seq<DlqMessage>, taken: nat -> nat,
                       dlq: seq<DlqMessage>, sent: seq<OutMessage>, result: RepublishResult)
  {
    var line := Line(q, handled, filter, fates, arrivals);
    && Standing(line, Gone(taken, |handled|), dlq)
    && sent == Reissued(handled, |handled|, filter, fates)
    && result == Counts(handled, |handled|, filter, fates)
    && FromLine(line, handled, taken)
  }

  /** More arrives, t messages are taken from the head, and the next one is got. */
  lemma Get(line: seq<DlqMessage>, gone: nat, dlq: seq<DlqMessage>, more: seq<DlqMessage>, t: nat)
    requires Standing(line, gone, dlq) && t < |dlq + more|
    ensures gone + t < |line + more| && (dlq + more)[t] == (line + more)[gone + t]
    ensures Standing(line + more, gone + t + 1, (dlq + more)[t + 1..])
    ensures [(dlq + more)[t]] + (dlq + more)[t + 1..] == (line + more)[gone + t..]
  {
    assert dlq + more == (line + more)[gone..];
    assert (line + more)[gone..][t..] == (line + more)[gone + t..];
  }

  lemma PutBackBehind(line: seq<DlqMessage>, gone: nat, dlq: seq<DlqMessage>, back: seq<DlqMessage>)
    requires Standing(line, gone, dlq)
    ensures Standing(line + back, gone, dlq + back)
  {
  }

  lemma LineGrows(q: seq<DlqMessage>, handled: seq<DlqMessage>, m: DlqMessage, filter: Option<set<string>>,
                  fates: nat -> RoundFate, arrivals: nat -> seq<DlqMessage>)
    ensures var n := |handled|;
            var d := Dispose(m, filter, fates(n));
            && Line(q, handled + [m], filter, fates, arrivals)
                == Line(q, handled, filter, fates, arrivals) + arrivals(n) + Back(m, d)
            && Reissued(handled + [m], n + 1, filter, fates)
                == Reissued(handled, n, filter, fates) + Onward(m, filter, fates(n))
            && Counts(handled + [m], n + 1, filter, fates) == Counted(Counts(handled, n, filter, fates), d)
  {
    hide Dispose, Reissue, Lands;
    SamePast(handled + [m], handled, |handled|, filter, fates, arrivals);
  }

  lemma FromLineGrows(line: seq<DlqMessage>, more: seq<DlqMessage>, back: seq<DlqMessage>, handled: seq<DlqMessage>,
                      m: DlqMessage, taken: nat -> nat)
    requires FromLine(line, handled, taken)
    requires var p := Gone(taken, |handled|) + taken(|handled|); p < |line + more| && m == (line + more)[p]
    ensures FromLine(line + more + back, handled + [m], taken)
  {
    hide Gone;
    forall k: nat | k < |handled + [m]| ensures GotAt(line + more + back, handled + [m], taken, k) {
      if k < |handled| {
        assert GotAt(line, handled, taken, k);
        assert (handled + [m])[k] == handled[k];
      }
    }
  }

  /** The round that gets a message: where it stood, and what stands after it, if the channel survives. */
  lemma PassRound(q: seq<DlqMessage>, handled: seq<DlqMessage>, filter: Option<set<string>>, fates: nat -> RoundFate,
                  arrivals: nat -> seq<DlqMessage>, taken: nat -> nat,
                  dlq: seq<DlqMessage>, sent: seq<OutMessage>, result: RepublishResult)
    requires Pass(q, handled, filter, fates, arrivals, taken, dlq, sent, result)
    requires taken(|handled|) < |dlq + arrivals(|handled|)|
    ensures var n := |handled|;
            var there, at := Line(q, handled, filter, fates, arrivals) + arrivals(n), Gone(taken, n) + taken(n);
            var m, rest := (dlq + arrivals(n))[taken(n)], (dlq + arrivals(n))[taken(n) + 1..];
            var d := Dispose(m, filter, fates(n));
            && at < |there| && m == there[at] && [m] + rest == there[at..]
            && Pass(q, handled + [m], filter, fates, arrivals, taken, rest + Back(m, d),
                    sent + Onward(m, filter, fates(n)),
                    Counted(result, d))
  {
    hide Tail, Reissued, Counts, Dispose, Line, FromLine, Back, Onward, Counted, Standing;
    var n := |handled|;
    var line := Line(q, handled, filter, fates, arrivals);
    var m, rest := (dlq + arrivals(n))[taken(n)], (dlq + arrivals(n))[taken(n) + 1..];
    var back := Back(m, Dispose(m, filter, fates(n)));
    Get(line, Gone(taken, n), dlq, arrivals(n), taken(n));
    PutBackBehind(line + arrivals(n), Gone(taken, n) + taken(n) + 1, rest, back);
    LineGrows(q, handled, m, filter, fates, arrivals);
    FromLineGrows(line, arrivals(n), back, handled, m, taken);
    assert Gone(taken, n + 1) == Gone(taken, n) + taken(n) + 1;
  }

  lemma PassStart(q: seq<DlqMessage>, filter: Option<set<string>>, fates: nat -> RoundFate,
                  arrivals: nat -> seq<DlqMessage>, taken: nat -> nat)
    ensures Pass(q, [], filter, fates, arrivals, taken, q, [], RepublishResult(0, 0, 0))
  {
    assert q + [] == q && q[0..] == q;
  }

  /** What a pass says at its end, and when others have taken all there was. */
  lemma PassEnds(q: seq<DlqMessage>, handled: seq<DlqMessage>, filter: Option<set<string>>, fates: nat -> RoundFate,
                 arrivals: nat -> seq<DlqMessage>, taken: nat -> nat,
                 dlq: seq<DlqMessage>, sent: seq<OutMessage>, result: RepublishResult)
    requires |handled| <= |q| && Pass(q, handled, filter, fates, arrivals, taken, dlq, sent, result)
    ensures var line, gone := Line(q, handled, filter, fates, arrivals), Gone(taken, |handled|);
            && Standing(line, gone, dlq) && FromLine(line, handled, taken)
            && |line + arrivals(|handled|)| == gone + |dlq + arrivals(|handled|)|
            && sent == Reissued(handled, |handled|, filter, fates)
            && result == Counts(handled, |handled|, filter, fates)
    ensures (forall k: nat :: taken(k) == 0) ==> handled == q[..|handled|] && (|handled| < |q| ==> dlq != [])
  {
    hide Tail, Reissued, Counts, FromLine, Gone;
    if forall k: nat :: taken(k) == 0 {
      AloneInOrder(q, Tail(handled, |handled|, filter, fates, arrivals), handled, taken);
      GoneAlone(taken, |handled|);
    }
  }

  /** Nobody else takes messages: the rounds get the messages present at the start, in order. */
  lemma AloneInOrder(q: seq<DlqMessage>, tail: seq<DlqMessage>, handled: seq<DlqMessage>, taken: nat -> nat)
    requires |handled| <= |q| && FromLine(q + tail, handled, taken) && forall k: nat :: taken(k) == 0
    ensures handled == q[..|handled|]
  {
    forall k: nat | k < |handled| ensures handled[k] == q[k] {
      assert GotAt(q + tail, handled, taken, k);
      GoneAlone(taken, k);
    }
  }

  lemma {:induction false} GoneAlone(taken: nat -> nat, n: nat)
    requires forall k: nat :: taken(k) == 0
    ensures Gone(taken, n) == n
  {
    if n > 0 { GoneAlone(taken, n - 1); }
  }

  // ---------------------------------------------------------------- what a pass means

  /** Every round is counted once. */
  lemma {:induction false} CountsAddUp(q: seq<DlqMessage>, n: nat, filter: Option<set<string>>, fates: nat -> RoundFate)
    requires n <= |q|
    ensures CountOf(Republished, q, n, filter, fates) + CountOf(Failed, q, n, filter, fates)
            + CountOf(Skipped, q, n, filter, fates) == n
  {
    if n > 0 { CountsAddUp(q, n - 1, filter, fates); }
  }

  /** Messages that are on the ingest exchange and back in the DLQ. */
  function DoubledOf(q: seq<DlqMessage>, n: nat, filter: Option<set<string>>, fates: nat -> RoundFate): nat
    requires n <= |q|
  {
    if n == 0 then 0
    else
      var m, fate := q[n - 1], fates(n - 1);
      DoubledOf(q, n - 1, filter, fates) + (if Lands(m, filter, fate) && Dispose(m, filter, fate).Failed? then 1 else 0)
  }

  /** Only valid, filter-matching envelopes are published, each once, and as many as are counted or doubled. */
  lemma {:induction false} OnlyMatchesReissued(q: seq<DlqMessage>, n: nat, filter: Option<set<string>>,
                                               fates: nat -> RoundFate)
    requires n <= |q| && forall k :: 0 <= k < n ==> Completes(fates(k))
    ensures |Reissued(q, n, filter, fates)| == CountOf(Republished, q, n, filter, fates)
            + DoubledOf(q, n, filter, fates)
    ensures forall o :: o in Reissued(q, n, filter, fates) ==>
              && (filter.Some? ==> o.event.sourceEventId in filter.value)
              && exists k :: 0 <= k < n && q[k].content == Envelope(o.event)
  {
    if n > 0 {
      OnlyMatchesReissued(q, n - 1, filter, fates);
      forall o | o in Reissued(q, n, filter, fates)
        ensures exists k :: 0 <= k < n && q[k].content == Envelope(o.event)
      {
        if o in Reissued(q, n - 1, filter, fates) {
          var k :| 0 <= k < n - 1 && q[k].content == Envelope(o.event);
        } else {
          assert q[n - 1].content == Envelope(o.event);
        }
      }
    }
  }

  /** Valid, and named by the filter if there is one. */
  predicate Asked(m: DlqMessage, filter: Option<set<string>>) {
    m.content.Envelope? && (filter.None? || m.content.event.sourceEventId in filter.value)
  }

  /** What becomes of a message: unparsable ones fail, others are skipped, or republished unless the publish fails. */
  lemma DisposesOf(m: DlqMessage, filter: Option<set<string>>, fate: RoundFate)
    ensures Dispose(m, filter, fate) == Failed <==>
            !m.content.Envelope?
            || (Asked(m, filter) && fate in {RepublishFails, Doubles, FailsThenDies, DoublesThenDies})
    ensures Dispose(m, filter, fate) == Skipped <==> m.content.Envelope? && !Asked(m, filter)
    ensures Lands(m, filter, fate) <==> Asked(m, filter) && fate in {Works, Doubles, DiesAfterPublish, DoublesThenDies}
  {
  }

  /** What a republish carries: the envelope, its id or else its source event id, and the key of its type. */
  predicate Carries(o: OutMessage, m: DlqMessage) {
    && m.content == Envelope(o.event) && o.routingKey == RoutingKeyFor(o.event.kind)
    && o.messageId == (if m.messageId.Some? then m.messageId.value else o.event.sourceEventId)
  }

  /**
   The converse of OnlyMatchesReissued: in a round that works, an envelope that was asked for is published and
   counted republished, one that was not is put back and counted skipped, and what does not parse is put back.
   */
  lemma {:induction false} EachIsAnswered(q: seq<DlqMessage>, n: nat, k: nat, filter: Option<set<string>>,
                                          fates: nat -> RoundFate, arrivals: nat -> seq<DlqMessage>)
    requires k < n <= |q| && fates(k) == Works
    ensures Asked(q[k], filter) ==>
              && Dispose(q[k], filter, fates(k)) == Republished && CountOf(Republished, q, n, filter, fates) > 0
              && exists o :: o in Reissued(q, n, filter, fates) && Carries(o, q[k])
    ensures !Asked(q[k], filter) && q[k].content.Envelope? ==>
              && Dispose(q[k], filter, fates(k)) == Skipped && CountOf(Skipped, q, n, filter, fates) > 0
              && q[k] in Tail(q, n, filter, fates, arrivals)
    ensures !q[k].content.Envelope? ==>
              && Dispose(q[k], filter, fates(k)) == Failed && CountOf(Failed, q, n, filter, fates) > 0
              && q[k] in Tail(q, n, filter, fates, arrivals)
    decreases n
  {
    if k < n - 1 {
      EachIsAnswered(q, n - 1, k, filter, fates, arrivals);
    } else if Asked(q[k], filter) {
      assert Reissue(q[k]) in Reissued(q, n, filter, fates) && Carries(Reissue(q[k]), q[k]);
    }
  }

  /** The rounds that got a message that was asked for, and those that got one that does not parse. */
  function AskedIn(q: seq<DlqMessage>, n: nat, filter: Option<set<string>>): set<nat>
    requires n <= |q|
  {
    set k | 0 <= k < n && Asked(q[k], filter) :: k
  }

  function BrokenIn(q: seq<DlqMessage>, n: nat): set<nat>
    requires n <= |q|
  {
    set k | 0 <= k < n && !q[k].content.Envelope? :: k
  }

  lemma OneAskedMore(q: seq<DlqMessage>, n: nat, filter: Option<set<string>>)
    requires 0 < n <= |q|
    ensures |AskedIn(q, n, filter)| == |AskedIn(q, n - 1, filter)| + (if Asked(q[n - 1], filter) then 1 else 0)
  {
    var before := AskedIn(q, n - 1, filter);
    if Asked(q[n - 1], filter) {
      assert AskedIn(q, n, filter) == before + {n - 1};
    } else {
      assert AskedIn(q, n, filter) == before;
    }
  }

  lemma OneBrokenMore(q: seq<DlqMessage>, n: nat)
    requires 0 < n <= |q|
    ensures |BrokenIn(q, n)| == |BrokenIn(q, n - 1)| + (if q[n - 1].content.Envelope? then 0 else 1)
  {
    var before := BrokenIn(q, n - 1);
    if q[n - 1].content.Envelope? {
      assert BrokenIn(q, n) == before;
    } else {
      assert BrokenIn(q, n) == before + {n - 1};
    }
  }

  /** When every round works, just those are republished that were asked for, and just those fail that do not parse. */
  lemma {:induction false} WorkingCounts(q: seq<DlqMessage>, n: nat, filter: Option<set<string>>,
                                         fates: nat -> RoundFate)
    requires n <= |q| && forall k :: 0 <= k < n ==> fates(k) == Works
    ensures CountOf(Republished, q, n, filter, fates) == |AskedIn(q, n, filter)|
    ensures CountOf(Failed, q, n, filter, fates) == |BrokenIn(q, n)|
  {
    if n > 0 {
      hide AskedIn, BrokenIn;
      WorkingCounts(q, n - 1, filter, fates);
      OneAskedMore(q, n, filter);
      OneBrokenMore(q, n);
    } else {
      assert AskedIn(q, 0, filter) == {} && BrokenIn(q, 0) == {};
    }
  }

  /** A handled message is on the ingest exchange or back in the DLQ: none is dropped. */
  lemma {:induction false} HandledIsKept(q: seq<DlqMessage>, n: nat, k: nat, filter: Option<set<string>>,
                                         fates: nat -> RoundFate, arrivals: nat -> seq<DlqMessage>)
    requires k < n <= |q|
    requires Completes(fates(k))
    ensures Dispose(q[k], filter, fates(k)).Republished? ==> Reissue(q[k]) in Reissued(q, n, filter, fates)
    ensures !Dispose(q[k], filter, fates(k)).Republished? ==> q[k] in Tail(q, n, filter, fates, arrivals)
    decreases n
  {
    if k < n - 1 { HandledIsKept(q, n - 1, k, filter, fates, arrivals); }
  }

  /** The messages of the first n rounds that are put back, in their old order. */
  function PutBack(q: seq<DlqMessage>, n: nat, filter: Option<set<string>>, fates: nat -> RoundFate): seq<DlqMessage>
    requires n <= |q|
  {
    if n == 0 then []
    else PutBack(q, n - 1, filter, fates) + Back(q[n - 1], Dispose(q[n - 1], filter, fates(n - 1)))
  }

  /** What others added at the tail during the first n rounds. */
  function Arrived(arrivals: nat -> seq<DlqMessage>, n: nat): seq<DlqMessage> {
    if n == 0 then [] else Arrived(arrivals, n - 1) + arrivals(n - 1)
  }

  /** zs holds exactly the elements of xs and ys, each of the two in its own order. */
  predicate Shuffle(xs: seq<DlqMessage>, ys: seq<DlqMessage>, zs: seq<DlqMessage>)
    decreases |zs|
  {
    if zs == [] then xs == [] && ys == []
    else
      var last, init := zs[|zs| - 1], zs[..|zs| - 1];
      || (xs != [] && xs[|xs| - 1] == last && Shuffle(xs[..|xs| - 1], ys, init))
      || (ys != [] && ys[|ys| - 1] == last && Shuffle(xs, ys[..|ys| - 1], init))
  }

  lemma {:induction false} ShuffleLeft(xs: seq<DlqMessage>, ys: seq<DlqMessage>, zs: seq<DlqMessage>,
                                       more: seq<DlqMessage>)
    requires Shuffle(xs, ys, zs)
    ensures Shuffle(xs + more, ys, zs + more)
    decreases |more|
  {
    if more == [] {
      assert xs + more == xs && zs + more == zs;
    } else {
      var init := more[..|more| - 1];
      ShuffleLeft(xs, ys, zs, init);
      assert (xs + more)[..|xs + more| - 1] == xs + init && (zs + more)[..|zs + more| - 1] == zs + init;
    }
  }

  lemma {:induction false} ShuffleRight(xs: seq<DlqMessage>, ys: seq<DlqMessage>, zs: seq<DlqMessage>,
                                        more: seq<DlqMessage>)
    requires Shuffle(xs, ys, zs)
    ensures Shuffle(xs, ys + more, zs + more)
    decreases |more|
  {
    if more == [] {
      assert ys + more == ys && zs + more == zs;
    } else {
      var init := more[..|more| - 1];
      ShuffleRight(xs, ys, zs, init);
      assert (ys + more)[..|ys + more| - 1] == ys + init && (zs + more)[..|zs + more| - 1] == zs + init;
    }
  }

  lemma ShuffleBoth(xs: seq<DlqMessage>, ys: seq<DlqMessage>, zs: seq<DlqMessage>, more: seq<DlqMessage>,
                    back: seq<DlqMessage>)
    requires Shuffle(xs, ys, zs)
    ensures Shuffle(xs + back, ys + more, zs + more + back)
  {
    hide Shuffle;
    ShuffleRight(xs, ys, zs, more);
    ShuffleLeft(xs, ys + more, zs + more, back);
  }

  lemma ShuffleNothing()
    ensures Shuffle([], [], [])
  {
  }

  lemma {:induction false} ShuffleCounts(xs: seq<DlqMessage>, ys: seq<DlqMessage>, zs: seq<DlqMessage>)
    requires Shuffle(xs, ys, zs)
    ensures multiset(zs) == multiset(xs) + multiset(ys) && (ys == [] ==> zs == xs) && (xs == [] ==> zs == ys)
    decreases |zs|
  {
    if zs != [] {
      var last, init := zs[|zs| - 1], zs[..|zs| - 1];
      assert zs == init + [last];
      if xs != [] && xs[|xs| - 1] == last && Shuffle(xs[..|xs| - 1], ys, init) {
        ShuffleCounts(xs[..|xs| - 1], ys, init);
        assert xs == xs[..|xs| - 1] + [last];
      } else {
        ShuffleCounts(xs, ys[..|ys| - 1], init);
        assert ys == ys[..|ys| - 1] + [last];
      }
    }
  }

  /**
   Whatever arrives at the tail during the pass, what stands there afterwards is exactly the arrivals and the
   messages put back, the arrivals in the order in which they came and the others in their old order.
   */
  lemma {:induction false} PassKeepsOrder(q: seq<DlqMessage>, n: nat, filter: Option<set<string>>,
                                          fates: nat -> RoundFate, arrivals: nat -> seq<DlqMessage>)
    requires n <= |q|
    ensures Shuffle(PutBack(q, n, filter, fates), Arrived(arrivals, n), Tail(q, n, filter, fates, arrivals))
    ensures |PutBack(q, n, filter, fates)| == n - CountOf(Republished, q, n, filter, fates)
  {
    hide Shuffle;
    PutBackCount(q, n, filter, fates);
    if n == 0 {
      ShuffleNothing();
    } else {
      PassKeepsOrder(q, n - 1, filter, fates, arrivals);
      LastRound(q, n, filter, fates, arrivals);
    }
  }

  lemma LastRound(q: seq<DlqMessage>, n: nat, filter: Option<set<string>>, fates: nat -> RoundFate,
                  arrivals: nat -> seq<DlqMessage>)
    requires 0 < n <= |q|
    requires Shuffle(PutBack(q, n - 1, filter, fates), Arrived(arrivals, n - 1),
                     Tail(q, n - 1, filter, fates, arrivals))
    ensures Shuffle(PutBack(q, n, filter, fates), Arrived(arrivals, n), Tail(q, n, filter, fates, arrivals))
  {
    hide Shuffle, Dispose, Back;
    ShuffleBoth(PutBack(q, n - 1, filter, fates), Arrived(arrivals, n - 1), Tail(q, n - 1, filter, fates, arrivals),
                arrivals(n - 1), Back(q[n - 1], Dispose(q[n - 1], filter, fates(n - 1))));
  }

  lemma {:induction false} PutBackCount(q: seq<DlqMessage>, n: nat, filter: Option<set<string>>,
                                        fates: nat -> RoundFate)
    requires n <= |q|
    ensures |PutBack(q, n, filter, fates)| == n - CountOf(Republished, q, n, filter, fates)
  {
    if n > 0 { PutBackCount(q, n - 1, filter, fates); }
  }

  /** With no arrivals a pass leaves exactly the messages it could not republish, in their old order. */
  lemma QuietPassKeepsOrder(q: seq<DlqMessage>, n: nat, filter: Option<set<string>>, fates: nat -> RoundFate,
                            arrivals: nat -> seq<DlqMessage>)
    requires n <= |q| && forall k: nat :: arrivals(k) == []
    ensures Tail(q, n, filter, fates, arrivals) == PutBack(q, n, filter, fates)
    ensures |PutBack(q, n, filter, fates)| == n - CountOf(Republished, q, n, filter, fates)
  {
    PassKeepsOrder(q, n, filter, fates, arrivals);
    NothingArrived(arrivals, n);
    ShuffleCounts(PutBack(q, n, filter, fates), Arrived(arrivals, n), Tail(q, n, filter, fates, arrivals));
  }

  lemma {:induction false} NothingArrived(arrivals: nat -> seq<DlqMessage>, n: nat)
    requires forall k: nat :: arrivals(k) == []
    ensures Arrived(arrivals, n) == []
  {
    if n > 0 { NothingArrived(arrivals, n - 1); }
  }

  /** A pass without a filter and without failures empties the DLQ of everything that parses. */
  lemma {:induction false} CleanPassLeavesOnlyInvalid(q: seq<DlqMessage>, n: nat, fates: nat -> RoundFate)
    requires n <= |q| && forall k: nat :: fates(k) == Works
    ensures forall m ::
              m in PutBack(q, n, None, fates) <==>
              (exists k :: 0 <= k < n && q[k] == m && !m.content.Envelope?)
  {
    if n > 0 {
      CleanPassLeavesOnlyInvalid(q, n - 1, fates);
      forall m ensures m in PutBack(q, n, None, fates)
          <==> (exists k :: 0 <= k < n && q[k] == m && !m.content.Envelope?) {
        if exists k :: 0 <= k < n && q[k] == m && !m.content.Envelope? {
          var k :| 0 <= k < n && q[k] == m && !m.content.Envelope?;
          if k < n - 1 { assert m in PutBack(q, n - 1, None, fates); }
        }
        if m in PutBack(q, n, None, fates) {
          if m in PutBack(q, n - 1, None, fates) {
            var k :| 0 <= k < n - 1 && q[k] == m && !m.content.Envelope?;
          } else {
            assert q[n - 1] == m;
          }
        }
      }
    }
  }

  datatype Ending = Finished | RanEmpty | Died

  class RepublishInboxDlqCommand {
    var dlq: seq<DlqMessage>
    var ingest: seq<OutMessage>        // messages that reached notifications.ingest

    constructor (dlq: seq<DlqMessage>)
      ensures this.dlq == dlq && ingest == []
    {
      this.dlq, ingest := dlq, [];
    }

    /**
     One pass: as many rounds as the DLQ held messages at its start, or fewer if it runs empty or the channel
     dies. Before round k `arrivals(k)` reaches the tail and others take `taken(k)` messages from the head.
     */
    method Execute(filter: Option<set<string>>, arrivals: nat -> seq<DlqMessage>, taken: nat -> nat,
                   fates: nat -> RoundFate)
        returns (result: RepublishResult, ending: Ending, ghost handled: seq<DlqMessage>)
      modifies this
      ensures |handled| <= |old(dlq)| && (ending.Finished? <==> |handled| == |old(dlq)|)
      ensures forall k :: 0 <= k < |handled| ==> Completes(fates(k))
      ensures FromLine(Line(old(dlq), handled, filter, fates, arrivals), handled, taken)
      ensures result == Counts(handled, |handled|, filter, fates)
      ensures var line := Line(old(dlq), handled, filter, fates, arrivals);
              var gone := Gone(taken, |handled|);
              && gone <= |line|
              && match ending
                 case Finished =>
                   && dlq == line[gone..]
                   && ingest == old(ingest) + Reissued(handled, |handled|, filter, fates)
                 case RanEmpty =>
                   && dlq == [] && |line + arrivals(|handled|)| <= gone + taken(|handled|)
                   && ingest == old(ingest) + Reissued(handled, |handled|, filter, fates)
                 case Died =>
                   var fate, at := fates(|handled|), gone + taken(|handled|);
                   var there := line + arrivals(|handled|);
                   && !Completes(fate) && at < |there|
                   && var d := Dispose(there[at], filter, fate);
                   && dlq == there[at..] + (if DiesLate(fate) then Back(there[at], d) else [])
                   && ingest == old(ingest) + (Reissued(handled, |handled|, filter, fates)
                                               + (if DiesLate(fate) then Onward(there[at], filter, fate) else []))
      ensures (forall k: nat :: taken(k) == 0) ==> handled == old(dlq)[..|handled|] && !ending.RanEmpty?
    {
      hide Pass, Tail, Reissued, Counts, Dispose, Reissue, FromLine, Line, Gone, Back, Onward, Counted, Lands;
      ghost var q, sent := dlq, [];
      result, handled := RepublishResult(0, 0, 0), [];
      var remaining, n := |dlq|, 0;
      PassStart(q, filter, fates, arrivals, taken);
      while remaining > 0
        invariant n == |handled| <= |q| && remaining == |q| - n
        invariant Pass(q, handled, filter, fates, arrivals, taken, dlq, sent, result)
        invariant ingest == old(ingest) + sent
        invariant forall k :: 0 <= k < n ==> Completes(fates(k))
      {
        remaining := remaining - 1;
        PassEnds(q, handled, filter, fates, arrivals, taken, dlq, sent, result);
        ghost var left := dlq;
        var got, completed := Round(arrivals(n), taken(n), filter, fates(n));
        if got.None? {
          ending := RanEmpty;
          return;
        }
        PassRound(q, handled, filter, fates, arrivals, taken, left, sent, result);
        if !completed {
          ending := Died;
          return;
        }
        sent := sent + Onward(got.value, filter, fates(n));
        result := Counted(result, Dispose(got.value, filter, fates(n)));
        handled, n := handled + [got.value], n + 1;
      }
      PassEnds(q, handled, filter, fates, arrivals, taken, dlq, sent, result);
      ending := Finished;
    }

    /** One round: get the head, settle it, acknowledge it; a channel that dies returns it to the head. */
    method Round(more: seq<DlqMessage>, t: nat, filter: Option<set<string>>, fate: RoundFate)
        returns (got: Option<DlqMessage>, completed: bool)
      modifies this
      ensures var there := old(dlq) + more;
              if t >= |there| then got.None? && dlq == [] && ingest == old(ingest)
              else
                var m := there[t];
                var back := if fate.DiesFirst? then [] else Back(m, Dispose(m, filter, fate));
                && got == Some(m) && completed == Completes(fate)
                && ingest == old(ingest) + (if fate.DiesFirst? then [] else Onward(m, filter, fate))
                && dlq == (if completed then there[t + 1..] else [m] + there[t + 1..]) + back
    {
      got, completed := None, false;
      dlq := dlq + more;
      if t >= |dlq| {
        dlq := [];
        return;
      }
      var msg := dlq[t];
      got, dlq := Some(msg), dlq[t + 1..];
      if !fate.DiesFirst? { Settle(msg, Dispose(msg, filter, fate), filter, fate); }
      completed := Completes(fate);
      if !completed { dlq := [msg] + dlq; }
    }

    /** Publish to the ingest exchange, or back through the DLX to the tail, or both. */
    method Settle(msg: DlqMessage, disposition: Disposition, filter: Option<set<string>>, fate: RoundFate)
      modifies this
      ensures dlq == old(dlq) + Back(msg, disposition)
      ensures ingest == old(ingest) + Onward(msg, filter, fate)
    {
      if Lands(msg, filter, fate) { ingest := ingest + [Reissue(msg)]; }
      if !disposition.Republished? { dlq := dlq + [msg]; }
    }
  }
}
