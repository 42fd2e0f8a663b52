/** The base consumer: how one delivery is settled, and how shutdown waits for deliveries under way. */
module RmqConsumer {
  import opened Common
  import opened Topology
  import opened RetryRing

  // ---------------------------------------------------------------- settling one delivery

  datatype Dlq = Dlq(maxAttempts: nat)

  /** Which calls succeed; every one of them may throw. */
  datatype World = World(parses: bool, handles: bool, ackWorks: bool, dlqPublishWorks: bool, dlqAckWorks: bool,
                         nackWorks: bool)

  predicate PastThreshold(headers: Headers, queue: Queue, dlq: Option<Dlq>) {
    dlq.Some? && Exhausted(headers, queue, dlq.value.maxAttempts)
  }

  /** One delivery: parse, handle, ack; on any throw dead-letter past the threshold, else reject without requeue. */
  method Dispatch(w: World, headers: Headers, queue: Queue, dlq: Option<Dlq>)
      returns (handled: bool, deadLettered: bool, acks: nat, nacks: nat)
    ensures handled <==> w.parses && w.handles
    // Never settled twice; acknowledged only when handled or in the DLQ;
    // unsettled only by a broken channel, which returns it.
    ensures acks + nacks <= 1
    ensures acks == 1 ==> (handled && w.ackWorks) || (deadLettered && w.dlqAckWorks)
    ensures nacks == 1 ==> w.nackWorks
    ensures acks + nacks == 0 <==> acks == 0 && !w.nackWorks
    // Past the threshold it goes to the DLQ unless it was acknowledged as handled, below it never.
    ensures !PastThreshold(headers, queue, dlq) ==> !deadLettered && (acks == 1 <==> handled && w.ackWorks)
    ensures PastThreshold(headers, queue, dlq) && w.dlqPublishWorks ==>
              && (deadLettered <==> !(handled && w.ackWorks))
              && (w.dlqAckWorks ==> acks == 1 && nacks == 0)
    // A DLQ publish that throws falls back to the rejection, one that lands before a failing ack leaves a second copy.
    ensures PastThreshold(headers, queue, dlq) && !w.dlqPublishWorks ==>
              !deadLettered && (acks == 1 <==> handled && w.ackWorks)
    ensures deadLettered && !w.dlqAckWorks && w.nackWorks ==> nacks == 1
    // The threshold: the rejections the message carries and this one reach the limit of a consumer that has a DLQ.
    ensures deadLettered ==> dlq.Some? && DeathCount(headers, queue) + 1 >= dlq.value.maxAttempts
    ensures dlq.Some? && DeathCount(headers, queue) + 1 >= dlq.value.maxAttempts && w.dlqPublishWorks ==>
              (deadLettered <==> !(handled && w.ackWorks))
  {
    deadLettered, acks, nacks := false, 0, 0;
    handled := w.parses && w.handles;
    if handled && w.ackWorks {
      acks := 1;
      return;
    }
    if PastThreshold(headers, queue, dlq) && w.dlqPublishWorks {
      deadLettered := true;
      if w.dlqAckWorks {
        acks := 1;
        return;
      }
    }
    if w.nackWorks { nacks := 1; }
  }

  // ---------------------------------------------------------------- shutdown

  datatype Phase = Running | Cancelling | Draining | Closed(timedOut: bool)

  /** inFlight, shuttingDown and drainResolve, with the deliveries they stand for. */
  datatype Shutdown = Shutdown(
    inFlight: int,
    shuttingDown: bool,
    phase: Phase,
    open: set<nat>,                    // auxiliary: deliveries being dispatched
    started: nat,                      // auxiliary
    finished: nat,                     // auxiliary
    broken: set<nat>,                  // auxiliary: open dispatches whose channel has closed under them
    cut: nat,                          // auxiliary: how many there were
    settled: nat,                      // auxiliary: finished dispatches that acknowledged or rejected their delivery
    requeued: nat)                     // auxiliary: deliveries handed back because of the shutdown

  datatype Event =
    | Deliver(tag: nat)
    | Finish(tag: nat)
    | ChannelCloses
    | BeginShutdown
    | CancelDone                       // the cancel returned or failed: check for deliveries under way
    | DrainTimeout

  const INITIAL := Shutdown(0, false, Running, {}, 0, 0, {}, 0, 0, 0)

  /** Delivery tags are not reused while open; only an open dispatch finishes; Nest shuts down once. */
  predicate Possible(s: Shutdown, e: Event) {
    match e
    case Deliver(tag) => tag !in s.open
    case Finish(tag) => tag in s.open
    case ChannelCloses => true
    case BeginShutdown => s.phase.Running?
    case CancelDone => s.phase.Cancelling?
    case DrainTimeout => s.phase.Draining?
  }

  function After(s: Shutdown, e: Event): Shutdown
    requires Possible(s, e)
  {
    match e
    case Deliver(tag) =>
      if s.shuttingDown then s.(requeued := s.requeued + 1)
      else s.(inFlight := s.inFlight + 1, open := s.open + {tag}, started := s.started + 1)
    case Finish(tag) =>
      var left := s.inFlight - 1;
      s.(inFlight := left, open := s.open - {tag}, finished := s.finished + 1,
         broken := s.broken - {tag}, settled := s.settled + (if tag in s.broken then 0 else 1),
         phase := if s.shuttingDown && left == 0 && s.phase.Draining? then Closed(false) else s.phase)
    // The dispatches go on, but neither ack nor nack can reach the broker, which takes the deliveries back.
    case ChannelCloses => s.(broken := s.open, cut := s.cut + |s.open - s.broken|)
    case BeginShutdown => s.(shuttingDown := true, phase := Cancelling)
    case CancelDone => s.(phase := if s.inFlight > 0 then Draining else Closed(false))
    case DrainTimeout => s.(phase := Closed(true))
  }

  ghost predicate ShutdownInv(s: Shutdown) {
    && s.inFlight == |s.open| == s.started - s.finished
    && (s.shuttingDown <==> !s.phase.Running?)
    // Every dispatch that has finished settled its delivery, unless its channel closed under it.
    && s.broken <= s.open && s.settled + s.cut == s.finished + |s.broken|
    // No lost wakeup: the drain never waits for nothing.
    && (s.phase.Draining? ==> s.inFlight > 0)
    // Unless it timed out, a shutdown ends only after every dispatch
    // has, with the delivery settled or its channel gone.
    && (s.phase == Closed(false) ==> s.open == {} && s.started == s.settled + s.cut)
  }

  lemma ShutdownStep(s: Shutdown, e: Event)
    requires ShutdownInv(s) && Possible(s, e)
    ensures ShutdownInv(After(s, e))
    ensures s.shuttingDown ==>
              After(s, e).shuttingDown && After(s, e).started == s.started && After(s, e).open <= s.open
  {
    match e
    case Finish(tag) => Finished(s, tag);
    case ChannelCloses => Closes(s);
    case _ =>
  }

  lemma Finished(s: Shutdown, tag: nat)
    requires ShutdownInv(s) && tag in s.open
    ensures ShutdownInv(After(s, Finish(tag)))
  {
    assert |s.open - {tag}| == |s.open| - 1;
    if tag in s.broken {
      assert |s.broken - {tag}| == |s.broken| - 1;
    } else {
      assert s.broken - {tag} == s.broken;
    }
  }

  lemma Closes(s: Shutdown)
    requires ShutdownInv(s)
    ensures ShutdownInv(After(s, ChannelCloses))
  {
    assert s.open == (s.open - s.broken) + s.broken;
  }

  lemma InitialShutdown()
    ensures ShutdownInv(INITIAL)
  {
  }

  predicate PossibleRun(s: Shutdown, es: seq<Event>)
    decreases |es|
  {
    es == [] || (Possible(s, es[0]) && PossibleRun(After(s, es[0]), es[1..]))
  }

  function AfterAll(s: Shutdown, es: seq<Event>): Shutdown
    requires PossibleRun(s, es)
    decreases |es|
  {
    if es == [] then s else AfterAll(After(s, es[0]), es[1..])
  }

  /** For every interleaving of deliveries, completions and one shutdown. */
  lemma {:induction false} EveryInterleaving(s: Shutdown, es: seq<Event>)
    requires ShutdownInv(s) && PossibleRun(s, es)
    ensures ShutdownInv(AfterAll(s, es))
    ensures s.shuttingDown ==> AfterAll(s, es).started == s.started && AfterAll(s, es).open <= s.open
    decreases |es|
  {
    if es != [] {
      ShutdownStep(s, es[0]);
      EveryInterleaving(After(s, es[0]), es[1..]);
    }
  }

  function Finishes(tags: seq<nat>): seq<Event> {
    if tags == [] then [] else [Finish(tags[0])] + Finishes(tags[1..])
  }

  /** The drain completes by itself: once the open dispatches have finished, in any order, the shutdown is closed. */
  lemma {:induction false} DrainCompletes(s: Shutdown, tags: seq<nat>)
    requires ShutdownInv(s) && s.phase.Draining?
    requires (forall i, j :: 0 <= i < j < |tags| ==> tags[i] != tags[j]) && (set t | t in tags) == s.open
    ensures PossibleRun(s, Finishes(tags)) && AfterAll(s, Finishes(tags)).phase == Closed(false)
    decreases |tags|
  {
    FirstFinishes(s, tags);
    hide ShutdownInv, After, Possible;
    var n := After(s, Finish(tags[0]));
    assert Finishes(tags)[1..] == Finishes(tags[1..]);
    if |tags| > 1 { DrainCompletes(n, tags[1..]); } else { assert Finishes(tags[1..]) == []; }
  }

  /** One dispatch fewer; with the last one the shutdown is closed. */
  lemma FirstFinishes(s: Shutdown, tags: seq<nat>)
    requires ShutdownInv(s) && s.phase.Draining?
    requires (forall i, j :: 0 <= i < j < |tags| ==> tags[i] != tags[j]) && (set t | t in tags) == s.open
    ensures tags != [] && Possible(s, Finish(tags[0]))
    ensures var n := After(s, Finish(tags[0]));
            && ShutdownInv(n) && (set t | t in tags[1..]) == n.open
            && n.phase == if |tags| == 1 then Closed(false) else Draining
  {
    assert tags == [] ==> s.open == {};
    assert tags[0] in s.open;
    var n := After(s, Finish(tags[0]));
    ShutdownStep(s, Finish(tags[0]));
    OthersOpen(s.open, tags);
    if |tags| == 1 {
      assert n.open == {};
    } else {
      assert tags[1..][0] in tags[1..];
      assert tags[1..][0] in n.open && n.open != {};
    }
  }

  lemma OthersOpen(open: set<nat>, tags: seq<nat>)
    requires tags != [] && (set t | t in tags) == open
    requires forall i, j :: 0 <= i < j < |tags| ==> tags[i] != tags[j]
    ensures (set t | t in tags[1..]) == open - {tags[0]}
  {
    forall t ensures t in tags[1..] <==> t in open - {tags[0]} {
      if t in tags[1..] {
        var i :| 0 <= i < |tags[1..]| && tags[1..][i] == t;
        assert tags[i + 1] == t && t in tags;
      }
      if t in open - {tags[0]} {
        assert t in tags;
      }
    }
  }

  /** The fields of the consumer, updated by the consume callback, the dispatch epilogue and the shutdown hook. */
  class Consumer {
    var inFlight: int
    var shuttingDown: bool
    var drainPending: bool             // drainResolve is set and not called
    ghost var state: Shutdown

    ghost predicate Valid()
      reads this
    {
      && ShutdownInv(state) && state.inFlight == inFlight && state.shuttingDown == shuttingDown
      && (drainPending <==> state.phase.Draining?)
    }

    constructor ()
      ensures Valid() && state == INITIAL
    {
      hide ShutdownInv;
      InitialShutdown();
      inFlight, shuttingDown, drainPending := 0, false, false;
      state := INITIAL;
    }

    /** Whether the delivery is dispatched; otherwise it is requeued. */
    method OnMessage(tag: nat) returns (dispatched: bool)
      requires Valid() && Possible(state, Deliver(tag))
      modifies this
      ensures Valid() && state == After(old(state), Deliver(tag)) && dispatched == !old(shuttingDown)
    {
      ShutdownStep(state, Deliver(tag));
      state := After(state, Deliver(tag));
      if shuttingDown { return false; }
      inFlight := inFlight + 1;
      dispatched := true;
    }

    method OnDispatchDone(tag: nat) returns (resolved: bool)
      requires Valid() && Possible(state, Finish(tag))
      modifies this
      ensures Valid() && state == After(old(state), Finish(tag))
      ensures resolved <==> old(state).phase.Draining? && state.phase == Closed(false)
    {
      ShutdownStep(state, Finish(tag));
      state := After(state, Finish(tag));
      inFlight := inFlight - 1;
      resolved := false;
      if shuttingDown && inFlight == 0 && drainPending {
        drainPending := false;
        resolved := true;
      }
    }

    /**
     One dispatch to its end. A closed channel takes neither ack nor nack; an open one takes the nack. So the
     delivery is settled once exactly when its channel is still there.
     */
    method OnDispatch(tag: nat, w: World, headers: Headers, queue: Queue, dlq: Option<Dlq>)
        returns (acks: nat, nacks: nat, resolved: bool)
      requires Valid() && Possible(state, Finish(tag))
      requires tag in state.broken ==> !w.ackWorks && !w.dlqAckWorks && !w.nackWorks
      requires tag !in state.broken ==> w.nackWorks
      modifies this
      ensures Valid() && state == After(old(state), Finish(tag))
      ensures acks + nacks == (if tag in old(state).broken then 0 else 1) == state.settled - old(state).settled
    {
      var handled, deadLettered;
      handled, deadLettered, acks, nacks := Dispatch(w, headers, queue, dlq);
      resolved := OnDispatchDone(tag);
    }

    /** The base consumer does not notice; its dispatches go on. */
    ghost method OnChannelClosed()
      requires Valid()
      modifies this
      ensures Valid() && state == After(old(state), ChannelCloses)
    {
      ShutdownStep(state, ChannelCloses);
      state := After(state, ChannelCloses);
    }

    method OnShutdown()
      requires Valid() && Possible(state, BeginShutdown)
      modifies this
      ensures Valid() && state == After(old(state), BeginShutdown)
    {
      ShutdownStep(state, BeginShutdown);
      state := After(state, BeginShutdown);
      shuttingDown := true;
    }

    /** The check and the registration of the waiter happen in one turn of the event loop. */
    method OnCancelDone() returns (waits: bool)
      requires Valid() && Possible(state, CancelDone)
      modifies this
      ensures Valid() && state == After(old(state), CancelDone) && (waits <==> old(state).open != {})
    {
      ShutdownStep(state, CancelDone);
      state := After(state, CancelDone);
      waits := inFlight > 0;
      if waits { drainPending := true; }
    }

    /** The timer resolves the same promise; deliveries still open are left behind. */
    method OnDrainTimeout()
      requires Valid() && Possible(state, DrainTimeout)
      modifies this
      ensures Valid() && state == After(old(state), DrainTimeout) && !drainPending
    {
      ShutdownStep(state, DrainTimeout);
      state := After(state, DrainTimeout);
      drainPending := false;
    }
  }
}
