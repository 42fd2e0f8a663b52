/** The broker objects the notifier asserts at boot, and where each hop of a message leads. */
module Topology {
  import opened Common
  import opened Routing

  datatype Exchange =
    | WORK                       // notifications.work
    | RETRY_WORK                 // notifications.retry.work
    | INGEST_X                   // notifications.ingest
    | RETRY_EVENTS               // notifications.retry.events
    | DLX                        // notifications.dlx
    | SYSTEM_CRON                // system.cron
    | UNROUTED                   // unrouted.alt, which the scheduler declares

  datatype Queue =
    | PUSH_SEND                  // notifier.push-send
    | PUSH_SEND_RETRY            // notifier.push-send.retry
    | INGEST_Q                   // notifier.ingest
    | INGEST_RETRY               // notifier.ingest.retry
    | INGEST_DLQ                 // notifier.ingest.dlq
    | CRON_Q                     // notifier.cron

  datatype QueueArgs = QueueArgs(deadLetterExchange: Option<Exchange>, deadLetterKey: Option<string>,
                                 messageTtlMs: Option<nat>)

  datatype Binding = Binding(queue: Queue, exchange: Exchange, pattern: string)

  /** Exchanges with their alternate exchange, queues with their arguments, bindings. */
  datatype Broker = Broker(exchanges: map<Exchange, Option<Exchange>>, queues: map<Queue, QueueArgs>,
                           bindings: set<Binding>)

  const PLAIN := QueueArgs(None, None, None)
  const PUSH_KEY := "push" + "." + "send"
  const CRON_KEY := "cron" + "." + "notifier"
  const INGEST_PATTERN := Under(INGEST)
  const INGEST_RETRY_TTL_MS: nat := 5_000

  const PUSH_SEND_RETRY_ARGS := QueueArgs(Some(WORK), Some(PUSH_KEY), None)
  const INGEST_RETRY_ARGS := QueueArgs(Some(INGEST_X), None, Some(INGEST_RETRY_TTL_MS))
  const INGEST_ARGS := QueueArgs(Some(RETRY_EVENTS), None, None)

  /** The queues a publish reaches. */
  function Route(b: Broker, exchange: Exchange, key: string): set<Queue> {
    set q | q in b.bindings && q.exchange == exchange && KeyMatches(q.pattern, key) :: q.queue
  }

  /** Where a message that dies in `queue` (rejected or expired) goes next; nowhere means it is dropped. */
  function DeadLetter(b: Broker, queue: Queue, key: string): set<Queue> {
    if queue !in b.queues || b.queues[queue].deadLetterExchange.None? then {}
    else
      var args := b.queues[queue];
      Route(b, args.deadLetterExchange.value, if args.deadLetterKey.Some? then args.deadLetterKey.value else key)
  }

  // ---------------------------------------------------------------- setup, in whatever order

  datatype Op =
    | Declare(exchange: Exchange, alternate: Option<Exchange>)
    | DeclareQueue(queue: Queue, args: QueueArgs)
    | Bind(binding: Binding)

  /** The asserts are idempotent. */
  function Apply(b: Broker, op: Op): Broker {
    match op
    case Declare(x, alternate) => b.(exchanges := b.exchanges[x := alternate])
    case DeclareQueue(q, args) => b.(queues := b.queues[q := args])
    case Bind(binding) => b.(bindings := b.bindings + {binding})
  }

  function ApplyAll(b: Broker, ops: seq<Op>): Broker {
    if ops == [] then b else Apply(ApplyAll(b, ops[..|ops| - 1]), ops[|ops| - 1])
  }

  const NOTHING := Broker(map[], map[], {})

  /** The broker has what the operations declare and nothing else. */
  ghost predicate Built(b: Broker, done: set<Op>) {
    && (forall op :: op in done && op.Declare? ==>
          op.exchange in b.exchanges && b.exchanges[op.exchange] == op.alternate)
    && (forall x :: x in b.exchanges ==> Declare(x, b.exchanges[x]) in done)
    && (forall op :: op in done && op.DeclareQueue? ==> op.queue in b.queues && b.queues[op.queue] == op.args)
    && (forall q :: q in b.queues ==> DeclareQueue(q, b.queues[q]) in done)
    && (forall binding :: binding in b.bindings <==> Bind(binding) in done)
  }

  lemma BuiltUniquely(a: Broker, b: Broker, done: set<Op>)
    requires Built(a, done) && Built(b, done)
    ensures a == b
  {
    assert forall x :: x in a.exchanges ==> x in b.exchanges && b.exchanges[x] == a.exchanges[x];
    assert forall x :: x in b.exchanges ==> x in a.exchanges;
    assert forall q :: q in a.queues ==> q in b.queues && b.queues[q] == a.queues[q];
    assert forall q :: q in b.queues ==> q in a.queues;
    assert a.exchanges == b.exchanges && a.queues == b.queues && a.bindings == b.bindings;
  }

  /** Nobody asks for other arguments: a second assert with different ones would close the channel. */
  function AlternateOf(x: Exchange): Option<Exchange> {
    if x == SYSTEM_CRON then Some(UNROUTED) else None
  }

  function ArgsOf(q: Queue): QueueArgs {
    match q
    case PUSH_SEND_RETRY => PUSH_SEND_RETRY_ARGS
    case INGEST_RETRY => INGEST_RETRY_ARGS
    case INGEST_Q => INGEST_ARGS
    case _ => PLAIN
  }

  predicate Agreed(op: Op) {
    && (op.Declare? ==> op.alternate == AlternateOf(op.exchange))
    && (op.DeclareQueue? ==> op.args == ArgsOf(op.queue))
  }

  /** Agreeing operations build exactly what they declare, in any order and however often. */
  lemma {:induction false} Builds(ops: seq<Op>)
    requires forall op :: op in ops ==> Agreed(op)
    ensures Built(ApplyAll(NOTHING, ops), (set op | op in ops))
    decreases |ops|
  {
    hide Agreed, Apply;
    if ops != [] {
      var init, last := ops[..|ops| - 1], ops[|ops| - 1];
      assert ops == init + [last];
      Builds(init);
      assert (set op | op in ops) == (set op | op in init) + {last};
      Grows(ApplyAll(NOTHING, init), (set op | op in init), last);
    }
  }

  lemma Grows(b: Broker, done: set<Op>, op: Op)
    requires Built(b, done) && Agreed(op) && forall o :: o in done ==> Agreed(o)
    ensures Built(Apply(b, op), done + {op})
  {
  }

  const TOPOLOGY_OPS := [
    Declare(WORK, None), Declare(RETRY_WORK, None), Declare(INGEST_X, None), Declare(RETRY_EVENTS, None),
        Declare(DLX, None),
    DeclareQueue(PUSH_SEND_RETRY, PUSH_SEND_RETRY_ARGS), Bind(Binding(PUSH_SEND_RETRY, RETRY_WORK, PUSH_KEY)),
    DeclareQueue(INGEST_RETRY, INGEST_RETRY_ARGS), Bind(Binding(INGEST_RETRY, RETRY_EVENTS, INGEST_PATTERN)),
    DeclareQueue(INGEST_DLQ, PLAIN), Bind(Binding(INGEST_DLQ, DLX, INGEST_PATTERN))]

  function ConsumerOps(queue: Queue, args: QueueArgs, exchange: Exchange, alternate: Option<Exchange>,
                       pattern: string): seq<Op> {
    [Declare(exchange, alternate), DeclareQueue(queue, args), Bind(Binding(queue, exchange, pattern))]
  }

  const INGEST_OPS := ConsumerOps(INGEST_Q, INGEST_ARGS, INGEST_X, None, INGEST_PATTERN)
  const PUSH_OPS := ConsumerOps(PUSH_SEND, PLAIN, WORK, None, PUSH_KEY)
  const CRON_OPS := ConsumerOps(CRON_Q, PLAIN, SYSTEM_CRON, Some(UNROUTED), CRON_KEY)

  /** What boot leaves behind. */
  function Booted(): Broker {
    Broker(
      map[WORK := None, RETRY_WORK := None, INGEST_X := None, RETRY_EVENTS := None, DLX := None,
          SYSTEM_CRON := Some(UNROUTED)],
      map[PUSH_SEND_RETRY := PUSH_SEND_RETRY_ARGS, INGEST_RETRY := INGEST_RETRY_ARGS, INGEST_DLQ := PLAIN,
          INGEST_Q := INGEST_ARGS, PUSH_SEND := PLAIN, CRON_Q := PLAIN],
      {Binding(PUSH_SEND_RETRY, RETRY_WORK, PUSH_KEY), Binding(INGEST_RETRY, RETRY_EVENTS, INGEST_PATTERN),
       Binding(INGEST_DLQ, DLX, INGEST_PATTERN), Binding(INGEST_Q, INGEST_X, INGEST_PATTERN),
       Binding(PUSH_SEND, WORK, PUSH_KEY), Binding(CRON_Q, SYSTEM_CRON, CRON_KEY)})
  }

  /** Everything the notifier asserts at boot: the topology service and its three consumers. */
  predicate AtBoot(op: Op) {
    op in TOPOLOGY_OPS || op in INGEST_OPS || op in PUSH_OPS || op in CRON_OPS
  }

  lemma ExchangesAtBoot(x: Exchange, alternate: Option<Exchange>)
    ensures AtBoot(Declare(x, alternate)) <==> x in Booted().exchanges && Booted().exchanges[x] == alternate
  {
    assert TOPOLOGY_OPS[0] == Declare(WORK, None) && TOPOLOGY_OPS[1] == Declare(RETRY_WORK, None);
    assert TOPOLOGY_OPS[2] == Declare(INGEST_X, None) && TOPOLOGY_OPS[3] == Declare(RETRY_EVENTS, None);
    assert TOPOLOGY_OPS[4] == Declare(DLX, None) && CRON_OPS[0] == Declare(SYSTEM_CRON, Some(UNROUTED));
  }

  lemma QueuesAtBoot(q: Queue, args: QueueArgs)
    ensures AtBoot(DeclareQueue(q, args)) <==> q in Booted().queues && Booted().queues[q] == args
  {
    assert TOPOLOGY_OPS[5] == DeclareQueue(PUSH_SEND_RETRY, PUSH_SEND_RETRY_ARGS);
    assert TOPOLOGY_OPS[7] == DeclareQueue(INGEST_RETRY, INGEST_RETRY_ARGS);
    assert TOPOLOGY_OPS[9] == DeclareQueue(INGEST_DLQ, PLAIN) && INGEST_OPS[1] == DeclareQueue(INGEST_Q, INGEST_ARGS);
    assert PUSH_OPS[1] == DeclareQueue(PUSH_SEND, PLAIN) && CRON_OPS[1] == DeclareQueue(CRON_Q, PLAIN);
  }

  lemma BindingsAtBoot(binding: Binding)
    ensures AtBoot(Bind(binding)) <==> binding in Booted().bindings
  {
    assert TOPOLOGY_OPS[6] == Bind(Binding(PUSH_SEND_RETRY, RETRY_WORK, PUSH_KEY));
    assert TOPOLOGY_OPS[8] == Bind(Binding(INGEST_RETRY, RETRY_EVENTS, INGEST_PATTERN));
    assert TOPOLOGY_OPS[10] == Bind(Binding(INGEST_DLQ, DLX, INGEST_PATTERN));
    assert INGEST_OPS[2] == Bind(Binding(INGEST_Q, INGEST_X, INGEST_PATTERN));
    assert PUSH_OPS[2] == Bind(Binding(PUSH_SEND, WORK, PUSH_KEY));
    assert CRON_OPS[2] == Bind(Binding(CRON_Q, SYSTEM_CRON, CRON_KEY));
  }

  lemma BootAgrees(op: Op)
    requires AtBoot(op)
    ensures Agreed(op)
  {
    match op
    case Declare(x, alternate) => ExchangesAtBoot(x, alternate);
    case DeclareQueue(q, args) => QueuesAtBoot(q, args);
    case Bind(_) =>
  }

  lemma BootedIsBuilt(ops: set<Op>)
    requires forall op :: op in ops <==> AtBoot(op)
    ensures Built(Booted(), ops)
  {
    hide AtBoot, Booted;
    forall x, alternate
      ensures Declare(x, alternate) in ops <==> x in Booted().exchanges && Booted().exchanges[x] == alternate
    {
      ExchangesAtBoot(x, alternate);
    }
    forall q, args ensures DeclareQueue(q, args) in ops <==> q in Booted().queues && Booted().queues[q] == args {
      QueuesAtBoot(q, args);
    }
    forall binding ensures Bind(binding) in ops <==> binding in Booted().bindings {
      BindingsAtBoot(binding);
    }
  }

  /**
   Modules initialise in no promised order, each in several awaited
   steps: every interleaving ends in the same broker.
   */
  lemma BootsInAnyOrder(ops: seq<Op>)
    requires forall op :: op in ops <==> AtBoot(op)
    ensures ApplyAll(NOTHING, ops) == Booted()
  {
    hide AtBoot, Booted, Agreed;
    forall op | op in ops ensures Agreed(op) { BootAgrees(op); }
    Builds(ops);
    BootedIsBuilt((set op | op in ops));
    BuiltUniquely(ApplyAll(NOTHING, ops), Booted(), (set op | op in ops));
  }

  lemma ApplyOne(b: Broker, ops: seq<Op>, op: Op)
    ensures ApplyAll(b, ops + [op]) == Apply(ApplyAll(b, ops), op)
  {
    assert (ops + [op])[..|ops|] == ops;
  }

  /** A channel during setup; the broker refuses to change the arguments of what exists and to bind what does not. */
  class Channel {
    var state: Broker
    ghost var issued: seq<Op>

    ghost predicate Valid()
      reads this
    {
      && state == ApplyAll(NOTHING, issued)
      && (forall x :: x in state.exchanges ==> state.exchanges[x] == AlternateOf(x))
      && (forall q :: q in state.queues ==> state.queues[q] == ArgsOf(q))
    }

    constructor ()
      ensures Valid() && state == NOTHING && issued == []
    {
      state, issued := NOTHING, [];
    }

    method Issue(op: Op)
      requires Valid() && Agreed(op)
      requires op.Bind? ==> op.binding.queue in state.queues && op.binding.exchange in state.exchanges
      modifies this
      ensures Valid() && state == Apply(old(state), op) && issued == old(issued) + [op]
    {
      ApplyOne(NOTHING, issued, op);
      state, issued := Apply(state, op), issued + [op];
    }

    /** One exchange of the topology service. */
    method IssueExchange(exchange: Exchange)
      requires Valid() && AlternateOf(exchange) == None
      modifies this
      ensures Valid() && issued == old(issued) + [Declare(exchange, None)]
      ensures state.exchanges.Keys == old(state).exchanges.Keys + {exchange}
    {
      Issue(Declare(exchange, None));
    }

    /** One exchange, one queue, one binding of the queue to an exchange. */
    method Connect(queue: Queue, exchange: Exchange, pattern: string)
      requires Valid() && exchange in state.exchanges
      modifies this
      ensures Valid() && state.exchanges == old(state).exchanges
      ensures issued == old(issued) + [DeclareQueue(queue, ArgsOf(queue)), Bind(Binding(queue, exchange, pattern))]
    {
      Issue(DeclareQueue(queue, ArgsOf(queue)));
      Issue(Bind(Binding(queue, exchange, pattern)));
    }
  }

  class NotifierTopologyService {

    constructor () {
    }

    /** Issues the service's operations, whatever the consumers have issued before. */
    method OnModuleInit(ch: Channel)
      requires ch.Valid()
      modifies ch
      ensures ch.Valid() && ch.issued == old(ch.issued) + TOPOLOGY_OPS
    {
      hide ApplyAll, Channel.Valid;
      AssertExchanges(ch);
      ch.Connect(PUSH_SEND_RETRY, RETRY_WORK, PUSH_KEY);
      ch.Connect(INGEST_RETRY, RETRY_EVENTS, INGEST_PATTERN);
      ch.Connect(INGEST_DLQ, DLX, INGEST_PATTERN);
    }

    method AssertExchanges(ch: Channel)
      requires ch.Valid()
      modifies ch
      ensures ch.Valid() && ch.issued == old(ch.issued) + TOPOLOGY_OPS[..5]
      ensures {WORK, RETRY_WORK, INGEST_X, RETRY_EVENTS, DLX} <= ch.state.exchanges.Keys
    {
      hide ApplyAll, Channel.Valid;
      ch.IssueExchange(WORK);
      ch.IssueExchange(RETRY_WORK);
      ch.IssueExchange(INGEST_X);
      ch.IssueExchange(RETRY_EVENTS);
      ch.IssueExchange(DLX);
    }
  }

  /** The setup a consumer's own metadata asks for. */
  method ConsumerSetup(ch: Channel, queue: Queue, args: QueueArgs, exchange: Exchange, alternate: Option<Exchange>,
                       pattern: string)
    requires ch.Valid() && args == ArgsOf(queue) && alternate == AlternateOf(exchange)
    modifies ch
    ensures ch.Valid() && ch.issued == old(ch.issued) + ConsumerOps(queue, args, exchange, alternate, pattern)
  {
    ch.Issue(Declare(exchange, alternate));
    ch.Connect(queue, exchange, pattern);
  }

  /** The three consumers, one after the other. */
  method ConsumersSetup(ch: Channel)
    requires ch.Valid()
    modifies ch
    ensures ch.Valid() && ch.issued == old(ch.issued) + (INGEST_OPS + PUSH_OPS + CRON_OPS)
  {
    hide ApplyAll, Channel.Valid;
    ConsumerSetup(ch, INGEST_Q, INGEST_ARGS, INGEST_X, None, INGEST_PATTERN);
    ConsumerSetup(ch, PUSH_SEND, PLAIN, WORK, None, PUSH_KEY);
    ConsumerSetup(ch, CRON_Q, PLAIN, SYSTEM_CRON, Some(UNROUTED), CRON_KEY);
  }

  /** A boot that runs module by module. */
  method Boot(consumersFirst: bool) returns (ch: Channel)
    ensures fresh(ch) && ch.state == Booted()
  {
    hide Booted, ApplyAll, AtBoot;
    ch := new Channel();
    var service := new NotifierTopologyService();
    if consumersFirst {
      ConsumersSetup(ch);
      service.OnModuleInit(ch);
    } else {
      service.OnModuleInit(ch);
      ConsumersSetup(ch);
    }
    IssuedAll(ch.issued, consumersFirst);
    BootsInAnyOrder(ch.issued);
  }

  lemma IssuedAll(issued: seq<Op>, consumersFirst: bool)
    requires issued == if consumersFirst then INGEST_OPS + PUSH_OPS + CRON_OPS + TOPOLOGY_OPS
                       else TOPOLOGY_OPS + (INGEST_OPS + PUSH_OPS + CRON_OPS)
    ensures forall op :: op in issued <==> AtBoot(op)
  {
  }

  /** A tick of the scheduler reaches the notifier's cron queue. */
  lemma CronRoute()
    ensures Route(Booted(), SYSTEM_CRON, CRON_KEY) == {CRON_Q}
  {
    hide KeyMatches;
    TwoWords("cron", "notifier", CRON_KEY);
    Only(SYSTEM_CRON, CRON_KEY, Binding(CRON_Q, SYSTEM_CRON, CRON_KEY));
  }

  /** The binding on the bare work key takes exactly that key. */
  lemma PushBinding(key: string)
    ensures KeyMatches(PUSH_KEY, key) <==> Words(key) == ["push", "send"]
    ensures KeyMatches(PUSH_KEY, PUSH_KEY)
  {
    TwoWords("push", "send", key);
    TwoWords("push", "send", PUSH_KEY);
  }

  lemma TwoWords(a: string, b: string, key: string)
    requires '.' !in a && '.' !in b && a !in {"*", "#"} && b !in {"*", "#"}
    ensures Words(a + "." + b) == [a, b]
    ensures KeyMatches(a + "." + b, key) <==> Words(key) == [a, b]
  {
    WordsSplit(a, b);
    OneWord(a);
    OneWord(b);
    LiteralMatches([a, b], Words(key));
  }

  /** The ingest ring: published, rejected, expired, dead-lettered. One queue each, for every type. */
  lemma IngestRing(kind: string)
    ensures var key := RoutingKeyFor(kind);
            && Route(Booted(), INGEST_X, key) == {INGEST_Q}
            && DeadLetter(Booted(), INGEST_Q, key) == {INGEST_RETRY}
            && DeadLetter(Booted(), INGEST_RETRY, key) == {INGEST_Q}
            && Route(Booted(), DLX, INGEST) == {INGEST_DLQ}
            && DeadLetter(Booted(), INGEST_DLQ, INGEST) == {}
  {
    hide KeyMatches, RoutingKeyFor;
    EveryTypeRoutes(kind);
    Only(INGEST_X, RoutingKeyFor(kind), Binding(INGEST_Q, INGEST_X, INGEST_PATTERN));
    Only(RETRY_EVENTS, RoutingKeyFor(kind), Binding(INGEST_RETRY, RETRY_EVENTS, INGEST_PATTERN));
    Only(DLX, INGEST, Binding(INGEST_DLQ, DLX, INGEST_PATTERN));
  }

  /** When a message put into a queue at a given time dies of age: by the queue's TTL or by its own expiration. */
  function ExpiresAt(b: Broker, queue: Queue, expirationMs: Option<nat>, at: Time): Option<Time> {
    if queue !in b.queues then None
    else
      var ttl := b.queues[queue].messageTtlMs;
      if ttl.Some? && expirationMs.Some? then Some(at + Min(ttl.value, expirationMs.value))
      else if ttl.Some? then Some(at + ttl.value)
      else if expirationMs.Some? then Some(at + expirationMs.value)
      else None
  }

  /**
   What is parked comes back: an event after five seconds, a work
   message after its own delay. Nothing else dies of age.
   */
  lemma ParkedComesBack(kind: string, at: Time, backoffMs: nat)
    ensures ExpiresAt(Booted(), INGEST_RETRY, None, at) == Some(at + 5_000)
    ensures DeadLetter(Booted(), INGEST_RETRY, RoutingKeyFor(kind)) == {INGEST_Q}
    ensures ExpiresAt(Booted(), PUSH_SEND_RETRY, Some(backoffMs), at) == Some(at + backoffMs)
    ensures DeadLetter(Booted(), PUSH_SEND_RETRY, PUSH_KEY) == {PUSH_SEND}
    ensures forall q :: q in {INGEST_Q, INGEST_DLQ, PUSH_SEND, CRON_Q} ==> ExpiresAt(Booted(), q, None, at) == None
  {
    IngestRing(kind);
    SendRing();
    hide Route, DeadLetter, RoutingKeyFor;
  }

  /** The send ring: whatever its key, a message that dies in the retry queue is work again, a rejected one is gone. */
  lemma SendRing()
    ensures Route(Booted(), WORK, PUSH_KEY) == {PUSH_SEND}
    ensures Route(Booted(), RETRY_WORK, PUSH_KEY) == {PUSH_SEND_RETRY}
    ensures forall key :: DeadLetter(Booted(), PUSH_SEND_RETRY, key) == {PUSH_SEND}
    ensures forall key :: DeadLetter(Booted(), PUSH_SEND, key) == {}
  {
    hide KeyMatches;
    PushBinding(PUSH_KEY);
    Only(WORK, PUSH_KEY, Binding(PUSH_SEND, WORK, PUSH_KEY));
    Only(RETRY_WORK, PUSH_KEY, Binding(PUSH_SEND_RETRY, RETRY_WORK, PUSH_KEY));
  }

  /** Each exchange of the booted broker has one binding. */
  lemma Only(exchange: Exchange, key: string, b: Binding)
    requires b in Booted().bindings && b.exchange == exchange && KeyMatches(b.pattern, key)
    ensures Route(Booted(), exchange, key) == {b.queue}
  {
    hide KeyMatches;
    assert forall q :: q in Booted().bindings && q.exchange == exchange ==> q == b;
  }
}
