/** The product consumer (products-service/src/mq/consumer.go): the channel
    set-up chain and the worker that settles each delivery. The broker, the
    JSON decoder, the enrichment call and the repository are oracles; the
    worker pool and the dispatcher goroutine are not modelled, so a worker
    sees its deliveries as a finite sequence, ended by the closing of the
    jobs channel. */
module Consumer {
  import opened Wrappers
  import opened Dynamic
  import opened ProductModel

  const ExchangeKind: string := "direct"
  const PrefetchCount: nat := 24
  const PrefetchSize: nat := 0

  // ---------------------------------------------------------------------
  // Channel set-up

  datatype Step =
    | OpenChannel
    | DeclareExchange(exchange: string, kind: string, durable: bool, autoDelete: bool, internal: bool, noWait: bool)
    | DeclareQueue(queue: string, durable: bool, autoDelete: bool, exclusive: bool, noWait: bool)
    | BindQueue(queue: string, bindingKey: string, exchange: string, noWait: bool)
    | SetQos(prefetchCount: nat, prefetchSize: nat, global: bool)

  /** The five calls in the order `CreateChannel` makes them. The queue is
      bound under the name the broker reports for the declared queue. */
  function ChannelSteps(exchangeName: string, queueName: string, bindingKey: string, reportedName: string -> string): (steps: seq<Step>)
    ensures |steps| == 5
  {
    [OpenChannel,
     DeclareExchange(exchangeName, ExchangeKind, true, false, false, false),
     DeclareQueue(queueName, true, false, false, false),
     BindQueue(reportedName(queueName), bindingKey, exchangeName, false),
     SetQos(PrefetchCount, PrefetchSize, false)]
  }

  /** The message each step's error is wrapped with. */
  function StepLabel(i: nat): string
    requires i < 5
  {
    ["Error amqpConn.Channel", "Error ch.ExchangeDeclare", "Error ch.QueueDeclare", "Error ch.QueueBind", "Error  ch.Qos"][i]
  }

  /** `errors.Wrap(cause, message)`. */
  function Wrap(cause: string, message: string): string {
    message + ": " + cause
  }

  /** The index of the first step the broker fails, or the number of steps. */
  function FirstFailure(steps: seq<Step>, broker: Step -> Option<string>, from: nat): (k: nat)
    requires from <= |steps|
    ensures from <= k <= |steps|
    ensures forall i :: from <= i < k ==> broker(steps[i]).None?
    ensures k < |steps| ==> broker(steps[k]).Some?
    decreases |steps| - from
  {
    if from == |steps| || broker(steps[from]).Some? then from
    else FirstFailure(steps, broker, from + 1)
  }

  lemma {:induction false} FirstFailureIs(steps: seq<Step>, broker: Step -> Option<string>, from: nat, k: nat)
    requires from <= k <= |steps|
    requires forall i :: from <= i < k ==> broker(steps[i]).None?
    requires k < |steps| ==> broker(steps[k]).Some?
    ensures FirstFailure(steps, broker, from) == k
    decreases k - from
  {
    if from < k {
      FirstFailureIs(steps, broker, from + 1, k);
    }
  }

  /** `CreateChannel`: runs the steps in order and stops at the first
      failure, returning its wrapped error; later steps are not attempted. */
  method CreateChannel(exchangeName: string, queueName: string, bindingKey: string,
                       broker: Step -> Option<string>, reportedName: string -> string)
    returns (performed: seq<Step>, err: Option<string>)
    ensures var steps := ChannelSteps(exchangeName, queueName, bindingKey, reportedName);
      var k := FirstFailure(steps, broker, 0);
      && (k < 5 ==> performed == steps[..k + 1] && err == Some(Wrap(broker(steps[k]).value, StepLabel(k))))
      && (k == 5 ==> performed == steps && err == None)
  {
    ghost var steps := ChannelSteps(exchangeName, queueName, bindingKey, reportedName);
    performed := [OpenChannel];
    var e := broker(OpenChannel);
    if e.Some? {
      FirstFailureIs(steps, broker, 0, 0);
      assert performed == steps[..1];
      return performed, Some(Wrap(e.value, "Error amqpConn.Channel"));
    }
    var exchange := DeclareExchange(exchangeName, ExchangeKind, true, false, false, false);
    performed := performed + [exchange];
    e := broker(exchange);
    if e.Some? {
      FirstFailureIs(steps, broker, 0, 1);
      assert performed == steps[..2];
      return performed, Some(Wrap(e.value, "Error ch.ExchangeDeclare"));
    }
    var queue := DeclareQueue(queueName, true, false, false, false);
    performed := performed + [queue];
    e := broker(queue);
    if e.Some? {
      FirstFailureIs(steps, broker, 0, 2);
      assert performed == steps[..3];
      return performed, Some(Wrap(e.value, "Error ch.QueueDeclare"));
    }
    var bind := BindQueue(reportedName(queueName), bindingKey, exchangeName, false);
    performed := performed + [bind];
    e := broker(bind);
    if e.Some? {
      FirstFailureIs(steps, broker, 0, 3);
      assert performed == steps[..4];
      return performed, Some(Wrap(e.value, "Error ch.QueueBind"));
    }
    var qos := SetQos(PrefetchCount, PrefetchSize, false);
    performed := performed + [qos];
    e := broker(qos);
    if e.Some? {
      FirstFailureIs(steps, broker, 0, 4);
      assert performed == steps[..5];
      return performed, Some(Wrap(e.value, "Error  ch.Qos"));
    }
    assert performed == steps;
    FirstFailureIs(steps, broker, 0, 5);
    err := None;
  }

  /** The channel's quality of service asks for 24 unacknowledged
      deliveries at a time, per consumer. */
  lemma QosPrefetch(exchangeName: string, queueName: string, bindingKey: string, reportedName: string -> string)
    ensures ChannelSteps(exchangeName, queueName, bindingKey, reportedName)[4] == SetQos(24, 0, false)
  {
  }

  // ---------------------------------------------------------------------
  // The worker

  datatype Delivery = Delivery(tag: nat, body: seq<byte>)

  /** What a worker does, in order. `Ack` and `Reject` settle a delivery. */
  datatype Event =
    | Take(tag: nat)
    | Enrich(tag: nat)
    | Save(tag: nat)
    | Ack(tag: nat)
    | Reject(tag: nat, requeue: bool)

  predicate IsSettlement(e: Event) {
    e.Ack? || e.Reject?
  }

  /** The oracles of one worker: `decode` is `json.Unmarshal` (None for
      invalid JSON), `enrich` is `ProcessProduct` and `save` is
      `SaveProduct`; the last two may answer differently per delivery. */
  datatype Services = Services(
    decode: seq<byte> -> Option<Product>,
    enrich: (nat, Product) -> Result<map<string, Value>, string>,
    save: (nat, map<string, Value>) -> Option<string>)

  /** The events for one delivery. */
  function Handle(d: Delivery, s: Services): seq<Event> {
    match s.decode(d.body)
    case None => [Take(d.tag), Reject(d.tag, false)]
    case Some(product) =>
      match s.enrich(d.tag, product)
      case Err(_) => [Take(d.tag), Enrich(d.tag), Reject(d.tag, true)]
      case Ok(enriched) =>
        if s.save(d.tag, enriched).Some? then [Take(d.tag), Enrich(d.tag), Save(d.tag), Reject(d.tag, true)]
        else [Take(d.tag), Enrich(d.tag), Save(d.tag), Ack(d.tag)]
  }

  /** The events for a sequence of deliveries, handled one after another. */
  function Trace(ds: seq<Delivery>, s: Services): seq<Event>
    decreases |ds|
  {
    if ds == [] then [] else Trace(ds[..|ds| - 1], s) + Handle(ds[|ds| - 1], s)
  }

  /** `worker`: takes deliveries in order until the jobs channel is closed,
      decodes, enriches and saves each, and settles it. */
  method Worker(jobs: seq<Delivery>, s: Services) returns (events: seq<Event>)
    ensures events == Trace(jobs, s)
  {
    events := [];
    for i := 0 to |jobs|
      invariant events == Trace(jobs[..i], s)
    {
      assert jobs[..i + 1][..i] == jobs[..i];
      var d := jobs[i];
      events := events + [Take(d.tag)];
      var body := s.decode(d.body);
      if body.None? {
        events := events + [Reject(d.tag, false)];
        continue;
      }
      events := events + [Enrich(d.tag)];
      var res := s.enrich(d.tag, body.value);
      if res.Err? {
        events := events + [Reject(d.tag, true)];
      } else {
        events := events + [Save(d.tag)];
        var err := s.save(d.tag, res.value);
        if err.Some? {
          events := events + [Reject(d.tag, true)];
          continue;
        }
        events := events + [Ack(d.tag)];
      }
    }
    assert jobs[..|jobs|] == jobs;
  }

  function CountSettlements(events: seq<Event>): nat
    decreases |events|
  {
    if events == [] then 0
    else CountSettlements(events[..|events| - 1]) + (if IsSettlement(events[|events| - 1]) then 1 else 0)
  }

  lemma {:induction false} CountSettlementsAppend(a: seq<Event>, b: seq<Event>)
    ensures CountSettlements(a + b) == CountSettlements(a) + CountSettlements(b)
    decreases |b|
  {
    if b == [] {
      assert a + b == a;
    } else {
      assert (a + b)[..|a + b| - 1] == a + b[..|b| - 1];
      CountSettlementsAppend(a, b[..|b| - 1]);
    }
  }

  /** Each delivery is taken first and settled last, exactly once, and only
      its own tag appears in its events. */
  lemma HandleSettlesOnce(d: Delivery, s: Services)
    ensures var h := Handle(d, s);
      && 2 <= |h| && h[0] == Take(d.tag) && IsSettlement(h[|h| - 1])
      && CountSettlements(h) == 1
      && forall i :: 0 <= i < |h| ==> h[i].tag == d.tag
  {
    var h := Handle(d, s);
    NoSettlements(h[..|h| - 1]);
  }

  lemma {:induction false} NoSettlements(events: seq<Event>)
    requires forall i :: 0 <= i < |events| ==> !IsSettlement(events[i])
    ensures CountSettlements(events) == 0
    decreases |events|
  {
    if events != [] {
      NoSettlements(events[..|events| - 1]);
    }
  }

  /** The decisions of the worker for one delivery: a body that does not
      decode is rejected without requeue and nothing else is attempted; a
      failed enrichment or save is rejected with requeue; enrichment comes
      before saving, and the delivery is acked only after both succeeded. */
  lemma HandleDecisions(d: Delivery, s: Services)
    ensures Reject(d.tag, false) in Handle(d, s) <==> s.decode(d.body).None?
    ensures s.decode(d.body).None? ==> Enrich(d.tag) !in Handle(d, s) && Save(d.tag) !in Handle(d, s)
    ensures Save(d.tag) in Handle(d, s) <==>
      s.decode(d.body).Some? && s.enrich(d.tag, s.decode(d.body).value).Ok?
    ensures Ack(d.tag) in Handle(d, s) <==>
      && s.decode(d.body).Some?
      && s.enrich(d.tag, s.decode(d.body).value).Ok?
      && s.save(d.tag, s.enrich(d.tag, s.decode(d.body).value).value).None?
    ensures Reject(d.tag, true) in Handle(d, s) <==>
      && s.decode(d.body).Some?
      && (|| s.enrich(d.tag, s.decode(d.body).value).Err?
          || s.save(d.tag, s.enrich(d.tag, s.decode(d.body).value).value).Some?)
  {
  }

  lemma {:induction false} TraceAppend(a: seq<Delivery>, b: seq<Delivery>, s: Services)
    ensures Trace(a + b, s) == Trace(a, s) + Trace(b, s)
    decreases |b|
  {
    if b == [] {
      assert a + b == a;
    } else {
      var init, last := b[..|b| - 1], b[|b| - 1];
      TraceAppend(a, init, s);
      SplitLast(a, b);
      TraceSnoc(a + init, last, s);
      TraceSnoc(init, last, s);
      ConcatAssoc(Trace(a, s), Trace(init, s), Handle(last, s));
    }
  }

  /** Handling one more delivery appends its events. */
  lemma TraceSnoc(ds: seq<Delivery>, d: Delivery, s: Services)
    ensures Trace(ds + [d], s) == Trace(ds, s) + Handle(d, s)
  {
    assert (ds + [d])[..|ds|] == ds;
  }

  lemma SplitLast<T>(a: seq<T>, b: seq<T>)
    requires b != []
    ensures b == b[..|b| - 1] + [b[|b| - 1]]
    ensures a + b == (a + b[..|b| - 1]) + [b[|b| - 1]]
  {
  }

  lemma ConcatAssoc<T>(x: seq<T>, y: seq<T>, z: seq<T>)
    ensures (x + y) + z == x + (y + z)
  {
  }

  /** The trace of a sequence of deliveries is the traces of its deliveries
      in order: delivery `i` is settled before delivery `i + 1` is taken. */
  lemma TraceBlocks(ds: seq<Delivery>, s: Services, i: nat)
    requires i < |ds|
    ensures Trace(ds, s) == Trace(ds[..i], s) + Handle(ds[i], s) + Trace(ds[i + 1..], s)
  {
    assert ds == ds[..i] + [ds[i]] + ds[i + 1..];
    TraceAppend(ds[..i] + [ds[i]], ds[i + 1..], s);
    TraceAppend(ds[..i], [ds[i]], s);
    assert [ds[i]][..0] == [];
  }

  /** A worker settles exactly as many times as it takes deliveries. */
  lemma {:induction false} OneSettlementPerDelivery(ds: seq<Delivery>, s: Services)
    ensures CountSettlements(Trace(ds, s)) == |ds|
    decreases |ds|
  {
    if ds != [] {
      OneSettlementPerDelivery(ds[..|ds| - 1], s);
      HandleSettlesOnce(ds[|ds| - 1], s);
      CountSettlementsAppend(Trace(ds[..|ds| - 1], s), Handle(ds[|ds| - 1], s));
    }
  }

  /** Deliveries are taken in the order they arrive: the events of
      delivery `i` start right after those of the earlier ones, with its
      `Take`. */
  lemma TakenInOrder(ds: seq<Delivery>, s: Services, i: nat)
    requires i < |ds|
    ensures |Trace(ds[..i], s)| < |Trace(ds, s)|
    ensures Trace(ds, s)[|Trace(ds[..i], s)|] == Take(ds[i].tag)
  {
    TraceBlocks(ds, s, i);
    HandleSettlesOnce(ds[i], s);
  }
}
