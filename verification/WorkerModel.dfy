/** What one SFU worker does in one synchronous step.

    A router object is mutated in place and shared by every transport created on it, so the state holds an
    object store `heap` indexed by a reference type `R`: the class `SfuWorker` instantiates it with the
    object itself, the runs with any type.  A media call is a `Job` that stays outstanding until `Settle`
    completes it, in any order, well or badly.  RTP, DTLS and ICE payloads are left out. */
module WorkerModel {

  /** The state of one router object; every map is keyed by transport id. */
  datatype Router = Router(
    id: int,
    producerTransports: set<int>,
    consumerTransports: set<int>,
    producers: map<int, int>,
    consumers: map<int, Consumer>,
    producerToConsumers: map<int, set<int>>)

  datatype Consumer = Consumer(id: int, producerId: int)

  datatype Transport<R> = Transport(id: int, router: R)

  /** A buffered consume request: its request number stands for the stored ack and nack callbacks. */
  datatype PendingConsume<R> = PendingConsume(req: nat, consumer: Transport<R>, producing: Transport<R>)

  datatype Command =
    | Connect
    | Produce
    | Consume(producingTransportId: int)
    | Resume
    | Unknown
    | FromWorker // the "W:" direction, not addressed to workers

  datatype Message =
    | NewRouter(assignedId: int, workerId: int)
    | NewTransport(routerId: int, assignedId: int, isProducer: bool)
    | Update(id: int, command: Command)

  /** A media promise that has not settled yet. */
  datatype Job<R> =
    | CreateRouter(req: nat, assignedId: int)
    | CreateTransport(req: nat, router: R, assignedId: int, isProducer: bool)
    | Connecting(req: nat)
    | Producing(req: nat, transport: Transport<R>)
    | Consuming(req: nat, consumer: Transport<R>, producerId: int)
    | Resuming(req: nat)

  /** How the media layer settles a promise; `Resolved` carries the id of what it created.  `AckThrew`: the transport
      was created and registered, but the ack callback threw, and the handler's catch calls nack as well. */
  datatype Outcome = Resolved(mediaId: int) | Rejected | AckThrew

  datatype Error =
    | MediaFailure
    | ProducingTransportNotFound
    | DifferentRouters
    | ProducerDisappeared
    | ConsumerNotFound
    | UnknownType
    | AckFailed

  datatype Reply =
    | AckRouter
    | AckTransport
    | AckDone
    | AckProducer(id: int)
    | AckConsumer(consumer: Consumer)
    | Nack(error: Error)

  datatype Answer = Answer(req: nat, reply: Reply)

  datatype Worker<R> = Worker(
    workerId: int,
    heap: map<R, Router>,
    routers: map<int, R>,
    transports: map<int, Transport<R>>,
    pending: map<int, seq<PendingConsume<R>>>,
    jobs: seq<Job<R>>,
    answers: seq<Answer>)

  function NewRouterObject(id: int): Router {
    Router(id, {}, {}, map[], map[], map[])
  }

  /** A freshly started worker. */
  function Started<R>(workerId: int): Worker<R> {
    Worker(workerId, map[], map[], map[], map[], [], [])
  }

  /** Every router reference held anywhere points at an object. */
  ghost predicate Closed<R>(w: Worker<R>) {
    && (forall id :: id in w.routers ==> w.routers[id] in w.heap)
    && (forall id :: id in w.transports ==> w.transports[id].router in w.heap)
    && (forall k, i :: k in w.pending && 0 <= i < |w.pending[k]| ==> w.pending[k][i].consumer.router in w.heap)
    && (forall i :: 0 <= i < |w.jobs| ==> JobClosed(w.heap, w.jobs[i]))
  }

  ghost predicate JobClosed<R>(heap: map<R, Router>, job: Job<R>) {
    match job
    case CreateTransport(_, r, _, _) => r in heap
    case Producing(_, t) => t.router in heap
    case Consuming(_, t, _) => t.router in heap
    case _ => true
  }

  /** True when this worker, and not another one on the bus, reacts to the message. */
  predicate Addressed<R>(w: Worker<R>, msg: Message) {
    match msg
    case NewRouter(_, workerId) => workerId == w.workerId
    case NewTransport(routerId, _, _) => routerId in w.routers
    case Update(id, command) => !command.FromWorker? && id in w.transports
  }

  function Answered<R>(w: Worker<R>, req: nat, reply: Reply): Worker<R> {
    w.(answers := w.answers + [Answer(req, reply)])
  }

  function Start<R>(w: Worker<R>, job: Job<R>): Worker<R> {
    w.(jobs := w.jobs + [job])
  }

  /** `_consumeAndAck`: starts the media consume, or nacks when the source has no producer. */
  function ConsumeAndAck<R(==)>(w: Worker<R>, p: PendingConsume<R>): Worker<R>
    requires p.consumer.router in w.heap
  {
    var producers := w.heap[p.consumer.router].producers;
    if p.producing.id in producers
    then Start(w, Consuming(p.req, p.consumer, producers[p.producing.id]))
    else Answered(w, p.req, Nack(ProducerDisappeared))
  }

  /** The flush: `ConsumeAndAck` on each buffered request in arrival order. */
  function ConsumeAll<R(==)>(w: Worker<R>, ps: seq<PendingConsume<R>>): (w': Worker<R>)
    requires forall i :: 0 <= i < |ps| ==> ps[i].consumer.router in w.heap
    ensures w' == w.(jobs := w'.jobs, answers := w'.answers)
    ensures Closed(w) ==> Closed(w')
    decreases |ps|
  {
    if ps == [] then w else ConsumeAndAck(ConsumeAll(w, ps[..|ps| - 1]), ps[|ps| - 1])
  }

  /** `producerToConsumersSet` gains consumer transport `c` under source `k`. */
  function Recorded(router: Router, k: int, c: int): Router {
    var known := if k in router.producerToConsumers then router.producerToConsumers[k] else {};
    router.(producerToConsumers := router.producerToConsumers[k := known + {c}])
  }

  /** A consume request that passed the transport and router checks. */
  function ConsumeRequested<R(==)>(w: Worker<R>, p: PendingConsume<R>): (w': Worker<R>)
    requires p.consumer.router in w.heap
    ensures Closed(w) ==> Closed(w')
  {
    var router := w.heap[p.consumer.router];
    var k := p.producing.id;
    var w' := w.(heap := w.heap[p.consumer.router := Recorded(router, k, p.consumer.id)]);
    if k in router.producers then ConsumeAndAck(w', p)
    else
      var waiting := if k in w.pending then w.pending[k] else [];
      w'.(pending := w.pending[k := waiting + [p]])
  }

  /** `onTransportUpdate` on a transport of this worker. */
  function Commanded<R(==)>(w: Worker<R>, req: nat, t: Transport<R>, command: Command): (w': Worker<R>)
    requires t.router in w.heap
    ensures Closed(w) ==> Closed(w')
  {
    match command
    case Connect => Start(w, Connecting(req))
    case Produce => Start(w, Producing(req, t))
    case Consume(k) =>
      if k !in w.transports then Answered(w, req, Nack(ProducingTransportNotFound))
      else if w.transports[k].router != t.router then Answered(w, req, Nack(DifferentRouters))
      else ConsumeRequested(w, PendingConsume(req, t, w.transports[k]))
    case Resume =>
      if t.id !in w.heap[t.router].consumers then Answered(w, req, Nack(ConsumerNotFound))
      else Start(w, Resuming(req))
    case Unknown => Answered(w, req, Nack(UnknownType))
    case FromWorker => w
  }

  /** A bus message reaches this worker. */
  function Deliver<R(==)>(w: Worker<R>, req: nat, msg: Message): (w': Worker<R>)
    requires Closed(w)
    ensures Closed(w')
  {
    if !Addressed(w, msg) then w
    else match msg
      case NewRouter(assignedId, _) => Start(w, CreateRouter(req, assignedId))
      case NewTransport(routerId, assignedId, isProducer) =>
        Start(w, CreateTransport(req, w.routers[routerId], assignedId, isProducer))
      case Update(id, command) => Commanded(w, req, w.transports[id], command)
  }

  function WithoutJob<R>(w: Worker<R>, i: nat): (w': Worker<R>)
    requires Closed(w) && i < |w.jobs|
    ensures Closed(w')
  {
    var rest := w.jobs[..i] + w.jobs[i + 1..];
    assert forall j :: 0 <= j < |rest| ==> rest[j] == w.jobs[if j < i then j else j + 1];
    w.(jobs := rest)
  }

  function RouterCreated<R(==)>(w: Worker<R>, req: nat, id: int, newRef: R): (w': Worker<R>)
    requires Closed(w) && newRef !in w.heap
    ensures Closed(w')
  {
    Answered(w.(heap := w.heap[newRef := NewRouterObject(id)], routers := w.routers[id := newRef]), req, AckRouter)
  }

  function TransportCreated<R(==)>(w: Worker<R>, req: nat, r: R, id: int, isProducer: bool): (w': Worker<R>)
    requires Closed(w) && r in w.heap
    ensures Closed(w')
  {
    var router := w.heap[r];
    var router' :=
      if isProducer then router.(producerTransports := router.producerTransports + {id})
      else router.(consumerTransports := router.consumerTransports + {id});
    Answered(w.(transports := w.transports[id := Transport(id, r)], heap := w.heap[r := router']), req, AckTransport)
  }

  /** The producer of `t` now exists: register it, acknowledge, then flush what waited for it. */
  function Produced<R(==)>(w: Worker<R>, req: nat, t: Transport<R>, mediaId: int): (w': Worker<R>)
    requires Closed(w) && t.router in w.heap
    ensures Closed(w')
  {
    var router := w.heap[t.router];
    var w1 := w.(heap := w.heap[t.router := router.(producers := router.producers[t.id := mediaId])]);
    var w2 := Answered(w1, req, AckProducer(mediaId));
    if t.id !in w.pending then w2
    else ConsumeAll(w2.(pending := w.pending - {t.id}), w.pending[t.id])
  }

  function ConsumerCreated<R(==)>(w: Worker<R>, req: nat, t: Transport<R>, consumer: Consumer): (w': Worker<R>)
    requires Closed(w) && t.router in w.heap
    ensures Closed(w')
  {
    var router := w.heap[t.router];
    var router' := router.(consumers := router.consumers[t.id := consumer]);
    Answered(w.(heap := w.heap[t.router := router']), req, AckConsumer(consumer))
  }

  /** The media layer settles the i-th outstanding promise; `newRef` is the router object it allocates, if any.  Of the
      ack callbacks only the one for a new transport may throw. */
  function Settle<R(==)>(w: Worker<R>, i: nat, outcome: Outcome, newRef: R): (w': Worker<R>)
    requires Closed(w) && i < |w.jobs| && newRef !in w.heap
    requires outcome.AckThrew? ==> w.jobs[i].CreateTransport?
    ensures Closed(w')
  {
    var job := w.jobs[i];
    var w1 := WithoutJob(w, i);
    match outcome
    case Rejected => Answered(w1, job.req, Nack(MediaFailure))
    case AckThrew =>
      Answered(TransportCreated(w1, job.req, job.router, job.assignedId, job.isProducer), job.req, Nack(AckFailed))
    case Resolved(mediaId) =>
      match job
      case CreateRouter(req, id) => RouterCreated(w1, req, id, newRef)
      case CreateTransport(req, r, id, isProducer) => TransportCreated(w1, req, r, id, isProducer)
      case Connecting(req) => Answered(w1, req, AckDone)
      case Producing(req, t) => Produced(w1, req, t, mediaId)
      case Consuming(req, t, producerId) => ConsumerCreated(w1, req, t, Consumer(mediaId, producerId))
      case Resuming(req) => Answered(w1, req, AckDone)
  }
}
