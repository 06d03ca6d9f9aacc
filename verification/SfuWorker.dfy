/** The worker as the source writes it: a class whose handlers update its maps and its router objects in place.

    The ghost field `model` is the state of `WorkerModel` the object is in; every method says which step of the model
    it takes, and `Coupled` ties the model to the real fields. */
module SfuWorkers {
  import opened WorkerModel

  /** The mutable record behind `IMediaRouter`. */
  class RouterObject {
    const id: int
    var webRtcProducerTransports: set<int>
    var webRtcConsumerTransports: set<int>
    var webRtcProducers: map<int, int>
    var webRtcConsumers: map<int, Consumer>
    var producerToConsumersSet: map<int, set<int>>

    constructor (id: int)
      ensures Record() == NewRouterObject(id)
    {
      this.id := id;
      webRtcProducerTransports, webRtcConsumerTransports := {}, {};
      webRtcProducers, webRtcConsumers, producerToConsumersSet := map[], map[], map[];
    }

    ghost function Record(): Router
      reads this
    {
      Router(id, webRtcProducerTransports, webRtcConsumerTransports, webRtcProducers, webRtcConsumers,
          producerToConsumersSet)
    }
  }

  class SfuWorker {
    const workerId: int
    var routers: map<int, RouterObject>
    var transports: map<int, Transport<RouterObject>>
    var pendingConsumes: map<int, seq<PendingConsume<RouterObject>>>

    var jobs: seq<Job<RouterObject>> // media promises not settled yet
    var answers: seq<Answer>         // ack and nack calls made so far

    ghost var objects: set<RouterObject>
    ghost var model: Worker<RouterObject>

    constructor (workerId: int)
      ensures Valid() && objects == {} && model == Started(workerId)
    {
      this.workerId := workerId;
      routers, transports, pendingConsumes := map[], map[], map[];
      jobs, answers, objects := [], [], {};
      model := Started(workerId);
    }

    ghost predicate Coupled()
      reads this, objects
    {
      && model == Worker(workerId, model.heap, routers, transports, pendingConsumes, jobs, answers)
      && model.heap.Keys == objects
      && forall r :: r in objects ==> model.heap[r] == r.Record()
    }

    ghost predicate Valid()
      reads this, objects
    {
      Coupled() && Closed(model)
    }

    /** `_attemptConsuming` and `_consumeAndAck`. */
    method ConsumeAndAck(p: PendingConsume<RouterObject>)
      requires Coupled() && p.consumer.router in objects
      modifies this`jobs, this`answers, this`model
      ensures Coupled() && model == WorkerModel.ConsumeAndAck(old(model), p)
    {
      var router := p.consumer.router;
      if p.producing.id !in router.webRtcProducers {
        answers := answers + [Answer(p.req, Nack(ProducerDisappeared))];
      } else {
        jobs := jobs + [Consuming(p.req, p.consumer, router.webRtcProducers[p.producing.id])];
      }
      model := WorkerModel.ConsumeAndAck(model, p);
    }

    method OnNewRouterRequest(req: nat, assignedId: int, forWorker: int)
      requires Valid()
      modifies this`jobs, this`model
      ensures Valid() && model == Deliver(old(model), req, NewRouter(assignedId, forWorker))
    {
      if forWorker != workerId { return; }
      jobs := jobs + [CreateRouter(req, assignedId)];
      model := Deliver(model, req, NewRouter(assignedId, forWorker));
    }

    method OnNewWebRtcTransportRequest(req: nat, routerId: int, assignedId: int, isProducer: bool)
      requires Valid()
      modifies this`jobs, this`model
      ensures Valid() && model == Deliver(old(model), req, NewTransport(routerId, assignedId, isProducer))
    {
      if routerId !in routers { return; }
      jobs := jobs + [CreateTransport(req, routers[routerId], assignedId, isProducer)];
      model := Deliver(model, req, NewTransport(routerId, assignedId, isProducer));
    }

    method OnTransportUpdate(req: nat, id: int, command: Command)
      requires Valid()
      modifies this, objects
      ensures objects == old(objects)
      ensures Valid() && model == Deliver(old(model), req, Update(id, command))
    {
      if command.FromWorker? || id !in transports { return; }
      ghost var after := Deliver(model, req, Update(id, command));
      OnCommand(req, transports[id], command);
      assert model == after;
    }

    method OnCommand(req: nat, transport: Transport<RouterObject>, command: Command)
      requires Coupled() && transport.router in objects && !command.FromWorker?
      modifies this, transport.router
      ensures objects == old(objects)
      ensures Coupled() && model == Commanded(old(model), req, transport, command)
    {
      match command
      case Connect => StartJob(Connecting(req));
      case Produce => StartJob(Producing(req, transport));
      case Consume(producingTransportId) => OnConsume(req, transport, producingTransportId);
      case Resume =>
        if transport.id !in transport.router.webRtcConsumers {
          Reply(req, Nack(ConsumerNotFound));
        } else {
          StartJob(Resuming(req));
        }
      case Unknown => Reply(req, Nack(UnknownType));
    }

    method StartJob(job: Job<RouterObject>)
      requires Coupled()
      modifies this`jobs, this`model
      ensures Coupled() && model == Start(old(model), job)
    {
      jobs := jobs + [job];
      model := Start(model, job);
    }

    method Reply(req: nat, reply: WorkerModel.Reply)
      requires Coupled()
      modifies this`answers, this`model
      ensures Coupled() && model == Answered(old(model), req, reply)
    {
      answers := answers + [Answer(req, reply)];
      model := Answered(model, req, reply);
    }

    method OnConsume(req: nat, transport: Transport<RouterObject>, producingTransportId: int)
      requires Coupled() && transport.router in objects
      modifies this, transport.router
      ensures objects == old(objects)
      ensures Coupled() && model == Commanded(old(model), req, transport, Consume(producingTransportId))
    {
      if producingTransportId !in transports {
        Reply(req, Nack(ProducingTransportNotFound));
        return;
      }
      var producingTransport := transports[producingTransportId];
      if producingTransport.router != transport.router {
        Reply(req, Nack(DifferentRouters));
        return;
      }
      OnCheckedConsume(PendingConsume(req, transport, producingTransport));
    }

    method OnCheckedConsume(p: PendingConsume<RouterObject>)
      requires Coupled() && p.consumer.router in objects
      modifies this, p.consumer.router
      ensures objects == old(objects)
      ensures Coupled() && model == ConsumeRequested(old(model), p)
    {
      var router, key := p.consumer.router, p.producing.id;
      RecordConsumer(router, key, p.consumer.id);
      if key !in router.webRtcProducers {
        Buffer(key, p);
        return;
      }
      ConsumeAndAck(p);
    }

    method Buffer(key: int, p: PendingConsume<RouterObject>)
      requires Coupled()
      modifies this`pendingConsumes, this`model
      ensures Coupled()
      ensures model == old(model).(pending := old(model).pending[
                         key := (if key in old(model).pending then old(model).pending[key] else []) + [p]])
    {
      ghost var after := pendingConsumes[key := (if key in pendingConsumes then pendingConsumes[key] else []) + [p]];
      if key !in pendingConsumes {
        pendingConsumes := pendingConsumes[key := []];
      }
      pendingConsumes := pendingConsumes[key := pendingConsumes[key] + [p]];
      assert pendingConsumes == after;
      model := model.(pending := after);
    }

    method RecordConsumer(router: RouterObject, key: int, consumer: int)
      requires Coupled() && router in objects
      modifies this`model, router
      ensures Coupled()
      ensures model == old(model).(heap := old(model).heap[router := Recorded(old(model).heap[router], key, consumer)])
    {
      ghost var after := Recorded(router.Record(), key, consumer);
      if key !in router.producerToConsumersSet {
        router.producerToConsumersSet := router.producerToConsumersSet[key := {}];
      }
      router.producerToConsumersSet :=
          router.producerToConsumersSet[key := router.producerToConsumersSet[key] + {consumer}];
      assert router.producerToConsumersSet == after.producerToConsumers;
      model := model.(heap := model.heap[router := after]);
    }

    /** The `then` and `catch` of the i-th promise, except the one that creates a router. */
    method OnSettled(i: nat, outcome: Outcome)
      requires Valid() && i < |jobs| && !(jobs[i].CreateRouter? && outcome.Resolved?)
      requires outcome.AckThrew? ==> jobs[i].CreateTransport?
      modifies this, objects
      ensures Valid() && objects == old(objects)
      ensures forall newRef :: newRef !in old(objects) ==> model == Settle(old(model), i, outcome, newRef)
    {
      var job := jobs[i];
      assert JobClosed(model.heap, job);
      jobs := jobs[..i] + jobs[i + 1..];
      model := WithoutJob(model, i);
      match outcome
      case Rejected => Reply(job.req, Nack(MediaFailure));
      case AckThrew => OnTransportCreated(job.req, job.router, job.assignedId, job.isProducer, true);
      case Resolved(mediaId) =>
        match job
        case CreateTransport(req, router, id, isProducer) => OnTransportCreated(req, router, id, isProducer, false);
        case Connecting(req) => Reply(req, AckDone);
        case Producing(req, transport) => OnProduced(req, transport, mediaId);
        case Consuming(req, transport, producerId) => OnConsumerCreated(req, transport, Consumer(mediaId, producerId));
        case Resuming(req) => Reply(req, AckDone);
    }

    /** The media router for the i-th promise exists: `createRouter` allocates and registers the record. */
    method OnRouterCreated(i: nat, mediaId: int) returns (router: RouterObject)
      requires Valid() && i < |jobs| && jobs[i].CreateRouter?
      modifies this
      ensures Valid() && fresh(router) && objects == old(objects) + {router}
      ensures router !in old(objects) && model == Settle(old(model), i, Resolved(mediaId), router)
    {
      var job := jobs[i];
      router := new RouterObject(job.assignedId);
      ghost var after := Settle(model, i, Resolved(mediaId), router);
      jobs := jobs[..i] + jobs[i + 1..];
      objects := objects + {router};
      routers := routers[job.assignedId := router];
      answers := answers + [Answer(job.req, AckRouter)];
      model := after;
    }

    /** Registers and acknowledges the transport; when the ack callback throws, the catch nacks as well. */
    method OnTransportCreated(req: nat, router: RouterObject, id: int, isProducer: bool, ackThrows: bool)
      requires Valid() && router in objects
      modifies this, router
      ensures objects == old(objects) && Valid()
      ensures var created := TransportCreated(old(model), req, router, id, isProducer);
              model == if ackThrows then Answered(created, req, Nack(AckFailed)) else created
    {
      RegisterTransport(req, router, id, isProducer);
      if ackThrows { Reply(req, Nack(AckFailed)); }
    }

    method RegisterTransport(req: nat, router: RouterObject, id: int, isProducer: bool)
      requires Valid() && router in objects
      modifies this, router
      ensures objects == old(objects)
      ensures Valid() && model == TransportCreated(old(model), req, router, id, isProducer)
    {
      ghost var after := TransportCreated(model, req, router, id, isProducer);
      transports := transports[id := Transport(id, router)];
      if isProducer {
        router.webRtcProducerTransports := router.webRtcProducerTransports + {id};
      } else {
        router.webRtcConsumerTransports := router.webRtcConsumerTransports + {id};
      }
      answers := answers + [Answer(req, AckTransport)];
      model := after;
    }

    method OnConsumerCreated(req: nat, transport: Transport<RouterObject>, consumer: Consumer)
      requires Valid() && transport.router in objects
      modifies this, transport.router
      ensures objects == old(objects)
      ensures Valid() && model == ConsumerCreated(old(model), req, transport, consumer)
    {
      var router := transport.router;
      router.webRtcConsumers := router.webRtcConsumers[transport.id := consumer];
      answers := answers + [Answer(req, AckConsumer(consumer))];
      model := ConsumerCreated(model, req, transport, consumer);
    }

    method OnProduced(req: nat, transport: Transport<RouterObject>, mediaId: int)
      requires Valid() && transport.router in objects
      modifies this, transport.router
      ensures objects == old(objects)
      ensures Valid() && model == Produced(old(model), req, transport, mediaId)
    {
      var router, key := transport.router, transport.id;
      ghost var after := Produced(model, req, transport, mediaId);
      router.webRtcProducers := router.webRtcProducers[key := mediaId];
      model := model.(heap := model.heap[router := router.Record()]);
      Reply(req, AckProducer(mediaId));
      if key in pendingConsumes {
        var waiting := pendingConsumes[key];
        pendingConsumes := pendingConsumes - {key};
        model := model.(pending := pendingConsumes);
        Flush(waiting);
      }
      assert model == after;
    }

    /** `pending.forEach(...)`. */
    method Flush(waiting: seq<PendingConsume<RouterObject>>)
      requires Coupled() && forall i :: 0 <= i < |waiting| ==> waiting[i].consumer.router in objects
      modifies this`jobs, this`answers, this`model
      ensures Coupled() && model == ConsumeAll(old(model), waiting)
    {
      for i := 0 to |waiting|
        invariant Coupled() && model == ConsumeAll(old(model), waiting[..i])
      {
        assert waiting[..i + 1][..i] == waiting[..i];
        ConsumeAndAck(waiting[i]);
      }
      assert waiting[..|waiting|] == waiting;
    }
  }
}
