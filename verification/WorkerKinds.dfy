/** Which side of its router a transport is listed on, over every run of a worker: the producers' or the consumers', as
    the request for it said. */
module WorkerKinds {
  import opened Common
  import opened WorkerModel
  import opened WorkerRuns
  import opened WorkerSources

  /** Some request asked for transport `id`, and the router lists it on the side that request named and on no other. */
  ghost predicate ListedAsAsked(router: Router, log: seq<Message>, id: int) {
    exists q: nat :: AskedAndListed(router, log, id, q)
  }

  ghost predicate AskedAndListed(router: Router, log: seq<Message>, id: int, q: nat) {
    && q < |log| && log[q].NewTransport? && log[q].assignedId == id
    && (id in router.producerTransports <==> log[q].isProducer)
    && (id in router.consumerTransports <==> !log[q].isProducer)
  }

  ghost predicate RoutersNamed<R>(w: Worker<R>) {
    forall id :: id in w.routers && w.routers[id] in w.heap ==> w.heap[w.routers[id]].id == id
  }

  ghost predicate TransportsListed<R>(w: Worker<R>, log: seq<Message>) {
    forall id :: id in w.transports && w.transports[id].router in w.heap ==>
      ListedAsAsked(w.heap[w.transports[id].router], log, id)
  }

  ghost predicate OnlyRegistered<R>(w: Worker<R>) {
    forall r, id :: r in w.heap && (id in w.heap[r].producerTransports || id in w.heap[r].consumerTransports) ==>
      id in w.transports && w.transports[id].router == r
  }

  ghost predicate JobsAsAsked<R>(jobs: seq<Job<R>>, log: seq<Message>) {
    forall job :: job in jobs && job.CreateTransport? ==>
      && job.req < |log| && log[job.req].NewTransport? && log[job.req].assignedId == job.assignedId
      && log[job.req].isProducer == job.isProducer
  }

  ghost predicate KindsOk<R>(w: Worker<R>, log: seq<Message>) {
    RoutersNamed(w) && TransportsListed(w, log) && OnlyRegistered(w) && JobsAsAsked(w.jobs, log)
  }

  // ----- Steps that list nothing -----

  ghost predicate SameLists<R>(w: Worker<R>, w': Worker<R>) {
    && w'.routers == w.routers && w'.transports == w.transports && w'.heap.Keys == w.heap.Keys
    && (forall r :: r in w.heap ==>
          && w'.heap[r].id == w.heap[r].id
          && w'.heap[r].producerTransports == w.heap[r].producerTransports
          && w'.heap[r].consumerTransports == w.heap[r].consumerTransports)
  }

  lemma {:induction false} KindsStay<R>(w: Worker<R>, log: seq<Message>, w': Worker<R>, log': seq<Message>)
    requires KindsOk(w, log) && log <= log' && SameLists(w, w') && JobsAsAsked(w'.jobs, log')
    ensures KindsOk(w', log')
  {
    forall id | id in w'.transports && w'.transports[id].router in w'.heap
      ensures ListedAsAsked(w'.heap[w'.transports[id].router], log', id)
    {
      ListedStays(w.heap[w.transports[id].router], log, w'.heap[w'.transports[id].router], log', id);
    }
  }

  lemma {:induction false} ListedStays(router: Router, log: seq<Message>, router': Router, log': seq<Message>, id: int)
    requires ListedAsAsked(router, log, id) && log <= log'
    requires id in router'.producerTransports <==> id in router.producerTransports
    requires id in router'.consumerTransports <==> id in router.consumerTransports
    ensures ListedAsAsked(router', log', id)
  {
    var q: nat :| AskedAndListed(router, log, id, q);
    assert AskedAndListed(router', log', id, q);
  }

  lemma {:induction false} DeliveryLists<R>(w: Worker<R>, log: seq<Message>, msg: Message)
    requires Closed(w) && JobsAsAsked(w.jobs, log)
    ensures SameLists(w, Deliver(w, |log|, msg))
    ensures JobsAsAsked(Deliver(w, |log|, msg).jobs, log + [msg])
  {
    if msg.Update? && Addressed(w, msg) {
      CommandLists(w, |log|, w.transports[msg.id], msg.command);
    }
  }

  lemma {:induction false} CommandLists<R>(w: Worker<R>, req: nat, t: Transport<R>, command: Command)
    requires t.router in w.heap
    ensures var w' := Commanded(w, req, t, command);
            SameLists(w, w') && forall job :: job in w'.jobs ==> job in w.jobs || !job.CreateTransport?
  {
    if command.Consume? && command.producingTransportId in w.transports {
      var k := command.producingTransportId;
      if w.transports[k].router == t.router { ConsumeLists(w, PendingConsume(req, t, w.transports[k])); }
    }
  }

  lemma {:induction false} ConsumeLists<R>(w: Worker<R>, p: PendingConsume<R>)
    requires p.consumer.router in w.heap
    ensures var w' := ConsumeRequested(w, p);
            SameLists(w, w') && forall job :: job in w'.jobs ==> job in w.jobs || !job.CreateTransport?
  {}

  // ----- Steps that list something -----

  lemma {:induction false} KindsWithRouter<R>(w: Worker<R>, log: seq<Message>, req: nat, id: int, newRef: R)
    requires KindsOk(w, log) && Closed(w) && newRef !in w.heap
    ensures KindsOk(RouterCreated(w, req, id, newRef), log)
  {
    var w' := RouterCreated(w, req, id, newRef);
    assert forall k :: k in w'.transports ==> w'.heap[w'.transports[k].router] == w.heap[w.transports[k].router];
  }

  lemma {:induction false} KindsWithTransport<R>(w: Worker<R>, log: seq<Message>, req: nat, r: R, id: int,
                                                 isProducer: bool)
    requires KindsOk(w, log) && Closed(w) && r in w.heap && id !in w.transports
    requires req < |log| && log[req].NewTransport? && log[req].assignedId == id && log[req].isProducer == isProducer
    ensures KindsOk(TransportCreated(w, req, r, id, isProducer), log)
  {
    var w' := TransportCreated(w, req, r, id, isProducer);
    forall k | k in w'.transports && w'.transports[k].router in w'.heap
      ensures ListedAsAsked(w'.heap[w'.transports[k].router], log, k)
    {
      if k == id {
        assert AskedAndListed(w'.heap[r], log, id, req);
      } else {
        ListedStays(w.heap[w.transports[k].router], log, w'.heap[w'.transports[k].router], log, k);
      }
    }
  }

  lemma {:induction false} FlushLists<R>(w: Worker<R>, req: nat, t: Transport<R>, mediaId: int)
    requires Closed(w) && t.router in w.heap
    ensures SameLists(w, Produced(w, req, t, mediaId))
  {}

  lemma {:induction false} FlushMakesNoTransport<R>(w: Worker<R>, log: seq<Message>, req: nat, t: Transport<R>,
                                                    mediaId: int)
    requires Sound(w, log) && t.id in w.transports && w.transports[t.id] == t && JobsAsAsked(w.jobs, log)
    ensures JobsAsAsked(Produced(w, req, t, mediaId).jobs, log)
  {
    ProducedStartsTheBuffer(w, log, req, t, mediaId);
  }

  lemma {:induction false} KindsWithoutJob<R>(w: Worker<R>, log: seq<Message>, i: nat)
    requires Closed(w) && KindsOk(w, log) && i < |w.jobs|
    ensures KindsOk(WithoutJob(w, i), log)
  {
    var w1 := WithoutJob(w, i);
    assert forall j :: 0 <= j < |w1.jobs| ==> w1.jobs[j] == w.jobs[if j < i then j else j + 1];
    KindsStay(w, log, w1, log);
  }

  lemma {:induction false} KindsAfterAnswer<R>(w: Worker<R>, log: seq<Message>, req: nat, reply: Reply)
    requires KindsOk(w, log)
    ensures KindsOk(Answered(w, req, reply), log)
  {
    KindsStay(w, log, Answered(w, req, reply), log);
  }

  lemma {:induction false} KindsAfterProduced<R>(w: Worker<R>, log: seq<Message>, req: nat, t: Transport<R>,
                                                 mediaId: int)
    requires Sound(w, log) && KindsOk(w, log) && t.id in w.transports && w.transports[t.id] == t
    ensures KindsOk(Produced(w, req, t, mediaId), log)
  {
    FlushLists(w, req, t, mediaId);
    FlushMakesNoTransport(w, log, req, t, mediaId);
    KindsStay(w, log, Produced(w, req, t, mediaId), log);
  }

  lemma {:induction false} KindsAfterConsumer<R>(w: Worker<R>, log: seq<Message>, req: nat, t: Transport<R>,
                                                 consumer: Consumer)
    requires Closed(w) && KindsOk(w, log) && t.router in w.heap
    ensures KindsOk(ConsumerCreated(w, req, t, consumer), log)
  {
    KindsStay(w, log, ConsumerCreated(w, req, t, consumer), log);
  }

  lemma {:induction false} KindsAfterSettling<R>(w: Worker<R>, log: seq<Message>, i: nat, outcome: Outcome, newRef: R)
    requires Sound(w, log) && KindsOk(w, log) && i < |w.jobs| && newRef !in w.heap
    requires outcome.AckThrew? ==> w.jobs[i].CreateTransport?
    ensures KindsOk(Settle(w, i, outcome, newRef), log)
  {
    var job, w1 := w.jobs[i], WithoutJob(w, i);
    assert job in w.jobs && JobOk(w.heap, w.transports, log, job) && JobClosed(w.heap, job);
    SoundAfterDroppingJob(w, log, i);
    KindsWithoutJob(w, log, i);
    match outcome
    case Rejected => KindsAfterAnswer(w1, log, job.req, Nack(MediaFailure));
    case AckThrew =>
      KindsWithTransport(w1, log, job.req, job.router, job.assignedId, job.isProducer);
      KindsAfterAnswer(TransportCreated(w1, job.req, job.router, job.assignedId, job.isProducer), log, job.req,
          Nack(AckFailed));
    case Resolved(mediaId) =>
      match job
      case CreateRouter(req, id) => KindsWithRouter(w1, log, req, id, newRef);
      case CreateTransport(req, r, id, isProducer) => KindsWithTransport(w1, log, req, r, id, isProducer);
      case Producing(req, t) => KindsAfterProduced(w1, log, req, t, mediaId);
      case Consuming(req, t, producerId) => KindsAfterConsumer(w1, log, req, t, Consumer(mediaId, producerId));
      case _ => KindsAfterAnswer(w1, log, job.req, AckDone);
  }

  lemma {:induction false} EveryRunKeepsKinds<R>(workerId: int, steps: seq<Step<R>>)
    ensures Run(workerId, steps).Some? ==> KindsOk(Run(workerId, steps).value.worker, Run(workerId, steps).value.log)
    decreases |steps|
  {
    if steps != [] {
      EveryRunKeepsKinds(workerId, steps[..|steps| - 1]);
      EveryRunIsSound(workerId, steps[..|steps| - 1]);
      var before, step := Run(workerId, steps[..|steps| - 1]), steps[|steps| - 1];
      if before.Some? && Possible(before.value, step) {
        var t := before.value;
        match step
        case Arrives(msg) =>
          DeliveryLists(t.worker, t.log, msg);
          KindsStay(t.worker, t.log, Deliver(t.worker, |t.log|, msg), t.log + [msg]);
        case Settles(i, outcome, newRef) => KindsAfterSettling(t.worker, t.log, i, outcome, newRef);
      }
    }
  }

  /** In every run a router is registered under its own id, and a transport is listed by its router on the side its
      request asked for, and on no other side or router. */
  lemma {:induction false} TransportsAreListedAsAsked<R>(workerId: int, steps: seq<Step<R>>)
    ensures match Run(workerId, steps)
            case None => true
            case Some(t) =>
              && (forall id :: id in t.worker.routers ==>
                    t.worker.routers[id] in t.worker.heap && t.worker.heap[t.worker.routers[id]].id == id)
              && (forall id :: id in t.worker.transports ==>
                    && t.worker.transports[id].router in t.worker.heap
                    && ListedAsAsked(t.worker.heap[t.worker.transports[id].router], t.log, id))
              && OnlyRegistered(t.worker)
  {
    EveryRunKeepsKinds(workerId, steps);
    EveryRunIsSound(workerId, steps);
  }
}
