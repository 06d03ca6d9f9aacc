/** Where a consumer's media comes from: in every run a stored consumer, and every consume under way, carries the id
    of a producer that was created, and acknowledged, on the transport it was asked to consume from. */
module WorkerSources {
  import opened Common
  import opened WorkerModel
  import opened WorkerRuns

  /** A produce request for transport `k` was acknowledged with producer `pid`. */
  ghost predicate ProducerAcked(answers: seq<Answer>, log: seq<Message>, k: int, pid: int) {
    exists i :: 0 <= i < |answers| && AcksProducer(answers[i], log, k, pid)
  }

  ghost predicate AcksProducer(a: Answer, log: seq<Message>, k: int, pid: int) {
    a.reply == AckProducer(pid) && a.req < |log| && log[a.req] == Update(k, Produce)
  }

  /** Consumer transport `c` of this router is fed by `k`, whose producer `pid` was acknowledged. */
  ghost predicate FedBy(router: Router, answers: seq<Answer>, log: seq<Message>, k: int, c: int, pid: int) {
    Feeds(router, k, c) && ProducerAcked(answers, log, k, pid)
  }

  ghost predicate AsksToConsume(log: seq<Message>, req: nat, k: int) {
    req < |log| && log[req].Update? && log[req].command == Consume(k)
  }

  /** A job is what its request asked for. */
  ghost predicate JobSourced<R>(w: Worker<R>, log: seq<Message>, job: Job<R>) {
    && job.req < |log|
    && match job
       case CreateRouter(req, _) => log[req].NewRouter?
       case CreateTransport(req, _, _, _) => log[req].NewTransport?
       case Connecting(req) => log[req].Update? && log[req].command == Connect
       case Producing(req, tr) => log[req] == Update(tr.id, Produce)
       case Resuming(req) => log[req].Update? && log[req].command == Resume
       case Consuming(req, tr, pid) =>
         && log[req].Update? && log[req].command.Consume? && log[req].id == tr.id
         && var k := log[req].command.producingTransportId;
         && k in w.transports && w.transports[k].router == tr.router && tr.router in w.heap
         && FedBy(w.heap[tr.router], w.answers, log, k, tr.id, pid)
  }

  /** An answered consume request was refused on arrival, or its source had a producer. */
  ghost predicate AnswerSourced<R>(w: Worker<R>, log: seq<Message>, a: Answer) {
    forall k :: AsksToConsume(log, a.req, k) ==>
      || a.reply == Nack(ProducingTransportNotFound) || a.reply == Nack(DifferentRouters)
      || HasProducer(w, k)
  }

  ghost predicate HasProducer<R>(w: Worker<R>, k: int) {
    k in w.transports && w.transports[k].router in w.heap && k in w.heap[w.transports[k].router].producers
  }

  ghost predicate ConsumerSourced(router: Router, answers: seq<Answer>, log: seq<Message>, c: int)
    requires c in router.consumers
  {
    exists k :: FedBy(router, answers, log, k, c, router.consumers[c].producerId)
  }

  ghost predicate RouterSourced(router: Router, answers: seq<Answer>, log: seq<Message>) {
    && (forall k :: k in router.producers ==> ProducerAcked(answers, log, k, router.producers[k]))
    && (forall c :: c in router.consumers ==> ConsumerSourced(router, answers, log, c))
  }

  ghost predicate Sourced<R>(w: Worker<R>, log: seq<Message>) {
    && (forall r :: r in w.heap ==> RouterSourced(w.heap[r], w.answers, log))
    && (forall job :: job in w.jobs ==> JobSourced(w, log, job))
    && (forall a :: a in w.answers ==> a.req < |log| && AnswerSourced(w, log, a))
  }

  // ----- What is there stays -----

  ghost predicate Grows<R>(w: Worker<R>, log: seq<Message>, w': Worker<R>, log': seq<Message>) {
    && log <= log' && Extends(w.answers, w'.answers)
    && (forall r :: r in w.heap ==> r in w'.heap && RouterGrows(w.heap[r], w'.heap[r]))
    && (forall id :: id in w.transports ==> id in w'.transports && w'.transports[id] == w.transports[id])
  }

  lemma {:induction false} AckedStays(answers: seq<Answer>, log: seq<Message>, answers': seq<Answer>,
                                      log': seq<Message>, k: int, pid: int)
    requires Extends(answers, answers') && log <= log' && ProducerAcked(answers, log, k, pid)
    ensures ProducerAcked(answers', log', k, pid)
  {
    var i :| 0 <= i < |answers| && AcksProducer(answers[i], log, k, pid);
    assert answers'[..|answers|][i] == answers'[i];
    assert AcksProducer(answers'[i], log', k, pid);
  }

  lemma {:induction false} JobStaysSourced<R>(w: Worker<R>, log: seq<Message>, w': Worker<R>, log': seq<Message>,
                                              job: Job<R>)
    requires Grows(w, log, w', log') && JobSourced(w, log, job)
    ensures JobSourced(w', log', job)
  {
    if job.Consuming? {
      AckedStays(w.answers, log, w'.answers, log', log[job.req].command.producingTransportId, job.producerId);
    }
  }

  lemma {:induction false} AnswerStaysSourced<R>(w: Worker<R>, log: seq<Message>, w': Worker<R>, log': seq<Message>,
                                                 a: Answer)
    requires Grows(w, log, w', log') && a.req < |log| && AnswerSourced(w, log, a)
    ensures AnswerSourced(w', log', a)
  {
    forall k | AsksToConsume(log', a.req, k)
      ensures a.reply == Nack(ProducingTransportNotFound) || a.reply == Nack(DifferentRouters) || HasProducer(w', k)
    {
      assert AsksToConsume(log, a.req, k);
    }
  }

  /** A router that gains no producer and no consumer, except the ones named, stays sourced. */
  lemma {:induction false} RouterStaysSourced(router: Router, answers: seq<Answer>, log: seq<Message>,
                                              router': Router, answers': seq<Answer>, log': seq<Message>)
    requires RouterSourced(router, answers, log) && RouterGrows(router, router') && Extends(answers, answers')
             && log <= log'
    requires forall k :: k in router'.producers ==>
               || (k in router.producers && router'.producers[k] == router.producers[k])
               || ProducerAcked(answers', log', k, router'.producers[k])
    requires forall c :: c in router'.consumers ==>
               || (c in router.consumers && router'.consumers[c] == router.consumers[c])
               || ConsumerSourced(router', answers', log', c)
    ensures RouterSourced(router', answers', log')
  {
    forall k | k in router'.producers ensures ProducerAcked(answers', log', k, router'.producers[k]) {
      if k in router.producers && router'.producers[k] == router.producers[k] {
        AckedStays(answers, log, answers', log', k, router.producers[k]);
      }
    }
    forall c | c in router'.consumers ensures ConsumerSourced(router', answers', log', c) {
      if c in router.consumers && router'.consumers[c] == router.consumers[c] {
        assert ConsumerSourced(router, answers, log, c);
        var k :| FedBy(router, answers, log, k, c, router.consumers[c].producerId);
        AckedStays(answers, log, answers', log', k, router.consumers[c].producerId);
        assert FedBy(router', answers', log', k, c, router'.consumers[c].producerId);
      }
    }
  }

  /** A step keeps the sources when everything grows, and what is new is sourced. */
  lemma {:induction false} SourcedStays<R>(w: Worker<R>, log: seq<Message>, w': Worker<R>, log': seq<Message>)
    requires Sourced(w, log) && Grows(w, log, w', log')
    requires forall r :: r in w'.heap ==>
               || (r in w.heap && w'.heap[r].producers == w.heap[r].producers
                     && w'.heap[r].consumers == w.heap[r].consumers)
               || RouterSourced(w'.heap[r], w'.answers, log')
    requires forall job :: job in w'.jobs && job !in w.jobs ==> JobSourced(w', log', job)
    requires forall i :: |w.answers| <= i < |w'.answers| ==>
             w'.answers[i].req < |log'| && AnswerSourced(w', log', w'.answers[i])
    ensures Sourced(w', log')
  {
    forall r | r in w'.heap ensures RouterSourced(w'.heap[r], w'.answers, log') {
      if r in w.heap && w'.heap[r].producers == w.heap[r].producers && w'.heap[r].consumers == w.heap[r].consumers {
        RouterStaysSourced(w.heap[r], w.answers, log, w'.heap[r], w'.answers, log');
      }
    }
    forall job | job in w'.jobs ensures JobSourced(w', log', job) {
      if job in w.jobs { JobStaysSourced(w, log, w', log', job); }
    }
    forall a | a in w'.answers ensures a.req < |log'| && AnswerSourced(w', log', a) {
      var i: nat :| i < |w'.answers| && w'.answers[i] == a;
      if i < |w.answers| {
        assert w'.answers[..|w.answers|][i] == w.answers[i];
        AnswerStaysSourced(w, log, w', log', a);
      }
    }
  }

  // ----- One change at a time -----

  lemma {:induction false} SourcedAfterLogging<R>(w: Worker<R>, log: seq<Message>, msg: Message)
    requires Sourced(w, log)
    ensures Sourced(w, log + [msg])
  {
    SourcedStays(w, log, w, log + [msg]);
  }

  lemma {:induction false} SourcedAfterStarting<R>(w: Worker<R>, log: seq<Message>, more: seq<Job<R>>)
    requires Sourced(w, log) && forall i :: 0 <= i < |more| ==> JobSourced(w, log, more[i])
    ensures Sourced(w.(jobs := w.jobs + more), log)
  {
    var w' := w.(jobs := w.jobs + more);
    forall job | job in w'.jobs && job !in w.jobs ensures JobSourced(w', log, job) {
      var j: nat :| j < |w'.jobs| && w'.jobs[j] == job;
      if j >= |w.jobs| { JobStaysSourced(w, log, w', log, more[j - |w.jobs|]); }
    }
    SourcedStays(w, log, w', log);
  }

  lemma {:induction false} SourcedAfterAnswering<R>(w: Worker<R>, log: seq<Message>, req: nat, reply: Reply)
    requires Sourced(w, log) && req < |log| && AnswerSourced(w, log, Answer(req, reply))
    ensures Sourced(Answered(w, req, reply), log)
  {
    var w' := Answered(w, req, reply);
    AnswerStaysSourced(w, log, w', log, Answer(req, reply));
    SourcedStays(w, log, w', log);
  }

  lemma {:induction false} SourcedAfterDropping<R>(w: Worker<R>, log: seq<Message>, w': Worker<R>)
    requires Sourced(w, log) && w' == w.(jobs := w'.jobs, pending := w'.pending) && forall job :: job in w'.jobs ==>
             job in w.jobs
    ensures Sourced(w', log)
  {
    SourcedStays(w, log, w', log);
  }

  lemma {:induction false} SourcedAfterRouterChange<R>(w: Worker<R>, log: seq<Message>, r: R, router': Router)
    requires Sourced(w, log) && r in w.heap && RouterGrows(w.heap[r], router')
    requires || (router'.producers == w.heap[r].producers && router'.consumers == w.heap[r].consumers)
             || RouterSourced(router', w.answers, log)
    ensures Sourced(w.(heap := w.heap[r := router']), log)
  {
    SourcedStays(w, log, w.(heap := w.heap[r := router']), log);
  }

  lemma {:induction false} SourcedAfterRegistering<R>(w: Worker<R>, log: seq<Message>, w': Worker<R>)
    requires Sourced(w, log) && w' == w.(heap := w'.heap, routers := w'.routers, transports := w'.transports)
    requires forall r :: r in w.heap ==> r in w'.heap && w'.heap[r] == w.heap[r]
    requires forall r :: r in w'.heap && r !in w.heap ==> w'.heap[r].producers == map[] && w'.heap[r].consumers == map[]
    requires forall id :: id in w.transports ==> id in w'.transports && w'.transports[id] == w.transports[id]
    ensures Sourced(w', log)
  {
    SourcedStays(w, log, w', log);
  }

  lemma {:induction false} NotAConsume<R>(w: Worker<R>, log: seq<Message>, req: nat, reply: Reply)
    requires req < |log| && (log[req].Update? ==> !log[req].command.Consume?)
    ensures AnswerSourced(w, log, Answer(req, reply))
  {}

  // ----- Deliveries -----

  lemma {:induction false} SourcedAfterDelivery<R>(w: Worker<R>, log: seq<Message>, msg: Message)
    requires Sound(w, log) && Sourced(w, log)
    ensures Sourced(Deliver(w, |log|, msg), log + [msg])
  {
    SourcedAfterLogging(w, log, msg);
    if Addressed(w, msg) {
      var log' := log + [msg];
      match msg
      case NewRouter(id, _) => SourcedAfterStarting(w, log', [CreateRouter(|log|, id)]);
      case NewTransport(routerId, id, isProducer) =>
        SourcedAfterStarting(w, log', [CreateTransport(|log|, w.routers[routerId], id, isProducer)]);
      case Update(id, command) => SourcedAfterCommand(w, log', |log|, id, command);
    }
  }

  lemma {:induction false} SourcedAfterCommand<R>(w: Worker<R>, log: seq<Message>, req: nat, id: int, command: Command)
    requires Closed(w) && Sourced(w, log) && id in w.transports && w.transports[id].id == id
    requires req < |log| && log[req] == Update(id, command)
    requires forall k :: k in w.transports ==> w.transports[k].id == k
    ensures Sourced(Commanded(w, req, w.transports[id], command), log)
  {
    var tr := w.transports[id];
    match command
    case Connect => SourcedAfterStarting(w, log, [Connecting(req)]);
    case Produce => SourcedAfterStarting(w, log, [Producing(req, tr)]);
    case Consume(k) =>
      if k !in w.transports { SourcedAfterAnswering(w, log, req, Nack(ProducingTransportNotFound)); }
      else if w.transports[k].router != tr.router { SourcedAfterAnswering(w, log, req, Nack(DifferentRouters)); }
      else { SourcedAfterConsume(w, log, PendingConsume(req, tr, w.transports[k])); }
    case Resume =>
      if tr.id !in w.heap[tr.router].consumers {
        NotAConsume(w, log, req, Nack(ConsumerNotFound));
        SourcedAfterAnswering(w, log, req, Nack(ConsumerNotFound));
      } else {
        SourcedAfterStarting(w, log, [Resuming(req)]);
      }
    case Unknown =>
      NotAConsume(w, log, req, Nack(UnknownType));
      SourcedAfterAnswering(w, log, req, Nack(UnknownType));
    case FromWorker =>
  }

  lemma {:induction false} SourcedAfterConsume<R>(w: Worker<R>, log: seq<Message>, p: PendingConsume<R>)
    requires Sourced(w, log) && p.consumer.router in w.heap && p.producing.router == p.consumer.router
    requires p.producing.id in w.transports && w.transports[p.producing.id] == p.producing
    requires p.req < |log| && log[p.req] == Update(p.consumer.id, Consume(p.producing.id))
    ensures Sourced(ConsumeRequested(w, p), log)
  {
    var r, k := p.consumer.router, p.producing.id;
    var router := w.heap[r];
    var w1 := w.(heap := w.heap[r := Recorded(router, k, p.consumer.id)]);
    SourcedAfterRouterChange(w, log, r, Recorded(router, k, p.consumer.id));
    if k in router.producers {
      assert RouterSourced(router, w.answers, log);
      SourcedAfterStarting(w1, log, [Consuming(p.req, p.consumer, router.producers[k])]);
    } else {
      SourcedAfterDropping(w1, log, ConsumeRequested(w, p));
    }
  }

  // ----- Settling -----

  lemma {:induction false} SourcedAfterSettling<R>(w: Worker<R>, log: seq<Message>, i: nat, outcome: Outcome, newRef: R)
    requires Sound(w, log) && Sourced(w, log) && i < |w.jobs| && newRef !in w.heap
    requires outcome.AckThrew? ==> w.jobs[i].CreateTransport?
    ensures Sourced(Settle(w, i, outcome, newRef), log)
  {
    var job, w1 := w.jobs[i], WithoutJob(w, i);
    assert job in w.jobs && JobSourced(w, log, job) && JobOk(w.heap, w.transports, log, job);
    SoundAfterDroppingJob(w, log, i);
    SourcedAfterDropping(w, log, w1);
    JobStaysSourced(w, log, w1, log, job);
    match outcome
    case Rejected =>
      RejectionSourced(w1, log, job);
      SourcedAfterAnswering(w1, log, job.req, Nack(MediaFailure));
    case AckThrew =>
      SourcedAfterTransport(w1, log, job);
      NotAConsume(TransportCreated(w1, job.req, job.router, job.assignedId, job.isProducer), log, job.req,
          Nack(AckFailed));
      SourcedAfterAnswering(TransportCreated(w1, job.req, job.router, job.assignedId, job.isProducer), log, job.req,
          Nack(AckFailed));
    case Resolved(mediaId) => SourcedAfterResolving(w1, log, job, mediaId, newRef);
  }

  lemma {:induction false} RejectionSourced<R>(w: Worker<R>, log: seq<Message>, job: Job<R>)
    requires JobSourced(w, log, job)
    ensures AnswerSourced(w, log, Answer(job.req, Nack(MediaFailure)))
  {}

  lemma {:induction false} SourcedAfterTransport<R>(w: Worker<R>, log: seq<Message>, job: Job<R>)
    requires Closed(w) && Sourced(w, log) && job.CreateTransport? && job.router in w.heap && JobSourced(w, log, job)
    requires job.assignedId !in w.transports
    ensures Sourced(TransportCreated(w, job.req, job.router, job.assignedId, job.isProducer), log)
  {
    var router := w.heap[job.router];
    var router' :=
      if job.isProducer then router.(producerTransports := router.producerTransports + {job.assignedId})
      else router.(consumerTransports := router.consumerTransports + {job.assignedId});
    SourcedAfterRouterChange(w, log, job.router, router');
    var w1 := w.(heap := w.heap[job.router := router']);
    var w2 := w1.(transports := w.transports[job.assignedId := Transport(job.assignedId, job.router)]);
    SourcedAfterRegistering(w1, log, w2);
    NotAConsume(w2, log, job.req, AckTransport);
    SourcedAfterAnswering(w2, log, job.req, AckTransport);
  }

  lemma {:induction false} SourcedAfterResolving<R>(w: Worker<R>, log: seq<Message>, job: Job<R>, mediaId: int,
                                                    newRef: R)
    requires Sound(w, log) && Sourced(w, log) && JobSourced(w, log, job) && JobOk(w.heap, w.transports, log, job)
    requires JobClosed(w.heap, job) && newRef !in w.heap
    ensures match job
            case CreateRouter(req, id) => Sourced(RouterCreated(w, req, id, newRef), log)
            case CreateTransport(req, r, id, isProducer) => Sourced(TransportCreated(w, req, r, id, isProducer), log)
            case Connecting(req) => Sourced(Answered(w, req, AckDone), log)
            case Producing(req, t) => Sourced(Produced(w, req, t, mediaId), log)
            case Consuming(req, t, producerId) => Sourced(ConsumerCreated(w, req, t, Consumer(mediaId, producerId)),
                log)
            case Resuming(req) => Sourced(Answered(w, req, AckDone), log)
  {
    match job
    case CreateRouter(req, id) =>
      var w1 := w.(heap := w.heap[newRef := NewRouterObject(id)], routers := w.routers[id := newRef]);
      SourcedAfterRegistering(w, log, w1);
      NotAConsume(w1, log, req, AckRouter);
      SourcedAfterAnswering(w1, log, req, AckRouter);
    case CreateTransport(_, _, _, _) => SourcedAfterTransport(w, log, job);
    case Producing(req, t) => SourcedAfterProduced(w, log, req, t, mediaId);
    case Consuming(_, _, _) => SourcedAfterConsumerCreated(w, log, job, mediaId);
    case _ =>
      NotAConsume(w, log, job.req, AckDone);
      SourcedAfterAnswering(w, log, job.req, AckDone);
  }

  lemma {:induction false} SourcedAfterConsumerCreated<R>(w: Worker<R>, log: seq<Message>, job: Job<R>, mediaId: int)
    requires Closed(w) && Sourced(w, log) && job.Consuming? && JobSourced(w, log, job)
    ensures Sourced(ConsumerCreated(w, job.req, job.consumer, Consumer(mediaId, job.producerId)), log)
  {
    var r, c, k := job.consumer.router, job.consumer.id, log[job.req].command.producingTransportId;
    var router := w.heap[r];
    var consumer := Consumer(mediaId, job.producerId);
    var router' := router.(consumers := router.consumers[c := consumer]);
    assert FedBy(router', w.answers, log, k, c, router'.consumers[c].producerId);
    assert RouterSourced(router, w.answers, log);
    RouterStaysSourced(router, w.answers, log, router', w.answers, log);
    SourcedAfterRouterChange(w, log, r, router');
    var w1 := w.(heap := w.heap[r := router']);
    assert HasProducer(w1, k) && AnswerSourced(w1, log, Answer(job.req, AckConsumer(consumer)));
    SourcedAfterAnswering(w1, log, job.req, AckConsumer(consumer));
  }

  lemma {:induction false} SourcedAfterProduced<R>(w: Worker<R>, log: seq<Message>, req: nat, tr: Transport<R>,
                                                   mediaId: int)
    requires Sound(w, log) && Sourced(w, log) && tr.id in w.transports && w.transports[tr.id] == tr
    requires req < |log| && log[req] == Update(tr.id, Produce)
    ensures Sourced(Produced(w, req, tr, mediaId), log)
  {
    var w2 := WithProducer(w, req, tr, mediaId);
    SourcedWithProducer(w, log, req, tr, mediaId);
    if tr.id in w.pending { SourcedAfterFlush(w, log, w2, tr, mediaId); }
  }

  /** The producer is stored and acknowledged; its buffer is not flushed yet. */
  ghost function WithProducer<R>(w: Worker<R>, req: nat, tr: Transport<R>, mediaId: int): Worker<R>
    requires tr.router in w.heap
  {
    var router := w.heap[tr.router];
    Answered(w, req, AckProducer(mediaId)).(heap :=
        w.heap[tr.router := router.(producers := router.producers[tr.id := mediaId])])
  }

  lemma {:induction false} ProducerIsAcked<R>(w: Worker<R>, log: seq<Message>, req: nat, id: int, mediaId: int)
    requires Sourced(w, log) && req < |log| && log[req] == Update(id, Produce)
    ensures Sourced(Answered(w, req, AckProducer(mediaId)), log)
    ensures ProducerAcked(Answered(w, req, AckProducer(mediaId)).answers, log, id, mediaId)
  {
    NotAConsume(w, log, req, AckProducer(mediaId));
    SourcedAfterAnswering(w, log, req, AckProducer(mediaId));
    assert AcksProducer(Answered(w, req, AckProducer(mediaId)).answers[|w.answers|], log, id, mediaId);
  }

  lemma {:induction false} NewProducerSourced(router: Router, answers: seq<Answer>, log: seq<Message>, k: int,
                                              mediaId: int)
    requires RouterSourced(router, answers, log) && ProducerAcked(answers, log, k, mediaId)
    ensures RouterSourced(router.(producers := router.producers[k := mediaId]), answers, log)
    ensures RouterGrows(router, router.(producers := router.producers[k := mediaId]))
  {
    RouterStaysSourced(router, answers, log, router.(producers := router.producers[k := mediaId]), answers, log);
  }

  lemma {:induction false} SourcedWithProducer<R>(w: Worker<R>, log: seq<Message>, req: nat, tr: Transport<R>,
                                                  mediaId: int)
    requires Closed(w) && Sourced(w, log) && tr.id in w.transports && w.transports[tr.id] == tr
    requires req < |log| && log[req] == Update(tr.id, Produce)
    ensures Closed(WithProducer(w, req, tr, mediaId)) && Sourced(WithProducer(w, req, tr, mediaId), log)
    ensures ProducerAcked(WithProducer(w, req, tr, mediaId).answers, log, tr.id, mediaId)
  {
    var router := w.heap[tr.router];
    var router' := router.(producers := router.producers[tr.id := mediaId]);
    var w1 := Answered(w, req, AckProducer(mediaId));
    ProducerIsAcked(w, log, req, tr.id, mediaId);
    NewProducerSourced(router, w1.answers, log, tr.id, mediaId);
    SourcedAfterRouterChange(w1, log, tr.router, router');
  }

  lemma {:induction false} SourcedAfterFlush<R>(w: Worker<R>, log: seq<Message>, w2: Worker<R>, tr: Transport<R>,
                                                mediaId: int)
    requires Sound(w, log) && tr.id in w.pending && w.transports[tr.id] == tr
    requires Closed(w2) && Sourced(w2, log) && ProducerAcked(w2.answers, log, tr.id, mediaId)
    requires w2.transports == w.transports && w2.pending == w.pending
    requires var router := w.heap[tr.router];
             w2.heap == w.heap[tr.router := router.(producers := router.producers[tr.id := mediaId])]
    ensures Sourced(ConsumeAll(w2.(pending := w2.pending - {tr.id}), w.pending[tr.id]), log)
  {
    var entries := w.pending[tr.id];
    var w3 := w2.(pending := w2.pending - {tr.id});
    SourcedAfterDropping(w2, log, w3);
    EntriesFeedOn(w, log, tr.id);
    FlushStartsAllInOrder(w3, entries, tr.router, tr.id);
    var started := StartedFor(entries, mediaId);
    forall i | 0 <= i < |started| ensures JobSourced(w3, log, started[i]) {
      EntriesBelong(w, log, tr.id);
      assert EntryOk(w.heap, w.transports, log, tr.id, entries[i]);
    }
    SourcedAfterStarting(w3, log, started);
  }

  // ----- The results -----

  lemma {:induction false} EveryRunIsSourced<R>(workerId: int, steps: seq<Step<R>>)
    ensures var t := Run(workerId, steps); t.Some? ==> Sourced(t.value.worker, t.value.log)
    decreases |steps|
  {
    if steps != [] {
      var before := Run(workerId, steps[..|steps| - 1]);
      EveryRunIsSourced(workerId, steps[..|steps| - 1]);
      EveryRunIsSound(workerId, steps[..|steps| - 1]);
      if before.Some? && Possible(before.value, steps[|steps| - 1]) {
        StepKeepsSourced(before.value, steps[|steps| - 1]);
      }
    }
  }

  lemma {:induction false} StepKeepsSourced<R>(t: Trace<R>, step: Step<R>)
    requires Sound(t.worker, t.log) && Sourced(t.worker, t.log) && Possible(t, step)
    ensures Sourced(Do(t, step).worker, Do(t, step).log)
  {
    match step
    case Arrives(msg) => SourcedAfterDelivery(t.worker, t.log, msg);
    case Settles(i, outcome, newRef) => SourcedAfterSettling(t.worker, t.log, i, outcome, newRef);
  }

  /** Buffer and producer exclude each other in every run: a transport others wait for exists, has no producer, and has
      somebody waiting; each waiter is on the same router and on record there; nothing is ever told that its producer
      disappeared; and every stored consumer carries a producer id that was acknowledged for a transport on its router
      that has a producer and lists the consumer. */
  lemma {:induction false} BufferAndProducerExclude<R>(workerId: int, steps: seq<Step<R>>)
    requires Run(workerId, steps).Some?
    ensures var t := Run(workerId, steps).value;
            var w := t.worker;
            && (forall k :: k in w.pending ==> WaitedFor(w, k))
            && (forall i :: 0 <= i < |w.answers| ==> w.answers[i].reply != Nack(ProducerDisappeared))
            && (forall r, c :: r in w.heap && c in w.heap[r].consumers ==>
                  exists k :: k in w.heap[r].producers && k in w.heap[r].producerToConsumers
                              && c in w.heap[r].producerToConsumers[k]
                              && ProducerAcked(w.answers, t.log, k, w.heap[r].consumers[c].producerId))
  {
    EveryRunIsSound(workerId, steps);
    EveryRunIsSourced(workerId, steps);
    var t := Run(workerId, steps).value;
    var w := t.worker;
    forall k | k in w.pending ensures WaitedFor(w, k) {
      assert BufferOk(w.heap, w.transports, t.log, k, w.pending[k]);
      EntriesBelong(w, t.log, k);
    }
    forall r, c | r in w.heap && c in w.heap[r].consumers
      ensures exists k :: FedBy(w.heap[r], w.answers, t.log, k, c, w.heap[r].consumers[c].producerId)
    {
      assert RouterSourced(w.heap[r], w.answers, t.log) && ConsumerSourced(w.heap[r], w.answers, t.log, c);
    }
  }

  ghost predicate WaitedFor<R>(w: Worker<R>, k: int)
    requires k in w.pending
  {
    && k in w.transports && w.transports[k].router in w.heap && w.pending[k] != []
    && k !in w.heap[w.transports[k].router].producers
    && forall i :: 0 <= i < |w.pending[k]| ==>
         var p := w.pending[k][i];
         && p.producing == w.transports[k] && p.consumer.router == p.producing.router
         && k in w.heap[p.producing.router].producerToConsumers
         && p.consumer.id in w.heap[p.producing.router].producerToConsumers[k]
  }
}
