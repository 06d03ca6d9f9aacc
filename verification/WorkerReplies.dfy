/** What a worker answers, over every run, told from what anybody on the bus can see: the messages, the answers given so
    far, and how each media promise settled.  The worker's maps are then exactly what it has acknowledged. */
module WorkerReplies {
  import opened Common
  import opened WorkerModel
  import opened WorkerRuns
  import opened WorkerSources
  import Cluster

  // ----- Acknowledged -----

  ghost predicate AcksRouter(a: Answer, log: seq<Message>, id: int) {
    a.reply == AckRouter && a.req < |log| && log[a.req].NewRouter? && log[a.req].assignedId == id
  }

  ghost predicate AcksTransport(a: Answer, log: seq<Message>, id: int) {
    a.reply == AckTransport && a.req < |log| && log[a.req].NewTransport? && log[a.req].assignedId == id
  }

  ghost predicate AcksConsumer(a: Answer, log: seq<Message>, c: int) {
    a.reply.AckConsumer? && a.req < |log| && log[a.req].Update? && log[a.req].id == c && log[a.req].command.Consume?
  }

  /** A router with this id was acknowledged. */
  ghost predicate RouterAcked(answers: seq<Answer>, log: seq<Message>, id: int) {
    exists a :: a in answers && AcksRouter(a, log, id)
  }

  ghost predicate TransportAcked(answers: seq<Answer>, log: seq<Message>, id: int) {
    exists a :: a in answers && AcksTransport(a, log, id)
  }

  /** A consume about transport `c` was acknowledged. */
  ghost predicate ConsumerAcked(answers: seq<Answer>, log: seq<Message>, c: int) {
    exists a :: a in answers && AcksConsumer(a, log, c)
  }

  /** A consume about transport `c` was acknowledged with this very consumer. */
  ghost predicate AckedAs(answers: seq<Answer>, log: seq<Message>, c: int, consumer: Consumer) {
    exists a :: a in answers && AcksConsumer(a, log, c) && a.reply.consumer == consumer
  }

  ghost predicate ProducesAcked(answers: seq<Answer>, log: seq<Message>, k: int) {
    exists pid :: ProducerAcked(answers, log, k, pid)
  }

  // ----- Runs, with what was seen of them -----

  /** A run, the answers given when each message arrived, and how the promise of each request settled. */
  datatype History<R> = History(trace: Trace<R>, seen: seq<seq<Answer>>, settled: map<nat, Outcome>)

  ghost function Noted<R>(h: History<R>, step: Step<R>): History<R>
    requires Closed(h.trace.worker) && Possible(h.trace, step)
  {
    match step
    case Arrives(_) => History(Do(h.trace, step), h.seen + [h.trace.worker.answers], h.settled)
    case Settles(i, outcome, _) =>
      History(Do(h.trace, step), h.seen, h.settled[h.trace.worker.jobs[i].req := outcome])
  }

  ghost function Watch<R>(workerId: int, steps: seq<Step<R>>): (h: Option<History<R>>)
    ensures match Run(workerId, steps) case None => h.None? case Some(t) => h.Some? && h.value.trace == t
    decreases |steps|
  {
    if steps == [] then Some(History(Trace(Started(workerId), [], {}, {}), [], map[]))
    else
      var before := Watch(workerId, steps[..|steps| - 1]);
      var step := steps[|steps| - 1];
      if before.None? || !Possible(before.value.trace, step) then None else Some(Noted(before.value, step))
  }

  // ----- What the reply should be -----

  /** The two transports are on different router objects. */
  ghost predicate Apart<R>(transports: map<int, Transport<R>>, t: int, k: int) {
    t in transports && k in transports && transports[t].router != transports[k].router
  }

  /** Why a message is refused on arrival, given the answers of that moment. */
  ghost function Refusal<R>(log: seq<Message>, given: seq<Answer>, transports: map<int, Transport<R>>,
                            msg: Message): Option<Error> {
    if !msg.Update? then None
    else
      match msg.command
      case Unknown => Some(UnknownType)
      case Resume => if ConsumerAcked(given, log, msg.id) then None else Some(ConsumerNotFound)
      case Consume(k) =>
        if !TransportAcked(given, log, k) then Some(ProducingTransportNotFound)
        else if Apart(transports, msg.id, k) then Some(DifferentRouters)
        else None
      case _ => None
  }

  /** The reply a settled promise calls for. */
  ghost predicate Fits(log: seq<Message>, answers: seq<Answer>, r: nat, outcome: Outcome, reply: Reply)
    requires r < |log|
  {
    match outcome
    case Rejected => reply == Nack(MediaFailure)
    case AckThrew => log[r].NewTransport? && (reply == AckTransport || reply == Nack(AckFailed))
    case Resolved(mediaId) =>
      match log[r]
      case NewRouter(_, _) => reply == AckRouter
      case NewTransport(_, _, _) => reply == AckTransport
      case Update(_, command) =>
        match command
        case Connect => reply == AckDone
        case Produce => reply == AckProducer(mediaId)
        case Consume(k) =>
          && reply.AckConsumer? && reply.consumer.id == mediaId
          && ProducerAcked(answers, log, k, reply.consumer.producerId)
        case Resume => reply == AckDone
        case _ => false
  }

  /** Message `r` is addressed to this worker, told from what it had acknowledged when `r` arrived. */
  ghost predicate Concerns(workerId: int, log: seq<Message>, given: seq<Answer>, msg: Message) {
    match msg
    case NewRouter(_, forWorker) => forWorker == workerId
    case NewTransport(routerId, _, _) => RouterAcked(given, log, routerId)
    case Update(id, command) => !command.FromWorker? && TransportAcked(given, log, id)
  }

  ghost function RefusalOf<R>(h: History<R>, r: nat): Option<Error>
    requires r < |h.trace.log| == |h.seen|
  {
    Refusal(h.trace.log, h.seen[r], h.trace.worker.transports, h.trace.log[r])
  }

  /** The answer is the one its message calls for. */
  ghost predicate Rightly<R>(h: History<R>, a: Answer) {
    && |h.trace.log| == |h.seen| && a.req in h.trace.taken && a.req < |h.trace.log|
    && match RefusalOf(h, a.req)
       case Some(error) => a.req !in h.settled && a.reply == Nack(error)
       case None =>
         a.req in h.settled && Fits(h.trace.log, h.trace.worker.answers, a.req, h.settled[a.req], a.reply)
  }

  /** A taken message that was refused, or whose promise settled, has its answer; a thrown acknowledgement has both. */
  ghost predicate Served<R>(h: History<R>, r: nat)
    requires r < |h.trace.log| == |h.seen|
  {
    && (r in h.trace.taken && (RefusalOf(h, r).Some? || r in h.settled) ==> IsAnswered(h.trace.worker.answers, r))
    && (r in h.settled && h.settled[r].AckThrew? ==>
          Answer(r, AckTransport) in h.trace.worker.answers && Answer(r, Nack(AckFailed)) in h.trace.worker.answers)
  }

  ghost predicate IsAnswered(answers: seq<Answer>, r: nat) {
    exists a :: a in answers && a.req == r
  }

  // ----- The worker's maps are what it has acknowledged -----

  ghost predicate HasConsumer<R>(w: Worker<R>, c: int) {
    c in w.transports && w.transports[c].router in w.heap && c in w.heap[w.transports[c].router].consumers
  }

  /** Producers and consumers are kept on the router of their transport. */
  ghost predicate AtTheirRouter<R>(w: Worker<R>) {
    && (forall r, c :: r in w.heap && c in w.heap[r].consumers ==> c in w.transports && w.transports[c].router == r)
    && (forall r, k :: r in w.heap && k in w.heap[r].producers ==> k in w.transports && w.transports[k].router == r)
    && JobsAtHome(w, w.jobs)
  }

  /** A consume under way is for a registered transport. */
  ghost predicate JobsAtHome<R>(w: Worker<R>, jobs: seq<Job<R>>) {
    forall job :: job in jobs && job.Consuming? ==>
      job.consumer.id in w.transports && w.transports[job.consumer.id] == job.consumer
  }

  ghost predicate IndicesTold<R>(w: Worker<R>, log: seq<Message>) {
    && (forall id :: id in w.routers <==> RouterAcked(w.answers, log, id))
    && (forall id :: id in w.transports <==> TransportAcked(w.answers, log, id))
  }

  ghost predicate MediaTold<R>(w: Worker<R>, log: seq<Message>) {
    && (forall c :: HasConsumer(w, c) <==> ConsumerAcked(w.answers, log, c))
    && (forall c :: HasConsumer(w, c) ==> AckedAs(w.answers, log, c, w.heap[w.transports[c].router].consumers[c]))
    && (forall k :: HasProducer(w, k) <==> ProducesAcked(w.answers, log, k))
  }

  ghost predicate Told<R>(w: Worker<R>, log: seq<Message>) {
    AtTheirRouter(w) && IndicesTold(w, log) && MediaTold(w, log)
  }

  // ----- More answers, more messages -----

  ghost predicate Logged(answers: seq<Answer>, log: seq<Message>) {
    forall a :: a in answers ==> a.req < |log|
  }

  lemma {:induction false} AcksStayLogged(answers: seq<Answer>, log: seq<Message>, log': seq<Message>)
    requires Logged(answers, log) && log <= log'
    ensures forall id :: RouterAcked(answers, log', id) <==> RouterAcked(answers, log, id)
    ensures forall id :: TransportAcked(answers, log', id) <==> TransportAcked(answers, log, id)
    ensures forall c :: ConsumerAcked(answers, log', c) <==> ConsumerAcked(answers, log, c)
  {
    forall id ensures RouterAcked(answers, log', id) <==> RouterAcked(answers, log, id) {
      assert forall a :: a in answers ==> (AcksRouter(a, log', id) <==> AcksRouter(a, log, id));
    }
    forall id ensures TransportAcked(answers, log', id) <==> TransportAcked(answers, log, id) {
      assert forall a :: a in answers ==> (AcksTransport(a, log', id) <==> AcksTransport(a, log, id));
    }
    forall c ensures ConsumerAcked(answers, log', c) <==> ConsumerAcked(answers, log, c) {
      assert forall a :: a in answers ==> (AcksConsumer(a, log', c) <==> AcksConsumer(a, log, c));
    }
  }

  lemma {:induction false} MediaAcksStayLogged(answers: seq<Answer>, log: seq<Message>, log': seq<Message>)
    requires Logged(answers, log) && log <= log'
    ensures forall c, consumer :: AckedAs(answers, log', c, consumer) <==> AckedAs(answers, log, c, consumer)
    ensures forall k :: ProducesAcked(answers, log', k) <==> ProducesAcked(answers, log, k)
  {
    forall c, consumer ensures AckedAs(answers, log', c, consumer) <==> AckedAs(answers, log, c, consumer) {
      assert forall a :: a in answers ==> (AcksConsumer(a, log', c) <==> AcksConsumer(a, log, c));
    }
    forall k, pid ensures ProducerAcked(answers, log', k, pid) <==> ProducerAcked(answers, log, k, pid) {
      assert forall i :: 0 <= i < |answers| ==>
          answers[i] in answers && (AcksProducer(answers[i], log', k, pid) <==> AcksProducer(answers[i], log, k, pid));
    }
  }

  /** What acknowledges nothing that is stored. */
  ghost predicate StoresNothing(a: Answer) {
    a.reply.Nack? || a.reply.AckDone?
  }

  lemma {:induction false} OneMoreAck(answers: seq<Answer>, a: Answer, log: seq<Message>)
    ensures forall id ::
              RouterAcked(answers + [a], log, id) <==> RouterAcked(answers, log, id) || AcksRouter(a, log, id)
    ensures forall id ::
              TransportAcked(answers + [a], log, id) <==> TransportAcked(answers, log, id) || AcksTransport(a, log, id)
    ensures forall c ::
              ConsumerAcked(answers + [a], log, c) <==> ConsumerAcked(answers, log, c) || AcksConsumer(a, log, c)
  {
    var more := answers + [a];
    assert forall b :: b in more <==> b in answers || b == a;
    forall id ensures RouterAcked(more, log, id) <==> RouterAcked(answers, log, id) || AcksRouter(a, log, id) {
      if AcksRouter(a, log, id) { assert a in more; }
    }
    forall id ensures TransportAcked(more, log, id) <==> TransportAcked(answers, log, id) || AcksTransport(a, log, id) {
      if AcksTransport(a, log, id) { assert a in more; }
    }
    forall c ensures ConsumerAcked(more, log, c) <==> ConsumerAcked(answers, log, c) || AcksConsumer(a, log, c) {
      if AcksConsumer(a, log, c) { assert a in more; }
    }
  }

  lemma {:induction false} OneMoreMediaAck(answers: seq<Answer>, a: Answer, log: seq<Message>)
    ensures forall c, consumer ::
              (AckedAs(answers + [a], log, c, consumer)
               <==> AckedAs(answers, log, c, consumer) || (AcksConsumer(a, log, c) && a.reply.consumer == consumer))
    ensures forall k :: (ProducesAcked(answers + [a], log, k)
                         <==> ProducesAcked(answers, log, k) || exists pid :: AcksProducer(a, log, k, pid))
  {
    var more := answers + [a];
    assert forall b :: b in more <==> b in answers || b == a;
    forall c, consumer
      ensures AckedAs(more, log, c, consumer)
              <==> AckedAs(answers, log, c, consumer) || (AcksConsumer(a, log, c) && a.reply.consumer == consumer)
    {
      if AcksConsumer(a, log, c) { assert a in more; }
    }
    forall k, pid
      ensures ProducerAcked(more, log, k, pid) <==> ProducerAcked(answers, log, k, pid) || AcksProducer(a, log, k, pid)
    {
      if AcksProducer(a, log, k, pid) { assert AcksProducer(more[|answers|], log, k, pid); }
      if ProducerAcked(answers, log, k, pid) {
        var i :| 0 <= i < |answers| && AcksProducer(answers[i], log, k, pid);
        assert AcksProducer(more[i], log, k, pid);
      }
    }
  }

  // ----- One change at a time -----

  ghost function ConsumerAt<R>(w: Worker<R>, c: int): Consumer
    requires HasConsumer(w, c)
  {
    w.heap[w.transports[c].router].consumers[c]
  }

  /** Answer `a` is new, and what is registered now is what was, and what `a` acknowledges. */
  ghost predicate RegistersAsTold<R>(w: Worker<R>, w': Worker<R>, a: Answer, log: seq<Message>) {
    && w'.answers == w.answers + [a]
    && (forall id :: id in w'.routers <==> id in w.routers || AcksRouter(a, log, id))
    && (forall id :: id in w'.transports <==> id in w.transports || AcksTransport(a, log, id))
  }

  ghost predicate StoresAsTold<R>(w: Worker<R>, w': Worker<R>, a: Answer, log: seq<Message>) {
    && w'.answers == w.answers + [a]
    && (forall c :: HasConsumer(w', c) <==> HasConsumer(w, c) || AcksConsumer(a, log, c))
    && (forall c :: HasConsumer(w', c) ==>
          || (HasConsumer(w, c) && ConsumerAt(w', c) == ConsumerAt(w, c))
          || (AcksConsumer(a, log, c) && ConsumerAt(w', c) == a.reply.consumer))
    && (forall k :: HasProducer(w', k) <==> HasProducer(w, k) || exists pid :: AcksProducer(a, log, k, pid))
  }

  lemma {:induction false} IndicesAfterAnswer<R>(w: Worker<R>, log: seq<Message>, w': Worker<R>, a: Answer)
    requires IndicesTold(w, log) && RegistersAsTold(w, w', a, log)
    ensures IndicesTold(w', log)
  {
    OneMoreAck(w.answers, a, log);
  }

  lemma {:induction false} MediaAfterAnswer<R>(w: Worker<R>, log: seq<Message>, w': Worker<R>, a: Answer)
    requires MediaTold(w, log) && StoresAsTold(w, w', a, log)
    ensures MediaTold(w', log)
  {
    OneMoreAck(w.answers, a, log);
    OneMoreMediaAck(w.answers, a, log);
    forall c | HasConsumer(w', c) ensures AckedAs(w'.answers, log, c, ConsumerAt(w', c)) {
      if HasConsumer(w, c) && ConsumerAt(w', c) == ConsumerAt(w, c) {
        assert AckedAs(w.answers, log, c, ConsumerAt(w, c));
      }
    }
  }

  /** Transports and what their routers hold of them stay. */
  ghost predicate SameMedia<R>(w: Worker<R>, w': Worker<R>) {
    && (forall c :: HasConsumer(w', c) <==> HasConsumer(w, c))
    && (forall c :: HasConsumer(w', c) ==> ConsumerAt(w', c) == ConsumerAt(w, c))
    && (forall k :: HasProducer(w', k) <==> HasProducer(w, k))
  }

  lemma {:induction false} MediaStays<R>(w: Worker<R>, log: seq<Message>, w': Worker<R>, log': seq<Message>)
    requires MediaTold(w, log) && Logged(w.answers, log) && log <= log' && SameMedia(w, w') && w'.answers == w.answers
    ensures MediaTold(w', log')
  {
    AcksStayLogged(w.answers, log, log');
    MediaAcksStayLogged(w.answers, log, log');
    forall c | HasConsumer(w', c) ensures AckedAs(w'.answers, log', c, ConsumerAt(w', c)) {
      assert AckedAs(w.answers, log, c, ConsumerAt(w, c));
    }
  }

  /** Nothing stored changes. */
  ghost predicate SameStores<R>(w: Worker<R>, w': Worker<R>) {
    && w'.routers == w.routers && w'.transports == w.transports && w'.heap.Keys == w.heap.Keys
    && (forall r :: r in w.heap ==>
          w'.heap[r].consumers == w.heap[r].consumers && w'.heap[r].producers == w.heap[r].producers)
  }

  lemma {:induction false} SameStoresSameMedia<R>(w: Worker<R>, w': Worker<R>)
    requires SameStores(w, w')
    ensures SameMedia(w, w')
  {}

  lemma {:induction false} HomeStays<R>(w: Worker<R>, w': Worker<R>)
    requires AtTheirRouter(w) && SameStores(w, w') && JobsAtHome(w, w'.jobs)
    ensures AtTheirRouter(w')
  {}

  lemma {:induction false} IndicesStay<R>(w: Worker<R>, log: seq<Message>, w': Worker<R>, log': seq<Message>)
    requires IndicesTold(w, log) && Logged(w.answers, log) && log <= log' && SameStores(w, w')
             && w'.answers == w.answers
    ensures IndicesTold(w', log')
  {
    AcksStayLogged(w.answers, log, log');
  }

  lemma {:induction false} ToldStays<R>(w: Worker<R>, log: seq<Message>, w': Worker<R>, log': seq<Message>)
    requires Told(w, log) && Logged(w.answers, log) && log <= log' && SameStores(w, w') && JobsAtHome(w, w'.jobs)
    requires w'.answers == w.answers
    ensures Told(w', log')
  {
    HomeStays(w, w');
    IndicesStay(w, log, w', log');
    SameStoresSameMedia(w, w');
    MediaStays(w, log, w', log');
  }

  /** A nack, or an acknowledgement of a connect or a resume, stores nothing. */
  lemma {:induction false} ToldAfterAnswer<R>(w: Worker<R>, log: seq<Message>, req: nat, reply: Reply)
    requires Told(w, log) && StoresNothing(Answer(req, reply))
    ensures Told(Answered(w, req, reply), log)
  {
    var a, w' := Answer(req, reply), Answered(w, req, reply);
    HomeStays(w, w');
    IndicesAfterAnswer(w, log, w', a);
    SameStoresSameMedia(w, w');
    MediaAfterAnswer(w, log, w', a);
  }

  lemma {:induction false} ToldAfterRouter<R>(w: Worker<R>, log: seq<Message>, req: nat, id: int, newRef: R)
    requires Told(w, log) && Closed(w) && newRef !in w.heap
    requires req < |log| && log[req].NewRouter? && log[req].assignedId == id
    ensures Told(RouterCreated(w, req, id, newRef), log)
  {
    var a, w' := Answer(req, AckRouter), RouterCreated(w, req, id, newRef);
    IndicesAfterAnswer(w, log, w', a);
    MediaWithRouter(w, w', newRef, NewRouterObject(id));
    MediaAfterAnswer(w, log, w', a);
  }

  lemma {:induction false} MediaWithRouter<R>(w: Worker<R>, w': Worker<R>, r: R, router: Router)
    requires Closed(w) && AtTheirRouter(w) && r !in w.heap && router.consumers == map[] && router.producers == map[]
    requires w'.heap == w.heap[r := router] && w'.transports == w.transports && w'.jobs == w.jobs
    ensures AtTheirRouter(w') && SameMedia(w, w')
  {}

  lemma {:induction false} ToldAfterTransport<R>(w: Worker<R>, log: seq<Message>, req: nat, r: R, id: int,
                                                 isProducer: bool)
    requires Told(w, log) && Closed(w) && r in w.heap && id !in w.transports
    requires req < |log| && log[req].NewTransport? && log[req].assignedId == id
    ensures Told(TransportCreated(w, req, r, id, isProducer), log)
  {
    var a, w' := Answer(req, AckTransport), TransportCreated(w, req, r, id, isProducer);
    assert RegistersAsTold(w, w', a, log) by {
      assert forall k :: AcksTransport(a, log, k) <==> k == id;
    }
    IndicesAfterAnswer(w, log, w', a);
    TransportSparesMedia(w, req, r, id, isProducer);
    MediaWithTransport(w, w', id, r);
    QuietAnswerStores(w, w', a, log);
    MediaAfterAnswer(w, log, w', a);
  }

  lemma {:induction false} TransportSparesMedia<R>(w: Worker<R>, req: nat, r: R, id: int, isProducer: bool)
    requires Closed(w) && r in w.heap
    ensures var w' := TransportCreated(w, req, r, id, isProducer);
            && w'.heap.Keys == w.heap.Keys
            && forall q :: q in w.heap ==>
                 w'.heap[q].consumers == w.heap[q].consumers && w'.heap[q].producers == w.heap[q].producers
  {}

  lemma {:induction false} QuietAnswerStores<R>(w: Worker<R>, w': Worker<R>, a: Answer, log: seq<Message>)
    requires SameMedia(w, w') && w'.answers == w.answers + [a] && !a.reply.AckConsumer? && !a.reply.AckProducer?
    ensures StoresAsTold(w, w', a, log)
  {}

  /** A new transport has no producer and no consumer. */
  lemma {:induction false} MediaWithTransport<R>(w: Worker<R>, w': Worker<R>, id: int, r: R)
    requires AtTheirRouter(w) && id !in w.transports && w'.transports == w.transports[id := Transport(id, r)]
    requires w'.jobs == w.jobs && w'.heap.Keys == w.heap.Keys
    requires forall q :: q in w.heap ==>
               w'.heap[q].consumers == w.heap[q].consumers && w'.heap[q].producers == w.heap[q].producers
    ensures AtTheirRouter(w') && SameMedia(w, w')
  {
    HomeWithTransport(w, w', id, r);
    forall c ensures HasConsumer(w', c) <==> HasConsumer(w, c) {
      if c == id { assert !HasConsumer(w', c); }
    }
    forall k ensures HasProducer(w', k) <==> HasProducer(w, k) {
      if k == id { assert !HasProducer(w', k); }
    }
  }

  lemma {:induction false} HomeWithTransport<R>(w: Worker<R>, w': Worker<R>, id: int, r: R)
    requires AtTheirRouter(w) && id !in w.transports && w'.transports == w.transports[id := Transport(id, r)]
    requires w'.jobs == w.jobs && w'.heap.Keys == w.heap.Keys
    requires forall q :: q in w.heap ==>
               w'.heap[q].consumers == w.heap[q].consumers && w'.heap[q].producers == w.heap[q].producers
    ensures AtTheirRouter(w')
  {}

  lemma {:induction false} ToldAfterConsumer<R>(w: Worker<R>, log: seq<Message>, req: nat, t: Transport<R>,
                                                consumer: Consumer)
    requires Told(w, log) && Closed(w) && t.id in w.transports && w.transports[t.id] == t && t.router in w.heap
    requires req < |log| && log[req].Update? && log[req].id == t.id && log[req].command.Consume?
    ensures Told(ConsumerCreated(w, req, t, consumer), log)
  {
    var a, w' := Answer(req, AckConsumer(consumer)), ConsumerCreated(w, req, t, consumer);
    IndicesAfterAnswer(w, log, w', a);
    var router := w.heap[t.router];
    MediaWithConsumer(w, w', t, consumer);
    assert forall c :: AcksConsumer(a, log, c) <==> c == t.id;
    MediaAfterAnswer(w, log, w', a);
  }

  lemma {:induction false} MediaWithConsumer<R>(w: Worker<R>, w': Worker<R>, t: Transport<R>, consumer: Consumer)
    requires AtTheirRouter(w) && t.id in w.transports && w.transports[t.id] == t && t.router in w.heap
    requires w'.transports == w.transports && w'.jobs == w.jobs
    requires var router := w.heap[t.router];
             w'.heap == w.heap[t.router := router.(consumers := router.consumers[t.id := consumer])]
    ensures AtTheirRouter(w')
    ensures forall c :: HasConsumer(w', c) <==> HasConsumer(w, c) || c == t.id
    ensures forall c :: HasConsumer(w', c) ==>
              if c == t.id then ConsumerAt(w', c) == consumer
              else HasConsumer(w, c) && ConsumerAt(w', c) == ConsumerAt(w, c)
    ensures forall k :: HasProducer(w', k) <==> HasProducer(w, k)
  {}

  /** The producer is stored and acknowledged. */
  lemma {:induction false} ToldWithProducer<R>(w: Worker<R>, log: seq<Message>, req: nat, t: Transport<R>, mediaId: int)
    requires Told(w, log) && Closed(w) && t.id in w.transports && w.transports[t.id] == t && t.router in w.heap
    requires req < |log| && log[req] == Update(t.id, Produce)
    ensures Told(WithProducer(w, req, t, mediaId), log)
  {
    var a, w' := Answer(req, AckProducer(mediaId)), WithProducer(w, req, t, mediaId);
    IndicesAfterAnswer(w, log, w', a);
    MediaWithProducer(w, w', t, mediaId);
    assert AcksProducer(a, log, t.id, mediaId);
    assert forall k, pid :: AcksProducer(a, log, k, pid) ==> k == t.id;
    MediaAfterAnswer(w, log, w', a);
  }

  lemma {:induction false} MediaWithProducer<R>(w: Worker<R>, w': Worker<R>, t: Transport<R>, mediaId: int)
    requires AtTheirRouter(w) && t.id in w.transports && w.transports[t.id] == t && t.router in w.heap
    requires w'.transports == w.transports && w'.jobs == w.jobs
    requires var router := w.heap[t.router];
             w'.heap == w.heap[t.router := router.(producers := router.producers[t.id := mediaId])]
    ensures AtTheirRouter(w')
    ensures forall c :: HasConsumer(w', c) <==> HasConsumer(w, c)
    ensures forall c :: HasConsumer(w', c) ==> ConsumerAt(w', c) == ConsumerAt(w, c)
    ensures forall k :: HasProducer(w', k) <==> HasProducer(w, k) || k == t.id
  {}

  lemma {:induction false} ToldAfterProduced<R>(w: Worker<R>, log: seq<Message>, req: nat, t: Transport<R>,
                                                mediaId: int)
    requires Sound(w, log) && Logged(w.answers, log) && Told(w, log) && t.id in w.transports && w.transports[t.id] == t
    requires req < |log| && log[req] == Update(t.id, Produce)
    ensures Told(Produced(w, req, t, mediaId), log)
  {
    ToldWithProducer(w, log, req, t, mediaId);
    Flushing(w, log, req, t, mediaId);
    ToldStays(WithProducer(w, req, t, mediaId), log, Produced(w, req, t, mediaId), log);
  }

  /** The flush stores nothing, answers nothing, and starts jobs for registered transports. */
  lemma {:induction false} Flushing<R>(w: Worker<R>, log: seq<Message>, req: nat, t: Transport<R>, mediaId: int)
    requires Sound(w, log) && Logged(w.answers, log) && JobsAtHome(w, w.jobs) && req < |log|
    requires t.id in w.transports && w.transports[t.id] == t
    ensures var w1, w' := WithProducer(w, req, t, mediaId), Produced(w, req, t, mediaId);
            SameStores(w1, w') && JobsAtHome(w1, w'.jobs) && w'.answers == w1.answers && Logged(w1.answers, log)
  {
    FlushStoresNothing(w, req, t, mediaId);
    FlushedAtHome(w, log, req, t, mediaId);
  }

  lemma {:induction false} FlushStoresNothing<R>(w: Worker<R>, req: nat, t: Transport<R>, mediaId: int)
    requires Closed(w) && t.router in w.heap
    ensures SameStores(WithProducer(w, req, t, mediaId), Produced(w, req, t, mediaId))
  {}

  lemma {:induction false} FlushedAtHome<R>(w: Worker<R>, log: seq<Message>, req: nat, t: Transport<R>, mediaId: int)
    requires Sound(w, log) && JobsAtHome(w, w.jobs) && t.id in w.transports && w.transports[t.id] == t
    ensures JobsAtHome(w, Produced(w, req, t, mediaId).jobs)
    ensures Produced(w, req, t, mediaId).answers == WithProducer(w, req, t, mediaId).answers
  {
    ProducedStartsTheBuffer(w, log, req, t, mediaId);
    StartedAtHome(w, log, t.id, mediaId);
  }

  lemma {:induction false} StartedAtHome<R>(w: Worker<R>, log: seq<Message>, k: int, mediaId: int)
    requires Sound(w, log)
    ensures k in w.pending ==> JobsAtHome(w, StartedFor(w.pending[k], mediaId))
  {
    if k in w.pending {
      EntriesBelong(w, log, k);
      forall i | 0 <= i < |w.pending[k]| ensures EntryOk(w.heap, w.transports, log, k, w.pending[k][i]) {}
    }
  }

  // ----- A message arrives -----

  lemma {:induction false} CommandStores<R>(w: Worker<R>, req: nat, id: int, command: Command)
    requires Closed(w) && JobsAtHome(w, w.jobs) && id in w.transports && w.transports[id].id == id
    ensures var w' := Commanded(w, req, w.transports[id], command); SameStores(w, w') && JobsAtHome(w, w'.jobs)
  {
    if command.Consume? && command.producingTransportId in w.transports {
      var k := command.producingTransportId;
      if w.transports[k].router == w.transports[id].router {
        ConsumeStores(w, PendingConsume(req, w.transports[id], w.transports[k]));
      }
    }
  }

  lemma {:induction false} ConsumeStores<R>(w: Worker<R>, p: PendingConsume<R>)
    requires p.consumer.router in w.heap && JobsAtHome(w, w.jobs)
    requires p.consumer.id in w.transports && w.transports[p.consumer.id] == p.consumer
    ensures var w' := ConsumeRequested(w, p); SameStores(w, w') && JobsAtHome(w, w'.jobs)
  {}

  /** A command is answered on arrival exactly when it is refused, told from the answers of that moment. */
  lemma {:induction false} CommandReply<R>(w: Worker<R>, log: seq<Message>, req: nat, id: int, command: Command)
    requires Closed(w) && IndicesTold(w, log) && MediaTold(w, log) && id in w.transports && w.transports[id].id == id
    ensures Commanded(w, req, w.transports[id], command).answers
            == match Refusal(log, w.answers, w.transports, Update(id, command))
               case Some(error) => w.answers + [Answer(req, Nack(error))]
               case None => w.answers
  {
    match command
    case Resume => assert HasConsumer(w, id) <==> ConsumerAcked(w.answers, log, id);
    case Consume(k) => assert k in w.transports <==> TransportAcked(w.answers, log, k);
    case _ =>
  }

  lemma {:induction false} ToldAfterCommand<R>(w: Worker<R>, log: seq<Message>, req: nat, id: int, command: Command)
    requires Closed(w) && Logged(w.answers, log) && Told(w, log) && id in w.transports && w.transports[id].id == id
    ensures Told(Commanded(w, req, w.transports[id], command), log)
  {
    var w' := Commanded(w, req, w.transports[id], command);
    CommandStores(w, req, id, command);
    CommandReply(w, log, req, id, command);
    match Refusal(log, w.answers, w.transports, Update(id, command)) {
      case Some(error) =>
        var w1 := w'.(answers := w.answers);
        ToldStays(w, log, w1, log);
        ToldAfterAnswer(w1, log, req, Nack(error));
      case None => ToldStays(w, log, w', log);
    }
  }

  lemma {:induction false} ToldAfterStart<R>(w: Worker<R>, log: seq<Message>, job: Job<R>)
    requires Logged(w.answers, log) && Told(w, log) && !job.Consuming?
    ensures Told(Start(w, job), log)
  {
    ToldStays(w, log, Start(w, job), log);
  }

  lemma {:induction false} ToldAfterDelivery<R>(w: Worker<R>, log: seq<Message>, msg: Message)
    requires Sound(w, log) && Logged(w.answers, log) && Told(w, log)
    ensures Told(Deliver(w, |log|, msg), log + [msg])
  {
    ToldStays(w, log, w, log + [msg]);
    if Addressed(w, msg) {
      match msg
      case NewRouter(id, _) => ToldAfterStart(w, log + [msg], CreateRouter(|log|, id));
      case NewTransport(routerId, id, isProducer) =>
        ToldAfterStart(w, log + [msg], CreateTransport(|log|, w.routers[routerId], id, isProducer));
      case Update(id, command) => ToldAfterCommand(w, log + [msg], |log|, id, command);
    }
  }

  lemma {:induction false} DeliveryReply<R>(w: Worker<R>, log: seq<Message>, msg: Message)
    requires Sound(w, log) && Logged(w.answers, log) && Told(w, log)
    ensures Addressed(w, msg) <==> Concerns(w.workerId, log + [msg], w.answers, msg)
    ensures Deliver(w, |log|, msg).answers
            == if !Addressed(w, msg) then w.answers
               else match Refusal(log + [msg], w.answers, w.transports, msg)
                 case Some(error) => w.answers + [Answer(|log|, Nack(error))]
                 case None => w.answers
  {
    ToldStays(w, log, w, log + [msg]);
    if msg.Update? && Addressed(w, msg) { CommandReply(w, log + [msg], |log|, msg.id, msg.command); }
  }

  // ----- A promise settles -----

  lemma {:induction false} ToldWithoutJob<R>(w: Worker<R>, log: seq<Message>, i: nat)
    requires Closed(w) && Logged(w.answers, log) && Told(w, log) && i < |w.jobs|
    ensures Told(WithoutJob(w, i), log)
  {
    var w1 := WithoutJob(w, i);
    forall job | job in w1.jobs ensures job in w.jobs {
      var j :| 0 <= j < |w1.jobs| && w1.jobs[j] == job;
      assert w1.jobs[j] == w.jobs[if j < i then j else j + 1];
    }
    ToldStays(w, log, w1, log);
  }

  lemma {:induction false} ToldAfterSettling<R>(w: Worker<R>, log: seq<Message>, i: nat, outcome: Outcome, newRef: R)
    requires Sound(w, log) && Sourced(w, log) && Told(w, log) && i < |w.jobs| && newRef !in w.heap
    requires (outcome.AckThrew? ==> w.jobs[i].CreateTransport?) && Cluster.AtHome(w, log)
    ensures Told(Settle(w, i, outcome, newRef), log)
  {
    var job, w1 := w.jobs[i], WithoutJob(w, i);
    assert Cluster.JobAtHome(w, log, job);
    assert job in w.jobs && JobSourced(w, log, job) && JobOk(w.heap, w.transports, log, job);
    SoundAfterDroppingJob(w, log, i);
    ToldWithoutJob(w, log, i);
    match outcome
    case Rejected => ToldAfterAnswer(w1, log, job.req, Nack(MediaFailure));
    case AckThrew =>
      ToldAfterTransport(w1, log, job.req, job.router, job.assignedId, job.isProducer);
      ToldAfterAnswer(TransportCreated(w1, job.req, job.router, job.assignedId, job.isProducer), log, job.req,
          Nack(AckFailed));
    case Resolved(mediaId) => ToldAfterResolving(w, w1, log, job, mediaId, newRef);
  }

  lemma {:induction false} ToldAfterResolving<R>(w: Worker<R>, w1: Worker<R>, log: seq<Message>, job: Job<R>,
                                                 mediaId: int, newRef: R)
    requires Sound(w1, log) && Logged(w1.answers, log) && Told(w1, log) && JobClosed(w1.heap, job) && newRef !in w1.heap
    requires w1.transports == w.transports && job in w.jobs && JobsAtHome(w, w.jobs)
    requires JobSourced(w, log, job) && JobOk(w.heap, w.transports, log, job) && Cluster.JobAtHome(w, log, job)
    ensures match job
            case CreateRouter(req, id) => Told(RouterCreated(w1, req, id, newRef), log)
            case CreateTransport(req, r, id, isProducer) => Told(TransportCreated(w1, req, r, id, isProducer), log)
            case Connecting(req) => Told(Answered(w1, req, AckDone), log)
            case Producing(req, t) => Told(Produced(w1, req, t, mediaId), log)
            case Consuming(req, t, producerId) => Told(ConsumerCreated(w1, req, t, Consumer(mediaId, producerId)), log)
            case Resuming(req) => Told(Answered(w1, req, AckDone), log)
  {
    match job
    case CreateRouter(req, id) => ToldAfterRouter(w1, log, req, id, newRef);
    case CreateTransport(req, r, id, isProducer) => ToldAfterTransport(w1, log, req, r, id, isProducer);
    case Producing(req, t) => ToldAfterProduced(w1, log, req, t, mediaId);
    case Consuming(req, t, producerId) => ToldAfterConsumer(w1, log, req, t, Consumer(mediaId, producerId));
    case _ => ToldAfterAnswer(w1, log, job.req, AckDone);
  }

  /** What settling adds to the answers: the settled request's own, each the one that is called for. */
  lemma {:induction false} SettlingReply<R>(w: Worker<R>, log: seq<Message>, i: nat, outcome: Outcome, newRef: R)
    requires Sound(w, log) && Sourced(w, log) && i < |w.jobs| && newRef !in w.heap
    requires outcome.AckThrew? ==> w.jobs[i].CreateTransport?
    ensures w.jobs[i].req < |log|
    ensures var w', q := Settle(w, i, outcome, newRef), w.jobs[i].req;
            && Extends(w.answers, w'.answers)
            && (forall a :: a in w'.answers ==>
                  a in w.answers || (a.req == q && Fits(log, w'.answers, q, outcome, a.reply)))
            && IsAnswered(w'.answers, q)
            && (outcome.AckThrew? ==> Answer(q, AckTransport) in w'.answers && Answer(q, Nack(AckFailed)) in w'.answers)
  {
    var job, w' := w.jobs[i], Settle(w, i, outcome, newRef);
    assert job in w.jobs;
    SettledAs(w, log, i, outcome, newRef);
    GivenIsAdded(w.answers, job, outcome);
    forall a | a in Given(job, outcome) ensures Fits(log, w'.answers, job.req, outcome, a.reply) {
      GivenFits(w, log, job, outcome, w'.answers, a);
    }
  }

  lemma {:induction false} GivenIsAdded<R>(answers: seq<Answer>, job: Job<R>, outcome: Outcome)
    ensures var more := answers + Given(job, outcome);
            && Extends(answers, more) && IsAnswered(more, job.req)
            && (forall a :: a in more ==> a in answers || a in Given(job, outcome))
            && (forall a :: a in Given(job, outcome) ==> a.req == job.req)
            && (outcome.AckThrew? ==> Answer(job.req, AckTransport) in more && Answer(job.req, Nack(AckFailed)) in more)
  {
    var given := Given(job, outcome);
    var more := answers + given;
    assert more[|answers|] == given[0] && given[0] in more;
    if outcome.AckThrew? { assert more[|answers| + 1] == given[1] && given[1] in more; }
  }

  lemma {:induction false} GivenFits<R>(w: Worker<R>, log: seq<Message>, job: Job<R>, outcome: Outcome,
                                        answers': seq<Answer>, a: Answer)
    requires JobSourced(w, log, job) && (outcome.AckThrew? ==> job.CreateTransport?)
    requires Extends(w.answers, answers') && a in Given(job, outcome)
    ensures job.req < |log| && Fits(log, answers', job.req, outcome, a.reply)
  {
    if job.Consuming? && outcome.Resolved? {
      AckedStays(w.answers, log, answers', log, log[job.req].command.producingTransportId, job.producerId);
    }
  }

  /** The answers of a settled promise, from the code. */
  ghost function Given<R>(job: Job<R>, outcome: Outcome): (given: seq<Answer>)
    ensures given != []
  {
    match outcome
    case Rejected => [Answer(job.req, Nack(MediaFailure))]
    case AckThrew => [Answer(job.req, AckTransport), Answer(job.req, Nack(AckFailed))]
    case Resolved(mediaId) =>
      match job
      case CreateRouter(req, _) => [Answer(req, AckRouter)]
      case CreateTransport(req, _, _, _) => [Answer(req, AckTransport)]
      case Producing(req, _) => [Answer(req, AckProducer(mediaId))]
      case Consuming(req, _, producerId) => [Answer(req, AckConsumer(Consumer(mediaId, producerId)))]
      case _ => [Answer(job.req, AckDone)]
  }

  lemma {:induction false} SettledAs<R>(w: Worker<R>, log: seq<Message>, i: nat, outcome: Outcome, newRef: R)
    requires Sound(w, log) && i < |w.jobs| && newRef !in w.heap && (outcome.AckThrew? ==> w.jobs[i].CreateTransport?)
    ensures Settle(w, i, outcome, newRef).answers == w.answers + Given(w.jobs[i], outcome)
  {
    var job := w.jobs[i];
    if outcome.Resolved? && job.Producing? {
      SoundAfterDroppingJob(w, log, i);
      assert JobOk(w.heap, w.transports, log, job);
      ProducedStartsTheBuffer(WithoutJob(w, i), log, job.req, job.transport, outcome.mediaId);
    }
  }

  // ----- The invariant of what was noted -----

  /** What was given when `r` arrived was given by this worker, and `r` concerned it exactly when it was taken. */
  ghost predicate SeenOk<R>(h: History<R>, r: nat)
    requires r < |h.trace.log| == |h.seen|
  {
    && (forall a :: a in h.seen[r] ==> a in h.trace.worker.answers && a.req < r)
    && (r in h.trace.taken <==> Concerns(h.trace.worker.workerId, h.trace.log, h.seen[r], h.trace.log[r]))
    && (r in h.trace.taken && h.trace.log[r].Update? ==> h.trace.log[r].id in h.trace.worker.transports)
  }

  ghost predicate HistoryOk<R>(h: History<R>) {
    Cluster.TraceOk(h.trace) && Told(h.trace.worker, h.trace.log) && Remarked(h)
  }

  ghost predicate Remarked<R>(h: History<R>) {
    && |h.seen| == |h.trace.log|
    && (forall r :: r in h.settled ==> r < |h.seen| && r in h.trace.taken)
    && (forall r :: 0 <= r < |h.seen| ==> SeenOk(h, r) && Served(h, r))
    && (forall a :: a in h.trace.worker.answers ==> Rightly(h, a))
  }

  /** Nothing that was said or registered is taken back. */
  ghost predicate Follows<R>(h: History<R>, h': History<R>) {
    && h.trace.log <= h'.trace.log && h.seen <= h'.seen && |h'.seen| == |h'.trace.log|
    && h'.trace.worker.workerId == h.trace.worker.workerId
    && Extends(h.trace.worker.answers, h'.trace.worker.answers)
    && (forall r :: r < |h.trace.log| ==> (r in h'.trace.taken <==> r in h.trace.taken))
    && (forall id :: id in h.trace.worker.transports ==>
          id in h'.trace.worker.transports && h'.trace.worker.transports[id] == h.trace.worker.transports[id])
  }

  lemma {:induction false} SeenStays<R>(h: History<R>, h': History<R>, r: nat)
    requires IndicesTold(h.trace.worker, h.trace.log) && Follows(h, h') && r < |h.trace.log| == |h.seen| && SeenOk(h, r)
    ensures SeenOk(h', r)
  {
    assert Logged(h.seen[r], h.trace.log);
    AcksStayLogged(h.seen[r], h.trace.log, h'.trace.log);
    ExtendedHolds(h.trace.worker.answers, h'.trace.worker.answers);
  }

  lemma {:induction false} RefusalStays<R>(h: History<R>, h': History<R>, r: nat)
    requires IndicesTold(h.trace.worker, h.trace.log) && Follows(h, h') && r < |h.trace.log| == |h.seen| && SeenOk(h, r)
    requires r in h.trace.taken
    ensures RefusalOf(h', r) == RefusalOf(h, r)
  {
    assert Logged(h.seen[r], h.trace.log);
    AcksStayLogged(h.seen[r], h.trace.log, h'.trace.log);
    KnownThen(h, r);
  }

  /** What was acknowledged when `r` arrived is still registered. */
  lemma {:induction false} KnownThen<R>(h: History<R>, r: nat)
    requires IndicesTold(h.trace.worker, h.trace.log) && r < |h.trace.log| == |h.seen| && SeenOk(h, r)
    ensures forall id :: TransportAcked(h.seen[r], h.trace.log, id) ==> id in h.trace.worker.transports
  {
    forall id | TransportAcked(h.seen[r], h.trace.log, id)
      ensures TransportAcked(h.trace.worker.answers, h.trace.log, id)
    {
      var a :| a in h.seen[r] && AcksTransport(a, h.trace.log, id);
      assert a in h.trace.worker.answers;
    }
  }

  lemma {:induction false} ExtendedHolds(answers: seq<Answer>, answers': seq<Answer>)
    requires Extends(answers, answers')
    ensures forall a :: a in answers ==> a in answers'
  {
    forall a | a in answers ensures a in answers' {
      var i :| 0 <= i < |answers| && answers[i] == a;
      assert answers'[..|answers|][i] == answers'[i];
    }
  }

  /** An old answer is still the right one when how its own request settled is not touched. */
  lemma {:induction false} RightlyStays<R>(h: History<R>, h': History<R>, a: Answer)
    requires IndicesTold(h.trace.worker, h.trace.log) && Remarked(h) && Follows(h, h') && a in h.trace.worker.answers
    requires (a.req in h'.settled <==> a.req in h.settled)
             && (a.req in h.settled ==> h'.settled[a.req] == h.settled[a.req])
    ensures Rightly(h', a)
  {
    assert Rightly(h, a) && SeenOk(h, a.req);
    RefusalStays(h, h', a.req);
    if a.req in h.settled {
      FitsStays(h.trace.log, h.trace.worker.answers, h'.trace.log, h'.trace.worker.answers, a.req, h.settled[a.req],
                a.reply);
    }
  }

  lemma {:induction false} FitsStays(log: seq<Message>, answers: seq<Answer>, log': seq<Message>,
                                     answers': seq<Answer>, r: nat, outcome: Outcome, reply: Reply)
    requires log <= log' && Extends(answers, answers') && r < |log|
    ensures Fits(log, answers, r, outcome, reply) ==> Fits(log', answers', r, outcome, reply)
  {
    if Fits(log, answers, r, outcome, reply) && log[r].Update? && log[r].command.Consume? && outcome.Resolved? {
      AckedStays(answers, log, answers', log', log[r].command.producingTransportId, reply.consumer.producerId);
    }
  }

  lemma {:induction false} ServedStays<R>(h: History<R>, h': History<R>, r: nat)
    requires IndicesTold(h.trace.worker, h.trace.log) && Remarked(h) && Follows(h, h') && r < |h.trace.log|
    requires (r in h'.settled <==> r in h.settled) && (r in h.settled ==> h'.settled[r] == h.settled[r])
    ensures Served(h', r)
  {
    assert Served(h, r) && SeenOk(h, r);
    if r in h.trace.taken { RefusalStays(h, h', r); }
    ExtendedHolds(h.trace.worker.answers, h'.trace.worker.answers);
    if IsAnswered(h.trace.worker.answers, r) {
      var a :| a in h.trace.worker.answers && a.req == r;
      assert a in h'.trace.worker.answers;
    }
  }

  // ----- Each step keeps it -----

  lemma {:induction false} ArrivalFollows<R>(h: History<R>, msg: Message)
    requires HistoryOk(h) && Possible(h.trace, Arrives(msg))
    ensures Follows(h, Noted(h, Arrives(msg)))
  {
    DeliveryExtends(h.trace.worker, |h.trace.log|, msg);
    Cluster.DeliveryIsSmall(h.trace.worker, |h.trace.log|, msg);
    ArrivingFollows(h, Noted(h, Arrives(msg)), msg);
  }

  lemma {:induction false} ArrivingFollows<R>(h: History<R>, h': History<R>, msg: Message)
    requires |h.seen| == |h.trace.log| && Extends(h.trace.worker.answers, h'.trace.worker.answers)
    requires h'.trace.log == h.trace.log + [msg] && h'.seen == h.seen + [h.trace.worker.answers]
    requires h'.trace.worker.workerId == h.trace.worker.workerId
             && h'.trace.worker.transports == h.trace.worker.transports
    requires h'.trace.taken == h.trace.taken || h'.trace.taken == h.trace.taken + {|h.trace.log|}
    ensures Follows(h, h')
  {}

  lemma {:induction false} TraceAfterArrival<R>(t: Trace<R>, msg: Message)
    requires Cluster.TraceOk(t) && Possible(t, Arrives(msg))
    ensures Cluster.TraceOk(Do(t, Arrives(msg)))
  {
    StepKeepsAll(t, Arrives(msg));
    Cluster.AtHomeAfterDelivery(t.worker, t.log, msg);
    SourcedAfterDelivery(t.worker, t.log, msg);
  }

  lemma {:induction false} ArrivalKeepsHistory<R>(h: History<R>, msg: Message)
    requires HistoryOk(h) && Possible(h.trace, Arrives(msg))
    ensures HistoryOk(Noted(h, Arrives(msg)))
  {
    ArrivalFollows(h, msg);
    TraceAfterArrival(h.trace, msg);
    ToldAfterDelivery(h.trace.worker, h.trace.log, msg);
    ArrivalIsRemarked(h, msg);
  }

  lemma {:induction false} ArrivalIsRemarked<R>(h: History<R>, msg: Message)
    requires HistoryOk(h) && Possible(h.trace, Arrives(msg)) && Follows(h, Noted(h, Arrives(msg)))
    ensures Remarked(Noted(h, Arrives(msg)))
  {
    var h' := Noted(h, Arrives(msg));
    NewcomerIsServed(h, msg);
    forall a | a in h'.trace.worker.answers && a !in h.trace.worker.answers ensures Rightly(h', a) {
      RefusedRightly(h, msg, a);
    }
    RemarkedStays(h, h');
  }

  /** One message more, which is in order with what was answered to it. */
  lemma {:induction false} RemarkedStays<R>(h: History<R>, h': History<R>)
    requires IndicesTold(h.trace.worker, h.trace.log) && Remarked(h) && Follows(h, h')
    requires |h'.seen| == |h.seen| + 1 && h'.settled == h.settled
    requires SeenOk(h', |h.seen|) && Served(h', |h.seen|)
    requires forall a :: a in h'.trace.worker.answers && a !in h.trace.worker.answers ==> Rightly(h', a)
    ensures Remarked(h')
  {
    forall r | 0 <= r < |h'.seen| ensures SeenOk(h', r) && Served(h', r) {
      if r < |h.seen| {
        SeenStays(h, h', r);
        ServedStays(h, h', r);
      }
    }
    forall a | a in h'.trace.worker.answers ensures Rightly(h', a) {
      if a in h.trace.worker.answers { RightlyStays(h, h', a); }
    }
    forall r | r in h'.settled ensures r in h'.trace.taken { assert r in h.trace.taken && SeenOk(h, r); }
  }

  /** The message that arrived is taken and refused as it should be. */
  lemma {:induction false} NewcomerIsServed<R>(h: History<R>, msg: Message)
    requires HistoryOk(h) && Possible(h.trace, Arrives(msg))
    ensures var h' := Noted(h, Arrives(msg));
            |h'.seen| == |h'.trace.log| == |h.trace.log| + 1 && SeenOk(h', |h.trace.log|) && Served(h', |h.trace.log|)
  {
    var h', n, w := Noted(h, Arrives(msg)), |h.trace.log|, h.trace.worker;
    ArrivalFollows(h, msg);
    DeliveryReply(w, h.trace.log, msg);
    ExtendedHolds(w.answers, h'.trace.worker.answers);
    Cluster.DeliveryIsSmall(w, n, msg);
    assert h'.seen[n] == w.answers && h'.trace.log[n] == msg;
    if n in h'.trace.taken && RefusalOf(h', n).Some? {
      assert Answer(n, Nack(RefusalOf(h', n).value)) in h'.trace.worker.answers;
    }
  }

  lemma {:induction false} RefusedRightly<R>(h: History<R>, msg: Message, a: Answer)
    requires HistoryOk(h) && Possible(h.trace, Arrives(msg))
    requires a in Noted(h, Arrives(msg)).trace.worker.answers && a !in h.trace.worker.answers
    ensures Rightly(Noted(h, Arrives(msg)), a)
  {
    DeliveryRefuses(h.trace.worker, h.trace.log, msg, a);
    RefusedAs(h, Noted(h, Arrives(msg)), msg, a);
  }

  /** An answer given on arrival is the refusal. */
  lemma {:induction false} DeliveryRefuses<R>(w: Worker<R>, log: seq<Message>, msg: Message, a: Answer)
    requires Sound(w, log) && Logged(w.answers, log) && Told(w, log)
    requires a in Deliver(w, |log|, msg).answers && a !in w.answers
    ensures Addressed(w, msg) && Deliver(w, |log|, msg).transports == w.transports
    ensures var refusal := Refusal(log + [msg], w.answers, w.transports, msg);
            refusal.Some? && a == Answer(|log|, Nack(refusal.value))
  {
    DeliveryReply(w, log, msg);
    TransportsOnDelivery(w, |log|, msg);
  }

  lemma {:induction false} TransportsOnDelivery<R>(w: Worker<R>, req: nat, msg: Message)
    requires Closed(w)
    ensures Deliver(w, req, msg).transports == w.transports
  {
    Cluster.DeliveryIsSmall(w, req, msg);
  }

  lemma {:induction false} RefusedAs<R>(h: History<R>, h': History<R>, msg: Message, a: Answer)
    requires Remarked(h) && h'.trace.log == h.trace.log + [msg] && h'.seen == h.seen + [h.trace.worker.answers]
    requires h'.settled == h.settled && h'.trace.worker.transports == h.trace.worker.transports
    requires a.req == |h.trace.log| && a.req in h'.trace.taken
    requires var refusal := Refusal(h'.trace.log, h.trace.worker.answers, h.trace.worker.transports, msg);
             refusal.Some? && a.reply == Nack(refusal.value)
    ensures Rightly(h', a)
  {}

  /** The settled request was taken, not refused, and has no answer yet. */
  lemma {:induction false} SettlesOnce<R>(h: History<R>, i: nat)
    requires HistoryOk(h) && i < |h.trace.worker.jobs|
    ensures var q := h.trace.worker.jobs[i].req;
            && q < |h.trace.log| && q in h.trace.taken && q !in h.settled && RefusalOf(h, q).None?
            && forall a :: a in h.trace.worker.answers ==> a.req != q
  {
    var job := h.trace.worker.jobs[i];
    assert job in h.trace.worker.jobs;
    JobIsTaken(h.trace, job);
    forall a | a in h.trace.worker.answers ensures a.req != job.req { AnsweredIsDone(h.trace, job, a); }
    assert Served(h, job.req);
  }

  lemma {:induction false} SettlingFollows<R>(h: History<R>, i: nat, outcome: Outcome, newRef: R)
    requires HistoryOk(h) && Possible(h.trace, Settles(i, outcome, newRef))
    ensures Follows(h, Noted(h, Settles(i, outcome, newRef)))
  {
    SettlingExtends(h.trace.worker, h.trace.log, i, outcome, newRef);
    TransportsStay(h.trace.worker, h.trace.log, i, outcome, newRef);
  }

  lemma {:induction false} TransportsStay<R>(w: Worker<R>, log: seq<Message>, i: nat, outcome: Outcome, newRef: R)
    requires Sound(w, log) && i < |w.jobs| && newRef !in w.heap && (outcome.AckThrew? ==> w.jobs[i].CreateTransport?)
    ensures var w' := Settle(w, i, outcome, newRef);
            && w'.workerId == w.workerId
            && forall id :: id in w.transports ==> id in w'.transports && w'.transports[id] == w.transports[id]
  {
    Cluster.SettlingRegisters(w, i, outcome, newRef);
    assert JobOk(w.heap, w.transports, log, w.jobs[i]);
  }

  lemma {:induction false} SettlingKeepsHistory<R>(h: History<R>, i: nat, outcome: Outcome, newRef: R)
    requires HistoryOk(h) && Possible(h.trace, Settles(i, outcome, newRef))
    ensures HistoryOk(Noted(h, Settles(i, outcome, newRef)))
  {
    SettlingFollows(h, i, outcome, newRef);
    Cluster.TraceAfterSettling(h.trace, i, outcome, newRef);
    ToldAfterSettling(h.trace.worker, h.trace.log, i, outcome, newRef);
    SettlingIsRemarked(h, i, outcome, newRef);
  }

  lemma {:induction false} SettlingIsRemarked<R>(h: History<R>, i: nat, outcome: Outcome, newRef: R)
    requires HistoryOk(h) && Possible(h.trace, Settles(i, outcome, newRef))
    requires Follows(h, Noted(h, Settles(i, outcome, newRef)))
    ensures Remarked(Noted(h, Settles(i, outcome, newRef)))
  {
    var h' := Noted(h, Settles(i, outcome, newRef));
    SettlesOnce(h, i);
    SettledIsServed(h, i, outcome, newRef);
    forall a | a in h'.trace.worker.answers && a !in h.trace.worker.answers ensures Rightly(h', a) {
      SettledRightly(h, i, outcome, newRef, a);
    }
    RemarkedOnceSettled(h, h', h.trace.worker.jobs[i].req, outcome);
  }

  /** One promise settled, and its request has the answers called for. */
  lemma {:induction false} RemarkedOnceSettled<R>(h: History<R>, h': History<R>, q: nat, outcome: Outcome)
    requires IndicesTold(h.trace.worker, h.trace.log) && Remarked(h) && Follows(h, h')
    requires h'.seen == h.seen && h'.settled == h.settled[q := outcome] && q < |h.seen| && q in h.trace.taken
    requires Served(h', q) && forall a :: a in h.trace.worker.answers ==> a.req != q
    requires forall a :: a in h'.trace.worker.answers && a !in h.trace.worker.answers ==> Rightly(h', a)
    ensures Remarked(h')
  {
    forall r | 0 <= r < |h'.seen| ensures SeenOk(h', r) && Served(h', r) {
      SeenStays(h, h', r);
      if r != q { ServedStays(h, h', r); }
    }
    forall a | a in h'.trace.worker.answers ensures Rightly(h', a) {
      if a in h.trace.worker.answers { RightlyStays(h, h', a); }
    }
  }

  lemma {:induction false} SettledIsServed<R>(h: History<R>, i: nat, outcome: Outcome, newRef: R)
    requires HistoryOk(h) && Possible(h.trace, Settles(i, outcome, newRef))
    ensures h.trace.worker.jobs[i].req < |h.trace.log|
    ensures Served(Noted(h, Settles(i, outcome, newRef)), h.trace.worker.jobs[i].req)
  {
    SettlingReply(h.trace.worker, h.trace.log, i, outcome, newRef);
  }

  lemma {:induction false} SettledRightly<R>(h: History<R>, i: nat, outcome: Outcome, newRef: R, a: Answer)
    requires HistoryOk(h) && Possible(h.trace, Settles(i, outcome, newRef))
    requires a in Noted(h, Settles(i, outcome, newRef)).trace.worker.answers && a !in h.trace.worker.answers
    ensures Rightly(Noted(h, Settles(i, outcome, newRef)), a)
  {
    SettlingReply(h.trace.worker, h.trace.log, i, outcome, newRef);
    SettlesOnce(h, i);
    SettlingFollows(h, i, outcome, newRef);
    assert SeenOk(h, a.req);
    RefusalStays(h, Noted(h, Settles(i, outcome, newRef)), a.req);
  }

  lemma {:induction false} EveryRunKeepsHistory<R>(workerId: int, steps: seq<Step<R>>)
    ensures var h := Watch(workerId, steps);
            h.Some? ==> HistoryOk(h.value) && h.value.trace.worker.workerId == workerId
    decreases |steps|
  {
    if steps != [] {
      var before, step := Watch(workerId, steps[..|steps| - 1]), steps[|steps| - 1];
      EveryRunKeepsHistory(workerId, steps[..|steps| - 1]);
      if before.Some? && Possible(before.value.trace, step) {
        match step
        case Arrives(msg) =>
          ArrivalFollows(before.value, msg);
          ArrivalKeepsHistory(before.value, msg);
        case Settles(i, outcome, newRef) =>
          SettlingFollows(before.value, i, outcome, newRef);
          SettlingKeepsHistory(before.value, i, outcome, newRef);
      }
    }
  }

  lemma {:induction false} EveryRunIsRemarked<R>(workerId: int, steps: seq<Step<R>>)
    ensures var h := Watch(workerId, steps); h.Some? ==> Remarked(h.value) && h.value.trace.worker.workerId == workerId
  {
    EveryRunKeepsHistory(workerId, steps);
  }

  // ----- The results -----

  /** Every reply, in every run.  A message is taken exactly when it concerns the worker, told from what the worker
      had acknowledged when it arrived.  Every answer is to a taken message, and is the one called for: the refusal
      told from what had been acknowledged on arrival, or else the reply the settled promise calls for.  And whatever
      was taken and refused, or whose promise settled, has been answered; a thrown acknowledgement both ways. */
  lemma {:induction false} EveryReplyIsTheOneCalledFor<R>(workerId: int, steps: seq<Step<R>>)
    ensures match Watch(workerId, steps)
            case None => true
            case Some(h) =>
              && |h.seen| == |h.trace.log|
              && (forall r :: 0 <= r < |h.seen| ==>
                    && (r in h.trace.taken <==> Concerns(workerId, h.trace.log, h.seen[r], h.trace.log[r]))
                    && Served(h, r))
              && (forall a :: a in h.trace.worker.answers ==> Rightly(h, a))
  {
    EveryRunIsRemarked(workerId, steps);
    var watched := Watch(workerId, steps);
    if watched.Some? {
      var h := watched.value;
      forall r | 0 <= r < |h.seen|
        ensures r in h.trace.taken <==> Concerns(workerId, h.trace.log, h.seen[r], h.trace.log[r])
        ensures Served(h, r)
      {
        assert SeenOk(h, r);
      }
    }
  }

  /** In every run the worker knows exactly the routers and transports it has acknowledged; a transport holds a consumer
      exactly when a consume about it was acknowledged, and that is a consumer it acknowledged; and it has a producer
      exactly when a produce about it was acknowledged. */
  lemma {:induction false} MapsAreWhatWasAcknowledged<R>(workerId: int, steps: seq<Step<R>>)
    ensures match Run(workerId, steps)
            case None => true
            case Some(t) => IndicesTold(t.worker, t.log) && MediaTold(t.worker, t.log)
  {
    EveryRunKeepsHistory(workerId, steps);
  }

  /** In every run a resume that the worker took is nacked with "consumer not found" if and only if no consume about its
      transport had been acknowledged when it arrived.  Any other one is answered once its promise settles, and is
      acknowledged exactly when the promise resolved. */
  lemma {:induction false} ResumeRefusedExactlyWhenNothingConsumed<R>(workerId: int, steps: seq<Step<R>>, r: nat)
    ensures match Watch(workerId, steps)
            case None => true
            case Some(h) =>
              var log, answers := h.trace.log, h.trace.worker.answers;
              r in h.trace.taken && r < |log| == |h.seen| && log[r].Update? && log[r].command.Resume? ==>
                && (Answer(r, Nack(ConsumerNotFound)) in answers <==> !ConsumerAcked(h.seen[r], log, log[r].id))
                && (ConsumerAcked(h.seen[r], log, log[r].id) ==>
                      && (Answer(r, AckDone) in answers <==> r in h.settled && h.settled[r].Resolved?)
                      && (Answer(r, Nack(MediaFailure)) in answers <==> r in h.settled && h.settled[r].Rejected?))
  {
    EveryRunIsRemarked(workerId, steps);
    var watched := Watch(workerId, steps);
    if watched.Some? {
      var h := watched.value;
      if r in h.trace.taken && r < |h.trace.log| && h.trace.log[r].Update? && h.trace.log[r].command.Resume? {
        assert Served(h, r);
        if IsAnswered(h.trace.worker.answers, r) {
          var a :| a in h.trace.worker.answers && a.req == r;
          assert Rightly(h, a);
        }
      }
    }
  }
}
