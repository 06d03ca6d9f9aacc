/** Every run of one worker: messages arrive and media promises settle in any order, well or badly.

    The one hypothesis is that a transport id is assigned at most once, which is what the coordinator's id
    generator provides inside its wrap window. */
module WorkerRuns {
  import opened Common
  import opened WorkerModel

  /** A worker, all the messages published so far (a request is named by its position), the ones it took, and the ones
      whose ack callback threw. */
  datatype Trace<R> = Trace(worker: Worker<R>, log: seq<Message>, taken: set<nat>, threw: set<nat>)

  datatype Step<R> =
    | Arrives(msg: Message)
    | Settles(i: nat, outcome: Outcome, newRef: R)

  ghost function AssignedTransports(log: seq<Message>): set<int> {
    set r | 0 <= r < |log| && log[r].NewTransport? :: log[r].assignedId
  }

  ghost predicate Possible<R>(t: Trace<R>, step: Step<R>) {
    match step
    case Arrives(msg) => msg.NewTransport? ==> msg.assignedId !in AssignedTransports(t.log)
    case Settles(i, outcome, newRef) =>
      && i < |t.worker.jobs| && newRef !in t.worker.heap
      && (outcome.AckThrew? ==> t.worker.jobs[i].CreateTransport?)
  }

  ghost function Do<R>(t: Trace<R>, step: Step<R>): (t': Trace<R>)
    requires Closed(t.worker) && Possible(t, step)
    ensures Closed(t'.worker)
  {
    match step
    case Arrives(msg) =>
      Trace(Deliver(t.worker, |t.log|, msg), t.log + [msg],
            if Addressed(t.worker, msg) then t.taken + {|t.log|} else t.taken, t.threw)
    case Settles(i, outcome, newRef) =>
      t.(worker := Settle(t.worker, i, outcome, newRef),
         threw := if outcome.AckThrew? then t.threw + {t.worker.jobs[i].req} else t.threw)
  }

  /** What the steps lead to from a freshly started worker; `None` when some step was not possible. */
  ghost function Run<R>(workerId: int, steps: seq<Step<R>>): (t: Option<Trace<R>>)
    ensures t.Some? ==> Closed(t.value.worker)
    decreases |steps|
  {
    if steps == [] then Some(Trace(Started(workerId), [], {}, {}))
    else
      var before := Run(workerId, steps[..|steps| - 1]);
      var step := steps[|steps| - 1];
      if before.None? || !Possible(before.value, step) then None else Some(Do(before.value, step))
  }

  // ----- The invariant -----

  /** `k` has a producer on this router and the consumer transport `c` is recorded as consuming from it. */
  ghost predicate Feeds(router: Router, k: int, c: int) {
    k in router.producers && k in router.producerToConsumers && c in router.producerToConsumers[k]
  }

  ghost predicate HasLiveSource(router: Router, c: int) {
    exists k :: Feeds(router, k, c)
  }

  /** A buffered entry names the transport it is keyed by, on its own router, and is on record there. */
  ghost predicate EntryOk<R>(heap: map<R, Router>, transports: map<int, Transport<R>>, log: seq<Message>,
                             k: int, p: PendingConsume<R>) {
    && k in transports && p.producing == transports[k]
    && p.consumer.id in transports && p.consumer == transports[p.consumer.id]
    && p.consumer.router == p.producing.router && p.producing.router in heap
    && k in heap[p.producing.router].producerToConsumers
    && p.consumer.id in heap[p.producing.router].producerToConsumers[k]
    && p.req < |log| && log[p.req] == Update(p.consumer.id, Consume(k))
  }

  /** What waits behind `k` is non-empty, in arrival order, well formed, and `k` has no producer yet. */
  ghost predicate BufferOk<R>(heap: map<R, Router>, transports: map<int, Transport<R>>, log: seq<Message>,
                              k: int, entries: seq<PendingConsume<R>>) {
    && k in transports && transports[k].router in heap
    && k !in heap[transports[k].router].producers
    && entries != []
    && (forall i :: 0 <= i < |entries| ==> EntryOk(heap, transports, log, k, entries[i]))
    && (forall i, j :: 0 <= i < j < |entries| ==> entries[i].req < entries[j].req)
  }

  ghost predicate JobOk<R>(heap: map<R, Router>, transports: map<int, Transport<R>>, log: seq<Message>, job: Job<R>) {
    match job
    case CreateTransport(req, _, id, _) =>
      && id in AssignedTransports(log) && id !in transports
      && req < |log| && log[req].NewTransport? && log[req].assignedId == id
    case Producing(_, tr) => tr.id in transports && transports[tr.id] == tr
    case Consuming(_, tr, _) => tr.router in heap && HasLiveSource(heap[tr.router], tr.id)
    case _ => true
  }

  ghost predicate Sound<R>(w: Worker<R>, log: seq<Message>) {
    && Closed(w)
    && w.transports.Keys <= AssignedTransports(log)
    && (forall id :: id in w.transports ==> w.transports[id].id == id)
    && (forall k :: k in w.pending ==> BufferOk(w.heap, w.transports, log, k, w.pending[k]))
    && (forall i :: 0 <= i < |w.jobs| ==> JobOk(w.heap, w.transports, log, w.jobs[i]))
    && (forall i, j :: 0 <= i < j < |w.jobs| && w.jobs[i].CreateTransport? && w.jobs[j].CreateTransport?
                       ==> w.jobs[i].assignedId != w.jobs[j].assignedId)
    && (forall r, c :: r in w.heap && c in w.heap[r].consumers ==> HasLiveSource(w.heap[r], c))
    && (forall i :: 0 <= i < |w.answers| ==> w.answers[i].reply != Nack(ProducerDisappeared))
  }

  // ----- Conservation -----

  ghost function JobRequests<R>(jobs: seq<Job<R>>): multiset<nat> {
    multiset(seq(|jobs|, i requires 0 <= i < |jobs| => jobs[i].req))
  }

  ghost function EntryRequests<R>(entries: seq<PendingConsume<R>>): multiset<nat> {
    multiset(seq(|entries|, i requires 0 <= i < |entries| => entries[i].req))
  }

  ghost function AnswerRequests(answers: seq<Answer>): multiset<nat> {
    multiset(seq(|answers|, i requires 0 <= i < |answers| => answers[i].req))
  }

  /** How often request `r` is buffered: it can only wait behind the transport it asks to consume from. */
  ghost function Buffered<R>(pending: map<int, seq<PendingConsume<R>>>, log: seq<Message>, r: nat): nat {
    if r < |log| && log[r].Update? && log[r].command.Consume? && log[r].command.producingTransportId in pending
    then EntryRequests(pending[log[r].command.producingTransportId])[r]
    else 0
  }

  /** In how many places request `r` is: buffered, in flight or answered. */
  ghost function Places<R>(w: Worker<R>, log: seq<Message>, r: nat): nat {
    Buffered(w.pending, log, r) + JobRequests(w.jobs)[r] + AnswerRequests(w.answers)[r]
  }

  ghost function One(b: bool): nat { if b then 1 else 0 }

  /** A request this worker took is in exactly one place, exactly once; any other request is nowhere.  Only a request
      for a transport whose ack threw is answered a second time. */
  ghost predicate Conserved<R>(t: Trace<R>) {
    && (forall r :: r in t.taken ==> r < |t.log|)
    && (forall r :: r in t.threw ==> r in t.taken && t.log[r].NewTransport?)
    && (forall r: nat :: CountOk(t, r))
  }

  ghost predicate CountOk<R>(t: Trace<R>, r: nat) {
    && Places(t.worker, t.log, r) == One(r in t.taken) + One(r in t.threw)
    && (r in t.threw ==> AnswerRequests(t.worker.answers)[r] == 2)
  }

  lemma {:induction false} OneMoreJob<R>(jobs: seq<Job<R>>, job: Job<R>)
    ensures JobRequests(jobs + [job]) == JobRequests(jobs) + multiset{job.req}
  {
    var s := seq(|jobs|, i requires 0 <= i < |jobs| => jobs[i].req);
    var more := jobs + [job];
    assert seq(|more|, i requires 0 <= i < |more| => more[i].req) == s + [job.req];
  }

  lemma {:induction false} OneJobLess<R>(jobs: seq<Job<R>>, i: nat)
    requires i < |jobs|
    ensures JobRequests(jobs[..i] + jobs[i + 1..]) + multiset{jobs[i].req} == JobRequests(jobs)
  {
    var s := seq(|jobs|, j requires 0 <= j < |jobs| => jobs[j].req);
    var rest := jobs[..i] + jobs[i + 1..];
    assert seq(|rest|, j requires 0 <= j < |rest| => rest[j].req) == s[..i] + s[i + 1..];
    assert s == s[..i] + [s[i]] + s[i + 1..];
  }

  lemma {:induction false} OneMoreAnswer(answers: seq<Answer>, a: Answer)
    ensures AnswerRequests(answers + [a]) == AnswerRequests(answers) + multiset{a.req}
  {
    var s := seq(|answers|, i requires 0 <= i < |answers| => answers[i].req);
    var more := answers + [a];
    assert seq(|more|, i requires 0 <= i < |more| => more[i].req) == s + [a.req];
  }

  lemma {:induction false} OneMoreEntry<R>(entries: seq<PendingConsume<R>>, p: PendingConsume<R>)
    ensures EntryRequests(entries + [p]) == EntryRequests(entries) + multiset{p.req}
  {
    var s := seq(|entries|, i requires 0 <= i < |entries| => entries[i].req);
    var more := entries + [p];
    assert seq(|more|, i requires 0 <= i < |more| => more[i].req) == s + [p.req];
  }

  // ----- The flush -----

  /** The media consumes started for a list of buffered requests, in order. */
  ghost function StartedFor<R>(entries: seq<PendingConsume<R>>, producerId: int): seq<Job<R>> {
    seq(|entries|, i requires 0 <= i < |entries| => Consuming(entries[i].req, entries[i].consumer, producerId))
  }

  /** Once the producer exists the flush starts every buffered request, once each, in arrival order, and nacks none. */
  lemma {:induction false} FlushStartsAllInOrder<R>(w: Worker<R>, entries: seq<PendingConsume<R>>, r: R, k: int)
    requires r in w.heap && k in w.heap[r].producers
    requires forall i :: 0 <= i < |entries| ==> entries[i].consumer.router == r && entries[i].producing.id == k
    ensures ConsumeAll(w, entries) == w.(jobs := w.jobs + StartedFor(entries, w.heap[r].producers[k]))
    decreases |entries|
  {
    var pid := w.heap[r].producers[k];
    if entries == [] {
      assert w.jobs + StartedFor(entries, pid) == w.jobs;
    } else {
      var n := |entries| - 1;
      FlushStartsAllInOrder(w, entries[..n], r, k);
      assert StartedFor(entries, pid)
          == StartedFor(entries[..n], pid) + [Consuming(entries[n].req, entries[n].consumer, pid)];
    }
  }

  lemma {:induction false} FlushMovesRequests<R>(jobs: seq<Job<R>>, entries: seq<PendingConsume<R>>, producerId: int)
    ensures JobRequests(jobs + StartedFor(entries, producerId)) == JobRequests(jobs) + EntryRequests(entries)
  {
    var more := jobs + StartedFor(entries, producerId);
    var a := seq(|jobs|, i requires 0 <= i < |jobs| => jobs[i].req);
    var b := seq(|entries|, i requires 0 <= i < |entries| => entries[i].req);
    assert seq(|more|, i requires 0 <= i < |more| => more[i].req) == a + b;
  }

  // ----- Each step keeps the invariant -----

  lemma {:induction false} SoundAfterLogging<R>(w: Worker<R>, log: seq<Message>, msg: Message)
    requires Sound(w, log)
    ensures Sound(w, log + [msg])
  {
    var log' := log + [msg];
    forall id | id in AssignedTransports(log) ensures id in AssignedTransports(log') {
      var r :| 0 <= r < |log| && log[r].NewTransport? && log[r].assignedId == id;
      assert log'[r] == log[r];
    }
    forall k | k in w.pending ensures BufferOk(w.heap, w.transports, log', k, w.pending[k]) {
      assert BufferOk(w.heap, w.transports, log, k, w.pending[k]);
      forall i | 0 <= i < |w.pending[k]| ensures EntryOk(w.heap, w.transports, log', k, w.pending[k][i]) {
        assert EntryOk(w.heap, w.transports, log, k, w.pending[k][i]);
      }
    }
    forall i | 0 <= i < |w.jobs| ensures JobOk(w.heap, w.transports, log', w.jobs[i]) {
      assert JobOk(w.heap, w.transports, log, w.jobs[i]);
    }
  }

  lemma {:induction false} SoundAfterStarting<R>(w: Worker<R>, log: seq<Message>, more: seq<Job<R>>)
    requires Sound(w, log)
    requires forall i :: 0 <= i < |more| ==> JobClosed(w.heap, more[i]) && JobOk(w.heap, w.transports, log, more[i])
    requires (forall i :: 0 <= i < |more| ==> !more[i].CreateTransport?)
          || (|more| == 1 && more[0].CreateTransport?
              && forall i :: 0 <= i < |w.jobs| && w.jobs[i].CreateTransport? ==>
                 w.jobs[i].assignedId != more[0].assignedId)
    ensures Sound(w.(jobs := w.jobs + more), log)
  {}

  lemma {:induction false} SoundAfterAnswering<R>(w: Worker<R>, log: seq<Message>, req: nat, reply: Reply)
    requires Sound(w, log) && reply != Nack(ProducerDisappeared)
    ensures Sound(Answered(w, req, reply), log)
  {}

  lemma {:induction false} SoundAfterDroppingJob<R>(w: Worker<R>, log: seq<Message>, i: nat)
    requires Sound(w, log) && i < |w.jobs|
    ensures Sound(WithoutJob(w, i), log)
  {
    var jobs' := WithoutJob(w, i).jobs;
    assert forall j :: 0 <= j < |jobs'| ==> jobs'[j] == w.jobs[if j < i then j else j + 1];
  }

  lemma {:induction false} SoundAfterDroppingBuffer<R>(w: Worker<R>, log: seq<Message>, k: int)
    requires Sound(w, log)
    ensures Sound(w.(pending := w.pending - {k}), log)
  {}

  ghost predicate RouterGrows(before: Router, after: Router) {
    && before.producers.Keys <= after.producers.Keys
    && (forall k, c :: k in before.producerToConsumers && c in before.producerToConsumers[k]
                       ==> k in after.producerToConsumers && c in after.producerToConsumers[k])
    && before.producerToConsumers.Keys <= after.producerToConsumers.Keys
  }

  lemma {:induction false} LiveSourceStays(router: Router, router': Router, c: int)
    requires RouterGrows(router, router') && HasLiveSource(router, c)
    ensures HasLiveSource(router', c)
  {
    var k :| Feeds(router, k, c);
    assert Feeds(router', k, c);
  }

  lemma {:induction false} SoundAfterRouterGrows<R>(w: Worker<R>, log: seq<Message>, r: R, router': Router)
    requires Sound(w, log) && r in w.heap && RouterGrows(w.heap[r], router')
    requires forall k :: k in w.pending && w.transports[k].router == r ==> k !in router'.producers
    requires forall c :: c in router'.consumers && c !in w.heap[r].consumers ==> HasLiveSource(router', c)
    ensures Sound(w.(heap := w.heap[r := router']), log)
  {
    var heap' := w.heap[r := router'];
    forall k | k in w.pending ensures BufferOk(heap', w.transports, log, k, w.pending[k]) {
      assert BufferOk(w.heap, w.transports, log, k, w.pending[k]);
      forall i | 0 <= i < |w.pending[k]| ensures EntryOk(heap', w.transports, log, k, w.pending[k][i]) {
        assert EntryOk(w.heap, w.transports, log, k, w.pending[k][i]);
      }
    }
    forall c | HasLiveSource(w.heap[r], c) ensures HasLiveSource(router', c) { LiveSourceStays(w.heap[r], router', c); }
    forall i | 0 <= i < |w.jobs| ensures JobOk(heap', w.transports, log, w.jobs[i]) {
      assert JobOk(w.heap, w.transports, log, w.jobs[i]);
    }
  }

  lemma {:induction false} SoundAfterConsumeRequest<R>(w: Worker<R>, log: seq<Message>, p: PendingConsume<R>)
    requires Sound(w, log)
    requires p.consumer.id in w.transports && w.transports[p.consumer.id] == p.consumer
    requires p.producing.id in w.transports && w.transports[p.producing.id] == p.producing
    requires p.consumer.router == p.producing.router
    requires p.req < |log| && log[p.req] == Update(p.consumer.id, Consume(p.producing.id))
    requires EntriesBefore(w, p.req)
    ensures Sound(ConsumeRequested(w, p), log)
  {
    var r, k := p.consumer.router, p.producing.id;
    var router := w.heap[r];
    var router' := Recorded(router, k, p.consumer.id);
    assert forall k' :: k' in w.pending ==> BufferOk(w.heap, w.transports, log, k', w.pending[k']);
    SoundAfterRouterGrows(w, log, r, router');
    var w1 := w.(heap := w.heap[r := router']);
    if k in router.producers {
      assert Feeds(router', k, p.consumer.id);
      SoundAfterStarting(w1, log, [Consuming(p.req, p.consumer, router.producers[k])]);
    } else {
      SoundAfterBuffering(w1, log, p);
    }
  }

  ghost predicate EntriesBefore<R>(w: Worker<R>, req: nat) {
    forall k, i :: k in w.pending && 0 <= i < |w.pending[k]| ==> w.pending[k][i].req < req
  }

  lemma {:induction false} SoundAfterBuffering<R>(w: Worker<R>, log: seq<Message>, p: PendingConsume<R>)
    requires Sound(w, log) && EntriesBefore(w, p.req)
    requires EntryOk(w.heap, w.transports, log, p.producing.id, p)
    requires p.producing.id !in w.heap[p.producing.router].producers
    ensures var waiting := if p.producing.id in w.pending then w.pending[p.producing.id] else [];
            Sound(w.(pending := w.pending[p.producing.id := waiting + [p]]), log)
  {
    var k := p.producing.id;
    var waiting := if k in w.pending then w.pending[k] else [];
    assert k in w.pending ==> BufferOk(w.heap, w.transports, log, k, w.pending[k]);
    assert BufferOk(w.heap, w.transports, log, k, waiting + [p]);
  }

  lemma {:induction false} SoundAfterProduced<R>(w: Worker<R>, log: seq<Message>, req: nat, tr: Transport<R>,
                                                 mediaId: int)
    requires Sound(w, log) && tr.id in w.transports && w.transports[tr.id] == tr
    ensures Sound(Produced(w, req, tr, mediaId), log)
  {
    var router := w.heap[tr.router];
    var router' := router.(producers := router.producers[tr.id := mediaId]);
    SoundWithProducer(w, log, tr, mediaId);
    var w2 := w.(pending := w.pending - {tr.id}, heap := w.heap[tr.router := router']);
    SoundAfterAnswering(w2, log, req, AckProducer(mediaId));
    if tr.id in w.pending {
      EntriesFeedOn(w, log, tr.id);
      SoundAfterFlush(Answered(w2, req, AckProducer(mediaId)), log, w.pending[tr.id], tr);
    } else {
      assert w.pending - {tr.id} == w.pending;
    }
  }

  /** The producer is stored and its buffer taken out. */
  lemma {:induction false} SoundWithProducer<R>(w: Worker<R>, log: seq<Message>, tr: Transport<R>, mediaId: int)
    requires Sound(w, log) && tr.id in w.transports && w.transports[tr.id] == tr
    ensures var router := w.heap[tr.router];
            Sound(w.(pending := w.pending - {tr.id},
                     heap := w.heap[tr.router := router.(producers := router.producers[tr.id := mediaId])]), log)
  {
    var router := w.heap[tr.router];
    SoundAfterDroppingBuffer(w, log, tr.id);
    var w1 := w.(pending := w.pending - {tr.id});
    assert forall k :: k in w1.pending ==> BufferOk(w1.heap, w1.transports, log, k, w1.pending[k]);
    SoundAfterRouterGrows(w1, log, tr.router, router.(producers := router.producers[tr.id := mediaId]));
  }

  /** Every entry consumes from transport `k`, on router `r`, and is listed among `k`'s consumers there. */
  ghost predicate AllFeedOn<R>(feeds: map<int, set<int>>, r: R, k: int, entries: seq<PendingConsume<R>>) {
    forall i :: 0 <= i < |entries| ==>
      && entries[i].consumer.router == r && entries[i].producing.id == k
      && k in feeds && entries[i].consumer.id in feeds[k]
  }

  lemma {:induction false} EntriesFeedOn<R>(w: Worker<R>, log: seq<Message>, k: int)
    requires Sound(w, log) && k in w.pending
    ensures k in w.transports && w.transports[k].router in w.heap
    ensures AllFeedOn(w.heap[w.transports[k].router].producerToConsumers, w.transports[k].router, k, w.pending[k])
  {
    EntriesBelong(w, log, k);
    assert BufferOk(w.heap, w.transports, log, k, w.pending[k]);
    forall i | 0 <= i < |w.pending[k]| ensures w.pending[k][i].producing == w.transports[k] && w.transports[k].id == k {
      assert EntryOk(w.heap, w.transports, log, k, w.pending[k][i]);
    }
  }

  lemma {:induction false} EntriesBelong<R>(w: Worker<R>, log: seq<Message>, k: int)
    requires Sound(w, log) && k in w.pending
    ensures k in w.transports
    ensures forall i :: 0 <= i < |w.pending[k]| ==> EntryOk(w.heap, w.transports, log, k, w.pending[k][i])
  {
    assert BufferOk(w.heap, w.transports, log, k, w.pending[k]);
  }

  lemma {:induction false} EntriesAreLogged<R>(w: Worker<R>, log: seq<Message>)
    requires Sound(w, log)
    ensures EntriesBefore(w, |log|)
    ensures forall k, i :: k in w.pending && 0 <= i < |w.pending[k]| ==>
              var p := w.pending[k][i]; p.req < |log| && log[p.req] == Update(p.consumer.id, Consume(k))
  {
    forall k, i | k in w.pending && 0 <= i < |w.pending[k]|
      ensures EntryOk(w.heap, w.transports, log, k, w.pending[k][i])
    {
      EntriesBelong(w, log, k);
    }
  }

  lemma {:induction false} SoundAfterFlush<R>(w: Worker<R>, log: seq<Message>, entries: seq<PendingConsume<R>>,
                                              tr: Transport<R>)
    requires Sound(w, log) && tr.router in w.heap && tr.id in w.heap[tr.router].producers
    requires AllFeedOn(w.heap[tr.router].producerToConsumers, tr.router, tr.id, entries)
    ensures Sound(ConsumeAll(w, entries), log)
  {
    var pid := w.heap[tr.router].producers[tr.id];
    forall i | 0 <= i < |entries| ensures HasLiveSource(w.heap[tr.router], entries[i].consumer.id) {
      assert Feeds(w.heap[tr.router], tr.id, entries[i].consumer.id);
    }
    FlushStartsAllInOrder(w, entries, tr.router, tr.id);
    SoundAfterStarting(w, log, StartedFor(entries, pid));
  }

  lemma {:induction false} SoundAfterTransportCreated<R>(w: Worker<R>, log: seq<Message>, req: nat, r: R, id: int,
                                                         isProducer: bool)
    requires Sound(w, log) && r in w.heap
    requires id in AssignedTransports(log) && id !in w.transports
    requires forall i :: 0 <= i < |w.jobs| && w.jobs[i].CreateTransport? ==> w.jobs[i].assignedId != id
    ensures Sound(TransportCreated(w, req, r, id, isProducer), log)
  {
    var router := w.heap[r];
    var router' :=
      if isProducer then router.(producerTransports := router.producerTransports + {id})
      else router.(consumerTransports := router.consumerTransports + {id});
    assert forall k :: k in w.pending ==> BufferOk(w.heap, w.transports, log, k, w.pending[k]);
    SoundAfterRouterGrows(w, log, r, router');
    var w1 := w.(heap := w.heap[r := router']);
    SoundAfterRegistering(w1, log, id, r);
    SoundAfterAnswering(w1.(transports := w.transports[id := Transport(id, r)]), log, req, AckTransport);
  }

  lemma {:induction false} SoundAfterRegistering<R>(w: Worker<R>, log: seq<Message>, id: int, r: R)
    requires Sound(w, log) && r in w.heap
    requires id in AssignedTransports(log) && id !in w.transports
    requires forall i :: 0 <= i < |w.jobs| && w.jobs[i].CreateTransport? ==> w.jobs[i].assignedId != id
    ensures Sound(w.(transports := w.transports[id := Transport(id, r)]), log)
  {
    var transports' := w.transports[id := Transport(id, r)];
    forall k | k in w.pending ensures BufferOk(w.heap, transports', log, k, w.pending[k]) {
      assert BufferOk(w.heap, w.transports, log, k, w.pending[k]);
      forall i | 0 <= i < |w.pending[k]| ensures EntryOk(w.heap, transports', log, k, w.pending[k][i]) {
        assert EntryOk(w.heap, w.transports, log, k, w.pending[k][i]);
      }
    }
    forall i | 0 <= i < |w.jobs| ensures JobOk(w.heap, transports', log, w.jobs[i]) {
      assert JobOk(w.heap, w.transports, log, w.jobs[i]);
    }
  }

  lemma {:induction false} SoundAfterRouterCreated<R>(w: Worker<R>, log: seq<Message>, req: nat, id: int, newRef: R)
    requires Sound(w, log) && newRef !in w.heap
    ensures Sound(RouterCreated(w, req, id, newRef), log)
  {
    var heap' := w.heap[newRef := NewRouterObject(id)];
    forall k | k in w.pending ensures BufferOk(heap', w.transports, log, k, w.pending[k]) {
      assert BufferOk(w.heap, w.transports, log, k, w.pending[k]);
      forall i | 0 <= i < |w.pending[k]| ensures EntryOk(heap', w.transports, log, k, w.pending[k][i]) {
        assert EntryOk(w.heap, w.transports, log, k, w.pending[k][i]);
      }
    }
    forall i | 0 <= i < |w.jobs| ensures JobOk(heap', w.transports, log, w.jobs[i]) {
      assert JobOk(w.heap, w.transports, log, w.jobs[i]) && JobClosed(w.heap, w.jobs[i]);
    }
  }

  lemma {:induction false} SoundAfterConsumerCreated<R>(w: Worker<R>, log: seq<Message>, req: nat, tr: Transport<R>,
                                                        consumer: Consumer)
    requires Sound(w, log) && tr.router in w.heap && HasLiveSource(w.heap[tr.router], tr.id)
    ensures Sound(ConsumerCreated(w, req, tr, consumer), log)
  {
    var router := w.heap[tr.router];
    var router' := router.(consumers := router.consumers[tr.id := consumer]);
    LiveSourceStays(router, router', tr.id);
    assert forall k :: k in w.pending ==> BufferOk(w.heap, w.transports, log, k, w.pending[k]);
    SoundAfterRouterGrows(w, log, tr.router, router');
    SoundAfterAnswering(w.(heap := w.heap[tr.router := router']), log, req, AckConsumer(consumer));
  }

  lemma {:induction false} SoundAfterDelivery<R>(w: Worker<R>, log: seq<Message>, msg: Message)
    requires Sound(w, log) && (msg.NewTransport? ==> msg.assignedId !in AssignedTransports(log))
    ensures Sound(Deliver(w, |log|, msg), log + [msg])
  {
    SoundAfterLogging(w, log, msg);
    EntriesAreLogged(w, log);
    if Addressed(w, msg) {
      match msg
      case NewRouter(id, _) => SoundAfterStarting(w, log + [msg], [CreateRouter(|log|, id)]);
      case NewTransport(routerId, id, isProducer) => SoundAfterTransportRequest(w, log, routerId, id, isProducer);
      case Update(id, command) => SoundAfterCommand(w, log + [msg], |log|, id, command);
    }
  }

  lemma {:induction false} SoundAfterTransportRequest<R>(w: Worker<R>, log: seq<Message>, routerId: int, id: int,
                                                         isProducer: bool)
    requires Sound(w, log) && routerId in w.routers && id !in AssignedTransports(log)
    ensures Sound(Start(w, CreateTransport(|log|, w.routers[routerId], id, isProducer)),
                  log + [NewTransport(routerId, id, isProducer)])
  {
    var msg := NewTransport(routerId, id, isProducer);
    SoundAfterLogging(w, log, msg);
    assert (log + [msg])[|log|] == msg;
    forall i | 0 <= i < |w.jobs| && w.jobs[i].CreateTransport? ensures w.jobs[i].assignedId != id {
      assert JobOk(w.heap, w.transports, log, w.jobs[i]);
    }
    SoundAfterStarting(w, log + [msg], [CreateTransport(|log|, w.routers[routerId], id, isProducer)]);
  }

  lemma {:induction false} SoundAfterCommand<R>(w: Worker<R>, log: seq<Message>, req: nat, id: int, command: Command)
    requires Sound(w, log) && id in w.transports
    requires req < |log| && log[req] == Update(id, command) && EntriesBefore(w, req)
    ensures Sound(Commanded(w, req, w.transports[id], command), log)
  {
    var tr := w.transports[id];
    match command
    case Connect => SoundAfterStarting(w, log, [Connecting(req)]);
    case Produce => SoundAfterStarting(w, log, [Producing(req, tr)]);
    case Consume(k) =>
      if k !in w.transports { SoundAfterAnswering(w, log, req, Nack(ProducingTransportNotFound)); }
      else if w.transports[k].router != tr.router { SoundAfterAnswering(w, log, req, Nack(DifferentRouters)); }
      else { SoundAfterConsumeRequest(w, log, PendingConsume(req, tr, w.transports[k])); }
    case Resume =>
      if tr.id !in w.heap[tr.router].consumers { SoundAfterAnswering(w, log, req, Nack(ConsumerNotFound)); }
      else { SoundAfterStarting(w, log, [Resuming(req)]); }
    case Unknown => SoundAfterAnswering(w, log, req, Nack(UnknownType));
    case FromWorker =>
  }

  lemma {:induction false} SoundAfterSettling<R>(w: Worker<R>, log: seq<Message>, i: nat, outcome: Outcome, newRef: R)
    requires Sound(w, log) && i < |w.jobs| && newRef !in w.heap
    requires outcome.AckThrew? ==> w.jobs[i].CreateTransport?
    ensures Sound(Settle(w, i, outcome, newRef), log)
  {
    var job := w.jobs[i];
    var w1 := WithoutJob(w, i);
    SoundAfterDroppingJob(w, log, i);
    assert JobOk(w.heap, w.transports, log, job) && JobClosed(w.heap, job);
    assert forall j :: 0 <= j < |w1.jobs| ==> w1.jobs[j] == w.jobs[if j < i then j else j + 1];
    match outcome
    case Rejected => SoundAfterAnswering(w1, log, job.req, Nack(MediaFailure));
    case AckThrew =>
      SoundAfterTransportCreated(w1, log, job.req, job.router, job.assignedId, job.isProducer);
      SoundAfterAnswering(TransportCreated(w1, job.req, job.router, job.assignedId, job.isProducer), log, job.req,
          Nack(AckFailed));
    case Resolved(mediaId) =>
      match job
      case CreateRouter(req, id) => SoundAfterRouterCreated(w1, log, req, id, newRef);
      case CreateTransport(req, r, id, isProducer) => SoundAfterTransportCreated(w1, log, req, r, id, isProducer);
      case Connecting(req) => SoundAfterAnswering(w1, log, req, AckDone);
      case Producing(req, tr) => SoundAfterProduced(w1, log, req, tr, mediaId);
      case Consuming(req, tr, producerId) => SoundAfterConsumerCreated(w1, log, req, tr, Consumer(mediaId, producerId));
      case Resuming(req) => SoundAfterAnswering(w1, log, req, AckDone);
  }

  // ----- Each step keeps the count -----

  lemma {:induction false} CountAfterLogging<R>(w: Worker<R>, log: seq<Message>, msg: Message, r: nat)
    requires Sound(w, log)
    ensures Places(w, log + [msg], r) == Places(w, log, r)
  {
    var log' := log + [msg];
    if r < |log| {
      assert log'[r] == log[r];
    } else if r == |log| && msg.Update? && msg.command.Consume? && msg.command.producingTransportId in w.pending {
      RequestsAreEntries(w.pending[msg.command.producingTransportId], r);
      EntriesAreLogged(w, log);
    }
  }

  lemma {:induction false} RequestsAreEntries<R>(entries: seq<PendingConsume<R>>, r: nat)
    ensures EntryRequests(entries)[r] > 0 ==> exists i :: 0 <= i < |entries| && entries[i].req == r
  {
    var s := seq(|entries|, i requires 0 <= i < |entries| => entries[i].req);
    if EntryRequests(entries)[r] > 0 {
      assert r in s;
      var i :| 0 <= i < |s| && s[i] == r;
      assert entries[i].req == r;
    }
  }

  lemma {:induction false} CountAfterStarting<R>(w: Worker<R>, log: seq<Message>, job: Job<R>, r: nat)
    ensures Places(Start(w, job), log, r) == Places(w, log, r) + One(r == job.req)
  {
    OneMoreJob(w.jobs, job);
  }

  lemma {:induction false} CountAfterAnswering<R>(w: Worker<R>, log: seq<Message>, req: nat, reply: Reply, r: nat)
    ensures Places(Answered(w, req, reply), log, r) == Places(w, log, r) + One(r == req)
  {
    OneMoreAnswer(w.answers, Answer(req, reply));
  }

  lemma {:induction false} CountAfterConsumeRequest<R>(w: Worker<R>, log: seq<Message>, p: PendingConsume<R>, r: nat)
    requires p.consumer.router in w.heap
    requires p.req < |log| && log[p.req] == Update(p.consumer.id, Consume(p.producing.id))
    ensures Places(ConsumeRequested(w, p), log, r) == Places(w, log, r) + One(r == p.req)
  {
    var k := p.producing.id;
    var router := w.heap[p.consumer.router];
    if k in router.producers {
      OneMoreJob(w.jobs, Consuming(p.req, p.consumer, router.producers[k]));
    } else {
      BufferedAfterPush(w.pending, log, k, p, r);
    }
  }

  lemma {:induction false} BufferedAfterPush<R>(pending: map<int, seq<PendingConsume<R>>>, log: seq<Message>,
                                                k: int, p: PendingConsume<R>, r: nat)
    requires p.req < |log| && log[p.req].Update? && log[p.req].command == Consume(k)
    ensures Buffered(pending[k := (if k in pending then pending[k] else []) + [p]], log, r)
            == Buffered(pending, log, r) + One(r == p.req)
  {
    OneMoreEntry(if k in pending then pending[k] else [], p);
  }

  /** A buffered request waits behind the transport it names and behind no other. */
  lemma {:induction false} OnlyBehindItsTarget<R>(w: Worker<R>, log: seq<Message>, k: int, r: nat)
    requires Sound(w, log) && k in w.pending
    ensures EntryRequests(w.pending[k])[r] > 0 ==> r < |log| && log[r].Update? && log[r].command == Consume(k)
  {
    RequestsAreEntries(w.pending[k], r);
    EntriesAreLogged(w, log);
  }

  lemma {:induction false} CountAfterProduced<R>(w: Worker<R>, log: seq<Message>, req: nat, tr: Transport<R>,
                                                 mediaId: int, r: nat)
    requires Sound(w, log) && tr.id in w.transports && w.transports[tr.id] == tr
    ensures Places(Produced(w, req, tr, mediaId), log, r) == Places(w, log, r) + One(r == req)
  {
    OneMoreAnswer(w.answers, Answer(req, AckProducer(mediaId)));
    if tr.id in w.pending {
      ProducedStartsTheBuffer(w, log, req, tr, mediaId);
      FlushMovesRequests(w.jobs, w.pending[tr.id], mediaId);
      BufferedAfterFlush(w, log, tr.id, r);
    } else {
      assert w.pending - {tr.id} == w.pending;
    }
  }

  lemma {:induction false} BufferedAfterFlush<R>(w: Worker<R>, log: seq<Message>, k: int, r: nat)
    requires Sound(w, log) && k in w.pending
    ensures Buffered(w.pending - {k}, log, r) + EntryRequests(w.pending[k])[r] == Buffered(w.pending, log, r)
  {
    OnlyBehindItsTarget(w, log, k, r);
  }

  /** Producing on `k` starts `k`'s buffered requests once each, in arrival order, and leaves no buffer for `k`. */
  lemma {:induction false} ProducedStartsTheBuffer<R>(w: Worker<R>, log: seq<Message>, req: nat, tr: Transport<R>,
                                                      mediaId: int)
    requires Sound(w, log) && tr.id in w.transports && w.transports[tr.id] == tr
    ensures var entries := if tr.id in w.pending then w.pending[tr.id] else [];
            var w' := Produced(w, req, tr, mediaId);
            && w'.jobs == w.jobs + StartedFor(entries, mediaId)
            && w'.pending == w.pending - {tr.id}
            && w'.answers == w.answers + [Answer(req, AckProducer(mediaId))]
            && (forall i, j :: 0 <= i < j < |entries| ==> entries[i].req < entries[j].req)
  {
    var entries := if tr.id in w.pending then w.pending[tr.id] else [];
    var router := w.heap[tr.router];
    var heap' := w.heap[tr.router := router.(producers := router.producers[tr.id := mediaId])];
    if tr.id in w.pending {
      var w2 := Answered(w.(heap := heap', pending := w.pending - {tr.id}), req, AckProducer(mediaId));
      assert BufferOk(w.heap, w.transports, log, tr.id, entries);
      EntriesBelong(w, log, tr.id);
      FlushStartsAllInOrder(w2, entries, tr.router, tr.id);
    } else {
      assert w.jobs + StartedFor(entries, mediaId) == w.jobs;
      assert w.pending - {tr.id} == w.pending;
    }
  }

  lemma {:induction false} CountAfterDelivery<R>(w: Worker<R>, log: seq<Message>, msg: Message, r: nat)
    requires Sound(w, log) && (msg.NewTransport? ==> msg.assignedId !in AssignedTransports(log))
    ensures Places(Deliver(w, |log|, msg), log + [msg], r) == Places(w, log, r) + One(Addressed(w, msg) && r == |log|)
  {
    CountAfterLogging(w, log, msg, r);
    if Addressed(w, msg) {
      match msg
      case NewRouter(id, _) => CountAfterStarting(w, log + [msg], CreateRouter(|log|, id), r);
      case NewTransport(routerId, id, isProducer) =>
        CountAfterStarting(w, log + [msg], CreateTransport(|log|, w.routers[routerId], id, isProducer), r);
      case Update(id, command) => CountAfterCommand(w, log + [msg], |log|, id, command, r);
    }
  }

  lemma {:induction false} CountAfterCommand<R>(w: Worker<R>, log: seq<Message>, req: nat, id: int, command: Command,
                                                r: nat)
    requires Closed(w) && id in w.transports && !command.FromWorker?
    requires forall k :: k in w.transports ==> w.transports[k].id == k
    requires req < |log| && log[req] == Update(id, command)
    ensures Places(Commanded(w, req, w.transports[id], command), log, r) == Places(w, log, r) + One(r == req)
  {
    var tr := w.transports[id];
    match command
    case Connect => CountAfterStarting(w, log, Connecting(req), r);
    case Produce => CountAfterStarting(w, log, Producing(req, tr), r);
    case Consume(k) =>
      if k !in w.transports { CountAfterAnswering(w, log, req, Nack(ProducingTransportNotFound), r); }
      else if w.transports[k].router != tr.router { CountAfterAnswering(w, log, req, Nack(DifferentRouters), r); }
      else { CountAfterConsumeRequest(w, log, PendingConsume(req, tr, w.transports[k]), r); }
    case Resume =>
      if tr.id !in w.heap[tr.router].consumers { CountAfterAnswering(w, log, req, Nack(ConsumerNotFound), r); }
      else { CountAfterStarting(w, log, Resuming(req), r); }
    case Unknown => CountAfterAnswering(w, log, req, Nack(UnknownType), r);
  }

  lemma {:induction false} CountAfterSettling<R>(w: Worker<R>, log: seq<Message>, i: nat, outcome: Outcome, newRef: R,
                                                 r: nat)
    requires Sound(w, log) && i < |w.jobs| && newRef !in w.heap
    requires outcome.AckThrew? ==> w.jobs[i].CreateTransport?
    ensures Places(Settle(w, i, outcome, newRef), log, r)
            == Places(w, log, r) + One(outcome.AckThrew? && r == w.jobs[i].req)
  {
    var job := w.jobs[i];
    var w1 := WithoutJob(w, i);
    OneJobLess(w.jobs, i);
    if outcome.Resolved? && job.Producing? {
      SoundAfterDroppingJob(w, log, i);
      assert JobOk(w.heap, w.transports, log, job);
      CountAfterProduced(w1, log, job.req, job.transport, outcome.mediaId, r);
    } else if outcome.AckThrew? {
      var once := w.answers + [Answer(job.req, AckTransport)];
      OneMoreAnswer(w.answers, Answer(job.req, AckTransport));
      OneMoreAnswer(once, Answer(job.req, Nack(AckFailed)));
    } else {
      var answers' := Settle(w, i, outcome, newRef).answers;
      OneMoreAnswer(w.answers, answers'[|w.answers|]);
    }
  }

  /** Answers are never withdrawn. */
  ghost predicate Extends(answers: seq<Answer>, answers': seq<Answer>) {
    |answers| <= |answers'| && answers'[..|answers|] == answers
  }

  lemma {:induction false} DeliveryExtends<R>(w: Worker<R>, req: nat, msg: Message)
    requires Closed(w)
    ensures Extends(w.answers, Deliver(w, req, msg).answers)
  {}

  lemma {:induction false} SettlingExtends<R>(w: Worker<R>, log: seq<Message>, i: nat, outcome: Outcome, newRef: R)
    requires Sound(w, log) && i < |w.jobs| && newRef !in w.heap
    requires outcome.AckThrew? ==> w.jobs[i].CreateTransport?
    ensures Extends(w.answers, Settle(w, i, outcome, newRef).answers)
  {
    if outcome.Resolved? && w.jobs[i].Producing? {
      SoundAfterDroppingJob(w, log, i);
      assert JobOk(w.heap, w.transports, log, w.jobs[i]);
      ProducedStartsTheBuffer(WithoutJob(w, i), log, w.jobs[i].req, w.jobs[i].transport, outcome.mediaId);
    }
  }

  lemma {:induction false} ExtendedCounts(answers: seq<Answer>, answers': seq<Answer>, r: nat)
    requires Extends(answers, answers')
    ensures AnswerRequests(answers)[r] <= AnswerRequests(answers')[r]
  {
    var s := seq(|answers|, i requires 0 <= i < |answers| => answers[i].req);
    var s' := seq(|answers'|, i requires 0 <= i < |answers'| => answers'[i].req);
    assert forall i :: 0 <= i < |answers| ==> answers'[..|answers|][i] == answers'[i];
    assert s' == s + s'[|answers|..];
  }

  lemma {:induction false} JobIsCounted<R>(jobs: seq<Job<R>>, job: Job<R>)
    requires job in jobs
    ensures JobRequests(jobs)[job.req] > 0
  {
    var i: nat :| i < |jobs| && jobs[i] == job;
    var requests := seq(|jobs|, i requires 0 <= i < |jobs| => jobs[i].req);
    assert requests[i] == job.req;
    assert job.req in multiset(requests);
  }

  lemma {:induction false} AnswerIsCounted(answers: seq<Answer>, a: Answer)
    requires a in answers
    ensures AnswerRequests(answers)[a.req] > 0
  {
    var i: nat :| i < |answers| && answers[i] == a;
    var requests := seq(|answers|, i requires 0 <= i < |answers| => answers[i].req);
    assert requests[i] == a.req;
    assert a.req in multiset(requests);
  }

  /** What is answered is no longer in flight. */
  lemma {:induction false} AnsweredIsDone<R>(t: Trace<R>, job: Job<R>, a: Answer)
    requires Conserved(t) && job in t.worker.jobs && a in t.worker.answers
    ensures job.req != a.req
  {
    JobIsCounted(t.worker.jobs, job);
    AnswerIsCounted(t.worker.answers, a);
    assert CountOk(t, job.req);
  }

  lemma {:induction false} ArrivalKeepsCount<R>(t: Trace<R>, msg: Message, r: nat)
    requires Sound(t.worker, t.log) && Conserved(t) && Possible(t, Arrives(msg))
    ensures CountOk(Do(t, Arrives(msg)), r)
  {
    assert CountOk(t, r);
    CountAfterDelivery(t.worker, t.log, msg, r);
    DeliveryExtends(t.worker, |t.log|, msg);
    ExtendedCounts(t.worker.answers, Deliver(t.worker, |t.log|, msg).answers, r);
  }

  lemma {:induction false} SettlingKeepsCount<R>(t: Trace<R>, i: nat, outcome: Outcome, newRef: R, r: nat)
    requires Sound(t.worker, t.log) && Conserved(t) && Possible(t, Settles(i, outcome, newRef))
    ensures CountOk(Do(t, Settles(i, outcome, newRef)), r)
  {
    var w, job := t.worker, t.worker.jobs[i];
    assert CountOk(t, r);
    CountAfterSettling(w, t.log, i, outcome, newRef, r);
    SettlingExtends(w, t.log, i, outcome, newRef);
    ExtendedCounts(w.answers, Settle(w, i, outcome, newRef).answers, r);
    JobIsCounted(w.jobs, job);
    if outcome.AckThrew? && r == job.req {
      var once := w.answers + [Answer(r, AckTransport)];
      OneMoreAnswer(w.answers, Answer(r, AckTransport));
      OneMoreAnswer(once, Answer(r, Nack(AckFailed)));
    }
  }

  /** A job's request was taken, and is for what the job makes. */
  lemma {:induction false} JobIsTaken<R>(t: Trace<R>, job: Job<R>)
    requires Conserved(t) && job in t.worker.jobs
    ensures job.req in t.taken && job.req !in t.threw
  {
    JobIsCounted(t.worker.jobs, job);
    assert CountOk(t, job.req);
  }

  lemma {:induction false} StepKeepsAll<R>(t: Trace<R>, step: Step<R>)
    requires Sound(t.worker, t.log) && Conserved(t) && Possible(t, step)
    ensures Sound(Do(t, step).worker, Do(t, step).log) && Conserved(Do(t, step))
  {
    match step
    case Arrives(msg) =>
      SoundAfterDelivery(t.worker, t.log, msg);
      forall r: nat ensures CountOk(Do(t, step), r) { ArrivalKeepsCount(t, msg, r); }
    case Settles(i, outcome, newRef) =>
      SoundAfterSettling(t.worker, t.log, i, outcome, newRef);
      forall r: nat ensures CountOk(Do(t, step), r) { SettlingKeepsCount(t, i, outcome, newRef, r); }
      JobIsTaken(t, t.worker.jobs[i]);
      assert JobOk(t.worker.heap, t.worker.transports, t.log, t.worker.jobs[i]);
  }

  // ----- The results -----

  /** In every run the worker's structure is sound and every request it took is in exactly one place. */
  lemma {:induction false} EveryRunIsSound<R>(workerId: int, steps: seq<Step<R>>)
    ensures var t := Run(workerId, steps); t.Some? ==> Sound(t.value.worker, t.value.log) && Conserved(t.value)
    decreases |steps|
  {
    if steps != [] {
      EveryRunIsSound(workerId, steps[..|steps| - 1]);
      var before := Run(workerId, steps[..|steps| - 1]);
      if before.Some? && Possible(before.value, steps[|steps| - 1]) {
        StepKeepsAll(before.value, steps[|steps| - 1]);
      }
    }
  }

  /** Exactly-once in every run: a request is answered by a worker that took it, and not twice unless it asked for a
      transport whose ack callback threw, and then exactly twice.  Once no media promise is outstanding the only
      requests left without an answer are consumes whose source, on the same router, has no producer yet. */
  lemma {:induction false} AnsweredOnceAndNeverLost<R>(workerId: int, steps: seq<Step<R>>, r: nat)
    requires Run(workerId, steps).Some?
    ensures var t := Run(workerId, steps).value;
            var answers := AnswerRequests(t.worker.answers)[r];
            && answers <= 2 && (answers == 2 <==> r in t.threw)
            && (answers > 0 ==> r in t.taken)
            && (r in t.threw ==> r < |t.log| && t.log[r].NewTransport?)
            && (r in t.taken && t.worker.jobs == [] && answers == 0 ==>
                  && r < |t.log| && t.log[r].Update? && t.log[r].command.Consume?
                  && WaitsForProducer(t.worker, t.log[r].id, t.log[r].command.producingTransportId))
  {
    EveryRunIsSound(workerId, steps);
    var t := Run(workerId, steps).value;
    assert CountOk(t, r);
    if r in t.taken && t.worker.jobs == [] && AnswerRequests(t.worker.answers)[r] == 0 { UnansweredWaits(t, r); }
  }

  /** Transports `c` and `k` are on one router, and `k` has no producer there. */
  ghost predicate WaitsForProducer<R>(w: Worker<R>, c: int, k: int) {
    && c in w.transports && k in w.transports && w.transports[c].router == w.transports[k].router
    && w.transports[k].router in w.heap && k !in w.heap[w.transports[k].router].producers
  }

  lemma {:induction false} UnansweredWaits<R>(t: Trace<R>, r: nat)
    requires Sound(t.worker, t.log) && CountOk(t, r) && r in t.taken
    requires t.worker.jobs == [] && AnswerRequests(t.worker.answers)[r] == 0
    ensures r < |t.log| && t.log[r].Update? && t.log[r].command.Consume?
    ensures WaitsForProducer(t.worker, t.log[r].id, t.log[r].command.producingTransportId)
    ensures Buffered(t.worker.pending, t.log, r) > 0
  {
    assert JobRequests(t.worker.jobs) == multiset{};
    var k := t.log[r].command.producingTransportId;
    RequestsAreEntries(t.worker.pending[k], r);
    EntriesBelong(t.worker, t.log, k);
    assert BufferOk(t.worker.heap, t.worker.transports, t.log, k, t.worker.pending[k]);
  }
}
