/** Which consumers a router has on record under a source, over every run of a worker: exactly those of the consume
    commands that were accepted. */
module WorkerFeeds {
  import opened Common
  import opened WorkerModel
  import opened WorkerRuns
  import opened WorkerSources
  import opened WorkerReplies
  import Cluster

  /** Message `q` asked transport `c` to consume from `k`, and was taken and not refused. */
  ghost predicate Accepted<R>(h: History<R>, q: nat, c: int, k: int) {
    q < |h.trace.log| == |h.seen| && h.trace.log[q] == Update(c, Consume(k)) && q in h.trace.taken
    && RefusalOf(h, q).None?
  }

  ghost predicate Listed<R>(w: Worker<R>, r: R, k: int, c: int) {
    r in w.heap && k in w.heap[r].producerToConsumers && c in w.heap[r].producerToConsumers[k]
  }

  /** On the router of transport `c`. */
  ghost predicate On<R>(w: Worker<R>, r: R, c: int) {
    r in w.heap && c in w.transports && w.transports[c].router == r
  }

  ghost predicate FeedTold<R>(h: History<R>, r: R, k: int, c: int) {
    Listed(h.trace.worker, r, k, c) <==> On(h.trace.worker, r, c) && exists q: nat :: Accepted(h, q, c, k)
  }

  lemma {:induction false} AcceptedStays<R>(h: History<R>, h': History<R>, q: nat, c: int, k: int)
    requires IndicesTold(h.trace.worker, h.trace.log) && Remarked(h) && Follows(h, h') && q < |h.trace.log|
    ensures Accepted(h', q, c, k) <==> Accepted(h, q, c, k)
  {
    assert SeenOk(h, q);
    if q in h.trace.taken { RefusalStays(h, h', q); }
  }

  /** An accepted consume is about a registered transport. */
  lemma {:induction false} AcceptedIsRegistered<R>(h: History<R>, q: nat, c: int, k: int)
    requires HistoryOk(h) && Accepted(h, q, c, k)
    ensures c in h.trace.worker.transports
  {
    assert SeenOk(h, q);
  }

  /** No new message is an accepted consume. */
  lemma {:induction false} SameAccepted<R>(h: History<R>, h': History<R>, c: int, k: int)
    requires HistoryOk(h) && Follows(h, h')
    requires forall q :: |h.trace.log| <= q < |h'.trace.log| ==> !Accepted(h', q, c, k)
    ensures (exists q: nat :: Accepted(h', q, c, k)) <==> (exists q: nat :: Accepted(h, q, c, k))
  {
    if q: nat :| Accepted(h', q, c, k) { AcceptedStays(h, h', q, c, k); }
    if q: nat :| Accepted(h, q, c, k) { AcceptedStays(h, h', q, c, k); }
  }

  // ----- A message arrives -----

  lemma {:induction false} ListedAfterDelivery<R>(w: Worker<R>, log: seq<Message>, msg: Message, r: R, k: int, c: int)
    requires Sound(w, log) && Told(w, log) && Logged(w.answers, log)
    ensures var w' := Deliver(w, |log|, msg);
            && w'.transports == w.transports && w'.heap.Keys == w.heap.Keys
            && (Listed(w', r, k, c)
                <==> || Listed(w, r, k, c)
                     || (On(w, r, c) && msg == Update(c, Consume(k)) && Addressed(w, msg)
                         && Refusal(log + [msg], w.answers, w.transports, msg).None?))
  {
    Cluster.DeliveryIsSmall(w, |log|, msg);
    ToldStays(w, log, w, log + [msg]);
    if msg.Update? && Addressed(w, msg) { ListedAfterCommand(w, log + [msg], |log|, msg, r, k, c); }
  }

  lemma {:induction false} ListedAfterCommand<R>(w: Worker<R>, log: seq<Message>, req: nat, msg: Message, r: R, k: int,
                                                 c: int)
    requires Closed(w) && IndicesTold(w, log) && msg.Update? && msg.id in w.transports
    requires forall id :: id in w.transports ==> w.transports[id].id == id
    ensures var w' := Commanded(w, req, w.transports[msg.id], msg.command);
            && w'.heap.Keys == w.heap.Keys
            && (Listed(w', r, k, c)
                <==> || Listed(w, r, k, c)
                     || (On(w, r, c) && msg == Update(c, Consume(k))
                         && Refusal(log, w.answers, w.transports, msg).None?))
  {
    if msg.command.Consume? {
      assert msg.command.producingTransportId in w.transports
             <==> TransportAcked(w.answers, log, msg.command.producingTransportId);
    }
  }

  // ----- Each step keeps it -----

  lemma {:induction false} ArrivalKeepsFeed<R>(h: History<R>, msg: Message, r: R, k: int, c: int)
    requires HistoryOk(h) && Possible(h.trace, Arrives(msg)) && FeedTold(h, r, k, c)
    ensures FeedTold(Noted(h, Arrives(msg)), r, k, c)
  {
    ArrivalFollows(h, msg);
    ListedAfterDelivery(h.trace.worker, h.trace.log, msg, r, k, c);
    FeedAfterArrival(h, Noted(h, Arrives(msg)), msg, r, k, c);
  }

  lemma {:induction false} NewcomerAccepted<R>(h: History<R>, h': History<R>, msg: Message, k: int, c: int)
    requires |h.seen| == |h.trace.log|
    requires h'.trace.log == h.trace.log + [msg] && h'.seen == h.seen + [h.trace.worker.answers]
    requires h'.trace.worker.transports == h.trace.worker.transports
    requires |h.trace.log| in h'.trace.taken <==> Addressed(h.trace.worker, msg)
    ensures Accepted(h', |h.trace.log|, c, k)
            <==> && msg == Update(c, Consume(k)) && Addressed(h.trace.worker, msg)
                 && Refusal(h'.trace.log, h.trace.worker.answers, h.trace.worker.transports, msg).None?
  {}

  lemma {:induction false} AcceptedAfterArrival<R>(h: History<R>, h': History<R>, c: int, k: int)
    requires IndicesTold(h.trace.worker, h.trace.log) && Remarked(h) && Follows(h, h')
    requires |h'.trace.log| == |h.trace.log| + 1
    ensures (exists q: nat :: Accepted(h', q, c, k))
            <==> (exists q: nat :: Accepted(h, q, c, k)) || Accepted(h', |h.trace.log|, c, k)
  {
    if q: nat :| Accepted(h', q, c, k) {
      if q < |h.trace.log| { AcceptedStays(h, h', q, c, k); }
    }
    if q: nat :| Accepted(h, q, c, k) { AcceptedStays(h, h', q, c, k); }
  }

  lemma {:induction false} FeedAfterArrival<R>(h: History<R>, h': History<R>, msg: Message, r: R, k: int, c: int)
    requires HistoryOk(h) && FeedTold(h, r, k, c) && Follows(h, h')
    requires h'.trace.log == h.trace.log + [msg] && h'.seen == h.seen + [h.trace.worker.answers]
    requires |h.trace.log| in h'.trace.taken <==> Addressed(h.trace.worker, msg)
    requires var w, w' := h.trace.worker, h'.trace.worker;
             && w'.transports == w.transports && w'.heap.Keys == w.heap.Keys
             && (Listed(w', r, k, c)
                 <==> || Listed(w, r, k, c)
                      || (On(w, r, c) && msg == Update(c, Consume(k)) && Addressed(w, msg)
                          && Refusal(h'.trace.log, w.answers, w.transports, msg).None?))
    ensures FeedTold(h', r, k, c)
  {
    NewcomerAccepted(h, h', msg, k, c);
    AcceptedAfterArrival(h, h', c, k);
  }

  /** Settling puts nobody on record. */
  lemma {:induction false} ListedAfterSettling<R>(w: Worker<R>, log: seq<Message>, i: nat, outcome: Outcome, newRef: R,
                                                  r: R, k: int, c: int)
    requires Sound(w, log) && i < |w.jobs| && newRef !in w.heap && (outcome.AckThrew? ==> w.jobs[i].CreateTransport?)
    ensures Listed(Settle(w, i, outcome, newRef), r, k, c) <==> Listed(w, r, k, c)
  {
    var job, w1 := w.jobs[i], WithoutJob(w, i);
    assert JobClosed(w.heap, job);
    if job.Producing? && outcome.Resolved? { FlushListsNobody(w1, job.req, job.transport, outcome.mediaId, r, k, c); }
  }

  lemma {:induction false} FlushListsNobody<R>(w: Worker<R>, req: nat, t: Transport<R>, mediaId: int, r: R, k: int,
                                               c: int)
    requires Closed(w) && t.router in w.heap
    ensures Listed(Produced(w, req, t, mediaId), r, k, c) <==> Listed(w, r, k, c)
  {}

  /** Where a registered transport is, it stays. */
  lemma {:induction false} OnAfterSettling<R>(w: Worker<R>, log: seq<Message>, i: nat, outcome: Outcome, newRef: R,
                                              r: R, c: int)
    requires Sound(w, log) && i < |w.jobs| && newRef !in w.heap && (outcome.AckThrew? ==> w.jobs[i].CreateTransport?)
    requires c in w.transports
    ensures On(Settle(w, i, outcome, newRef), r, c) <==> On(w, r, c)
  {
    TransportsStay(w, log, i, outcome, newRef);
    assert Closed(Settle(w, i, outcome, newRef));
  }

  lemma {:induction false} SettlingKeepsFeed<R>(h: History<R>, i: nat, outcome: Outcome, newRef: R, r: R, k: int,
                                                c: int)
    requires HistoryOk(h) && Possible(h.trace, Settles(i, outcome, newRef)) && FeedTold(h, r, k, c)
    ensures FeedTold(Noted(h, Settles(i, outcome, newRef)), r, k, c)
  {
    var h' := Noted(h, Settles(i, outcome, newRef));
    SettlingFollows(h, i, outcome, newRef);
    ListedAfterSettling(h.trace.worker, h.trace.log, i, outcome, newRef, r, k, c);
    SameAccepted(h, h', c, k);
    if q: nat :| Accepted(h, q, c, k) {
      AcceptedIsRegistered(h, q, c, k);
      OnAfterSettling(h.trace.worker, h.trace.log, i, outcome, newRef, r, c);
    }
  }

  lemma {:induction false} EveryRunKeepsFeed<R>(workerId: int, steps: seq<Step<R>>, r: R, k: int, c: int)
    ensures Watch(workerId, steps).Some? ==> FeedTold(Watch(workerId, steps).value, r, k, c)
    decreases |steps|
  {
    if steps != [] {
      EveryRunKeepsFeed(workerId, steps[..|steps| - 1], r, k, c);
      EveryRunKeepsHistory(workerId, steps[..|steps| - 1]);
      var before, step := Watch(workerId, steps[..|steps| - 1]), steps[|steps| - 1];
      if before.Some? && Possible(before.value.trace, step) {
        match step
        case Arrives(msg) => ArrivalKeepsFeed(before.value, msg, r, k, c);
        case Settles(i, outcome, newRef) => SettlingKeepsFeed(before.value, i, outcome, newRef, r, k, c);
      }
    }
  }

  /** In every run a router has transport `c` on record under source `k` exactly when `c` is one of its transports and a
      command to consume from `k` about it was accepted. */
  lemma {:induction false} OnRecordExactlyWhenAccepted<R>(workerId: int, steps: seq<Step<R>>, r: R, k: int, c: int)
    ensures match Watch(workerId, steps)
            case None => true
            case Some(h) =>
              var w := h.trace.worker;
              (r in w.heap && k in w.heap[r].producerToConsumers && c in w.heap[r].producerToConsumers[k])
              <==> (r in w.heap && c in w.transports && w.transports[c].router == r
                    && exists q: nat :: Accepted(h, q, c, k))
  {
    EveryRunKeepsFeed(workerId, steps, r, k, c);
  }
}
