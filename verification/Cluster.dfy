/** Several workers behind the fan-out bus: every published message reaches every worker, and each worker decides
    alone whether it is addressed.  Router and transport ids come from the coordinator's two wrapping generators;
    worker ids are distinct.  The one hypothesis is that a generator has not been asked for more ids than its
    window holds. */
module Cluster {
  import opened Common
  import opened WorkerModel
  import opened WorkerRuns
  import WorkerSources
  import IdGenerator

  datatype Cluster<R> = Cluster(
    workers: seq<Worker<R>>,
    log: seq<Message>,
    taken: seq<set<nat>>, // per worker, the messages it took
    threw: seq<set<nat>>, // per worker, the ones whose ack callback threw
    routerIds: nat,       // how many router ids were handed out
    transportIds: nat)

  datatype Step<R> =
    | AllocateRouter(workerId: int)
    | AllocateTransport(routerId: int, isProducer: bool)
    | Command(id: int, command: WorkerModel.Command)
    | Settles(worker: nat, i: nat, outcome: Outcome, newRef: R)

  ghost predicate Distinct(ids: seq<int>) {
    forall i, j :: 0 <= i < j < |ids| ==> ids[i] != ids[j]
  }

  ghost function Initial<R>(workerIds: seq<int>): Cluster<R> {
    Cluster(seq(|workerIds|, i requires 0 <= i < |workerIds| => Started(workerIds[i])), [],
            seq(|workerIds|, _ => {}), seq(|workerIds|, _ => {}), 0, 0)
  }

  ghost predicate AllClosed<R>(c: Cluster<R>) {
    |c.taken| == |c.workers| == |c.threw| && forall j :: 0 <= j < |c.workers| ==> Closed(c.workers[j])
  }

  ghost predicate Possible<R>(c: Cluster<R>, step: Step<R>) {
    match step
    case AllocateRouter(_) => c.routerIds < IdGenerator.MAX_COUNTER
    case AllocateTransport(_, _) => c.transportIds < IdGenerator.MAX_COUNTER
    case Command(_, _) => true
    case Settles(j, i, outcome, newRef) =>
      && j < |c.workers| && i < |c.workers[j].jobs| && newRef !in c.workers[j].heap
      && (outcome.AckThrew? ==> c.workers[j].jobs[i].CreateTransport?)
  }

  /** `bus.publish`: every worker sees the message. */
  ghost function Publish<R>(c: Cluster<R>, msg: Message): (c': Cluster<R>)
    requires AllClosed(c)
    ensures AllClosed(c')
  {
    c.(workers := seq(|c.workers|, j requires 0 <= j < |c.workers| => Deliver(c.workers[j], |c.log|, msg)),
       log := c.log + [msg],
       taken := seq(|c.workers|, j requires 0 <= j < |c.workers| =>
                  if Addressed(c.workers[j], msg) then c.taken[j] + {|c.log|} else c.taken[j]))
  }

  ghost function Do<R>(c: Cluster<R>, step: Step<R>): (c': Cluster<R>)
    requires AllClosed(c) && Possible(c, step)
    ensures AllClosed(c')
  {
    match step
    case AllocateRouter(workerId) =>
      Publish(c.(routerIds := c.routerIds + 1), NewRouter(IdGenerator.NthId(0, c.routerIds), workerId))
    case AllocateTransport(routerId, isProducer) =>
      Publish(c.(transportIds := c.transportIds + 1),
              NewTransport(routerId, IdGenerator.NthId(0, c.transportIds), isProducer))
    case Command(id, command) => Publish(c, Update(id, command))
    case Settles(j, i, outcome, newRef) =>
      c.(workers := c.workers[j := Settle(c.workers[j], i, outcome, newRef)],
         threw := if outcome.AckThrew? then c.threw[j := c.threw[j] + {c.workers[j].jobs[i].req}] else c.threw)
  }

  ghost function Run<R>(workerIds: seq<int>, steps: seq<Step<R>>): (c: Option<Cluster<R>>)
    ensures c.Some? ==> AllClosed(c.value)
    decreases |steps|
  {
    if steps == [] then Some(Initial(workerIds))
    else
      var before := Run(workerIds, steps[..|steps| - 1]);
      var step := steps[|steps| - 1];
      if before.None? || !Possible(before.value, step) then None else Some(Do(before.value, step))
  }

  // ----- The invariant -----

  /** Message `r` asked worker `w` for router `id`. */
  ghost predicate RouterAskedAt(log: seq<Message>, r: nat, id: int, workerId: int) {
    r < |log| && log[r] == NewRouter(id, workerId)
  }

  /** Message `r` asked for transport `id` on one of these routers. */
  ghost predicate TransportAskedAt(log: seq<Message>, r: nat, id: int, routerIds: set<int>) {
    r < |log| && log[r].NewTransport? && log[r].assignedId == id && log[r].routerId in routerIds
  }

  /** Whatever this worker has, is making, or has acknowledged was asked of it. */
  ghost predicate AtHome<R>(w: Worker<R>, log: seq<Message>) {
    && (forall id :: id in w.routers ==> exists r: nat :: RouterAskedAt(log, r, id, w.workerId))
    && (forall id :: id in w.transports ==> exists r: nat :: TransportAskedAt(log, r, id, w.routers.Keys))
    && (forall i :: 0 <= i < |w.jobs| ==> JobAtHome(w, log, w.jobs[i]))
    && (forall i :: 0 <= i < |w.answers| && w.answers[i].reply == AckTransport ==>
          w.answers[i].req < |log| && log[w.answers[i].req].NewTransport?
          && log[w.answers[i].req].assignedId in w.transports)
  }

  ghost predicate JobAtHome<R>(w: Worker<R>, log: seq<Message>, job: Job<R>) {
    match job
    case CreateRouter(req, id) => RouterAskedAt(log, req, id, w.workerId)
    case CreateTransport(req, _, id, _) => TransportAskedAt(log, req, id, w.routers.Keys)
    case _ => true
  }

  ghost predicate IdsIssuedOnce(log: seq<Message>, routerIds: nat, transportIds: nat) {
    && (forall r :: 0 <= r < |log| && log[r].NewRouter? ==> 0 <= log[r].assignedId < routerIds)
    && (forall r :: 0 <= r < |log| && log[r].NewTransport? ==> 0 <= log[r].assignedId < transportIds)
    && (forall r, q :: 0 <= r < q < |log| && log[r].NewRouter? && log[q].NewRouter? ==>
          log[r].assignedId != log[q].assignedId)
    && (forall r, q :: 0 <= r < q < |log| && log[r].NewTransport? && log[q].NewTransport?
                       ==> log[r].assignedId != log[q].assignedId)
  }

  ghost function TraceOf<R>(c: Cluster<R>, j: nat): Trace<R>
    requires |c.taken| == |c.workers| == |c.threw| && j < |c.workers|
  {
    Trace(c.workers[j], c.log, c.taken[j], c.threw[j])
  }

  ghost predicate WorkerOk<R>(c: Cluster<R>, j: nat)
    requires |c.taken| == |c.workers| == |c.threw| && j < |c.workers|
  {
    TraceOk(TraceOf(c, j))
  }

  ghost predicate TraceOk<R>(t: Trace<R>) {
    Sound(t.worker, t.log) && Conserved(t) && AtHome(t.worker, t.log) && WorkerSources.Sourced(t.worker, t.log)
  }

  /** Each message is taken by at most one worker. */
  ghost predicate TakenOnce<R>(c: Cluster<R>) {
    forall i, j, r :: 0 <= i < |c.taken| && 0 <= j < |c.taken| && r in c.taken[i] && r in c.taken[j] ==> i == j
  }

  ghost predicate Inv<R>(c: Cluster<R>) {
    && |c.taken| == |c.workers| == |c.threw|
    && c.routerIds <= IdGenerator.MAX_COUNTER && c.transportIds <= IdGenerator.MAX_COUNTER
    && (forall i, j :: 0 <= i < j < |c.workers| ==> c.workers[i].workerId != c.workers[j].workerId)
    && IdsIssuedOnce(c.log, c.routerIds, c.transportIds)
    && (forall j :: 0 <= j < |c.workers| ==> WorkerOk(c, j))
    && TakenOnce(c)
  }

  // ----- Ownership follows -----

  lemma {:induction false} RouterHasOneOwner<R>(c: Cluster<R>, i: nat, j: nat, id: int)
    requires Inv(c) && i < |c.workers| && j < |c.workers|
    requires id in c.workers[i].routers && id in c.workers[j].routers
    ensures i == j
  {
    assert WorkerOk(c, i) && WorkerOk(c, j);
    var r: nat :| RouterAskedAt(c.log, r, id, c.workers[i].workerId);
    var q: nat :| RouterAskedAt(c.log, q, id, c.workers[j].workerId);
  }

  lemma {:induction false} TransportHasOneOwner<R>(c: Cluster<R>, i: nat, j: nat, id: int)
    requires Inv(c) && i < |c.workers| && j < |c.workers|
    requires id in c.workers[i].transports && id in c.workers[j].transports
    ensures i == j
  {
    var r := AskedFor(c, i, id);
    var q := AskedFor(c, j, id);
    assert r == q;
    RouterHasOneOwner(c, i, j, c.log[r].routerId);
  }

  lemma {:induction false} AskedFor<R>(c: Cluster<R>, i: nat, id: int) returns (r: nat)
    requires Inv(c) && i < |c.workers| && id in c.workers[i].transports
    ensures TransportAskedAt(c.log, r, id, c.workers[i].routers.Keys)
  {
    assert WorkerOk(c, i);
    r :| TransportAskedAt(c.log, r, id, c.workers[i].routers.Keys);
  }

  lemma {:induction false} AddressedOnce<R>(c: Cluster<R>, msg: Message, i: nat, j: nat)
    requires Inv(c) && i < |c.workers| && j < |c.workers|
    requires Addressed(c.workers[i], msg) && Addressed(c.workers[j], msg)
    ensures i == j
  {
    match msg
    case NewRouter(_, workerId) =>
    case NewTransport(routerId, _, _) => RouterHasOneOwner(c, i, j, routerId);
    case Update(id, _) => TransportHasOneOwner(c, i, j, id);
  }

  // ----- Each step keeps the invariant -----

  lemma {:induction false} AtHomeAfterLogging<R>(w: Worker<R>, log: seq<Message>, msg: Message)
    requires AtHome(w, log)
    ensures AtHome(w, log + [msg])
  {
    forall id | id in w.routers ensures exists r: nat :: RouterAskedAt(log + [msg], r, id, w.workerId) {
      var r: nat :| RouterAskedAt(log, r, id, w.workerId);
      assert RouterAskedAt(log + [msg], r, id, w.workerId);
    }
    forall id | id in w.transports ensures exists r: nat :: TransportAskedAt(log + [msg], r, id, w.routers.Keys) {
      var r: nat :| TransportAskedAt(log, r, id, w.routers.Keys);
      assert TransportAskedAt(log + [msg], r, id, w.routers.Keys);
    }
    forall i | 0 <= i < |w.jobs| ensures JobAtHome(w, log + [msg], w.jobs[i]) {
      assert JobAtHome(w, log, w.jobs[i]);
    }
  }

  /** A delivery starts at most one job, gives at most one answer, and touches neither index. */
  lemma {:induction false} DeliveryIsSmall<R>(w: Worker<R>, req: nat, msg: Message)
    requires Closed(w)
    ensures SmallDelivery(w, Deliver(w, req, msg), req, msg)
  {
    if msg.Update? && !msg.command.FromWorker? && msg.id in w.transports {
      CommandIsSmall(w, req, w.transports[msg.id], msg);
    }
  }

  lemma {:induction false} CommandIsSmall<R>(w: Worker<R>, req: nat, transport: Transport<R>, msg: Message)
    requires Closed(w) && msg.Update? && !msg.command.FromWorker? && transport.router in w.heap
    ensures SmallDelivery(w, Commanded(w, req, transport, msg.command), req, msg)
  {}

  ghost predicate SmallDelivery<R>(w: Worker<R>, w': Worker<R>, req: nat, msg: Message) {
    && w'.workerId == w.workerId && w'.routers == w.routers && w'.transports == w.transports
    && (w'.jobs == w.jobs || (|w'.jobs| == |w.jobs| + 1 && w'.jobs[..|w.jobs|] == w.jobs))
    && (w'.answers == w.answers
        || (|w'.answers| == |w.answers| + 1 && w'.answers[..|w.answers|] == w.answers
            && w'.answers[|w.answers|].reply != AckTransport))
    && (|w'.jobs| == |w.jobs| + 1 ==>
          match w'.jobs[|w.jobs|]
          case CreateRouter(r, id) => r == req && msg == NewRouter(id, w.workerId)
          case CreateTransport(r, ref, id, _) =>
            && r == req && msg.NewTransport? && msg.assignedId == id
            && msg.routerId in w.routers && ref == w.routers[msg.routerId]
          case _ => true)
  }

  lemma {:induction false} AtHomeAfterDelivery<R>(w: Worker<R>, log: seq<Message>, msg: Message)
    requires Closed(w) && AtHome(w, log)
    ensures AtHome(Deliver(w, |log|, msg), log + [msg])
  {
    AtHomeAfterLogging(w, log, msg);
    DeliveryIsSmall(w, |log|, msg);
    StaysAtHome(w, Deliver(w, |log|, msg), log, msg);
  }

  lemma {:induction false} StaysAtHome<R>(w: Worker<R>, w': Worker<R>, log: seq<Message>, msg: Message)
    requires AtHome(w, log + [msg]) && SmallDelivery(w, w', |log|, msg)
    ensures AtHome(w', log + [msg])
  {
    var log' := log + [msg];
    forall i | 0 <= i < |w'.jobs| ensures JobAtHome(w', log', w'.jobs[i]) {
      if i < |w.jobs| {
        assert w'.jobs[i] == w'.jobs[..|w.jobs|][i];
        assert JobAtHome(w, log', w.jobs[i]);
      }
    }
    forall i | 0 <= i < |w'.answers| && w'.answers[i].reply == AckTransport ensures w'.answers[i] in w.answers {
      assert i < |w.answers| ==> w'.answers[i] == w'.answers[..|w.answers|][i];
    }
  }

  /** Settling adds a router or a transport exactly when the settled job was making it and the media layer made it. */
  lemma {:induction false} SettlingRegisters<R>(w: Worker<R>, i: nat, outcome: Outcome, newRef: R)
    requires Closed(w) && i < |w.jobs| && newRef !in w.heap && (outcome.AckThrew? ==> w.jobs[i].CreateTransport?)
    ensures var w', job := Settle(w, i, outcome, newRef), w.jobs[i];
            && w'.workerId == w.workerId
            && w'.routers
               == (if !outcome.Rejected? && job.CreateRouter? then w.routers[job.assignedId := newRef] else w.routers)
            && w'.transports
               == (if !outcome.Rejected? && job.CreateTransport?
                   then w.transports[job.assignedId := Transport(job.assignedId, job.router)] else w.transports)
  {
    var w1, job := WithoutJob(w, i), w.jobs[i];
    if outcome.Resolved? && job.Producing? { ProducingRegistersNothing(w1, job.req, job.transport, outcome.mediaId); }
  }

  lemma {:induction false} ProducingRegistersNothing<R>(w: Worker<R>, req: nat, t: WorkerModel.Transport<R>,
                                                        mediaId: int)
    requires Closed(w) && t.router in w.heap
    ensures var w' := Produced(w, req, t, mediaId);
            w'.workerId == w.workerId && w'.routers == w.routers && w'.transports == w.transports
  {}

  /** What settling may put in flight, and which transports it may acknowledge. */
  lemma {:induction false} SettlingIsSmall<R>(w: Worker<R>, log: seq<Message>, i: nat, outcome: Outcome, newRef: R)
    requires Sound(w, log) && i < |w.jobs| && newRef !in w.heap
    requires outcome.AckThrew? ==> w.jobs[i].CreateTransport?
    ensures var w' := Settle(w, i, outcome, newRef);
            && (forall job :: job in w'.jobs ==> job in w.jobs || job.Consuming?)
            && (forall a :: a in w'.answers && a.reply == AckTransport ==>
                  a in w.answers || (w.jobs[i].CreateTransport? && a.req == w.jobs[i].req && !outcome.Rejected?))
  {
    var w1, job := WithoutJob(w, i), w.jobs[i];
    SoundAfterDroppingJob(w, log, i);
    assert forall k :: k in w1.jobs ==> k in w.jobs;
    if outcome.Resolved? && job.Producing? {
      assert JobOk(w.heap, w.transports, log, job);
      ProducingIsSmall(w1, log, job.req, job.transport, outcome.mediaId);
    }
  }

  lemma {:induction false} ProducingIsSmall<R>(w: Worker<R>, log: seq<Message>, req: nat, t: WorkerModel.Transport<R>,
                                               mediaId: int)
    requires Sound(w, log) && t.id in w.transports && w.transports[t.id] == t
    ensures var w' := Produced(w, req, t, mediaId);
            && (forall job :: job in w'.jobs ==> job in w.jobs || job.Consuming?)
            && (forall a :: a in w'.answers && a.reply == AckTransport ==> a in w.answers)
  {
    ProducedStartsTheBuffer(w, log, req, t, mediaId);
  }

  lemma {:induction false} AtHomeAfterSettling<R>(w: Worker<R>, log: seq<Message>, i: nat, outcome: Outcome, newRef: R)
    requires Sound(w, log) && AtHome(w, log) && i < |w.jobs| && newRef !in w.heap
    requires outcome.AckThrew? ==> w.jobs[i].CreateTransport?
    ensures AtHome(Settle(w, i, outcome, newRef), log)
  {
    var w' := Settle(w, i, outcome, newRef);
    SettlingRegisters(w, i, outcome, newRef);
    RegisteredAtHome(w, w', log, i, !outcome.Rejected?, newRef);
    SettlingIsSmall(w, log, i, outcome, newRef);
    forall k | 0 <= k < |w'.jobs| ensures JobAtHome(w', log, w'.jobs[k]) {
      assert w'.jobs[k] in w'.jobs;
      if w'.jobs[k] in w.jobs {
        var q :| 0 <= q < |w.jobs| && w.jobs[q] == w'.jobs[k];
        assert JobAtHome(w, log, w.jobs[q]);
      }
    }
    forall k | 0 <= k < |w'.answers| && w'.answers[k].reply == AckTransport
      ensures w'.answers[k].req < |log| && log[w'.answers[k].req].NewTransport?
              && log[w'.answers[k].req].assignedId in w'.transports
    {
      assert w'.answers[k] in w'.answers;
      assert JobAtHome(w, log, w.jobs[i]);
    }
  }

  /** What the settled job made was asked of this worker. */
  lemma {:induction false} RegisteredAtHome<R>(w: Worker<R>, w': Worker<R>, log: seq<Message>, i: nat, made: bool,
                                               newRef: R)
    requires AtHome(w, log) && i < |w.jobs| && w'.workerId == w.workerId
    requires w'.routers
             == (if made && w.jobs[i].CreateRouter? then w.routers[w.jobs[i].assignedId := newRef] else w.routers)
    requires w'.transports
             == (if made && w.jobs[i].CreateTransport?
                 then w.transports[w.jobs[i].assignedId := Transport(w.jobs[i].assignedId, w.jobs[i].router)]
                 else w.transports)
    ensures forall id :: id in w'.routers ==> exists r: nat :: RouterAskedAt(log, r, id, w'.workerId)
    ensures forall id :: id in w'.transports ==> exists r: nat :: TransportAskedAt(log, r, id, w'.routers.Keys)
  {
    assert JobAtHome(w, log, w.jobs[i]);
    forall id | id in w'.routers ensures exists r: nat :: RouterAskedAt(log, r, id, w'.workerId) {
      if id in w.routers {
        var r: nat :| RouterAskedAt(log, r, id, w.workerId);
      } else {
        assert RouterAskedAt(log, w.jobs[i].req, id, w.workerId);
      }
    }
    forall id | id in w'.transports ensures exists r: nat :: TransportAskedAt(log, r, id, w'.routers.Keys) {
      if id in w.transports {
        var r: nat :| TransportAskedAt(log, r, id, w.routers.Keys);
        assert TransportAskedAt(log, r, id, w'.routers.Keys);
      } else {
        assert TransportAskedAt(log, w.jobs[i].req, id, w'.routers.Keys);
      }
    }
  }

  lemma {:induction false} WorkerOkAfterPublish<R>(c: Cluster<R>, msg: Message, j: nat)
    requires AllClosed(c) && j < |c.workers| && WorkerOk(c, j)
    requires msg.NewTransport? ==> msg.assignedId !in AssignedTransports(c.log)
    ensures WorkerOk(Publish(c, msg), j) && Publish(c, msg).workers[j].workerId == c.workers[j].workerId
  {
    var t := TraceOf(c, j);
    StepKeepsAll(t, Arrives(msg));
    assert WorkerRuns.Do(t, Arrives(msg)) == TraceOf(Publish(c, msg), j);
    AtHomeAfterDelivery(c.workers[j], c.log, msg);
    WorkerSources.SourcedAfterDelivery(c.workers[j], c.log, msg);
    DeliveryIsSmall(c.workers[j], |c.log|, msg);
  }

  lemma {:induction false} TakenOnceAfterPublish<R>(c: Cluster<R>, msg: Message)
    requires Inv(c) && AllClosed(c)
    ensures TakenOnce(Publish(c, msg))
  {
    var taken' := Publish(c, msg).taken;
    forall i, j, r | 0 <= i < |taken'| && 0 <= j < |taken'| && r in taken'[i] && r in taken'[j] ensures i == j {
      TakenBelowLog(c, i);
      TakenBelowLog(c, j);
      if r == |c.log| { AddressedOnce(c, msg, i, j); }
    }
  }

  lemma {:induction false} TakenBelowLog<R>(c: Cluster<R>, j: nat)
    requires Inv(c) && j < |c.workers|
    ensures forall r :: r in c.taken[j] ==> r < |c.log|
  {
    assert WorkerOk(c, j);
  }

  lemma {:induction false} PublishKeepsInv<R>(c: Cluster<R>, msg: Message, routerIds: nat, transportIds: nat)
    requires Inv(c) && AllClosed(c)
    requires c.routerIds <= routerIds <= IdGenerator.MAX_COUNTER
             && c.transportIds <= transportIds <= IdGenerator.MAX_COUNTER
    requires msg.NewRouter? ==> msg.assignedId == c.routerIds && routerIds == c.routerIds + 1
    requires msg.NewTransport? ==> msg.assignedId == c.transportIds && transportIds == c.transportIds + 1
    ensures Inv(Publish(c, msg).(routerIds := routerIds, transportIds := transportIds))
  {
    TakenOnceAfterPublish(c, msg);
    forall j | 0 <= j < |c.workers|
      ensures WorkerOk(Publish(c, msg), j) && Publish(c, msg).workers[j].workerId == c.workers[j].workerId
    {
      WorkerOkAfterPublish(c, msg, j);
    }
    var c' := Publish(c, msg).(routerIds := routerIds, transportIds := transportIds);
    forall j | 0 <= j < |c.workers| ensures WorkerOk(c', j) { assert WorkerOk(Publish(c, msg), j); }
  }

  lemma {:induction false} StepKeepsInv<R>(c: Cluster<R>, step: Step<R>)
    requires Inv(c) && AllClosed(c) && Possible(c, step)
    ensures Inv(Do(c, step))
  {
    match step
    case AllocateRouter(_) => RouterRequestKeepsInv(c, step);
    case AllocateTransport(_, _) => TransportRequestKeepsInv(c, step);
    case Command(id, command) => PublishKeepsInv(c, Update(id, command), c.routerIds, c.transportIds);
    case Settles(j, i, outcome, newRef) => SettlingKeepsInv(c, j, i, outcome, newRef);
  }

  lemma {:induction false} PublishWithIds<R>(c: Cluster<R>, msg: Message, routerIds: nat, transportIds: nat)
    requires AllClosed(c)
    ensures Publish(c.(routerIds := routerIds, transportIds := transportIds), msg)
            == Publish(c, msg).(routerIds := routerIds, transportIds := transportIds)
  {}

  lemma {:induction false} RouterRequestKeepsInv<R>(c: Cluster<R>, step: Step<R>)
    requires Inv(c) && AllClosed(c) && step.AllocateRouter? && Possible(c, step)
    ensures Inv(Do(c, step))
  {
    PublishKeepsInv(c, NewRouter(c.routerIds, step.workerId), c.routerIds + 1, c.transportIds);
    PublishWithIds(c, NewRouter(c.routerIds, step.workerId), c.routerIds + 1, c.transportIds);
    assert c.(routerIds := c.routerIds + 1, transportIds := c.transportIds) == c.(routerIds := c.routerIds + 1);
    assert IdGenerator.NthId(0, c.routerIds) == c.routerIds;
  }

  lemma {:induction false} TransportRequestKeepsInv<R>(c: Cluster<R>, step: Step<R>)
    requires Inv(c) && AllClosed(c) && step.AllocateTransport? && Possible(c, step)
    ensures Inv(Do(c, step))
  {
    var msg := NewTransport(step.routerId, c.transportIds, step.isProducer);
    PublishKeepsInv(c, msg, c.routerIds, c.transportIds + 1);
    PublishWithIds(c, msg, c.routerIds, c.transportIds + 1);
    assert c.(routerIds := c.routerIds, transportIds := c.transportIds + 1) == c.(transportIds := c.transportIds + 1);
    assert IdGenerator.NthId(0, c.transportIds) == c.transportIds;
  }

  lemma {:induction false} SettlingKeepsInv<R>(c: Cluster<R>, j: nat, i: nat, outcome: Outcome, newRef: R)
    requires Inv(c) && AllClosed(c) && Possible(c, Step.Settles(j, i, outcome, newRef))
    ensures Inv(Do(c, Step.Settles(j, i, outcome, newRef)))
  {
    var c' := Do(c, Step.Settles(j, i, outcome, newRef));
    SettledWorkerOk(c, j, i, outcome, newRef);
    forall k | 0 <= k < |c'.workers| ensures WorkerOk(c', k) && c'.workers[k].workerId == c.workers[k].workerId {
      if k != j { OtherWorkerOk(c, c', k); }
    }
  }

  lemma {:induction false} SettledWorkerOk<R>(c: Cluster<R>, j: nat, i: nat, outcome: Outcome, newRef: R)
    requires Inv(c) && AllClosed(c) && Possible(c, Step.Settles(j, i, outcome, newRef))
    ensures WorkerOk(Do(c, Step.Settles(j, i, outcome, newRef)), j)
    ensures Do(c, Step.Settles(j, i, outcome, newRef)).workers[j].workerId == c.workers[j].workerId
  {
    assert WorkerOk(c, j);
    TraceAfterSettling(TraceOf(c, j), i, outcome, newRef);
    assert TraceOf(Do(c, Step.Settles(j, i, outcome, newRef)), j)
        == WorkerRuns.Do(TraceOf(c, j), WorkerRuns.Settles(i, outcome, newRef));
    SettlingRegisters(c.workers[j], i, outcome, newRef);
  }

  lemma {:induction false} TraceAfterSettling<R>(t: Trace<R>, i: nat, outcome: Outcome, newRef: R)
    requires TraceOk(t) && i < |t.worker.jobs| && newRef !in t.worker.heap
    requires outcome.AckThrew? ==> t.worker.jobs[i].CreateTransport?
    ensures TraceOk(WorkerRuns.Do(t, WorkerRuns.Settles(i, outcome, newRef)))
  {
    StepKeepsAll(t, WorkerRuns.Settles(i, outcome, newRef));
    AtHomeAfterSettling(t.worker, t.log, i, outcome, newRef);
    WorkerSources.SourcedAfterSettling(t.worker, t.log, i, outcome, newRef);
  }

  lemma {:induction false} OtherWorkerOk<R>(c: Cluster<R>, c': Cluster<R>, k: nat)
    requires |c.taken| == |c.workers| == |c.threw| && |c'.taken| == |c'.workers| == |c'.threw|
    requires k < |c.workers| == |c'.workers| && WorkerOk(c, k)
    requires c'.log == c.log && TraceOf(c', k) == TraceOf(c, k)
    ensures WorkerOk(c', k)
  {}

  // ----- The results -----

  lemma {:induction false} EveryRunKeepsInv<R>(workerIds: seq<int>, steps: seq<Step<R>>)
    requires Distinct(workerIds)
    ensures var c := Run(workerIds, steps); c.Some? ==> Inv(c.value)
    decreases |steps|
  {
    if steps == [] {
      var c := Initial<R>(workerIds);
      forall j | 0 <= j < |c.workers| ensures WorkerOk(c, j) {}
    } else {
      EveryRunKeepsInv(workerIds, steps[..|steps| - 1]);
      var before := Run(workerIds, steps[..|steps| - 1]);
      if before.Some? && Possible(before.value, steps[|steps| - 1]) {
        StepKeepsInv(before.value, steps[|steps| - 1]);
      }
    }
  }

  /** Single owner in every run: no router or transport id lives on two workers, so a fanned-out message is acted on by
      at most one worker; and a transport whose creation was acknowledged lives on exactly one. */
  lemma {:induction false} SingleOwner<R>(workerIds: seq<int>, steps: seq<Step<R>>)
    requires Distinct(workerIds) && Run(workerIds, steps).Some?
    ensures var c := Run(workerIds, steps).value;
            && (forall i, j, id | 0 <= i < |c.workers| && 0 <= j < |c.workers| ::
                  id in c.workers[i].routers && id in c.workers[j].routers ==> i == j)
            && (forall i, j, id | 0 <= i < |c.workers| && 0 <= j < |c.workers| ::
                  id in c.workers[i].transports && id in c.workers[j].transports ==> i == j)
            && (forall i, j, msg | 0 <= i < |c.workers| && 0 <= j < |c.workers| ::
                  Addressed(c.workers[i], msg) && Addressed(c.workers[j], msg) ==> i == j)
            && (forall j, k :: 0 <= j < |c.workers| && 0 <= k < |c.workers[j].answers|
                               && c.workers[j].answers[k].reply == AckTransport ==>
                  var req := c.workers[j].answers[k].req;
                  && req < |c.log| && c.log[req].NewTransport?
                  && forall i :: 0 <= i < |c.workers| ==>
                     (c.log[req].assignedId in c.workers[i].transports <==> i == j))
  {
    EveryRunKeepsInv(workerIds, steps);
    var c := Run(workerIds, steps).value;
    forall i, j, id | 0 <= i < |c.workers| && 0 <= j < |c.workers|
                      && id in c.workers[i].routers && id in c.workers[j].routers
      ensures i == j
    {
      RouterHasOneOwner(c, i, j, id);
    }
    forall i, j, id | 0 <= i < |c.workers| && 0 <= j < |c.workers|
                      && id in c.workers[i].transports && id in c.workers[j].transports
      ensures i == j
    {
      TransportHasOneOwner(c, i, j, id);
    }
    forall i, j, msg | 0 <= i < |c.workers| && 0 <= j < |c.workers|
                       && Addressed(c.workers[i], msg) && Addressed(c.workers[j], msg)
      ensures i == j
    {
      AddressedOnce(c, msg, i, j);
    }
    forall j | 0 <= j < |c.workers| ensures AtHome(c.workers[j], c.log) { assert WorkerOk(c, j); }
  }

  /** Exactly-once answers over the fan-out: one worker alone answers a message, once, or twice when it asked for a
      transport whose ack callback threw. */
  lemma {:induction false} AnsweredOnceAcrossWorkers<R>(workerIds: seq<int>, steps: seq<Step<R>>, i: nat, r: nat)
    requires Distinct(workerIds) && Run(workerIds, steps).Some?
    requires i < |Run(workerIds, steps).value.workers|
    requires AnswerRequests(Run(workerIds, steps).value.workers[i].answers)[r] > 0
    ensures var c := Run(workerIds, steps).value;
            && |c.threw| == |c.workers|
            && AnswerRequests(c.workers[i].answers)[r] == (if r in c.threw[i] then 2 else 1)
            && (r in c.threw[i] ==> r < |c.log| && c.log[r].NewTransport?)
            && forall j :: 0 <= j < |c.workers| && j != i ==> AnswerRequests(c.workers[j].answers)[r] == 0
  {
    EveryRunKeepsInv(workerIds, steps);
    var c := Run(workerIds, steps).value;
    assert WorkerOk(c, i) && CountOk(TraceOf(c, i), r);
    forall j | 0 <= j < |c.workers| && j != i ensures AnswerRequests(c.workers[j].answers)[r] == 0 {
      assert WorkerOk(c, j) && CountOk(TraceOf(c, j), r);
    }
  }
}
