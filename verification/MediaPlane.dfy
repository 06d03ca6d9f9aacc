/** The coordinator's transports together with the workers that host them, over every run: what the coordinator records
    of a transport and where the transport lives agree, so the commands the dispatcher sends find what they name.

    A step runs up to the next real await: an allocation publishes its request to every worker in the same step, and a
    worker that registers a transport acknowledges it in the same step.  Ids stay inside the generators' window. */
module MediaPlane {
  import opened Common
  import IdGenerator
  import M = Mesh
  import MeshRuns
  import MeshResults
  import W = WorkerModel
  import WR = WorkerRuns
  import C = Cluster

  /** `late` are the transports that were acknowledged when their source's record was gone. */
  datatype Plane<R> = Plane(coordinator: M.Coordinator, cluster: C.Cluster<R>, late: set<int>)

  datatype Step<R> =
    | Coordinate(step: M.Step)
    | Settles(worker: nat, i: nat, outcome: W.Outcome, newRef: R)
    | NewRouter(workerId: int)
    | Command(id: int, command: W.Command)

  // ----- One worker: which router object a transport is on -----

  /** A transport is on the router object registered under the router id its request named, and a router id is
      registered once. */
  ghost predicate RefsOk<R>(w: W.Worker<R>, log: seq<W.Message>) {
    && (forall id, r :: id in w.transports && 0 <= r < |log| && Asks(log[r], id) ==>
          log[r].routerId in w.routers && w.transports[id].router == w.routers[log[r].routerId])
    && (forall job :: job in w.jobs ==> JobRefOk(w.routers, log, job))
  }

  ghost predicate Asks(msg: W.Message, id: int) {
    msg.NewTransport? && msg.assignedId == id
  }

  ghost predicate JobRefOk<R>(routers: map<int, R>, log: seq<W.Message>, job: W.Job<R>) {
    match job
    case CreateRouter(_, id) => id !in routers
    case CreateTransport(req, ref, id, _) =>
      req < |log| && Asks(log[req], id) && log[req].routerId in routers && ref == routers[log[req].routerId]
    case _ => true
  }

  lemma {:induction false} UnaskedIsUnregistered<R>(w: W.Worker<R>, log: seq<W.Message>, id: int)
    requires C.AtHome(w, log) && forall r :: 0 <= r < |log| && log[r].NewRouter? ==> log[r].assignedId != id
    ensures id !in w.routers
  {
    forall k | k in w.routers ensures k != id {
      var r: nat :| C.RouterAskedAt(log, r, k, w.workerId);
    }
  }

  /** The ids of the request under way are new to this worker. */
  ghost predicate NewIds(log: seq<W.Message>, msg: W.Message) {
    && (msg.NewTransport? ==> msg.assignedId !in WR.AssignedTransports(log))
    && (msg.NewRouter? ==> forall r :: 0 <= r < |log| && log[r].NewRouter? ==> log[r].assignedId != msg.assignedId)
  }

  lemma {:induction false} RefsAfterDelivery<R>(w: W.Worker<R>, log: seq<W.Message>, msg: W.Message)
    requires RefsOk(w, log) && W.Closed(w) && C.AtHome(w, log) && NewIds(log, msg)
    requires w.transports.Keys <= WR.AssignedTransports(log)
    ensures RefsOk(W.Deliver(w, |log|, msg), log + [msg])
  {
    var w', log' := W.Deliver(w, |log|, msg), log + [msg];
    C.DeliveryIsSmall(w, |log|, msg);
    if msg.NewRouter? { UnaskedIsUnregistered(w, log, msg.assignedId); }
    RefsOnceDelivered(w, w', log, msg);
  }

  lemma {:induction false} RefsOnceDelivered<R>(w: W.Worker<R>, w': W.Worker<R>, log: seq<W.Message>, msg: W.Message)
    requires RefsOk(w, log) && C.SmallDelivery(w, w', |log|, msg)
    requires w.transports.Keys <= WR.AssignedTransports(log)
    requires msg.NewTransport? ==> msg.assignedId !in WR.AssignedTransports(log)
    requires msg.NewRouter? ==> msg.assignedId !in w.routers
    ensures RefsOk(w', log + [msg])
  {
    forall job | job in w'.jobs ensures JobRefOk(w'.routers, log + [msg], job) {
      NewJobIsLast(w.jobs, w'.jobs, job);
      if job in w.jobs { assert JobRefOk(w.routers, log, job); }
    }
  }

  lemma {:induction false} NewJobIsLast<R>(jobs: seq<W.Job<R>>, jobs': seq<W.Job<R>>, job: W.Job<R>)
    requires jobs' == jobs || (|jobs'| == |jobs| + 1 && jobs'[..|jobs|] == jobs)
    requires job in jobs'
    ensures job in jobs || (|jobs'| == |jobs| + 1 && jobs'[|jobs|] == job)
  {
    var i: nat :| i < |jobs'| && jobs'[i] == job;
    if i < |jobs| { assert jobs[i] == jobs'[i]; }
  }

  ghost predicate IdsOnce(log: seq<W.Message>) {
    && (forall r, q :: 0 <= r < q < |log| && log[r].NewRouter? && log[q].NewRouter? ==>
          log[r].assignedId != log[q].assignedId)
    && (forall r, q :: 0 <= r < q < |log| && log[r].NewTransport? && log[q].NewTransport?
                       ==> log[r].assignedId != log[q].assignedId)
  }

  lemma {:induction false} AskedOnce(log: seq<W.Message>, id: int, r: nat, q: nat)
    requires IdsOnce(log) && r < |log| && q < |log| && Asks(log[r], id) && Asks(log[q], id)
    ensures r == q
  {}

  /** A settled promise leaves nothing in flight under its request, so a router id is registered once. */
  lemma {:induction false} OtherRoutersInFlight<R>(t: WR.Trace<R>, i: nat, mediaId: int, newRef: R, job: W.Job<R>)
    requires WR.Sound(t.worker, t.log) && WR.Conserved(t) && C.AtHome(t.worker, t.log) && IdsOnce(t.log)
    requires i < |t.worker.jobs| && newRef !in t.worker.heap && t.worker.jobs[i].CreateRouter?
    requires job in t.worker.jobs && job in W.Settle(t.worker, i, W.Resolved(mediaId), newRef).jobs && job.CreateRouter?
    ensures job.assignedId != t.worker.jobs[i].assignedId
  {
    var w' := W.Settle(t.worker, i, W.Resolved(mediaId), newRef);
    var settled := t.worker.jobs[i];
    var a := W.Answer(settled.req, W.AckRouter);
    assert w'.answers[|t.worker.answers|] == a;
    WR.StepKeepsAll(t, WR.Settles(i, W.Resolved(mediaId), newRef));
    WR.AnsweredIsDone(WR.Do(t, WR.Settles(i, W.Resolved(mediaId), newRef)), job, a);
    var q: nat :| q < |t.worker.jobs| && t.worker.jobs[q] == job;
    assert C.JobAtHome(t.worker, t.log, t.worker.jobs[q]) && C.JobAtHome(t.worker, t.log, settled);
  }

  lemma {:induction false} RefsAfterSettling<R>(t: WR.Trace<R>, i: nat, outcome: W.Outcome, newRef: R)
    requires WR.Sound(t.worker, t.log) && WR.Conserved(t) && RefsOk(t.worker, t.log) && C.AtHome(t.worker, t.log)
             && IdsOnce(t.log)
    requires WR.Possible(t, WR.Settles(i, outcome, newRef))
    ensures RefsOk(W.Settle(t.worker, i, outcome, newRef), t.log)
  {
    var w' := W.Settle(t.worker, i, outcome, newRef);
    C.SettlingRegisters(t.worker, i, outcome, newRef);
    C.SettlingIsSmall(t.worker, t.log, i, outcome, newRef);
    assert JobRefOk(t.worker.routers, t.log, t.worker.jobs[i]);
    forall job | job in w'.jobs ensures JobRefOk(w'.routers, t.log, job) {
      if job in t.worker.jobs {
        assert JobRefOk(t.worker.routers, t.log, job);
        if t.worker.jobs[i].CreateRouter? && outcome.Resolved? && job.CreateRouter? {
          OtherRoutersInFlight(t, i, outcome.mediaId, newRef, job);
        }
      }
    }
    RefsOnceRegistered(t.worker, w', t.log, t.worker.jobs[i], !outcome.Rejected?, newRef);
  }

  lemma {:induction false} RefsOnceRegistered<R>(w: W.Worker<R>, w': W.Worker<R>, log: seq<W.Message>, job: W.Job<R>,
                                                  resolved: bool, newRef: R)
    requires RefsOk(w, log) && IdsOnce(log) && JobRefOk(w.routers, log, job)
    requires w'.routers == if resolved && job.CreateRouter? then w.routers[job.assignedId := newRef] else w.routers
    requires w'.transports
             == if resolved && job.CreateTransport?
                then w.transports[job.assignedId := W.Transport(job.assignedId, job.router)] else w.transports
    requires forall k :: k in w'.jobs ==> JobRefOk(w'.routers, log, k)
    ensures RefsOk(w', log)
  {
    forall id, r | id in w'.transports && 0 <= r < |log| && Asks(log[r], id)
      ensures log[r].routerId in w'.routers && w'.transports[id].router == w'.routers[log[r].routerId]
    {
      if resolved && job.CreateTransport? && id == job.assignedId {
        AskedOnce(log, id, r, job.req);
      }
    }
  }

  // ----- All workers and the coordinator -----

  ghost predicate AllRefsOk<R>(k: C.Cluster<R>) {
    forall j :: 0 <= j < |k.workers| ==> RefsOk(k.workers[j], k.log)
  }

  /** A transport under way on some worker is one the coordinator waits for. */
  ghost predicate JobsRequested<R>(k: C.Cluster<R>, requested: set<int>) {
    forall j, job :: 0 <= j < |k.workers| && job in k.workers[j].jobs && job.CreateTransport? ==>
        job.assignedId in requested
  }

  /** What was asked for is what the coordinator recorded. */
  ghost predicate AskedOk(log: seq<W.Message>, objects: map<int, M.Transport>) {
    forall r :: 0 <= r < |log| && log[r].NewTransport? ==>
      && log[r].assignedId in objects && objects[log[r].assignedId].router == log[r].routerId
      && (log[r].isProducer <==> objects[log[r].assignedId].source.None?)
  }

  ghost predicate LivesOn<R>(k: C.Cluster<R>, j: nat, t: int) {
    j < |k.workers| && t in k.workers[j].transports
  }

  ghost predicate Lives<R>(k: C.Cluster<R>, t: int) {
    exists j: nat :: LivesOn(k, j, t)
  }

  /** A transport lives on a worker exactly when the coordinator has it as allocated. */
  ghost predicate HostedOk<R>(k: C.Cluster<R>, objects: map<int, M.Transport>) {
    forall t :: t in objects ==> (objects[t].status != M.Unallocated <==> Lives(k, t))
  }

  ghost predicate PlaneOk<R>(y: Plane<R>) {
    && M.Inv(y.coordinator) && C.Inv(y.cluster) && C.AllClosed(y.cluster)
    && y.coordinator.nextTransport == y.cluster.transportIds
    && AllRefsOk(y.cluster)
    && JobsRequested(y.cluster, y.coordinator.requested)
    && AskedOk(y.cluster.log, y.coordinator.transportObjects)
    && HostedOk(y.cluster, y.coordinator.transportObjects)
    && ThrewOk(y.cluster, y.late)
    && LateOk(y.coordinator, y.late)
    && AllThrew(y.cluster, y.late)
  }

  ghost predicate AllThrew<R>(k: C.Cluster<R>, late: set<int>) {
    forall t :: t in late ==> ThrewFor(k, t)
  }

  lemma {:induction false} AllThrewStays<R>(k: C.Cluster<R>, k': C.Cluster<R>, late: set<int>)
    requires AllThrew(k, late) && k.log <= k'.log && |k.threw| == |k'.threw|
    requires forall j :: 0 <= j < |k.threw| ==> k.threw[j] <= k'.threw[j]
    ensures AllThrew(k', late)
  {
    forall t | t in late ensures ThrewFor(k', t) {
      assert ThrewFor(k, t);
      var j: nat, r: nat :| ThrewAt(k, j, r, t);
      assert ThrewAt(k', j, r, t);
    }
  }

  /** The requests whose ack threw are the ones for late transports. */
  ghost predicate ThrewOk<R>(k: C.Cluster<R>, late: set<int>) {
    && |k.threw| == |k.workers| == |k.taken|
    && forall j: nat, r: nat :: j < |k.workers| ==> ThrewRight(k.log, k.taken[j], k.threw[j], late, r)
  }

  ghost predicate ThrewRight(log: seq<W.Message>, taken: set<nat>, threw: set<nat>, late: set<int>, r: nat) {
    r in threw <==> r in taken && AsksLate(log, late, r)
  }

  ghost predicate AsksLate(log: seq<W.Message>, late: set<int>, r: nat) {
    r < |log| && log[r].NewTransport? && log[r].assignedId in late
  }

  ghost predicate ThrewFor<R>(k: C.Cluster<R>, t: int) {
    exists j: nat, r: nat :: ThrewAt(k, j, r, t)
  }

  ghost predicate ThrewAt<R>(k: C.Cluster<R>, j: nat, r: nat, t: int) {
    j < |k.threw| && r in k.threw[j] && r < |k.log| && Asks(k.log[r], t)
  }

  /** A late transport is a consumer's, it is allocated, and its source's record stays gone. */
  ghost predicate LateOk(c: M.Coordinator, late: set<int>) {
    forall t :: t in late ==>
      && t in c.transportObjects && c.transportObjects[t].status != M.Unallocated
      && SourceGone(c, t)
  }

  /** The record of the transport `t` consumes from is not in the allocator. */
  ghost predicate SourceGone(c: M.Coordinator, t: int) {
    t in c.transportObjects && c.transportObjects[t].source.Some? && c.transportObjects[t].source.value !in c.transports
  }

  ghost predicate SameTransports<R>(k: C.Cluster<R>, k': C.Cluster<R>) {
    |k'.workers| == |k.workers| && forall j :: 0 <= j < |k.workers| ==>
        k'.workers[j].transports == k.workers[j].transports
  }

  lemma {:induction false} LivesTheSame<R>(k: C.Cluster<R>, k': C.Cluster<R>, t: int)
    requires SameTransports(k, k')
    ensures Lives(k, t) <==> Lives(k', t)
  {
    if Lives(k, t) {
      var j: nat :| LivesOn(k, j, t);
      assert LivesOn(k', j, t);
    }
    if Lives(k', t) {
      var j: nat :| LivesOn(k', j, t);
      assert LivesOn(k, j, t);
    }
  }

  lemma {:induction false} AfterPublish<R>(k: C.Cluster<R>, msg: W.Message, requested: set<int>)
    requires C.Inv(k) && C.AllClosed(k) && AllRefsOk(k) && JobsRequested(k, requested) && NewIds(k.log, msg)
    requires msg.NewTransport? ==> msg.assignedId in requested
    ensures AllRefsOk(C.Publish(k, msg)) && JobsRequested(C.Publish(k, msg), requested)
            && SameTransports(k, C.Publish(k, msg))
    ensures C.Publish(k, msg).threw == k.threw
  {
    var k' := C.Publish(k, msg);
    forall j | 0 <= j < |k.workers|
      ensures RefsOk(k'.workers[j], k'.log) && k'.workers[j].transports == k.workers[j].transports
      ensures forall job :: job in k'.workers[j].jobs && job.CreateTransport? ==> job.assignedId in requested
    {
      assert C.WorkerOk(k, j);
      WorkerAfterPublish(k.workers[j], k.log, msg, requested);
    }
  }

  /** Publishing makes nothing throw, when what it asks for is not late. */
  lemma {:induction false} ThrewAfterPublish<R>(k: C.Cluster<R>, msg: W.Message, late: set<int>)
    requires C.Inv(k) && C.AllClosed(k) && ThrewOk(k, late) && (msg.NewTransport? ==> msg.assignedId !in late)
    ensures ThrewOk(C.Publish(k, msg), late)
  {
    var k' := C.Publish(k, msg);
    forall j: nat, r: nat | j < |k.workers| ensures ThrewRight(k'.log, k'.taken[j], k'.threw[j], late, r) {
      assert C.WorkerOk(k, j) && ThrewRight(k.log, k.taken[j], k.threw[j], late, r);
      if r < |k.log| { assert k'.log[r] == k.log[r]; }
    }
  }

  lemma {:induction false} WorkerAfterPublish<R>(w: W.Worker<R>, log: seq<W.Message>, msg: W.Message,
                                                 requested: set<int>)
    requires RefsOk(w, log) && WR.Sound(w, log) && C.AtHome(w, log) && NewIds(log, msg)
    requires msg.NewTransport? ==> msg.assignedId in requested
    requires forall job :: job in w.jobs && job.CreateTransport? ==> job.assignedId in requested
    ensures var w' := W.Deliver(w, |log|, msg);
            && RefsOk(w', log + [msg]) && w'.transports == w.transports
            && forall job :: job in w'.jobs && job.CreateTransport? ==> job.assignedId in requested
  {
    var w' := W.Deliver(w, |log|, msg);
    RefsAfterDelivery(w, log, msg);
    C.DeliveryIsSmall(w, |log|, msg);
    forall job | job in w'.jobs && job.CreateTransport? ensures job.assignedId in requested {
      NewJobIsLast(w.jobs, w'.jobs, job);
    }
  }

  // ----- The coordinator's requests reach the workers -----

  ghost predicate InRange<R>(k: C.Cluster<R>, objects: map<int, M.Transport>, upto: nat) {
    k.transportIds <= upto <= IdGenerator.MAX_COUNTER && forall id :: k.transportIds <= id < upto ==> id in objects
  }

  /** Publishes a request for every transport id up to `upto`, in order. */
  ghost function Published<R>(k: C.Cluster<R>, objects: map<int, M.Transport>, upto: nat): (k': C.Cluster<R>)
    requires C.AllClosed(k) && InRange(k, objects, upto)
    ensures C.AllClosed(k')
    decreases upto - k.transportIds
  {
    if k.transportIds == upto then k
    else
      var id := k.transportIds;
      Published(C.Do(k, C.AllocateTransport(objects[id].router, objects[id].source.None?)), objects, upto)
  }

  lemma {:induction false} PublishingKeeps<R>(k: C.Cluster<R>, objects: map<int, M.Transport>, upto: nat,
                                              requested: set<int>,
                                              late: set<int>)
    requires C.AllClosed(k) && InRange(k, objects, upto) && C.Inv(k)
    requires ThrewOk(k, late) && forall t :: t in late ==> t < k.transportIds
    requires AllRefsOk(k) && JobsRequested(k, requested) && AskedOk(k.log, objects)
    requires forall id :: k.transportIds <= id < upto ==> id in requested
    ensures var k' := Published(k, objects, upto);
            && C.Inv(k') && AllRefsOk(k') && JobsRequested(k', requested) && AskedOk(k'.log, objects)
            && SameTransports(k, k') && k'.transportIds == upto && ThrewOk(k', late)
            && k.log <= k'.log && k'.threw == k.threw
    decreases upto - k.transportIds
  {
    if k.transportIds < upto {
      var id := k.transportIds;
      var step := C.Step<R>.AllocateTransport(objects[id].router, objects[id].source.None?);
      PublishingOneKeeps(k, objects, requested, late);
      PublishingKeeps(C.Do(k, step), objects, upto, requested, late);
    }
  }

  lemma {:induction false} PublishingOneKeeps<R>(k: C.Cluster<R>, objects: map<int, M.Transport>, requested: set<int>,
                                                 late: set<int>)
    requires ThrewOk(k, late) && forall t :: t in late ==> t < k.transportIds
    requires C.AllClosed(k) && C.Inv(k) && k.transportIds < IdGenerator.MAX_COUNTER && k.transportIds in objects
    requires AllRefsOk(k) && JobsRequested(k, requested) && AskedOk(k.log, objects) && k.transportIds in requested
    ensures var id := k.transportIds;
            var k' := C.Do(k, C.Step<R>.AllocateTransport(objects[id].router, objects[id].source.None?));
            && C.Inv(k') && AllRefsOk(k') && JobsRequested(k', requested) && AskedOk(k'.log, objects)
            && SameTransports(k, k') && k'.transportIds == k.transportIds + 1 && ThrewOk(k', late)
            && k.log <= k'.log && k'.threw == k.threw
  {
    var id := k.transportIds;
    var step := C.Step<R>.AllocateTransport(objects[id].router, objects[id].source.None?);
    C.StepKeepsInv(k, step);
    assert IdGenerator.NthId(0, id) == id;
    var msg := W.NewTransport(objects[id].router, id, objects[id].source.None?);
    IssuedBelow(k.log, k.routerIds, id);
    AfterPublish(k, msg, requested);
    ThrewAfterPublish(k, msg, late);
    var k1 := C.Publish(k.(transportIds := id + 1), msg);
    assert k1 == C.Publish(k, msg).(transportIds := id + 1);
  }

  lemma {:induction false} IssuedBelow(log: seq<W.Message>, routerIds: nat, transportIds: nat)
    requires C.IdsIssuedOnce(log, routerIds, transportIds)
    ensures transportIds !in WR.AssignedTransports(log)
    ensures forall r :: 0 <= r < |log| && log[r].NewRouter? ==> log[r].assignedId != routerIds
  {}

  // ----- The coordinator's steps -----

  /** Transport ids are taken in order, each new one requested; nothing that was requested is withdrawn. */
  ghost predicate Extends(c: M.Coordinator, c': M.Coordinator) {
    && c.nextTransport <= c'.nextTransport && c.requested <= c'.requested
    && (forall id :: c.nextTransport <= id < c'.nextTransport ==> id in c'.transportObjects && id in c'.requested)
    && (forall t :: t in c'.transportObjects ==> t in c.transportObjects || c.nextTransport <= t < c'.nextTransport)
    && (forall t :: t in c.transportObjects ==> t in c'.transportObjects)
    && (forall t :: t in c'.transports ==> t in c.transports || c.nextTransport <= t)
  }

  lemma {:induction false} LoopExtends(c: M.Coordinator, router: int, member: int, producer: int, others: seq<int>)
    requires router in c.routerObjects && member in c.memberObjects
    requires forall i :: 0 <= i < |others| ==> others[i] in c.memberObjects
    ensures Extends(c, M.LinkedAll(c, router, member, producer, others))
    decreases |others|
  {
    if others != [] {
      var n := |others| - 1;
      LoopExtends(c, router, member, producer, others[..n]);
      LinkExtends(M.LinkedAll(c, router, member, producer, others[..n]), router, member, producer, others[n]);
    }
  }

  lemma {:induction false} LinkExtends(c: M.Coordinator, router: int, member: int, producer: int, other: int)
    requires router in c.routerObjects && member in c.memberObjects && other in c.memberObjects
    ensures Extends(c, M.Linked(c, router, member, producer, other))
  {
    if other != member {
      TryExtends(c, router, other, producer);
      var c1 := M.TryAllocate(c, router, other, producer);
      if c.memberObjects[other].producer.Some? {
        TryExtends(c1, router, member, c.memberObjects[other].producer.value);
      }
    }
  }

  lemma {:induction false} TryExtends(c: M.Coordinator, router: int, member: int, source: int)
    requires router in c.routerObjects && member in c.memberObjects
    ensures Extends(c, M.TryAllocate(c, router, member, source))
  {}

  lemma {:induction false} CoordinatingExtends(c: M.Coordinator, step: M.Step)
    requires M.Inv(c) && M.Possible(c, step) && !step.Answer?
    ensures Extends(c, MeshResults.Do(c, step))
  {
    match step
    case MeshLoop(member, others) =>
      assert M.MemberOk(c, member);
      var p := c.memberObjects[member].producer.value;
      assert M.TransportOk(c, p);
      LoopExtends(c, c.transportObjects[p].router, member, p, others);
    case _ =>
  }

  /** Only an answer allocates. */
  lemma {:induction false} CoordinatingAllocatesNothing(c: M.Coordinator, step: M.Step, t: int)
    requires M.Inv(c) && M.Possible(c, step) && !step.Answer? && t in MeshResults.Do(c, step).transportObjects
    ensures MeshResults.Do(c, step).transportObjects[t].status != M.Unallocated
            <==> t in c.transportObjects && c.transportObjects[t].status != M.Unallocated
  {
    MeshResults.NewOnesAreUnallocated(c, step, t);
    if t in c.transportObjects { MeshResults.StatusMoves(c, step, t); }
  }

  // ----- Runs -----

  ghost predicate Possible<R>(y: Plane<R>, step: Step<R>)
    requires PlaneOk(y)
  {
    match step
    case Coordinate(step) =>
      && !step.Answer? && M.Possible(y.coordinator, step)
      && MeshResults.Do(y.coordinator, step).nextTransport <= IdGenerator.MAX_COUNTER
    case Settles(j, i, outcome, newRef) => !outcome.AckThrew? && C.Possible(y.cluster, C.Settles(j, i, outcome, newRef))
    case NewRouter(_) => y.cluster.routerIds < IdGenerator.MAX_COUNTER
    case Command(_, _) => true
  }

  /** How the settling of a promise ends for the worker: storing a consumer whose source is gone throws in the ack. */
  ghost function Heard<R>(c: M.Coordinator, job: W.Job<R>, outcome: W.Outcome): W.Outcome {
    if job.CreateTransport? && outcome.Resolved? && SourceGone(c, job.assignedId) then W.AckThrew else outcome
  }

  ghost function Do<R>(y: Plane<R>, step: Step<R>): Plane<R>
    requires PlaneOk(y) && Possible(y, step)
  {
    match step
    case Coordinate(step) =>
      CoordinatingExtends(y.coordinator, step);
      var c := MeshResults.Do(y.coordinator, step);
      Plane(c, Published(y.cluster, c.transportObjects, c.nextTransport), y.late)
    case Settles(j, i, outcome, newRef) =>
      var job := y.cluster.workers[j].jobs[i];
      var heard := Heard(y.coordinator, job, outcome);
      Plane(if job.CreateTransport? then MeshResults.Do(y.coordinator, M.Answer(job.assignedId, outcome.Resolved?))
          else y.coordinator,
            C.Do(y.cluster, C.Settles(j, i, heard, newRef)),
            if heard.AckThrew? then y.late + {job.assignedId} else y.late)
    case NewRouter(workerId) => y.(cluster := C.Do(y.cluster, C.AllocateRouter(workerId)))
    case Command(id, command) => y.(cluster := C.Do(y.cluster, C.Command(id, command)))
  }

  lemma {:induction false} AskedStays(log: seq<W.Message>, objects: map<int, M.Transport>,
                                       objects': map<int, M.Transport>)
    requires AskedOk(log, objects)
    requires forall t :: t in objects ==>
               t in objects' && objects'[t].router == objects[t].router && objects'[t].source == objects[t].source
    ensures AskedOk(log, objects')
  {}

  lemma {:induction false} CoordinatingKeepsOk<R>(y: Plane<R>, step: M.Step)
    requires PlaneOk(y) && Possible(y, Coordinate(step))
    ensures PlaneOk(Do(y, Coordinate(step)))
  {
    var c, k := y.coordinator, y.cluster;
    var c' := MeshResults.Do(c, step);
    CoordinatingExtends(c, step);
    MeshResults.StepKeepsInv(c, step);
    AskedStays(k.log, c.transportObjects, c'.transportObjects);
    LateStays(c, c', y.late);
    PublishingKeeps(k, c'.transportObjects, c'.nextTransport, c'.requested, y.late);
    var k' := Published(k, c'.transportObjects, c'.nextTransport);
    AllThrewStays(k, k', y.late);
    forall t | t in c'.transportObjects ensures c'.transportObjects[t].status != M.Unallocated <==> Lives(k', t) {
      CoordinatingAllocatesNothing(c, step, t);
      LivesTheSame(k, k', t);
      OnlyKnownOnesLive(k, c.transportObjects, t);
    }
  }

  lemma {:induction false} LateStays(c: M.Coordinator, c': M.Coordinator, late: set<int>)
    requires M.Inv(c) && LateOk(c, late) && Extends(c, c') && MeshRuns.ObjectsGrow(c, c')
    ensures LateOk(c', late) && forall t :: t in late ==> t < c.nextTransport
  {
    forall t | t in late ensures SourceGone(c', t) && t < c.nextTransport {
      assert M.TransportOk(c, t) && M.TransportOk(c, c.transportObjects[t].source.value);
    }
  }

  /** What lives on a worker was asked for, so the coordinator knows it. */
  lemma {:induction false} OnlyKnownOnesLive<R>(k: C.Cluster<R>, objects: map<int, M.Transport>, t: int)
    requires C.Inv(k) && AskedOk(k.log, objects)
    ensures Lives(k, t) ==> t in objects
  {
    if Lives(k, t) {
      var j: nat :| LivesOn(k, j, t);
      assert C.WorkerOk(k, j);
      var r: nat :| C.TransportAskedAt(k.log, r, t, k.workers[j].routers.Keys);
    }
  }

  lemma {:induction false} PublishKeepsOk<R>(y: Plane<R>, step: Step<R>)
    requires PlaneOk(y) && Possible(y, step) && (step.NewRouter? || step.Command?)
    ensures PlaneOk(Do(y, step))
  {
    var k := y.cluster;
    var clusterStep := if step.NewRouter? then C.Step<R>.AllocateRouter(step.workerId)
        else C.Step<R>.Command(step.id, step.command);
    C.StepKeepsInv(k, clusterStep);
    assert step.NewRouter? ==> IdGenerator.NthId(0, k.routerIds) == k.routerIds;
    IssuedBelow(k.log, k.routerIds, k.transportIds);
    var msg := if step.NewRouter? then W.NewRouter(k.routerIds, step.workerId) else W.Update(step.id, step.command);
    AfterPublish(k, msg, y.coordinator.requested);
    ThrewAfterPublish(k, msg, y.late);
    var k' := Do(y, step).cluster;
    assert k' == C.Publish(k, msg).(routerIds := k'.routerIds);
    AllThrewStays(k, k', y.late);
    forall t | t in y.coordinator.transportObjects
      ensures y.coordinator.transportObjects[t].status != M.Unallocated <==> Lives(k', t)
    {
      LivesTheSame(k, k', t);
    }
  }

  // ----- A worker's promise settles -----

  /** One transport is being made in one place: the same worker, under the same request. */
  lemma {:induction false} MadeInOnePlace<R>(k: C.Cluster<R>, j: nat, a: W.Job<R>, q: nat, b: W.Job<R>)
    requires C.Inv(k) && j < |k.workers| && q < |k.workers| && a in k.workers[j].jobs && b in k.workers[q].jobs
    requires a.CreateTransport? && b.CreateTransport? && a.assignedId == b.assignedId
    ensures j == q && a.req == b.req
  {
    assert C.WorkerOk(k, j) && C.WorkerOk(k, q);
    var i: nat :| i < |k.workers[j].jobs| && k.workers[j].jobs[i] == a;
    var i': nat :| i' < |k.workers[q].jobs| && k.workers[q].jobs[i'] == b;
    assert C.JobAtHome(k.workers[j], k.log, k.workers[j].jobs[i])
        && C.JobAtHome(k.workers[q], k.log, k.workers[q].jobs[i']);
    AskedOnce(k.log, a.assignedId, a.req, b.req);
    C.RouterHasOneOwner(k, j, q, k.log[a.req].routerId);
  }

  lemma {:induction false} RefsAfterSettlingOne<R>(k: C.Cluster<R>, j: nat, i: nat, outcome: W.Outcome, newRef: R)
    requires C.Inv(k) && C.AllClosed(k) && AllRefsOk(k) && C.Possible(k, C.Settles(j, i, outcome, newRef))
    ensures AllRefsOk(C.Do(k, C.Settles(j, i, outcome, newRef)))
  {
    var k' := C.Do(k, C.Settles(j, i, outcome, newRef));
    assert C.WorkerOk(k, j);
    RefsAfterSettling(C.TraceOf(k, j), i, outcome, newRef);
    forall q | 0 <= q < |k'.workers| ensures RefsOk(k'.workers[q], k'.log) { assert RefsOk(k.workers[q], k.log); }
  }

  /** After the promise that makes transport `id` settled, nothing else makes it. */
  lemma {:induction false} MadeNoMore<R>(k: C.Cluster<R>, j: nat, i: nat, outcome: W.Outcome, newRef: R, q: nat,
                                         job: W.Job<R>)
    requires C.Inv(k) && C.AllClosed(k) && C.Possible(k, C.Settles(j, i, outcome, newRef))
             && k.workers[j].jobs[i].CreateTransport?
    requires var k' := C.Do(k, C.Settles(j, i, outcome, newRef));
             C.Inv(k') && q < |k'.workers| && job in k'.workers[q].jobs && job.CreateTransport?
    ensures job in k.workers[q].jobs && job.assignedId != k.workers[j].jobs[i].assignedId
  {
    var k' := C.Do(k, C.Settles(j, i, outcome, newRef));
    var w, settled := k.workers[j], k.workers[j].jobs[i];
    assert settled in w.jobs && C.WorkerOk(k, j) && C.WorkerOk(k', j);
    C.SettlingIsSmall(w, k.log, i, outcome, newRef);
    if job.assignedId == settled.assignedId {
      MadeInOnePlace(k, j, settled, q, job);
      var a := W.Answer(settled.req, if outcome.Rejected? then W.Nack(W.MediaFailure) else W.AckTransport);
      assert k'.workers[j].answers[|w.answers|] == a;
      WR.AnsweredIsDone(C.TraceOf(k', j), job, a);
    }
  }

  lemma {:induction false} JobsAfterSettling<R>(k: C.Cluster<R>, j: nat, i: nat, outcome: W.Outcome, newRef: R,
                                                requested: set<int>)
    requires C.Inv(k) && C.AllClosed(k) && C.Possible(k, C.Settles(j, i, outcome, newRef))
             && JobsRequested(k, requested)
    requires C.Inv(C.Do(k, C.Settles(j, i, outcome, newRef)))
    ensures var settled := k.workers[j].jobs[i];
            JobsRequested(C.Do(k, C.Settles(j, i, outcome, newRef)),
                          if settled.CreateTransport? then requested - {settled.assignedId} else requested)
  {
    var k' := C.Do(k, C.Settles(j, i, outcome, newRef));
    assert C.WorkerOk(k, j);
    C.SettlingIsSmall(k.workers[j], k.log, i, outcome, newRef);
    var settled := k.workers[j].jobs[i];
    var rest := if settled.CreateTransport? then requested - {settled.assignedId} else requested;
    forall q, job | 0 <= q < |k'.workers| && job in k'.workers[q].jobs && job.CreateTransport?
      ensures job.assignedId in rest
    {
      StillRequested(k, j, i, outcome, newRef, requested, q, job);
    }
  }

  lemma {:induction false} StillRequested<R>(k: C.Cluster<R>, j: nat, i: nat, outcome: W.Outcome, newRef: R,
                                             requested: set<int>,
                                             q: nat, job: W.Job<R>)
    requires C.Inv(k) && C.AllClosed(k) && C.Possible(k, C.Settles(j, i, outcome, newRef))
             && JobsRequested(k, requested)
    requires C.Inv(C.Do(k, C.Settles(j, i, outcome, newRef))) && q < |k.workers|
    requires job in C.Do(k, C.Settles(j, i, outcome, newRef)).workers[q].jobs && job.CreateTransport?
    ensures job.assignedId in requested
    ensures k.workers[j].jobs[i].CreateTransport? ==> job.assignedId != k.workers[j].jobs[i].assignedId
  {
    assert C.WorkerOk(k, j);
    C.SettlingIsSmall(k.workers[j], k.log, i, outcome, newRef);
    if k.workers[j].jobs[i].CreateTransport? { MadeNoMore(k, j, i, outcome, newRef, q, job); }
    assert job in k.workers[q].jobs;
  }

  lemma {:induction false} LivesAfterSettling<R>(k: C.Cluster<R>, j: nat, i: nat, outcome: W.Outcome, newRef: R, t: int)
    requires C.Inv(k) && C.AllClosed(k) && C.Possible(k, C.Settles(j, i, outcome, newRef))
    ensures var settled := k.workers[j].jobs[i];
            Lives(C.Do(k, C.Settles(j, i, outcome, newRef)), t)
            <==> Lives(k, t) || (!outcome.Rejected? && settled.CreateTransport? && settled.assignedId == t)
  {
    var k' := C.Do(k, C.Settles(j, i, outcome, newRef));
    C.SettlingRegisters(k.workers[j], i, outcome, newRef);
    if Lives(k, t) {
      var q: nat :| LivesOn(k, q, t);
      assert LivesOn(k', q, t);
    }
    if Lives(k', t) {
      var q: nat :| LivesOn(k', q, t);
      if t in k.workers[q].transports { assert LivesOn(k, q, t); }
    }
    if t in k'.workers[j].transports { assert LivesOn(k', j, t); }
  }

  lemma {:induction false} SettlingKeepsOk<R>(y: Plane<R>, j: nat, i: nat, outcome: W.Outcome, newRef: R)
    requires PlaneOk(y) && Possible(y, Settles(j, i, outcome, newRef))
    ensures PlaneOk(Do(y, Settles(j, i, outcome, newRef)))
  {
    var c, k := y.coordinator, y.cluster;
    var settled := k.workers[j].jobs[i];
    var heard := Heard(c, settled, outcome);
    C.StepKeepsInv(k, C.Settles(j, i, heard, newRef));
    RefsAfterSettlingOne(k, j, i, heard, newRef);
    JobsAfterSettling(k, j, i, heard, newRef, c.requested);
    ThrewAfterSettling(y, j, i, outcome, newRef);
    if settled.CreateTransport? {
      assert settled.assignedId in c.requested;
      AnswerKeepsHosted(y, j, i, outcome, newRef);
    } else {
      var k' := Do(y, Settles(j, i, outcome, newRef)).cluster;
      forall t | t in c.transportObjects ensures c.transportObjects[t].status != M.Unallocated <==> Lives(k', t) {
        LivesAfterSettling(k, j, i, heard, newRef, t);
      }
    }
  }

  lemma {:induction false} ThrewAfterSettling<R>(y: Plane<R>, j: nat, i: nat, outcome: W.Outcome, newRef: R)
    requires PlaneOk(y) && Possible(y, Settles(j, i, outcome, newRef))
    ensures var y' := Do(y, Settles(j, i, outcome, newRef));
            ThrewOk(y'.cluster, y'.late) && AllThrew(y'.cluster, y'.late)
  {
    var job := y.cluster.workers[j].jobs[i];
    var heard := Heard(y.coordinator, job, outcome);
    var k' := C.Do(y.cluster, C.Settles(j, i, heard, newRef));
    ThrewOnce(y.cluster, j, i, heard, newRef, y.late);
    AllThrewStays(y.cluster, k', y.late);
    if heard.AckThrew? { ThrownIsThere(y.cluster, j, i, heard, newRef); }
  }

  lemma {:induction false} ThrownIsThere<R>(k: C.Cluster<R>, j: nat, i: nat, outcome: W.Outcome, newRef: R)
    requires C.Inv(k) && C.AllClosed(k) && C.Possible(k, C.Settles(j, i, outcome, newRef)) && outcome.AckThrew?
    ensures var job := k.workers[j].jobs[i];
            ThrewAt(C.Do(k, C.Settles(j, i, outcome, newRef)), j, job.req, job.assignedId)
  {
    assert C.WorkerOk(k, j) && C.JobAtHome(k.workers[j], k.log, k.workers[j].jobs[i]);
  }

  /** The ack throws for one request, which one worker took. */
  lemma {:induction false} ThrewOnce<R>(k: C.Cluster<R>, j: nat, i: nat, outcome: W.Outcome, newRef: R, late: set<int>)
    requires C.Inv(k) && C.AllClosed(k) && ThrewOk(k, late) && C.Possible(k, C.Settles(j, i, outcome, newRef))
    ensures ThrewOk(C.Do(k, C.Settles(j, i, outcome, newRef)),
                    if outcome.AckThrew? then late + {k.workers[j].jobs[i].assignedId} else late)
  {
    if outcome.AckThrew? {
      var job := k.workers[j].jobs[i];
      var k' := C.Do(k, C.Settles(j, i, outcome, newRef));
      assert job in k.workers[j].jobs && C.WorkerOk(k, j);
      WR.JobIsTaken(C.TraceOf(k, j), job);
      assert C.JobAtHome(k.workers[j], k.log, job);
      forall q: nat, r: nat | q < |k.workers|
        ensures ThrewRight(k'.log, k'.taken[q], k'.threw[q], late + {job.assignedId}, r)
      {
        ThrewAtOne(k, j, job, late, q, r);
        assert k'.threw[q] == if q == j then k.threw[j] + {job.req} else k.threw[q];
      }
    }
  }

  lemma {:induction false} ThrewAtOne<R>(k: C.Cluster<R>, j: nat, job: W.Job<R>, late: set<int>, q: nat, r: nat)
    requires C.Inv(k) && ThrewOk(k, late) && j < |k.workers| && q < |k.workers|
    requires job.CreateTransport? && job.req in k.taken[j] && job.req < |k.log| && Asks(k.log[job.req], job.assignedId)
    ensures ThrewRight(k.log, k.taken[q], if q == j then k.threw[j] + {job.req} else k.threw[q],
                       late + {job.assignedId}, r)
  {
    assert ThrewRight(k.log, k.taken[q], k.threw[q], late, r);
    if r in k.taken[q] && r < |k.log| && Asks(k.log[r], job.assignedId) {
      AskedOnce(k.log, job.assignedId, r, job.req);
    }
  }

  lemma {:induction false} AnswerKeepsHosted<R>(y: Plane<R>, j: nat, i: nat, outcome: W.Outcome, newRef: R)
    requires PlaneOk(y) && Possible(y, Settles(j, i, outcome, newRef)) && y.cluster.workers[j].jobs[i].CreateTransport?
    requires y.cluster.workers[j].jobs[i].assignedId in y.coordinator.requested
    ensures var y' := Do(y, Settles(j, i, outcome, newRef));
            && M.Inv(y'.coordinator) && HostedOk(y'.cluster, y'.coordinator.transportObjects)
            && AskedOk(y'.cluster.log, y'.coordinator.transportObjects) && LateOk(y'.coordinator, y'.late)
            && y'.coordinator.nextTransport == y.coordinator.nextTransport
            && y'.coordinator.requested == y.coordinator.requested - {y.cluster.workers[j].jobs[i].assignedId}
  {
    var c, k := y.coordinator, y.cluster;
    var job := k.workers[j].jobs[i];
    var c' := MeshResults.Do(c, M.Answer(job.assignedId, outcome.Resolved?));
    MeshResults.StepKeepsInv(c, M.Answer(job.assignedId, outcome.Resolved?));
    AskedStays(k.log, c.transportObjects, c'.transportObjects);
    HostedAfterAnswer(k, c, j, i, Heard(c, job, outcome), newRef);
    LateAfterAnswer(c, job.assignedId, outcome.Resolved?, y.late);
    AnswerMovesOne(c, job.assignedId, outcome.Resolved?, job.assignedId);
  }

  lemma {:induction false} HostedAfterAnswer<R>(k: C.Cluster<R>, c: M.Coordinator, j: nat, i: nat, outcome: W.Outcome,
                                                newRef: R)
    requires C.Inv(k) && C.AllClosed(k) && M.Inv(c) && HostedOk(k, c.transportObjects)
    requires C.Possible(k, C.Settles(j, i, outcome, newRef))
    requires k.workers[j].jobs[i].CreateTransport? && k.workers[j].jobs[i].assignedId in c.requested
    ensures HostedOk(C.Do(k, C.Settles(j, i, outcome, newRef)),
                     MeshResults.Do(c, M.Answer(k.workers[j].jobs[i].assignedId, !outcome.Rejected?)).transportObjects)
  {
    var id := k.workers[j].jobs[i].assignedId;
    var c' := MeshResults.Do(c, M.Answer(id, !outcome.Rejected?));
    var k' := C.Do(k, C.Settles(j, i, outcome, newRef));
    AnswerMovesOne(c, id, !outcome.Rejected?, id);
    forall t | t in c'.transportObjects ensures c'.transportObjects[t].status != M.Unallocated <==> Lives(k', t) {
      LivesAfterSettling(k, j, i, outcome, newRef, t);
      AnswerMovesOne(c, id, !outcome.Rejected?, t);
    }
  }

  lemma {:induction false} LateAfterAnswer(c: M.Coordinator, id: int, ok: bool, late: set<int>)
    requires M.Inv(c) && id in c.requested && LateOk(c, late)
    ensures LateOk(MeshResults.Do(c, M.Answer(id, ok)), if ok && SourceGone(c, id) then late + {id} else late)
  {
    assert M.TransportOk(c, id);
  }

  lemma {:induction false} AnswerMovesOne(c: M.Coordinator, id: int, ok: bool, t: int)
    requires M.Inv(c) && id in c.requested
    ensures var c' := MeshResults.Do(c, M.Answer(id, ok));
            && c'.transportObjects.Keys == c.transportObjects.Keys
            && c'.requested == c.requested - {id} && c'.nextTransport == c.nextTransport
            && (t in c.transportObjects ==>
                  (c'.transportObjects[t].status != M.Unallocated <==>
                      c.transportObjects[t].status != M.Unallocated || (ok && t == id)))
  {
    assert M.TransportOk(c, id);
  }

  // ----- The results -----

  lemma {:induction false} StepKeepsOk<R>(y: Plane<R>, step: Step<R>)
    requires PlaneOk(y) && Possible(y, step)
    ensures PlaneOk(Do(y, step))
  {
    match step
    case Coordinate(s) => CoordinatingKeepsOk(y, s);
    case Settles(j, i, outcome, newRef) => SettlingKeepsOk(y, j, i, outcome, newRef);
    case NewRouter(_) => PublishKeepsOk(y, step);
    case Command(_, _) => PublishKeepsOk(y, step);
  }

  ghost function Initial<R>(workerIds: seq<int>): Plane<R> {
    Plane(M.Empty(), C.Initial(workerIds), {})
  }

  lemma {:induction false} InitialOk<R>(workerIds: seq<int>)
    requires C.Distinct(workerIds)
    ensures PlaneOk(Initial<R>(workerIds))
  {
    C.EveryRunKeepsInv<R>(workerIds, []);
    assert C.Run<R>(workerIds, []) == Some(C.Initial(workerIds));
  }

  ghost function Run<R>(workerIds: seq<int>, steps: seq<Step<R>>): (y: Option<Plane<R>>)
    requires C.Distinct(workerIds)
    ensures y.Some? ==> PlaneOk(y.value)
    decreases |steps|
  {
    if steps == [] then InitialOk<R>(workerIds); Some(Initial(workerIds))
    else
      match Run(workerIds, steps[..|steps| - 1])
      case None => None
      case Some(y) =>
        var step := steps[|steps| - 1];
        if !Possible(y, step) then None else StepKeepsOk(y, step); Some(Do(y, step))
  }

  /** In every run, a coordinator transport that is not unallocated lives on exactly one worker, on the router object of
      the router id it was allocated on; an unallocated one lives on none. */
  lemma {:induction false} AllocatedLivesOnExactlyOneWorker<R>(workerIds: seq<int>, steps: seq<Step<R>>, t: int)
    requires C.Distinct(workerIds)
    ensures match Run(workerIds, steps)
            case None => true
            case Some(y) => t in y.coordinator.transportObjects ==> HostedRight(y, t)
  {
    var run := Run(workerIds, steps);
    if run.Some? && t in run.value.coordinator.transportObjects {
      var y := run.value;
      if y.coordinator.transportObjects[t].status == M.Unallocated {
        forall j: nat | j < |y.cluster.workers| ensures t !in y.cluster.workers[j].transports {
          assert !LivesOn(y.cluster, j, t);
        }
      } else {
        var j := Host(y, t);
      }
    }
  }

  ghost predicate HostedRight<R>(y: Plane<R>, t: int)
    requires t in y.coordinator.transportObjects
  {
    var v, workers := y.coordinator.transportObjects[t], y.cluster.workers;
    if v.status == M.Unallocated then forall j :: 0 <= j < |workers| ==> t !in workers[j].transports
    else exists j: nat :: j < |workers| && OnItsRouter(workers[j], t, v.router)
                          && forall q :: 0 <= q < |workers| && t in workers[q].transports ==> q == j
  }

  ghost predicate OnItsRouter<R>(w: W.Worker<R>, t: int, router: int) {
    t in w.transports && router in w.routers && w.transports[t].router == w.routers[router]
  }

  lemma {:induction false} Host<R>(y: Plane<R>, t: int) returns (j: nat)
    requires PlaneOk(y) && t in y.coordinator.transportObjects
             && y.coordinator.transportObjects[t].status != M.Unallocated
    ensures j < |y.cluster.workers| && OnItsRouter(y.cluster.workers[j], t, y.coordinator.transportObjects[t].router)
    ensures forall q :: 0 <= q < |y.cluster.workers| && t in y.cluster.workers[q].transports ==> q == j
  {
    var k := y.cluster;
    assert Lives(k, t);
    j :| LivesOn(k, j, t);
    assert C.WorkerOk(k, j);
    var r: nat :| C.TransportAskedAt(k.log, r, t, k.workers[j].routers.Keys);
    assert Asks(k.log[r], t) && RefsOk(k.workers[j], k.log);
    forall q | 0 <= q < |k.workers| && t in k.workers[q].transports ensures q == j {
      C.TransportHasOneOwner(k, q, j, t);
    }
  }

  /** The worker starts or buffers the consume: the named source is on the same router object. */
  ghost predicate AcceptsConsume<R>(w: W.Worker<R>, req: nat, t: int, p: int)
    requires W.Closed(w)
  {
    && t in w.transports && p in w.transports && w.transports[p].router == w.transports[t].router
    && W.Deliver(w, req, W.Update(t, W.Consume(p)))
       == W.ConsumeRequested(w, W.PendingConsume(req, w.transports[t], w.transports[p]))
  }

  /** The worker that hosts a consumer transport, given a consume command about it that names the producer transport `p`
      it was allocated for, starts or buffers the consume exactly when `p` is allocated; otherwise it nacks.  The
      dispatcher does not look at `p`'s status before it sends the command. */
  lemma {:induction false} ConsumeAcceptedExactlyWhenSourceAllocated<R>(workerIds: seq<int>, steps: seq<Step<R>>,
                                                                        t: int, p: int, req: nat)
    requires C.Distinct(workerIds)
    ensures match Run(workerIds, steps)
            case None => true
            case Some(y) => ConsumerOf(y, t, p) ==> ConsumeDecided(y, t, p, req)
  {
    var run := Run(workerIds, steps);
    if run.Some? && ConsumerOf(run.value, t, p) { DecideConsume(run.value, t, p, req); }
  }

  /** `t` is an allocated transport that consumes from `p`. */
  ghost predicate ConsumerOf<R>(y: Plane<R>, t: int, p: int) {
    var objects := y.coordinator.transportObjects;
    t in objects && objects[t].status != M.Unallocated && objects[t].source == Some(p)
  }

  ghost predicate ConsumeDecided<R>(y: Plane<R>, t: int, p: int, req: nat) {
    p in y.coordinator.transportObjects && exists j: nat :: DecidedAt(y, t, p, req, j)
  }

  ghost predicate DecidedAt<R>(y: Plane<R>, t: int, p: int, req: nat, j: nat)
    requires p in y.coordinator.transportObjects
  {
    && j < |y.cluster.workers| && t in y.cluster.workers[j].transports && W.Closed(y.cluster.workers[j])
    && if y.coordinator.transportObjects[p].status != M.Unallocated then AcceptsConsume(y.cluster.workers[j], req, t, p)
       else W.Deliver(y.cluster.workers[j], req, W.Update(t, W.Consume(p)))
            == W.Answered(y.cluster.workers[j], req, W.Nack(W.ProducingTransportNotFound))
  }

  lemma {:induction false} DecideConsume<R>(y: Plane<R>, t: int, p: int, req: nat)
    requires PlaneOk(y) && ConsumerOf(y, t, p)
    ensures ConsumeDecided(y, t, p, req)
  {
    assert M.TransportOk(y.coordinator, t);
    var j := Host(y, t);
    assert t in y.cluster.workers[j].transports;
    if y.coordinator.transportObjects[p].status != M.Unallocated {
      SourceOnTheSameRouter(y, t, p, j, req);
    } else {
      SourceIsNowhere(y, p, j);
    }
    assert DecidedAt(y, t, p, req, j);
  }

  lemma {:induction false} SourceIsNowhere<R>(y: Plane<R>, p: int, j: nat)
    requires PlaneOk(y) && p in y.coordinator.transportObjects && j < |y.cluster.workers|
    requires y.coordinator.transportObjects[p].status == M.Unallocated
    ensures p !in y.cluster.workers[j].transports
  {
    assert !LivesOn(y.cluster, j, p);
  }

  lemma {:induction false} SourceOnTheSameRouter<R>(y: Plane<R>, t: int, p: int, j: nat, req: nat)
    requires PlaneOk(y) && t in y.coordinator.transportObjects && p in y.coordinator.transportObjects
    requires y.coordinator.transportObjects[p].status != M.Unallocated
    requires y.coordinator.transportObjects[p].router == y.coordinator.transportObjects[t].router
    requires j < |y.cluster.workers| && OnItsRouter(y.cluster.workers[j], t, y.coordinator.transportObjects[t].router)
    ensures AcceptsConsume(y.cluster.workers[j], req, t, p)
  {
    var q := Host(y, p);
    C.RouterHasOneOwner(y.cluster, j, q, y.coordinator.transportObjects[t].router);
  }

  /** How often all the workers together answered message `r`. */
  ghost function AnswersTo<R>(workers: seq<W.Worker<R>>, r: nat): nat {
    if workers == [] then 0
    else AnswersTo(workers[..|workers| - 1], r) + WR.AnswerRequests(workers[|workers| - 1].answers)[r]
  }

  lemma {:induction false} OneWorkerAnswers<R>(workers: seq<W.Worker<R>>, r: nat, j: nat)
    requires j < |workers|
    requires forall q :: 0 <= q < |workers| && q != j ==> WR.AnswerRequests(workers[q].answers)[r] == 0
    ensures AnswersTo(workers, r) == WR.AnswerRequests(workers[j].answers)[r]
    decreases |workers|
  {
    var n := |workers| - 1;
    if j < n {
      OneWorkerAnswers(workers[..n], r, j);
    } else {
      NobodyAnswers(workers[..n], r);
    }
  }

  lemma {:induction false} NobodyAnswers<R>(workers: seq<W.Worker<R>>, r: nat)
    requires forall q :: 0 <= q < |workers| ==> WR.AnswerRequests(workers[q].answers)[r] == 0
    ensures AnswersTo(workers, r) == 0
    decreases |workers|
  {
    if workers != [] { NobodyAnswers(workers[..|workers| - 1], r); }
  }

  lemma {:induction false} AnswersAreCounted<R>(k: C.Cluster<R>, late: set<int>, r: nat)
    requires C.Inv(k) && ThrewOk(k, late)
    ensures var answers := AnswersTo(k.workers, r);
            && answers <= 2
            && (answers == 2 ==> AsksLate(k.log, late, r))
            && (answers > 0 ==> exists j: nat :: j < |k.workers| && r in k.taken[j])
  {
    if j: nat :| j < |k.workers| && WR.AnswerRequests(k.workers[j].answers)[r] > 0 {
      assert C.WorkerOk(k, j) && WR.CountOk(C.TraceOf(k, j), r) && ThrewRight(k.log, k.taken[j], k.threw[j], late, r);
      forall q | 0 <= q < |k.workers| && q != j ensures WR.AnswerRequests(k.workers[q].answers)[r] == 0 {
        assert C.WorkerOk(k, q) && WR.CountOk(C.TraceOf(k, q), r);
      }
      OneWorkerAnswers(k.workers, r, j);
    } else {
      NobodyAnswers(k.workers, r);
    }
  }

  lemma {:induction false} ThrownAreAnsweredTwice<R>(k: C.Cluster<R>, j: nat, r: nat)
    requires C.Inv(k) && j < |k.workers| && r in k.threw[j]
    ensures AnswersTo(k.workers, r) == 2
  {
    assert C.WorkerOk(k, j) && WR.CountOk(C.TraceOf(k, j), r);
    forall q | 0 <= q < |k.workers| && q != j ensures WR.AnswerRequests(k.workers[q].answers)[r] == 0 {
      assert C.WorkerOk(k, q) && WR.CountOk(C.TraceOf(k, q), r);
    }
    OneWorkerAnswers(k.workers, r, j);
  }

  lemma {:induction false} LateAreAnsweredTwice<R>(y: Plane<R>, r: nat)
    requires PlaneOk(y)
    requires AsksLate(y.cluster.log, y.late, r)
    ensures AnswersTo(y.cluster.workers, r) == 2
  {
    var t := y.cluster.log[r].assignedId;
    assert ThrewFor(y.cluster, t);
    var j: nat, q: nat :| ThrewAt(y.cluster, j, q, t);
    AskedOnce(y.cluster.log, t, r, q);
    ThrownAreAnsweredTwice(y.cluster, j, r);
  }

  /** Answers over the fan-out, all workers together, in every run: a message is answered at most twice, and twice
      exactly when it asked for a consumer transport whose source's record was gone when the acknowledgement came.
      Such a transport stays allocated and its source stays gone. */
  lemma {:induction false} AnsweredTwiceExactlyWhenSourceWasGone<R>(workerIds: seq<int>, steps: seq<Step<R>>, r: nat)
    requires C.Distinct(workerIds)
    ensures match Run(workerIds, steps)
            case None => true
            case Some(y) =>
              && AnswersTo(y.cluster.workers, r) <= 2
              && (AnswersTo(y.cluster.workers, r) == 2
                  <==> AsksLate(y.cluster.log, y.late, r))
              && forall t :: t in y.late ==>
                   t in y.coordinator.transportObjects && y.coordinator.transportObjects[t].status != M.Unallocated
                   && SourceGone(y.coordinator, t)
  {
    var run := Run(workerIds, steps);
    if run.Some? {
      var y := run.value;
      AnswersAreCounted(y.cluster, y.late, r);
      if AsksLate(y.cluster.log, y.late, r) {
        LateAreAnsweredTwice(y, r);
      }
    }
  }

  /** What makes a transport late: its acknowledgement runs while its source's record is gone, and nothing else. */
  lemma {:induction false} LateExactlyWhenAckedTooLate<R>(y: Plane<R>, step: Step<R>, t: int)
    requires PlaneOk(y) && Possible(y, step)
    ensures t in Do(y, step).late && t !in y.late
            <==> step.Settles? && step.outcome.Resolved?
                 && var job := y.cluster.workers[step.worker].jobs[step.i];
                    job.CreateTransport? && job.assignedId == t && SourceGone(y.coordinator, t)
  {
    if step.Settles? && y.cluster.workers[step.worker].jobs[step.i].CreateTransport? {
      var job := y.cluster.workers[step.worker].jobs[step.i];
      assert job in y.cluster.workers[step.worker].jobs && job.assignedId in y.coordinator.requested;
    }
  }
}
