/** What becomes of each update over every run, told from how it arrived, and when a transport is connected, told from
    what the workers answered. */
module DispatchHistory {
  import opened Common
  import D = Dispatch
  import opened DispatchRuns
  import IdGenerator
  import M = Mesh
  import MeshResults
  import W = WorkerModel
  import WR = WorkerRuns
  import WS = WorkerSources
  import C = Cluster
  import P = MediaPlane

  // ----- How an update arrives, and where it goes -----

  predicate Connects(update: D.Update) {
    update.ProducerConnect? || update.ConsumerConnect?
  }

  /** A connect of a present member whose transport was connected on arrival. */
  predicate GoesSilent(a: Arrival) {
    a.known && a.present && Connects(a.update) && a.status == Some(M.Connected)
  }

  /** The member is present and holds an allocated transport for it, a consume has its source member present, and it is
      no connect of a connected transport. */
  predicate GoesOut(a: Arrival) {
    && a.known && a.present && a.status.Some? && a.status != Some(M.Unallocated)
    && (a.update.ConsumerConsume? ==> a.sourcePresent)
    && !(Connects(a.update) && a.status == Some(M.Connected))
  }

  /** The command type that goes out for an update. */
  predicate Carries(update: D.Update, command: W.Command) {
    match update
    case ProducerConnect(_) => command.Connect?
    case ConsumerConnect(_, _) => command.Connect?
    case ProducerProduce(_) => command.Produce?
    case ConsumerConsume(_, _) => command.Consume?
    case ConsumerResume(_, _) => command.Resume?
    case _ => false
  }

  ghost predicate FateOk<R>(d: Desk<R>, u: nat)
    requires u < |d.arrived|
  {
    var a := d.arrived[u];
    && (u in d.ignored <==> a.update.FromCoordinator?)
    && (u in d.silent <==> GoesSilent(a))
    && (u in d.sent <==> GoesOut(a))
    && (u in d.sent ==> SentAs(d.plane.cluster.log, d.sent[u], a))
  }

  ghost predicate SentAs(log: seq<W.Message>, r: nat, a: Arrival) {
    && r < |log| && log[r].Update? && a.transport == Some(log[r].id) && Carries(a.update, log[r].command)
  }

  ghost predicate FatesOk<R>(d: Desk<R>) {
    forall u: nat :: u < |d.arrived| ==> FateOk(d, u)
  }

  /** The handler's decision, told from the arrival. */
  lemma {:induction false} DecidedByArrival(c: M.Coordinator, known: bool, space: string, update: D.Update)
    requires M.Inv(c)
    ensures D.MembersIn(c, space) <= c.memberObjects.Keys
    ensures var decision, a := D.Decide(c, known, space, update), ArrivalOf(c, known, space, update);
            && (decision.Ignored? <==> update.FromCoordinator?)
            && (decision.Silent? <==> GoesSilent(a))
            && (decision.Commanded? <==> GoesOut(a))
            && (decision.Commanded? ==>
                  a.transport == Some(decision.command.transport) && Carries(update, ToWorker(decision.command.kind)))
  {
    D.DecisionsAreSound(c, known, space, update);
    if known && !update.FromCoordinator? && !update.UnknownUpdate? && update.member in D.MembersIn(c, space) {
      assert M.MemberOk(c, update.member);
      if HasSource(update) && update.source in c.memberObjects[update.member].consumers {
        assert M.ConsumerOk(c, update.member, update.source, c.memberObjects[update.member].consumers[update.source]);
      }
    }
  }

  lemma {:induction false} FatesAfterReceiving<R>(d: Desk<R>, space: string, update: D.Update)
    requires DeskOk(d) && FatesOk(d)
    ensures FatesOk(Received(d, space, update))
  {
    var c := d.plane.coordinator;
    D.DecisionsAreSound(c, space in d.known, space, update);
    DecidedByArrival(c, space in d.known, space, update);
    FatesAfterApplying(d, ArrivalOf(c, space in d.known, space, update), D.Decide(c, space in d.known, space, update));
  }

  lemma {:induction false} FatesAfterApplying<R>(d: Desk<R>, a: Arrival, decision: D.Decision)
    requires DeskOk(d) && FatesOk(d) && !decision.Throws?
    requires decision.Ignored? <==> a.update.FromCoordinator?
    requires decision.Silent? <==> GoesSilent(a)
    requires decision.Commanded? <==> GoesOut(a)
    requires decision.Commanded? ==>
               a.transport == Some(decision.command.transport) && Carries(a.update, ToWorker(decision.command.kind))
    ensures FatesOk(Applied(d, a, decision))
  {
    var d' := Applied(d, a, decision);
    assert |d'.arrived| == |d.arrived| + 1;
    forall u: nat | u < |d'.arrived| ensures FateOk(d', u) {
      if u < |d.arrived| { OldFate(d, a, decision, u); } else { NewFate(d, a, decision); }
    }
  }

  lemma {:induction false} OldFate<R>(d: Desk<R>, a: Arrival, decision: D.Decision, u: nat)
    requires P.PlaneOk(d.plane) && FatesOk(d) && !decision.Throws? && u < |d.arrived|
    ensures FateOk(Applied(d, a, decision), u)
  {
    assert FateOk(d, u) && Applied(d, a, decision).arrived[u] == d.arrived[u];
  }

  lemma {:induction false} NewFate<R>(d: Desk<R>, a: Arrival, decision: D.Decision)
    requires P.PlaneOk(d.plane) && Sorted(d) && !decision.Throws?
    requires decision.Ignored? <==> a.update.FromCoordinator?
    requires decision.Silent? <==> GoesSilent(a)
    requires decision.Commanded? <==> GoesOut(a)
    requires decision.Commanded? ==>
               a.transport == Some(decision.command.transport) && Carries(a.update, ToWorker(decision.command.kind))
    ensures FateOk(Applied(d, a, decision), |d.arrived|)
  {
    var u := |d.arrived|;
    assert Place(d.ignored, d.silent, d.rejected, d.sent.Keys, u) == D.One(u < |d.arrived|);
  }

  lemma {:induction false} FatesStay<R>(d: Desk<R>, d': Desk<R>)
    requires FatesOk(d) && d'.arrived == d.arrived
    requires d'.ignored == d.ignored && d'.silent == d.silent && d'.sent == d.sent
    requires d.plane.cluster.log <= d'.plane.cluster.log
    ensures FatesOk(d')
  {
    forall u: nat | u < |d'.arrived| ensures FateOk(d', u) { assert FateOk(d, u); }
  }

  // ----- Connected, and acknowledged by a worker -----

  /** The answer acknowledges a command to connect transport `t`. */
  ghost predicate AcksConnect(a: W.Answer, log: seq<W.Message>, t: int) {
    a.reply == W.AckDone && a.req < |log| && log[a.req] == W.Update(t, W.Connect)
  }

  ghost predicate ConnectAcked<R>(k: C.Cluster<R>, t: int) {
    exists j, a :: 0 <= j < |k.workers| && a in k.workers[j].answers && AcksConnect(a, k.log, t)
  }

  ghost predicate ConnectedOk<R>(y: P.Plane<R>) {
    forall t :: t in y.coordinator.transportObjects ==>
      (y.coordinator.transportObjects[t].status == M.Connected <==> ConnectAcked(y.cluster, t))
  }

  ghost predicate HistoryOk<R>(d: Desk<R>) {
    FatesOk(d) && ConnectedOk(d.plane)
  }

  /** Every answer is to a message in the log. */
  lemma {:induction false} AnswersAreLogged<R>(k: C.Cluster<R>)
    requires C.Inv(k)
    ensures forall j, a :: 0 <= j < |k.workers| && a in k.workers[j].answers ==> a.req < |k.log|
  {
    forall j, a | 0 <= j < |k.workers| && a in k.workers[j].answers ensures a.req < |k.log| {
      assert C.WorkerOk(k, j);
    }
  }

  /** When no new answer acknowledges a connect, the same connects are acknowledged. */
  lemma {:induction false} AcksStay<R>(k: C.Cluster<R>, k': C.Cluster<R>, t: int)
    requires C.Inv(k) && Continues(k, k')
    requires forall j, a :: 0 <= j < |k.workers| && a in k'.workers[j].answers && a !in k.workers[j].answers ==>
               !AcksConnect(a, k'.log, t)
    ensures ConnectAcked(k', t) <==> ConnectAcked(k, t)
  {
    AnswersAreLogged(k);
    if ConnectAcked(k, t) {
      var j, a :| 0 <= j < |k.workers| && a in k.workers[j].answers && AcksConnect(a, k.log, t);
      ExtendedKeeps(k.workers[j].answers, k'.workers[j].answers, a);
      assert AcksConnect(a, k'.log, t);
    }
    if ConnectAcked(k', t) {
      var j, a :| 0 <= j < |k'.workers| && a in k'.workers[j].answers && AcksConnect(a, k'.log, t);
      assert AcksConnect(a, k.log, t);
    }
  }

  /** Connects are acknowledged for known, allocated transports only. */
  lemma {:induction false} AckedIsAllocated<R>(y: P.Plane<R>, t: int)
    requires LogOk(y) && ConnectAcked(y.cluster, t)
    ensures t in y.coordinator.transportObjects && y.coordinator.transportObjects[t].status != M.Unallocated
  {
    var k := y.cluster;
    var j, a :| 0 <= j < |k.workers| && a in k.workers[j].answers && AcksConnect(a, k.log, t);
    assert CommandLogged(y, a.req);
  }

  lemma {:induction false} QuietKeepsConnected<R>(y: P.Plane<R>, y': P.Plane<R>, step: M.Step)
    requires P.PlaneOk(y) && LogOk(y) && ConnectedOk(y) && Quiet(y.cluster, y'.cluster)
    requires M.Possible(y.coordinator, step) && !step.Connect? && y'.coordinator == MeshResults.Do(y.coordinator, step)
    ensures ConnectedOk(y')
  {
    forall t | t in y'.coordinator.transportObjects
      ensures y'.coordinator.transportObjects[t].status == M.Connected <==> ConnectAcked(y'.cluster, t)
    {
      D.NothingElseConnects(y.coordinator, step, t);
      AcksStay(y.cluster, y'.cluster, t);
      if ConnectAcked(y.cluster, t) { AckedIsAllocated(y, t); }
    }
  }

  lemma {:induction false} CoordinatingKeepsConnected<R>(y: P.Plane<R>, step: M.Step)
    requires P.PlaneOk(y) && LogOk(y) && ConnectedOk(y) && P.Possible(y, P.Coordinate(step)) && !step.Connect?
    ensures ConnectedOk(P.Do(y, P.Coordinate(step)))
  {
    var y' := P.Do(y, P.Coordinate(step));
    P.CoordinatingExtends(y.coordinator, step);
    MeshResults.StepKeepsInv(y.coordinator, step);
    PublishedQuietly(y.cluster, y'.coordinator.transportObjects, y'.coordinator.nextTransport);
    QuietKeepsConnected(y, y', step);
  }

  lemma {:induction false} SameCoordinatorKeepsConnected<R>(y: P.Plane<R>, y': P.Plane<R>)
    requires P.PlaneOk(y) && ConnectedOk(y) && y'.coordinator == y.coordinator && Continues(y.cluster, y'.cluster)
    requires forall j, a ::
               (0 <= j < |y.cluster.workers| && a in y'.cluster.workers[j].answers && a !in y.cluster.workers[j].answers
                ==> a.reply != W.AckDone)
    ensures ConnectedOk(y')
  {
    forall t | t in y'.coordinator.transportObjects
      ensures y'.coordinator.transportObjects[t].status == M.Connected <==> ConnectAcked(y'.cluster, t)
    {
      AcksStay(y.cluster, y'.cluster, t);
    }
  }

  lemma {:induction false} NewRouterKeepsConnected<R>(y: P.Plane<R>, workerId: int)
    requires P.PlaneOk(y) && ConnectedOk(y) && P.Possible(y, P.NewRouter(workerId))
    ensures ConnectedOk(P.Do(y, P.NewRouter(workerId)))
  {
    var k := y.cluster;
    var y' := P.Do(y, P.NewRouter(workerId));
    QuietPublish(k.(routerIds := k.routerIds + 1), W.NewRouter(IdGenerator.NthId(0, k.routerIds), workerId));
    assert Quiet(k, y'.cluster);
    SameCoordinatorKeepsConnected(y, y');
  }

  /** No command is acknowledged on arrival. */
  lemma {:induction false} NothingDoneOnArrival<R>(w: W.Worker<R>, req: nat, msg: W.Message)
    requires W.Closed(w)
    ensures forall a :: a in W.Deliver(w, req, msg).answers ==> a in w.answers || a.reply != W.AckDone
  {}

  lemma {:induction false} CommandingKeepsConnected<R>(y: P.Plane<R>, command: D.Command)
    requires P.PlaneOk(y) && ConnectedOk(y)
    ensures ConnectedOk(P.Do(y, P.Command(command.transport, ToWorker(command.kind))))
  {
    var k, msg := y.cluster, W.Update(command.transport, ToWorker(command.kind));
    PublishContinues(k, msg);
    forall j | 0 <= j < |k.workers|
      ensures forall a :: a in C.Publish(k, msg).workers[j].answers ==>
                a in k.workers[j].answers || a.reply != W.AckDone
    {
      NothingDoneOnArrival(k.workers[j], |k.log|, msg);
    }
    SameCoordinatorKeepsConnected(y, P.Do(y, P.Command(command.transport, ToWorker(command.kind))));
  }

  // ----- Settling -----

  /** Settling acknowledges with `done` exactly a connect or a resume that succeeded, under its own request. */
  lemma {:induction false} DoneBySettling<R>(w: W.Worker<R>, log: seq<W.Message>, i: nat, outcome: W.Outcome, newRef: R)
    requires WR.Sound(w, log) && i < |w.jobs| && newRef !in w.heap && (outcome.AckThrew? ==> w.jobs[i].CreateTransport?)
    ensures var w', job := W.Settle(w, i, outcome, newRef), w.jobs[i];
            && (forall a :: a in w'.answers ==>
                  || a in w.answers || a.reply != W.AckDone
                  || (outcome.Resolved? && (job.Connecting? || job.Resuming?) && a.req == job.req))
            && (outcome.Resolved? && job.Connecting? ==> W.Answer(job.req, W.AckDone) in w'.answers)
  {
    var w1, job := W.WithoutJob(w, i), w.jobs[i];
    if outcome.Resolved? && job.Producing? {
      WR.SoundAfterDroppingJob(w, log, i);
      assert WR.JobOk(w.heap, w.transports, log, job);
      WR.ProducedStartsTheBuffer(w1, log, job.req, job.transport, outcome.mediaId);
    } else if outcome.Resolved? && job.Connecting? {
      assert W.Settle(w, i, outcome, newRef).answers[|w.answers|] == W.Answer(job.req, W.AckDone);
    }
  }

  /** A settling acknowledges a connect exactly when it settles it well. */
  lemma {:induction false} AcksAfterSettling<R>(y: P.Plane<R>, step: P.Step<R>, t: int)
    requires P.PlaneOk(y) && P.Possible(y, step) && step.Settles?
    ensures ConnectAcked(P.Do(y, step).cluster, t) <==> ConnectAcked(y.cluster, t) || Connecting(y, step) == Some(t)
  {
    var k, j, i := y.cluster, step.worker, step.i;
    var w, job := k.workers[j], k.workers[j].jobs[i];
    var heard := P.Heard(y.coordinator, job, step.outcome);
    var k' := C.Do(k, C.Settles(j, i, heard, step.newRef));
    assert C.WorkerOk(k, j) && job in w.jobs && WS.JobSourced(w, k.log, job);
    SettlingContinues(k, j, i, heard, step.newRef);
    DoneBySettling(w, k.log, i, heard, step.newRef);
    if Connecting(y, step) == Some(t) {
      assert AcksConnect(W.Answer(job.req, W.AckDone), k'.log, t);
    } else {
      AcksStay(k, k', t);
    }
  }

  lemma {:induction false} SettlingKeepsConnected<R>(y: P.Plane<R>, step: P.Step<R>)
    requires P.PlaneOk(y) && LogOk(y) && ConnectedOk(y) && P.Possible(y, step) && step.Settles?
    ensures ConnectedOk(Moved(y, step))
  {
    var c, y' := y.coordinator, Moved(y, step);
    forall t | t in y'.coordinator.transportObjects
      ensures y'.coordinator.transportObjects[t].status == M.Connected <==> ConnectAcked(y'.cluster, t)
    {
      AcksAfterSettling(y, step, t);
      StatusAfterSettling(y, step, t);
      if ConnectAcked(y.cluster, t) { AckedIsAllocated(y, t); }
    }
  }

  /** A settling connects exactly the transport whose connect it settles well. */
  lemma {:induction false} StatusAfterSettling<R>(y: P.Plane<R>, step: P.Step<R>, t: int)
    requires P.PlaneOk(y) && LogOk(y) && P.Possible(y, step) && step.Settles?
    requires t in Moved(y, step).coordinator.transportObjects
    ensures Moved(y, step).coordinator.transportObjects[t].status == M.Connected
            <==> || (t in y.coordinator.transportObjects && y.coordinator.transportObjects[t].status == M.Connected)
                 || Connecting(y, step) == Some(t)
  {
    var c, job := y.coordinator, y.cluster.workers[step.worker].jobs[step.i];
    if job.CreateTransport? {
      assert job in y.cluster.workers[step.worker].jobs && job.assignedId in c.requested;
      D.NothingElseConnects(c, M.Answer(job.assignedId, step.outcome.Resolved?), t);
    } else if Connecting(y, step).Some? {
      assert CommandLogged(y, job.req);
    }
  }

  // ----- Every run -----

  lemma {:induction false} MovingKeepsConnected<R>(y: P.Plane<R>, step: P.Step<R>)
    requires P.PlaneOk(y) && LogOk(y) && ConnectedOk(y) && P.Possible(y, step) && !step.Command?
    requires !(step.Coordinate? && step.step.Connect?)
    ensures ConnectedOk(Moved(y, step))
  {
    match step
    case Coordinate(s) => CoordinatingKeepsConnected(y, s);
    case NewRouter(workerId) => NewRouterKeepsConnected(y, workerId);
    case Settles(_, _, _, _) => SettlingKeepsConnected(y, step);
  }

  lemma {:induction false} EventKeepsHistory<R>(d: Desk<R>, e: Event<R>)
    requires DeskOk(d) && HistoryOk(d) && Possible(d, e)
    ensures HistoryOk(Do(d, e))
  {
    match e
    case Happens(step) =>
      MovingKeepsConnected(d.plane, step);
      MovingKeeps(d.plane, step, d.early);
      FatesStay(d, Do(d, e));
    case Create(space) => FatesStay(d, Do(d, e));
    case Receive(space, update) =>
      FatesAfterReceiving(d, space, update);
      ReceivingKeepsConnected(d, space, update);
  }

  lemma {:induction false} ReceivingKeepsConnected<R>(d: Desk<R>, space: string, update: D.Update)
    requires DeskOk(d) && ConnectedOk(d.plane)
    ensures ConnectedOk(Received(d, space, update).plane)
  {
    var c := d.plane.coordinator;
    D.DecisionsAreSound(c, space in d.known, space, update);
    ApplyingKeepsConnected(d, ArrivalOf(c, space in d.known, space, update),
                           D.Decide(c, space in d.known, space, update));
  }

  lemma {:induction false} ApplyingKeepsConnected<R>(d: Desk<R>, a: Arrival, decision: D.Decision)
    requires P.PlaneOk(d.plane) && ConnectedOk(d.plane) && !decision.Throws?
    ensures ConnectedOk(Applied(d, a, decision).plane)
  {
    if decision.Commanded? { CommandingKeepsConnected(d.plane, decision.command); }
  }

  lemma {:induction false} EveryRunKeepsHistory<R>(workerIds: seq<int>, events: seq<Event<R>>)
    requires C.Distinct(workerIds)
    ensures Run(workerIds, events).Some? ==> HistoryOk(Run(workerIds, events).value)
    decreases |events|
  {
    if events != [] {
      EveryRunKeepsHistory(workerIds, events[..|events| - 1]);
      var before := Run(workerIds, events[..|events| - 1]);
      if before.Some? && Possible(before.value, events[|events| - 1]) {
        EventKeepsHistory(before.value, events[|events| - 1]);
      }
    }
  }

  // ----- The results -----

  /** In every run, where an update went is told from how it arrived: ignored exactly when it comes from the
      coordinator, silent exactly when it was a connect of a present member whose transport was connected on arrival,
      and passed on, about the transport found and with its own command type, exactly when the guards let it through. */
  lemma {:induction false} SilentExactlyWhenConnectedOnArrival<R>(workerIds: seq<int>,
                                                                  events: seq<Event<R>>, u: nat)
    requires C.Distinct(workerIds)
    ensures match Run(workerIds, events)
            case None => true
            case Some(d) =>
              u < |d.arrived| ==> FateOk(d, u) && (u in d.silent <==> GoesSilent(d.arrived[u]))
  {
    EveryRunKeepsHistory(workerIds, events);
  }

  /** So in every run, once no media call is outstanding, an update has no answer exactly when it came from the
      coordinator, was a connect of a present member whose transport was connected on arrival, or is a consume whose
      source was allocated when it was passed on and still has no producer. */
  lemma {:induction false} UnansweredToldByArrival<R>(workerIds: seq<int>, events: seq<Event<R>>, u: nat)
    requires C.Distinct(workerIds)
    ensures match Run(workerIds, events)
            case None => true
            case Some(d) =>
              NothingInFlight(d.plane.cluster) && u < |d.arrived| ==>
                var a := d.arrived[u];
                Replies(d, u) == 0
                <==> a.update.FromCoordinator? || GoesSilent(a) || (a.update.ConsumerConsume? && Waits(d, u))
  {
    var run := Run(workerIds, events);
    if run.Some? && NothingInFlight(run.value.plane.cluster) && u < |run.value.arrived| {
      UnansweredExactlyWhenWaiting(workerIds, events, u);
      EveryRunKeepsHistory(workerIds, events);
      assert FateOk(run.value, u);
    }
  }

  /** In every run a transport is connected if and only if some worker answered a command to connect it with an
      acknowledgement. */
  lemma {:induction false} ConnectedExactlyWhenAWorkerAcked<R>(workerIds: seq<int>,
                                                               events: seq<Event<R>>, t: int)
    requires C.Distinct(workerIds)
    ensures match Run(workerIds, events)
            case None => true
            case Some(d) =>
              t in d.plane.coordinator.transportObjects ==>
                (d.plane.coordinator.transportObjects[t].status == M.Connected
                 <==> exists j, a :: 0 <= j < |d.plane.cluster.workers| && a in d.plane.cluster.workers[j].answers
                                     && AcksConnect(a, d.plane.cluster.log, t))
  {
    EveryRunKeepsHistory(workerIds, events);
  }

  /** In every run every command that was published is about an allocated transport, and a consume command names the
      transport its consumer transport was requested for. */
  lemma {:induction false} CommandsAreAboutAllocatedTransports<R>(workerIds: seq<int>,
                                                                  events: seq<Event<R>>, r: nat)
    requires C.Distinct(workerIds)
    ensures match Run(workerIds, events)
            case None => true
            case Some(d) =>
              r < |d.plane.cluster.log| && d.plane.cluster.log[r].Update? ==>
                var t := d.plane.cluster.log[r].id;
                && t in d.plane.coordinator.transportObjects
                && d.plane.coordinator.transportObjects[t].status != M.Unallocated
                && NamesOwnSource(d.plane.cluster.log[r].command, d.plane.coordinator.transportObjects[t].source)
  {
    var run := Run(workerIds, events);
    if run.Some? && r < |run.value.plane.cluster.log| && run.value.plane.cluster.log[r].Update? {
      assert CommandLogged(run.value.plane, r);
    }
  }
}
