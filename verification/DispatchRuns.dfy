/** The dispatcher at work on the media plane, over every run: an `S:` update is decided on the coordinator's state of
    the moment, its command is published to all the workers, and what the worker it reaches answers, whenever that is,
    is the answer to the update. */
module DispatchRuns {
  import opened Common
  import opened Dispatch
  import IdGenerator
  import M = Mesh
  import MeshRuns
  import MeshResults
  import W = WorkerModel
  import WR = WorkerRuns
  import WS = WorkerSources
  import C = Cluster
  import P = MediaPlane

  datatype Desk<R> = Desk(
    plane: P.Plane<R>,
    known: set<string>,   // the spaces of the space service
    arrived: seq<Arrival>, // the updates so far, numbered from 0
    ignored: set<nat>,
    silent: set<nat>,
    rejected: set<nat>,   // nacked by the dispatcher itself
    sent: map<nat, nat>,  // updates passed on, and the number of the message their command went out as
    early: set<nat>)      // consume commands, by message number, sent while their source was unallocated

  /** An update as it arrived: whether the space was known, the member and the source member in it, and the transport
      the member held for it with its status of that moment. */
  datatype Arrival = Arrival(update: Update, known: bool, present: bool, sourcePresent: bool,
                             transport: Option<int>, status: Option<M.Status>)

  ghost function ArrivalOf(c: M.Coordinator, known: bool, space: string, update: Update): Arrival {
    var members := MembersIn(c, space);
    var transport := HeldFor(c, update);
    Arrival(update, known, !update.FromCoordinator? && !update.UnknownUpdate? && update.member in members,
            HasSource(update) && update.source in members, transport,
            if transport.Some? && transport.value in c.transportObjects
            then Some(c.transportObjects[transport.value].status) else None)
  }

  predicate HasSource(update: Update) {
    update.ConsumerConnect? || update.ConsumerConsume? || update.ConsumerResume?
  }

  /** The producer transport of the member, or its consumer of the source. */
  ghost function HeldFor(c: M.Coordinator, update: Update): Option<int> {
    if update.FromCoordinator? || update.UnknownUpdate? || update.member !in c.memberObjects then None
    else if HasSource(update) then ConsumerOf(c, update.member, update.source)
    else c.memberObjects[update.member].producer
  }

  datatype Event<R> =
    | Happens(step: P.Step<R>)
    | Create(space: string)
    | Receive(space: string, update: Update)

  function ToWorker(kind: Kind): W.Command {
    match kind
    case ConnectIt => W.Connect
    case ProduceIt => W.Produce
    case ConsumeIt(p) => W.Consume(p)
    case ResumeIt => W.Resume
  }

  ghost predicate Possible<R>(d: Desk<R>, e: Event<R>)
    requires P.PlaneOk(d.plane)
  {
    e.Happens? ==>
      P.Possible(d.plane, e.step) && !e.step.Command? && !(e.step.Coordinate? && e.step.step.Connect?)
  }

  /** The transport a settled connect is about. */
  ghost function Connecting<R>(y: P.Plane<R>, step: P.Step<R>): Option<int>
    requires P.PlaneOk(y) && P.Possible(y, step)
  {
    if step.Settles? && step.outcome.Resolved? && y.cluster.workers[step.worker].jobs[step.i].Connecting?
    then
      var req := y.cluster.workers[step.worker].jobs[step.i].req;
      if req < |y.cluster.log| && y.cluster.log[req].Update? then Some(y.cluster.log[req].id) else None
    else None
  }

  /** A plane step, and the `connected` status that an acknowledged connect sets in the same step. */
  ghost function Moved<R>(y: P.Plane<R>, step: P.Step<R>): P.Plane<R>
    requires P.PlaneOk(y) && P.Possible(y, step)
  {
    Marked(P.Do(y, step), Connecting(y, step))
  }

  ghost predicate IsEarly(c: M.Coordinator, kind: Kind) {
    kind.ConsumeIt? && kind.producing in c.transportObjects
        && c.transportObjects[kind.producing].status == M.Unallocated
  }

  /** An update is decided, and its command published. */
  ghost function Received<R>(d: Desk<R>, space: string, update: Update): Desk<R>
    requires P.PlaneOk(d.plane)
  {
    DecisionsAreSound(d.plane.coordinator, space in d.known, space, update);
    Applied(d, ArrivalOf(d.plane.coordinator, space in d.known, space, update),
            Decide(d.plane.coordinator, space in d.known, space, update))
  }

  ghost function Applied<R>(d: Desk<R>, arrival: Arrival, decision: Decision): Desk<R>
    requires P.PlaneOk(d.plane) && !decision.Throws?
  {
    var c, u := d.plane.coordinator, |d.arrived|;
    var d1 := d.(arrived := d.arrived + [arrival]);
    match decision
    case Ignored => d1.(ignored := d.ignored + {u})
    case Rejected(_) => d1.(rejected := d.rejected + {u})
    case Silent => d1.(silent := d.silent + {u})
    case Commanded(command) =>
      d1.(plane := P.Do(d.plane, P.Command(command.transport, ToWorker(command.kind))),
          sent := d.sent[u := |d.plane.cluster.log|],
          early := if IsEarly(c, command.kind) then d.early + {|d.plane.cluster.log|} else d.early)
  }

  ghost function Do<R>(d: Desk<R>, e: Event<R>): Desk<R>
    requires P.PlaneOk(d.plane) && Possible(d, e)
  {
    match e
    case Happens(step) => d.(plane := Moved(d.plane, step))
    case Create(space) => d.(known := d.known + {space})
    case Receive(space, update) => Received(d, space, update)
  }

  /** How often update `u` was answered: by the dispatcher itself, or by all the workers together. */
  ghost function Replies<R>(d: Desk<R>, u: nat): nat {
    One(u in d.rejected) + (if u in d.sent then P.AnswersTo(d.plane.cluster.workers, d.sent[u]) else 0)
  }

  // ----- The invariant -----

  /** Every command in the log is about an allocated transport, names its own source, and was taken by a worker. */
  ghost predicate LogOk<R>(y: P.Plane<R>) {
    forall r :: 0 <= r < |y.cluster.log| && y.cluster.log[r].Update? ==> CommandLogged(y, r)
  }

  ghost predicate CommandLogged<R>(y: P.Plane<R>, r: nat)
    requires r < |y.cluster.log| && y.cluster.log[r].Update?
  {
    var t := y.cluster.log[r].id;
    && t in y.coordinator.transportObjects && y.coordinator.transportObjects[t].status != M.Unallocated
    && NamesOwnSource(y.cluster.log[r].command, y.coordinator.transportObjects[t].source)
    && Taken(y.cluster, r)
  }

  /** A consume command names the transport its consumer transport was requested for. */
  predicate NamesOwnSource(command: W.Command, source: Option<int>) {
    command.Consume? ==> source == Some(command.producingTransportId)
  }

  ghost predicate Taken<R>(k: C.Cluster<R>, r: nat) {
    exists j: nat :: j < |k.taken| && r in k.taken[j]
  }

  /** A consume is refused by the worker exactly when it was early, and then it has been. */
  ghost predicate EarlyOk<R>(k: C.Cluster<R>, early: set<nat>) {
    && (forall j, a :: 0 <= j < |k.workers| && a in k.workers[j].answers && Refusal(a.reply) ==> a.req in early)
    && (forall r :: r in early ==> r < |k.log| && AnsweredSomewhere(k, r))
  }

  predicate Refusal(reply: W.Reply) {
    reply == W.Nack(W.ProducingTransportNotFound) || reply == W.Nack(W.DifferentRouters)
  }

  ghost predicate AnsweredSomewhere<R>(k: C.Cluster<R>, r: nat) {
    exists j, a :: 0 <= j < |k.workers| && AnsweredBy(k.workers[j], a, r)
  }

  ghost predicate AnsweredBy<R>(w: W.Worker<R>, a: W.Answer, r: nat) {
    a in w.answers && a.req == r
  }

  ghost predicate SentOk(log: seq<W.Message>, sent: map<nat, nat>) {
    && (forall u :: u in sent ==> sent[u] < |log| && log[sent[u]].Update?)
    && (forall u, v :: u in sent && v in sent && sent[u] == sent[v] ==> u == v)
  }

  /** Every update so far is in exactly one place. */
  ghost predicate Sorted<R>(d: Desk<R>) {
    forall u: nat :: Place(d.ignored, d.silent, d.rejected, d.sent.Keys, u) == One(u < |d.arrived|)
  }

  ghost function Place(ignored: set<nat>, silent: set<nat>, rejected: set<nat>, sent: set<nat>, u: nat): nat {
    One(u in ignored) + One(u in silent) + One(u in rejected) + One(u in sent)
  }

  ghost predicate DeskOk<R>(d: Desk<R>) {
    && P.PlaneOk(d.plane) && LogOk(d.plane) && EarlyOk(d.plane.cluster, d.early)
    && SentOk(d.plane.cluster.log, d.sent) && Sorted(d)
  }

  // ----- A command reaches exactly one worker -----

  /** A command the dispatcher decides on is addressed to exactly one worker, whoever else is on the bus. */
  lemma {:induction false} CommandHasOneAddressee<R>(y: P.Plane<R>, command: Command) returns (j: nat)
    requires P.PlaneOk(y) && CommandOk(y.coordinator, command)
    ensures j < |y.cluster.workers|
    ensures forall q :: 0 <= q < |y.cluster.workers| ==>
              (W.Addressed(y.cluster.workers[q], W.Update(command.transport, ToWorker(command.kind))) <==> q == j)
    ensures P.OnItsRouter(y.cluster.workers[j], command.transport,
            y.coordinator.transportObjects[command.transport].router)
  {
    j := P.Host(y, command.transport);
  }

  // ----- Plane steps -----

  /** A settled promise answers its own request, with no refusal. */
  lemma {:induction false} SettlingAnswersItsOwn<R>(w: W.Worker<R>, log: seq<W.Message>, i: nat, outcome: W.Outcome,
                                                    newRef: R)
    requires WR.Sound(w, log) && i < |w.jobs| && newRef !in w.heap && (outcome.AckThrew? ==> w.jobs[i].CreateTransport?)
    ensures forall a :: a in W.Settle(w, i, outcome, newRef).answers ==>
              a in w.answers || (a.req == w.jobs[i].req && !Refusal(a.reply))
  {
    if outcome.Resolved? && w.jobs[i].Producing? {
      WR.SoundAfterDroppingJob(w, log, i);
      assert WR.JobOk(w.heap, w.transports, log, w.jobs[i]);
      WR.ProducedStartsTheBuffer(W.WithoutJob(w, i), log, w.jobs[i].req, w.jobs[i].transport, outcome.mediaId);
    }
  }

  /** What the plane's steps keep of the commands and of the early ones. */
  ghost predicate Continues<R>(k: C.Cluster<R>, k': C.Cluster<R>) {
    && k.log <= k'.log && |k'.workers| == |k.workers| && |k'.taken| == |k.taken|
    && (forall j :: 0 <= j < |k.taken| ==> k.taken[j] <= k'.taken[j])
    && (forall j :: 0 <= j < |k.workers| ==> WR.Extends(k.workers[j].answers, k'.workers[j].answers))
  }

  lemma {:induction false} EarlyStays<R>(k: C.Cluster<R>, k': C.Cluster<R>, early: set<nat>)
    requires EarlyOk(k, early) && Continues(k, k')
    requires forall j, a :: 0 <= j < |k.workers| && a in k'.workers[j].answers && a !in k.workers[j].answers ==>
             !Refusal(a.reply)
    ensures EarlyOk(k', early)
  {
    forall r | r in early ensures r < |k'.log| && AnsweredSomewhere(k', r) {
      var j, a :| 0 <= j < |k.workers| && AnsweredBy(k.workers[j], a, r);
      ExtendedKeeps(k.workers[j].answers, k'.workers[j].answers, a);
      assert AnsweredBy(k'.workers[j], a, r);
    }
  }

  lemma {:induction false} ExtendedKeeps(answers: seq<W.Answer>, answers': seq<W.Answer>, a: W.Answer)
    requires WR.Extends(answers, answers') && a in answers
    ensures a in answers'
  {
    var i: nat :| i < |answers| && answers[i] == a;
    assert answers'[..|answers|][i] == answers'[i];
  }

  lemma {:induction false} TakenStays<R>(k: C.Cluster<R>, k': C.Cluster<R>, r: nat)
    requires Continues(k, k') && Taken(k, r)
    ensures Taken(k', r)
  {
    var j: nat :| j < |k.taken| && r in k.taken[j];
    assert r in k'.taken[j];
  }

  /** The commands in the log stay in order when the log gains none. */
  lemma {:induction false} LogStays<R>(y: P.Plane<R>, y': P.Plane<R>)
    requires LogOk(y) && Continues(y.cluster, y'.cluster) && MeshRuns.ObjectsGrow(y.coordinator, y'.coordinator)
    requires forall r :: |y.cluster.log| <= r < |y'.cluster.log| ==> !y'.cluster.log[r].Update?
    ensures LogOk(y')
  {
    forall r | 0 <= r < |y'.cluster.log| && y'.cluster.log[r].Update? ensures CommandLogged(y', r) {
      assert CommandLogged(y, r);
      TakenStays(y.cluster, y'.cluster, r);
    }
  }

  lemma {:induction false} QuietPublish<R>(k: C.Cluster<R>, msg: W.Message)
    requires C.AllClosed(k) && !msg.Update?
    ensures Quiet(k, C.Publish(k, msg))
  {}

  /** Nothing was answered, and no command was published. */
  ghost predicate Quiet<R>(k: C.Cluster<R>, k': C.Cluster<R>) {
    && Continues(k, k')
    && (forall j :: 0 <= j < |k.workers| ==> k'.workers[j].answers == k.workers[j].answers)
    && (forall r :: |k.log| <= r < |k'.log| ==> !k'.log[r].Update?)
  }

  lemma {:induction false} QuietTwice<R>(k: C.Cluster<R>, k1: C.Cluster<R>, k2: C.Cluster<R>)
    requires Quiet(k, k1) && Quiet(k1, k2)
    ensures Quiet(k, k2)
  {
    forall r | |k.log| <= r < |k2.log| ensures !k2.log[r].Update? {
      if r < |k1.log| { assert k2.log[r] == k1.log[r]; }
    }
    forall j | 0 <= j < |k.taken| ensures k.taken[j] <= k2.taken[j] { assert k.taken[j] <= k1.taken[j]; }
  }

  lemma {:induction false} PublishedQuietly<R>(k: C.Cluster<R>, objects: map<int, M.Transport>, upto: nat)
    requires C.AllClosed(k) && P.InRange(k, objects, upto)
    ensures Quiet(k, P.Published(k, objects, upto))
    decreases upto - k.transportIds
  {
    if k.transportIds < upto {
      var id := k.transportIds;
      var k1 := C.Do(k, C.Step<R>.AllocateTransport(objects[id].router, objects[id].source.None?));
      var msg := W.NewTransport(objects[id].router, IdGenerator.NthId(0, id), objects[id].source.None?);
      QuietPublish(k.(transportIds := id + 1), msg);
      assert Quiet(k, k1);
      PublishedQuietly(k1, objects, upto);
      QuietTwice(k, k1, P.Published(k1, objects, upto));
    }
  }

  /** What a plane step keeps for the dispatcher. */
  ghost predicate KeepsDesk<R>(y: P.Plane<R>, y': P.Plane<R>, early: set<nat>) {
    P.PlaneOk(y') && LogOk(y') && EarlyOk(y'.cluster, early) && y.cluster.log <= y'.cluster.log
  }

  lemma {:induction false} CoordinatingKeeps<R>(y: P.Plane<R>, step: M.Step, early: set<nat>)
    requires P.PlaneOk(y) && LogOk(y) && EarlyOk(y.cluster, early) && P.Possible(y, P.Coordinate(step))
    ensures KeepsDesk(y, P.Do(y, P.Coordinate(step)), early)
  {
    var y' := P.Do(y, P.Coordinate(step));
    P.StepKeepsOk(y, P.Coordinate(step));
    P.CoordinatingExtends(y.coordinator, step);
    MeshResults.StepKeepsInv(y.coordinator, step);
    PublishedQuietly(y.cluster, y'.coordinator.transportObjects, y'.coordinator.nextTransport);
    LogStays(y, y');
    EarlyStays(y.cluster, y'.cluster, early);
  }

  lemma {:induction false} NewRouterKeeps<R>(y: P.Plane<R>, workerId: int, early: set<nat>)
    requires P.PlaneOk(y) && LogOk(y) && EarlyOk(y.cluster, early) && P.Possible(y, P.NewRouter(workerId))
    ensures KeepsDesk(y, P.Do(y, P.NewRouter(workerId)), early)
  {
    var k := y.cluster;
    var y' := P.Do(y, P.NewRouter(workerId));
    P.StepKeepsOk(y, P.NewRouter(workerId));
    QuietPublish(k.(routerIds := k.routerIds + 1), W.NewRouter(IdGenerator.NthId(0, k.routerIds), workerId));
    assert Quiet(k, y'.cluster);
    LogStays(y, y');
    EarlyStays(k, y'.cluster, early);
  }

  lemma {:induction false} SettlingContinues<R>(k: C.Cluster<R>, j: nat, i: nat, outcome: W.Outcome, newRef: R)
    requires C.Inv(k) && C.AllClosed(k) && C.Possible(k, C.Settles(j, i, outcome, newRef))
    ensures var k' := C.Do(k, C.Settles(j, i, outcome, newRef));
            && Continues(k, k') && k'.log == k.log
            && forall q, a :: 0 <= q < |k.workers| && a in k'.workers[q].answers && a !in k.workers[q].answers ==>
                 q == j && a.req == k.workers[j].jobs[i].req && !Refusal(a.reply)
  {
    SettledAnswers(k, j, i, outcome, newRef);
    var k' := C.Do(k, C.Settles(j, i, outcome, newRef));
    forall q | 0 <= q < |k.workers| && q != j ensures k'.workers[q] == k.workers[q] {}
  }

  lemma {:induction false} SettledAnswers<R>(k: C.Cluster<R>, j: nat, i: nat, outcome: W.Outcome, newRef: R)
    requires C.Inv(k) && C.AllClosed(k) && C.Possible(k, C.Settles(j, i, outcome, newRef))
    ensures var w, w' := k.workers[j], W.Settle(k.workers[j], i, outcome, newRef);
            && WR.Extends(w.answers, w'.answers)
            && forall a :: a in w'.answers ==> a in w.answers || (a.req == w.jobs[i].req && !Refusal(a.reply))
  {
    assert C.WorkerOk(k, j);
    WR.SettlingExtends(k.workers[j], k.log, i, outcome, newRef);
    SettlingAnswersItsOwn(k.workers[j], k.log, i, outcome, newRef);
  }

  lemma {:induction false} SettlingKeeps<R>(y: P.Plane<R>, step: P.Step<R>, early: set<nat>)
    requires P.PlaneOk(y) && LogOk(y) && EarlyOk(y.cluster, early) && step.Settles? && P.Possible(y, step)
    ensures KeepsDesk(y, P.Do(y, step), early)
  {
    var y' := P.Do(y, step);
    var job := y.cluster.workers[step.worker].jobs[step.i];
    P.StepKeepsOk(y, step);
    SettlingContinues(y.cluster, step.worker, step.i, P.Heard(y.coordinator, job, step.outcome), step.newRef);
    if job.CreateTransport? {
      assert job in y.cluster.workers[step.worker].jobs && job.assignedId in y.coordinator.requested;
      MeshResults.StepKeepsInv(y.coordinator, M.Answer(job.assignedId, step.outcome.Resolved?));
    }
    LogStays(y, y');
    EarlyStays(y.cluster, y'.cluster, early);
  }

  lemma {:induction false} ConnectingKeeps<R>(y: P.Plane<R>, t: int, early: set<nat>)
    requires P.PlaneOk(y) && LogOk(y) && EarlyOk(y.cluster, early)
    requires t in y.coordinator.transportObjects && y.coordinator.transportObjects[t].status != M.Unallocated
    ensures KeepsDesk(y, y.(coordinator := M.WithStatus(y.coordinator, t, M.Connected)), early)
  {
    var step := P.Step<R>.Coordinate(M.Connect(t));
    P.StepKeepsOk(y, step);
    assert P.Do(y, step) == y.(coordinator := M.WithStatus(y.coordinator, t, M.Connected));
    CoordinatingKeeps(y, M.Connect(t), early);
  }

  lemma {:induction false} MovingKeeps<R>(y: P.Plane<R>, step: P.Step<R>, early: set<nat>)
    requires P.PlaneOk(y) && LogOk(y) && EarlyOk(y.cluster, early) && P.Possible(y, step) && !step.Command?
    ensures KeepsDesk(y, Moved(y, step), early)
  {
    match step
    case Coordinate(s) => CoordinatingKeeps(y, s, early);
    case NewRouter(workerId) => NewRouterKeeps(y, workerId, early);
    case Settles(_, _, _, _) =>
      SettlingKeeps(y, step, early);
      MarkingKeeps(P.Do(y, step), Connecting(y, step), early);
  }

  /** The status an acknowledged connect sets. */
  ghost function Marked<R>(y: P.Plane<R>, t: Option<int>): P.Plane<R> {
    if t.Some? && t.value in y.coordinator.transportObjects
        && y.coordinator.transportObjects[t.value].status != M.Unallocated
    then y.(coordinator := M.WithStatus(y.coordinator, t.value, M.Connected))
    else y
  }

  lemma {:induction false} MarkingKeeps<R>(y: P.Plane<R>, t: Option<int>, early: set<nat>)
    requires P.PlaneOk(y) && LogOk(y) && EarlyOk(y.cluster, early)
    ensures KeepsDesk(y, Marked(y, t), early)
  {
    if t.Some? && t.value in y.coordinator.transportObjects
        && y.coordinator.transportObjects[t.value].status != M.Unallocated {
      ConnectingKeeps(y, t.value, early);
    }
  }

  // ----- A command is published -----

  lemma {:induction false} PublishContinues<R>(k: C.Cluster<R>, msg: W.Message)
    requires C.AllClosed(k)
    ensures Continues(k, C.Publish(k, msg))
  {
    forall j | 0 <= j < |k.workers| ensures WR.Extends(k.workers[j].answers, C.Publish(k, msg).workers[j].answers) {
      WR.DeliveryExtends(k.workers[j], |k.log|, msg);
    }
  }

  /** A command other than a consume is never refused the way a consume is. */
  lemma {:induction false} OtherCommandsAreNotRefused<R>(w: W.Worker<R>, req: nat, msg: W.Message)
    requires W.Closed(w) && msg.Update? && !msg.command.Consume?
    ensures forall a :: a in W.Deliver(w, req, msg).answers ==> a in w.answers || !Refusal(a.reply)
  {}

  /** An accepted consume starts or waits: nothing is refused. */
  lemma {:induction false} AcceptedIsNotRefused<R>(w: W.Worker<R>, req: nat, t: int, p: int)
    requires W.Closed(w) && P.AcceptsConsume(w, req, t, p)
    ensures forall a :: a in W.Deliver(w, req, W.Update(t, W.Consume(p))).answers ==>
            a in w.answers || !Refusal(a.reply)
  {}

  /** The worker a command reaches refuses it exactly when the command is early. */
  lemma {:induction false} RefusedExactlyWhenEarly<R>(y: P.Plane<R>, command: Command, j: nat)
    requires P.PlaneOk(y) && CommandOk(y.coordinator, command)
    requires j < |y.cluster.workers| && command.transport in y.cluster.workers[j].transports
    ensures W.Closed(y.cluster.workers[j])
    ensures var w, req := y.cluster.workers[j], |y.cluster.log|;
            var w' := W.Deliver(w, req, W.Update(command.transport, ToWorker(command.kind)));
            if IsEarly(y.coordinator, command.kind)
            then w' == W.Answered(w, req, W.Nack(W.ProducingTransportNotFound))
            else forall a :: a in w'.answers ==> a in w.answers || !Refusal(a.reply)
  {
    var w, req := y.cluster.workers[j], |y.cluster.log|;
    assert W.Closed(w);
    match command.kind
    case ConsumeIt(p) =>
      P.DecideConsume(y, command.transport, p, req);
      var q: nat :| P.DecidedAt(y, command.transport, p, req, q);
      C.TransportHasOneOwner(y.cluster, q, j, command.transport);
      if y.coordinator.transportObjects[p].status != M.Unallocated {
        AcceptedIsNotRefused(w, req, command.transport, p);
      }
    case _ => OtherCommandsAreNotRefused(w, req, W.Update(command.transport, ToWorker(command.kind)));
  }

  lemma {:induction false} EarlyAfterCommand<R>(y: P.Plane<R>, command: Command, early: set<nat>)
    requires P.PlaneOk(y) && CommandOk(y.coordinator, command) && EarlyOk(y.cluster, early)
    ensures EarlyOk(C.Publish(y.cluster, W.Update(command.transport, ToWorker(command.kind))),
                    if IsEarly(y.coordinator, command.kind) then early + {|y.cluster.log|} else early)
  {
    var k, msg := y.cluster, W.Update(command.transport, ToWorker(command.kind));
    var k' := C.Publish(k, msg);
    PublishContinues(k, msg);
    var j := CommandHasOneAddressee(y, command);
    RefusedExactlyWhenEarly(y, command, j);
    forall q | 0 <= q < |k.workers| && q != j ensures k'.workers[q] == k.workers[q] {
      assert !W.Addressed(k.workers[q], msg);
    }
    if IsEarly(y.coordinator, command.kind) {
      var a := W.Answer(|k.log|, W.Nack(W.ProducingTransportNotFound));
      assert k'.workers[j].answers == k.workers[j].answers + [a];
      assert AnsweredBy(k'.workers[j], a, |k.log|);
      EarlyGains(k, k', early, j, a);
    } else {
      EarlyStays(k, k', early);
    }
  }

  lemma {:induction false} EarlyGains<R>(k: C.Cluster<R>, k': C.Cluster<R>, early: set<nat>, j: nat, a: W.Answer)
    requires EarlyOk(k, early) && Continues(k, k') && j < |k.workers| && a.req < |k'.log|
    requires k'.workers[j].answers == k.workers[j].answers + [a]
    requires forall q :: 0 <= q < |k.workers| && q != j ==> k'.workers[q] == k.workers[q]
    ensures EarlyOk(k', early + {a.req})
  {
    forall r | r in early + {a.req} ensures r < |k'.log| && AnsweredSomewhere(k', r) {
      if r == a.req {
        assert AnsweredBy(k'.workers[j], a, r);
      } else {
        var q, b :| 0 <= q < |k.workers| && AnsweredBy(k.workers[q], b, r);
        assert AnsweredBy(k'.workers[q], b, r);
      }
    }
  }

  lemma {:induction false} LogAfterCommand<R>(y: P.Plane<R>, command: Command)
    requires P.PlaneOk(y) && LogOk(y) && CommandOk(y.coordinator, command)
    ensures LogOk(P.Do(y, P.Command(command.transport, ToWorker(command.kind))))
  {
    var y' := P.Do(y, P.Command(command.transport, ToWorker(command.kind)));
    var j := CommandHasOneAddressee(y, command);
    PublishContinues(y.cluster, W.Update(command.transport, ToWorker(command.kind)));
    forall r | 0 <= r < |y'.cluster.log| && y'.cluster.log[r].Update? ensures CommandLogged(y', r) {
      if r < |y.cluster.log| {
        assert CommandLogged(y, r);
        TakenStays(y.cluster, y'.cluster, r);
      } else {
        assert r in y'.cluster.taken[j];
      }
    }
  }

  lemma {:induction false} CommandingKeeps<R>(y: P.Plane<R>, command: Command, early: set<nat>)
    requires P.PlaneOk(y) && LogOk(y) && EarlyOk(y.cluster, early) && CommandOk(y.coordinator, command)
    ensures KeepsDesk(y, P.Do(y, P.Command(command.transport, ToWorker(command.kind))),
                      if IsEarly(y.coordinator, command.kind) then early + {|y.cluster.log|} else early)
  {
    P.StepKeepsOk(y, P.Command(command.transport, ToWorker(command.kind)));
    LogAfterCommand(y, command);
    EarlyAfterCommand(y, command, early);
  }

  // ----- Events -----

  lemma {:induction false} SortedAfterReceiving<R>(d: Desk<R>, arrival: Arrival, decision: Decision)
    requires P.PlaneOk(d.plane) && Sorted(d) && !decision.Throws?
    ensures Sorted(Applied(d, arrival, decision))
  {
    var d' := Applied(d, arrival, decision);
    forall u: nat ensures Place(d'.ignored, d'.silent, d'.rejected, d'.sent.Keys, u) == One(u < |d'.arrived|) {
      assert Place(d.ignored, d.silent, d.rejected, d.sent.Keys, u) == One(u < |d.arrived|);
    }
  }

  lemma {:induction false} SentStays(log: seq<W.Message>, log': seq<W.Message>, sent: map<nat, nat>)
    requires SentOk(log, sent) && log <= log'
    ensures SentOk(log', sent)
  {}

  lemma {:induction false} ReceivingKeepsOk<R>(d: Desk<R>, space: string, update: Update)
    requires DeskOk(d)
    ensures DeskOk(Received(d, space, update))
  {
    var c := d.plane.coordinator;
    DecisionsAreSound(c, space in d.known, space, update);
    ApplyingKeepsOk(d, ArrivalOf(c, space in d.known, space, update), Decide(c, space in d.known, space, update));
  }

  lemma {:induction false} ApplyingKeepsOk<R>(d: Desk<R>, arrival: Arrival, decision: Decision)
    requires DeskOk(d) && !decision.Throws?
             && (decision.Commanded? ==> CommandOk(d.plane.coordinator, decision.command))
    ensures DeskOk(Applied(d, arrival, decision))
  {
    SortedAfterReceiving(d, arrival, decision);
    if decision.Commanded? { SendingKeepsOk(d, arrival, decision.command); }
  }

  lemma {:induction false} SendingKeepsOk<R>(d: Desk<R>, arrival: Arrival, command: Command)
    requires DeskOk(d) && CommandOk(d.plane.coordinator, command) && Sorted(Applied(d, arrival, Commanded(command)))
    ensures DeskOk(Applied(d, arrival, Commanded(command)))
  {
    CommandingKeeps(d.plane, command, d.early);
    SentInCommand(d, command);
  }

  lemma {:induction false} SentInCommand<R>(d: Desk<R>, command: Command)
    requires DeskOk(d)
    ensures SentOk(P.Do(d.plane, P.Command(command.transport, ToWorker(command.kind))).cluster.log,
                   d.sent[|d.arrived| := |d.plane.cluster.log|])
  {
    SentGains(d.plane.cluster.log, W.Update(command.transport, ToWorker(command.kind)), d.sent, |d.arrived|);
  }

  lemma {:induction false} SentGains(log: seq<W.Message>, msg: W.Message, sent: map<nat, nat>, u: nat)
    requires SentOk(log, sent) && msg.Update?
    ensures SentOk(log + [msg], sent[u := |log|])
  {}

  lemma {:induction false} EventKeepsOk<R>(d: Desk<R>, e: Event<R>)
    requires DeskOk(d) && Possible(d, e)
    ensures DeskOk(Do(d, e))
  {
    match e
    case Happens(step) =>
      MovingKeeps(d.plane, step, d.early);
      SentStays(d.plane.cluster.log, Moved(d.plane, step).cluster.log, d.sent);
    case Create(space) =>
    case Receive(space, update) => ReceivingKeepsOk(d, space, update);
  }

  ghost function Initial<R>(workerIds: seq<int>): Desk<R> {
    Desk(P.Initial(workerIds), {}, [], {}, {}, {}, map[], {})
  }

  lemma {:induction false} InitialOk<R>(workerIds: seq<int>)
    requires C.Distinct(workerIds)
    ensures DeskOk(Initial<R>(workerIds))
  {
    P.InitialOk<R>(workerIds);
  }

  ghost function Run<R>(workerIds: seq<int>, events: seq<Event<R>>): (d: Option<Desk<R>>)
    requires C.Distinct(workerIds)
    ensures d.Some? ==> DeskOk(d.value)
    decreases |events|
  {
    if events == [] then InitialOk<R>(workerIds); Some(Initial(workerIds))
    else
      match Run(workerIds, events[..|events| - 1])
      case None => None
      case Some(d) =>
        var e := events[|events| - 1];
        if !Possible(d, e) then None else EventKeepsOk(d, e); Some(Do(d, e))
  }

  // ----- The results -----

  /** In every run, every command that was published was taken by exactly one worker. */
  lemma {:induction false} EveryCommandHasOneTaker<R>(workerIds: seq<int>, events: seq<Event<R>>, u: nat)
    requires C.Distinct(workerIds)
    ensures match Run(workerIds, events)
            case None => true
            case Some(d) =>
              u in d.sent ==>
                exists j: nat ::
                  && j < |d.plane.cluster.taken| && d.sent[u] in d.plane.cluster.taken[j]
                  && forall q :: 0 <= q < |d.plane.cluster.taken| && d.sent[u] in d.plane.cluster.taken[q] ==> q == j
  {
    var run := Run(workerIds, events);
    if run.Some? && u in run.value.sent {
      var k := run.value.plane.cluster;
      assert CommandLogged(run.value.plane, run.value.sent[u]);
      var j: nat :| j < |k.taken| && run.value.sent[u] in k.taken[j];
    }
  }

  /** In every run every update is ignored, silently dropped, nacked by the dispatcher or passed on, exactly one of
      them, and it is answered at most once, however many workers are on the bus. */
  lemma {:induction false} EveryUpdateAnsweredAtMostOnce<R>(workerIds: seq<int>, events: seq<Event<R>>, u: nat)
    requires C.Distinct(workerIds)
    ensures match Run(workerIds, events)
            case None => true
            case Some(d) =>
              && One(u in d.ignored) + One(u in d.silent) + One(u in d.rejected) + One(u in d.sent)
                 == One(u < |d.arrived|)
              && Replies(d, u) <= 1
              && (Replies(d, u) == 1 ==> u in d.rejected || u in d.sent)
  {
    var run := Run(workerIds, events);
    if run.Some? {
      var d := run.value;
      assert Place(d.ignored, d.silent, d.rejected, d.sent.Keys, u) == One(u < |d.arrived|);
      if u in d.sent { P.AnswersAreCounted(d.plane.cluster, d.plane.late, d.sent[u]); }
    }
  }

  /** Transport `p` has no producer on any worker. */
  ghost predicate NoProducer<R>(k: C.Cluster<R>, p: int) {
    forall j :: 0 <= j < |k.workers| ==> !WS.HasProducer(k.workers[j], p)
  }

  /** A consume whose source was allocated when the command went out, and has no producer. */
  ghost predicate Waits<R>(d: Desk<R>, u: nat) {
    && u in d.sent && d.sent[u] !in d.early && d.sent[u] < |d.plane.cluster.log|
    && var msg := d.plane.cluster.log[d.sent[u]];
    && msg.Update? && msg.command.Consume? && NoProducer(d.plane.cluster, msg.command.producingTransportId)
  }

  ghost predicate NothingInFlight<R>(k: C.Cluster<R>) {
    forall j :: 0 <= j < |k.workers| ==> k.workers[j].jobs == []
  }

  /** In every run, once no media call is outstanding, the updates without an answer are exactly the ignored ones, the
      silent ones, and the consumes whose source was allocated when they were passed on and still has no producer. */
  lemma {:induction false} UnansweredExactlyWhenWaiting<R>(workerIds: seq<int>, events: seq<Event<R>>, u: nat)
    requires C.Distinct(workerIds)
    ensures match Run(workerIds, events)
            case None => true
            case Some(d) =>
              NothingInFlight(d.plane.cluster) && u < |d.arrived| ==>
                (Replies(d, u) == 0 <==> u in d.ignored || u in d.silent || Waits(d, u))
  {
    var run := Run(workerIds, events);
    if run.Some? && NothingInFlight(run.value.plane.cluster) && u < |run.value.arrived| {
      var d := run.value;
      assert Place(d.ignored, d.silent, d.rejected, d.sent.Keys, u) == 1;
      if u in d.sent {
        if P.AnswersTo(d.plane.cluster.workers, d.sent[u]) == 0 {
          UnansweredWaits(d, u);
        } else {
          AnsweredDoesNotWait(d, u);
        }
      }
    }
  }

  lemma {:induction false} NoAnswerAnywhere<R>(workers: seq<W.Worker<R>>, r: nat, j: nat)
    requires P.AnswersTo(workers, r) == 0 && j < |workers|
    ensures WR.AnswerRequests(workers[j].answers)[r] == 0
    decreases |workers|
  {
    if j < |workers| - 1 { NoAnswerAnywhere(workers[..|workers| - 1], r, j); }
  }

  lemma {:induction false} SomeAnswer<R>(workers: seq<W.Worker<R>>, r: nat) returns (j: nat)
    requires P.AnswersTo(workers, r) > 0
    ensures j < |workers| && WR.AnswerRequests(workers[j].answers)[r] > 0
    decreases |workers|
  {
    var n := |workers| - 1;
    if WR.AnswerRequests(workers[n].answers)[r] > 0 { j := n; } else { j := SomeAnswer(workers[..n], r); }
  }

  lemma {:induction false} UnansweredWaits<R>(d: Desk<R>, u: nat)
    requires DeskOk(d) && NothingInFlight(d.plane.cluster) && u in d.sent
    requires P.AnswersTo(d.plane.cluster.workers, d.sent[u]) == 0
    ensures Waits(d, u)
  {
    var k, r := d.plane.cluster, d.sent[u];
    assert CommandLogged(d.plane, r);
    var j: nat :| j < |k.taken| && r in k.taken[j];
    assert C.WorkerOk(k, j) && WR.CountOk(C.TraceOf(k, j), r);
    NoAnswerAnywhere(k.workers, r, j);
    WR.UnansweredWaits(C.TraceOf(k, j), r);
    var p := k.log[r].command.producingTransportId;
    forall q | 0 <= q < |k.workers| ensures !WS.HasProducer(k.workers[q], p) {
      if p in k.workers[q].transports { C.TransportHasOneOwner(k, q, j, p); }
    }
    NotEarly(d, r);
  }

  lemma {:induction false} NotEarly<R>(d: Desk<R>, r: nat)
    requires DeskOk(d) && P.AnswersTo(d.plane.cluster.workers, r) == 0
    ensures r !in d.early
  {
    var k := d.plane.cluster;
    if AnsweredSomewhere(k, r) {
      var j, a :| 0 <= j < |k.workers| && AnsweredBy(k.workers[j], a, r);
      WR.AnswerIsCounted(k.workers[j].answers, a);
      NoAnswerAnywhere(k.workers, r, j);
    }
  }

  lemma {:induction false} AnsweredDoesNotWait<R>(d: Desk<R>, u: nat)
    requires DeskOk(d) && u in d.sent && P.AnswersTo(d.plane.cluster.workers, d.sent[u]) > 0
    ensures !Waits(d, u)
  {
    var k, r := d.plane.cluster, d.sent[u];
    var j := SomeAnswer(k.workers, r);
    var a := AnswerFor(k.workers[j].answers, r);
    assert C.WorkerOk(k, j) && WS.AnswerSourced(k.workers[j], k.log, a);
    if k.log[r].command.Consume? {
      assert WS.AsksToConsume(k.log, a.req, k.log[r].command.producingTransportId);
    }
  }

  lemma {:induction false} AnswerFor(answers: seq<W.Answer>, r: nat) returns (a: W.Answer)
    requires WR.AnswerRequests(answers)[r] > 0
    ensures a in answers && a.req == r
  {
    var requests := seq(|answers|, i requires 0 <= i < |answers| => answers[i].req);
    assert r in multiset(requests);
    var i: nat :| i < |requests| && requests[i] == r;
    a := answers[i];
  }
}
