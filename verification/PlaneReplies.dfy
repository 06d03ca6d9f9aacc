/** What the workers answered about each transport, over every run of the coordinator with its workers, and each
    worker's own run inside it. */
module PlaneReplies {
  import opened Common
  import IdGenerator
  import M = Mesh
  import MeshResults
  import W = WorkerModel
  import WR = WorkerRuns
  import WS = WorkerSources
  import WorkerKinds
  import WorkerReplies
  import C = Cluster
  import D = Dispatch
  import P = MediaPlane
  import opened DispatchRuns

  /** A worker gave this reply to a request for transport `t`. */
  ghost predicate RepliedTo<R>(k: C.Cluster<R>, t: int, reply: W.Reply) {
    exists j, a :: 0 <= j < |k.workers| && a in k.workers[j].answers && RepliesTo(a, k.log, t, reply)
  }

  ghost predicate RepliesTo(a: W.Answer, log: seq<W.Message>, t: int, reply: W.Reply) {
    a.reply == reply && a.req < |log| && P.Asks(log[a.req], t)
  }

  /** A transport is acknowledged exactly when it is not unallocated, failed exactly when the coordinator has it as
      nacked and unallocated, and failed after its acknowledgement exactly when that came too late; it gets no other
      reply. */
  ghost predicate RepliesAgree<R>(y: P.Plane<R>, t: int)
    requires t in y.coordinator.transportObjects
  {
    var unallocated := y.coordinator.transportObjects[t].status == M.Unallocated;
    && (RepliedTo(y.cluster, t, W.AckTransport) <==> !unallocated)
    && (RepliedTo(y.cluster, t, W.Nack(W.MediaFailure)) <==> unallocated && t in y.coordinator.nacked)
    && (RepliedTo(y.cluster, t, W.Nack(W.AckFailed)) <==> t in y.late)
    && (forall reply :: RepliedTo(y.cluster, t, reply) ==>
          reply == W.AckTransport || reply == W.Nack(W.MediaFailure) || reply == W.Nack(W.AckFailed))
  }

  ghost predicate RepliesOk<R>(y: P.Plane<R>) {
    forall t :: t in y.coordinator.transportObjects ==> RepliesAgree(y, t)
  }

  // ----- Replies stay -----

  /** When no new answer is about `t`, the replies about `t` are the same. */
  lemma {:induction false} RepliesStay<R>(k: C.Cluster<R>, k': C.Cluster<R>, t: int, reply: W.Reply)
    requires C.Inv(k) && Continues(k, k')
    requires forall j, a :: 0 <= j < |k.workers| && a in k'.workers[j].answers && a !in k.workers[j].answers ==>
               !RepliesTo(a, k'.log, t, reply)
    ensures RepliedTo(k', t, reply) <==> RepliedTo(k, t, reply)
  {
    if RepliedTo(k, t, reply) {
      var j, a :| 0 <= j < |k.workers| && a in k.workers[j].answers && RepliesTo(a, k.log, t, reply);
      ExtendedKeeps(k.workers[j].answers, k'.workers[j].answers, a);
      assert RepliesTo(a, k'.log, t, reply);
    }
    if RepliedTo(k', t, reply) {
      var j, a :| 0 <= j < |k'.workers| && a in k'.workers[j].answers && RepliesTo(a, k'.log, t, reply);
      assert a in k.workers[j].answers && C.WorkerOk(k, j);
      assert RepliesTo(a, k.log, t, reply);
    }
  }

  /** What was never asked for was never replied to. */
  lemma {:induction false} UnaskedIsUnanswered<R>(y: P.Plane<R>, t: int, reply: W.Reply)
    requires P.AskedOk(y.cluster.log, y.coordinator.transportObjects) && t !in y.coordinator.transportObjects
    ensures !RepliedTo(y.cluster, t, reply)
  {}

  /** Replies, statuses, nacks and late transports are the same for `t`. */
  lemma {:induction false} AgreementStays<R>(y: P.Plane<R>, y': P.Plane<R>, t: int)
    requires t in y.coordinator.transportObjects && t in y'.coordinator.transportObjects && RepliesAgree(y, t)
    requires C.Inv(y.cluster) && Continues(y.cluster, y'.cluster)
    requires forall j, a, reply ::
               (0 <= j < |y.cluster.workers| && a in y'.cluster.workers[j].answers && a !in y.cluster.workers[j].answers
                ==> !RepliesTo(a, y'.cluster.log, t, reply))
    requires (y'.coordinator.transportObjects[t].status == M.Unallocated
              <==> y.coordinator.transportObjects[t].status == M.Unallocated)
    requires t in y'.coordinator.nacked <==> t in y.coordinator.nacked
    requires t in y'.late <==> t in y.late
    ensures RepliesAgree(y', t)
  {
    forall reply ensures RepliedTo(y'.cluster, t, reply) <==> RepliedTo(y.cluster, t, reply) {
      RepliesStay(y.cluster, y'.cluster, t, reply);
    }
  }

  // ----- The coordinator moves -----

  /** Nothing but a nack is recorded as one. */
  lemma {:induction false} NackedStays(c: M.Coordinator, step: M.Step)
    requires M.Inv(c) && M.Possible(c, step) && !step.Answer?
    ensures MeshResults.Do(c, step).nacked == c.nacked
  {
    if step.MeshLoop? {
      assert M.MemberOk(c, step.member);
      var p := c.memberObjects[step.member].producer.value;
      assert M.TransportOk(c, p);
      LoopNacksNothing(c, c.transportObjects[p].router, step.member, p, step.others);
    }
  }

  lemma {:induction false} LoopNacksNothing(c: M.Coordinator, router: int, member: int, producer: int, others: seq<int>)
    requires router in c.routerObjects && member in c.memberObjects
    requires forall i :: 0 <= i < |others| ==> others[i] in c.memberObjects
    ensures M.LinkedAll(c, router, member, producer, others).nacked == c.nacked
    decreases |others|
  {
    if others != [] { LoopNacksNothing(c, router, member, producer, others[..|others| - 1]); }
  }

  lemma {:induction false} CoordinatingKeepsReplies<R>(y: P.Plane<R>, step: M.Step)
    requires P.PlaneOk(y) && RepliesOk(y) && P.Possible(y, P.Coordinate(step))
    ensures RepliesOk(P.Do(y, P.Coordinate(step)))
  {
    var c, y' := y.coordinator, P.Do(y, P.Coordinate(step));
    P.CoordinatingExtends(c, step);
    NackedStays(c, step);
    PublishedQuietly(y.cluster, y'.coordinator.transportObjects, y'.coordinator.nextTransport);
    forall t | t in y'.coordinator.transportObjects
      ensures y'.coordinator.transportObjects[t].status != M.Unallocated
              <==> t in c.transportObjects && c.transportObjects[t].status != M.Unallocated
    {
      P.CoordinatingAllocatesNothing(c, step, t);
    }
    QuietlyAgrees(y, y');
  }

  lemma {:induction false} QuietlyAgrees<R>(y: P.Plane<R>, y': P.Plane<R>)
    requires P.PlaneOk(y) && RepliesOk(y) && Quiet(y.cluster, y'.cluster) && y'.late == y.late
    requires y'.coordinator.nacked == y.coordinator.nacked
    requires forall t :: t in y'.coordinator.transportObjects ==>
               (y'.coordinator.transportObjects[t].status == M.Unallocated
                <==> (t in y.coordinator.transportObjects ==>
                        y.coordinator.transportObjects[t].status == M.Unallocated))
    ensures RepliesOk(y')
  {
    forall t | t in y'.coordinator.transportObjects ensures RepliesAgree(y', t) {
      if t in y.coordinator.transportObjects { AgreementStays(y, y', t); } else { NewOneIsUnanswered(y, y', t); }
    }
  }

  lemma {:induction false} NewOneIsUnanswered<R>(y: P.Plane<R>, y': P.Plane<R>, t: int)
    requires P.PlaneOk(y) && Quiet(y.cluster, y'.cluster) && t !in y.coordinator.transportObjects
    requires t in y'.coordinator.transportObjects && y'.coordinator.transportObjects[t].status == M.Unallocated
    requires y'.coordinator.nacked == y.coordinator.nacked && y'.late == y.late
    ensures RepliesAgree(y', t)
  {
    forall reply ensures !RepliedTo(y'.cluster, t, reply) {
      UnaskedIsUnanswered(y, t, reply);
      RepliesStay(y.cluster, y'.cluster, t, reply);
    }
  }

  // ----- Something is published -----

  lemma {:induction false} DeliveryAnswersItsOwn<R>(w: W.Worker<R>, req: nat, msg: W.Message)
    requires W.Closed(w)
    ensures forall a :: a in W.Deliver(w, req, msg).answers ==> a in w.answers || a.req == req
  {}

  lemma {:induction false} PublishingKeepsReplies<R>(y: P.Plane<R>, step: P.Step<R>)
    requires P.PlaneOk(y) && RepliesOk(y) && P.Possible(y, step) && (step.NewRouter? || step.Command?)
    ensures RepliesOk(P.Do(y, step))
  {
    var k, y' := y.cluster, P.Do(y, step);
    var msg := if step.NewRouter? then W.NewRouter(IdGenerator.NthId(0, k.routerIds), step.workerId)
        else W.Update(step.id, step.command);
    assert y'.cluster == C.Publish(k, msg).(routerIds := y'.cluster.routerIds);
    PublishContinues(k, msg);
    forall j, a | 0 <= j < |k.workers| && a in y'.cluster.workers[j].answers && a !in k.workers[j].answers
      ensures a.req == |k.log|
    {
      DeliveryAnswersItsOwn(k.workers[j], |k.log|, msg);
    }
    NewestAnswered(y, y');
  }

  /** Only a message beyond the log was answered, and the coordinator stood still. */
  lemma {:induction false} NewestAnswered<R>(y: P.Plane<R>, y': P.Plane<R>)
    requires C.Inv(y.cluster) && RepliesOk(y) && Continues(y.cluster, y'.cluster)
    requires y'.coordinator == y.coordinator && y'.late == y.late
    requires |y'.cluster.log| == |y.cluster.log| + 1 && !y'.cluster.log[|y.cluster.log|].NewTransport?
    requires forall j, a ::
               (0 <= j < |y.cluster.workers| && a in y'.cluster.workers[j].answers && a !in y.cluster.workers[j].answers
                ==> a.req == |y.cluster.log|)
    ensures RepliesOk(y')
  {
    forall t | t in y'.coordinator.transportObjects ensures RepliesAgree(y', t) { AgreementStays(y, y', t); }
  }

  // ----- A promise settles -----

  /** One worker gave these answers to message `req`, and nothing else was answered or published. */
  ghost predicate Answers<R>(k: C.Cluster<R>, k': C.Cluster<R>, j: nat, req: nat, given: seq<W.Answer>) {
    && Continues(k, k') && k'.log == k.log && j < |k.workers| && req < |k.log|
    && k'.workers[j].answers == k.workers[j].answers + given
    && (forall a :: a in given ==> a.req == req)
    && (forall q :: 0 <= q < |k.workers| && q != j ==> k'.workers[q] == k.workers[q])
  }

  /** A worker's new answers are those of the settled promise. */
  lemma {:induction false} NewAnswers<R>(k: C.Cluster<R>, j: nat, i: nat, outcome: W.Outcome, newRef: R)
    requires C.Inv(k) && C.AllClosed(k) && C.Possible(k, C.Settles(j, i, outcome, newRef))
    ensures var k', job := C.Do(k, C.Settles(j, i, outcome, newRef)), k.workers[j].jobs[i];
            && Answers(k, k', j, job.req, WorkerReplies.Given(job, outcome))
            && (job.CreateTransport? <==> k.log[job.req].NewTransport?)
  {
    var job := k.workers[j].jobs[i];
    JobsRequest(k, j, job);
    SettlingContinues(k, j, i, outcome, newRef);
    SettledWorker(k, j, i, outcome, newRef);
    WorkerReplies.GivenIsAdded([], job, outcome);
  }

  lemma {:induction false} SettledWorker<R>(k: C.Cluster<R>, j: nat, i: nat, outcome: W.Outcome, newRef: R)
    requires C.Inv(k) && C.AllClosed(k) && C.Possible(k, C.Settles(j, i, outcome, newRef))
    ensures W.Settle(k.workers[j], i, outcome, newRef).answers
            == k.workers[j].answers + WorkerReplies.Given(k.workers[j].jobs[i], outcome)
  {
    assert C.WorkerOk(k, j);
    WorkerReplies.SettledAs(k.workers[j], k.log, i, outcome, newRef);
  }

  /** A job's message is in the log, and asks for a transport exactly when the job makes one. */
  lemma {:induction false} JobsRequest<R>(k: C.Cluster<R>, j: nat, job: W.Job<R>)
    requires C.Inv(k) && j < |k.workers| && job in k.workers[j].jobs
    ensures job.req < |k.log| && (job.CreateTransport? <==> k.log[job.req].NewTransport?)
  {
    assert C.WorkerOk(k, j) && WS.JobSourced(k.workers[j], k.log, job);
  }

  /** Answers to a message that does not ask for `t` are not about `t`. */
  lemma {:induction false} AnswersElsewhere<R>(y: P.Plane<R>, y': P.Plane<R>, j: nat, req: nat, given: seq<W.Answer>,
                                               t: int)
    requires C.Inv(y.cluster) && Answers(y.cluster, y'.cluster, j, req, given) && !P.Asks(y.cluster.log[req], t)
    requires t in y.coordinator.transportObjects && t in y'.coordinator.transportObjects && RepliesAgree(y, t)
    requires (y'.coordinator.transportObjects[t].status == M.Unallocated
              <==> y.coordinator.transportObjects[t].status == M.Unallocated)
    requires (t in y'.coordinator.nacked <==> t in y.coordinator.nacked) && (t in y'.late <==> t in y.late)
    ensures RepliesAgree(y', t)
  {
    forall q, a, reply | (0 <= q < |y.cluster.workers| && a in y'.cluster.workers[q].answers
                          && a !in y.cluster.workers[q].answers)
      ensures !RepliesTo(a, y'.cluster.log, t, reply)
    {
      assert q == j && a in given;
    }
    AgreementStays(y, y', t);
  }

  lemma {:induction false} SettlingKeepsReplies<R>(y: P.Plane<R>, step: P.Step<R>)
    requires P.PlaneOk(y) && RepliesOk(y) && P.Possible(y, step) && step.Settles?
    ensures RepliesOk(P.Do(y, step))
  {
    var j, job := step.worker, y.cluster.workers[step.worker].jobs[step.i];
    var heard := P.Heard(y.coordinator, job, step.outcome);
    NewAnswers(y.cluster, j, step.i, heard, step.newRef);
    if job.CreateTransport? {
      assert job in y.cluster.workers[j].jobs && job.assignedId in y.coordinator.requested;
      RequestNames(y.cluster, j, job);
      AnsweredTransport(y, P.Do(y, step), j, job, step.outcome.Resolved?, heard);
    } else {
      OtherSettling(y, P.Do(y, step), j, job.req, WorkerReplies.Given(job, heard));
    }
  }

  lemma {:induction false} OtherSettling<R>(y: P.Plane<R>, y': P.Plane<R>, j: nat, req: nat, given: seq<W.Answer>)
    requires C.Inv(y.cluster) && RepliesOk(y) && Answers(y.cluster, y'.cluster, j, req, given)
    requires !y.cluster.log[req].NewTransport? && y'.coordinator == y.coordinator && y'.late == y.late
    ensures RepliesOk(y')
  {
    forall t | t in y'.coordinator.transportObjects ensures RepliesAgree(y', t) {
      AnswersElsewhere(y, y', j, req, given, t);
    }
  }

  lemma {:induction false} AnsweredTransport<R>(y: P.Plane<R>, y': P.Plane<R>, j: nat, job: W.Job<R>, ok: bool,
                                                heard: W.Outcome)
    requires P.PlaneOk(y) && RepliesOk(y) && job.CreateTransport? && job.assignedId in y.coordinator.requested
    requires Answers(y.cluster, y'.cluster, j, job.req, WorkerReplies.Given(job, heard))
    requires P.Asks(y.cluster.log[job.req], job.assignedId)
    requires y'.coordinator == MeshResults.Do(y.coordinator, M.Answer(job.assignedId, ok))
    requires (heard.Rejected? <==> !ok) && (heard.AckThrew? <==> ok && P.SourceGone(y.coordinator, job.assignedId))
    requires y'.late == if heard.AckThrew? then y.late + {job.assignedId} else y.late
    ensures RepliesOk(y')
  {
    var c := y.coordinator;
    NackMovesOne(c, job.assignedId, ok);
    forall t | t in y'.coordinator.transportObjects ensures RepliesAgree(y', t) {
      P.AnswerMovesOne(c, job.assignedId, ok, t);
      if t == job.assignedId {
        UnansweredBefore(y, t);
        OwnReplies(y.cluster, y', j, job, heard);
      } else {
        AnswersElsewhere(y, y', j, job.req, WorkerReplies.Given(job, heard), t);
      }
    }
  }

  /** A transport the coordinator waits for has had no reply, and is not late. */
  lemma {:induction false} UnansweredBefore<R>(y: P.Plane<R>, t: int)
    requires P.PlaneOk(y) && RepliesOk(y) && t in y.coordinator.requested
    ensures t !in y.late && forall reply :: !RepliedTo(y.cluster, t, reply)
  {
    assert t in y.coordinator.transportObjects && RepliesAgree(y, t);
  }

  /** The request of a transport under way asked for that transport. */
  lemma {:induction false} RequestNames<R>(k: C.Cluster<R>, j: nat, job: W.Job<R>)
    requires C.Inv(k) && j < |k.workers| && job in k.workers[j].jobs && job.CreateTransport?
    ensures job.req < |k.log| && P.Asks(k.log[job.req], job.assignedId)
  {
    assert C.WorkerOk(k, j);
    var i: nat :| i < |k.workers[j].jobs| && k.workers[j].jobs[i] == job;
    assert C.JobAtHome(k.workers[j], k.log, k.workers[j].jobs[i]);
  }

  lemma {:induction false} NackMovesOne(c: M.Coordinator, id: int, ok: bool)
    requires M.Inv(c) && id in c.requested
    ensures MeshResults.Do(c, M.Answer(id, ok)).nacked
            == if !ok || P.SourceGone(c, id) then c.nacked + {id} else c.nacked
  {
    assert M.TransportOk(c, id);
  }

  /** The replies about the transport whose promise settles. */
  lemma {:induction false} OwnReplies<R>(k: C.Cluster<R>, y': P.Plane<R>, j: nat, job: W.Job<R>, heard: W.Outcome)
    requires job.CreateTransport? && job.assignedId in y'.coordinator.transportObjects
    requires Answers(k, y'.cluster, j, job.req, WorkerReplies.Given(job, heard))
    requires P.Asks(k.log[job.req], job.assignedId) && forall reply :: !RepliedTo(k, job.assignedId, reply)
    requires y'.coordinator.transportObjects[job.assignedId].status == M.Unallocated <==> heard.Rejected?
    requires heard.Rejected? ==> job.assignedId in y'.coordinator.nacked
    requires job.assignedId in y'.late <==> heard.AckThrew?
    ensures RepliesAgree(y', job.assignedId)
  {
    var t, k', given := job.assignedId, y'.cluster, WorkerReplies.Given(job, heard);
    forall reply ensures RepliedTo(k', t, reply) <==> exists a :: a in given && a.reply == reply {
      OnlyGiven(k, k', j, given, job.req, t, reply);
    }
    assert given[0] in given;
    if heard.AckThrew? { assert given[1] in given; }
  }

  lemma {:induction false} OnlyGiven<R>(k: C.Cluster<R>, k': C.Cluster<R>, j: nat, given: seq<W.Answer>, req: nat,
                                        t: int, reply: W.Reply)
    requires Answers(k, k', j, req, given) && P.Asks(k.log[req], t) && !RepliedTo(k, t, reply)
    ensures RepliedTo(k', t, reply) <==> exists a :: a in given && a.reply == reply
  {
    if a :| a in given && a.reply == reply {
      assert a in k'.workers[j].answers && RepliesTo(a, k'.log, t, reply);
    }
    if RepliedTo(k', t, reply) {
      var q, a :| 0 <= q < |k'.workers| && a in k'.workers[q].answers && RepliesTo(a, k'.log, t, reply);
      assert a !in k.workers[q].answers;
    }
  }

  // ----- Every run -----

  lemma {:induction false} StepKeepsReplies<R>(y: P.Plane<R>, step: P.Step<R>)
    requires P.PlaneOk(y) && RepliesOk(y) && P.Possible(y, step)
    ensures RepliesOk(P.Do(y, step))
  {
    match step
    case Coordinate(s) => CoordinatingKeepsReplies(y, s);
    case Settles(_, _, _, _) => SettlingKeepsReplies(y, step);
    case NewRouter(_) => PublishingKeepsReplies(y, step);
    case Command(_, _) => PublishingKeepsReplies(y, step);
  }

  lemma {:induction false} EveryRunKeepsReplies<R>(workerIds: seq<int>, steps: seq<P.Step<R>>)
    requires C.Distinct(workerIds)
    ensures P.Run(workerIds, steps).Some? ==> RepliesOk(P.Run(workerIds, steps).value)
    decreases |steps|
  {
    if steps != [] {
      EveryRunKeepsReplies(workerIds, steps[..|steps| - 1]);
      var before := P.Run(workerIds, steps[..|steps| - 1]);
      if before.Some? && P.Possible(before.value, steps[|steps| - 1]) {
        StepKeepsReplies(before.value, steps[|steps| - 1]);
      }
    }
  }

  /** In every run a coordinator transport is not unallocated if and only if some worker acknowledged a request for it;
      a worker reports a media failure for it if and only if it is unallocated and nacked; and an acknowledged one is
      nacked as well if and only if its acknowledgement came too late.  There is no other reply to a request for a
      transport. */
  lemma {:induction false} AllocatedExactlyWhenAWorkerAcked<R>(workerIds: seq<int>, steps: seq<P.Step<R>>, t: int)
    requires C.Distinct(workerIds)
    ensures match P.Run(workerIds, steps)
            case None => true
            case Some(y) => t in y.coordinator.transportObjects ==> RepliesAgree(y, t)
  {
    EveryRunKeepsReplies(workerIds, steps);
  }

  // ----- Each worker's own run -----

  lemma {:induction false} OneMoreStep<R>(workerId: int, ws: seq<WR.Step<R>>, t: WR.Trace<R>, step: WR.Step<R>)
    requires WR.Run(workerId, ws) == Some(t) && WR.Possible(t, step)
    ensures W.Closed(t.worker) && WR.Run(workerId, ws + [step]) == Some(WR.Do(t, step))
  {
    assert (ws + [step])[..|ws|] == ws;
  }

  lemma {:induction false} ProjectPublish<R>(workerId: int, ws: seq<WR.Step<R>>, k: C.Cluster<R>, msg: W.Message,
                                             j: nat)
    requires C.AllClosed(k) && j < |k.workers| && WR.Run(workerId, ws) == Some(C.TraceOf(k, j))
    requires msg.NewTransport? ==> msg.assignedId !in WR.AssignedTransports(k.log)
    ensures WR.Run(workerId, ws + [WR.Arrives(msg)]) == Some(C.TraceOf(C.Publish(k, msg), j))
  {
    OneMoreStep(workerId, ws, C.TraceOf(k, j), WR.Arrives(msg));
    assert WR.Do(C.TraceOf(k, j), WR.Arrives(msg)) == C.TraceOf(C.Publish(k, msg), j);
  }

  lemma {:induction false} ProjectPublished<R>(workerId: int, before: seq<WR.Step<R>>, k: C.Cluster<R>,
                                               objects: map<int, M.Transport>, upto: nat, j: nat)
    returns (ws: seq<WR.Step<R>>)
    requires C.Inv(k) && C.AllClosed(k) && P.InRange(k, objects, upto) && j < |k.workers|
    requires WR.Run(workerId, before) == Some(C.TraceOf(k, j))
    ensures var k' := P.Published(k, objects, upto);
            |k'.workers| == |k.workers| && WR.Run(workerId, ws) == Some(C.TraceOf(k', j))
    decreases upto - k.transportIds
  {
    if k.transportIds == upto {
      ws := before;
    } else {
      var id := k.transportIds;
      var step := C.Step<R>.AllocateTransport(objects[id].router, objects[id].source.None?);
      var msg := W.NewTransport(objects[id].router, id, objects[id].source.None?);
      C.StepKeepsInv(k, step);
      ProjectAllocation(workerId, before, k, msg, j);
      ws := ProjectPublished(workerId, before + [WR.Arrives(msg)], C.Do(k, step), objects, upto, j);
    }
  }

  /** The next transport id is published to worker `j` as to every worker. */
  lemma {:induction false} ProjectAllocation<R>(workerId: int, ws: seq<WR.Step<R>>, k: C.Cluster<R>, msg: W.Message,
                                                j: nat)
    requires C.Inv(k) && C.AllClosed(k) && j < |k.workers| && k.transportIds < IdGenerator.MAX_COUNTER
    requires msg.NewTransport? && msg.assignedId == k.transportIds && WR.Run(workerId, ws) == Some(C.TraceOf(k, j))
    ensures var k' := C.Do(k, C.AllocateTransport(msg.routerId, msg.isProducer));
            |k'.workers| == |k.workers| && WR.Run(workerId, ws + [WR.Arrives(msg)]) == Some(C.TraceOf(k', j))
  {
    P.IssuedBelow(k.log, k.routerIds, k.transportIds);
    ProjectPublish(workerId, ws, k, msg, j);
    AllocationTrace(k, msg, j);
  }

  lemma {:induction false} AllocationTrace<R>(k: C.Cluster<R>, msg: W.Message, j: nat)
    requires C.AllClosed(k) && j < |k.workers| && k.transportIds < IdGenerator.MAX_COUNTER
    requires msg.NewTransport? && msg.assignedId == k.transportIds
    ensures var k' := C.Do(k, C.AllocateTransport(msg.routerId, msg.isProducer));
            |k'.workers| == |k.workers| && C.TraceOf(k', j) == C.TraceOf(C.Publish(k, msg), j)
  {
    assert IdGenerator.NthId(0, k.transportIds) == k.transportIds;
    C.PublishWithIds(k, msg, k.routerIds, k.transportIds + 1);
    assert k.(routerIds := k.routerIds, transportIds := k.transportIds + 1)
        == k.(transportIds := k.transportIds + 1);
  }

  lemma {:induction false} ProjectStep<R>(workerId: int, before: seq<WR.Step<R>>, y: P.Plane<R>, step: P.Step<R>,
                                          j: nat)
    returns (ws: seq<WR.Step<R>>)
    requires P.PlaneOk(y) && P.Possible(y, step) && j < |y.cluster.workers|
    requires WR.Run(workerId, before) == Some(C.TraceOf(y.cluster, j))
    ensures P.PlaneOk(P.Do(y, step)) && |P.Do(y, step).cluster.workers| == |y.cluster.workers|
    ensures WR.Run(workerId, ws) == Some(C.TraceOf(P.Do(y, step).cluster, j))
  {
    var k, y' := y.cluster, P.Do(y, step);
    P.StepKeepsOk(y, step);
    match step
    case Coordinate(s) =>
      P.CoordinatingExtends(y.coordinator, s);
      ws := ProjectPublished(workerId, before, k, y'.coordinator.transportObjects, y'.coordinator.nextTransport, j);
    case NewRouter(id) =>
      var msg := W.NewRouter(IdGenerator.NthId(0, k.routerIds), id);
      ProjectPublish(workerId, before, k, msg, j);
      ws := before + [WR.Arrives(msg)];
      assert C.TraceOf(y'.cluster, j) == C.TraceOf(C.Publish(k, msg), j);
    case Command(id, command) =>
      ProjectPublish(workerId, before, k, W.Update(id, command), j);
      ws := before + [WR.Arrives(W.Update(id, command))];
    case Settles(q, i, outcome, newRef) =>
      var heard := P.Heard(y.coordinator, k.workers[q].jobs[i], outcome);
      if q == j {
        OneMoreStep(workerId, before, C.TraceOf(k, j), WR.Settles(i, heard, newRef));
        ws := before + [WR.Settles(i, heard, newRef)];
        assert WR.Do(C.TraceOf(k, j), WR.Settles(i, heard, newRef)) == C.TraceOf(y'.cluster, j);
      } else {
        ws := before;
        assert C.TraceOf(y'.cluster, j) == C.TraceOf(k, j);
      }
  }

  /** Inside any run of the coordinator with its workers, each worker makes a run of its own: what every run of one
      worker keeps, every worker keeps.  So its replies are the ones called for. */
  lemma {:induction false} EachWorkerMakesARun<R>(workerIds: seq<int>, steps: seq<P.Step<R>>, j: nat)
    returns (ws: seq<WR.Step<R>>)
    requires C.Distinct(workerIds) && P.Run(workerIds, steps).Some? && j < |workerIds|
    ensures var k := P.Run(workerIds, steps).value.cluster;
            && |k.workers| == |workerIds|
            && WR.Run(workerIds[j], ws) == Some(C.TraceOf(k, j))
            && WorkerReplies.Watch(workerIds[j], ws).Some?
            && WorkerReplies.Remarked(WorkerReplies.Watch(workerIds[j], ws).value)
    decreases |steps|
  {
    if steps == [] {
      ws := [];
    } else {
      var before := EachWorkerMakesARun(workerIds, steps[..|steps| - 1], j);
      ws := ProjectStep(workerIds[j], before, P.Run(workerIds, steps[..|steps| - 1]).value, steps[|steps| - 1], j);
    }
    WorkerReplies.EveryRunIsRemarked(workerIds[j], ws);
  }

  ghost predicate KindAgrees<R>(y: P.Plane<R>, j: nat, t: int) {
    P.LivesOn(y.cluster, j, t) ==>
      && t in y.coordinator.transportObjects
      && var w, source := y.cluster.workers[j], y.coordinator.transportObjects[t].source;
      && w.transports[t].router in w.heap
      && (t in w.heap[w.transports[t].router].producerTransports <==> source.None?)
      && (t in w.heap[w.transports[t].router].consumerTransports <==> source.Some?)
  }

  /** In every run a worker that holds a transport lists it, on the router object it is on, as a producer's exactly when
      the coordinator recorded no source for it, and as a consumer's exactly when it recorded one. */
  lemma {:induction false} KindsAgreeWithTheRecords<R>(workerIds: seq<int>, steps: seq<P.Step<R>>, j: nat, t: int)
    requires C.Distinct(workerIds)
    ensures match P.Run(workerIds, steps)
            case None => true
            case Some(y) => j < |workerIds| ==> KindAgrees(y, j, t)
  {
    var run := P.Run(workerIds, steps);
    if run.Some? && j < |workerIds| && P.LivesOn(run.value.cluster, j, t) {
      var y := run.value;
      var ws := EachWorkerMakesARun(workerIds, steps, j);
      WorkerKinds.TransportsAreListedAsAsked(workerIds[j], ws);
      var w := y.cluster.workers[j];
      assert WorkerKinds.ListedAsAsked(w.heap[w.transports[t].router], y.cluster.log, t);
      var q: nat :| WorkerKinds.AskedAndListed(w.heap[w.transports[t].router], y.cluster.log, t, q);
    }
  }

  /** A desk at work is a run of the coordinator with its workers, so what every such run keeps holds there too. */
  lemma {:induction false} EachDeskMakesARun<R>(workerIds: seq<int>, events: seq<Event<R>>) returns (ps: seq<P.Step<R>>)
    requires C.Distinct(workerIds) && Run(workerIds, events).Some?
    ensures P.Run(workerIds, ps) == Some(Run(workerIds, events).value.plane)
    decreases |events|
  {
    ps := [];
    if events != [] {
      var before := EachDeskMakesARun(workerIds, events[..|events| - 1]);
      ps := ProjectEvent(workerIds, before, Run(workerIds, events[..|events| - 1]).value, events[|events| - 1]);
    }
  }

  lemma {:induction false} ProjectEvent<R>(workerIds: seq<int>, before: seq<P.Step<R>>, d: Desk<R>, e: Event<R>)
    returns (ps: seq<P.Step<R>>)
    requires C.Distinct(workerIds) && DeskOk(d) && Possible(d, e) && P.Run(workerIds, before) == Some(d.plane)
    ensures P.Run(workerIds, ps) == Some(DispatchRuns.Do(d, e).plane)
  {
    match e
    case Create(_) => ps := before;
    case Happens(step) =>
      OneMorePlaneStep(workerIds, before, d.plane, step);
      ps := MarkedRun(workerIds, before + [step], P.Do(d.plane, step), Connecting(d.plane, step));
    case Receive(space, update) =>
      var decision := D.Decide(d.plane.coordinator, space in d.known, space, update);
      D.DecisionsAreSound(d.plane.coordinator, space in d.known, space, update);
      ps := before;
      if decision.Commanded? {
        var step := P.Step<R>.Command(decision.command.transport, ToWorker(decision.command.kind));
        OneMorePlaneStep(workerIds, before, d.plane, step);
        ps := before + [step];
      }
  }

  lemma {:induction false} OneMorePlaneStep<R>(workerIds: seq<int>, ps: seq<P.Step<R>>, y: P.Plane<R>, step: P.Step<R>)
    requires C.Distinct(workerIds) && P.Run(workerIds, ps) == Some(y) && P.Possible(y, step)
    ensures P.Run(workerIds, ps + [step]) == Some(P.Do(y, step))
  {
    assert (ps + [step])[..|ps|] == ps;
  }

  /** The status mark of an acknowledged connect is a coordinator step. */
  lemma {:induction false} MarkedRun<R>(workerIds: seq<int>, before: seq<P.Step<R>>, y: P.Plane<R>, t: Option<int>)
    returns (ps: seq<P.Step<R>>)
    requires C.Distinct(workerIds) && P.Run(workerIds, before) == Some(y)
    ensures P.Run(workerIds, ps) == Some(Marked(y, t))
  {
    ps := before;
    if Marked(y, t) != y {
      var step := P.Step<R>.Coordinate(M.Connect(t.value));
      OneMorePlaneStep(workerIds, before, y, step);
      assert P.Do(y, step) == Marked(y, t);
      ps := before + [step];
    }
  }
}
