/** The dispatcher with the coordinator and the workers it sends to, over every run: what the workers publish as answers
    to its commands reaches its callbacks, in the same step. */
module DispatchOffice {
  import opened Common
  import IdGenerator
  import D = Dispatch
  import M = Mesh
  import MeshResults
  import W = WorkerModel
  import WR = WorkerRuns
  import WS = WorkerSources
  import C = Cluster
  import P = MediaPlane
  import opened DispatchRuns
  import opened DispatchHistory
  import PlaneReplies
  import WorkerReplies
  import opened DispatchReplies

  datatype Office<R> = Office(desk: Desk<R>, d: D.Dispatcher)

  /** Some worker answered message `r`, positively or not. */
  ghost predicate WorkerSaid<R>(k: C.Cluster<R>, r: nat, ok: bool) {
    exists j, a :: 0 <= j < |k.workers| && a in k.workers[j].answers && Says(a, r, ok)
  }

  ghost predicate Says(a: W.Answer, r: nat, ok: bool) {
    a.req == r && (a.reply.Nack? <==> !ok)
  }

  ghost predicate WorkerReplied<R>(k: C.Cluster<R>, r: nat) {
    WorkerSaid(k, r, true) || WorkerSaid(k, r, false)
  }

  // ----- Runs -----

  /** What the event itself does to the dispatcher, before any worker is heard. */
  ghost function Taken<R>(o: Office<R>, e: Event<R>): D.Dispatcher
    requires DeskOk(o.desk) && D.DispatchOk(o.d) && o.d.coordinator == o.desk.plane.coordinator && Possible(o.desk, e)
  {
    match e
    case Create(space) => D.Do(o.d, D.Create(space)).value
    case Receive(space, update) =>
      D.ReceivingKeepsOk(o.d, space, update);
      D.Do(o.d, D.Receive(space, update)).value
    case Happens(step) =>
      match step
      case Coordinate(s) => D.Do(o.d, D.Coordinate(s)).value
      case Settles(j, i, outcome, _) =>
        var job := o.desk.plane.cluster.workers[j].jobs[i];
        if job.CreateTransport? then
          assert job in o.desk.plane.cluster.workers[j].jobs;
          D.Do(o.d, D.Coordinate(M.Answer(job.assignedId, outcome.Resolved?))).value
        else o.d
      case _ => o.d
  }

  /** The callback of a command that has been answered runs. */
  ghost function PassedOn<R>(d: D.Dispatcher, desk: Desk<R>): D.Dispatcher
    requires D.DispatchOk(d)
  {
    if u: nat :| Answerable(d, desk, u) then
      assert D.CommandOk(d.coordinator, d.outstanding[u]);
      D.Replied(d, u, WorkerSaid(desk.plane.cluster, desk.sent[u], true))
    else d
  }

  ghost predicate Answerable<R>(d: D.Dispatcher, desk: Desk<R>, u: nat) {
    u in d.outstanding && u in desk.sent && WorkerReplied(desk.plane.cluster, desk.sent[u])
  }

  lemma {:induction false} TakingKeepsOk<R>(o: Office<R>, e: Event<R>)
    requires DeskOk(o.desk) && D.DispatchOk(o.d) && o.d.coordinator == o.desk.plane.coordinator && Possible(o.desk, e)
    ensures D.DispatchOk(Taken(o, e))
  {
    match e
    case Create(space) =>
    case Receive(space, update) => D.ReceivingKeepsOk(o.d, space, update);
    case Happens(step) =>
      match step
      case Coordinate(s) => D.CoordinatingKeepsOk(o.d, s);
      case Settles(j, i, outcome, _) =>
        var job := o.desk.plane.cluster.workers[j].jobs[i];
        if job.CreateTransport? {
          assert job in o.desk.plane.cluster.workers[j].jobs;
          D.CoordinatingKeepsOk(o.d, M.Answer(job.assignedId, outcome.Resolved?));
        }
      case _ =>
  }

  ghost function Do<R>(o: Office<R>, e: Event<R>): Office<R>
    requires DeskOk(o.desk) && D.DispatchOk(o.d) && o.d.coordinator == o.desk.plane.coordinator && Possible(o.desk, e)
  {
    TakingKeepsOk(o, e);
    var desk := DispatchRuns.Do(o.desk, e);
    Office(desk, PassedOn(Taken(o, e), desk))
  }

  // ----- The invariant -----

  /** Every command in the log went out for an update. */
  ghost predicate AllSent<R>(desk: Desk<R>) {
    forall r :: 0 <= r < |desk.plane.cluster.log| && desk.plane.cluster.log[r].Update? ==> SentFor(desk, r)
  }

  ghost predicate SentFor<R>(desk: Desk<R>, r: nat) {
    exists u :: u in desk.sent && desk.sent[u] == r
  }

  /** An update that went out waits for the worker under its number, or was answered as the worker answered. */
  ghost predicate PassedFor<R>(k: C.Cluster<R>, sent: map<nat, nat>, rejected: set<nat>, d: D.Dispatcher, u: nat) {
    && (u in d.outstanding <==> u in sent && !WorkerReplied(k, sent[u]))
    && (u in d.outstanding ==>
          sent[u] < |k.log| && k.log[sent[u]] == W.Update(d.outstanding[u].transport, ToWorker(d.outstanding[u].kind)))
    && ((u, D.Ack) in d.answers <==> u in sent && WorkerSaid(k, sent[u], true))
    && ((u, D.Nack) in d.answers <==> u in rejected || (u in sent && WorkerSaid(k, sent[u], false)))
  }

  ghost predicate PassedOk<R>(o: Office<R>, u: nat) {
    PassedFor(o.desk.plane.cluster, o.desk.sent, o.desk.rejected, o.d, u)
  }

  ghost predicate SameDesk<R>(o: Office<R>) {
    && o.d.coordinator == o.desk.plane.coordinator && o.d.known == o.desk.known
    && o.d.received == |o.desk.arrived| && o.d.ignored == o.desk.ignored && o.d.silent == o.desk.silent
  }

  ghost predicate OfficeOk<R>(o: Office<R>) {
    && DeskOk(o.desk) && AllSent(o.desk) && D.DispatchOk(o.d) && SameDesk(o)
    && forall u: nat :: PassedOk(o, u)
  }

  // ----- A command has one reply -----

  lemma {:induction false} TwiceCounted(answers: seq<W.Answer>, a: W.Answer, b: W.Answer)
    requires a in answers && b in answers && a != b && a.req == b.req
    ensures WR.AnswerRequests(answers)[a.req] >= 2
  {
    var s := seq(|answers|, i requires 0 <= i < |answers| => answers[i].req);
    var p: nat :| p < |answers| && answers[p] == a;
    var q: nat :| q < |answers| && answers[q] == b;
    var low, high := if p < q then p else q, if p < q then q else p;
    TwoPlaces(s, low, high);
  }

  lemma {:induction false} TwoPlaces(s: seq<nat>, low: nat, high: nat)
    requires low < high < |s| && s[low] == s[high]
    ensures multiset(s)[s[low]] >= 2
  {
    var rest := s[low + 1..];
    assert s == s[..low] + [s[low]] + rest;
    assert rest[high - low - 1] == s[high] && s[high] in multiset(rest);
  }

  lemma {:induction false} OneReply<R>(k: C.Cluster<R>, r: nat)
    requires C.Inv(k) && r < |k.log| && k.log[r].Update?
    ensures !(WorkerSaid(k, r, true) && WorkerSaid(k, r, false))
  {
    if WorkerSaid(k, r, true) && WorkerSaid(k, r, false) {
      var j: nat, a :| j < |k.workers| && a in k.workers[j].answers && Says(a, r, true);
      var q: nat, b :| q < |k.workers| && b in k.workers[q].answers && Says(b, r, false);
      assert C.WorkerOk(k, j) && C.WorkerOk(k, q);
      assert WR.CountOk(C.TraceOf(k, j), r) && WR.CountOk(C.TraceOf(k, q), r);
      WR.AnswerIsCounted(k.workers[j].answers, a);
      WR.AnswerIsCounted(k.workers[q].answers, b);
      assert r in k.taken[j] && r in k.taken[q];
      TwiceCounted(k.workers[j].answers, a, b);
    }
  }

  /** When no new answer is to `r`, nothing changed for `r`. */
  lemma {:induction false} SaidStays<R>(k: C.Cluster<R>, k': C.Cluster<R>, r: nat, ok: bool)
    requires Continues(k, k')
    requires forall j, a :: 0 <= j < |k.workers| && a in k'.workers[j].answers && a !in k.workers[j].answers ==>
               a.req != r
    ensures WorkerSaid(k', r, ok) <==> WorkerSaid(k, r, ok)
  {
    if WorkerSaid(k, r, ok) {
      var j, a :| 0 <= j < |k.workers| && a in k.workers[j].answers && Says(a, r, ok);
      ExtendedKeeps(k.workers[j].answers, k'.workers[j].answers, a);
    }
    if WorkerSaid(k', r, ok) {
      var j, a :| 0 <= j < |k'.workers| && a in k'.workers[j].answers && Says(a, r, ok);
      assert a in k.workers[j].answers;
    }
  }

  // ----- The answer is passed on -----

  /** The workers answered message `r`, and no other; it is a command, and it had no answer. */
  ghost predicate Hears<R>(k: C.Cluster<R>, k': C.Cluster<R>, r: nat) {
    && Continues(k, k') && !WorkerReplied(k, r)
    && !(WorkerSaid(k', r, true) && WorkerSaid(k', r, false))
    && (forall j, a :: 0 <= j < |k.workers| && a in k'.workers[j].answers && a !in k.workers[j].answers ==> a.req == r)
  }

  lemma {:induction false} HeardOnly<R>(k: C.Cluster<R>, k': C.Cluster<R>, r: nat, q: nat, ok: bool)
    requires Hears(k, k', r) && q != r
    ensures WorkerSaid(k', q, ok) <==> WorkerSaid(k, q, ok)
  {
    SaidStays(k, k', q, ok);
  }

  lemma {:induction false} NotHeard<R>(k: C.Cluster<R>, k': C.Cluster<R>, d: D.Dispatcher, desk: Desk<R>, r: nat)
    requires D.DispatchOk(d) && desk.plane.cluster == k' && Hears(k, k', r)
    requires forall u: nat :: PassedFor(k, desk.sent, desk.rejected, d, u)
    requires (forall u :: u in desk.sent ==> desk.sent[u] != r) || !WorkerReplied(k', r)
    ensures PassedOn(d, desk) == d
    ensures forall u: nat :: PassedFor(k', desk.sent, desk.rejected, d, u)
  {
    forall u: nat ensures PassedFor(k', desk.sent, desk.rejected, d, u) && !Answerable(d, desk, u) {
      assert PassedFor(k, desk.sent, desk.rejected, d, u);
      if u in desk.sent && desk.sent[u] != r {
        HeardOnly(k, k', r, desk.sent[u], true);
        HeardOnly(k, k', r, desk.sent[u], false);
      }
    }
  }

  lemma {:induction false} HeardFor<R>(k: C.Cluster<R>, k': C.Cluster<R>, d: D.Dispatcher, desk: Desk<R>, u: nat)
    requires D.DispatchOk(d) && desk.plane.cluster == k' && u in desk.sent && Hears(k, k', desk.sent[u])
    requires forall v: nat :: PassedFor(k, desk.sent, desk.rejected, d, v)
    requires forall v :: v in desk.sent && desk.sent[v] == desk.sent[u] ==> v == u
    requires WorkerReplied(k', desk.sent[u])
    ensures u in d.outstanding && D.CommandOk(d.coordinator, d.outstanding[u])
    ensures PassedOn(d, desk) == D.Replied(d, u, WorkerSaid(k', desk.sent[u], true))
    ensures forall v: nat :: PassedFor(k', desk.sent, desk.rejected, PassedOn(d, desk), v)
  {
    var r := desk.sent[u];
    assert PassedFor(k, desk.sent, desk.rejected, d, u) && Answerable(d, desk, u);
    forall v: nat | Answerable(d, desk, v) ensures v == u {
      assert PassedFor(k, desk.sent, desk.rejected, d, v);
      if desk.sent[v] != r {
        HeardOnly(k, k', r, desk.sent[v], true);
        HeardOnly(k, k', r, desk.sent[v], false);
      }
    }
    assert PassedOn(d, desk) == D.Replied(d, u, WorkerSaid(k', r, true));
    forall v: nat ensures PassedFor(k', desk.sent, desk.rejected, PassedOn(d, desk), v) {
      PassedOne(k, k', d, desk, u, v);
    }
  }

  lemma {:induction false} PassedOne<R>(k: C.Cluster<R>, k': C.Cluster<R>, d: D.Dispatcher, desk: Desk<R>, u: nat,
                                        v: nat)
    requires D.DispatchOk(d) && u in desk.sent && Hears(k, k', desk.sent[u]) && WorkerReplied(k', desk.sent[u])
    requires PassedFor(k, desk.sent, desk.rejected, d, u) && PassedFor(k, desk.sent, desk.rejected, d, v)
    requires v in desk.sent && desk.sent[v] == desk.sent[u] ==> v == u
    requires D.CommandOk(d.coordinator, d.outstanding[u])
    ensures PassedFor(k', desk.sent, desk.rejected, D.Replied(d, u, WorkerSaid(k', desk.sent[u], true)), v)
  {
    var ok := WorkerSaid(k', desk.sent[u], true);
    DispatchReplies.OneMoreAnswer(d.answers, u, if ok then D.Ack else D.Nack);
    if v in desk.sent && v != u {
      HeardOnly(k, k', desk.sent[u], desk.sent[v], true);
      HeardOnly(k, k', desk.sent[u], desk.sent[v], false);
    }
  }

  // ----- Nothing is answered -----

  lemma {:induction false} NothingHeard<R>(k: C.Cluster<R>, k': C.Cluster<R>, d: D.Dispatcher, desk: Desk<R>)
    requires D.DispatchOk(d) && desk.plane.cluster == k' && C.Inv(k) && C.Inv(k') && Continues(k, k')
    requires forall j :: 0 <= j < |k.workers| ==> k'.workers[j].answers == k.workers[j].answers
    requires forall u: nat :: PassedFor(k, desk.sent, desk.rejected, d, u)
    ensures PassedOn(d, desk) == d
    ensures forall u: nat :: PassedFor(k', desk.sent, desk.rejected, d, u)
  {
    AnswersAreLogged(k);
    AnswersAreLogged(k');
    assert !WorkerReplied(k, |k'.log|) && !WorkerReplied(k', |k'.log|);
    NotHeard(k, k', d, desk, |k'.log|);
  }

  lemma {:induction false} AllSentStays<R>(desk: Desk<R>, desk': Desk<R>)
    requires AllSent(desk) && desk.plane.cluster.log <= desk'.plane.cluster.log && desk'.sent == desk.sent
    requires forall r :: |desk.plane.cluster.log| <= r < |desk'.plane.cluster.log| ==>
               !desk'.plane.cluster.log[r].Update?
    ensures AllSent(desk')
  {
    forall r | 0 <= r < |desk'.plane.cluster.log| && desk'.plane.cluster.log[r].Update? ensures SentFor(desk', r) {
      assert SentFor(desk, r);
      var u :| u in desk.sent && desk.sent[u] == r;
      assert desk'.sent[u] == r;
    }
  }

  /** Only the plane of the desk moved. */
  ghost predicate SamePapers<R>(desk: Desk<R>, desk': Desk<R>) {
    desk' == desk.(plane := desk'.plane)
  }

  /** A step of the plane that answers nothing and publishes no command. */
  lemma {:induction false} QuietKeepsOffice<R>(o: Office<R>, desk: Desk<R>, d: D.Dispatcher)
    requires OfficeOk(o) && DeskOk(desk) && D.DispatchOk(d) && SamePapers(o.desk, desk)
    requires Quiet(o.desk.plane.cluster, desk.plane.cluster)
    requires d == o.d.(coordinator := desk.plane.coordinator)
    ensures OfficeOk(Office(desk, PassedOn(d, desk)))
  {
    AllSentStays(o.desk, desk);
    PassedForSame(o, d);
    NothingHeard(o.desk.plane.cluster, desk.plane.cluster, d, desk);
  }

  lemma {:induction false} PassedForSame<R>(o: Office<R>, d: D.Dispatcher)
    requires (forall u: nat :: PassedOk(o, u)) && d.outstanding == o.d.outstanding && d.answers == o.d.answers
    ensures forall u: nat :: PassedFor(o.desk.plane.cluster, o.desk.sent, o.desk.rejected, d, u)
  {
    forall u: nat ensures PassedFor(o.desk.plane.cluster, o.desk.sent, o.desk.rejected, d, u) { assert PassedOk(o, u); }
  }

  lemma {:induction false} CoordinatingKeepsOffice<R>(o: Office<R>, step: M.Step)
    requires OfficeOk(o) && Possible(o.desk, Happens(P.Coordinate(step)))
    ensures OfficeOk(Do(o, Happens(P.Coordinate(step))))
  {
    var y, e := o.desk.plane, Event<R>.Happens(P.Coordinate(step));
    P.CoordinatingExtends(y.coordinator, step);
    var c := MeshResults.Do(y.coordinator, step);
    PublishedQuietly(y.cluster, c.transportObjects, c.nextTransport);
    DispatchRuns.EventKeepsOk(o.desk, e);
    TakingKeepsOk(o, e);
    QuietKeepsOffice(o, DispatchRuns.Do(o.desk, e), Taken(o, e));
  }

  lemma {:induction false} NewRouterKeepsOffice<R>(o: Office<R>, workerId: int)
    requires OfficeOk(o) && Possible(o.desk, Happens(P.NewRouter(workerId)))
    ensures OfficeOk(Do(o, Happens(P.NewRouter(workerId))))
  {
    var k, e := o.desk.plane.cluster, Event<R>.Happens(P.NewRouter(workerId));
    var msg := W.NewRouter(IdGenerator.NthId(0, k.routerIds), workerId);
    QuietPublish(k.(routerIds := k.routerIds + 1), msg);
    DispatchRuns.EventKeepsOk(o.desk, e);
    assert Quiet(k, DispatchRuns.Do(o.desk, e).plane.cluster);
    QuietKeepsOffice(o, DispatchRuns.Do(o.desk, e), o.d);
  }

  // ----- A promise settles -----

  /** What is in flight has no answer from any worker. */
  lemma {:induction false} InFlightIsUnanswered<R>(k: C.Cluster<R>, j: nat, job: W.Job<R>)
    requires C.Inv(k) && j < |k.workers| && job in k.workers[j].jobs
    ensures !WorkerReplied(k, job.req)
  {
    assert C.WorkerOk(k, j);
    WR.JobIsTaken(C.TraceOf(k, j), job);
    forall q, a | 0 <= q < |k.workers| && a in k.workers[q].answers ensures a.req != job.req {
      if q == j {
        WR.AnsweredIsDone(C.TraceOf(k, j), job, a);
      } else if a.req == job.req {
        assert C.WorkerOk(k, q) && WR.CountOk(C.TraceOf(k, q), a.req);
        WR.AnswerIsCounted(k.workers[q].answers, a);
      }
    }
  }

  lemma {:induction false} SettlingHears<R>(k: C.Cluster<R>, k': C.Cluster<R>, j: nat, job: W.Job<R>,
                                            outcome: W.Outcome)
    requires C.Inv(k) && C.Inv(k') && j < |k.workers| && job in k.workers[j].jobs
    requires PlaneReplies.Answers(k, k', j, job.req, WorkerReplies.Given(job, outcome)) && k.log[job.req].Update?
    ensures Hears(k, k', job.req) && WorkerReplied(k', job.req)
  {
    var given := WorkerReplies.Given(job, outcome);
    InFlightIsUnanswered(k, j, job);
    OneReply(k', job.req);
    assert given[0] in k'.workers[j].answers && Says(given[0], job.req, !given[0].reply.Nack?);
  }

  /** A promise settled whose request is a command: its callback runs, and only its. */
  lemma {:induction false} CommandSettles<R>(o: Office<R>, desk: Desk<R>, u: nat, ok: bool)
    requires D.DispatchOk(o.d) && SameDesk(o) && (forall v: nat :: PassedOk(o, v)) && SamePapers(o.desk, desk)
    requires u in desk.sent && forall v :: v in desk.sent && desk.sent[v] == desk.sent[u] ==> v == u
    requires Hears(o.desk.plane.cluster, desk.plane.cluster, desk.sent[u])
    requires WorkerReplied(desk.plane.cluster, desk.sent[u]) && ok == WorkerSaid(desk.plane.cluster, desk.sent[u], true)
    requires u in o.d.outstanding && D.CommandOk(o.d.coordinator, o.d.outstanding[u])
    requires D.Replied(o.d, u, ok).coordinator == desk.plane.coordinator
    ensures var o' := Office(desk, PassedOn(o.d, desk));
            D.DispatchOk(o'.d) && SameDesk(o') && forall v: nat :: PassedOk(o', v)
  {
    PassedForSame(o, o.d);
    HeardFor(o.desk.plane.cluster, desk.plane.cluster, o.d, desk, u);
    D.ReplyingKeepsOk(o.d, u, ok);
    ReplyingKeepsPapers(o.d, u, ok);
  }

  lemma {:induction false} ReplyingKeepsPapers(d: D.Dispatcher, u: nat, ok: bool)
    requires u in d.outstanding && D.CommandOk(d.coordinator, d.outstanding[u])
    ensures var d' := D.Replied(d, u, ok);
            d'.known == d.known && d'.received == d.received && d'.ignored == d.ignored && d'.silent == d.silent
  {}

  /** A promise settled whose request is not a command: no callback runs. */
  lemma {:induction false} OtherSettles<R>(o: Office<R>, desk: Desk<R>, d: D.Dispatcher, r: nat)
    requires OfficeOk(o) && DeskOk(desk) && D.DispatchOk(d) && SamePapers(o.desk, desk)
    requires d == o.d.(coordinator := desk.plane.coordinator)
    requires Continues(o.desk.plane.cluster, desk.plane.cluster)
    requires desk.plane.cluster.log == o.desk.plane.cluster.log
    requires r < |o.desk.plane.cluster.log| && !o.desk.plane.cluster.log[r].Update?
    requires forall j, a | 0 <= j < |o.desk.plane.cluster.workers| && a in desk.plane.cluster.workers[j].answers ::
               a in o.desk.plane.cluster.workers[j].answers || a.req == r
    ensures OfficeOk(Office(desk, PassedOn(d, desk)))
  {
    AllSentStays(o.desk, desk);
    PassedForSame(o, d);
    NoCommandHeard(o.desk.plane.cluster, d, desk, r);
  }

  /** What was answered is no command. */
  lemma {:induction false} NoCommandHeard<R>(k: C.Cluster<R>, d: D.Dispatcher, desk: Desk<R>, r: nat)
    requires D.DispatchOk(d) && SentOk(desk.plane.cluster.log, desk.sent) && Continues(k, desk.plane.cluster)
    requires forall u: nat :: PassedFor(k, desk.sent, desk.rejected, d, u)
    requires r < |desk.plane.cluster.log| && !desk.plane.cluster.log[r].Update?
    requires forall j, a | 0 <= j < |k.workers| && a in desk.plane.cluster.workers[j].answers ::
               a in k.workers[j].answers || a.req == r
    ensures PassedOn(d, desk) == d
    ensures forall u: nat :: PassedFor(desk.plane.cluster, desk.sent, desk.rejected, d, u)
  {
    forall u: nat
      ensures PassedFor(desk.plane.cluster, desk.sent, desk.rejected, d, u) && !Answerable(d, desk, u)
    {
      assert PassedFor(k, desk.sent, desk.rejected, d, u);
      if u in desk.sent {
        SaidStays(k, desk.plane.cluster, desk.sent[u], true);
        SaidStays(k, desk.plane.cluster, desk.sent[u], false);
      }
    }
  }

  /** The media call in flight for a command is of the command's kind. */
  lemma {:induction false} JobOfCommand<R>(k: C.Cluster<R>, j: nat, job: W.Job<R>)
    requires C.Inv(k) && j < |k.workers| && job in k.workers[j].jobs
    ensures job.req < |k.log| && (k.log[job.req].Update? ==> !job.CreateTransport? && !job.CreateRouter?)
    ensures k.log[job.req].Update? ==> (job.Connecting? <==> k.log[job.req].command.Connect?)
    ensures job.Connecting? ==> k.log[job.req].Update?
  {
    assert C.WorkerOk(k, j) && WS.JobSourced(k.workers[j], k.log, job);
  }

  /** The transport a settled connect is about, told from the log. */
  lemma {:induction false} ConnectingAs<R>(y: P.Plane<R>, step: P.Step<R>)
    requires P.PlaneOk(y) && P.Possible(y, step) && step.Settles?
    ensures var job := y.cluster.workers[step.worker].jobs[step.i];
            && job.req < |y.cluster.log|
            && (y.cluster.log[job.req].Update? ==>
                  && !job.CreateTransport?
                  && Connecting(y, step)
                     == if step.outcome.Resolved? && y.cluster.log[job.req].command.Connect?
                        then Some(y.cluster.log[job.req].id) else None)
  {
    var job := y.cluster.workers[step.worker].jobs[step.i];
    assert job in y.cluster.workers[step.worker].jobs;
    JobOfCommand(y.cluster, step.worker, job);
  }

  /** What settles for a command changes the coordinator by the mark alone. */
  lemma {:induction false} MovedAs<R>(y: P.Plane<R>, step: P.Step<R>)
    requires P.PlaneOk(y) && P.Possible(y, step) && step.Settles?
    requires !y.cluster.workers[step.worker].jobs[step.i].CreateTransport?
    ensures Moved(y, step).coordinator == Marked(y, Connecting(y, step)).coordinator
  {}

  lemma {:induction false} MarksTheSame<R>(y: P.Plane<R>, d: D.Dispatcher, u: nat, ok: bool)
    requires d.coordinator == y.coordinator && u in d.outstanding && D.CommandOk(d.coordinator, d.outstanding[u])
    ensures D.Replied(d, u, ok).coordinator
            == Marked(y, if ok && ToWorker(d.outstanding[u].kind).Connect? then Some(d.outstanding[u].transport)
                         else None).coordinator
  {}

  lemma {:induction false} GivenSign<R>(k': C.Cluster<R>, j: nat, job: W.Job<R>, outcome: W.Outcome)
    requires C.Inv(k') && j < |k'.workers| && job.req < |k'.log| && k'.log[job.req].Update? && !outcome.AckThrew?
    requires WorkerReplies.Given(job, outcome)[0] in k'.workers[j].answers
    ensures WorkerSaid(k', job.req, true) == outcome.Resolved?
  {
    var a := WorkerReplies.Given(job, outcome)[0];
    OneReply(k', job.req);
    assert Says(a, job.req, outcome.Resolved?);
  }

  lemma {:induction false} SettlingKeepsOffice<R>(o: Office<R>, step: P.Step<R>)
    requires OfficeOk(o) && step.Settles? && Possible(o.desk, Happens(step))
    ensures OfficeOk(Do(o, Happens(step)))
  {
    var k, desk := o.desk.plane.cluster, DispatchRuns.Do(o.desk, Happens(step));
    var job := k.workers[step.worker].jobs[step.i];
    DispatchRuns.EventKeepsOk(o.desk, Happens(step));
    ConnectingAs(o.desk.plane, step);
    if k.log[job.req].Update? {
      assert SentFor(o.desk, job.req);
      var u: nat :| u in o.desk.sent && o.desk.sent[u] == job.req;
      SettlesFor(o, desk, step, u);
    } else {
      SettlesElsewhere(o, desk, step);
    }
  }

  lemma {:induction false} SettlesElsewhere<R>(o: Office<R>, desk: Desk<R>, step: P.Step<R>)
    requires OfficeOk(o) && step.Settles? && Possible(o.desk, Happens(step))
    requires DeskOk(desk) && desk == DispatchRuns.Do(o.desk, Happens(step))
    requires var k := o.desk.plane.cluster;
             var req := k.workers[step.worker].jobs[step.i].req;
             req < |k.log| && !k.log[req].Update?
    ensures D.DispatchOk(Taken(o, Happens(step)))
    ensures OfficeOk(Office(desk, PassedOn(Taken(o, Happens(step)), desk)))
  {
    var job := o.desk.plane.cluster.workers[step.worker].jobs[step.i];
    assert job in o.desk.plane.cluster.workers[step.worker].jobs;
    JobOfCommand(o.desk.plane.cluster, step.worker, job);
    TakingKeepsOk(o, Happens(step));
    SettlingAnswers(o.desk.plane, step);
    OtherSettles(o, desk, Taken(o, Happens(step)), job.req);
  }

  lemma {:induction false} SettlingAnswers<R>(y: P.Plane<R>, step: P.Step<R>)
    requires P.PlaneOk(y) && P.Possible(y, step) && step.Settles?
    ensures var job := y.cluster.workers[step.worker].jobs[step.i];
            PlaneReplies.Answers(y.cluster, Moved(y, step).cluster, step.worker, job.req,
                                 WorkerReplies.Given(job, P.Heard(y.coordinator, job, step.outcome)))
  {
    var job := y.cluster.workers[step.worker].jobs[step.i];
    PlaneReplies.NewAnswers(y.cluster, step.worker, step.i, P.Heard(y.coordinator, job, step.outcome), step.newRef);
  }

  lemma {:induction false} SettlesFor<R>(o: Office<R>, desk: Desk<R>, step: P.Step<R>, u: nat)
    requires OfficeOk(o) && step.Settles? && P.Possible(o.desk.plane, step) && u in o.desk.sent
    requires DeskOk(desk) && SamePapers(o.desk, desk) && desk.plane == Moved(o.desk.plane, step)
    requires var k := o.desk.plane.cluster;
             var job := k.workers[step.worker].jobs[step.i];
             job.req == o.desk.sent[u] < |k.log| && k.log[job.req].Update?
    ensures OfficeOk(Office(desk, PassedOn(o.d, desk)))
  {
    var k, k' := o.desk.plane.cluster, desk.plane.cluster;
    ConnectingAs(o.desk.plane, step);
    SettlingAnswers(o.desk.plane, step);
    AnsweredBySettling(k, k', step.worker, k.workers[step.worker].jobs[step.i], step.outcome);
    assert PassedOk(o, u);
    MovedAs(o.desk.plane, step);
    MarksTheSame(o.desk.plane, o.d, u, step.outcome.Resolved?);
    AllSentStays(o.desk, desk);
    CommandSettles(o, desk, u, step.outcome.Resolved?);
  }

  lemma {:induction false} AnsweredBySettling<R>(k: C.Cluster<R>, k': C.Cluster<R>, j: nat, job: W.Job<R>,
                                                 outcome: W.Outcome)
    requires C.Inv(k) && C.Inv(k') && j < |k.workers| && job in k.workers[j].jobs && !outcome.AckThrew?
    requires PlaneReplies.Answers(k, k', j, job.req, WorkerReplies.Given(job, outcome)) && k.log[job.req].Update?
    ensures Hears(k, k', job.req) && WorkerReplied(k', job.req)
    ensures WorkerSaid(k', job.req, true) == outcome.Resolved?
  {
    SettlingHears(k, k', j, job, outcome);
    assert WorkerReplies.Given(job, outcome)[0] in k'.workers[j].answers;
    GivenSign(k', j, job, outcome);
  }

  // ----- An update arrives -----

  /** The new update is not on record anywhere yet. */
  lemma {:induction false} NewUpdate<R>(o: Office<R>)
    requires OfficeOk(o)
    ensures var n := |o.desk.arrived|;
            && n !in o.desk.sent && n !in o.desk.rejected && n !in o.d.outstanding
            && (n, D.Ack) !in o.d.answers && (n, D.Nack) !in o.d.answers
  {
    var n := |o.desk.arrived|;
    assert PassedOk(o, n);
    assert Place(o.desk.ignored, o.desk.silent, o.desk.rejected, o.desk.sent.Keys, n) == D.One(n < |o.desk.arrived|);
  }

  /** Ignored, silent or turned away: no worker is involved. */
  lemma {:induction false} KeptHere<R>(o: Office<R>, desk: Desk<R>, d: D.Dispatcher, a: Arrival, decision: D.Decision)
    requires OfficeOk(o) && DeskOk(desk) && D.DispatchOk(d) && !decision.Throws? && !decision.Commanded?
    requires desk == DispatchRuns.Applied(o.desk, a, decision) && Some(d) == D.Applied(o.d, decision)
    ensures OfficeOk(Office(desk, PassedOn(d, desk)))
  {
    var k := o.desk.plane.cluster;
    NewUpdate(o);
    KeptPapers(o, desk, d, a, decision);
    forall u: nat ensures PassedFor(k, desk.sent, desk.rejected, d, u) {
      assert PassedOk(o, u);
      KeptFor(k, o.desk.sent, o.desk.rejected, o.d, |o.desk.arrived|, decision.Rejected?, u);
    }
    SelfContinues(k);
    NothingHeard(k, k, d, desk);
    AllSentStays(o.desk, desk);
  }

  lemma {:induction false} KeptPapers<R>(o: Office<R>, desk: Desk<R>, d: D.Dispatcher, a: Arrival, decision: D.Decision)
    requires P.PlaneOk(o.desk.plane) && SameDesk(o) && !decision.Throws? && !decision.Commanded?
    requires desk == DispatchRuns.Applied(o.desk, a, decision) && Some(d) == D.Applied(o.d, decision)
    ensures SameDesk(Office(desk, d)) && desk.plane == o.desk.plane && desk.sent == o.desk.sent
    ensures var n := |o.desk.arrived|;
            && desk.rejected == o.desk.rejected + (if decision.Rejected? then {n} else {})
            && d.answers == o.d.answers + (if decision.Rejected? then [(n, D.Nack)] else [])
            && d.outstanding == o.d.outstanding
  {}

  lemma {:induction false} KeptFor<R>(k: C.Cluster<R>, sent: map<nat, nat>, rejected: set<nat>, d: D.Dispatcher, n: nat,
                                      nacked: bool, u: nat)
    requires PassedFor(k, sent, rejected, d, u) && n !in sent && n !in d.outstanding
    ensures PassedFor(k, sent, rejected + (if nacked then {n} else {}),
                      d.(answers := d.answers + (if nacked then [(n, D.Nack)] else [])), u)
  {
    if nacked { DispatchReplies.OneMoreAnswer(d.answers, n, D.Nack); }
  }

  lemma {:induction false} SelfContinues<R>(k: C.Cluster<R>)
    ensures Continues(k, k)
  {}

  /** The command is in the log, and no worker has answered it. */
  lemma {:induction false} JustSent<R>(k: C.Cluster<R>, k1: C.Cluster<R>, sent: map<nat, nat>, rejected: set<nat>,
                                       d: D.Dispatcher, command: D.Command, n: nat)
    requires C.Inv(k) && forall u: nat :: PassedFor(k, sent, rejected, d, u)
    requires k1 == k.(log := k.log + [W.Update(command.transport, ToWorker(command.kind))])
    requires n !in rejected && (n, D.Ack) !in d.answers && (n, D.Nack) !in d.answers
    ensures !WorkerReplied(k1, |k.log|)
    ensures var sent', d' := sent[n := |k.log|], d.(outstanding := d.outstanding[n := command]);
            forall u: nat :: PassedFor(k1, sent', rejected, d', u)
  {
    AnswersAreLogged(k);
    SameSaid(k, k1);
    var sent', d' := sent[n := |k.log|], d.(outstanding := d.outstanding[n := command]);
    forall u: nat ensures PassedFor(k1, sent', rejected, d', u) {
      assert PassedFor(k, sent, rejected, d, u);
      JustSentFor(k, k1, sent, rejected, d, command, n, u);
    }
  }

  lemma {:induction false} JustSentFor<R>(k: C.Cluster<R>, k1: C.Cluster<R>, sent: map<nat, nat>, rejected: set<nat>,
                                          d: D.Dispatcher, command: D.Command, n: nat, u: nat)
    requires PassedFor(k, sent, rejected, d, u) && k1.workers == k.workers && !WorkerReplied(k1, |k.log|)
    requires k1.log == k.log + [W.Update(command.transport, ToWorker(command.kind))]
    requires n !in rejected && (n, D.Ack) !in d.answers && (n, D.Nack) !in d.answers
    ensures PassedFor(k1, sent[n := |k.log|], rejected, d.(outstanding := d.outstanding[n := command]), u)
  {
    SameSaid(k, k1);
  }

  lemma {:induction false} SameSaid<R>(k: C.Cluster<R>, k1: C.Cluster<R>)
    requires k1.workers == k.workers
    ensures forall r, ok :: WorkerSaid(k1, r, ok) <==> WorkerSaid(k, r, ok)
  {}

  /** What a worker answers to a command on arrival is a nack, and to that command. */
  lemma {:induction false} OnlyNacksOnArrival<R>(w: W.Worker<R>, req: nat, msg: W.Message)
    requires W.Closed(w)
    ensures forall a :: a in W.Deliver(w, req, msg).answers ==> a in w.answers || (a.req == req && a.reply.Nack?)
  {}

  lemma {:induction false} PublishedHears<R>(k: C.Cluster<R>, k1: C.Cluster<R>, msg: W.Message)
    requires C.Inv(k) && C.AllClosed(k) && C.Inv(C.Publish(k, msg)) && msg.Update? && k1 == k.(log := k.log + [msg])
    ensures Hears(k1, C.Publish(k, msg), |k.log|) && !WorkerSaid(C.Publish(k, msg), |k.log|, true)
  {
    var k' := C.Publish(k, msg);
    PublishContinues(k, msg);
    AnswersAreLogged(k);
    forall j, a | 0 <= j < |k.workers| && a in k'.workers[j].answers && a !in k.workers[j].answers
      ensures a.req == |k.log| && a.reply.Nack?
    {
      OnlyNacksOnArrival(k.workers[j], |k.log|, msg);
    }
    OneReply(k', |k.log|);
  }

  /** What sending leaves on the desk and with the dispatcher. */
  lemma {:induction false} SentPapers<R>(o: Office<R>, desk: Desk<R>, d: D.Dispatcher, a: Arrival, command: D.Command)
    requires P.PlaneOk(o.desk.plane) && SameDesk(o)
    requires desk == DispatchRuns.Applied(o.desk, a, D.Commanded(command))
    requires Some(d) == D.Applied(o.d, D.Commanded(command))
    ensures SameDesk(Office(desk, d)) && desk.rejected == o.desk.rejected
    ensures desk.plane.cluster == C.Publish(o.desk.plane.cluster, W.Update(command.transport, ToWorker(command.kind)))
    ensures desk.sent == o.desk.sent[|o.desk.arrived| := |o.desk.plane.cluster.log|]
    ensures d.answers == o.d.answers && d.outstanding == o.d.outstanding[|o.desk.arrived| := command]
  {}

  lemma {:induction false} SentKeepsOffice<R>(o: Office<R>, desk: Desk<R>, d: D.Dispatcher, a: Arrival,
                                              command: D.Command)
    requires OfficeOk(o) && DeskOk(desk) && D.DispatchOk(d)
    requires desk == DispatchRuns.Applied(o.desk, a, D.Commanded(command))
    requires Some(d) == D.Applied(o.d, D.Commanded(command))
    ensures OfficeOk(Office(desk, PassedOn(d, desk)))
  {
    NewUpdate(o);
    SentPapers(o, desk, d, a, command);
    SendingKeepsOffice(o, desk, d, command);
  }

  lemma {:induction false} SendingKeepsOffice<R>(o: Office<R>, desk: Desk<R>, d: D.Dispatcher, command: D.Command)
    requires AllSent(o.desk) && C.Inv(o.desk.plane.cluster) && C.AllClosed(o.desk.plane.cluster)
    requires DeskOk(desk) && D.DispatchOk(d) && SameDesk(Office(desk, d)) && desk.rejected == o.desk.rejected
    requires desk.plane.cluster == C.Publish(o.desk.plane.cluster, W.Update(command.transport, ToWorker(command.kind)))
    requires desk.sent == o.desk.sent[|o.desk.arrived| := |o.desk.plane.cluster.log|]
    requires d.answers == o.d.answers && d.outstanding == o.d.outstanding[|o.desk.arrived| := command]
    requires forall u: nat :: PassedOk(o, u)
    requires var n := |o.desk.arrived|;
             && n !in o.desk.sent && n !in o.desk.rejected
             && (n, D.Ack) !in o.d.answers && (n, D.Nack) !in o.d.answers
    ensures OfficeOk(Office(desk, PassedOn(d, desk)))
  {
    var k, n := o.desk.plane.cluster, |o.desk.arrived|;
    var msg := W.Update(command.transport, ToWorker(command.kind));
    var k1 := k.(log := k.log + [msg]);
    PassedForSame(o, o.d);
    JustSent(k, k1, o.desk.sent, o.desk.rejected, o.d, command, n);
    var d' := o.d.(outstanding := o.d.outstanding[n := command]);
    forall u: nat ensures PassedFor(k1, desk.sent, desk.rejected, d, u) {
      assert PassedFor(k1, desk.sent, desk.rejected, d', u);
    }
    PublishedHears(k, k1, msg);
    SentForAfter(o.desk, desk, n);
    SentOffice(k1, d, desk, n);
  }

  lemma {:induction false} SentOffice<R>(k: C.Cluster<R>, d: D.Dispatcher, desk: Desk<R>, n: nat)
    requires DeskOk(desk) && AllSent(desk) && D.DispatchOk(d) && SameDesk(Office(desk, d))
    requires n in desk.sent && Hears(k, desk.plane.cluster, desk.sent[n])
    requires forall u: nat :: PassedFor(k, desk.sent, desk.rejected, d, u)
    requires !WorkerSaid(desk.plane.cluster, desk.sent[n], true)
    ensures OfficeOk(Office(desk, PassedOn(d, desk)))
  {
    SentPasses(k, d, desk, n);
  }

  /** Sent, and perhaps refused at once. */
  lemma {:induction false} SentPasses<R>(k: C.Cluster<R>, d: D.Dispatcher, desk: Desk<R>, n: nat)
    requires D.DispatchOk(d) && n in desk.sent && Hears(k, desk.plane.cluster, desk.sent[n])
    requires forall v :: v in desk.sent && desk.sent[v] == desk.sent[n] ==> v == n
    requires forall u: nat :: PassedFor(k, desk.sent, desk.rejected, d, u)
    requires !WorkerSaid(desk.plane.cluster, desk.sent[n], true)
    ensures var d' := PassedOn(d, desk);
            && D.DispatchOk(d') && d'.coordinator == d.coordinator && d'.known == d.known && d'.received == d.received
            && d'.ignored == d.ignored && d'.silent == d.silent
            && forall u: nat :: PassedFor(desk.plane.cluster, desk.sent, desk.rejected, d', u)
  {
    if WorkerReplied(desk.plane.cluster, desk.sent[n]) {
      HeardFor(k, desk.plane.cluster, d, desk, n);
      ReplyingKeepsPapers(d, n, false);
      D.ReplyingKeepsOk(d, n, false);
    } else {
      NotHeard(k, desk.plane.cluster, d, desk, desk.sent[n]);
    }
  }

  lemma {:induction false} SentForAfter<R>(desk: Desk<R>, desk': Desk<R>, n: nat)
    requires AllSent(desk) && n !in desk.sent && desk'.sent == desk.sent[n := |desk.plane.cluster.log|]
    requires desk.plane.cluster.log <= desk'.plane.cluster.log
             && |desk'.plane.cluster.log| == |desk.plane.cluster.log| + 1
    ensures AllSent(desk')
  {
    forall r | 0 <= r < |desk'.plane.cluster.log| && desk'.plane.cluster.log[r].Update? ensures SentFor(desk', r) {
      if r < |desk.plane.cluster.log| {
        assert SentFor(desk, r);
        var u :| u in desk.sent && desk.sent[u] == r;
        assert desk'.sent[u] == r;
      } else {
        assert desk'.sent[n] == r;
      }
    }
  }

  lemma {:induction false} ReceivingKeepsOffice<R>(o: Office<R>, space: string, update: D.Update)
    requires OfficeOk(o)
    ensures OfficeOk(Do(o, Receive(space, update)))
  {
    var c := o.desk.plane.coordinator;
    var decision := D.Decide(c, space in o.desk.known, space, update);
    var a := ArrivalOf(c, space in o.desk.known, space, update);
    D.DecisionsAreSound(c, space in o.desk.known, space, update);
    DispatchRuns.EventKeepsOk(o.desk, Receive(space, update));
    TakingKeepsOk(o, Receive(space, update));
    var desk, d := DispatchRuns.Do(o.desk, Receive(space, update)), Taken(o, Receive(space, update));
    if decision.Commanded? {
      SentKeepsOffice(o, desk, d, a, decision.command);
    } else {
      KeptHere(o, desk, d, a, decision);
    }
  }

  // ----- Every run -----

  lemma {:induction false} EventKeepsOffice<R>(o: Office<R>, e: Event<R>)
    requires OfficeOk(o) && Possible(o.desk, e)
    ensures OfficeOk(Do(o, e))
  {
    match e
    case Happens(step) =>
      match step {
        case Coordinate(s) => CoordinatingKeepsOffice(o, s);
        case NewRouter(workerId) => NewRouterKeepsOffice(o, workerId);
        case Settles(_, _, _, _) => SettlingKeepsOffice(o, step);
      }
    case Create(space) => CreatingKeepsOffice(o, space);
    case Receive(space, update) => ReceivingKeepsOffice(o, space, update);
  }

  lemma {:induction false} CreatingKeepsOffice<R>(o: Office<R>, space: string)
    requires OfficeOk(o)
    ensures OfficeOk(Do(o, Create(space)))
  {
    var k, desk, d := o.desk.plane.cluster, DispatchRuns.Do(o.desk, Create(space)), Taken(o, Create(space));
    DispatchRuns.EventKeepsOk(o.desk, Create(space));
    PassedForSame(o, d);
    SelfContinues(k);
    NothingHeard(k, k, d, desk);
    AllSentStays(o.desk, desk);
  }

  lemma {:induction false} InitialOffice<R>(workerIds: seq<int>)
    requires C.Distinct(workerIds)
    ensures OfficeOk(Office(DispatchRuns.Initial<R>(workerIds), D.Initial()))
  {
    DispatchRuns.InitialOk<R>(workerIds);
    D.InitialOk();
    var o := Office(DispatchRuns.Initial<R>(workerIds), D.Initial());
    forall u: nat ensures PassedOk(o, u) {}
  }

  ghost function Run<R>(workerIds: seq<int>, events: seq<Event<R>>): (o: Option<Office<R>>)
    requires C.Distinct(workerIds)
    ensures o.Some? ==> OfficeOk(o.value)
    ensures match DispatchRuns.Run(workerIds, events)
            case None => o.None?
            case Some(desk) => o.Some? && o.value.desk == desk
    decreases |events|
  {
    if events == [] then
      InitialOffice<R>(workerIds);
      Some(Office(DispatchRuns.Initial(workerIds), D.Initial()))
    else
      match Run(workerIds, events[..|events| - 1])
      case None => None
      case Some(o) =>
        var e := events[|events| - 1];
        if !Possible(o.desk, e) then None else EventKeepsOffice(o, e); Some(Do(o, e))
  }

  /** In every run the dispatcher and the desk have the same coordinator, status marks included, and an update is
      answered positively if and only if a worker answered its command positively; negatively if and only if a worker
      nacked its command, or the handler turned the update away, told from how it arrived. */
  lemma {:induction false} UpdatesAreAnsweredAsTheWorkersAnswer<R>(workerIds: seq<int>, events: seq<Event<R>>, u: nat)
    requires C.Distinct(workerIds)
    ensures match Run(workerIds, events)
            case None => true
            case Some(o) =>
              var k := o.desk.plane.cluster;
              && o.d.coordinator == o.desk.plane.coordinator
              && ((u, D.Ack) in o.d.answers <==> u in o.desk.sent && WorkerSaid(k, o.desk.sent[u], true))
              && ((u, D.Nack) in o.d.answers
                  <==> || (u < |o.desk.arrived| && TurnedAway(o.desk.arrived[u]))
                       || (u in o.desk.sent && WorkerSaid(k, o.desk.sent[u], false)))
              && (u in o.desk.sent <==> u < |o.desk.arrived| && GoesOut(o.desk.arrived[u]))
  {
    var run := Run(workerIds, events);
    if run.Some? {
      var o := run.value;
      assert PassedOk(o, u);
      EveryRunKeepsHistory(workerIds, events);
      RejectedIsTurnedAway(o.desk, u);
    }
  }

  lemma {:induction false} RejectedIsTurnedAway<R>(desk: Desk<R>, u: nat)
    requires Sorted(desk) && FatesOk(desk)
    ensures u in desk.rejected <==> u < |desk.arrived| && TurnedAway(desk.arrived[u])
    ensures u in desk.sent <==> u < |desk.arrived| && GoesOut(desk.arrived[u])
  {
    assert Place(desk.ignored, desk.silent, desk.rejected, desk.sent.Keys, u) == D.One(u < |desk.arrived|);
    if u < |desk.arrived| { assert FateOk(desk, u); }
  }
}
