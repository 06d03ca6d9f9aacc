/** What the dispatcher answers, over every run of its own, told from how each update arrived and from the workers'
    replies to its commands. */
module DispatchReplies {
  import opened Common
  import opened Dispatch
  import M = Mesh
  import MeshRuns
  import MeshResults
  import DispatchRuns
  import opened DispatchHistory

  /** A run, how each update arrived, and the replies to its commands. */
  datatype Ledger = Ledger(d: Dispatcher, arrived: seq<DispatchRuns.Arrival>, replied: map<nat, bool>)

  ghost function Noted(l: Ledger, e: Event): Ledger
    requires DispatchOk(l.d) && CanHappen(l.d, e)
  {
    EventKeepsOk(l.d, e);
    var d' := Do(l.d, e).value;
    match e
    case Receive(space, update) =>
      Ledger(d', l.arrived + [DispatchRuns.ArrivalOf(l.d.coordinator, space in l.d.known, space, update)], l.replied)
    case WorkerReplies(request, ok) => Ledger(d', l.arrived, l.replied[request := ok])
    case _ => l.(d := d')
  }

  ghost function Run(events: seq<Event>): (l: Option<Ledger>)
    ensures l.Some? ==> DispatchOk(l.value.d)
    decreases |events|
  {
    if events == [] then InitialOk(); Some(Ledger(Initial(), [], map[]))
    else
      var before, e := Run(events[..|events| - 1]), events[|events| - 1];
      if before.None? || !CanHappen(before.value.d, e) then None
      else EventKeepsOk(before.value.d, e); Some(Noted(before.value, e))
  }

  /** The handler turns the update away: it is for the dispatcher, but it neither goes out nor goes silent. */
  predicate TurnedAway(a: DispatchRuns.Arrival) {
    !a.update.FromCoordinator? && !GoesSilent(a) && !GoesOut(a)
  }

  /** The answers to update `u`: positive exactly for a positive reply to its command, negative exactly for a negative
      one or when it was turned away. */
  ghost predicate AnswersTold(l: Ledger, u: nat) {
    && ((u, Ack) in l.d.answers <==> u in l.replied && l.replied[u])
    && ((u, Nack) in l.d.answers
        <==> (u in l.replied && !l.replied[u]) || (u < |l.arrived| && TurnedAway(l.arrived[u])))
  }

  /** A command waits for its reply from the arrival of its update on, under that update's number, and is about the
      transport found there. */
  ghost predicate WaitingTold(l: Ledger, u: nat) {
    && (u in l.d.outstanding <==> u < |l.arrived| && GoesOut(l.arrived[u]) && u !in l.replied)
    && (u in l.replied ==> u < |l.arrived| && GoesOut(l.arrived[u]))
    && (u in l.d.outstanding ==>
          && l.arrived[u].transport == Some(l.d.outstanding[u].transport)
          && Carries(l.arrived[u].update, DispatchRuns.ToWorker(l.d.outstanding[u].kind)))
  }

  ghost predicate AnsweredOnce(answers: seq<(nat, Reply)>, received: nat) {
    && (forall i :: 0 <= i < |answers| ==> answers[i].0 < received)
    && (forall i, j :: 0 <= i < j < |answers| ==> answers[i].0 != answers[j].0)
  }

  /** A positive reply to a command that connects transport `t`. */
  ghost predicate ConnectReplied(l: Ledger, t: int, u: nat) {
    && u in l.replied && l.replied[u] && u < |l.arrived|
    && Connects(l.arrived[u].update) && l.arrived[u].transport == Some(t)
  }

  ghost predicate ConnectedTold(l: Ledger, t: int)
    requires t in l.d.coordinator.transportObjects
  {
    l.d.coordinator.transportObjects[t].status == M.Connected <==> exists u :: ConnectReplied(l, t, u)
  }

  ghost predicate RepliesKnown(l: Ledger) {
    forall u, t :: ConnectReplied(l, t, u) ==> t in l.d.coordinator.transportObjects
  }

  ghost predicate LedgerOk(l: Ledger) {
    && DispatchOk(l.d) && |l.arrived| == l.d.received
    && (forall u: nat :: AnswersTold(l, u) && WaitingTold(l, u))
    && AnsweredOnce(l.d.answers, l.d.received)
    && RepliesKnown(l)
    && (forall t :: t in l.d.coordinator.transportObjects ==> ConnectedTold(l, t))
  }

  // ----- The coordinator moves -----

  lemma {:induction false} CoordinatingKeepsLedger(l: Ledger, step: M.Step)
    requires LedgerOk(l) && CanHappen(l.d, Coordinate(step))
    ensures LedgerOk(Noted(l, Coordinate(step)))
  {
    var l' := Noted(l, Coordinate(step));
    CoordinatingKeepsOk(l.d, step);
    forall u: nat ensures AnswersTold(l', u) && WaitingTold(l', u) { assert AnswersTold(l, u) && WaitingTold(l, u); }
    assert forall u, t :: ConnectReplied(l', t, u) <==> ConnectReplied(l, t, u);
    forall u, t | ConnectReplied(l', t, u) ensures t in l'.d.coordinator.transportObjects {
      NothingElseConnects(l.d.coordinator, step, t);
    }
    forall t | t in l'.d.coordinator.transportObjects ensures ConnectedTold(l', t) {
      NothingElseConnects(l.d.coordinator, step, t);
      if t in l.d.coordinator.transportObjects { assert ConnectedTold(l, t); }
    }
  }

  // ----- An update arrives -----

  lemma {:induction false} OneMoreAnswer(answers: seq<(nat, Reply)>, u: nat, reply: Reply)
    ensures forall v, r :: (v, r) in answers + [(u, reply)] <==> (v, r) in answers || (v, r) == (u, reply)
  {}

  lemma {:induction false} ReceivingKeepsLedger(l: Ledger, space: string, update: Update)
    requires LedgerOk(l)
    ensures LedgerOk(Noted(l, Receive(space, update)))
  {
    var c, known := l.d.coordinator, space in l.d.known;
    ReceivingKeepsOk(l.d, space, update);
    DecidedByArrival(c, known, space, update);
    ApplyingKeepsLedger(l, Noted(l, Receive(space, update)), DispatchRuns.ArrivalOf(c, known, space, update),
        Decide(c, known, space, update));
  }

  lemma {:induction false} ApplyingKeepsLedger(l: Ledger, l': Ledger, a: DispatchRuns.Arrival, decision: Decision)
    requires LedgerOk(l) && DispatchOk(l'.d) && l'.arrived == l.arrived + [a] && l'.replied == l.replied
    requires Applied(l.d, decision) == Some(l'.d)
    requires decision.Ignored? <==> a.update.FromCoordinator?
    requires decision.Silent? <==> GoesSilent(a)
    requires decision.Commanded? <==> GoesOut(a)
    requires decision.Commanded? ==>
               a.transport == Some(decision.command.transport)
               && Carries(a.update, DispatchRuns.ToWorker(decision.command.kind))
    ensures LedgerOk(l')
  {
    var n := l.d.received;
    forall u: nat ensures AnswersTold(l', u) && WaitingTold(l', u) {
      assert AnswersTold(l, u) && WaitingTold(l, u) && AnswersTold(l, n) && WaitingTold(l, n);
      if decision.Rejected? { OneMoreAnswer(l.d.answers, n, Nack); }
      NeverAnswered(l.d.answers, n);
    }
    SameConnects(l, l');
  }

  /** An update that has not arrived has no answer. */
  lemma {:induction false} NeverAnswered(answers: seq<(nat, Reply)>, received: nat)
    requires AnsweredOnce(answers, received)
    ensures (received, Ack) !in answers && (received, Nack) !in answers
  {}

  /** One more arrival does not change what was connected. */
  lemma {:induction false} SameConnects(l: Ledger, l': Ledger)
    requires RepliesKnown(l) && l'.d.coordinator == l.d.coordinator && l'.replied == l.replied
    requires l.arrived <= l'.arrived
    requires forall u: nat :: WaitingTold(l, u)
    requires forall t :: t in l.d.coordinator.transportObjects ==> ConnectedTold(l, t)
    ensures RepliesKnown(l') && forall t :: t in l'.d.coordinator.transportObjects ==> ConnectedTold(l', t)
  {
    forall u, t ensures ConnectReplied(l', t, u) <==> ConnectReplied(l, t, u) {
      if u in l.replied { assert WaitingTold(l, u); }
    }
    forall t | t in l'.d.coordinator.transportObjects ensures ConnectedTold(l', t) { assert ConnectedTold(l, t); }
  }

  // ----- A worker replies -----

  lemma {:induction false} ReplyingKeepsLedger(l: Ledger, request: nat, ok: bool)
    requires LedgerOk(l) && request in l.d.outstanding
    ensures LedgerOk(Noted(l, WorkerReplies(request, ok)))
  {
    var l' := Noted(l, WorkerReplies(request, ok));
    ReplyingKeepsOk(l.d, request, ok);
    ConnectsAfterReply(l, l', request, ok);
    AnswersAfterReply(l, l', request, ok);
  }

  lemma {:induction false} AnswersAfterReply(l: Ledger, l': Ledger, request: nat, ok: bool)
    requires forall u: nat :: AnswersTold(l, u) && WaitingTold(l, u)
    requires AnsweredOnce(l.d.answers, l.d.received) && |l.arrived| == l.d.received && request in l.d.outstanding
    requires l'.arrived == l.arrived && l'.replied == l.replied[request := ok] && l'.d.received == l.d.received
    requires l'.d.answers == l.d.answers + [(request, if ok then Ack else Nack)]
    requires l'.d.outstanding == l.d.outstanding - {request}
    ensures forall u: nat :: AnswersTold(l', u) && WaitingTold(l', u)
    ensures AnsweredOnce(l'.d.answers, l'.d.received)
  {
    assert AnswersTold(l, request) && WaitingTold(l, request);
    forall u: nat ensures AnswersTold(l', u) && WaitingTold(l', u) {
      assert AnswersTold(l, u) && WaitingTold(l, u);
      ToldAfterReply(l, l', request, ok, u);
    }
    NotYetAnswered(l, request);
  }

  lemma {:induction false} ToldAfterReply(l: Ledger, l': Ledger, request: nat, ok: bool, u: nat)
    requires AnswersTold(l, u) && WaitingTold(l, u) && WaitingTold(l, request) && request in l.d.outstanding
    requires l'.arrived == l.arrived && l'.replied == l.replied[request := ok]
    requires l'.d.answers == l.d.answers + [(request, if ok then Ack else Nack)]
    requires l'.d.outstanding == l.d.outstanding - {request}
    ensures AnswersTold(l', u) && WaitingTold(l', u)
  {
    OneMoreAnswer(l.d.answers, request, if ok then Ack else Nack);
  }

  lemma {:induction false} NotYetAnswered(l: Ledger, request: nat)
    requires AnswersTold(l, request) && WaitingTold(l, request) && request in l.d.outstanding
    ensures forall i :: 0 <= i < |l.d.answers| ==> l.d.answers[i].0 != request
  {
    forall i | 0 <= i < |l.d.answers| ensures l.d.answers[i].0 != request {
      var (u, reply) := l.d.answers[i];
      assert (u, reply) in l.d.answers && (reply == Ack || reply == Nack);
    }
  }

  lemma {:induction false} ConnectsAfterReply(l: Ledger, l': Ledger, request: nat, ok: bool)
    requires LedgerOk(l) && request in l.d.outstanding && CommandOk(l.d.coordinator, l.d.outstanding[request])
    requires l'.d == Replied(l.d, request, ok) && l'.arrived == l.arrived && l'.replied == l.replied[request := ok]
    ensures RepliesKnown(l') && forall t :: t in l'.d.coordinator.transportObjects ==> ConnectedTold(l', t)
  {
    var command := l.d.outstanding[request];
    forall u, t
      ensures ConnectReplied(l', t, u)
              <==> ConnectReplied(l, t, u) || (u == request && ok && command.kind.ConnectIt? && t == command.transport)
    {
      ConnectsWithReply(l, l', request, ok, t, u);
    }
    forall t | t in l'.d.coordinator.transportObjects ensures ConnectedTold(l', t) {
      assert ConnectedTold(l, t);
      ConnectedAfterReply(l, l', request, ok, t);
    }
  }

  lemma {:induction false} ConnectedAfterReply(l: Ledger, l': Ledger, request: nat, ok: bool, t: int)
    requires request in l.d.outstanding && CommandOk(l.d.coordinator, l.d.outstanding[request])
    requires l'.d == Replied(l.d, request, ok) && t in l.d.coordinator.transportObjects && ConnectedTold(l, t)
    requires forall u ::
               (ConnectReplied(l', t, u)
                <==> || ConnectReplied(l, t, u)
                     || (u == request && ok && l.d.outstanding[request].kind.ConnectIt?
                         && t == l.d.outstanding[request].transport))
    ensures t in l'.d.coordinator.transportObjects && ConnectedTold(l', t)
  {
    var command := l.d.outstanding[request];
    if ok && command.kind.ConnectIt? && t == command.transport { assert ConnectReplied(l', t, request); }
    if u :| ConnectReplied(l, t, u) { assert ConnectReplied(l', t, u); }
  }

  lemma {:induction false} ConnectsWithReply(l: Ledger, l': Ledger, request: nat, ok: bool, t: int, u: nat)
    requires WaitingTold(l, request) && request in l.d.outstanding
    requires l'.arrived == l.arrived && l'.replied == l.replied[request := ok]
    ensures ConnectReplied(l', t, u)
            <==> || ConnectReplied(l, t, u)
                 || (u == request && ok && l.d.outstanding[request].kind.ConnectIt?
                     && t == l.d.outstanding[request].transport)
  {}

  // ----- Every run -----

  lemma {:induction false} EventKeepsLedger(l: Ledger, e: Event)
    requires LedgerOk(l) && CanHappen(l.d, e)
    ensures LedgerOk(Noted(l, e))
  {
    match e
    case Coordinate(step) => CoordinatingKeepsLedger(l, step);
    case Create(space) =>
      var l' := Noted(l, e);
      forall u: nat ensures AnswersTold(l', u) && WaitingTold(l', u) { assert AnswersTold(l, u) && WaitingTold(l, u); }
      SameConnects(l, l');
    case Receive(space, update) => ReceivingKeepsLedger(l, space, update);
    case WorkerReplies(request, ok) => ReplyingKeepsLedger(l, request, ok);
  }

  lemma {:induction false} EveryRunKeepsLedger(events: seq<Event>)
    ensures Run(events).Some? ==> LedgerOk(Run(events).value)
    decreases |events|
  {
    if events != [] {
      EveryRunKeepsLedger(events[..|events| - 1]);
      var before := Run(events[..|events| - 1]);
      if before.Some? && CanHappen(before.value.d, events[|events| - 1]) {
        EventKeepsLedger(before.value, events[|events| - 1]);
      }
    }
  }

  /** In every run an update is answered at most once: positively if and only if a worker replied positively to its
      command; negatively if and only if a worker replied negatively, or the handler turned the update away, told from
      how it arrived. */
  lemma {:induction false} AnswerIsTheWorkersReply(events: seq<Event>, u: nat)
    ensures match Run(events)
            case None => true
            case Some(l) =>
              && |l.arrived| == l.d.received
              && ((u, Ack) in l.d.answers <==> u in l.replied && l.replied[u])
              && ((u, Nack) in l.d.answers
                  <==> (u in l.replied && !l.replied[u]) || (u < |l.arrived| && TurnedAway(l.arrived[u])))
              && (u in l.replied ==> u < |l.arrived| && GoesOut(l.arrived[u]))
              && (forall i, j :: 0 <= i < j < |l.d.answers| ==> l.d.answers[i].0 != l.d.answers[j].0)
  {
    EveryRunKeepsLedger(events);
    var run := Run(events);
    if run.Some? { assert AnswersTold(run.value, u) && WaitingTold(run.value, u); }
  }

  /** In every run a command waits for its reply exactly when its update went out and has no reply yet, it is about the
      transport found on arrival, and a transport is connected exactly when a connect about it was replied to
      positively. */
  lemma {:induction false} ConnectedExactlyWhenReplied(events: seq<Event>, u: nat, t: int)
    ensures match Run(events)
            case None => true
            case Some(l) =>
              WaitingTold(l, u) && (t in l.d.coordinator.transportObjects ==> ConnectedTold(l, t))
  {
    EveryRunKeepsLedger(events);
  }
}
