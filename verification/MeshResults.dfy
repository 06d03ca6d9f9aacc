/** What every run of the coordinator guarantees about its members and transports. */
module MeshResults {
  import opened Common
  import opened Mesh
  import opened MeshRuns

  ghost function Do(s: Coordinator, step: Step): Coordinator
    requires Inv(s) && Possible(s, step)
  {
    match step
    case OpenSpace(space, router) => SpaceOpened(s, space, router)
    case Join(space) => Joined(s, space)
    case Answer(t, ok) => assert TransportOk(s, t); if ok then Acked(s, t) else Nacked(s, t)
    case MeshLoop(member, others) =>
      assert MemberOk(s, member) && TransportOk(s, s.memberObjects[member].producer.value);
      Meshed(s, member, others)
    case Leave(member) => assert MemberOk(s, member); Left(s, member)
    case RemoveRouter(router) => RouterRemoved(s, router)
    case Connect(t) => WithStatus(s, t, Connected)
  }

  /** Every step keeps the invariant, forgets no object, and only adds to what is requested and then answered. */
  lemma {:induction false} StepKeepsInv(s: Coordinator, step: Step)
    requires Inv(s) && Possible(s, step)
    ensures Inv(Do(s, step)) && ObjectsGrow(s, Do(s, step))
  {
    match step
    case Answer(t, ok) => AnswerKeepsInv(s, t, ok);
    case Join(_) => MemberStepKeepsInv(s, step);
    case MeshLoop(member, others) => LoopKeepsInv(s, member, others);
    case Leave(_) => MemberStepKeepsInv(s, step);
    case _ => RouterStepKeepsInv(s, step);
  }

  lemma {:induction false} MemberStepKeepsInv(s: Coordinator, step: Step)
    requires Inv(s) && Possible(s, step) && (step.Join? || step.Leave?)
    ensures Inv(Do(s, step)) && ObjectsGrow(s, Do(s, step))
  {
    match step
    case Join(space) =>
      InvAfterJoining(s, space);
      assert Do(s, step) == Joined(s, space);
    case Leave(member) =>
      InvAfterLeaving(s, member);
      assert Do(s, step) == Left(s, member);
  }

  lemma {:induction false} RouterStepKeepsInv(s: Coordinator, step: Step)
    requires Inv(s) && Possible(s, step) && (step.OpenSpace? || step.RemoveRouter? || step.Connect?)
    ensures Inv(Do(s, step)) && ObjectsGrow(s, Do(s, step))
  {
    match step
    case OpenSpace(space, router) =>
      InvAfterOpening(s, space, router);
      assert Do(s, step) == SpaceOpened(s, space, router);
    case RemoveRouter(router) =>
      InvAfterRouterRemoval(s, router);
      assert Do(s, step) == RouterRemoved(s, router);
    case Connect(t) =>
      InvAfterConnecting(s, t);
      assert Do(s, step) == WithStatus(s, t, Connected);
  }

  lemma {:induction false} LoopKeepsInv(s: Coordinator, member: int, others: seq<int>)
    requires Inv(s) && Possible(s, MeshLoop(member, others))
    ensures Inv(Do(s, MeshLoop(member, others))) && ObjectsGrow(s, Do(s, MeshLoop(member, others)))
  {
    InvAfterMeshing(s, member, others);
    assert Do(s, MeshLoop(member, others)) == Meshed(s, member, others);
  }

  lemma {:induction false} AnswerKeepsInv(s: Coordinator, t: int, ok: bool)
    requires Inv(s) && t in s.requested
    ensures Inv(Do(s, Answer(t, ok))) && ObjectsGrow(s, Do(s, Answer(t, ok)))
  {
    if ok {
      InvAfterAck(s, t);
      assert Do(s, Answer(t, ok)) == Acked(s, t);
    } else {
      InvAfterNack(s, t);
      assert Do(s, Answer(t, ok)) == Nacked(s, t);
    }
  }

  /** The state after a run from `s`; `None` when some step is not possible where it comes. */
  ghost function RunFrom(s: Coordinator, steps: seq<Step>): (r: Option<Coordinator>)
    requires Inv(s)
    ensures r.Some? ==> Inv(r.value)
    decreases |steps|
  {
    if steps == [] then Some(s)
    else if !Possible(s, steps[0]) then None
    else
      StepKeepsInv(s, steps[0]);
      RunFrom(Do(s, steps[0]), steps[1..])
  }

  ghost function Run(steps: seq<Step>): (r: Option<Coordinator>)
    ensures r.Some? ==> Inv(r.value)
  {
    RunFrom(Empty(), steps)
  }

  /** Mesh coverage in any interleaving of joins, leaves and answers: a pair of present members of a running space,
      for which nothing is pending and nothing was nacked, has `x`'s consumer of `y`, recorded and allocated. */
  lemma {:induction false} MeshCoverage(steps: seq<Step>, x: int, y: int)
    requires Run(steps).Some?
    requires var s := Run(steps).value;
             && Pair(s, x, y) && !Outstanding(s, x, y) && !LinkFailed(s, x, y)
             && !Due(s, x) && !Due(s, y) && !ProducerFailed(s, x) && !ProducerFailed(s, y)
    ensures var s := Run(steps).value;
            && y in s.memberObjects[x].consumers
            && var t := s.memberObjects[x].consumers[y];
            && t in s.transports && t in s.transportObjects
            && s.transportObjects[t].owner == x && s.transportObjects[t].status != Unallocated
            && s.memberObjects[y].producer.Some? && s.transportObjects[t].source == s.memberObjects[y].producer
            && s.memberObjects[y].producer.value in s.transports
  {
    var s := Run(steps).value;
    assert MemberOk(s, x) && MemberOk(s, y) && PairOk(s, x, y);
    assert TransportOk(s, s.memberObjects[x].consumers[y]);
    assert TransportOk(s, s.memberObjects[y].producer.value);
  }

  /** Once all allocations have completed, none with a nack instead of an acknowledgement, every pair of present members
      is covered. */
  lemma {:induction false} SettledMeshIsComplete(steps: seq<Step>)
    requires Run(steps).Some?
    requires var s := Run(steps).value;
             s.requested == {} && s.meshDue == {} && forall t :: t in s.nacked && t in s.transportObjects ==>
                 s.transportObjects[t].status != Unallocated
    ensures forall x, y :: Pair(Run(steps).value, x, y) ==> Covered(Run(steps).value, x, y)
  {
    var s := Run(steps).value;
    forall x, y | Pair(s, x, y) ensures Covered(s, x, y) {
      assert PairOk(s, x, y);
    }
  }

  /** The store and the spaces describe the same members: a present member is in exactly its own space. */
  lemma {:induction false} StoreAgreesWithSpaces(steps: seq<Step>, space: string, m: int)
    requires Run(steps).Some? && space in Run(steps).value.spaces
    ensures var s := Run(steps).value;
            m in s.spaces[space] <==> m in s.members && m in s.memberObjects && s.memberObjects[m].space == space
  {
    var s := Run(steps).value;
    if m in s.memberObjects { assert MemberOk(s, m); }
  }

  /** Removing a router releases exactly the transport records it owns: those of present members and the
      consumers that departed members left behind. */
  lemma {:induction false} RouterRemovalReleasesEverything(steps: seq<Step>, router: int)
    requires Run(steps).Some? && router in Run(steps).value.routers
    requires router in Run(steps).value.routerObjects
    ensures var s := Run(steps).value;
            var s' := RouterRemoved(s, router);
            && s.transports <= s.transportObjects.Keys
            && forall t :: t in s.transports ==> (t in s'.transports <==> s.transportObjects[t].router != router)
  {
    var s := Run(steps).value;
    forall t | t in s.transports ensures t in s.routerObjects[router] <==> s.transportObjects[t].router == router {
      assert TransportOk(s, t);
    }
  }

  /** Every record in the allocator is also in its owning router. */
  lemma {:induction false} RecordsBelongToTheirRouter(steps: seq<Step>, t: int)
    requires Run(steps).Some? && t in Run(steps).value.transports
    ensures var s := Run(steps).value;
            && t in s.transportObjects && s.transportObjects[t].router in s.routerObjects
            && t in s.routerObjects[s.transportObjects[t].router]
  {
    assert TransportOk(Run(steps).value, t);
  }

  /** When an acknowledged consumer's source record stands, so does its own: what is stored is never undefined. */
  lemma {:induction false} AckFindsItsRecord(steps: seq<Step>, t: int)
    requires Run(steps).Some? && t in Run(steps).value.requested
    requires var s := Run(steps).value;
             t in s.transportObjects && s.transportObjects[t].source.Some?
                 && s.transportObjects[t].source.value in s.transports
    ensures t in Run(steps).value.transports
  {
    assert TransportOk(Run(steps).value, t);
  }

  // ----- Statuses only move forward -----

  function Rank(status: Status): int {
    match status case Unallocated => 0 case Allocated => 1 case Connected => 2
  }

  /** A step moves a status by at most one, forward, and each move has its own cause. */
  lemma {:induction false} StatusMoves(s: Coordinator, step: Step, t: int)
    requires Inv(s) && Possible(s, step) && t in s.transportObjects
    ensures t in Do(s, step).transportObjects
    ensures var before, after := s.transportObjects[t].status, Do(s, step).transportObjects[t].status;
            && Rank(before) <= Rank(after) <= Rank(before) + 1
            && (before == Unallocated && after == Allocated <==> step == Answer(t, true))
            && (after == Connected && before != Connected <==> step == Connect(t) && before == Allocated)
  {
    match step
    case Join(space) => IdsAreNew(s);
    case Answer(k, _) =>
      assert TransportOk(s, k);
      assert s.transportObjects[k].status == Unallocated;
    case MeshLoop(member, others) =>
      assert MemberOk(s, member);
      var p := s.memberObjects[member].producer.value;
      assert TransportOk(s, p);
      IdsAreBelowNext(s);
      LoopKeepsStatus(s, s.transportObjects[p].router, member, p, others, t);
    case _ =>
  }

  ghost predicate IdsBelowNext(s: Coordinator) {
    forall t :: t in s.transportObjects ==> t < s.nextTransport
  }

  lemma {:induction false} IdsAreBelowNext(s: Coordinator)
    requires TransportsOk(s)
    ensures IdsBelowNext(s)
  {
    forall t | t in s.transportObjects ensures t < s.nextTransport { assert TransportOk(s, t); }
  }

  lemma {:induction false} LinkKeepsStatus(s: Coordinator, router: int, member: int, producer: int, other: int, t: int)
    requires IdsBelowNext(s) && router in s.routerObjects && member in s.memberObjects && other in s.memberObjects
    requires t in s.transportObjects
    ensures var s' := Linked(s, router, member, producer, other);
            IdsBelowNext(s') && t in s'.transportObjects && s'.transportObjects[t] == s.transportObjects[t]
  {}

  lemma {:induction false} LoopKeepsStatus(s: Coordinator, router: int, member: int, producer: int, others: seq<int>,
                                           t: int)
    requires IdsBelowNext(s) && router in s.routerObjects && member in s.memberObjects && t in s.transportObjects
    requires forall i :: 0 <= i < |others| ==> others[i] in s.memberObjects
    ensures var s' := LinkedAll(s, router, member, producer, others);
            IdsBelowNext(s') && t in s'.transportObjects && s'.transportObjects[t] == s.transportObjects[t]
    decreases |others|
  {
    if others != [] {
      var n := |others| - 1;
      LoopKeepsStatus(s, router, member, producer, others[..n], t);
      LinkKeepsStatus(LinkedAll(s, router, member, producer, others[..n]), router, member, producer, others[n], t);
    }
  }

  /** A transport starts unallocated. */
  lemma {:induction false} NewOnesAreUnallocated(s: Coordinator, step: Step, t: int)
    requires Inv(s) && Possible(s, step) && t in Do(s, step).transportObjects
    ensures t in s.transportObjects || Do(s, step).transportObjects[t].status == Unallocated
  {
    match step
    case Join(space) => IdsAreNew(s);
    case Answer(k, _) => assert TransportOk(s, k);
    case MeshLoop(member, others) =>
      assert MemberOk(s, member);
      var p := s.memberObjects[member].producer.value;
      assert TransportOk(s, p);
      LoopAddsUnallocated(s, s.transportObjects[p].router, member, p, others, t);
    case _ =>
  }

  lemma {:induction false} LoopAddsUnallocated(s: Coordinator, router: int, member: int, producer: int,
                                               others: seq<int>, t: int)
    requires router in s.routerObjects && member in s.memberObjects
    requires forall i :: 0 <= i < |others| ==> others[i] in s.memberObjects
    ensures var s' := LinkedAll(s, router, member, producer, others);
            t in s'.transportObjects ==> t in s.transportObjects || s'.transportObjects[t].status == Unallocated
    decreases |others|
  {
    if others != [] {
      var n := |others| - 1;
      LoopAddsUnallocated(s, router, member, producer, others[..n], t);
      TurnAddsUnallocated(LinkedAll(s, router, member, producer, others[..n]), router, member, producer, others[n], t);
    }
  }

  lemma {:induction false} TurnAddsUnallocated(s: Coordinator, router: int, member: int, producer: int, other: int,
                                               t: int)
    requires router in s.routerObjects && member in s.memberObjects && other in s.memberObjects
    ensures var s' := Linked(s, router, member, producer, other);
            t in s'.transportObjects ==>
              s'.transportObjects[t].status == Unallocated
                  || (t in s.transportObjects && s'.transportObjects[t] == s.transportObjects[t])
  {}

  /** Over any run, a transport that exists keeps existing and its status never moves back. */
  lemma {:induction false} StatusesOnlyMoveForward(s: Coordinator, steps: seq<Step>, t: int)
    requires Inv(s) && RunFrom(s, steps).Some? && t in s.transportObjects
    ensures var s' := RunFrom(s, steps).value;
            t in s'.transportObjects && Rank(s.transportObjects[t].status) <= Rank(s'.transportObjects[t].status)
    decreases |steps|
  {
    if steps != [] {
      StepKeepsInv(s, steps[0]);
      StatusMoves(s, steps[0], t);
      StatusesOnlyMoveForward(Do(s, steps[0]), steps[1..], t);
    }
  }

  // ----- The size of the mesh -----

  /** The mesh loop of a present member adds one transport for each direction to each other member. */
  lemma {:induction false} MeshLoopSize(s: Coordinator, member: int, others: seq<int>)
    requires Inv(s) && Possible(s, MeshLoop(member, others)) && member in s.members
    requires s.memberObjects[member].space in s.routerOf && s.routerOf[s.memberObjects[member].space] in s.routers
    ensures |Do(s, MeshLoop(member, others)).transports|
            == |s.transports| + 2 * (|s.spaces[s.memberObjects[member].space]| - 1)
  {
    assert MemberOk(s, member);
    var p := s.memberObjects[member].producer.value;
    assert TransportOk(s, p);
    var router := s.transportObjects[p].router;
    forall i | 0 <= i < |others|
      ensures OnRouter(s, others[i], router) && s.memberObjects[others[i]].producer.value in s.transports
    {
      assert MemberOk(s, others[i]);
      assert TransportOk(s, s.memberObjects[others[i]].producer.value);
    }
    LoopSize(s, router, member, p, others);
    CountOf(others, s.spaces[s.memberObjects[member].space]);
    OnceAmong(others, member);
  }

  ghost function Others(ids: seq<int>, member: int): nat
    decreases |ids|
  {
    if ids == [] then 0 else Others(ids[..|ids| - 1], member) + (if ids[|ids| - 1] == member then 0 else 1)
  }

  lemma {:induction false} LoopSize(s: Coordinator, router: int, member: int, producer: int, others: seq<int>)
    requires Inv(s) && router in s.routerObjects && OnRouter(s, member, router)
    requires s.memberObjects[member].producer == Some(producer) && producer in s.transports
    requires forall i :: 0 <= i < |others| ==>
               others[i] in s.memberObjects && OnRouter(s, others[i], router)
                   && s.memberObjects[others[i]].producer.value in s.transports
    ensures |LinkedAll(s, router, member, producer, others).transports| == |s.transports| + 2 * Others(others, member)
    decreases |others|
  {
    if others != [] {
      var n := |others| - 1;
      LoopSize(s, router, member, producer, others[..n]);
      LoopGrows(s, router, member, producer, others[..n]);
      var s1 := LinkedAll(s, router, member, producer, others[..n]);
      if others[n] != member {
        TryingAddsOne(s1, router, others[n], producer);
        InvAfterTrying(s1, router, others[n], producer);
        TryingAddsOne(TryAllocate(s1, router, others[n], producer), router, member,
            s.memberObjects[others[n]].producer.value);
      }
    }
  }

  lemma {:induction false} TryingAddsOne(s: Coordinator, router: int, member: int, source: int)
    requires Inv(s) && router in s.routerObjects && member in s.memberObjects && source in s.transports
    ensures |TryAllocate(s, router, member, source).transports| == |s.transports| + 1
  {
    IdsAreNew(s);
    assert s.nextTransport !in s.transports;
  }

  lemma {:induction false} CountOf(ids: seq<int>, all: set<int>)
    requires Enumerates(ids, all)
    ensures |ids| == |all|
    decreases |ids|
  {
    if ids == [] {
      assert forall id: int :: id !in all;
    } else {
      var n := |ids| - 1;
      var rest := all - {ids[n]};
      forall id | id in rest ensures id in ids[..n] {
        var i: nat :| i < |ids| && ids[i] == id;
        assert ids[..n][i] == id;
      }
      CountOf(ids[..n], rest);
    }
  }

  lemma {:induction false} OnceAmong(ids: seq<int>, member: int)
    requires forall i, j :: 0 <= i < j < |ids| ==> ids[i] != ids[j]
    ensures Others(ids, member) == |ids| - if member in ids then 1 else 0
    decreases |ids|
  {
    if ids != [] {
      var n := |ids| - 1;
      OnceAmong(ids[..n], member);
      assert ids == ids[..n] + [ids[n]];
    }
  }
}
