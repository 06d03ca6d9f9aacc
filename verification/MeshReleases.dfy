/** When transport records go for good: a router's removal is final until somebody joins on it again, and what a
    departed member left behind stays until its router is removed. */
module MeshReleases {
  import opened Common
  import opened Mesh
  import opened MeshRuns
  import opened MeshResults

  ghost predicate NoRecords(s: Coordinator, router: int) {
    forall t :: t in s.transports && t in s.transportObjects ==> s.transportObjects[t].router != router
  }

  /** A member joins a space that uses the router. */
  ghost predicate JoinsOn(s: Coordinator, step: Step, router: int) {
    step.Join? && step.space in s.routerOf && s.routerOf[step.space] == router
  }

  // ----- No record without its source -----

  lemma {:induction false} TryingAddsNone(s: Coordinator, at: int, m: int, source: int, router: int)
    requires at in s.routerObjects && m in s.memberObjects && NoRecords(s, router)
    requires at != router || source !in s.transports
    ensures NoRecords(TryAllocate(s, at, m, source), router)
  {}

  lemma {:induction false} TurnAddsNone(s: Coordinator, at: int, member: int, producer: int, other: int, router: int)
    requires Inv(s) && at in s.routerObjects && OnRouter(s, member, at) && OnRouter(s, other, at)
             && NoRecords(s, router)
    requires s.memberObjects[member].producer == Some(producer)
    ensures NoRecords(Linked(s, at, member, producer, other), router)
  {
    if other != member {
      var s1 := TryAllocate(s, at, other, producer);
      TryingAddsNone(s, at, other, producer, router);
      InvAfterTrying(s, at, other, producer);
      var q := s.memberObjects[other].producer.value;
      assert OnRouter(s1, other, at);
      assert at == router ==> q !in s1.transports;
      TryingAddsNone(s1, at, member, q, router);
    }
  }

  lemma {:induction false} LoopAddsNone(s: Coordinator, at: int, member: int, producer: int, others: seq<int>,
                                        router: int)
    requires Inv(s) && at in s.routerObjects && OnRouter(s, member, at) && NoRecords(s, router)
    requires s.memberObjects[member].producer == Some(producer)
    requires forall i :: 0 <= i < |others| ==> others[i] in s.memberObjects && OnRouter(s, others[i], at)
    ensures NoRecords(LinkedAll(s, at, member, producer, others), router)
    decreases |others|
  {
    if others != [] {
      var n := |others| - 1;
      LoopAddsNone(s, at, member, producer, others[..n], router);
      LoopGrows(s, at, member, producer, others[..n]);
      TurnAddsNone(LinkedAll(s, at, member, producer, others[..n]), at, member, producer, others[n], router);
    }
  }

  lemma {:induction false} MeshLoopAddsNone(s: Coordinator, member: int, others: seq<int>, router: int)
    requires Inv(s) && Possible(s, MeshLoop(member, others)) && NoRecords(s, router)
    ensures NoRecords(Do(s, MeshLoop(member, others)), router)
  {
    assert MemberOk(s, member);
    var p := s.memberObjects[member].producer.value;
    assert TransportOk(s, p);
    OthersOnRouter(s, member, others);
    LoopAddsNone(s, s.transportObjects[p].router, member, p, others, router);
  }

  /** A router without records gets one back by a step exactly when that step is a join on it. */
  lemma {:induction false} OnlyAJoinBringsOneBack(s: Coordinator, step: Step, router: int)
    requires Inv(s) && Possible(s, step) && router in s.routerObjects && NoRecords(s, router)
    ensures NoRecords(Do(s, step), router) <==> !JoinsOn(s, step, router)
  {
    match step
    case Join(space) =>
      IdsAreNew(s);
      assert s.nextTransport in Do(s, step).transports;
    case MeshLoop(member, others) => MeshLoopAddsNone(s, member, others, router);
    case Answer(t, _) => assert TransportOk(s, t);
    case Leave(member) => assert MemberOk(s, member);
    case _ =>
  }

  /** Spaces keep their routers, and no space opens on a router that exists. */
  lemma {:induction false} RoutersOfSpaces(s: Coordinator, step: Step, space: string, router: int)
    requires Inv(s) && Possible(s, step) && router in s.routerObjects
    ensures router in Do(s, step).routerObjects
    ensures space in Do(s, step).routerOf && Do(s, step).routerOf[space] == router <==>
            space in s.routerOf && s.routerOf[space] == router
  {
    match step
    case MeshLoop(member, others) => LoopKeepsRouters(s, member, others);
    case Answer(t, _) => assert TransportOk(s, t);
    case Leave(member) => assert MemberOk(s, member);
    case _ =>
  }

  lemma {:induction false} LoopKeepsRouters(s: Coordinator, member: int, others: seq<int>)
    requires Inv(s) && Possible(s, MeshLoop(member, others))
    ensures var s' := Do(s, MeshLoop(member, others));
            s'.routerOf == s.routerOf && s'.routerObjects.Keys == s.routerObjects.Keys && s'.routers == s.routers
                && s'.members == s.members
            && s.transports <= s'.transports
  {
    assert MemberOk(s, member);
    var p := s.memberObjects[member].producer.value;
    assert TransportOk(s, p);
    OthersOnRouter(s, member, others);
    LoopGrows(s, s.transportObjects[p].router, member, p, others);
  }

  ghost predicate NobodyJoinsOn(s: Coordinator, steps: seq<Step>, router: int) {
    forall i :: 0 <= i < |steps| ==> !JoinsOn(s, steps[i], router)
  }

  /** Whatever answers and mesh loops are still to come, in whatever order: a router without records has none again
      before somebody joins a space on it. */
  lemma {:induction false} NoRecordComesBack(s: Coordinator, steps: seq<Step>, router: int)
    requires Inv(s) && router in s.routerObjects && NoRecords(s, router) && NobodyJoinsOn(s, steps, router)
    ensures match RunFrom(s, steps) case None => true case Some(s') => NoRecords(s', router)
    decreases |steps|
  {
    if steps != [] && Possible(s, steps[0]) {
      var s1 := Do(s, steps[0]);
      StepKeepsInv(s, steps[0]);
      OnlyAJoinBringsOneBack(s, steps[0], router);
      assert !JoinsOn(s, steps[0], router);
      RoutersOfSpaces(s, steps[0], "", router);
      forall i | 0 <= i < |steps[1..]| ensures !JoinsOn(s1, steps[1..][i], router) {
        assert !JoinsOn(s, steps[i + 1], router);
        if steps[i + 1].Join? { RoutersOfSpaces(s, steps[0], steps[i + 1].space, router); }
      }
      NoRecordComesBack(s1, steps[1..], router);
    }
  }

  /** In every run, a router that was removed has no record from then on, until somebody joins a space on it. */
  lemma {:induction false} RemovedRoutersStayEmpty(before: seq<Step>, router: int, after: seq<Step>)
    ensures match Run(before)
            case None => true
            case Some(s) =>
              Possible(s, RemoveRouter(router)) && router in s.routers && NobodyJoinsOn(s, after, router) ==>
                match RunFrom(s, [RemoveRouter(router)] + after)
                case None => true
                case Some(s') => NoRecords(s', router)
  {
    if Run(before).Some? {
      var s := Run(before).value;
      if Possible(s, RemoveRouter(router)) && router in s.routers && NobodyJoinsOn(s, after, router) {
        RemovalLeavesNone(s, router);
        StepKeepsInv(s, RemoveRouter(router));
        forall i | 0 <= i < |after| ensures !JoinsOn(Do(s, RemoveRouter(router)), after[i], router) {
          assert !JoinsOn(s, after[i], router);
        }
        NoRecordComesBack(Do(s, RemoveRouter(router)), after, router);
        assert ([RemoveRouter(router)] + after)[1..] == after;
      }
    }
  }

  lemma {:induction false} RemovalLeavesNone(s: Coordinator, router: int)
    requires Inv(s) && router in s.routers && router in s.routerObjects
    ensures NoRecords(RouterRemoved(s, router), router)
  {
    forall t | t in s.transports && t in s.transportObjects && s.transportObjects[t].router == router
      ensures t in s.routerObjects[router]
    {
      assert TransportOk(s, t);
    }
  }

  // ----- What a departed member left behind -----

  /** A record on a running router whose owner has departed. */
  ghost predicate LeftBehind(s: Coordinator, t: int) {
    && t in s.transports && t in s.transportObjects && s.transportObjects[t].router in s.routers
    && s.transportObjects[t].owner in s.memberObjects && s.transportObjects[t].owner !in s.members
  }

  lemma {:induction false} LeftBehindAfter(s: Coordinator, step: Step, t: int)
    requires Inv(s) && Possible(s, step) && LeftBehind(s, t)
    ensures t in Do(s, step).transportObjects && Do(s, step).transportObjects[t].router == s.transportObjects[t].router
    ensures if step == RemoveRouter(s.transportObjects[t].router) then t !in Do(s, step).transports
            else LeftBehind(Do(s, step), t)
  {
    StepKeepsInv(s, step);
    match step
    case Join(_) => IdsAreNew(s);
    case MeshLoop(member, others) => LoopKeepsRouters(s, member, others);
    case Answer(k, _) => assert TransportOk(s, k);
    case Leave(member) => OnlyOwnRecordsGo(s, member, t);
    case RemoveRouter(router) => OwnRouterAlone(s, router, t);
    case _ =>
  }

  lemma {:induction false} OwnRouterAlone(s: Coordinator, router: int, t: int)
    requires Inv(s) && router in s.routerObjects && t in s.transports && s.transportObjects[t].router in s.routers
    ensures t in RouterRemoved(s, router).transports <==> router != s.transportObjects[t].router
  {
    assert TransportOk(s, t);
  }

  /** A removed record is never stored again: ids are taken once. */
  lemma {:induction false} GoneStaysGone(s: Coordinator, steps: seq<Step>, t: int)
    requires Inv(s) && t in s.transportObjects && t !in s.transports
    ensures match RunFrom(s, steps) case None => true case Some(s') => t in s'.transportObjects && t !in s'.transports
    decreases |steps|
  {
    if steps != [] && Possible(s, steps[0]) {
      StepKeepsInv(s, steps[0]);
      StepStoresNoOldRecord(s, steps[0], t);
      GoneStaysGone(Do(s, steps[0]), steps[1..], t);
    }
  }

  lemma {:induction false} StepStoresNoOldRecord(s: Coordinator, step: Step, t: int)
    requires Inv(s) && Possible(s, step) && t in s.transportObjects && t !in s.transports
    ensures t !in Do(s, step).transports
  {
    match step
    case Join(_) => IdsAreNew(s);
    case MeshLoop(member, others) =>
      assert MemberOk(s, member);
      var p := s.memberObjects[member].producer.value;
      assert TransportOk(s, p);
      IdsAreBelowNext(s);
      LoopStoresNoOldRecord(s, s.transportObjects[p].router, member, p, others, t);
    case Answer(k, _) => assert TransportOk(s, k);
    case Leave(member) => assert MemberOk(s, member);
    case _ =>
  }

  lemma {:induction false} LoopStoresNoOldRecord(s: Coordinator, router: int, member: int, producer: int,
                                                 others: seq<int>, t: int)
    requires router in s.routerObjects && member in s.memberObjects && t < s.nextTransport && t !in s.transports
    requires forall i :: 0 <= i < |others| ==> others[i] in s.memberObjects
    ensures var s' := LinkedAll(s, router, member, producer, others); t < s'.nextTransport && t !in s'.transports
    decreases |others|
  {
    if others != [] {
      var n := |others| - 1;
      LoopStoresNoOldRecord(s, router, member, producer, others[..n], t);
      TurnStoresNoOldRecord(LinkedAll(s, router, member, producer, others[..n]), router, member, producer, others[n],
          t);
    }
  }

  lemma {:induction false} TurnStoresNoOldRecord(s: Coordinator, router: int, member: int, producer: int, other: int,
                                                 t: int)
    requires router in s.routerObjects && member in s.memberObjects && other in s.memberObjects && t < s.nextTransport
             && t !in s.transports
    ensures var s' := Linked(s, router, member, producer, other); t < s'.nextTransport && t !in s'.transports
  {}

  /** What a departed member left behind stays for as long as its router does, and goes with it for good. */
  lemma {:induction false} LeftBehindUntilTheRouterGoes(s: Coordinator, steps: seq<Step>, t: int)
    requires Inv(s) && LeftBehind(s, t)
    ensures match RunFrom(s, steps)
            case None => true
            case Some(s') => t in s'.transports <==> RemoveRouter(s.transportObjects[t].router) !in steps
    decreases |steps|
  {
    if steps != [] && Possible(s, steps[0]) {
      StepKeepsInv(s, steps[0]);
      LeftBehindAfter(s, steps[0], t);
      if steps[0] == RemoveRouter(s.transportObjects[t].router) {
        GoneStaysGone(Do(s, steps[0]), steps[1..], t);
      } else {
        LeftBehindUntilTheRouterGoes(Do(s, steps[0]), steps[1..], t);
        assert steps == [steps[0]] + steps[1..];
      }
    }
  }
}
