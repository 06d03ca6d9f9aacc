/** Runs that show what the mesh may look like: the overlap that doubles it, a consumer stored before its source is
    allocated, a record made for a departed member, and an acknowledgement that comes after the source is gone. */
module MeshWitness {
  import opened Common
  import opened Mesh
  import opened MeshRuns
  import opened MeshResults
  import opened MeshCounts

  // ----- Building a run step by step -----

  /** The step is possible and takes `s` to `s'`; read off the step's own function. */
  ghost predicate Does(s: Coordinator, step: Step, s': Coordinator) {
    && Possible(s, step)
    && match step
       case OpenSpace(space, router) => s' == SpaceOpened(s, space, router)
       case Join(space) => space in s.routerOf && s.routerOf[space] in s.routerObjects && s' == Joined(s, space)
       case Answer(t, ok) =>
         ok && t in s.transportObjects && s.transportObjects[t].owner in s.memberObjects
         && (s.transportObjects[t].source.Some? ==> s.transportObjects[t].source.value in s.transportObjects)
         && s' == Acked(s, t)
       case MeshLoop(member, others) =>
         s.memberObjects[member].producer.Some? && s.memberObjects[member].producer.value in s.transportObjects
         && s.transportObjects[s.memberObjects[member].producer.value].router in s.routerObjects
         && (forall i :: 0 <= i < |others| ==> others[i] in s.memberObjects) && s' == Meshed(s, member, others)
       case Leave(member) => member in s.memberObjects && s.memberObjects[member].space in s.spaces
           && s' == Left(s, member)
       case _ => false
  }

  ghost predicate StepAt(trail: seq<Coordinator>, steps: seq<Step>, i: nat) {
    i < |steps| && i + 1 < |trail| && Does(trail[i], steps[i], trail[i + 1])
  }

  ghost predicate Trail(trail: seq<Coordinator>, steps: seq<Step>) {
    |trail| == |steps| + 1 && trail[0] == Empty() && forall i: nat :: i < |steps| ==> StepAt(trail, steps, i)
  }

  /** The steps lead from the empty coordinator to `s`. */
  ghost predicate Reached(steps: seq<Step>, s: Coordinator) {
    exists trail :: Trail(trail, steps) && trail[|steps|] == s
  }

  lemma {:induction false} Then(steps: seq<Step>, s: Coordinator, step: Step, s': Coordinator)
    requires Reached(steps, s) && Does(s, step, s')
    ensures Reached(steps + [step], s')
  {
    var trail :| Trail(trail, steps) && trail[|steps|] == s;
    var more := trail + [s'];
    forall i: nat | i < |steps| + 1 ensures StepAt(more, steps + [step], i) {
      if i < |steps| { assert StepAt(trail, steps, i); }
    }
    assert Trail(more, steps + [step]) && more[|steps| + 1] == s';
  }

  lemma {:induction false} Start()
    ensures Reached([], Empty())
  {
    assert Trail([Empty()], []) && [Empty()][0] == Empty();
  }

  /** What is reached is what the run gives. */
  lemma {:induction false} ReachedIsRun(steps: seq<Step>, s: Coordinator)
    requires Reached(steps, s)
    ensures Run(steps) == Some(s)
  {
    var trail :| Trail(trail, steps) && trail[|steps|] == s;
    TrailIsRun(trail, steps, 0);
    assert steps[0..] == steps;
  }

  lemma {:induction false} TrailIsRun(trail: seq<Coordinator>, steps: seq<Step>, i: nat)
    requires Trail(trail, steps) && i <= |steps| && Inv(trail[i])
    ensures RunFrom(trail[i], steps[i..]) == Some(trail[|steps|])
    decreases |steps| - i
  {
    if i < |steps| {
      assert StepAt(trail, steps, i);
      StepKeepsInv(trail[i], steps[i]);
      TrailIsRun(trail, steps, i + 1);
      assert steps[i..][1..] == steps[i + 1..];
    }
  }

  // ----- Two members -----

  /** Members 0 and 1 of space "s" with their records on router 0; they own the producer transports 0 and 1. */
  ghost predicate Two(s: Coordinator) {
    && IsMember(s, 0) && IsMember(s, 1) && s.members == {0, 1} && s.spaces == map["s" := {0, 1}]
    && s.routerOf == map["s" := 0] && 0 in s.routers && 0 in s.routerObjects
    && 1 < s.nextTransport && forall t :: t in s.transportObjects ==> t < s.nextTransport
  }

  /** Member `m` and its producer transport, both with the same number. */
  ghost predicate IsMember(s: Coordinator, m: int) {
    && m in s.memberObjects && s.memberObjects[m].space == "s" && s.memberObjects[m].producer == Some(m)
    && m in s.transportObjects && m in s.transports
    && s.transportObjects[m].owner == m && s.transportObjects[m].router == 0 && s.transportObjects[m].source == None
  }

  ghost predicate SameLinkSets(s: Coordinator, s': Coordinator) {
    LinkSet(s', 0, 1) == LinkSet(s, 0, 1) && LinkSet(s', 1, 0) == LinkSet(s, 1, 0)
  }

  lemma {:induction false} OneJoined() returns (s: Coordinator)
    ensures Reached([OpenSpace("s", 0), Join("s")], s)
    ensures IsMember(s, 0) && s.members == {0} && s.spaces == map["s" := {0}] && s.routerOf == map["s" := 0]
    ensures 0 in s.routers && 0 in s.routerObjects && s.nextTransport == 1 && s.nextMember == 1
    ensures s.transportObjects.Keys == {0} && s.requested == {0} && s.meshDue == {} && s.nacked == {}
    ensures s.memberObjects[0].consumers == map[] && s.transportObjects[0].status == Unallocated
  {
    var empty := SpaceOpened(Empty(), "s", 0);
    Start();
    Then([], Empty(), OpenSpace("s", 0), empty);
    s := Joined(empty, "s");
    Then([] + [OpenSpace("s", 0)], empty, Join("s"), s);
    assert [] + [OpenSpace("s", 0)] + [Join("s")] == [OpenSpace("s", 0), Join("s")];
  }

  /** The two members joined and nothing was answered yet. */
  ghost predicate Fresh(s: Coordinator) {
    && Two(s) && s.transportObjects.Keys == {0, 1} && s.nextTransport == 2
    && s.requested == {0, 1} && s.meshDue == {} && s.nacked == {}
    && s.memberObjects[0].consumers == map[] && s.memberObjects[1].consumers == map[]
    && s.transportObjects[1].status == Unallocated && LinkSet(s, 0, 1) == {} && LinkSet(s, 1, 0) == {}
  }

  lemma {:induction false} TwoJoined() returns (s: Coordinator)
    ensures Reached([OpenSpace("s", 0), Join("s"), Join("s")], s) && Fresh(s)
  {
    var one := OneJoined();
    s := Joined(one, "s");
    Then([OpenSpace("s", 0), Join("s")], one, Join("s"), s);
    assert [OpenSpace("s", 0), Join("s")] + [Join("s")] == [OpenSpace("s", 0), Join("s"), Join("s")];
  }

  lemma {:induction false} AfterProducerAck(s: Coordinator, m: int)
    requires Two(s) && (m == 0 || m == 1) && m in s.requested
    ensures Does(s, Answer(m, true), Acked(s, m)) && Two(Acked(s, m)) && SameLinkSets(s, Acked(s, m))
  {}

  /** What the mesh loop of `m` leaves when it meets the other member `o` and both producer records stand. */
  ghost function Linking(s: Coordinator, m: int, o: int): Coordinator
    requires 0 in s.routerObjects
  {
    var t := s.nextTransport;
    s.(transportObjects :=
        s.transportObjects[t := Transport(o, 0, Some(m), Unallocated)][t + 1 := Transport(m, 0, Some(o), Unallocated)],
       transports := s.transports + {t} + {t + 1},
       routerObjects := s.routerObjects[0 := s.routerObjects[0] + {t}][0 := s.routerObjects[0] + {t} + {t + 1}],
       nextTransport := t + 2, requested := s.requested + {t} + {t + 1}, meshDue := s.meshDue - {m})
  }

  lemma {:induction false} LoopOfTwo(s: Coordinator, m: int, p: int)
    requires 0 in s.routerObjects && m in s.memberObjects && 0 in s.memberObjects && 1 in s.memberObjects
    ensures LinkedAll(s, 0, m, p, [0, 1]) == Linked(Linked(s, 0, m, p, 0), 0, m, p, 1)
  {
    assert [0, 1][..1] == [0] && [0][..0] == [];
    assert LinkedAll(s, 0, m, p, [0]) == Linked(s, 0, m, p, 0);
  }

  lemma {:induction false} LoopIsLinking(s: Coordinator, m: int)
    requires Two(s) && (m == 0 || m == 1) && m in s.meshDue
    ensures Does(s, MeshLoop(m, [0, 1]), Linking(s, m, 1 - m))
  {
    LoopOfTwo(s, m, m);
    assert Linked(s, 0, m, m, 1 - m).(meshDue := s.meshDue - {m}) == Linking(s, m, 1 - m);
  }

  lemma {:induction false} AfterLinking(s: Coordinator, m: int)
    requires Two(s) && (m == 0 || m == 1)
    ensures var s' := Linking(s, m, 1 - m);
            && Two(s') && LinkSet(s', m, 1 - m) == LinkSet(s, m, 1 - m) + {s.nextTransport + 1}
            && LinkSet(s', 1 - m, m) == LinkSet(s, 1 - m, m) + {s.nextTransport}
  {}

  lemma {:induction false} ThenLoop(steps: seq<Step>, s: Coordinator, m: int)
    requires Reached(steps, s) && Two(s) && (m == 0 || m == 1) && m in s.meshDue
    ensures Reached(steps + [MeshLoop(m, [0, 1])], Linking(s, m, 1 - m))
  {
    LoopIsLinking(s, m);
    Then(steps, s, MeshLoop(m, [0, 1]), Linking(s, m, 1 - m));
  }

  // ----- Joins that overlap -----

  ghost function Overlap(): seq<Step> {
    [OpenSpace("s", 0), Join("s"), Join("s"), Answer(0, true), Answer(1, true), MeshLoop(0, [0, 1]),
        MeshLoop(1, [0, 1])]
  }

  /** Two joins that overlap: both producer transports are acknowledged before either mesh loop runs, each loop meets
      the other member, and the pair has two consumer transports in each direction. */
  lemma {:induction false} OverlappingJoinsDoubleTheMesh() returns (s: Coordinator)
    ensures Run(Overlap()) == Some(s)
    ensures Pair(s, 0, 1) && LinkSet(s, 0, 1) == {3, 4} && LinkSet(s, 1, 0) == {2, 5}
  {
    s := BothLooped();
    ReachedIsRun(Overlap(), s);
  }

  lemma {:induction false} BothLooped() returns (s: Coordinator)
    ensures Reached(Overlap(), s) && Two(s) && LinkSet(s, 0, 1) == {3, 4} && LinkSet(s, 1, 0) == {2, 5}
  {
    var looped := OneLooped();
    ThenLoop(Overlap()[..5] + [MeshLoop(0, [0, 1])], looped, 1);
    AfterLinking(looped, 1);
    s := Linking(looped, 1, 0);
    assert Overlap()[..5] + [MeshLoop(0, [0, 1])] + [MeshLoop(1, [0, 1])] == Overlap();
  }

  lemma {:induction false} OneLooped() returns (s: Coordinator)
    ensures Reached(Overlap()[..5] + [MeshLoop(0, [0, 1])], s) && Two(s) && s.nextTransport == 4 && s.meshDue == {1}
    ensures LinkSet(s, 0, 1) == {3} && LinkSet(s, 1, 0) == {2}
  {
    var both := BothAcked();
    ThenLoop(Overlap()[..5], both, 0);
    AfterLinking(both, 0);
    s := Linking(both, 0, 1);
  }

  lemma {:induction false} BothAcked() returns (s: Coordinator)
    ensures Reached(Overlap()[..5], s) && Two(s) && s.nextTransport == 2 && s.meshDue == {0, 1}
    ensures LinkSet(s, 0, 1) == {} && LinkSet(s, 1, 0) == {}
  {
    var both := TwoJoined();
    AfterProducerAck(both, 0);
    var s1 := Acked(both, 0);
    Then([OpenSpace("s", 0), Join("s"), Join("s")], both, Answer(0, true), s1);
    AfterProducerAck(s1, 1);
    s := Acked(s1, 1);
    Then([OpenSpace("s", 0), Join("s"), Join("s")] + [Answer(0, true)], s1, Answer(1, true), s);
    assert [OpenSpace("s", 0), Join("s"), Join("s")] + [Answer(0, true)] + [Answer(1, true)] == Overlap()[..5];
  }

  // ----- One member is ahead -----

  ghost function Ahead(): seq<Step> {
    [OpenSpace("s", 0), Join("s"), Join("s"), Answer(0, true)]
  }

  /** The first member's producer transport is acknowledged, the second one's is not. */
  ghost predicate OneAcked(s: Coordinator) {
    && Two(s) && s.nextTransport == 2 && s.meshDue == {0} && s.requested == {1} && s.nacked == {}
    && s.memberObjects[0].consumers == map[] && s.memberObjects[1].consumers == map[]
    && s.transportObjects[1].status == Unallocated
  }

  lemma {:induction false} FirstAcked() returns (s: Coordinator)
    ensures Reached(Ahead(), s) && OneAcked(s)
  {
    var both := TwoJoined();
    AfterProducerAck(both, 0);
    s := Acked(both, 0);
    Then([OpenSpace("s", 0), Join("s"), Join("s")], both, Answer(0, true), s);
    assert [OpenSpace("s", 0), Join("s"), Join("s")] + [Answer(0, true)] == Ahead();
  }

  lemma {:induction false} FirstLooped() returns (before: Coordinator, s: Coordinator)
    ensures OneAcked(before) && s == Linking(before, 0, 1) && Two(s)
    ensures Reached(Ahead() + [MeshLoop(0, [0, 1])], s)
  {
    before := FirstAcked();
    ThenLoop(Ahead(), before, 0);
    AfterLinking(before, 0);
    s := Linking(before, 0, 1);
  }

  /** A consumer can be allocated and stored while the request for its source transport is still pending. */
  lemma {:induction false} ConsumerMayPrecedeItsSource() returns (s: Coordinator)
    ensures Run(Ahead() + [MeshLoop(0, [0, 1])] + [Answer(3, true)]) == Some(s)
    ensures Covered(s, 0, 1) && s.memberObjects[0].consumers[1] == 3 && 3 in s.transportObjects
            && s.transportObjects[3].source == Some(1)
    ensures 1 in s.transportObjects && s.transportObjects[1].status == Unallocated && 1 in s.requested
  {
    var before, looped := FirstLooped();
    s := Acked(looped, 3);
    Then(Ahead() + [MeshLoop(0, [0, 1])], looped, Answer(3, true), s);
    ReachedIsRun(Ahead() + [MeshLoop(0, [0, 1])] + [Answer(3, true)], s);
  }

  /** The mesh loop of a member that left meanwhile still runs, and allocates a consumer transport for it. */
  lemma {:induction false} DepartedMemberGetsAConsumer() returns (s: Coordinator)
    ensures Run(Ahead() + [Leave(0)] + [MeshLoop(0, [1])]) == Some(s)
    ensures 2 in s.transports && 2 in s.transportObjects && s.transportObjects[2].owner == 0 && 0 !in s.members
  {
    var acked := FirstAcked();
    var left := Left(acked, 0);
    Then(Ahead(), acked, Leave(0), left);
    LeavesAlone(acked);
    assert [1][..0] == [];
    assert LinkedAll(left, 0, 0, 0, [1]) == Linked(left, 0, 0, 0, 1);
    s := Meshed(left, 0, [1]);
    Then(Ahead() + [Leave(0)], left, MeshLoop(0, [1]), s);
    ReachedIsRun(Ahead() + [Leave(0)] + [MeshLoop(0, [1])], s);
  }

  /** A member without consumers takes only its producer transport along. */
  lemma {:induction false} LeavesAlone(s: Coordinator)
    requires Two(s) && s.memberObjects[0].consumers == map[]
    ensures Left(s, 0).transports == s.transports - {0}
    ensures Left(s, 0).spaces == map["s" := {1}]
  {
    assert s.memberObjects[0].consumers.Values == {};
    assert {0, 1} - {0} == {1};
  }

  /** A member leaves before the acknowledgement of a transport that consumes from it: the transport is allocated, it is
      not stored as a consumer, and its request is nacked as well. */
  lemma {:induction false} LateAckIsNackedToo() returns (s: Coordinator)
    ensures Run(Ahead() + [MeshLoop(0, [0, 1])] + [Leave(0)] + [Answer(2, true)]) == Some(s)
    ensures 2 in s.transportObjects && s.transportObjects[2].status == Allocated && 2 in s.nacked && 2 in s.transports
    ensures 1 in s.members && 1 in s.memberObjects && s.memberObjects[1].consumers == map[]
  {
    var before, looped := FirstLooped();
    var left := Left(looped, 0);
    Then(Ahead() + [MeshLoop(0, [0, 1])], looped, Leave(0), left);
    LeavesAlone(looped);
    s := Acked(left, 2);
    Then(Ahead() + [MeshLoop(0, [0, 1])] + [Leave(0)], left, Answer(2, true), s);
    ReachedIsRun(Ahead() + [MeshLoop(0, [0, 1])] + [Leave(0)] + [Answer(2, true)], s);
  }
}
