/** How many records the mesh has, over every run: a pair of members gets one consumer record per direction for each of
    the two mesh loops that met the other member, and joins that run to completion leave exactly one. */
module MeshCounts {
  import opened Common
  import opened Mesh
  import opened MeshRuns
  import opened MeshResults

  /** The transports with which `x` consumes from `y`. */
  ghost function LinkSet(s: Coordinator, x: int, y: int): set<int> {
    set t | t in s.transportObjects && Links(s, t, x, y)
  }

  function One(b: bool): nat { if b then 1 else 0 }

  ghost predicate Sees(step: Step, m: int, o: int) {
    step.MeshLoop? && step.member == m && o in step.others
  }

  /** In these steps `m`'s mesh loop ran while `o` was in the space. */
  ghost predicate LoopSaw(steps: seq<Step>, m: int, o: int) {
    exists i :: 0 <= i < |steps| && Sees(steps[i], m, o)
  }

  ghost predicate Loops(step: Step, m: int) {
    step.MeshLoop? && step.member == m
  }

  ghost predicate Looped(steps: seq<Step>, m: int) {
    exists i :: 0 <= i < |steps| && Loops(steps[i], m)
  }

  lemma {:induction false} SawOneMore(steps: seq<Step>, step: Step, m: int, o: int)
    ensures LoopSaw(steps + [step], m, o) <==> LoopSaw(steps, m, o) || Sees(step, m, o)
    ensures Looped(steps + [step], m) <==> Looped(steps, m) || Loops(step, m)
  {
    var more := steps + [step];
    if LoopSaw(steps, m, o) {
      var i :| 0 <= i < |steps| && Sees(steps[i], m, o);
      assert Sees(more[i], m, o);
    }
    if Looped(steps, m) {
      var i :| 0 <= i < |steps| && Loops(steps[i], m);
      assert Loops(more[i], m);
    }
    assert more[|steps|] == step;
  }

  // ----- What a history tells -----

  ghost predicate CountOk(s: Coordinator, done: seq<Step>, x: int, y: int) {
    |LinkSet(s, x, y)| == One(LoopSaw(done, x, y)) + One(LoopSaw(done, y, x))
  }

  ghost predicate Counted(s: Coordinator, done: seq<Step>) {
    forall x, y :: Pair(s, x, y) ==> CountOk(s, done, x, y)
  }

  /** A member whose loop has run has nothing due; what a loop met is a member. */
  ghost predicate LoopsOk(s: Coordinator, done: seq<Step>) {
    && (forall m :: Looped(done, m) ==> m in s.memberObjects && !Due(s, m))
    && (forall m, o :: LoopSaw(done, m, o) ==> o in s.memberObjects && Looped(done, m))
  }

  /** A consumer and its source belong to two members of one space, and no two spaces share a router. */
  ghost predicate WithinSpaces(s: Coordinator) {
    && (forall t :: t in s.transportObjects ==> ConsumerWithinSpace(s, t))
    && (forall a, b :: a in s.routerOf && b in s.routerOf && s.routerOf[a] == s.routerOf[b] ==> a == b)
  }

  ghost predicate ConsumerWithinSpace(s: Coordinator, t: int)
    requires t in s.transportObjects
  {
    var tr := s.transportObjects[t];
    tr.source.Some? && tr.source.value in s.transportObjects ==>
      && var y := s.transportObjects[tr.source.value].owner;
      && y != tr.owner && tr.owner in s.memberObjects && y in s.memberObjects
      && s.memberObjects[tr.owner].space == s.memberObjects[y].space
  }

  ghost predicate History(s: Coordinator, done: seq<Step>) {
    Inv(s) && Counted(s, done) && LoopsOk(s, done) && WithinSpaces(s)
  }

  // ----- Steps that allocate nothing for a pair -----

  /** Transports and producers are the same ones, and no pair is new. */
  ghost predicate SameTransports(s: Coordinator, s': Coordinator) {
    && ObjectsGrow(s, s') && s'.transportObjects.Keys == s.transportObjects.Keys
    && s'.memberObjects.Keys == s.memberObjects.Keys
    && s'.members <= s.members && s'.routers <= s.routers && s'.routerOf == s.routerOf
  }

  lemma {:induction false} SameLinks(s: Coordinator, s': Coordinator, x: int, y: int)
    requires SameTransports(s, s')
    ensures LinkSet(s', x, y) == LinkSet(s, x, y)
  {}

  lemma {:induction false} QuietStep(s: Coordinator, s': Coordinator, done: seq<Step>, step: Step)
    requires History(s, done) && Inv(s') && SameTransports(s, s') && !step.MeshLoop?
    requires forall m :: m in s.memberObjects && !Due(s, m) ==> !Due(s', m)
    ensures History(s', done + [step])
  {
    forall m, o ensures LoopSaw(done + [step], m, o) <==> LoopSaw(done, m, o) { SawOneMore(done, step, m, o); }
    forall m ensures Looped(done + [step], m) <==> Looped(done, m) { SawOneMore(done, step, m, m); }
    forall x, y | Pair(s', x, y) ensures CountOk(s', done + [step], x, y) {
      assert Pair(s, x, y) && CountOk(s, done, x, y);
      SameLinks(s, s', x, y);
    }
    forall t | t in s'.transportObjects ensures ConsumerWithinSpace(s', t) { assert ConsumerWithinSpace(s, t); }
  }

  /** An answer makes nobody due who was not. */
  lemma {:induction false} AnswersMakeNobodyDue(s: Coordinator, t: int, ok: bool, m: int)
    requires Inv(s) && t in s.requested && m in s.memberObjects && !Due(s, m)
    ensures !Due(Do(s, Answer(t, ok)), m)
  {
    assert TransportOk(s, t) && MemberOk(s, m);
  }

  lemma {:induction false} AnsweringKeepsHistory(s: Coordinator, done: seq<Step>, t: int, ok: bool)
    requires History(s, done) && t in s.requested
    ensures History(Do(s, Answer(t, ok)), done + [Answer(t, ok)])
  {
    var s' := Do(s, Answer(t, ok));
    AnswerKeepsInv(s, t, ok);
    AnswerKeepsObjects(s, t, ok);
    forall m | m in s.memberObjects && !Due(s, m) ensures !Due(s', m) { AnswersMakeNobodyDue(s, t, ok, m); }
    QuietStep(s, s', done, Answer(t, ok));
  }

  lemma {:induction false} AnswerKeepsObjects(s: Coordinator, t: int, ok: bool)
    requires Inv(s) && t in s.requested && ObjectsGrow(s, Do(s, Answer(t, ok)))
    ensures SameTransports(s, Do(s, Answer(t, ok)))
  {
    assert TransportOk(s, t);
  }

  lemma {:induction false} OtherStepsKeepHistory(s: Coordinator, done: seq<Step>, step: Step)
    requires History(s, done) && Possible(s, step) && (step.Leave? || step.RemoveRouter? || step.Connect?)
    ensures History(Do(s, step), done + [step])
  {
    var s' := Do(s, step);
    StepKeepsInv(s, step);
    QuietStep(s, s', done, step);
  }

  // ----- Opening and joining -----

  lemma {:induction false} OpeningKeepsHistory(s: Coordinator, done: seq<Step>, space: string, router: int)
    requires History(s, done) && Possible(s, OpenSpace(space, router))
    ensures History(SpaceOpened(s, space, router), done + [OpenSpace(space, router)])
  {
    var s', step := SpaceOpened(s, space, router), OpenSpace(space, router);
    InvAfterOpening(s, space, router);
    forall m, o ensures LoopSaw(done + [step], m, o) <==> LoopSaw(done, m, o) { SawOneMore(done, step, m, o); }
    forall m ensures Looped(done + [step], m) <==> Looped(done, m) { SawOneMore(done, step, m, m); }
    forall x, y | Pair(s', x, y) ensures CountOk(s', done + [step], x, y) {
      assert MemberOk(s, x);
      assert Pair(s, x, y) && CountOk(s, done, x, y);
      assert LinkSet(s', x, y) == LinkSet(s, x, y);
    }
    forall t | t in s'.transportObjects ensures ConsumerWithinSpace(s', t) { assert ConsumerWithinSpace(s, t); }
  }

  lemma {:induction false} LinksAfterJoining(s: Coordinator, space: string, x: int, y: int)
    requires Inv(s) && space in s.spaces
    ensures LinkSet(Joined(s, space), x, y) == if x == s.nextMember || y == s.nextMember then {} else LinkSet(s, x, y)
  {
    var s', z := Joined(s, space), s.nextMember;
    IdsAreNew(s);
    forall t ensures t in LinkSet(s', x, y) <==> x != z && y != z && t in LinkSet(s, x, y) {
      if t in s.transportObjects { assert TransportOk(s, t); }
    }
  }

  lemma {:induction false} JoiningKeepsHistory(s: Coordinator, done: seq<Step>, space: string)
    requires History(s, done) && space in s.spaces
    ensures History(Joined(s, space), done + [Join(space)])
  {
    InvAfterJoining(s, space);
    IdsAreNew(s);
    CountsAfterJoining(s, done, space);
    LoopsAfterJoining(s, done, space);
    JoiningStaysWithin(s, space);
  }

  lemma {:induction false} CountsAfterJoining(s: Coordinator, done: seq<Step>, space: string)
    requires History(s, done) && space in s.spaces && s.nextMember !in s.memberObjects
    ensures Counted(Joined(s, space), done + [Join(space)])
  {
    var s', step, z := Joined(s, space), Join(space), s.nextMember;
    forall x, y | Pair(s', x, y) ensures CountOk(s', done + [step], x, y) {
      SawOneMore(done, step, x, y);
      SawOneMore(done, step, y, x);
      LinksAfterJoining(s, space, x, y);
      if x != z && y != z { assert Pair(s, x, y) && CountOk(s, done, x, y); }
    }
  }

  lemma {:induction false} LoopsAfterJoining(s: Coordinator, done: seq<Step>, space: string)
    requires History(s, done) && space in s.spaces && s.nextMember !in s.memberObjects
             && s.nextTransport !in s.transportObjects
    ensures LoopsOk(Joined(s, space), done + [Join(space)])
  {
    var s', step := Joined(s, space), Join(space);
    forall m, o ensures LoopSaw(done + [step], m, o) <==> LoopSaw(done, m, o) { SawOneMore(done, step, m, o); }
    forall m ensures Looped(done + [step], m) <==> Looped(done, m) { SawOneMore(done, step, m, m); }
    forall m | Looped(done, m) ensures m in s'.memberObjects && !Due(s', m) { assert MemberOk(s, m); }
  }

  lemma {:induction false} JoiningStaysWithin(s: Coordinator, space: string)
    requires Inv(s) && WithinSpaces(s) && space in s.spaces && s.nextMember !in s.memberObjects
             && s.nextTransport !in s.transportObjects
    ensures WithinSpaces(Joined(s, space))
  {
    var s' := Joined(s, space);
    forall t | t in s'.transportObjects ensures ConsumerWithinSpace(s', t) {
      if t in s.transportObjects { assert ConsumerWithinSpace(s, t) && TransportOk(s, t); }
    }
  }

  // ----- The mesh loop -----

  lemma {:induction false} LinksAfterTrying(s: Coordinator, router: int, m: int, source: int, o: int, x: int, y: int)
    requires Inv(s) && router in s.routerObjects && m in s.memberObjects
    requires o in s.memberObjects && s.memberObjects[o].producer == Some(source)
    ensures |LinkSet(TryAllocate(s, router, m, source), x, y)|
            == |LinkSet(s, x, y)| + One(source in s.transports && x == m && y == o)
  {
    if source in s.transports {
      IdsAreNew(s);
      OneOwner(s, o, y, source);
      NewLink(s, router, m, source, x, y);
      assert s.nextTransport !in LinkSet(s, x, y);
    }
  }

  lemma {:induction false} OneOwner(s: Coordinator, o: int, y: int, p: int)
    requires MembersOk(s) && o in s.memberObjects && s.memberObjects[o].producer == Some(p)
    ensures y in s.memberObjects && s.memberObjects[y].producer == Some(p) <==> y == o
  {
    assert MemberOk(s, o) && (y in s.memberObjects ==> MemberOk(s, y));
  }

  lemma {:induction false} NewLink(s: Coordinator, router: int, m: int, source: int, x: int, y: int)
    requires router in s.routerObjects && m in s.memberObjects && source in s.transports
             && s.nextTransport !in s.transportObjects
    ensures LinkSet(TryAllocate(s, router, m, source), x, y)
            == LinkSet(s, x, y) + (if x == m && y in s.memberObjects && s.memberObjects[y].producer == Some(source)
                                   then {s.nextTransport} else {})
  {}

  /** What one turn of the loop adds for a pair. */
  ghost function Added(s: Coordinator, member: int, producer: int, other: int, x: int, y: int): nat
    requires other in s.memberObjects && s.memberObjects[other].producer.Some?
  {
    One(other != member && producer in s.transports && x == other && y == member)
    + One(other != member && s.memberObjects[other].producer.value in s.transports && x == member && y == other)
  }

  lemma {:induction false} LinksAfterTurn(s: Coordinator, router: int, member: int, producer: int, other: int, x: int,
                                          y: int)
    requires Inv(s) && router in s.routerObjects && OnRouter(s, member, router) && OnRouter(s, other, router)
    requires s.memberObjects[member].producer == Some(producer)
    ensures |LinkSet(Linked(s, router, member, producer, other), x, y)|
            == |LinkSet(s, x, y)| + Added(s, member, producer, other, x, y)
  {
    if other != member {
      var q := s.memberObjects[other].producer.value;
      var s1 := TryAllocate(s, router, other, producer);
      LinksAfterTrying(s, router, other, producer, member, x, y);
      InvAfterTrying(s, router, other, producer);
      LinksAfterTrying(s1, router, member, q, other, x, y);
      IdsAreNew(s);
      assert MemberOk(s, other);
    }
  }

  /** The pair consists of `member` and another member, and both producers have their records. */
  ghost predicate LivePair(s: Coordinator, member: int, producer: int, x: int, y: int) {
    && x != y && (x == member || y == member) && producer in s.transports
    && var o := if x == member then y else x;
    && o in s.memberObjects && s.memberObjects[o].producer.Some? && s.memberObjects[o].producer.value in s.transports
  }

  ghost function OtherOf(member: int, x: int, y: int): int {
    if x == member then y else x
  }

  lemma {:induction false} TurnOfLivePair(s: Coordinator, router: int, member: int, producer: int, other: int, x: int,
                                          y: int)
    requires Inv(s) && router in s.routerObjects && OnRouter(s, member, router) && OnRouter(s, other, router)
    requires s.memberObjects[member].producer == Some(producer) && LivePair(s, member, producer, x, y)
    ensures |LinkSet(Linked(s, router, member, producer, other), x, y)|
            == |LinkSet(s, x, y)| + One(other == OtherOf(member, x, y))
  {
    LinksAfterTurn(s, router, member, producer, other, x, y);
  }

  lemma {:induction false} OnceMore(ids: seq<int>, o: int)
    requires ids != [] && forall i, j :: 0 <= i < j < |ids| ==> ids[i] != ids[j]
    ensures One(o in ids) == One(o in ids[..|ids| - 1]) + One(ids[|ids| - 1] == o)
  {
    assert ids == ids[..|ids| - 1] + [ids[|ids| - 1]];
  }

  lemma {:induction false} LinksAfterLoop(s: Coordinator, router: int, member: int, producer: int, others: seq<int>,
                                          x: int, y: int)
    requires Inv(s) && router in s.routerObjects && OnRouter(s, member, router)
    requires s.memberObjects[member].producer == Some(producer) && LivePair(s, member, producer, x, y)
    requires forall i :: 0 <= i < |others| ==> others[i] in s.memberObjects && OnRouter(s, others[i], router)
    requires forall i, j :: 0 <= i < j < |others| ==> others[i] != others[j]
    ensures |LinkSet(LinkedAll(s, router, member, producer, others), x, y)|
            == |LinkSet(s, x, y)| + One(OtherOf(member, x, y) in others)
    decreases |others|
  {
    if others != [] {
      var n := |others| - 1;
      LinksAfterLoop(s, router, member, producer, others[..n], x, y);
      LoopGrows(s, router, member, producer, others[..n]);
      TurnOfLivePair(LinkedAll(s, router, member, producer, others[..n]), router, member, producer, others[n], x, y);
      OnceMore(others, OtherOf(member, x, y));
    }
  }

  lemma {:induction false} LoopLeavesOthers(s: Coordinator, router: int, member: int, producer: int, others: seq<int>,
                                            x: int, y: int)
    requires Inv(s) && router in s.routerObjects && OnRouter(s, member, router)
    requires s.memberObjects[member].producer == Some(producer) && x != member && y != member
    requires forall i :: 0 <= i < |others| ==> others[i] in s.memberObjects && OnRouter(s, others[i], router)
    ensures |LinkSet(LinkedAll(s, router, member, producer, others), x, y)| == |LinkSet(s, x, y)|
    decreases |others|
  {
    if others != [] {
      var n := |others| - 1;
      LoopLeavesOthers(s, router, member, producer, others[..n], x, y);
      LoopGrows(s, router, member, producer, others[..n]);
      LinksAfterTurn(LinkedAll(s, router, member, producer, others[..n]), router, member, producer, others[n], x, y);
    }
  }

  /** The loop keeps the transports it finds, and what it adds stays within the space. */
  lemma {:induction false} TryingStaysWithin(s: Coordinator, router: int, m: int, source: int, o: int)
    requires Inv(s) && WithinSpaces(s) && router in s.routerObjects && m in s.memberObjects && o in s.memberObjects
    requires s.memberObjects[o].producer == Some(source) && m != o
             && s.memberObjects[m].space == s.memberObjects[o].space
    ensures WithinSpaces(TryAllocate(s, router, m, source))
  {
    if source in s.transports {
      IdsAreNew(s);
      assert MemberOk(s, o);
      var s' := TryAllocate(s, router, m, source);
      forall t | t in s'.transportObjects ensures ConsumerWithinSpace(s', t) {
        if t in s.transportObjects { assert ConsumerWithinSpace(s, t) && TransportOk(s, t); }
      }
    }
  }

  lemma {:induction false} LoopStaysWithin(s: Coordinator, router: int, member: int, producer: int, others: seq<int>)
    requires Inv(s) && WithinSpaces(s) && router in s.routerObjects && OnRouter(s, member, router)
    requires s.memberObjects[member].producer == Some(producer)
    requires forall i :: 0 <= i < |others| ==>
               && others[i] in s.memberObjects && OnRouter(s, others[i], router)
               && s.memberObjects[others[i]].space == s.memberObjects[member].space
    ensures WithinSpaces(LinkedAll(s, router, member, producer, others))
    decreases |others|
  {
    if others != [] {
      var n := |others| - 1;
      var s1 := LinkedAll(s, router, member, producer, others[..n]);
      LoopStaysWithin(s, router, member, producer, others[..n]);
      LoopGrows(s, router, member, producer, others[..n]);
      TurnStaysWithin(s1, router, member, producer, others[n]);
    }
  }

  lemma {:induction false} TurnStaysWithin(s: Coordinator, router: int, member: int, producer: int, other: int)
    requires Inv(s) && WithinSpaces(s) && router in s.routerObjects && OnRouter(s, member, router)
             && OnRouter(s, other, router)
    requires s.memberObjects[member].producer == Some(producer)
             && s.memberObjects[other].space == s.memberObjects[member].space
    ensures WithinSpaces(Linked(s, router, member, producer, other))
  {
    if other != member {
      TryingStaysWithin(s, router, other, producer, member);
      InvAfterTrying(s, router, other, producer);
      TryingStaysWithin(TryAllocate(s, router, other, producer), router, member, s.memberObjects[other].producer.value,
          other);
    }
  }

  lemma {:induction false} LoopCounts(s: Coordinator, done: seq<Step>, member: int, others: seq<int>, x: int, y: int)
    requires History(s, done) && Possible(s, MeshLoop(member, others)) && Pair(s, x, y)
    ensures CountOk(Do(s, MeshLoop(member, others)), done + [MeshLoop(member, others)], x, y)
  {
    var step := MeshLoop(member, others);
    assert CountOk(s, done, x, y);
    SawOneMore(done, step, x, y);
    SawOneMore(done, step, y, x);
    LoopLinkCount(s, member, others, x, y);
    if x == member || y == member {
      var o := OtherOf(member, x, y);
      assert Due(s, member) && !LoopSaw(done, member, o);
      assert o in others by { assert MemberOk(s, o); }
    }
  }

  lemma {:induction false} LoopLinkCount(s: Coordinator, member: int, others: seq<int>, x: int, y: int)
    requires Inv(s) && Possible(s, MeshLoop(member, others)) && Pair(s, x, y)
    ensures |LinkSet(Do(s, MeshLoop(member, others)), x, y)|
            == |LinkSet(s, x, y)| + One((x == member || y == member) && OtherOf(member, x, y) in others)
  {
    assert MemberOk(s, member) && MemberOk(s, x) && MemberOk(s, y);
    var p := s.memberObjects[member].producer.value;
    assert TransportOk(s, p) && TransportOk(s, s.memberObjects[x].producer.value)
        && TransportOk(s, s.memberObjects[y].producer.value);
    OthersOnRouter(s, member, others);
    var router := s.transportObjects[p].router;
    var looped := LinkedAll(s, router, member, p, others);
    assert LinkSet(Do(s, MeshLoop(member, others)), x, y) == LinkSet(looped, x, y);
    if x == member || y == member {
      LinksAfterLoop(s, router, member, p, others, x, y);
    } else {
      LoopLeavesOthers(s, router, member, p, others, x, y);
    }
  }

  lemma {:induction false} LoopingKeepsHistory(s: Coordinator, done: seq<Step>, member: int, others: seq<int>)
    requires History(s, done) && Possible(s, MeshLoop(member, others))
    ensures History(Do(s, MeshLoop(member, others)), done + [MeshLoop(member, others)])
  {
    var s', step := Do(s, MeshLoop(member, others)), MeshLoop(member, others);
    LoopKeepsInv(s, member, others);
    LoopFrame(s, member, others);
    forall x, y | Pair(s', x, y) ensures CountOk(s', done + [step], x, y) {
      assert Pair(s, x, y);
      LoopCounts(s, done, member, others, x, y);
    }
    forall m ensures Looped(done + [step], m) <==> Looped(done, m) || m == member { SawOneMore(done, step, m, m); }
    forall m, o ensures LoopSaw(done + [step], m, o) <==> LoopSaw(done, m, o) || (m == member && o in others) {
      SawOneMore(done, step, m, o);
    }
    forall m | m in s.memberObjects && !Due(s, m) ensures !Due(s', m) { StillNotDue(s, member, others, m); }
    StillNotDue(s, member, others, member);
  }

  lemma {:induction false} LoopFrame(s: Coordinator, member: int, others: seq<int>)
    requires Inv(s) && WithinSpaces(s) && Possible(s, MeshLoop(member, others))
    ensures var s' := Do(s, MeshLoop(member, others));
            && s'.memberObjects == s.memberObjects && s'.members == s.members && s'.routers == s.routers
            && s'.routerOf == s.routerOf
            && s'.spaces == s.spaces && s'.meshDue == s.meshDue - {member} && s.requested <= s'.requested
            && WithinSpaces(s')
  {
    assert MemberOk(s, member);
    var p := s.memberObjects[member].producer.value;
    assert TransportOk(s, p);
    var router := s.transportObjects[p].router;
    OthersOnRouter(s, member, others);
    LoopGrows(s, router, member, p, others);
    LoopStaysWithin(s, router, member, p, others);
    var looped := LinkedAll(s, router, member, p, others);
    var s' := Do(s, MeshLoop(member, others));
    forall t | t in s'.transportObjects ensures ConsumerWithinSpace(s', t) { assert ConsumerWithinSpace(looped, t); }
  }

  /** The loop's own requests are for consumers, so it makes no member due. */
  lemma {:induction false} StillNotDue(s: Coordinator, member: int, others: seq<int>, m: int)
    requires Inv(s) && WithinSpaces(s) && Possible(s, MeshLoop(member, others)) && m in s.memberObjects
             && (m == member || !Due(s, m))
    ensures !Due(Do(s, MeshLoop(member, others)), m)
  {
    var s' := Do(s, MeshLoop(member, others));
    LoopFrame(s, member, others);
    assert MemberOk(s, m);
    var p := s.memberObjects[m].producer.value;
    assert p !in s.requested;
    LoopKeepsInv(s, member, others);
    StatusMoves(s, MeshLoop(member, others), p);
    OldStaysUnrequested(s, member, others, p);
  }

  lemma {:induction false} OldStaysUnrequested(s: Coordinator, member: int, others: seq<int>, t: int)
    requires Inv(s) && Possible(s, MeshLoop(member, others)) && t in s.transportObjects && t !in s.requested
    ensures t !in Do(s, MeshLoop(member, others)).requested
  {
    assert MemberOk(s, member) && TransportOk(s, t);
    var p := s.memberObjects[member].producer.value;
    assert TransportOk(s, p);
    OthersOnRouter(s, member, others);
    LoopRequestsNewOnly(s, s.transportObjects[p].router, member, p, others, t);
  }

  lemma {:induction false} LoopRequestsNewOnly(s: Coordinator, router: int, member: int, producer: int,
                                               others: seq<int>, t: int)
    requires router in s.routerObjects && member in s.memberObjects && t < s.nextTransport && t !in s.requested
    requires forall i :: 0 <= i < |others| ==> others[i] in s.memberObjects
    ensures var s' := LinkedAll(s, router, member, producer, others); t < s'.nextTransport && t !in s'.requested
    decreases |others|
  {
    if others != [] {
      var n := |others| - 1;
      LoopRequestsNewOnly(s, router, member, producer, others[..n], t);
      TurnRequestsNewOnly(LinkedAll(s, router, member, producer, others[..n]), router, member, producer, others[n], t);
    }
  }

  lemma {:induction false} TurnRequestsNewOnly(s: Coordinator, router: int, member: int, producer: int, other: int,
                                               t: int)
    requires router in s.routerObjects && member in s.memberObjects && other in s.memberObjects
    requires t < s.nextTransport && t !in s.requested
    ensures var s' := Linked(s, router, member, producer, other); t < s'.nextTransport && t !in s'.requested
  {}

  // ----- Every run -----

  lemma {:induction false} StepKeepsHistory(s: Coordinator, done: seq<Step>, step: Step)
    requires History(s, done) && Possible(s, step)
    ensures History(Do(s, step), done + [step])
  {
    match step
    case OpenSpace(space, router) => OpeningKeepsHistory(s, done, space, router);
    case Join(space) => JoiningKeepsHistory(s, done, space);
    case Answer(t, ok) => AnsweringKeepsHistory(s, done, t, ok);
    case MeshLoop(member, others) => LoopingKeepsHistory(s, done, member, others);
    case _ => OtherStepsKeepHistory(s, done, step);
  }

  lemma {:induction false} RunKeepsHistory(s: Coordinator, done: seq<Step>, steps: seq<Step>)
    requires History(s, done) && RunFrom(s, steps).Some?
    ensures History(RunFrom(s, steps).value, done + steps)
    decreases |steps|
  {
    if steps == [] {
      assert done + steps == done;
    } else {
      StepKeepsHistory(s, done, steps[0]);
      OneFurther(done, steps);
      RunKeepsHistory(Do(s, steps[0]), done + [steps[0]], steps[1..]);
    }
  }

  lemma {:induction false} OneFurther(done: seq<Step>, steps: seq<Step>)
    requires steps != []
    ensures done + [steps[0]] + steps[1..] == done + steps
  {}

  /** In every run, whatever is nacked, leaves or overlaps: for two present members of a running space, `x` has one
      transport consuming from `y` for each of their two mesh loops that met the other member.  So a pair has two per
      direction exactly when each loop ran while the other member was already in the space. */
  lemma {:induction false} OneLinkPerLoop(steps: seq<Step>, x: int, y: int)
    requires Run(steps).Some? && Pair(Run(steps).value, x, y)
    ensures |LinkSet(Run(steps).value, x, y)| == One(LoopSaw(steps, x, y)) + One(LoopSaw(steps, y, x))
    ensures |LinkSet(Run(steps).value, x, y)| == 2 <==> LoopSaw(steps, x, y) && LoopSaw(steps, y, x)
  {
    RunKeepsHistory(Empty(), [], steps);
    assert [] + steps == steps;
    assert CountOk(Run(steps).value, steps, x, y);
  }

  // ----- Joins that complete one at a time -----

  /** In `space` a member joins when nobody's mesh loop is to come, nobody leaves, no producer request is nacked, and
      the router stays.  Other spaces do as they like. */
  ghost predicate Orderly(s: Coordinator, step: Step, space: string) {
    match step
    case Join(k) => k == space && k in s.spaces ==> forall m :: m in s.spaces[k] ==> !Due(s, m)
    case Leave(m) => m in s.memberObjects ==> s.memberObjects[m].space != space
    case RemoveRouter(r) => space in s.routerOf ==> s.routerOf[space] != r
    case Answer(t, ok) => !ok && t in s.transportObjects && s.transportObjects[t].owner in s.memberObjects ==>
                            s.transportObjects[t].source.Some?
                                || s.memberObjects[s.transportObjects[t].owner].space != space
    case _ => true
  }

  ghost predicate OrderlyRun(s: Coordinator, steps: seq<Step>, space: string)
    requires Inv(s)
    decreases |steps|
  {
    steps != [] && Possible(s, steps[0]) ==>
      Orderly(s, steps[0], space) && (StepKeepsInv(s, steps[0]); OrderlyRun(Do(s, steps[0]), steps[1..], space))
  }

  /** Everybody who joined is there; a member is due until its loop runs, and its loop meets those who came before
      it. */
  ghost predicate InOrder(s: Coordinator, done: seq<Step>, space: string) {
    space in s.spaces && space in s.routerOf ==>
      && s.routerOf[space] in s.routers
      && (forall m :: m in s.memberObjects && s.memberObjects[m].space == space ==> m in s.spaces[space])
      && (forall m :: m in s.spaces[space] ==> (Due(s, m) <==> !Looped(done, m)))
      && (forall x, y :: x in s.spaces[space] && y in s.spaces[space] && x < y ==> OrderOk(done, x, y))
  }

  ghost predicate OrderOk(done: seq<Step>, x: int, y: int) {
    !LoopSaw(done, x, y) && Looped(done, x) && (LoopSaw(done, y, x) <==> Looped(done, y))
  }

  lemma {:induction false} OrderAfterOther(done: seq<Step>, step: Step, x: int, y: int)
    requires OrderOk(done, x, y) && !Loops(step, x) && !Loops(step, y)
    ensures OrderOk(done + [step], x, y)
  {
    SawOneMore(done, step, x, y);
    SawOneMore(done, step, y, x);
  }

  /** A step that neither joins the space nor loops for one of its members. */
  lemma {:induction false} OrderKept(s: Coordinator, s': Coordinator, done: seq<Step>, step: Step, space: string)
    requires InOrder(s, done, space) && space in s.spaces && space in s'.spaces && space in s.routerOf
             && space in s'.routerOf
    requires s'.spaces[space] == s.spaces[space] && s'.routerOf[space] == s.routerOf[space]
             && s'.routerOf[space] in s'.routers
    requires forall m :: m in s'.memberObjects && s'.memberObjects[m].space == space ==>
               m in s.memberObjects && s.memberObjects[m].space == space
    requires forall m :: m in s.spaces[space] ==> !Loops(step, m) && (Due(s', m) <==> Due(s, m))
    ensures InOrder(s', done + [step], space)
  {
    forall m | m in s'.spaces[space] ensures Due(s', m) <==> !Looped(done + [step], m) { SawOneMore(done, step, m, m); }
    forall x, y | x in s'.spaces[space] && y in s'.spaces[space] && x < y ensures OrderOk(done + [step], x, y) {
      OrderAfterOther(done, step, x, y);
    }
  }

  lemma {:induction false} OrderAfterOpening(s: Coordinator, done: seq<Step>, k: string, router: int, space: string)
    requires History(s, done) && InOrder(s, done, space) && Possible(s, OpenSpace(k, router))
    ensures InOrder(SpaceOpened(s, k, router), done + [OpenSpace(k, router)], space)
  {
    if k == space {
      forall m | m in s.memberObjects ensures s.memberObjects[m].space != space { assert MemberOk(s, m); }
    } else if space in s.spaces {
      OrderKept(s, SpaceOpened(s, k, router), done, OpenSpace(k, router), space);
    }
  }

  lemma {:induction false} OldMembersStayAsDue(s: Coordinator, k: string, m: int)
    requires Inv(s) && k in s.spaces && m in s.memberObjects
    ensures Due(Joined(s, k), m) <==> Due(s, m)
  {
    IdsAreNew(s);
    assert MemberOk(s, m);
  }

  lemma {:induction false} OrderAfterJoiningElsewhere(s: Coordinator, done: seq<Step>, k: string, space: string)
    requires History(s, done) && InOrder(s, done, space) && k in s.spaces && k != space && space in s.spaces
    ensures InOrder(Joined(s, k), done + [Join(k)], space)
  {
    IdsAreNew(s);
    forall m | m in s.spaces[space] ensures Due(Joined(s, k), m) <==> Due(s, m) { OldMembersStayAsDue(s, k, m); }
    OrderKept(s, Joined(s, k), done, Join(k), space);
  }

  lemma {:induction false} OrderAfterJoining(s: Coordinator, done: seq<Step>, space: string)
    requires History(s, done) && InOrder(s, done, space) && space in s.spaces && Orderly(s, Join(space), space)
    ensures InOrder(Joined(s, space), done + [Join(space)], space)
  {
    var s', step, z := Joined(s, space), Join(space), s.nextMember;
    IdsAreNew(s);
    forall m | m in s'.spaces[space] ensures Due(s', m) <==> !Looped(done + [step], m) {
      SawOneMore(done, step, m, m);
      if m != z { OldMembersStayAsDue(s, space, m); }
    }
    forall x, y | x in s'.spaces[space] && y in s'.spaces[space] && x < y ensures OrderOk(done + [step], x, y) {
      SawOneMore(done, step, x, y);
      SawOneMore(done, step, y, x);
      NewestIsLast(s, space, x);
      if y != z { assert OrderOk(done, x, y); }
    }
  }

  lemma {:induction false} NewestIsLast(s: Coordinator, space: string, x: int)
    requires Inv(s) && space in s.spaces && (x in s.spaces[space] || x == s.nextMember)
    ensures x == s.nextMember || x < s.nextMember
  {
    if x in s.spaces[space] { assert MemberOk(s, x); }
  }

  lemma {:induction false} DueAfterAnswer(s: Coordinator, t: int, ok: bool, space: string, m: int)
    requires Inv(s) && t in s.requested && Orderly(s, Answer(t, ok), space)
    requires m in s.memberObjects && s.memberObjects[m].space == space
    ensures Due(Do(s, Answer(t, ok)), m) <==> Due(s, m)
  {
    assert TransportOk(s, t) && MemberOk(s, m);
  }

  lemma {:induction false} OrderAfterAnswer(s: Coordinator, done: seq<Step>, t: int, ok: bool, space: string)
    requires History(s, done) && InOrder(s, done, space) && t in s.requested && Orderly(s, Answer(t, ok), space)
             && space in s.spaces
    ensures InOrder(Do(s, Answer(t, ok)), done + [Answer(t, ok)], space)
  {
    AnswerKeepsInv(s, t, ok);
    assert TransportOk(s, t);
    forall m | m in s.spaces[space]
      ensures Due(Do(s, Answer(t, ok)), m) <==> Due(s, m)
    {
      DueAfterAnswer(s, t, ok, space, m);
    }
    OrderKept(s, Do(s, Answer(t, ok)), done, Answer(t, ok), space);
  }

  lemma {:induction false} DueAfterLoop(s: Coordinator, member: int, others: seq<int>, m: int)
    requires Inv(s) && WithinSpaces(s) && Possible(s, MeshLoop(member, others)) && m in s.memberObjects
    ensures Due(Do(s, MeshLoop(member, others)), m) <==> Due(s, m) && m != member
  {
    LoopFrame(s, member, others);
    if m == member || !Due(s, m) { StillNotDue(s, member, others, m); }
  }

  lemma {:induction false} OrderAfterLoop(s: Coordinator, done: seq<Step>, member: int, others: seq<int>, space: string)
    requires History(s, done) && InOrder(s, done, space) && Possible(s, MeshLoop(member, others)) && space in s.spaces
    ensures InOrder(Do(s, MeshLoop(member, others)), done + [MeshLoop(member, others)], space)
  {
    var s', step := Do(s, MeshLoop(member, others)), MeshLoop(member, others);
    LoopFrame(s, member, others);
    forall m | m in s.spaces[space]
      ensures Due(s', m) <==> Due(s, m) && m != member
    {
      DueAfterLoop(s, member, others, m);
    }
    if s.memberObjects[member].space != space {
      OrderKept(s, s', done, step, space);
    } else {
      assert Due(s, member);
      forall m | m in s'.spaces[space]
        ensures Due(s', m) <==> !Looped(done + [step], m)
      {
        SawOneMore(done, step, m, m);
      }
      forall x, y | x in s'.spaces[space] && y in s'.spaces[space] && x < y ensures OrderOk(done + [step], x, y) {
        assert OrderOk(done, x, y);
        SawOneMore(done, step, x, y);
        SawOneMore(done, step, y, x);
      }
    }
  }

  lemma {:induction false} StepKeepsOrder(s: Coordinator, done: seq<Step>, step: Step, space: string)
    requires History(s, done) && InOrder(s, done, space) && Possible(s, step) && Orderly(s, step, space)
    ensures InOrder(Do(s, step), done + [step], space)
  {
    if step.OpenSpace? {
      OrderAfterOpening(s, done, step.space, step.router, space);
    } else if space in s.spaces {
      match step
      case Join(k) =>
        if k == space {
          OrderAfterJoining(s, done, space);
        } else {
          OrderAfterJoiningElsewhere(s, done, k, space);
        }
      case Answer(t, ok) => OrderAfterAnswer(s, done, t, ok, space);
      case MeshLoop(member, others) => OrderAfterLoop(s, done, member, others, space);
      case _ => OrderAfterTheRest(s, done, step, space);
    } else {
      NoSpaceYet(s, step, space);
    }
  }

  lemma {:induction false} OrderAfterTheRest(s: Coordinator, done: seq<Step>, step: Step, space: string)
    requires History(s, done) && InOrder(s, done, space) && Possible(s, step) && Orderly(s, step, space)
             && space in s.spaces
    requires step.Leave? || step.RemoveRouter? || step.Connect?
    ensures InOrder(Do(s, step), done + [step], space)
  {
    StepKeepsInv(s, step);
    if step.Leave? { assert MemberOk(s, step.member); }
    OrderKept(s, Do(s, step), done, step, space);
  }

  lemma {:induction false} NoSpaceYet(s: Coordinator, step: Step, space: string)
    requires Inv(s) && WithinSpaces(s) && Possible(s, step) && !step.OpenSpace? && space !in s.spaces
    ensures space !in Do(s, step).spaces
  {
    match step
    case MeshLoop(member, others) => LoopFrame(s, member, others);
    case Answer(t, _) => assert TransportOk(s, t);
    case Leave(m) => assert MemberOk(s, m);
    case _ =>
  }

  lemma {:induction false} RunKeepsOrder(s: Coordinator, done: seq<Step>, steps: seq<Step>, space: string)
    requires History(s, done) && InOrder(s, done, space) && RunFrom(s, steps).Some? && OrderlyRun(s, steps, space)
    ensures InOrder(RunFrom(s, steps).value, done + steps, space)
    decreases |steps|
  {
    if steps == [] {
      assert done + steps == done;
    } else {
      StepKeepsHistory(s, done, steps[0]);
      StepKeepsOrder(s, done, steps[0], space);
      OneFurther(done, steps);
      RunKeepsOrder(Do(s, steps[0]), done + [steps[0]], steps[1..], space);
    }
  }
}
