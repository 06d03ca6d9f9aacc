/** Every run of joins, leaves, transport answers and mesh loops, in any interleaving: the mesh gets covered, the store
    and the spaces agree, a transport record always belongs to its router, and statuses only move forward. */
module MeshRuns {
  import opened Common
  import opened Mesh

  /** Objects are kept, keep what identifies them, and a transport that was allocated stays so. */
  ghost predicate ObjectsGrow(s: Coordinator, s': Coordinator) {
    && (forall t :: t in s.transportObjects ==>
          && t in s'.transportObjects
          && s'.transportObjects[t] == s.transportObjects[t].(status := s'.transportObjects[t].status)
          && (s.transportObjects[t].status != Unallocated ==> s'.transportObjects[t].status != Unallocated))
    && (forall m :: m in s.memberObjects ==>
          && m in s'.memberObjects && s'.memberObjects[m].space == s.memberObjects[m].space
          && s'.memberObjects[m].producer == s.memberObjects[m].producer
          && s.memberObjects[m].consumers.Keys <= s'.memberObjects[m].consumers.Keys)
  }

  lemma {:induction false} LinksStays(s: Coordinator, s': Coordinator, t: int, x: int, y: int)
    requires ObjectsGrow(s, s') && Links(s, t, x, y)
    ensures Links(s', t, x, y)
  {}

  ghost predicate FailuresStay(s: Coordinator, s': Coordinator) {
    forall t :: t in s.nacked && t in s.transportObjects && s.transportObjects[t].status == Unallocated ==>
      t in s'.transportObjects && s'.transportObjects[t].status == Unallocated
  }

  /** A pair stays in order when objects only grow and nothing it waits for is withdrawn. */
  lemma {:induction false} PairOkStays(s: Coordinator, s': Coordinator, x: int, y: int)
    requires ObjectsGrow(s, s') && PairOk(s, x, y)
    requires Covered(s, x, y) ==>
               && x in s'.memberObjects
               && forall k :: k in s'.memberObjects[x].consumers ==>
                  ConsumerOk(s', x, k, s'.memberObjects[x].consumers[k])
    requires s.requested <= s'.requested && s.nacked <= s'.nacked && s.meshDue <= s'.meshDue
    requires FailuresStay(s, s')
    ensures PairOk(s', x, y)
  {
    if Covered(s, x, y) {
      assert Covered(s', x, y);
    } else if Outstanding(s, x, y) {
      var t :| t in s.requested && Links(s, t, x, y);
      LinksStays(s, s', t, x, y);
      assert Outstanding(s', x, y);
    } else if LinkFailed(s, x, y) {
      var t :| t in s.nacked && LinksUnallocated(s, t, x, y);
      LinksStays(s, s', t, x, y);
      assert LinksUnallocated(s', t, x, y);
      assert LinkFailed(s', x, y);
    }
  }

  lemma {:induction false} SameConsumers(s: Coordinator, s': Coordinator, m: int)
    requires m in s.memberObjects && MemberOk(s, m) && ObjectsGrow(s, s')
    requires m in s'.memberObjects && s'.memberObjects[m].consumers == s.memberObjects[m].consumers
    ensures forall y :: y in s'.memberObjects[m].consumers ==> ConsumerOk(s', m, y, s'.memberObjects[m].consumers[y])
  {
    forall y | y in s'.memberObjects[m].consumers ensures ConsumerOk(s', m, y, s'.memberObjects[m].consumers[y]) {
      assert ConsumerOk(s, m, y, s.memberObjects[m].consumers[y]);
      LinksStays(s, s', s.memberObjects[m].consumers[y], m, y);
    }
  }

  /** Pairs stay in order when no pair is new. */
  lemma {:induction false} PairsStay(s: Coordinator, s': Coordinator)
    requires PairsOk(s) && MembersOk(s') && ObjectsGrow(s, s')
    requires s'.members <= s.members && s'.memberObjects.Keys == s.memberObjects.Keys && s'.routers <= s.routers
    requires s'.routerOf == s.routerOf
    requires s.requested <= s'.requested && s.nacked <= s'.nacked && s.meshDue <= s'.meshDue && FailuresStay(s, s')
    ensures PairsOk(s')
  {
    forall x, y | Pair(s', x, y) ensures PairOk(s', x, y) {
      assert Pair(s, x, y);
      assert MemberOk(s', x);
      PairOkStays(s, s', x, y);
    }
  }

  // ----- Opening, joining -----

  lemma {:induction false} InvAfterOpening(s: Coordinator, space: string, router: int)
    requires Inv(s) && Possible(s, OpenSpace(space, router))
    ensures Inv(SpaceOpened(s, space, router)) && ObjectsGrow(s, SpaceOpened(s, space, router))
  {
    IndicesAfterOpening(s, space, router);
    ObjectsAfterOpening(s, space, router);
    PairsAfterOpening(s, space, router);
  }

  lemma {:induction false} IndicesAfterOpening(s: Coordinator, space: string, router: int)
    requires IndicesOk(s) && Possible(s, OpenSpace(space, router))
    ensures IndicesOk(SpaceOpened(s, space, router))
  {}

  lemma {:induction false} ObjectsAfterOpening(s: Coordinator, space: string, router: int)
    requires Inv(s) && Possible(s, OpenSpace(space, router))
    ensures var s' := SpaceOpened(s, space, router); TransportsOk(s') && MembersOk(s') && ObjectsGrow(s, s')
  {
    var s' := SpaceOpened(s, space, router);
    forall t | t in s'.transportObjects ensures TransportOk(s', t) { assert TransportOk(s, t); }
    forall m | m in s'.memberObjects ensures MemberOk(s', m) {
      assert MemberOk(s, m);
      SameConsumers(s, s', m);
    }
  }

  lemma {:induction false} PairsAfterOpening(s: Coordinator, space: string, router: int)
    requires Inv(s) && Possible(s, OpenSpace(space, router)) && MembersOk(SpaceOpened(s, space, router))
    ensures PairsOk(SpaceOpened(s, space, router))
  {
    var s' := SpaceOpened(s, space, router);
    forall x, y | Pair(s', x, y) ensures PairOk(s', x, y) {
      assert MemberOk(s, x) && MemberOk(s', x);
      assert Pair(s, x, y);
      PairOkStays(s, s', x, y);
    }
  }

  lemma {:induction false} IdsAreNew(s: Coordinator)
    requires TransportsOk(s) && MembersOk(s)
    ensures s.nextTransport !in s.transportObjects && s.nextMember !in s.memberObjects
  {
    assert s.nextTransport in s.transportObjects ==> TransportOk(s, s.nextTransport);
    assert s.nextMember in s.memberObjects ==> MemberOk(s, s.nextMember);
  }

  lemma {:induction false} InvAfterJoining(s: Coordinator, space: string)
    requires Inv(s) && space in s.spaces
    ensures Inv(Joined(s, space)) && ObjectsGrow(s, Joined(s, space))
  {
    IdsAreNew(s);
    ObjectsAfterJoining(s, space);
    var s' := Joined(s, space);
    var z := s.nextMember;
    forall x, y | Pair(s', x, y) ensures PairOk(s', x, y) {
      if x == z || y == z {
        assert Due(s', z);
      } else {
        assert Pair(s, x, y);
        assert MemberOk(s', x);
        PairOkStays(s, s', x, y);
      }
    }
    IndicesAfterJoining(s, space);
  }

  lemma {:induction false} IndicesAfterJoining(s: Coordinator, space: string)
    requires Inv(s) && space in s.spaces && s.nextTransport !in s.transportObjects && s.nextMember !in s.memberObjects
    ensures IndicesOk(Joined(s, space))
  {}

  lemma {:induction false} ObjectsAfterJoining(s: Coordinator, space: string)
    requires Inv(s) && space in s.spaces && s.nextTransport !in s.transportObjects && s.nextMember !in s.memberObjects
    ensures TransportsOk(Joined(s, space)) && MembersOk(Joined(s, space)) && ObjectsGrow(s, Joined(s, space))
  {
    JoiningGrows(s, space);
    TransportsAfterJoining(s, space);
    MembersAfterJoining(s, space);
  }

  lemma {:induction false} JoiningGrows(s: Coordinator, space: string)
    requires IndicesOk(s) && space in s.spaces && s.nextTransport !in s.transportObjects
             && s.nextMember !in s.memberObjects
    ensures ObjectsGrow(s, Joined(s, space))
  {}

  lemma {:induction false} TransportsAfterJoining(s: Coordinator, space: string)
    requires Inv(s) && space in s.spaces && s.nextTransport !in s.transportObjects && s.nextMember !in s.memberObjects
    ensures TransportsOk(Joined(s, space))
  {
    var s' := Joined(s, space);
    forall t | t in s'.transportObjects ensures TransportOk(s', t) {
      assert t in s.transportObjects ==> TransportOk(s, t);
    }
  }

  lemma {:induction false} MembersAfterJoining(s: Coordinator, space: string)
    requires Inv(s) && space in s.spaces && s.nextTransport !in s.transportObjects && s.nextMember !in s.memberObjects
    requires ObjectsGrow(s, Joined(s, space))
    ensures MembersOk(Joined(s, space))
  {
    var s' := Joined(s, space);
    forall m | m in s'.memberObjects ensures MemberOk(s', m) {
      if m in s.memberObjects {
        assert MemberOk(s, m);
        SameConsumers(s, s', m);
      }
    }
  }

  // ----- The mesh loop -----

  lemma {:induction false} InvAfterTrying(s: Coordinator, router: int, member: int, source: int)
    requires Inv(s) && router in s.routerObjects && member in s.memberObjects
    requires source in s.transportObjects && s.transportObjects[source].source == None
    requires s.transportObjects[source].router == router
    ensures Inv(TryAllocate(s, router, member, source))
    ensures ObjectsGrow(s, TryAllocate(s, router, member, source))
  {
    if source in s.transports {
      IdsAreNew(s);
      ObjectsAfterTrying(s, router, member, source);
      PairsStay(s, TryAllocate(s, router, member, source));
      IndicesAfterTrying(s, router, member, source);
    }
  }

  lemma {:induction false} IndicesAfterTrying(s: Coordinator, router: int, member: int, source: int)
    requires Inv(s) && router in s.routerObjects && member in s.memberObjects && source in s.transports
    requires s.nextTransport !in s.transportObjects
    ensures IndicesOk(TryAllocate(s, router, member, source))
  {}

  lemma {:induction false} ObjectsAfterTrying(s: Coordinator, router: int, member: int, source: int)
    requires Inv(s) && router in s.routerObjects && member in s.memberObjects && source in s.transports
    requires s.transportObjects[source].source == None && s.transportObjects[source].router == router
    requires s.nextTransport !in s.transportObjects
    ensures var s' := TryAllocate(s, router, member, source); TransportsOk(s') && MembersOk(s') && ObjectsGrow(s, s')
  {
    var s' := TryAllocate(s, router, member, source);
    forall t | t in s'.transportObjects ensures TransportOk(s', t) {
      assert t in s.transportObjects ==> TransportOk(s, t);
    }
    forall m | m in s'.memberObjects ensures MemberOk(s', m) {
      assert MemberOk(s, m);
      SameConsumers(s, s', m);
    }
  }

  /** Trying with a live source requests a transport that links the member to the source's owner. */
  lemma {:induction false} TryingLinks(s: Coordinator, router: int, member: int, source: int, y: int)
    requires Inv(s) && router in s.routerObjects && member in s.memberObjects && source in s.transports
    requires y in s.memberObjects && s.memberObjects[y].producer == Some(source)
    ensures Outstanding(TryAllocate(s, router, member, source), member, y)
  {
    assert Links(TryAllocate(s, router, member, source), s.nextTransport, member, y);
  }

  lemma {:induction false} OutstandingStays(s: Coordinator, s': Coordinator, x: int, y: int)
    requires ObjectsGrow(s, s') && s.requested <= s'.requested && Outstanding(s, x, y)
    ensures Outstanding(s', x, y)
  {
    var t :| t in s.requested && Links(s, t, x, y);
    LinksStays(s, s', t, x, y);
  }

  ghost predicate OnRouter(s: Coordinator, m: int, router: int) {
    && m in s.memberObjects && s.memberObjects[m].producer.Some?
    && var p := s.memberObjects[m].producer.value;
       p in s.transportObjects && s.transportObjects[p].source == None && s.transportObjects[p].router == router
  }

  ghost predicate Only(s: Coordinator, s': Coordinator) {
    && s' == s.(transportObjects := s'.transportObjects, transports := s'.transports, routerObjects := s'.routerObjects,
                nextTransport := s'.nextTransport, requested := s'.requested)
    && s.transports <= s'.transports && s.requested <= s'.requested
  }

  lemma {:induction false} LinkedKeepsInv(s: Coordinator, router: int, member: int, producer: int, other: int)
    requires Inv(s) && router in s.routerObjects && OnRouter(s, member, router) && OnRouter(s, other, router)
    requires s.memberObjects[member].producer == Some(producer)
    ensures var s' := Linked(s, router, member, producer, other);
            && Inv(s') && ObjectsGrow(s, s') && Only(s, s')
            && (other != member && producer in s.transports ==> Outstanding(s', other, member))
            && (other != member && s.memberObjects[other].producer.value in s.transports ==>
                  Outstanding(s', member, other))
  {
    if other != member {
      var q := s.memberObjects[other].producer.value;
      InvAfterTrying(s, router, other, producer);
      var s1 := TryAllocate(s, router, other, producer);
      InvAfterTrying(s1, router, member, q);
      if producer in s.transports {
        TryingLinks(s, router, other, producer, member);
        OutstandingStays(s1, TryAllocate(s1, router, member, q), other, member);
      }
      if q in s.transports { TryingLinks(s1, router, member, q, other); }
    }
  }

  lemma {:induction false} LoopGrows(s: Coordinator, router: int, member: int, producer: int, others: seq<int>)
    requires Inv(s) && router in s.routerObjects && OnRouter(s, member, router)
    requires s.memberObjects[member].producer == Some(producer)
    requires forall i :: 0 <= i < |others| ==> others[i] in s.memberObjects && OnRouter(s, others[i], router)
    ensures var s' := LinkedAll(s, router, member, producer, others);
            Inv(s') && ObjectsGrow(s, s') && Only(s, s')
    decreases |others|
  {
    if others != [] {
      var n := |others| - 1;
      LoopGrows(s, router, member, producer, others[..n]);
      LinkedKeepsInv(LinkedAll(s, router, member, producer, others[..n]), router, member, producer, others[n]);
    }
  }

  /** What the loop owes to one member it visits. */
  ghost predicate LinkedWith(s: Coordinator, s': Coordinator, member: int, producer: int, other: int)
    requires other in s.memberObjects && s.memberObjects[other].producer.Some?
  {
    other != member ==>
      && (producer in s.transports ==> Outstanding(s', other, member))
      && (s.memberObjects[other].producer.value in s.transports ==> Outstanding(s', member, other))
  }

  lemma {:induction false} LinkedWithStays(s: Coordinator, s1: Coordinator, s2: Coordinator, member: int, producer: int,
                                           other: int)
    requires other in s.memberObjects && s.memberObjects[other].producer.Some?
    requires LinkedWith(s, s1, member, producer, other) && ObjectsGrow(s1, s2) && s1.requested <= s2.requested
    ensures LinkedWith(s, s2, member, producer, other)
  {
    if other != member {
      if producer in s.transports { OutstandingStays(s1, s2, other, member); }
      if s.memberObjects[other].producer.value in s.transports { OutstandingStays(s1, s2, member, other); }
    }
  }

  ghost predicate AllLinked(s: Coordinator, s': Coordinator, member: int, producer: int, others: seq<int>) {
    && (forall i :: 0 <= i < |others| ==> others[i] in s.memberObjects && s.memberObjects[others[i]].producer.Some?)
    && (forall i :: 0 <= i < |others| ==> LinkedWith(s, s', member, producer, others[i]))
  }

  lemma {:induction false} AllLinkedOneMore(s: Coordinator, s1: Coordinator, s2: Coordinator, member: int,
                                            producer: int, others: seq<int>)
    requires others != [] && AllLinked(s, s1, member, producer, others[..|others| - 1])
    requires ObjectsGrow(s1, s2) && s1.requested <= s2.requested && s.transports <= s1.transports
             && s1.memberObjects == s.memberObjects
    requires var other := others[|others| - 1];
             other in s.memberObjects && s.memberObjects[other].producer.Some?
                 && LinkedWith(s1, s2, member, producer, other)
    ensures AllLinked(s, s2, member, producer, others)
  {
    var n := |others| - 1;
    forall i | 0 <= i < |others|
      ensures others[i] in s.memberObjects && s.memberObjects[others[i]].producer.Some?
              && LinkedWith(s, s2, member, producer, others[i])
    {
      if i < n {
        assert others[..n][i] == others[i];
        LinkedWithStays(s, s1, s2, member, producer, others[i]);
      }
    }
  }

  lemma {:induction false} LoopLinks(s: Coordinator, router: int, member: int, producer: int, others: seq<int>)
    requires Inv(s) && router in s.routerObjects && OnRouter(s, member, router)
    requires s.memberObjects[member].producer == Some(producer)
    requires forall i :: 0 <= i < |others| ==> others[i] in s.memberObjects && OnRouter(s, others[i], router)
    ensures AllLinked(s, LinkedAll(s, router, member, producer, others), member, producer, others)
    decreases |others|
  {
    if others != [] {
      var n := |others| - 1;
      var s1 := LinkedAll(s, router, member, producer, others[..n]);
      LoopLinks(s, router, member, producer, others[..n]);
      LoopGrows(s, router, member, producer, others[..n]);
      LinkedKeepsInv(s1, router, member, producer, others[n]);
      assert s1.memberObjects == s.memberObjects;
      AllLinkedOneMore(s, s1, Linked(s1, router, member, producer, others[n]), member, producer, others);
    }
  }

  lemma {:induction false} InvAfterMeshing(s: Coordinator, member: int, others: seq<int>)
    requires Inv(s) && Possible(s, MeshLoop(member, others))
    ensures MemberOk(s, member) && TransportOk(s, s.memberObjects[member].producer.value)
    ensures forall i :: 0 <= i < |others| ==> others[i] in s.memberObjects
    ensures Inv(Meshed(s, member, others)) && ObjectsGrow(s, Meshed(s, member, others))
  {
    assert MemberOk(s, member);
    var p := s.memberObjects[member].producer.value;
    assert TransportOk(s, p);
    var router := s.transportObjects[p].router;
    OthersOnRouter(s, member, others);
    LoopGrows(s, router, member, p, others);
    LoopLinks(s, router, member, p, others);
    var s1 := LinkedAll(s, router, member, p, others);
    assert Meshed(s, member, others) == s1.(meshDue := s1.meshDue - {member});
    LoopDone(s1, member);
    PairsAfterLoop(s, s1, member, others);
  }

  lemma {:induction false} OthersOnRouter(s: Coordinator, member: int, others: seq<int>)
    requires Inv(s) && Possible(s, MeshLoop(member, others)) && MemberOk(s, member)
    ensures forall i :: 0 <= i < |others| ==>
            OnRouter(s, others[i], s.transportObjects[s.memberObjects[member].producer.value].router)
  {
    forall i | 0 <= i < |others|
      ensures OnRouter(s, others[i], s.transportObjects[s.memberObjects[member].producer.value].router)
    {
      assert MemberOk(s, others[i]);
    }
  }

  /** Striking a member off the ones due leaves transports and members as they are. */
  lemma {:induction false} LoopDone(s: Coordinator, member: int)
    requires Inv(s)
    ensures var s' := s.(meshDue := s.meshDue - {member});
            IndicesOk(s') && TransportsOk(s') && MembersOk(s') && ObjectsGrow(s, s')
  {
    var s' := s.(meshDue := s.meshDue - {member});
    forall t | t in s'.transportObjects ensures TransportOk(s', t) { assert TransportOk(s, t); }
    forall m | m in s'.memberObjects ensures MemberOk(s', m) {
      assert MemberOk(s, m);
      SameConsumers(s, s', m);
    }
  }

  lemma {:induction false} PairsAfterLoop(s: Coordinator, s1: Coordinator, member: int, others: seq<int>)
    requires Inv(s) && Possible(s, MeshLoop(member, others)) && MembersOk(s1) && PairsOk(s1) && Only(s, s1)
    requires s.memberObjects[member].producer.Some?
    requires AllLinked(s, s1, member, s.memberObjects[member].producer.value, others)
    ensures PairsOk(s1.(meshDue := s1.meshDue - {member}))
  {
    var s' := s1.(meshDue := s1.meshDue - {member});
    forall x, y | Pair(s', x, y) ensures PairOk(s', x, y) {
      assert Pair(s1, x, y) && Pair(s, x, y) && PairOk(s1, x, y);
      if x == member || y == member {
        LoopMetPair(s, s1, member, others, x, y);
        var t :| t in s1.requested && Links(s1, t, x, y);
        assert Links(s', t, x, y);
      } else {
        PairOkWithout(s1, s', member, x, y);
      }
    }
  }

  lemma {:induction false} LoopMetPair(s: Coordinator, s1: Coordinator, member: int, others: seq<int>, x: int, y: int)
    requires Inv(s) && Possible(s, MeshLoop(member, others)) && Pair(s, x, y) && (x == member || y == member)
    requires s.memberObjects[member].producer.Some?
    requires AllLinked(s, s1, member, s.memberObjects[member].producer.value, others)
    ensures Outstanding(s1, x, y)
  {
    var other := if x == member then y else x;
    assert MemberOk(s, member) && MemberOk(s, other);
    assert TransportOk(s, s.memberObjects[other].producer.value)
        && TransportOk(s, s.memberObjects[member].producer.value);
    var i: nat :| i < |others| && others[i] == other;
    assert LinkedWith(s, s1, member, s.memberObjects[member].producer.value, others[i]);
  }

  lemma {:induction false} PairOkWithout(s: Coordinator, s': Coordinator, member: int, x: int, y: int)
    requires PairOk(s, x, y) && x != member && y != member && s' == s.(meshDue := s.meshDue - {member})
    ensures PairOk(s', x, y)
  {
    if Outstanding(s, x, y) {
      var t :| t in s.requested && Links(s, t, x, y);
      assert Links(s', t, x, y);
    } else if LinkFailed(s, x, y) {
      var t :| t in s.nacked && LinksUnallocated(s, t, x, y);
      assert LinksUnallocated(s', t, x, y);
    } else if Covered(s, x, y) {
      assert Covered(s', x, y);
    }
  }

  // ----- Answers -----

  /** What a request's answer must find: a request is for an allocated-later transport whose own record still stands
      whenever its source's does. */
  lemma {:induction false} InvAfterAck(s: Coordinator, t: int)
    requires Inv(s) && t in s.requested
    ensures TransportOk(s, t)
    ensures Inv(Acked(s, t)) && ObjectsGrow(s, Acked(s, t))
  {
    assert TransportOk(s, t);
    AckGrows(s, t);
    IndicesAfterAck(s, t);
    MembersAfterAck(s, t);
    var s' := Acked(s, t);
    forall k | k in s'.transportObjects ensures TransportOk(s', k) { assert TransportOk(s, k); }
    forall x, y | Pair(s', x, y) ensures PairOk(s', x, y) {
      assert Pair(s, x, y);
      PairAfterAck(s, t, x, y);
    }
  }

  lemma {:induction false} AckGrows(s: Coordinator, t: int)
    requires t in s.transportObjects && TransportOk(s, t)
    ensures ObjectsGrow(s, Acked(s, t))
  {
    match s.transportObjects[t].source
    case None =>
    case Some(source) => if source in s.transports { StoredGrows(s, t, source); }
  }

  lemma {:induction false} StoredGrows(s: Coordinator, t: int, source: int)
    requires t in s.transportObjects && TransportOk(s, t) && s.transportObjects[t].source == Some(source)
             && source in s.transports
    ensures ObjectsGrow(s, Acked(s, t))
  {
    var owner := s.transportObjects[t].owner;
    assert Acked(s, t).memberObjects
           == s.memberObjects[owner :=
               s.memberObjects[owner].(consumers := Acked(s, t).memberObjects[owner].consumers)];
  }

  lemma {:induction false} IndicesAfterAck(s: Coordinator, t: int)
    requires Inv(s) && t in s.requested && TransportOk(s, t)
    ensures IndicesOk(Acked(s, t))
  {}

  lemma {:induction false} MembersAfterAck(s: Coordinator, t: int)
    requires Inv(s) && t in s.requested && TransportOk(s, t)
    ensures MembersOk(Acked(s, t))
  {
    var s' := Acked(s, t);
    AckGrows(s, t);
    forall m | m in s'.memberObjects ensures MemberOk(s', m) {
      assert MemberOk(s, m);
      ConsumersAfterAck(s, t, m);
    }
  }

  lemma {:induction false} ConsumersAfterAck(s: Coordinator, t: int, m: int)
    requires Inv(s) && t in s.requested && TransportOk(s, t) && m in s.memberObjects && MemberOk(s, m)
    ensures var s' := Acked(s, t);
            forall y :: y in s'.memberObjects[m].consumers ==> ConsumerOk(s', m, y, s'.memberObjects[m].consumers[y])
  {
    var s' := Acked(s, t);
    AckGrows(s, t);
    forall y | y in s'.memberObjects[m].consumers ensures ConsumerOk(s', m, y, s'.memberObjects[m].consumers[y]) {
      var k := s'.memberObjects[m].consumers[y];
      if y !in s.memberObjects[m].consumers || k != s.memberObjects[m].consumers[y] {
        var source := s.transportObjects[t].source.value;
        assert TransportOk(s, source);
        assert Links(s', t, m, y);
      } else {
        assert ConsumerOk(s, m, y, k);
        LinksStays(s, s', k, m, y);
      }
    }
  }

  lemma {:induction false} PairAfterAck(s: Coordinator, t: int, x: int, y: int)
    requires Inv(s) && t in s.requested && TransportOk(s, t) && Pair(s, x, y) && MembersOk(Acked(s, t))
    ensures PairOk(Acked(s, t), x, y)
  {
    var s' := Acked(s, t);
    AckGrows(s, t);
    assert MemberOk(s, x) && MemberOk(s, y) && MemberOk(s', x) && PairOk(s, x, y);
    if Covered(s, x, y) {
      assert Covered(s', x, y);
    } else if Outstanding(s, x, y) {
      var k :| k in s.requested && Links(s, k, x, y);
      if k == t {
        assert TransportOk(s, s.memberObjects[y].producer.value);
        assert Covered(s', x, y);
      } else {
        assert Links(s', k, x, y);
      }
    } else if Due(s, x) {
      assert Due(s', x);
    } else if Due(s, y) {
      assert Due(s', y);
    } else if LinkFailed(s, x, y) {
      var k :| k in s.nacked && LinksUnallocated(s, k, x, y);
      assert LinksUnallocated(s', k, x, y);
    }
  }

  lemma {:induction false} InvAfterNack(s: Coordinator, t: int)
    requires Inv(s) && t in s.requested
    ensures Inv(Nacked(s, t)) && ObjectsGrow(s, Nacked(s, t))
  {
    var s' := Nacked(s, t);
    forall k | k in s'.transportObjects ensures TransportOk(s', k) { assert TransportOk(s, k); }
    forall m | m in s'.memberObjects ensures MemberOk(s', m) {
      assert MemberOk(s, m);
      SameConsumers(s, s', m);
    }
    forall x, y | Pair(s', x, y) ensures PairOk(s', x, y) {
      assert Pair(s, x, y) && MemberOk(s', x);
      PairAfterNack(s, t, x, y);
    }
  }

  lemma {:induction false} PairAfterNack(s: Coordinator, t: int, x: int, y: int)
    requires PairOk(s, x, y) && t in s.requested && IndicesOk(s)
    ensures PairOk(Nacked(s, t), x, y)
  {
    var s' := Nacked(s, t);
    if Covered(s, x, y) {
      assert Covered(s', x, y);
    } else if Outstanding(s, x, y) {
      var k :| k in s.requested && Links(s, k, x, y);
      assert Links(s', k, x, y);
      assert k == t ==> LinksUnallocated(s', k, x, y);
    } else if LinkFailed(s, x, y) {
      var k :| k in s.nacked && LinksUnallocated(s, k, x, y);
      assert LinksUnallocated(s', k, x, y);
    }
  }

  // ----- Leaving, removing a router, connecting -----

  lemma {:induction false} InvAfterLeaving(s: Coordinator, member: int)
    requires Inv(s) && member in s.members
    ensures member in s.memberObjects && s.memberObjects[member].space in s.spaces
    ensures Inv(Left(s, member)) && ObjectsGrow(s, Left(s, member))
  {
    assert MemberOk(s, member);
    TransportsAfterLeaving(s, member);
    MembersAfterLeaving(s, member);
    PairsStay(s, Left(s, member));
  }

  lemma {:induction false} TransportsAfterLeaving(s: Coordinator, member: int)
    requires Inv(s) && member in s.members && MemberOk(s, member)
    ensures TransportsOk(Left(s, member)) && ObjectsGrow(s, Left(s, member))
  {
    var s' := Left(s, member);
    forall k | k in s'.transportObjects ensures TransportOk(s', k) {
      assert TransportOk(s, k);
      if k in s.transports { OnlyOwnRecordsGo(s, member, k); }
    }
  }

  lemma {:induction false} MembersAfterLeaving(s: Coordinator, member: int)
    requires Inv(s) && member in s.members && MemberOk(s, member) && ObjectsGrow(s, Left(s, member))
    ensures MembersOk(Left(s, member)) && IndicesOk(Left(s, member))
  {
    var s' := Left(s, member);
    forall m | m in s'.memberObjects ensures MemberOk(s', m) {
      assert MemberOk(s, m);
      SameConsumers(s, s', m);
    }
  }

  /** Leaving removes records of the member's own transports only, and no consumer whose request is pending. */
  lemma {:induction false} OnlyOwnRecordsGo(s: Coordinator, member: int, t: int)
    requires member in s.memberObjects && MemberOk(s, member) && t in s.transports && t in s.transportObjects
    requires s.memberObjects[member].space in s.spaces
    ensures t !in Left(s, member).transports ==>
              && s.transportObjects[t].owner == member
              && (s.transportObjects[t].source.Some? ==> s.transportObjects[t].status != Unallocated)
  {
    var consumers := s.memberObjects[member].consumers;
    forall y | y in consumers
      ensures && consumers[y] in s.transportObjects && s.transportObjects[consumers[y]].owner == member
              && s.transportObjects[consumers[y]].status != Unallocated
    {
      assert ConsumerOk(s, member, y, consumers[y]);
    }
  }

  lemma {:induction false} InvAfterRouterRemoval(s: Coordinator, router: int)
    requires Inv(s) && router in s.routerObjects
    ensures Inv(RouterRemoved(s, router)) && ObjectsGrow(s, RouterRemoved(s, router))
  {
    var s' := RouterRemoved(s, router);
    TransportsAfterRouterRemoval(s, router);
    forall m | m in s'.memberObjects ensures MemberOk(s', m) {
      assert MemberOk(s, m);
      SameConsumers(s, s', m);
    }
    PairsStay(s, s');
  }

  lemma {:induction false} TransportsAfterRouterRemoval(s: Coordinator, router: int)
    requires Inv(s) && router in s.routerObjects
    ensures TransportsOk(RouterRemoved(s, router)) && ObjectsGrow(s, RouterRemoved(s, router))
  {
    var s' := RouterRemoved(s, router);
    forall k | k in s'.transportObjects ensures TransportOk(s', k) {
      assert TransportOk(s, k);
      var source := s.transportObjects[k].source;
      if source.Some? { assert TransportOk(s, source.value); }
    }
  }

  lemma {:induction false} InvAfterConnecting(s: Coordinator, t: int)
    requires Inv(s) && t in s.transportObjects && s.transportObjects[t].status != Unallocated
    ensures Inv(WithStatus(s, t, Connected)) && ObjectsGrow(s, WithStatus(s, t, Connected))
  {
    IndicesAfterConnecting(s, t);
    ObjectsAfterConnecting(s, t);
    PairsStay(s, WithStatus(s, t, Connected));
  }

  lemma {:induction false} IndicesAfterConnecting(s: Coordinator, t: int)
    requires IndicesOk(s) && t in s.transportObjects && s.transportObjects[t].status != Unallocated
    ensures IndicesOk(WithStatus(s, t, Connected))
  {}

  lemma {:induction false} ObjectsAfterConnecting(s: Coordinator, t: int)
    requires TransportsOk(s) && MembersOk(s) && t in s.transportObjects && s.transportObjects[t].status != Unallocated
    ensures var s' := WithStatus(s, t, Connected);
            TransportsOk(s') && MembersOk(s') && ObjectsGrow(s, s') && FailuresStay(s, s')
  {
    var s' := WithStatus(s, t, Connected);
    forall k | k in s'.transportObjects ensures TransportOk(s', k) { assert TransportOk(s, k); }
    forall m | m in s'.memberObjects ensures MemberOk(s', m) {
      assert MemberOk(s, m);
      SameConsumers(s, s', m);
    }
  }
}
