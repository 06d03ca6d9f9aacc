/** The member service as the source writes it: a class whose methods update its maps and the shared records in place,
    through the two allocators, with the mesh loop as a loop.

    `View` is the state of `Mesh`; every method says what it does to it. */
module MemberServices {
  import opened Common
  import opened Mesh
  import MeshResults
  import RoundRobin
  import opened RouterAllocators
  import opened TransportAllocators

  class MemberService {
    const records: Records
    const transportAllocator: TransportAllocator
    const routerAllocator: RouterAllocator
    var members: set<int>
    var spaces: map<string, set<int>>  // of the space service: the members of each space
    var primaryRouter: map<string, int>
    var nextId: nat                    // the id generator, inside its window
    var meshDue: set<int>              // promise continuations not run yet

    constructor ()
      ensures Valid() && View() == Empty()
      ensures fresh(records) && fresh(transportAllocator) && fresh(routerAllocator)
    {
      var r := new Records();
      var t := new TransportAllocator(r);
      var strategy := new RoundRobin.RoundRobinStrategy();
      var a := new RouterAllocator(r, t, strategy);
      records, transportAllocator, routerAllocator := r, t, a;
      members, spaces, primaryRouter, nextId, meshDue := {}, map[], map[], 0, {};
    }

    ghost function View(): Coordinator
      reads this, records, transportAllocator, routerAllocator
    {
      Coordinator(records.transports, transportAllocator.transports, records.routers, routerAllocator.routers,
                  records.members, members, spaces, primaryRouter, transportAllocator.nextId, nextId,
                  transportAllocator.requested, meshDue, transportAllocator.nacked)
    }

    ghost predicate Wired() {
      && transportAllocator.records == records && routerAllocator.records == records
      && routerAllocator.transportAllocator == transportAllocator
    }

    ghost predicate Valid()
      reads this, records, transportAllocator, routerAllocator
    {
      Wired() && Inv(View())
    }

    /** A space gets its primary router. */
    method OnRouterAllocated(space: string, router: int)
      requires Valid() && Possible(View(), OpenSpace(space, router))
      modifies this, records, routerAllocator
      ensures Valid() && View() == MeshResults.Do(old(View()), OpenSpace(space, router))
    {
      MeshResults.StepKeepsInv(View(), OpenSpace(space, router));
      spaces, primaryRouter := spaces[space := {}], primaryRouter[space := router];
      records.routers := records.routers[router := {}];
      routerAllocator.routers := routerAllocator.routers + {router};
      assert View() == SpaceOpened(old(View()), space, router);
    }

    /** `add`. */
    method Add(space: string) returns (id: int)
      requires space in spaces
      modifies this`members, this`spaces, this`nextId, records`members
      ensures id == old(nextId) && nextId == id + 1 && members == old(members) + {id}
      ensures spaces == old(spaces)[space := old(spaces)[space] + {id}]
      ensures records.members == old(records.members)[id := Member(space, None, map[])]
    {
      id := nextId;
      nextId := nextId + 1;
      records.members := records.members[id := Member(space, None, map[])];
      members := members + {id};
      spaces := spaces[space := spaces[space] + {id}];
    }

    /** `onAddMemberRequest` once the space has its router: the member is acknowledged while its producer transport is
        still requested. */
    method OnAddMember(space: string) returns (id: int)
      requires Valid() && space in spaces
      modifies this, records, transportAllocator
      ensures Valid() && View() == MeshResults.Do(old(View()), Join(space)) && id == old(nextId)
    {
      MeshResults.StepKeepsInv(View(), Join(space));
      id := Add(space);
      var _, _ := transportAllocator.Allocate(primaryRouter[space], id, None);
      assert View() == Joined(old(View()), space);
    }

    /** A consumer allocation of the mesh loop, whose rejection is only logged. */
    method AllocateConsumer(router: int, member: int, source: int)
      requires Wired() && router in records.routers && member in records.members
      modifies records, transportAllocator
      ensures View() == TryAllocate(old(View()), router, member, source)
    {
      var _, _ := transportAllocator.Allocate(router, member, Some(source));
    }

    /** The mesh loop: every other member consumes from the new one, and the new one from every other. */
    method ConnectAll(router: int, member: int, producer: int, everyone: set<int>) returns (ghost others: seq<int>)
      requires Wired() && router in records.routers && member in records.members && everyone <= records.members.Keys
      modifies records, transportAllocator
      ensures Enumerates(others, everyone)
      ensures View() == LinkedAll(old(View()), router, member, producer, others)
    {
      ghost var before := View();
      var rest := everyone;
      others := [];
      while rest != {}
        invariant rest <= everyone && Enumerates(others, everyone - rest)
        invariant records.members == old(records.members) && records.routers.Keys == old(records.routers).Keys
        invariant View() == LinkedAll(before, router, member, producer, others)
      {
        var other := Pick(rest);
        ghost var seen := everyone - rest;
        rest := rest - {other};
        assert everyone - rest - {other} == seen;
        others := Extended(before, router, member, producer, others, other, everyone - rest);
        if other != member {
          AllocateConsumer(router, other, producer);
          if records.members[other].producer.Some? {
            AllocateConsumer(router, member, records.members[other].producer.value);
          }
        }
      }
      assert everyone - rest == everyone;
    }

    /** The continuation of `onAddMemberRequest` after the producer transport resolved. */
    method OnProducerAllocated(member: int) returns (ghost others: seq<int>)
      requires Valid() && member in meshDue
      modifies this, records, transportAllocator
      ensures Possible(old(View()), MeshLoop(member, others))
      ensures Valid() && View() == MeshResults.Do(old(View()), MeshLoop(member, others))
    {
      ghost var before := View();
      assert MemberOk(before, member);
      var producer := records.members[member].producer.value;
      assert TransportOk(before, producer);
      others := ConnectAll(records.transports[producer].router, member, producer,
          spaces[records.members[member].space]);
      meshDue := meshDue - {member};
      assert View() == Meshed(before, member, others);
      MeshResults.StepKeepsInv(before, MeshLoop(member, others));
    }

    static lemma {:induction false} LoopOnce(s: Coordinator, router: int, member: int, producer: int, others: seq<int>,
                                             other: int)
      requires router in s.routerObjects && member in s.memberObjects && other in s.memberObjects
      requires forall i :: 0 <= i < |others| ==> others[i] in s.memberObjects
      ensures LinkedAll(s, router, member, producer, others + [other])
              == Linked(LinkedAll(s, router, member, producer, others), router, member, producer, other)
    {
      assert (others + [other])[..|others|] == others;
    }

    ghost method Extended(s: Coordinator, router: int, member: int, producer: int, others: seq<int>, other: int,
                          now: set<int>)
      returns (longer: seq<int>)
      requires router in s.routerObjects && member in s.memberObjects && other in s.memberObjects
      requires forall i :: 0 <= i < |others| ==> others[i] in s.memberObjects
      requires other in now && Enumerates(others, now - {other})
      ensures longer == others + [other] && Enumerates(longer, now)
      ensures forall i :: 0 <= i < |longer| ==> longer[i] in s.memberObjects
      ensures LinkedAll(s, router, member, producer, longer)
              == Linked(LinkedAll(s, router, member, producer, others), router, member, producer, other)
    {
      longer := others + [other];
      LoopOnce(s, router, member, producer, others, other);
    }

    /** The worker acknowledges the request for `t`; not `stored` when reading the vanished source throws. */
    method OnTransportAck(t: int) returns (stored: bool)
      requires Valid() && t in transportAllocator.requested
      modifies this, records, transportAllocator
      ensures Valid() && View() == MeshResults.Do(old(View()), Answer(t, true))
      ensures stored == (old(records.transports)[t].source.Some? ==>
                           old(records.transports)[t].source.value in old(transportAllocator.transports))
    {
      ghost var before := View();
      assert TransportOk(before, t);
      MeshResults.StepKeepsInv(before, Answer(t, true));
      var transport := records.transports[t];
      records.transports := records.transports[t := transport.(status := Allocated)];
      transportAllocator.requested := transportAllocator.requested - {t};
      stored := true;
      match transport.source {
        case None => meshDue := meshDue + {transport.owner};
        case Some(source) =>
          if source in transportAllocator.transports {
            var consumers := records.members[transport.owner].consumers[records.transports[source].owner := t];
            records.members :=
                records.members[transport.owner := records.members[transport.owner].(consumers := consumers)];
          } else {
            transportAllocator.nacked := transportAllocator.nacked + {t};
            stored := false;
          }
      }
      assert View() == Acked(before, t);
    }

    method OnTransportNack(t: int)
      requires Valid() && t in transportAllocator.requested
      modifies transportAllocator
      ensures Valid() && View() == MeshResults.Do(old(View()), Answer(t, false))
    {
      MeshResults.StepKeepsInv(View(), Answer(t, false));
      transportAllocator.requested, transportAllocator.nacked :=
          transportAllocator.requested - {t}, transportAllocator.nacked + {t};
      assert View() == Nacked(old(View()), t);
    }

    /** `remove`. */
    method Remove(id: int)
      requires id in members ==> id in records.members && records.members[id].space in spaces
      modifies this`members, this`spaces
      ensures members == old(members) - {id}
      ensures spaces == if id !in old(members) then old(spaces)
                        else old(spaces)[records.members[id].space := old(spaces)[records.members[id].space] - {id}]
    {
      if id !in members { return; }
      var space := records.members[id].space;
      spaces := spaces[space := spaces[space] - {id}];
      members := members - {id};
    }

    /** `onRemoveMemberRequest`; not `found` is the nack. */
    method OnRemoveMember(id: int) returns (found: bool)
      requires Valid()
      modifies this, transportAllocator
      ensures found == (id in old(members)) && Valid()
      ensures View() == if found then MeshResults.Do(old(View()), Leave(id)) else old(View())
    {
      found := id in members;
      if !found { return; }
      ghost var before := View();
      assert MemberOk(before, id);
      MeshResults.StepKeepsInv(before, Leave(id));
      var member := records.members[id];
      if member.producer.Some? { transportAllocator.Remove(member.producer.value); }
      transportAllocator.RemoveAll(member.consumers.Values);
      Remove(id);
      assert View() == Left(before, id);
    }

    method RemoveRouter(router: int)
      requires Valid() && router in records.routers
      modifies transportAllocator, routerAllocator
      ensures Valid() && View() == MeshResults.Do(old(View()), Step.RemoveRouter(router))
    {
      MeshResults.StepKeepsInv(View(), Step.RemoveRouter(router));
      routerAllocator.Remove(router);
      assert View() == RouterRemoved(old(View()), router);
    }
  }
}
